/** The fixed questionnaire: eight questions, each with four tagged options. */
module Catalog {

  /** One answer option: the tag stored as the answer and the label shown. */
  datatype Choice = Choice(value: string, text: string)

  datatype Question = Question(id: nat, prompt: string, options: seq<Choice>)

  const Questions: seq<Question> := [
    Question(0, "How would you rate your overall sleep quality in the past week?", [
      Choice("excellent", "Excellent - I sleep 7-9 hours and wake up refreshed"),
      Choice("good", "Good - I usually sleep well with occasional interruptions"),
      Choice("fair", "Fair - I have some difficulty falling or staying asleep"),
      Choice("poor", "Poor - I frequently have trouble sleeping")]),
    Question(1, "How often do you engage in physical exercise or movement?", [
      Choice("daily", "Daily - I exercise or move actively every day"),
      Choice("regular", "Regularly - 3-5 times per week"),
      Choice("occasional", "Occasionally - 1-2 times per week"),
      Choice("rarely", "Rarely - Less than once per week")]),
    Question(2, "How do you typically handle stress in your daily life?", [
      Choice("healthy", "I use healthy coping strategies like meditation, exercise, or talking to others"),
      Choice("mixed", "I use a mix of healthy and unhealthy coping strategies"),
      Choice("unhealthy", "I tend to use unhealthy coping strategies (overeating, isolation, etc.)"),
      Choice("overwhelmed", "I feel overwhelmed and struggle to cope with stress")]),
    Question(3, "How would you describe your social connections and relationships?", [
      Choice("strong", "Strong - I have meaningful relationships and feel well-supported"),
      Choice("adequate", "Adequate - I have some good relationships but could be stronger"),
      Choice("limited", "Limited - I have few close relationships"),
      Choice("isolated", "Isolated - I often feel lonely and disconnected")]),
    Question(4, "How often do you feel anxious or worried throughout the day?", [
      Choice("rarely", "Rarely - I feel calm and in control most of the time"),
      Choice("sometimes", "Sometimes - I experience anxiety in specific situations"),
      Choice("often", "Often - I worry frequently about various things"),
      Choice("constantly", "Constantly - I feel anxious most of the day")]),
    Question(5, "How satisfied are you with your work-life balance?", [
      Choice("very-satisfied", "Very satisfied - I maintain healthy boundaries"),
      Choice("satisfied", "Satisfied - Generally balanced with room for improvement"),
      Choice("unsatisfied", "Unsatisfied - Work often interferes with personal time"),
      Choice("very-unsatisfied", "Very unsatisfied - I feel constantly overwhelmed")]),
    Question(6, "How often do you engage in activities you enjoy or find fulfilling?", [
      Choice("daily", "Daily - I make time for enjoyable activities every day"),
      Choice("weekly", "Weekly - I regularly engage in fulfilling activities"),
      Choice("monthly", "Monthly - I occasionally make time for enjoyable activities"),
      Choice("rarely", "Rarely - I struggle to find time for things I enjoy")]),
    Question(7, "How would you rate your overall mood in the past two weeks?", [
      Choice("positive", "Mostly positive - I feel good about life most days"),
      Choice("neutral", "Neutral - I have ups and downs but generally stable"),
      Choice("low", "Often low - I frequently feel sad or unmotivated"),
      Choice("very-low", "Very low - I struggle with persistent sadness or emptiness")])
  ]

  /** The number of questions, the length of `Questions` (see `CatalogShape`). */
  const QuestionCount: nat := 8

  /** The tags a respondent can pick for question `i`. */
  function Tags(i: nat): (ts: set<string>)
    requires i < |Questions|
    ensures var o := Questions[i].options; |o| == 4 && ts == {o[0].value, o[1].value, o[2].value, o[3].value}
    ensures |ts| == 4
  {
    CatalogShape();
    FourTags(Questions[i].options);
    set c | c in Questions[i].options :: c.value
  }

  /** Four options with distinct tags offer exactly those four tags. */
  lemma FourTags(o: seq<Choice>)
    requires |o| == 4
    requires forall j, k :: 0 <= j < k < 4 ==> o[j].value != o[k].value
    ensures (set c | c in o :: c.value) == {o[0].value, o[1].value, o[2].value, o[3].value}
    ensures |{o[0].value, o[1].value, o[2].value, o[3].value}| == 4
  {
    assert o == [o[0], o[1], o[2], o[3]];
  }

  /** Eight questions; each one's id is its position and it offers four distinct tags. */
  lemma CatalogShape()
    ensures |Questions| == QuestionCount
    ensures forall i :: 0 <= i < |Questions| ==> Questions[i].id == i
    ensures forall i :: 0 <= i < |Questions| ==> |Questions[i].options| == 4
    ensures forall i, j, k :: 0 <= i < |Questions| && 0 <= j < k < 4 ==>
              Questions[i].options[j].value != Questions[i].options[k].value
  {
  }
}
