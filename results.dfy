/**
 * The results page: recover the answer map from the query, send the browser
 * back to the questionnaire when nothing was answered, otherwise run the
 * analysis; and the two lookups that style the report.
 */
module Results {
  import opened Wrappers
  import opened Keys
  import Catalog
  import Scoring
  import Gateway
  import Assessment

  /** The answer recovered from parameter `q<i>`: JavaScript drops a missing or empty value. */
  function Recovered(query: Params, i: nat): Option<string>
    requires i < Catalog.QuestionCount
  {
    var v := Lookup(query, ParamName(i));
    if v.Some? && v.value != "" then v else None
  }

  /** The answer map built from parameters `q0` .. `q<n-1>`. */
  function Extracted(query: Params, n: nat): Scoring.Answers
    requires n <= Catalog.QuestionCount
  {
    if n == 0 then map[]
    else
      var m := Extracted(query, n - 1);
      var v := Recovered(query, n - 1);
      if v.Some? then m[QuestionKey(n - 1) := v.value] else m
  }

  /** Key `question_i` is present exactly when `q<i>` is present and non-empty, with its value; there are no other keys. */
  lemma {:induction false} ExtractedSpec(query: Params, n: nat)
    requires n <= Catalog.QuestionCount
    ensures forall i :: 0 <= i < Catalog.QuestionCount ==>
              (QuestionKey(i) in Extracted(query, n) <==> i < n && Recovered(query, i).Some?)
    ensures forall i :: 0 <= i < n && Recovered(query, i).Some? ==>
              Extracted(query, n)[QuestionKey(i)] == Recovered(query, i).value
    ensures forall k :: k in Extracted(query, n) ==> exists i :: 0 <= i < n && k == QuestionKey(i)
  {
    if n > 0 {
      ExtractedSpec(query, n - 1);
      forall i | 0 <= i < Catalog.QuestionCount {
        QuestionKeyInjective(i, n - 1);
      }
    }
  }

  /** Parameters other than `q0` .. `q7` never matter: queries that agree on those give the same map. */
  lemma {:induction false} OtherParamsIgnored(a: Params, b: Params, n: nat)
    requires n <= Catalog.QuestionCount
    requires forall i :: 0 <= i < Catalog.QuestionCount ==> Lookup(a, ParamName(i)) == Lookup(b, ParamName(i))
    ensures Extracted(a, n) == Extracted(b, n)
  {
    if n > 0 {
      OtherParamsIgnored(a, b, n - 1);
    }
  }

  /** The loop over `i < 8` that copies each non-empty `q<i>` into the map under `question_<i>`. */
  method ExtractAnswers(query: Params) returns (answers: Scoring.Answers)
    ensures answers == Extracted(query, Catalog.QuestionCount)
    ensures forall i :: 0 <= i < Catalog.QuestionCount ==>
              && (QuestionKey(i) in answers <==> Recovered(query, i).Some?)
              && (QuestionKey(i) in answers ==> answers[QuestionKey(i)] == Lookup(query, ParamName(i)).value)
    ensures forall k :: k in answers ==> exists i :: 0 <= i < Catalog.QuestionCount && k == QuestionKey(i)
  {
    answers := map[];
    var i := 0;
    while i < Catalog.QuestionCount
      invariant 0 <= i <= Catalog.QuestionCount
      invariant answers == Extracted(query, i)
    {
      var answer := Lookup(query, ParamName(i));
      if answer.Some? && answer.value != "" {
        answers := answers[QuestionKey(i) := answer.value];
      }
      i := i + 1;
    }
    ExtractedSpec(query, Catalog.QuestionCount);
  }

  /** What the page shows once the effect has run. */
  datatype Screen<J> = RedirectToAssessment | Report(analysis: Gateway.Analysis<J>)

  /**
   * No answers: back to the questionnaire, with no analysis and no request;
   * otherwise the gateway's analysis, and a request exactly when a key is stored.
   */
  method AnalyzeResponses<J>(query: Params, key: Option<string>, outcome: Gateway.Outcome,
                             parse: string -> Option<J>) returns (screen: Screen<J>, requested: bool)
    ensures var answers := Extracted(query, Catalog.QuestionCount);
      && (screen.RedirectToAssessment? <==> answers == map[])
      && (screen.Report? ==> screen.analysis == Gateway.Analyze(key, answers, outcome, parse).analysis)
      && (requested <==> answers != map[] && Gateway.HasKey(key))
  {
    var answers := ExtractAnswers(query);
    if |answers| == 0 {
      return RedirectToAssessment, false;
    }
    var reply := Gateway.Analyze(key, answers, outcome, parse);
    screen, requested := Report(reply.analysis), reply.requested;
  }

  /** A completed questionnaire's answers arrive as the same tags under `question_<k>`. */
  lemma RoundTrip(answers: map<nat, string>)
    requires forall k :: k in answers ==> k < Catalog.QuestionCount && answers[k] != ""
    ensures var m := Extracted(Assessment.Serialized(answers, Catalog.QuestionCount), Catalog.QuestionCount);
      && (forall i :: 0 <= i < Catalog.QuestionCount ==> (QuestionKey(i) in m <==> i in answers))
      && (forall i :: i in answers ==> m[QuestionKey(i)] == answers[i])
      && (forall k :: k in m ==> exists i :: i in answers && k == QuestionKey(i))
  {
    var query := Assessment.Serialized(answers, Catalog.QuestionCount);
    forall i | 0 <= i < Catalog.QuestionCount
      ensures Recovered(query, i) == if i in answers then Some(answers[i]) else None
    {
      Assessment.SerializedLookup(answers, Catalog.QuestionCount, i);
    }
    ExtractedSpec(query, Catalog.QuestionCount);
  }

  // ---------------------------------------------------------------- styling

  datatype ScoreColor = TextSuccess | TextWarning | TextDestructive

  /** The colour of the score: thresholds 80 and 60, deliberately not the tier's. */
  function ScoreColorOf(score: int): (c: ScoreColor)
    ensures c == TextSuccess <==> score >= 80
    ensures c == TextWarning <==> 60 <= score < 80
    ensures c == TextDestructive <==> score < 60
  {
    if score >= 80 then TextSuccess
    else if score >= 60 then TextWarning
    else TextDestructive
  }

  datatype BadgeVariant = Default | Secondary | Outline | Destructive

  /** The badge of a level string; an unknown level (a remote result may carry one) is outlined. */
  function LevelBadgeVariant(level: string): (v: BadgeVariant)
    ensures v == Default <==> level == "Excellent"
    ensures v == Secondary <==> level == "Good"
    ensures v == Destructive <==> level == "Needs Attention"
    ensures v == Outline <==> level != "Excellent" && level != "Good" && level != "Needs Attention"
  {
    match level
    case "Excellent" => Default
    case "Good" => Secondary
    case "Fair" => Outline
    case "Needs Attention" => Destructive
    case _ => Outline
  }

  /** Each tier's name gets its own badge, and any other string the outline. */
  lemma BadgeOfTiers(level: string)
    ensures LevelBadgeVariant(Scoring.Tier.Excellent.Name()) == Default
    ensures LevelBadgeVariant(Scoring.Tier.Good.Name()) == Secondary
    ensures LevelBadgeVariant(Scoring.Tier.Fair.Name()) == Outline
    ensures LevelBadgeVariant(Scoring.Tier.NeedsAttention.Name()) == Destructive
    ensures (forall t: Scoring.Tier :: level != t.Name()) ==> LevelBadgeVariant(level) == Outline
  {
    if forall t: Scoring.Tier :: level != t.Name() {
      assert level != Scoring.Tier.Excellent.Name() && level != Scoring.Tier.Good.Name();
      assert level != Scoring.Tier.Fair.Name() && level != Scoring.Tier.NeedsAttention.Name();
    }
  }

  /** The colour and tier thresholds differ: a Good score of 80 is already coloured as a success. */
  lemma ColorIsNotTier()
    ensures ScoreColorOf(80) == TextSuccess && Scoring.TierOf(80) == Scoring.Tier.Good
    ensures ScoreColorOf(50) == TextDestructive && Scoring.TierOf(50) == Scoring.Tier.Fair
  {
  }
}
