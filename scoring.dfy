/**
 * The heuristic analysis used when no remote analysis is available: a base
 * score adjusted per question slot, clamped to [0, 100], mapped to a tier and
 * a summary, plus narrative lists filled by per-slot rules.
 *
 * `MockAnalysis` is the reference definition, driven by two tables
 * (`DeltaTable` for the score, `SlotFinding` for the lists); `MockAnalyze` is
 * the step-by-step computation of the source, proved equal to it.
 */
module Scoring {
  import opened Wrappers
  import opened Keys
  import Catalog

  /** The answer map: `question_<i>` to the chosen tag; other keys are ignored. */
  type Answers = map<string, string>

  datatype Tier = Excellent | Good | Fair | NeedsAttention {
    /** The level as the result object spells it. */
    function Name(): string {
      match this
      case Excellent => "Excellent"
      case Good => "Good"
      case Fair => "Fair"
      case NeedsAttention => "Needs Attention"
    }
  }

  datatype AnalysisResult = AnalysisResult(
    overallScore: int,
    mentalFitnessLevel: Tier,
    strengths: seq<string>,
    areasForImprovement: seq<string>,
    recommendations: seq<string>,
    riskFactors: seq<string>,
    summary: string)

  const SlotCount: nat := Catalog.QuestionCount
  const BaseScore: int := 70

  /** The tag answered for slot `i`, or None when the key is absent. */
  function SlotAnswer(answers: Answers, i: nat): Option<string>
    requires i < SlotCount
  {
    if QuestionKey(i) in answers then Some(answers[QuestionKey(i)]) else None
  }

  // ---------------------------------------------------------------- score

  /** Per slot, the tags that move the score and by how much; any other tag moves it by 0. */
  const DeltaTable: seq<map<string, int>> := [
    map["excellent" := 10, "good" := 5, "poor" := -10],
    map["daily" := 10, "regular" := 5, "rarely" := -10],
    map["healthy" := 10, "overwhelmed" := -15],
    map["strong" := 10, "isolated" := -15],
    map["rarely" := 10, "constantly" := -20],
    map["very-satisfied" := 5, "very-unsatisfied" := -10],
    map["daily" := 5, "rarely" := -5],
    map["positive" := 10, "very-low" := -20]
  ]

  function Delta(i: nat, tag: Option<string>): int
    requires i < SlotCount
  {
    if tag.Some? && tag.value in DeltaTable[i] then DeltaTable[i][tag.value] else 0
  }

  /** The sum of the deltas of slots 0 .. n-1. */
  function DeltaSum(answers: Answers, n: nat): int
    requires n <= SlotCount
  {
    if n == 0 then 0 else DeltaSum(answers, n - 1) + Delta(n - 1, SlotAnswer(answers, n - 1))
  }

  /** The score before clamping: the base plus every slot's delta. */
  function RawScore(answers: Answers): int {
    BaseScore + DeltaSum(answers, SlotCount)
  }

  function Clamp(x: int): (r: int)
    ensures 0 <= r <= 100
    ensures 0 <= x <= 100 ==> r == x
    ensures x < 0 ==> r == 0
    ensures x > 100 ==> r == 100
  {
    if x < 0 then 0 else if x > 100 then 100 else x
  }

  /** The tier: a partition of the integers at 85, 70 and 50. */
  function TierOf(score: int): (t: Tier)
    ensures t == Excellent <==> score >= 85
    ensures t == Good <==> 70 <= score < 85
    ensures t == Fair <==> 50 <= score < 70
    ensures t == NeedsAttention <==> score < 50
  {
    if score >= 85 then Excellent
    else if score >= 70 then Good
    else if score >= 50 then Fair
    else NeedsAttention
  }

  const ExcellentSummary := "You demonstrate excellent mental fitness with strong habits and coping strategies."
  const GoodSummary := "You show good mental fitness with some areas for potential improvement."
  const FairSummary := "Your mental fitness is fair, with several opportunities for enhancement."
  const SupportSummary := "Your responses suggest you may benefit from additional support and improved self-care strategies."

  /** The summary sentence, chosen by its own comparisons with the tier's thresholds. */
  function SummaryOf(score: int): (s: string)
    ensures s == ExcellentSummary <==> score >= 85
    ensures s == GoodSummary <==> 70 <= score < 85
    ensures s == FairSummary <==> 50 <= score < 70
    ensures s == SupportSummary <==> score < 50
  {
    if score >= 85 then ExcellentSummary
    else if score >= 70 then GoodSummary
    else if score >= 50 then FairSummary
    else SupportSummary
  }

  /** The sentence that goes with each tier. */
  function SummaryFor(t: Tier): string {
    match t
    case Excellent => ExcellentSummary
    case Good => GoodSummary
    case Fair => FairSummary
    case NeedsAttention => SupportSummary
  }

  // ---------------------------------------------------------------- narrative

  const SleepStrength := "You maintain good sleep hygiene and quality rest"
  const SleepArea := "Sleep quality could be improved for better mental health"
  const SleepAdvice := "Establish a consistent bedtime routine and create a sleep-friendly environment"
  const ExerciseStrength := "You maintain an active lifestyle with regular physical activity"
  const ExerciseArea := "Increasing physical activity could boost your mental well-being"
  const ExerciseAdvice := "Start with 10-15 minutes of daily movement and gradually increase"
  const StressStrength := "You have developed healthy coping mechanisms for stress"
  const StressRisk := "High stress levels with inadequate coping strategies may impact mental health"
  const StressAdvice := "Consider learning stress management techniques like meditation or deep breathing"
  const SocialStrength := "You have strong social support networks"
  const SocialRisk := "Social isolation can significantly impact mental health"
  const SocialAdvice := "Try to reach out to one person each week and consider joining social activities"
  const AnxietyRisk := "Persistent anxiety may require professional support"
  const AnxietyAdvice := "Consider speaking with a mental health professional about anxiety management"
  const AnxietyStrength := "You maintain good emotional regulation and low anxiety levels"
  const MoodRisk := "Persistent low mood may indicate depression and should be addressed"
  const MoodAdvice := "Please consider reaching out to a mental health professional for support"
  const MoodStrength := "You maintain a positive outlook and good emotional well-being"
  const DefaultAdvice := [
    "Continue maintaining your current positive mental health practices",
    "Consider adding mindfulness or meditation to your routine"]

  /** What one slot contributes to the narrative lists; every Improvement and Risk carries its advice. */
  datatype Finding =
    | Strength(text: string)
    | Improvement(area: string, advice: string)
    | Risk(risk: string, advice: string)
    | Silent

  /** The narrative rule of each slot that has one (slots 5 and 6 have none). */
  function SlotFinding(i: nat, tag: Option<string>): Finding {
    if i == 0 then SleepFinding(tag)
    else if i == 1 then ExerciseFinding(tag)
    else if i == 2 then StressFinding(tag)
    else if i == 3 then SocialFinding(tag)
    else if i == 4 then AnxietyFinding(tag)
    else if i == 7 then MoodFinding(tag)
    else Silent
  }

  function SleepFinding(tag: Option<string>): Finding {
    if tag == Some("excellent") || tag == Some("good") then Strength(SleepStrength)
    else Improvement(SleepArea, SleepAdvice)
  }

  function ExerciseFinding(tag: Option<string>): Finding {
    if tag == Some("daily") || tag == Some("regular") then Strength(ExerciseStrength)
    else Improvement(ExerciseArea, ExerciseAdvice)
  }

  function StressFinding(tag: Option<string>): Finding {
    if tag == Some("healthy") then Strength(StressStrength)
    else if tag == Some("overwhelmed") then Risk(StressRisk, StressAdvice)
    else Silent
  }

  function SocialFinding(tag: Option<string>): Finding {
    if tag == Some("strong") then Strength(SocialStrength)
    else if tag == Some("isolated") then Risk(SocialRisk, SocialAdvice)
    else Silent
  }

  function AnxietyFinding(tag: Option<string>): Finding {
    if tag == Some("constantly") then Risk(AnxietyRisk, AnxietyAdvice)
    else if tag == Some("rarely") then Strength(AnxietyStrength)
    else Silent
  }

  function MoodFinding(tag: Option<string>): Finding {
    if tag == Some("very-low") then Risk(MoodRisk, MoodAdvice)
    else if tag == Some("positive") then Strength(MoodStrength)
    else Silent
  }

  /** The slots with a narrative rule, in the order their entries appear. */
  const NarrativeSlots: seq<nat> := [0, 1, 2, 3, 4, 7]

  function Findings(answers: Answers): (fs: seq<Finding>)
    ensures |fs| == |NarrativeSlots|
  {
    seq(|NarrativeSlots|, k requires 0 <= k < |NarrativeSlots| =>
      SlotFinding(NarrativeSlots[k], SlotAnswer(answers, NarrativeSlots[k])))
  }

  /** What one finding contributes to each list. */
  function StrengthOf(f: Finding): seq<string> { if f.Strength? then [f.text] else [] }
  function AreaOf(f: Finding): seq<string> { if f.Improvement? then [f.area] else [] }
  function RiskOf(f: Finding): seq<string> { if f.Risk? then [f.risk] else [] }
  function AdviceOf(f: Finding): seq<string> { if f.Improvement? || f.Risk? then [f.advice] else [] }

  function Strengths(fs: seq<Finding>): seq<string> {
    if fs == [] then [] else StrengthOf(fs[0]) + Strengths(fs[1..])
  }

  function Areas(fs: seq<Finding>): seq<string> {
    if fs == [] then [] else AreaOf(fs[0]) + Areas(fs[1..])
  }

  function Risks(fs: seq<Finding>): seq<string> {
    if fs == [] then [] else RiskOf(fs[0]) + Risks(fs[1..])
  }

  /** The recommendations the slot rules push, in slot order. */
  function Advice(fs: seq<Finding>): seq<string> {
    if fs == [] then [] else AdviceOf(fs[0]) + Advice(fs[1..])
  }

  function Recommendations(fs: seq<Finding>): seq<string> {
    if Advice(fs) == [] then DefaultAdvice else Advice(fs)
  }

  /** The four lists the source fills, before defaults are substituted. */
  datatype Insights = Insights(strengths: seq<string>, areas: seq<string>, risks: seq<string>, recommendations: seq<string>) {
    /** The lists after the pushes one finding makes. */
    function With(f: Finding): Insights {
      Insights(strengths + StrengthOf(f), areas + AreaOf(f), risks + RiskOf(f), recommendations + AdviceOf(f))
    }
  }

  const NoInsights := Insights([], [], [], [])

  /** The four lists the findings produce, before defaults are substituted. */
  function Lists(fs: seq<Finding>): Insights {
    Insights(Strengths(fs), Areas(fs), Risks(fs), Advice(fs))
  }

  /** One more finding appends its entries at the end of each list. */
  lemma ListsSnoc(fs: seq<Finding>, f: Finding)
    ensures Lists(fs + [f]) == Lists(fs).With(f)
  {
    assert [f][1..] == [];
    assert Strengths([f]) == StrengthOf(f) + [];
    assert Areas([f]) == AreaOf(f) + [];
    assert Risks([f]) == RiskOf(f) + [];
    assert Advice([f]) == AdviceOf(f) + [];
    StrengthsAppend(fs, [f]);
    AreasAppend(fs, [f]);
    RisksAppend(fs, [f]);
    AdviceAppend(fs, [f]);
  }

  /** The lists of six findings are what pushing each one in turn produces. */
  lemma ListsOfSix(f0: Finding, f1: Finding, f2: Finding, f3: Finding, f4: Finding, f5: Finding)
    ensures Lists([f0, f1, f2, f3, f4, f5]) == NoInsights.With(f0).With(f1).With(f2).With(f3).With(f4).With(f5)
  {
    ListsSnoc([], f0);
    assert [] + [f0] == [f0];
    ListsSnoc([f0], f1);
    assert [f0] + [f1] == [f0, f1];
    ListsSnoc([f0, f1], f2);
    assert [f0, f1] + [f2] == [f0, f1, f2];
    ListsSnoc([f0, f1, f2], f3);
    assert [f0, f1, f2] + [f3] == [f0, f1, f2, f3];
    ListsSnoc([f0, f1, f2, f3], f4);
    assert [f0, f1, f2, f3] + [f4] == [f0, f1, f2, f3, f4];
    ListsSnoc([f0, f1, f2, f3, f4], f5);
    assert [f0, f1, f2, f3, f4] + [f5] == [f0, f1, f2, f3, f4, f5];
  }

  lemma {:induction false} StrengthsAppend(fs: seq<Finding>, gs: seq<Finding>)
    ensures Strengths(fs + gs) == Strengths(fs) + Strengths(gs)
  {
    if fs == [] {
      assert fs + gs == gs;
    } else {
      assert (fs + gs)[1..] == fs[1..] + gs;
      StrengthsAppend(fs[1..], gs);
    }
  }

  lemma {:induction false} AreasAppend(fs: seq<Finding>, gs: seq<Finding>)
    ensures Areas(fs + gs) == Areas(fs) + Areas(gs)
  {
    if fs == [] {
      assert fs + gs == gs;
    } else {
      assert (fs + gs)[1..] == fs[1..] + gs;
      AreasAppend(fs[1..], gs);
    }
  }

  lemma {:induction false} RisksAppend(fs: seq<Finding>, gs: seq<Finding>)
    ensures Risks(fs + gs) == Risks(fs) + Risks(gs)
  {
    if fs == [] {
      assert fs + gs == gs;
    } else {
      assert (fs + gs)[1..] == fs[1..] + gs;
      RisksAppend(fs[1..], gs);
    }
  }

  lemma {:induction false} AdviceAppend(fs: seq<Finding>, gs: seq<Finding>)
    ensures Advice(fs + gs) == Advice(fs) + Advice(gs)
  {
    if fs == [] {
      assert fs + gs == gs;
    } else {
      assert (fs + gs)[1..] == fs[1..] + gs;
      AdviceAppend(fs[1..], gs);
    }
  }

  /** The reference definition of the heuristic analysis. */
  function MockAnalysis(answers: Answers): AnalysisResult {
    var score := Clamp(RawScore(answers));
    var fs := Findings(answers);
    AnalysisResult(score, TierOf(score), Strengths(fs), Areas(fs), Recommendations(fs), Risks(fs), SummaryOf(score))
  }

  // ---------------------------------------------------------------- the computation

  /** Row `i` of the score table, as the chain of comparisons the source writes for slot `i`. */
  function Row(i: nat, tag: Option<string>): int
    requires i < SlotCount
  {
    if i == 0 then
      if tag == Some("excellent") then 10 else if tag == Some("good") then 5
      else if tag == Some("poor") then -10 else 0
    else if i == 1 then
      if tag == Some("daily") then 10 else if tag == Some("regular") then 5
      else if tag == Some("rarely") then -10 else 0
    else if i == 2 then
      if tag == Some("healthy") then 10 else if tag == Some("overwhelmed") then -15 else 0
    else if i == 3 then
      if tag == Some("strong") then 10 else if tag == Some("isolated") then -15 else 0
    else if i == 4 then
      if tag == Some("rarely") then 10 else if tag == Some("constantly") then -20 else 0
    else if i == 5 then
      if tag == Some("very-satisfied") then 5 else if tag == Some("very-unsatisfied") then -10 else 0
    else if i == 6 then
      if tag == Some("daily") then 5 else if tag == Some("rarely") then -5 else 0
    else
      if tag == Some("positive") then 10 else if tag == Some("very-low") then -20 else 0
  }

  /** The table and the comparison chains agree on every slot and every answer. */
  lemma DeltaIsRow(i: nat, tag: Option<string>)
    requires i < SlotCount
    ensures Delta(i, tag) == Row(i, tag)
  {
  }

  /** The raw score as the base plus the eight slot deltas written out. */
  lemma RawScoreUnfold(answers: Answers)
    ensures RawScore(answers) == BaseScore
      + Delta(0, SlotAnswer(answers, 0)) + Delta(1, SlotAnswer(answers, 1))
      + Delta(2, SlotAnswer(answers, 2)) + Delta(3, SlotAnswer(answers, 3))
      + Delta(4, SlotAnswer(answers, 4)) + Delta(5, SlotAnswer(answers, 5))
      + Delta(6, SlotAnswer(answers, 6)) + Delta(7, SlotAnswer(answers, 7))
  {
    assert DeltaSum(answers, 1) == Delta(0, SlotAnswer(answers, 0));
    assert DeltaSum(answers, 2) == DeltaSum(answers, 1) + Delta(1, SlotAnswer(answers, 1));
    assert DeltaSum(answers, 3) == DeltaSum(answers, 2) + Delta(2, SlotAnswer(answers, 2));
    assert DeltaSum(answers, 4) == DeltaSum(answers, 3) + Delta(3, SlotAnswer(answers, 3));
    assert DeltaSum(answers, 5) == DeltaSum(answers, 4) + Delta(4, SlotAnswer(answers, 4));
    assert DeltaSum(answers, 6) == DeltaSum(answers, 5) + Delta(5, SlotAnswer(answers, 5));
    assert DeltaSum(answers, 7) == DeltaSum(answers, 6) + Delta(6, SlotAnswer(answers, 6));
    assert DeltaSum(answers, 8) == DeltaSum(answers, 7) + Delta(7, SlotAnswer(answers, 7));
  }

  /** The findings written out, one per narrative slot. */
  lemma FindingsUnfold(answers: Answers)
    ensures Findings(answers) == [
      SlotFinding(0, SlotAnswer(answers, 0)), SlotFinding(1, SlotAnswer(answers, 1)),
      SlotFinding(2, SlotAnswer(answers, 2)), SlotFinding(3, SlotAnswer(answers, 3)),
      SlotFinding(4, SlotAnswer(answers, 4)), SlotFinding(7, SlotAnswer(answers, 7))]
  {
  }

  /** The running score of the source: the base, adjusted slot by slot through if/else chains. */
  method ComputeRawScore(answers: Answers) returns (score: int)
    ensures score == RawScore(answers)
  {
    var q0, q1, q2, q3 := SlotAnswer(answers, 0), SlotAnswer(answers, 1), SlotAnswer(answers, 2), SlotAnswer(answers, 3);
    var q4, q5, q6, q7 := SlotAnswer(answers, 4), SlotAnswer(answers, 5), SlotAnswer(answers, 6), SlotAnswer(answers, 7);
    score := BaseScore;
    ghost var before := score;
    if q0 == Some("excellent") { score := score + 10; }
    else if q0 == Some("good") { score := score + 5; }
    else if q0 == Some("poor") { score := score - 10; }
    assert score == before + Row(0, q0);
    before := score;
    if q1 == Some("daily") { score := score + 10; }
    else if q1 == Some("regular") { score := score + 5; }
    else if q1 == Some("rarely") { score := score - 10; }
    assert score == before + Row(1, q1);
    before := score;
    if q2 == Some("healthy") { score := score + 10; }
    else if q2 == Some("overwhelmed") { score := score - 15; }
    assert score == before + Row(2, q2);
    before := score;
    if q3 == Some("strong") { score := score + 10; }
    else if q3 == Some("isolated") { score := score - 15; }
    assert score == before + Row(3, q3);
    before := score;
    if q4 == Some("rarely") { score := score + 10; }
    else if q4 == Some("constantly") { score := score - 20; }
    assert score == before + Row(4, q4);
    before := score;
    if q5 == Some("very-satisfied") { score := score + 5; }
    else if q5 == Some("very-unsatisfied") { score := score - 10; }
    assert score == before + Row(5, q5);
    before := score;
    if q6 == Some("daily") { score := score + 5; }
    else if q6 == Some("rarely") { score := score - 5; }
    assert score == before + Row(6, q6);
    before := score;
    if q7 == Some("positive") { score := score + 10; }
    else if q7 == Some("very-low") { score := score - 20; }
    assert score == before + Row(7, q7);
    assert score == BaseScore + Row(0, q0) + Row(1, q1) + Row(2, q2) + Row(3, q3)
                              + Row(4, q4) + Row(5, q5) + Row(6, q6) + Row(7, q7);
    DeltaIsRow(0, q0); DeltaIsRow(1, q1); DeltaIsRow(2, q2); DeltaIsRow(3, q3);
    DeltaIsRow(4, q4); DeltaIsRow(5, q5); DeltaIsRow(6, q6); DeltaIsRow(7, q7);
    RawScoreUnfold(answers);
  }

  /** The source's pushes into the four lists, slot by slot, before the default recommendations. */
  method ComputeLists(answers: Answers) returns (ins: Insights)
    ensures ins == Lists(Findings(answers))
  {
    ins := NoInsights;
    ins := SleepAnalysis(SlotAnswer(answers, 0), ins);
    ins := ExerciseAnalysis(SlotAnswer(answers, 1), ins);
    ins := StressAnalysis(SlotAnswer(answers, 2), ins);
    ins := SocialAnalysis(SlotAnswer(answers, 3), ins);
    ins := AnxietyAnalysis(SlotAnswer(answers, 4), ins);
    ins := MoodAnalysis(SlotAnswer(answers, 7), ins);
    FindingsUnfold(answers);
    ListsOfSix(SleepFinding(SlotAnswer(answers, 0)), ExerciseFinding(SlotAnswer(answers, 1)),
               StressFinding(SlotAnswer(answers, 2)), SocialFinding(SlotAnswer(answers, 3)),
               AnxietyFinding(SlotAnswer(answers, 4)), MoodFinding(SlotAnswer(answers, 7)));
  }

  method SleepAnalysis(q0: Option<string>, ins: Insights) returns (out: Insights)
    ensures out == ins.With(SleepFinding(q0))
  {
    out := ins;
    if q0 == Some("excellent") || q0 == Some("good") {
      out := out.(strengths := out.strengths + [SleepStrength]);
    } else {
      out := out.(areas := out.areas + [SleepArea]);
      out := out.(recommendations := out.recommendations + [SleepAdvice]);
    }
  }

  method ExerciseAnalysis(q1: Option<string>, ins: Insights) returns (out: Insights)
    ensures out == ins.With(ExerciseFinding(q1))
  {
    out := ins;
    if q1 == Some("daily") || q1 == Some("regular") {
      out := out.(strengths := out.strengths + [ExerciseStrength]);
    } else {
      out := out.(areas := out.areas + [ExerciseArea]);
      out := out.(recommendations := out.recommendations + [ExerciseAdvice]);
    }
  }

  method StressAnalysis(q2: Option<string>, ins: Insights) returns (out: Insights)
    ensures out == ins.With(StressFinding(q2))
  {
    out := ins;
    if q2 == Some("healthy") {
      out := out.(strengths := out.strengths + [StressStrength]);
    } else if q2 == Some("overwhelmed") {
      out := out.(risks := out.risks + [StressRisk]);
      out := out.(recommendations := out.recommendations + [StressAdvice]);
    }
  }

  method SocialAnalysis(q3: Option<string>, ins: Insights) returns (out: Insights)
    ensures out == ins.With(SocialFinding(q3))
  {
    out := ins;
    if q3 == Some("strong") {
      out := out.(strengths := out.strengths + [SocialStrength]);
    } else if q3 == Some("isolated") {
      out := out.(risks := out.risks + [SocialRisk]);
      out := out.(recommendations := out.recommendations + [SocialAdvice]);
    }
  }

  method AnxietyAnalysis(q4: Option<string>, ins: Insights) returns (out: Insights)
    ensures out == ins.With(AnxietyFinding(q4))
  {
    out := ins;
    if q4 == Some("constantly") {
      out := out.(risks := out.risks + [AnxietyRisk]);
      out := out.(recommendations := out.recommendations + [AnxietyAdvice]);
    } else if q4 == Some("rarely") {
      out := out.(strengths := out.strengths + [AnxietyStrength]);
    }
  }

  method MoodAnalysis(q7: Option<string>, ins: Insights) returns (out: Insights)
    ensures out == ins.With(MoodFinding(q7))
  {
    out := ins;
    if q7 == Some("very-low") {
      out := out.(risks := out.risks + [MoodRisk]);
      out := out.(recommendations := out.recommendations + [MoodAdvice]);
    } else if q7 == Some("positive") {
      out := out.(strengths := out.strengths + [MoodStrength]);
    }
  }

  /** The heuristic analysis as the source computes it, equal to the reference definition. */
  method MockAnalyze(answers: Answers) returns (r: AnalysisResult)
    ensures r == MockAnalysis(answers)
  {
    var score := ComputeRawScore(answers);
    score := if score < 0 then 0 else if score > 100 then 100 else score;

    var level;
    if score >= 85 { level := Excellent; }
    else if score >= 70 { level := Good; }
    else if score >= 50 { level := Fair; }
    else { level := NeedsAttention; }

    var ins := ComputeLists(answers);
    var recommendations := ins.recommendations;
    if |recommendations| == 0 {
      recommendations := recommendations + [DefaultAdvice[0]];
      recommendations := recommendations + [DefaultAdvice[1]];
    }

    var summary := if score >= 85 then ExcellentSummary
      else if score >= 70 then GoodSummary
      else if score >= 50 then FairSummary
      else SupportSummary;

    r := AnalysisResult(score, level, ins.strengths, ins.areas, recommendations, ins.risks, summary);
  }

  // ---------------------------------------------------------------- properties

  /** The score is clamped into [0, 100]; before clamping it lies in [-35, 140]. */
  lemma ScoreBounded(answers: Answers)
    ensures -35 <= RawScore(answers) <= 140
    ensures MockAnalysis(answers).overallScore == Clamp(RawScore(answers))
    ensures 0 <= MockAnalysis(answers).overallScore <= 100
  {
    RawScoreUnfold(answers);
    forall i | 0 <= i < SlotCount
      ensures MinDelta[i] <= Delta(i, SlotAnswer(answers, i)) <= MaxDelta[i]
    {
      DeltaIsRow(i, SlotAnswer(answers, i));
    }
  }

  /** The least and greatest delta each slot's table offers. */
  const MinDelta: seq<int> := [-10, -10, -15, -15, -20, -10, -5, -20]
  const MaxDelta: seq<int> := [10, 10, 10, 10, 10, 5, 5, 10]

  /** The summary, chosen by its own comparisons, always is the sentence of the tier. */
  lemma SummaryMatchesTier(score: int)
    ensures SummaryOf(score) == SummaryFor(TierOf(score))
  {
  }

  /** Tier and summary agree: two results share a tier exactly when they share a summary. */
  lemma TierAndSummaryAgree(a: Answers, b: Answers)
    ensures MockAnalysis(a).mentalFitnessLevel == TierOf(MockAnalysis(a).overallScore)
    ensures MockAnalysis(a).summary == SummaryFor(MockAnalysis(a).mentalFitnessLevel)
    ensures MockAnalysis(a).mentalFitnessLevel == MockAnalysis(b).mentalFitnessLevel
            <==> MockAnalysis(a).summary == MockAnalysis(b).summary
  {
    SummaryMatchesTier(MockAnalysis(a).overallScore);
    SummaryMatchesTier(MockAnalysis(b).overallScore);
  }

  /** Every improvement area and every risk comes with exactly one recommendation. */
  lemma {:induction false} AdviceCount(fs: seq<Finding>)
    ensures |Advice(fs)| == |Areas(fs)| + |Risks(fs)|
  {
    if fs != [] {
      AdviceCount(fs[1..]);
    }
  }

  /**
   * The recommendations are one per area and risk when there is any, and
   * otherwise exactly the two defaults; so they are never empty.
   */
  lemma RecommendationsPaired(answers: Answers)
    ensures var r := MockAnalysis(answers);
      && (|r.areasForImprovement| + |r.riskFactors| > 0 ==>
            |r.recommendations| == |r.areasForImprovement| + |r.riskFactors|)
      && (|r.areasForImprovement| + |r.riskFactors| == 0 ==> r.recommendations == DefaultAdvice)
      && |r.recommendations| >= 1
  {
    var fs := Findings(answers);
    AdviceCount(fs);
    FindingsUnfold(answers);
    ListsOfSix(fs[0], fs[1], fs[2], fs[3], fs[4], fs[5]);
  }

  /** With no answers: base score, tier Good, and the sleep and exercise advice rather than the defaults. */
  lemma EmptyAnswers()
    ensures MockAnalysis(map[]) == AnalysisResult(70, Good, [], [SleepArea, ExerciseArea],
                                                 [SleepAdvice, ExerciseAdvice], [], GoodSummary)
  {
    var none: Answers := map[];
    SlotAnswers(none, EmptySlots);
    EmptySlotFacts();
    ResultFromSlots(none, EmptySlots, EmptyFs);
    EmptyLists();
    AnalysisFrom(none, 70, Insights([], [SleepArea, ExerciseArea], [], [SleepAdvice, ExerciseAdvice]));
  }

  /** The slot answers and findings of the empty map. */
  const EmptySlots: seq<Option<string>> := [None, None, None, None, None, None, None, None]
  const EmptyFs := [Improvement(SleepArea, SleepAdvice), Improvement(ExerciseArea, ExerciseAdvice),
                    Silent, Silent, Silent, Silent]

  /** The empty map's findings, slot by slot, and its zero score deltas. */
  lemma EmptySlotFacts()
    ensures EmptyFs == [SleepFinding(EmptySlots[0]), ExerciseFinding(EmptySlots[1]), StressFinding(EmptySlots[2]),
                        SocialFinding(EmptySlots[3]), AnxietyFinding(EmptySlots[4]), MoodFinding(EmptySlots[7])]
    ensures forall i :: 0 <= i < SlotCount ==> Row(i, EmptySlots[i]) == 0
  {
  }

  /** The empty map's lists: only the sleep and exercise entries. */
  lemma EmptyLists()
    ensures Lists(EmptyFs) == Insights([], [SleepArea, ExerciseArea], [], [SleepAdvice, ExerciseAdvice])
  {
    var fs := EmptyFs;
    ListsOfSix(fs[0], fs[1], fs[2], fs[3], fs[4], fs[5]);
    var i2 := NoInsights.With(fs[0]).With(fs[1]);
    assert i2 == Insights([], [SleepArea, ExerciseArea], [], [SleepAdvice, ExerciseAdvice]);
  }

  /** The best answer to every narrative slot, and the four alarming answers. */
  const BestMap: Answers := map[QuestionKey(0) := "excellent", QuestionKey(1) := "daily", QuestionKey(2) := "healthy",
                                QuestionKey(3) := "strong", QuestionKey(4) := "rarely", QuestionKey(7) := "positive"]
  const BestSlots := [Some("excellent"), Some("daily"), Some("healthy"), Some("strong"), Some("rarely"), None, None, Some("positive")]
  const AlarmingMap: Answers := map[QuestionKey(2) := "overwhelmed", QuestionKey(3) := "isolated",
                                    QuestionKey(4) := "constantly", QuestionKey(7) := "very-low"]
  const AlarmingSlots := [None, None, Some("overwhelmed"), Some("isolated"), Some("constantly"), None, None, Some("very-low")]

  /** The slot answers of the two example maps. */
  lemma ReadBestMap()
    ensures forall i :: 0 <= i < SlotCount ==> SlotAnswer(BestMap, i) == BestSlots[i]
  {
    QuestionKeysDistinct();
    SlotAnswers(BestMap, BestSlots);
  }

  lemma ReadAlarmingMap()
    ensures forall i :: 0 <= i < SlotCount ==> SlotAnswer(AlarmingMap, i) == AlarmingSlots[i]
  {
    QuestionKeysDistinct();
    SlotAnswers(AlarmingMap, AlarmingSlots);
  }

  /** The eight question keys are pairwise distinct. */
  lemma QuestionKeysDistinct()
    ensures forall i, j :: 0 <= i < SlotCount && 0 <= j < SlotCount ==> (QuestionKey(i) == QuestionKey(j) <==> i == j)
  {
    forall i, j | 0 <= i < SlotCount && 0 <= j < SlotCount ensures QuestionKey(i) == QuestionKey(j) <==> i == j {
      QuestionKeyInjective(i, j);
    }
  }

  /** The best answers score 130 before clamping, and yield six strengths in slot order and the default advice. */
  lemma BestAnswers()
    ensures RawScore(BestMap) == 130
    ensures MockAnalysis(BestMap) == AnalysisResult(100, Excellent,
              [SleepStrength, ExerciseStrength, StressStrength, SocialStrength, AnxietyStrength, MoodStrength],
              [], DefaultAdvice, [], ExcellentSummary)
  {
    var ins := BestFindings();
    AnalysisFrom(BestMap, 130, ins);
  }

  /** The best answers' raw score and lists. */
  lemma BestFindings() returns (ins: Insights)
    ensures RawScore(BestMap) == 130
    ensures Lists(Findings(BestMap)) == ins
    ensures ins == Insights(
      [SleepStrength, ExerciseStrength, StressStrength, SocialStrength, AnxietyStrength, MoodStrength], [], [], [])
  {
    ReadBestMap();
    BestSlotFacts();
    ResultFromSlots(BestMap, BestSlots, BestFs);
    BestLists();
    ins := Lists(BestFs);
  }

  /** The findings of the best answers. */
  const BestFs := [Strength(SleepStrength), Strength(ExerciseStrength), Strength(StressStrength),
                   Strength(SocialStrength), Strength(AnxietyStrength), Strength(MoodStrength)]

  /** The best answers' findings, slot by slot, and their score deltas. */
  lemma BestSlotFacts()
    ensures BestFs == [SleepFinding(BestSlots[0]), ExerciseFinding(BestSlots[1]), StressFinding(BestSlots[2]),
                       SocialFinding(BestSlots[3]), AnxietyFinding(BestSlots[4]), MoodFinding(BestSlots[7])]
    ensures Row(0, BestSlots[0]) == 10 && Row(1, BestSlots[1]) == 10 && Row(2, BestSlots[2]) == 10
    ensures Row(3, BestSlots[3]) == 10 && Row(4, BestSlots[4]) == 10 && Row(5, BestSlots[5]) == 0
    ensures Row(6, BestSlots[6]) == 0 && Row(7, BestSlots[7]) == 10
  {
  }

  /** The best answers' lists: six strengths and nothing else. */
  lemma BestLists()
    ensures Lists(BestFs) == Insights(
      [SleepStrength, ExerciseStrength, StressStrength, SocialStrength, AnxietyStrength, MoodStrength], [], [], [])
  {
    var fs := BestFs;
    ListsOfSix(fs[0], fs[1], fs[2], fs[3], fs[4], fs[5]);
    var i3 := NoInsights.With(fs[0]).With(fs[1]).With(fs[2]);
    assert i3 == Insights([SleepStrength, ExerciseStrength, StressStrength], [], [], []);
  }

  /** The four alarming answers score 0, with four risks, each with its advice after the sleep and exercise advice. */
  lemma AlarmingAnswers()
    ensures RawScore(AlarmingMap) == 0
    ensures MockAnalysis(AlarmingMap) == AnalysisResult(0, NeedsAttention, [], [SleepArea, ExerciseArea],
              [SleepAdvice, ExerciseAdvice, StressAdvice, SocialAdvice, AnxietyAdvice, MoodAdvice],
              [StressRisk, SocialRisk, AnxietyRisk, MoodRisk], SupportSummary)
  {
    var ins := AlarmingFindings();
    AnalysisFrom(AlarmingMap, 0, ins);
  }

  /** The alarming answers' raw score and lists. */
  lemma AlarmingFindings() returns (ins: Insights)
    ensures RawScore(AlarmingMap) == 0
    ensures Lists(Findings(AlarmingMap)) == ins
    ensures ins == Insights([], [SleepArea, ExerciseArea], [StressRisk, SocialRisk, AnxietyRisk, MoodRisk],
      [SleepAdvice, ExerciseAdvice, StressAdvice, SocialAdvice, AnxietyAdvice, MoodAdvice])
  {
    ReadAlarmingMap();
    AlarmingSlotFacts();
    ResultFromSlots(AlarmingMap, AlarmingSlots, AlarmingFs);
    AlarmingLists();
    ins := Lists(AlarmingFs);
  }

  /** The findings of the alarming answers. */
  const AlarmingFs := [Improvement(SleepArea, SleepAdvice), Improvement(ExerciseArea, ExerciseAdvice),
                       Risk(StressRisk, StressAdvice), Risk(SocialRisk, SocialAdvice),
                       Risk(AnxietyRisk, AnxietyAdvice), Risk(MoodRisk, MoodAdvice)]

  /** The alarming answers' findings, slot by slot, and their score deltas. */
  lemma AlarmingSlotFacts()
    ensures AlarmingFs == [SleepFinding(AlarmingSlots[0]), ExerciseFinding(AlarmingSlots[1]),
                           StressFinding(AlarmingSlots[2]), SocialFinding(AlarmingSlots[3]),
                           AnxietyFinding(AlarmingSlots[4]), MoodFinding(AlarmingSlots[7])]
    ensures Row(0, AlarmingSlots[0]) == 0 && Row(1, AlarmingSlots[1]) == 0 && Row(2, AlarmingSlots[2]) == -15
    ensures Row(3, AlarmingSlots[3]) == -15 && Row(4, AlarmingSlots[4]) == -20 && Row(5, AlarmingSlots[5]) == 0
    ensures Row(6, AlarmingSlots[6]) == 0 && Row(7, AlarmingSlots[7]) == -20
  {
  }

  /** The alarming answers' lists: two areas, four risks, and six pieces of advice. */
  lemma AlarmingLists()
    ensures Lists(AlarmingFs) == Insights([], [SleepArea, ExerciseArea], [StressRisk, SocialRisk, AnxietyRisk, MoodRisk],
      [SleepAdvice, ExerciseAdvice, StressAdvice, SocialAdvice, AnxietyAdvice, MoodAdvice])
  {
    TwoAreasFourRisks(SleepArea, SleepAdvice, ExerciseArea, ExerciseAdvice, StressRisk, StressAdvice,
                      SocialRisk, SocialAdvice, AnxietyRisk, AnxietyAdvice, MoodRisk, MoodAdvice);
  }

  /** Two improvement findings followed by four risk findings, whatever their texts. */
  lemma TwoAreasFourRisks(a0: string, d0: string, a1: string, d1: string, r2: string, d2: string,
                          r3: string, d3: string, r4: string, d4: string, r5: string, d5: string)
    ensures Lists([Improvement(a0, d0), Improvement(a1, d1), Risk(r2, d2), Risk(r3, d3), Risk(r4, d4), Risk(r5, d5)])
            == Insights([], [a0, a1], [r2, r3, r4, r5], [d0, d1, d2, d3, d4, d5])
  {
    ListsOfSix(Improvement(a0, d0), Improvement(a1, d1), Risk(r2, d2), Risk(r3, d3), Risk(r4, d4), Risk(r5, d5));
    var i2 := NoInsights.With(Improvement(a0, d0)).With(Improvement(a1, d1));
    assert i2 == Insights([], [a0, a1], [], [d0, d1]);
    var i4 := i2.With(Risk(r2, d2)).With(Risk(r3, d3));
    assert i4 == Insights([], [a0, a1], [r2, r3], [d0, d1, d2, d3]);
  }

  /** The analysis of a map from its raw score and its lists. */
  lemma AnalysisFrom(answers: Answers, raw: int, ins: Insights)
    requires RawScore(answers) == raw && Lists(Findings(answers)) == ins
    ensures MockAnalysis(answers) == AnalysisResult(Clamp(raw), TierOf(Clamp(raw)), ins.strengths, ins.areas,
              if ins.recommendations == [] then DefaultAdvice else ins.recommendations, ins.risks, SummaryOf(Clamp(raw)))
  {
  }

  /** The raw score and the findings of a map, from its eight slot answers. */
  lemma ResultFromSlots(answers: Answers, q: seq<Option<string>>, fs: seq<Finding>)
    requires |q| == SlotCount && |fs| == |NarrativeSlots|
    requires forall i :: 0 <= i < SlotCount ==> SlotAnswer(answers, i) == q[i]
    requires fs == [SleepFinding(q[0]), ExerciseFinding(q[1]), StressFinding(q[2]),
                    SocialFinding(q[3]), AnxietyFinding(q[4]), MoodFinding(q[7])]
    ensures RawScore(answers) == BaseScore + Row(0, q[0]) + Row(1, q[1]) + Row(2, q[2]) + Row(3, q[3])
                                           + Row(4, q[4]) + Row(5, q[5]) + Row(6, q[6]) + Row(7, q[7])
    ensures Findings(answers) == fs
  {
    RawScoreUnfold(answers);
    DeltaIsRow(0, q[0]); DeltaIsRow(1, q[1]); DeltaIsRow(2, q[2]); DeltaIsRow(3, q[3]);
    DeltaIsRow(4, q[4]); DeltaIsRow(5, q[5]); DeltaIsRow(6, q[6]); DeltaIsRow(7, q[7]);
    FindingsUnfold(answers);
  }

  /** Reads off the slot answers of a map whose keys are all question keys. */
  lemma SlotAnswers(answers: Answers, q: seq<Option<string>>)
    requires |q| == SlotCount
    requires forall i :: 0 <= i < SlotCount ==> (QuestionKey(i) in answers <==> q[i].Some?)
    requires forall i :: 0 <= i < SlotCount && q[i].Some? ==> answers[QuestionKey(i)] == q[i].value
    ensures forall i :: 0 <= i < SlotCount ==> SlotAnswer(answers, i) == q[i]
  {
  }

  /** Slots 5 and 6 move only the score: answers that agree on the narrative slots give the same lists. */
  lemma NarrativeIgnoresSlots5And6(a: Answers, b: Answers)
    requires forall k :: 0 <= k < |NarrativeSlots| ==>
               SlotAnswer(a, NarrativeSlots[k]) == SlotAnswer(b, NarrativeSlots[k])
    ensures MockAnalysis(a).strengths == MockAnalysis(b).strengths
    ensures MockAnalysis(a).areasForImprovement == MockAnalysis(b).areasForImprovement
    ensures MockAnalysis(a).riskFactors == MockAnalysis(b).riskFactors
    ensures MockAnalysis(a).recommendations == MockAnalysis(b).recommendations
  {
    assert Findings(a) == Findings(b);
  }

  /** Only the eight question keys matter; any other key of the map is ignored. */
  lemma {:induction false} OnlyQuestionKeysMatter(a: Answers, b: Answers, n: nat)
    requires n <= SlotCount
    requires forall i :: 0 <= i < SlotCount ==> SlotAnswer(a, i) == SlotAnswer(b, i)
    ensures DeltaSum(a, n) == DeltaSum(b, n)
    ensures n == SlotCount ==> MockAnalysis(a) == MockAnalysis(b)
  {
    if n > 0 {
      OnlyQuestionKeysMatter(a, b, n - 1);
    }
    assert Findings(a) == Findings(b);
  }

  /** An answer outside a slot's table adjusts the score exactly as much as no answer: not at all. */
  lemma {:induction false} UnlistedTagIsNeutral(answers: Answers, i: nat, n: nat)
    requires i < SlotCount && n <= SlotCount
    requires QuestionKey(i) in answers && answers[QuestionKey(i)] !in DeltaTable[i]
    ensures DeltaSum(answers, n) == DeltaSum(answers - {QuestionKey(i)}, n)
    ensures n == SlotCount ==> RawScore(answers) == RawScore(answers - {QuestionKey(i)})
  {
    if n > 0 {
      UnlistedTagIsNeutral(answers, i, n - 1);
      var j := n - 1;
      QuestionKeyInjective(i, j);
      if j != i {
        assert SlotAnswer(answers, j) == SlotAnswer(answers - {QuestionKey(i)}, j);
      }
    }
  }

  /** Every tag that moves the score is one the catalog offers for that slot. */
  lemma ScoredTagsOffered()
    ensures |DeltaTable| == |Catalog.Questions|
    ensures forall i, t :: 0 <= i < SlotCount && t in DeltaTable[i] ==> t in Catalog.Tags(i)
  {
    forall i, t | 0 <= i < SlotCount && t in DeltaTable[i] ensures t in Catalog.Tags(i) {
      assert Catalog.Questions[i].options[0] in Catalog.Questions[i].options;
      assert Catalog.Questions[i].options[1] in Catalog.Questions[i].options;
      assert Catalog.Questions[i].options[2] in Catalog.Questions[i].options;
      assert Catalog.Questions[i].options[3] in Catalog.Questions[i].options;
    }
  }

  /** A tag that changes a slot's narrative entry (against no answer) always moves that slot's score too. */
  lemma NarrativeTagsScored(i: nat, t: string)
    requires i < SlotCount
    requires SlotFinding(i, Some(t)) != SlotFinding(i, None)
    ensures t in DeltaTable[i] && DeltaTable[i][t] != 0
  {
  }
}
