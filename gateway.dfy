/**
 * The analysis gateway: use the remote text-generation service when a key is
 * stored, and fall back to the heuristic analysis on every failure.
 *
 * The network exchange is not modelled; its effect on the gateway is an
 * `Outcome`. `JSON.parse` is a parameter: a partial function from text to a
 * parsed value of an arbitrary type `J`, never inspected by the gateway.
 */
module Gateway {
  import opened Wrappers
  import opened Scoring

  /** What the request to the remote service came to. */
  datatype Outcome =
    | Failed           // fetch, response.json() or the candidate access threw
    | NotOk            // the HTTP status was not a success
    | Generated(text: string)  // the text of the first candidate's first part

  /** The analysis handed back: the heuristic result, or the remote JSON as parsed. */
  datatype Analysis<J> = Local(result: AnalysisResult) | Remote(value: J)

  /** The analysis together with whether a request was sent. */
  datatype Reply<J> = Reply(analysis: Analysis<J>, requested: bool)

  /** JavaScript's `!apiKey` is false exactly for a stored, non-empty key. */
  predicate HasKey(key: Option<string>) {
    key.Some? && key.value != ""
  }

  // ---------------------------------------------------------------- JSON span

  /** The first position of `c` in `s`, if any. */
  function FirstIndex(s: string, c: char): (r: Option<nat>)
    ensures r.Some? ==> r.value < |s| && s[r.value] == c && forall k :: 0 <= k < r.value ==> s[k] != c
    ensures r.None? ==> forall k :: 0 <= k < |s| ==> s[k] != c
  {
    if s == [] then None
    else if s[0] == c then Some(0)
    else
      match FirstIndex(s[1..], c)
      case None => None
      case Some(i) => Some(i + 1)
  }

  /** The last position of `c` in `s`, if any. */
  function LastIndex(s: string, c: char): (r: Option<nat>)
    ensures r.Some? ==> r.value < |s| && s[r.value] == c && forall k :: r.value < k < |s| ==> s[k] != c
    ensures r.None? ==> forall k :: 0 <= k < |s| ==> s[k] != c
  {
    if s == [] then None
    else if s[|s| - 1] == c then Some(|s| - 1)
    else LastIndex(s[..|s| - 1], c)
  }

  /**
   * The match of the greedy pattern `\{[\s\S]*\}`: from the first `{` to the
   * last `}`, provided that `}` comes after it. Braces need not balance.
   */
  function ExtractSpan(s: string): (r: Option<string>)
    ensures r.Some? <==> exists i, j :: 0 <= i < j < |s| && s[i] == '{' && s[j] == '}'
    ensures r.Some? ==> exists i, j :: 0 <= i < j < |s| && s[i] == '{' && s[j] == '}' && r.value == s[i..j + 1]
                          && (forall k :: 0 <= k < i ==> s[k] != '{')
                          && (forall k :: j < k < |s| ==> s[k] != '}')
    ensures r.Some? ==> |r.value| >= 2 && r.value[0] == '{' && r.value[|r.value| - 1] == '}'
  {
    match (FirstIndex(s, '{'), LastIndex(s, '}'))
    case (Some(i), Some(j)) => if i < j then Some(s[i..j + 1]) else None
    case _ => None
  }

  // ---------------------------------------------------------------- the decision

  /**
   * `analyzeResponse`: without a key, the heuristic and no request; with one,
   * the parsed span of the generated text if there is a span and it parses,
   * and the heuristic on every other outcome.
   */
  function Analyze<J>(key: Option<string>, answers: Answers, outcome: Outcome,
                      parse: string -> Option<J>): (r: Reply<J>)
    ensures r.requested <==> HasKey(key)
    ensures r.analysis.Remote? <==>
              HasKey(key) && outcome.Generated? && ExtractSpan(outcome.text).Some?
              && parse(ExtractSpan(outcome.text).value).Some?
    ensures r.analysis.Remote? ==> r.analysis.value == parse(ExtractSpan(outcome.text).value).value
    ensures r.analysis.Local? ==> r.analysis.result == MockAnalysis(answers)
  {
    if !HasKey(key) then Reply(Local(MockAnalysis(answers)), false)
    else
      var fallback := Reply(Local(MockAnalysis(answers)), true);
      match outcome
      case Failed => fallback
      case NotOk => fallback
      case Generated(text) =>
        match ExtractSpan(text)
        case None => fallback
        case Some(span) =>
          match parse(span)
          case None => fallback
          case Some(value) => Reply(Remote(value), true)
  }

  // ---------------------------------------------------------------- properties

  /** Without a key (absent or empty) the result is the heuristic's and nothing is requested. */
  lemma NoKeyMeansHeuristic<J>(key: Option<string>, answers: Answers, outcome: Outcome, parse: string -> Option<J>)
    requires key.None? || key.value == ""
    ensures Analyze(key, answers, outcome, parse) == Reply(Local(MockAnalysis(answers)), false)
  {
  }

  /** A transport failure, a failed status, a text without a span, or a parse error: the heuristic's result. */
  lemma FailuresFallBack<J>(key: Option<string>, answers: Answers, outcome: Outcome, parse: string -> Option<J>)
    requires HasKey(key)
    requires || outcome.Failed? || outcome.NotOk?
             || (outcome.Generated? && ExtractSpan(outcome.text).None?)
             || (outcome.Generated? && ExtractSpan(outcome.text).Some? && parse(ExtractSpan(outcome.text).value).None?)
    ensures Analyze(key, answers, outcome, parse) == Reply(Local(MockAnalysis(answers)), true)
  {
  }

  /** The span is not a balanced match: the greedy pattern takes everything between the outer braces. */
  lemma SpanIsGreedy()
    ensures ExtractSpan("x{a}y{b}z") == Some("{a}y{b}")
    ensures ExtractSpan("}{") == None
  {
    assert FirstIndex("x{a}y{b}z", '{') == Some(1);
    assert LastIndex("x{a}y{b}z", '}') == Some(7);
    assert "x{a}y{b}z"[1..8] == "{a}y{b}";
    assert FirstIndex("}{", '{') == Some(1);
    assert LastIndex("}{", '}') == Some(0);
  }
}
