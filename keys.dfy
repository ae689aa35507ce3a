/**
 * The names under which answers travel: `question_<i>` in the answer map that
 * the analysis reads, and `q<i>` in the query string of the results URL.
 * Only single-digit slot numbers occur (the catalog has eight questions).
 */
module Keys {
  import opened Wrappers

  /** The decimal digit of a slot number, as JavaScript's template literal prints it. */
  function DigitChar(i: nat): (c: char)
    requires i < 10
    ensures '0' <= c <= '9'
  {
    ('0' as int + i) as char
  }

  /** The key of slot `i` in the answer map handed to the analysis. */
  function QuestionKey(i: nat): (k: string)
    requires i < 10
    ensures |k| == 10 && k[9] == DigitChar(i)
  {
    "question_" + [DigitChar(i)]
  }

  /** The query parameter that carries the answer to slot `i`. */
  function ParamName(i: nat): (k: string)
    requires i < 10
    ensures |k| == 2 && k[1] == DigitChar(i)
  {
    "q" + [DigitChar(i)]
  }

  lemma QuestionKeyInjective(i: nat, j: nat)
    requires i < 10 && j < 10
    ensures QuestionKey(i) == QuestionKey(j) <==> i == j
  {
    if QuestionKey(i) == QuestionKey(j) {
      assert QuestionKey(i)[9] == QuestionKey(j)[9];
    }
  }

  lemma ParamNameInjective(i: nat, j: nat)
    requires i < 10 && j < 10
    ensures ParamName(i) == ParamName(j) <==> i == j
  {
    if ParamName(i) == ParamName(j) {
      assert ParamName(i)[1] == ParamName(j)[1];
    }
  }

  /** A query string, as the ordered list of name/value pairs URLSearchParams keeps. */
  type Params = seq<(string, string)>

  /** `URLSearchParams.get`: the value of the first pair with this name, if any. */
  function Lookup(params: Params, name: string): (r: Option<string>)
    ensures r.None? <==> forall k :: 0 <= k < |params| ==> params[k].0 != name
    ensures r.Some? ==> exists k :: 0 <= k < |params| && params[k] == (name, r.value)
                          && forall j :: 0 <= j < k ==> params[j].0 != name
  {
    if params == [] then None
    else if params[0].0 == name then Some(params[0].1)
    else
      var r' := Lookup(params[1..], name);
      if r'.Some? then
        assert exists k :: 0 <= k < |params| && params[k] == (name, r'.value)
                           && forall j :: 0 <= j < k ==> params[j].0 != name by {
          var k' :| 0 <= k' < |params[1..]| && params[1..][k'] == (name, r'.value)
                    && forall j :: 0 <= j < k' ==> params[1..][j].0 != name;
          assert params[k' + 1] == (name, r'.value);
          assert forall j :: 0 <= j < k' + 1 ==> params[j].0 != name by {
            forall j | 0 <= j < k' + 1 ensures params[j].0 != name {
              if j > 0 { assert params[j] == params[1..][j - 1]; }
            }
          }
        }
        r'
      else r'
  }

  /** Appending pairs never changes what `get` finds among the earlier ones. */
  lemma {:induction false} LookupAppend(p: Params, q: Params, name: string)
    ensures Lookup(p + q, name) == if Lookup(p, name).Some? then Lookup(p, name) else Lookup(q, name)
  {
    if p != [] {
      assert (p + q)[0] == p[0];
      assert (p + q)[1..] == p[1..] + q;
      LookupAppend(p[1..], q, name);
    } else {
      assert p + q == q;
    }
  }
}
