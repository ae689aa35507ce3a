/**
 * The questionnaire page: an index into the catalog and the answers given so
 * far, changed by the Previous, Next and option-selection handlers.
 */
module Assessment {
  import opened Wrappers
  import opened Keys
  import Catalog

  /** Where the Next handler sends the browser. */
  datatype Navigation = Stay | ToResults(query: Params)

  /**
   * The query the last Next builds: one `q<k>=v` pair per answered question,
   * in ascending key order (the order JavaScript gives integer-like keys).
   */
  function Serialized(answers: map<nat, string>, n: nat): (p: Params)
    requires n <= Catalog.QuestionCount
    ensures |p| <= n
  {
    if n == 0 then []
    else Serialized(answers, n - 1) + (if n - 1 in answers then [(ParamName(n - 1), answers[n - 1])] else [])
  }

  /** Every answer below `n` is in the query under its own name, and nothing else is. */
  lemma {:induction false} SerializedLookup(answers: map<nat, string>, n: nat, i: nat)
    requires n <= Catalog.QuestionCount && i < Catalog.QuestionCount
    ensures Lookup(Serialized(answers, n), ParamName(i)) == if i < n && i in answers then Some(answers[i]) else None
  {
    if n > 0 {
      SerializedLookup(answers, n - 1, i);
      var tail := if n - 1 in answers then [(ParamName(n - 1), answers[n - 1])] else [];
      LookupAppend(Serialized(answers, n - 1), tail, ParamName(i));
      ParamNameInjective(i, n - 1);
    }
  }

  /** Each entry of the query is a `q<k>` pair of an answered question. */
  lemma {:induction false} SerializedEntries(answers: map<nat, string>, n: nat)
    requires n <= Catalog.QuestionCount
    ensures forall e :: e in Serialized(answers, n) ==>
              exists k :: 0 <= k < n && k in answers && e == (ParamName(k), answers[k])
  {
    if n > 0 {
      SerializedEntries(answers, n - 1);
    }
  }

  /** No name occurs twice in the query: exactly one pair per answered question. */
  lemma {:induction false} SerializedNamesDistinct(answers: map<nat, string>, n: nat)
    requires n <= Catalog.QuestionCount
    ensures forall a, b :: 0 <= a < b < |Serialized(answers, n)| ==>
              Serialized(answers, n)[a].0 != Serialized(answers, n)[b].0
  {
    if n > 0 {
      SerializedNamesDistinct(answers, n - 1);
      SerializedEntries(answers, n - 1);
      var p := Serialized(answers, n - 1);
      if n - 1 in answers {
        var q := Serialized(answers, n);
        assert q == p + [(ParamName(n - 1), answers[n - 1])];
        forall a, b | 0 <= a < b < |q| ensures q[a].0 != q[b].0 {
          if b == |p| {
            assert q[a] == p[a] && p[a] in p;
            var k :| 0 <= k < n - 1 && k in answers && p[a] == (ParamName(k), answers[k]);
            ParamNameInjective(k, n - 1);
          } else {
            assert q[a] == p[a] && q[b] == p[b];
          }
        }
      } else {
        assert Serialized(answers, n) == p + [] == p;
        assert forall a, b :: 0 <= a < b < |p| ==> p[a].0 != p[b].0;
      }
    }
  }

  class Questionnaire {
    var currentQuestion: nat
    var answers: map<nat, string>

    /** The index stays on the catalog, answers are only for catalog questions, and every earlier question is answered. */
    ghost predicate Valid()
      reads this
    {
      && currentQuestion < Catalog.QuestionCount
      && (forall k :: k in answers ==> k < Catalog.QuestionCount)
      && (forall k :: 0 <= k < currentQuestion ==> k in answers)
    }

    constructor ()
      ensures Valid() && currentQuestion == 0 && answers == map[]
    {
      currentQuestion := 0;
      answers := map[];
    }

    function IsLastQuestion(): bool
      reads this
    {
      currentQuestion == Catalog.QuestionCount - 1
    }

    /** The Next button is enabled exactly when the current question has an answer. */
    function CanProceed(): bool
      reads this
    {
      currentQuestion in answers
    }

    /** Selecting an option records it for the current question and leaves every other answer alone. */
    method AnswerChange(value: string)
      requires Valid()
      modifies this
      ensures Valid()
      ensures currentQuestion == old(currentQuestion)
      ensures answers == old(answers)[currentQuestion := value]
      ensures CanProceed()
      ensures forall k :: k in old(answers) && k != currentQuestion ==> k in answers && answers[k] == old(answers)[k]
    {
      answers := answers[currentQuestion := value];
    }

    /** Previous steps back one question, except on the first. */
    method Previous()
      requires Valid()
      modifies this
      ensures Valid()
      ensures answers == old(answers)
      ensures currentQuestion == if old(currentQuestion) > 0 then old(currentQuestion) - 1 else 0
    {
      if currentQuestion > 0 {
        currentQuestion := currentQuestion - 1;
      }
    }

    /**
     * Next, pressed while enabled: on the last question, go to the results
     * with every answer in the query (by then all eight are answered);
     * otherwise advance by one.
     */
    method Next() returns (nav: Navigation)
      requires Valid() && CanProceed()
      modifies this
      ensures Valid()
      ensures answers == old(answers)
      ensures old(IsLastQuestion()) ==>
                && currentQuestion == old(currentQuestion)
                && (forall k :: 0 <= k < Catalog.QuestionCount ==> k in answers)
                && nav == ToResults(Serialized(answers, Catalog.QuestionCount))
      ensures !old(IsLastQuestion()) ==> currentQuestion == old(currentQuestion) + 1 && nav == Stay
    {
      if IsLastQuestion() {
        forall k | 0 <= k < Catalog.QuestionCount ensures k in answers {
          if k < currentQuestion {
            assert k in answers;
          }
        }
        var query := SearchParams();
        nav := ToResults(query);
      } else {
        currentQuestion := currentQuestion + 1;
        nav := Stay;
      }
    }

    /** The `forEach` over the answers that appends one `q<k>` pair per entry. */
    method SearchParams() returns (query: Params)
      requires Valid()
      ensures query == Serialized(answers, Catalog.QuestionCount)
      ensures forall i :: 0 <= i < Catalog.QuestionCount ==>
                Lookup(query, ParamName(i)) == if i in answers then Some(answers[i]) else None
    ensures forall a, b :: 0 <= a < b < |query| ==> query[a].0 != query[b].0
    {
      query := [];
      var k := 0;
      while k < Catalog.QuestionCount
        invariant 0 <= k <= Catalog.QuestionCount
        invariant query == Serialized(answers, k)
      {
        if k in answers {
          query := query + [(ParamName(k), answers[k])];
        }
        k := k + 1;
      }
      forall i | 0 <= i < Catalog.QuestionCount
        ensures Lookup(query, ParamName(i)) == if i in answers then Some(answers[i]) else None
      {
        SerializedLookup(answers, Catalog.QuestionCount, i);
      }
      SerializedNamesDistinct(answers, Catalog.QuestionCount);
    }
  }
}
