/** Aggregating the window results of one pass into an accuracy and a failure list. */
module Scoring {
  import opened Results
  import opened Lib
  import opened Responses

  /** The loop's counters: `correct_count`, `total` and `failures`. */
  datatype Tally = Tally(correct: nat, total: nat, failures: seq<Scored>)

  /** One consumed result: counted, and kept as a failure when the prediction is wrong. */
  function Count(t: Tally, s: Scored): Tally {
    if s.pred == s.truth then Tally(t.correct + 1, t.total + 1, t.failures)
    else Tally(t.correct, t.total + 1, t.failures + [s])
  }

  /** The aggregation loop over results in arrival order; the first error ends it. */
  function Score(results: seq<Result<Scored, Error>>): (r: Result<Tally, Error>)
    ensures r.Ok? ==> r.value.total == |results| && r.value.correct + |r.value.failures| == |results|
    decreases |results|
  {
    if results == [] then Ok(Tally(0, 0, []))
    else
      match Score(results[..|results| - 1])
      case Err(e) => Err(e)
      case Ok(t) =>
        match results[|results| - 1]
        case Err(e) => Err(e)
        case Ok(s) => Ok(Count(t, s))
  }

  /** `correct_count as f64 / total as f64`, or 0 when nothing was scored; a share, so in [0, 1]. */
  function Accuracy(t: Tally): (r: real)
    ensures t.correct <= t.total ==> 0.0 <= r <= 1.0
  {
    if t.total > 0 then t.correct as real / t.total as real else 0.0
  }

  /** The aggregation loop: consume results as they arrive, stop at the first error. */
  method Aggregate(results: seq<Result<Scored, Error>>) returns (r: Result<Tally, Error>)
    ensures r == Score(results)
  {
    var correct, total, failures := 0, 0, [];
    var k := 0;
    while k < |results|
      invariant 0 <= k <= |results|
      invariant Score(results[..k]) == Ok(Tally(correct, total, failures))
    {
      assert results[..k + 1][..k] == results[..k];
      match results[k]
      case Err(e) =>
        ScoreErrPersists(results, k + 1);
        return Err(e);
      case Ok(s) =>
        total := total + 1;
        if s.pred == s.truth {
          correct := correct + 1;
        } else {
          failures := failures + [s];
        }
      k := k + 1;
    }
    assert results[..k] == results;
    r := Ok(Tally(correct, total, failures));
  }

  /** Once a prefix of the results has failed, later results change nothing. */
  lemma {:induction false} ScoreErrPersists(results: seq<Result<Scored, Error>>, k: nat)
    requires k <= |results| && Score(results[..k]).Err?
    ensures Score(results) == Score(results[..k])
    decreases |results| - k
  {
    if k < |results| {
      assert results[..k + 1][..k] == results[..k];
      ScoreErrPersists(results, k + 1);
    } else {
      assert results[..k] == results;
    }
  }

  // Reference definitions, read front to back.

  /** Whether some result is an error. */
  predicate HasError(results: seq<Result<Scored, Error>>) {
    exists k :: 0 <= k < |results| && results[k].Err?
  }

  /** The wrong predictions, in arrival order. */
  function Mismatches(results: seq<Result<Scored, Error>>): seq<Scored> {
    if results == [] then []
    else
      (if results[0].Ok? && results[0].value.pred != results[0].value.truth
       then [results[0].value] else [])
      + Mismatches(results[1..])
  }

  /** The number of right predictions. */
  function Matches(results: seq<Result<Scored, Error>>): nat {
    if results == [] then 0
    else
      (if results[0].Ok? && results[0].value.pred == results[0].value.truth then 1 else 0)
      + Matches(results[1..])
  }

  lemma {:induction false} MismatchesSnoc(results: seq<Result<Scored, Error>>, x: Result<Scored, Error>)
    ensures Mismatches(results + [x]) == Mismatches(results)
      + (if x.Ok? && x.value.pred != x.value.truth then [x.value] else [])
    ensures Matches(results + [x]) == Matches(results)
      + (if x.Ok? && x.value.pred == x.value.truth then 1 else 0)
  {
    if results != [] {
      assert (results + [x])[1..] == results[1..] + [x];
      MismatchesSnoc(results[1..], x);
    } else {
      assert (results + [x])[1..] == [];
    }
  }

  /**
   * A pass that completes has looked at every result: the total is the number of results,
   * the correct count the number of right predictions, and the failures exactly the wrong
   * ones, each with its window index, in arrival order.
   */
  lemma {:induction false} ScoreOk(results: seq<Result<Scored, Error>>)
    requires Score(results).Ok?
    ensures !HasError(results)
    ensures Score(results).value == Tally(Matches(results), |results|, Mismatches(results))
    decreases |results|
  {
    if results != [] {
      var init := results[..|results| - 1];
      var last := results[|results| - 1];
      assert results == init + [last];
      ScoreOk(init);
      MismatchesSnoc(init, last);
      forall k | 0 <= k < |results| ensures results[k].Ok? {
        if k < |init| {
          assert results[k] == init[k];
        }
      }
    }
  }

  /** Any error among the results aborts the aggregation, with the first error in arrival order. */
  lemma {:induction false} ScoreErr(results: seq<Result<Scored, Error>>)
    requires HasError(results)
    ensures Score(results).Err?
    ensures exists k ::
              0 <= k < |results| && results[k] == Err(Score(results).error)
              && (forall j :: 0 <= j < k ==> results[j].Ok?)
    decreases |results|
  {
    var n := |results|;
    var init := results[..n - 1];
    assert forall j :: 0 <= j < n - 1 ==> results[j] == init[j];
    if HasError(init) {
      ScoreErr(init);
      var k :| 0 <= k < |init| && init[k] == Err(Score(init).error)
        && (forall j :: 0 <= j < k ==> init[j].Ok?);
      assert results[k] == init[k];
    } else {
      if Score(init).Err? {
        ScoreErrHasError(init);
      }
      var k :| 0 <= k < n && results[k].Err?;
      assert k == n - 1;
      assert results[n - 1] == Err(Score(results).error);
    }
  }

  /** Only an error among the results can make the aggregation fail. */
  lemma {:induction false} ScoreErrHasError(results: seq<Result<Scored, Error>>)
    requires Score(results).Err?
    ensures HasError(results)
    decreases |results|
  {
    var init := results[..|results| - 1];
    if Score(init).Err? {
      ScoreErrHasError(init);
      var k :| 0 <= k < |init| && init[k].Err?;
      assert results[k] == init[k];
    }
  }

  /** Every result is either right or a failure: `total = correct_count + |failures|`. */
  lemma {:induction false} CountsAddUp(results: seq<Result<Scored, Error>>)
    requires !HasError(results)
    ensures Matches(results) + |Mismatches(results)| == |results|
    decreases |results|
  {
    if results != [] {
      assert results[0].Ok?;
      assert forall k :: 0 <= k < |results| - 1 ==> results[1..][k] == results[k + 1];
      CountsAddUp(results[1..]);
    }
  }

  lemma RatioBounds(c: nat, t: nat)
    requires c <= t && t > 0
    ensures 0.0 <= c as real / t as real <= 1.0
    ensures c as real / t as real == 1.0 <==> c == t
  {
    if c < t {
      assert (c as real) / (t as real) < 1.0;
    }
  }

  /** The accuracy of a completed aggregation lies in [0, 1]; it is 0 when nothing was scored and
      1 exactly when something was scored and nothing failed. */
  lemma AccuracyBounds(results: seq<Result<Scored, Error>>)
    requires Score(results).Ok?
    ensures 0.0 <= Accuracy(Score(results).value) <= 1.0
    ensures results == [] ==> Accuracy(Score(results).value) == 0.0
    ensures Accuracy(Score(results).value) == 1.0 <==> results != [] && Mismatches(results) == []
  {
    ScoreOk(results);
    CountsAddUp(results);
    var t := Score(results).value;
    assert t.correct + |t.failures| == t.total;
    if t.total > 0 {
      RatioBounds(t.correct, t.total);
    }
  }

  /** Each failure really is a wrong prediction, and came from one of the results. */
  lemma {:induction false} MismatchesAreFailures(results: seq<Result<Scored, Error>>, f: Scored)
    requires f in Mismatches(results)
    ensures f.pred != f.truth && Ok(f) in results
    decreases |results|
  {
    if results != [] {
      if !(results[0].Ok? && results[0].value.pred != results[0].value.truth && f == results[0].value) {
        MismatchesAreFailures(results[1..], f);
        assert Ok(f) in results[1..];
      }
    }
  }

  lemma {:induction false} CountsConcat(a: seq<Result<Scored, Error>>, b: seq<Result<Scored, Error>>)
    ensures Matches(a + b) == Matches(a) + Matches(b)
    ensures Mismatches(a + b) == Mismatches(a) + Mismatches(b)
    decreases |a|
  {
    if a == [] {
      assert a + b == b;
    } else {
      assert (a + b)[1..] == a[1..] + b;
      CountsConcat(a[1..], b);
    }
  }

  /** Some result is an error exactly when some error value occurs in the results. */
  lemma HasErrorMember(results: seq<Result<Scored, Error>>)
    ensures HasError(results) <==> exists e :: Err(e) in multiset(results)
  {
    if HasError(results) {
      var k :| 0 <= k < |results| && results[k].Err?;
      assert Err(results[k].error) in multiset(results);
    }
    if exists e :: Err(e) in multiset(results) {
      var e :| Err(e) in multiset(results);
      var k :| 0 <= k < |results| && results[k] == Err(e);
    }
  }

  /** Taking one result out of the middle splits the counts between it and the rest. */
  lemma CountsRemove(s: seq<Result<Scored, Error>>, j: nat)
    requires j < |s|
    ensures var rest := s[..j] + s[j + 1..];
      multiset(rest) == multiset(s) - multiset{s[j]}
      && Matches(s) == Matches([s[j]]) + Matches(rest)
      && multiset(Mismatches(s)) == multiset(Mismatches([s[j]])) + multiset(Mismatches(rest))
  {
    var before, x, after := s[..j], s[j], s[j + 1..];
    assert s == before + [x] + after;
    CountsConcat(before + [x], after);
    CountsConcat(before, [x]);
    CountsConcat(before, after);
  }

  /** Two completion orders of the same results agree on whether some result failed. */
  lemma HasErrorPermutation(r1: seq<Result<Scored, Error>>, r2: seq<Result<Scored, Error>>)
    requires multiset(r1) == multiset(r2)
    ensures HasError(r1) <==> HasError(r2)
  {
    HasErrorMember(r1);
    HasErrorMember(r2);
  }

  /**
   * The order in which results complete does not matter: any two completion orders of the same
   * results agree on the number of right predictions and on the failures, up to order.
   */
  lemma {:induction false} ScorePermutation(r1: seq<Result<Scored, Error>>, r2: seq<Result<Scored, Error>>)
    requires multiset(r1) == multiset(r2)
    ensures Matches(r1) == Matches(r2)
    ensures multiset(Mismatches(r1)) == multiset(Mismatches(r2))
    decreases |r1|
  {
    if r1 != [] {
      var x, tail := r1[0], r1[1..];
      assert r1 == [x] + tail;
      assert x in multiset(r2);
      var j :| 0 <= j < |r2| && r2[j] == x;
      var rest := r2[..j] + r2[j + 1..];
      CountsRemove(r2, j);
      CountsConcat([x], tail);
      assert multiset(tail) == multiset(rest);
      ScorePermutation(tail, rest);
    }
  }
}
