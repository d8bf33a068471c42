/** The loop both agents use to fill `results`: take the outcomes of the calls in
    some order, store each (name, text) pair, and stop at the first one that raised.
    The concurrent agent visits the calls in completion order, the sequential one in
    plan order; the lemmas here hold for any order. */
module Fold {
  import opened PyValues
  import opened Dicts

  /** One call's contribution: a key and a text, or the exception that ends the loop. */
  type Outcome = Result<(Key, string)>

  predicate InRange(order: seq<nat>, n: nat)
  {
    forall i :: 0 <= i < |order| ==> order[i] < n
  }

  predicate NoRepeats(order: seq<nat>)
  {
    forall i, j :: 0 <= i < j < |order| ==> order[i] != order[j]
  }

  /** `0, 1, ..., n-1`: plan order. */
  function Indices(n: nat): (r: seq<nat>)
    ensures |r| == n && forall i :: 0 <= i < n ==> r[i] == i
  {
    seq(n, i requires 0 <= i < n => i)
  }

  /** Store the outcomes visited by `order` into `d`, stopping at the first failure. */
  function Collect(outcomes: seq<Outcome>, order: seq<nat>, d: StrDict): Result<StrDict>
    requires InRange(order, |outcomes|)
    decreases |order|
  {
    if order == [] then Ok(d)
    else
      match outcomes[order[0]]
      case Err(error) => Err(error)
      case Ok(e) => Collect(outcomes, order[1..], Store(d, e.0, e.1))
  }

  /** Every outcome visited by `order` is a success. */
  ghost predicate AllOk(outcomes: seq<Outcome>, order: seq<nat>)
    requires InRange(order, |outcomes|)
  {
    forall i :: 0 <= i < |order| ==> outcomes[order[i]].Ok?
  }

  /** The loop completes exactly when every visited outcome is a success. */
  lemma {:induction false} CollectOkIff(outcomes: seq<Outcome>, order: seq<nat>, d: StrDict)
    requires InRange(order, |outcomes|)
    ensures Collect(outcomes, order, d).Ok? <==> AllOk(outcomes, order)
    decreases |order|
  {
    if order != [] {
      var e := outcomes[order[0]];
      if e.Ok? {
        var rest := order[1..];
        assert Collect(outcomes, order, d) == Collect(outcomes, rest, Store(d, e.value.0, e.value.1));
        CollectOkIff(outcomes, rest, Store(d, e.value.0, e.value.1));
        assert forall i :: 1 <= i < |order| ==> order[i] == rest[i - 1];
      } else {
        assert Collect(outcomes, order, d) == Err(e.error);
      }
    }
  }

  /** A loop that meets a failure ends with the first failure it visits. */
  lemma {:induction false} FirstFailureWins(outcomes: seq<Outcome>, order: seq<nat>, d: StrDict, p: nat)
    requires InRange(order, |outcomes|)
    requires p < |order| && outcomes[order[p]].Err?
    requires forall h :: 0 <= h < p ==> outcomes[order[h]].Ok?
    ensures Collect(outcomes, order, d) == Err(outcomes[order[p]].error)
    decreases p
  {
    if p > 0 {
      var e := outcomes[order[0]].value;
      var rest := order[1..];
      forall h | 0 <= h < p - 1
        ensures outcomes[rest[h]].Ok?
      {
        assert rest[h] == order[h + 1];
      }
      assert rest[p - 1] == order[p];
      FirstFailureWins(outcomes, rest, Store(d, e.0, e.1), p - 1);
    }
  }

  /** No later visit stores the key stored at visit `p`. */
  ghost predicate LastFor(outcomes: seq<Outcome>, order: seq<nat>, p: nat)
    requires InRange(order, |outcomes|) && AllOk(outcomes, order) && p < |order|
  {
    forall q :: p < q < |order| ==> outcomes[order[q]].value.0 != outcomes[order[p]].value.0
  }

  /** No visit stores key `k`. */
  ghost predicate NotKeyed(outcomes: seq<Outcome>, order: seq<nat>, k: Key)
    requires InRange(order, |outcomes|) && AllOk(outcomes, order)
  {
    forall i :: 0 <= i < |order| ==> outcomes[order[i]].value.0 != k
  }

  lemma CollectStep(outcomes: seq<Outcome>, order: seq<nat>, d: StrDict)
    requires InRange(order, |outcomes|) && AllOk(outcomes, order) && order != []
    ensures InRange(order[1..], |outcomes|) && AllOk(outcomes, order[1..])
    ensures var e := outcomes[order[0]].value;
      Collect(outcomes, order, d) == Collect(outcomes, order[1..], Store(d, e.0, e.1))
  {
    assert forall i :: 0 <= i < |order[1..]| ==> order[1..][i] == order[i + 1];
  }

  /** Keys no visit stores keep the value they had before the loop. */
  lemma {:induction false} UnkeyedUnchanged(outcomes: seq<Outcome>, order: seq<nat>, d: StrDict, k: Key)
    requires InRange(order, |outcomes|) && AllOk(outcomes, order) && NotKeyed(outcomes, order, k)
    ensures Collect(outcomes, order, d).Ok?
    ensures Get(Collect(outcomes, order, d).value, k) == Get(d, k)
    decreases |order|
  {
    if order != [] {
      var e := outcomes[order[0]].value;
      CollectStep(outcomes, order, d);
      var rest := order[1..];
      assert NotKeyed(outcomes, rest, k) by {
        forall i | 0 <= i < |rest|
          ensures outcomes[rest[i]].value.0 != k
        {
          assert rest[i] == order[i + 1];
        }
      }
      UnkeyedUnchanged(outcomes, rest, Store(d, e.0, e.1), k);
    }
  }

  /** The last visit that stores a key decides its value: a later duplicate overwrites
      an earlier one. */
  lemma {:induction false} LastWriterWins(outcomes: seq<Outcome>, order: seq<nat>, d: StrDict, p: nat)
    requires InRange(order, |outcomes|) && AllOk(outcomes, order)
    requires p < |order| && LastFor(outcomes, order, p)
    ensures Collect(outcomes, order, d).Ok?
    ensures Get(Collect(outcomes, order, d).value, outcomes[order[p]].value.0) == Some(outcomes[order[p]].value.1)
    decreases p
  {
    var e := outcomes[order[0]].value;
    CollectStep(outcomes, order, d);
    LastForTail(outcomes, order, p);
    if p == 0 {
      UnkeyedUnchanged(outcomes, order[1..], Store(d, e.0, e.1), e.0);
    } else {
      LastWriterWins(outcomes, order[1..], Store(d, e.0, e.1), p - 1);
    }
  }

  /** Visit `p` stays the last for its key once the first visit is done. */
  lemma LastForTail(outcomes: seq<Outcome>, order: seq<nat>, p: nat)
    requires InRange(order, |outcomes|) && AllOk(outcomes, order)
    requires p < |order| && LastFor(outcomes, order, p)
    ensures InRange(order[1..], |outcomes|) && AllOk(outcomes, order[1..])
    ensures p == 0 ==> NotKeyed(outcomes, order[1..], outcomes[order[0]].value.0)
    ensures p > 0 ==> order[1..][p - 1] == order[p] && LastFor(outcomes, order[1..], p - 1)
  {
    var rest := order[1..];
    assert forall i :: 0 <= i < |rest| ==> rest[i] == order[i + 1];
  }

  /** With the outcomes' keys pairwise distinct, no visit is overwritten. */
  lemma DistinctKeysAreLast(outcomes: seq<Outcome>, order: seq<nat>, p: nat)
    requires InRange(order, |outcomes|) && AllOk(outcomes, order) && NoRepeats(order) && p < |order|
    requires forall x, y :: 0 <= x < |outcomes| && 0 <= y < |outcomes| && x != y && outcomes[x].Ok? && outcomes[y].Ok? ==>
      outcomes[x].value.0 != outcomes[y].value.0
    ensures LastFor(outcomes, order, p)
  {
    forall q | p < q < |order|
      ensures outcomes[order[q]].value.0 != outcomes[order[p]].value.0
    {
      assert order[q] != order[p];
    }
  }

  /** Whatever the order, every key the loop stores holds the text of some visited
      outcome with that key. */
  lemma {:induction false} CollectFromSomeOutcome(outcomes: seq<Outcome>, order: seq<nat>, d: StrDict, k: Key)
    requires InRange(order, |outcomes|)
    requires Collect(outcomes, order, d).Ok?
    ensures var r := Collect(outcomes, order, d).value;
      Get(r, k).Some? ==>
        Get(r, k) == Get(d, k) || exists i :: 0 <= i < |order| && outcomes[order[i]] == Ok((k, Get(r, k).value))
    decreases |order|
  {
    if order != [] {
      assert outcomes[order[0]].Ok?;
      var e := outcomes[order[0]].value;
      var rest := order[1..];
      var d' := Store(d, e.0, e.1);
      assert Collect(outcomes, order, d) == Collect(outcomes, rest, d');
      CollectFromSomeOutcome(outcomes, rest, d', k);
      var r := Collect(outcomes, order, d).value;
      if Get(r, k).Some? {
        if Get(r, k) == Get(d', k) {
          if k == e.0 {
            assert outcomes[order[0]] == Ok((k, Get(r, k).value));
          } else {
            assert Get(d', k) == Get(d, k);
          }
        } else {
          var i :| 0 <= i < |rest| && outcomes[rest[i]] == Ok((k, Get(r, k).value));
          assert rest[i] == order[i + 1];
        }
      }
    }
  }
}
