/**
 * Draining a batch of futures in completion order (the `as_completed` loop of
 * `SelfQA.generate_qa`). Future `i` belongs to the `i`-th submitted question and
 * resolves to `Some(result)` or `None`; the thread pool hands the futures back
 * in an order the caller cannot predict, modelled as a permutation of the
 * submission indices.
 */
module Completion {
  import opened Wrappers

  /** The submission order 0, 1, ..., n-1. */
  function Range(n: nat): (r: seq<nat>)
    ensures |r| == n
    ensures forall i :: 0 <= i < n ==> r[i] == i
  {
    if n == 0 then [] else Range(n - 1) + [n - 1]
  }

  /** `order` yields each of the `n` submitted futures exactly once. */
  predicate IsCompletionOrder(order: seq<nat>, n: nat)
  {
    multiset(order) == multiset(Range(n))
  }

  predicate InRange(order: seq<nat>, n: nat)
  {
    forall k :: 0 <= k < |order| ==> order[k] < n
  }

  /** A completion order is as long as the batch and names only its futures. */
  lemma CompletionOrderInRange(order: seq<nat>, n: nat)
    requires IsCompletionOrder(order, n)
    ensures |order| == n
    ensures InRange(order, n)
  {
    assert |order| == |multiset(order)| == |multiset(Range(n))| == n;
    forall k | 0 <= k < |order|
      ensures order[k] < n
    {
      assert order[k] in multiset(order);
      assert order[k] in Range(n);
    }
  }

  /** What draining one future appends: its result, unless it is `None`. */
  function Collected<T>(outcome: Option<T>): seq<T>
  {
    if outcome.Some? then [outcome.value] else []
  }

  /**
   * The accumulated list after draining the futures named by `order`, one
   * after another, keeping only the non-`None` results.
   */
  function Drained<T>(futures: seq<Option<T>>, order: seq<nat>): (r: seq<T>)
    requires InRange(order, |futures|)
    ensures |r| <= |order|
  {
    if order == [] then []
    else Drained(futures, order[..|order| - 1]) + Collected(futures[order[|order| - 1]])
  }

  /** Every drained result is the result of one of the futures. */
  lemma {:induction false} DrainedFromFutures<T>(futures: seq<Option<T>>, order: seq<nat>, x: T)
    requires InRange(order, |futures|)
    requires x in Drained(futures, order)
    ensures exists i :: 0 <= i < |futures| && futures[i] == Some(x)
  {
    var order' := order[..|order| - 1];
    var last := order[|order| - 1];
    if x !in Collected(futures[last]) {
      DrainedFromFutures(futures, order', x);
    }
  }

  /** Draining futures that all failed collects nothing. */
  lemma {:induction false} DrainedAllFailed<T>(futures: seq<Option<T>>, order: seq<nat>)
    requires InRange(order, |futures|)
    requires forall i :: 0 <= i < |futures| ==> futures[i].None?
    ensures Drained(futures, order) == []
  {
    if order != [] {
      DrainedAllFailed(futures, order[..|order| - 1]);
    }
  }

  /** Draining futures that all succeeded collects one result per drained future. */
  lemma {:induction false} DrainedAllSucceeded<T>(futures: seq<Option<T>>, order: seq<nat>)
    requires InRange(order, |futures|)
    requires forall i :: 0 <= i < |futures| ==> futures[i].Some?
    ensures |Drained(futures, order)| == |order|
  {
    if order != [] {
      DrainedAllSucceeded(futures, order[..|order| - 1]);
    }
  }

  /** Reference definition: the non-`None` results in submission order. */
  function Successes<T>(futures: seq<Option<T>>): seq<T>
  {
    if futures == [] then []
    else Successes(futures[..|futures| - 1]) + Collected(futures[|futures| - 1])
  }

  /** Results are dropped exactly for the futures that resolved to `None`. */
  lemma {:induction false} SuccessesLength<T>(futures: seq<Option<T>>)
    ensures |Successes(futures)| <= |futures|
    ensures |Successes(futures)| == |futures| <==> forall i :: 0 <= i < |futures| ==> futures[i].Some?
  {
    if futures != [] {
      var init := futures[..|futures| - 1];
      SuccessesLength(init);
      if |Successes(futures)| == |futures| {
        forall i | 0 <= i < |futures|
          ensures futures[i].Some?
        {
          if i < |init| {
            assert futures[i] == init[i];
          }
        }
      }
    }
  }

  lemma {:induction false} DrainedAppend<T>(futures: seq<Option<T>>, u: seq<nat>, v: seq<nat>)
    requires InRange(u, |futures|) && InRange(v, |futures|)
    ensures InRange(u + v, |futures|)
    ensures Drained(futures, u + v) == Drained(futures, u) + Drained(futures, v)
  {
    assert InRange(u + v, |futures|) by {
      forall k | 0 <= k < |u + v|
        ensures (u + v)[k] < |futures|
      {
        if k < |u| { assert (u + v)[k] == u[k]; } else { assert (u + v)[k] == v[k - |u|]; }
      }
    }
    if v == [] {
      assert u + v == u;
    } else {
      var v' := v[..|v| - 1];
      assert (u + v)[..|u + v| - 1] == u + v';
      assert (u + v)[|u + v| - 1] == v[|v| - 1];
      DrainedAppend(futures, u, v');
    }
  }

  /** Draining in submission order yields the reference list. */
  lemma {:induction false} DrainedInSubmissionOrder<T>(futures: seq<Option<T>>, m: nat)
    requires m <= |futures|
    ensures InRange(Range(m), |futures|)
    ensures Drained(futures, Range(m)) == Successes(futures[..m])
  {
    var r := Range(m);
    assert InRange(r, |futures|);
    if m > 0 {
      DrainedInSubmissionOrder(futures, m - 1);
      var prefix := futures[..m];
      assert r[..m - 1] == Range(m - 1);
      assert r[m - 1] == m - 1;
      assert prefix[..m - 1] == futures[..m - 1];
      assert prefix[m - 1] == futures[m - 1];
      calc {
        Drained(futures, r);
        Drained(futures, r[..m - 1]) + Collected(futures[r[m - 1]]);
        Drained(futures, Range(m - 1)) + Collected(futures[m - 1]);
        Successes(futures[..m - 1]) + Collected(futures[m - 1]);
        Successes(prefix[..m - 1]) + Collected(prefix[m - 1]);
        Successes(prefix);
      }
    }
  }

  lemma MultisetCancel(a: seq<nat>, x: nat, b1: seq<nat>, b2: seq<nat>)
    requires multiset(a + [x]) == multiset(b1 + [x] + b2)
    ensures multiset(a) == multiset(b1 + b2)
  {
    var A, B1, B2, X := multiset(a), multiset(b1), multiset(b2), multiset([x]);
    assert multiset(a + [x]) == A + X;
    assert multiset(b1 + [x] + b2) == B1 + X + B2;
    assert A + X == B1 + B2 + X;
    assert A == (A + X) - X;
    assert B1 + B2 == (B1 + B2 + X) - X;
    assert multiset(b1 + b2) == B1 + B2;
  }

  lemma DrainedSplit<T>(futures: seq<Option<T>>, b1: seq<nat>, x: nat, b2: seq<nat>)
    requires InRange(b1, |futures|) && x < |futures| && InRange(b2, |futures|)
    ensures InRange(b1 + [x] + b2, |futures|) && InRange(b1 + b2, |futures|)
    ensures Drained(futures, b1 + [x] + b2) == Drained(futures, b1) + Collected(futures[x]) + Drained(futures, b2)
    ensures Drained(futures, b1 + b2) == Drained(futures, b1) + Drained(futures, b2)
  {
    assert InRange([x], |futures|);
    assert Drained(futures, [x]) == Collected(futures[x]) by {
      assert [x][..0] == [];
    }
    DrainedAppend(futures, b1, [x]);
    DrainedAppend(futures, b1 + [x], b2);
    DrainedAppend(futures, b1, b2);
  }

  lemma InRangeWithout(b: seq<nat>, j: nat, n: nat)
    requires InRange(b, n) && j < |b|
    ensures InRange(b[..j], n) && InRange(b[j + 1..], n) && b[j] < n
  {
    var head, tail := b[..j], b[j + 1..];
    assert forall k :: 0 <= k < |head| ==> head[k] == b[k];
    assert forall k :: 0 <= k < |tail| ==> tail[k] == b[j + 1 + k];
  }

  /** Cut `b` around one occurrence of `x`. */
  lemma SplitAround(b: seq<nat>, x: nat, n: nat) returns (b1: seq<nat>, b2: seq<nat>)
    requires InRange(b, n) && x in multiset(b)
    ensures b == b1 + [x] + b2
    ensures InRange(b1, n) && InRange(b2, n) && x < n
  {
    assert x in b;
    var j :| 0 <= j < |b| && b[j] == x;
    b1, b2 := b[..j], b[j + 1..];
    assert b == b1 + [x] + b2;
    InRangeWithout(b, j, n);
  }

  lemma MultisetInsert<T>(e: seq<T>, c: seq<T>, d1: seq<T>, d2: seq<T>)
    requires multiset(e) == multiset(d1 + d2)
    ensures multiset(e + c) == multiset(d1 + c + d2)
  {
    assert multiset(d1 + c + d2) == multiset(d1) + multiset(c) + multiset(d2);
  }

  /** Two orders that drain the same futures the same number of times collect the same results. */
  lemma {:induction false} DrainedMultiset<T>(futures: seq<Option<T>>, a: seq<nat>, b: seq<nat>)
    requires InRange(a, |futures|) && InRange(b, |futures|)
    requires multiset(a) == multiset(b)
    ensures multiset(Drained(futures, a)) == multiset(Drained(futures, b))
  {
    if a != [] {
      var x := a[|a| - 1];
      var a' := a[..|a| - 1];
      assert a == a' + [x];
      InRangeWithout(a, |a| - 1, |futures|);
      assert x in multiset(a);
      var b1, b2 := SplitAround(b, x, |futures|);
      MultisetCancel(a', x, b1, b2);
      DrainedSplit(futures, b1, x, b2);
      DrainedMultiset(futures, a', b1 + b2);
      assert Drained(futures, a) == Drained(futures, a') + Collected(futures[x]);
      MultisetInsert(Drained(futures, a'), Collected(futures[x]), Drained(futures, b1), Drained(futures, b2));
    }
  }

  /**
   * Whatever order the futures complete in, the drained results are the
   * reference results up to order.
   */
  lemma CompletionOrderIrrelevant<T>(futures: seq<Option<T>>, order: seq<nat>)
    requires IsCompletionOrder(order, |futures|)
    ensures InRange(order, |futures|)
    ensures multiset(Drained(futures, order)) == multiset(Successes(futures))
  {
    CompletionOrderInRange(order, |futures|);
    DrainedInSubmissionOrder(futures, |futures|);
    assert futures[..|futures|] == futures;
    DrainedMultiset(futures, order, Range(|futures|));
  }

  /** `g` applied to every element, in order. */
  function MapSeq<A, B>(g: A -> B, s: seq<A>): (r: seq<B>)
    ensures |r| == |s|
    ensures forall i :: 0 <= i < |s| ==> r[i] == g(s[i])
  {
    if s == [] then [] else MapSeq(g, s[..|s| - 1]) + [g(s[|s| - 1])]
  }

  /** `g` applied to every present result; `None` stays `None`. */
  function MapSome<A, B>(g: A -> B, futures: seq<Option<A>>): (r: seq<Option<B>>)
    ensures |r| == |futures|
    ensures forall i :: 0 <= i < |futures| ==> r[i] == if futures[i].Some? then Some(g(futures[i].value)) else None
  {
    seq(|futures|, i requires 0 <= i < |futures| => if futures[i].Some? then Some(g(futures[i].value)) else None)
  }

  /** Projecting each result commutes with draining. */
  lemma {:induction false} DrainedMap<A, B>(g: A -> B, futures: seq<Option<A>>, order: seq<nat>)
    requires InRange(order, |futures|)
    ensures InRange(order, |MapSome(g, futures)|)
    ensures Drained(MapSome(g, futures), order) == MapSeq(g, Drained(futures, order))
  {
    if order != [] {
      var order' := order[..|order| - 1];
      DrainedMap(g, futures, order');
      var x := futures[order[|order| - 1]];
      var d := Drained(futures, order');
      if x.Some? {
        assert Drained(futures, order) == d + [x.value];
        assert MapSeq(g, d + [x.value])[..|d|] == MapSeq(g, d);
      } else {
        assert Drained(futures, order) == d;
      }
    }
  }

  /** Projecting each result commutes with filtering out `None` in submission order. */
  lemma SuccessesMap<A, B>(g: A -> B, futures: seq<Option<A>>)
    ensures Successes(MapSome(g, futures)) == MapSeq(g, Successes(futures))
  {
    var n := |futures|;
    DrainedInSubmissionOrder(futures, n);
    DrainedInSubmissionOrder(MapSome(g, futures), n);
    assert futures[..n] == futures;
    assert MapSome(g, futures)[..n] == MapSome(g, futures);
    DrainedMap(g, futures, Range(n));
  }

  /** A projection of the drained results (their questions, say) is also the same up to order. */
  lemma ProjectedCompletionOrderIrrelevant<A, B>(g: A -> B, futures: seq<Option<A>>, order: seq<nat>)
    requires IsCompletionOrder(order, |futures|)
    ensures InRange(order, |futures|)
    ensures multiset(MapSeq(g, Drained(futures, order))) == multiset(MapSeq(g, Successes(futures)))
  {
    CompletionOrderInRange(order, |futures|);
    DrainedMap(g, futures, order);
    CompletionOrderIrrelevant(MapSome(g, futures), order);
    SuccessesMap(g, futures);
  }

  /** Two runs that see the futures complete in different orders collect the same results. */
  lemma CompletionOrdersAgree<T>(futures: seq<Option<T>>, order1: seq<nat>, order2: seq<nat>)
    requires IsCompletionOrder(order1, |futures|) && IsCompletionOrder(order2, |futures|)
    ensures InRange(order1, |futures|) && InRange(order2, |futures|)
    ensures multiset(Drained(futures, order1)) == multiset(Drained(futures, order2))
  {
    CompletionOrderIrrelevant(futures, order1);
    CompletionOrderIrrelevant(futures, order2);
  }
}
