/** `Array.prototype.filter` over immutable sequences, and the laws the
    catalog screen relies on: the result is an order-preserving subsequence,
    filters compose by conjunction, commute and are idempotent. */
module Sequences {

  /** `xs.filter(keep)`: the elements of `xs` that satisfy `keep`, in their
      original order. */
  function Select<T>(xs: seq<T>, keep: T -> bool): (r: seq<T>)
    ensures |r| <= |xs|
  {
    if xs == [] then []
    else (if keep(xs[0]) then [xs[0]] else []) + Select(xs[1..], keep)
  }

  /** An element is selected exactly when it is in `xs` and satisfies `keep`. */
  lemma {:induction false} SelectContains<T>(xs: seq<T>, keep: T -> bool, x: T)
    ensures x in Select(xs, keep) <==> x in xs && keep(x)
  {
    if xs != [] {
      SelectContains(xs[1..], keep, x);
      assert xs == [xs[0]] + xs[1..];
    }
  }

  /** `idx` lists strictly increasing positions of `ys` holding the elements
      of `xs` one by one: `xs` is an order-preserving subsequence of `ys`. */
  ghost predicate Embeds<T>(idx: seq<int>, xs: seq<T>, ys: seq<T>) {
    && |idx| == |xs|
    && (forall k :: 0 <= k < |idx| ==> 0 <= idx[k] < |ys| && xs[k] == ys[idx[k]])
    && (forall k, l :: 0 <= k < l < |idx| ==> idx[k] < idx[l])
  }

  /** Every position in `idx`, one place further on. */
  ghost function Shift(idx: seq<int>): (r: seq<int>)
    ensures |r| == |idx|
    ensures forall k :: 0 <= k < |idx| ==> r[k] == idx[k] + 1
  {
    seq(|idx|, k requires 0 <= k < |idx| => idx[k] + 1)
  }

  /** An embedding into `ys[1..]` shifts to an embedding into `ys` that avoids
      position 0. */
  lemma ShiftEmbeds<T>(idx: seq<int>, xs: seq<T>, ys: seq<T>)
    requires ys != [] && Embeds(idx, xs, ys[1..])
    ensures Embeds(Shift(idx), xs, ys)
    ensures forall k :: 0 <= k < |idx| ==> Shift(idx)[k] > 0
  {
    var sh := Shift(idx);
    forall k | 0 <= k < |sh| ensures 0 <= sh[k] < |ys| && xs[k] == ys[sh[k]] {
      assert ys[1..][idx[k]] == ys[idx[k] + 1];
    }
  }

  /** A position is in the shifted list exactly when the one before it is in
      the original. */
  lemma ShiftMembers(idx: seq<int>, i: int)
    ensures i in Shift(idx) <==> i - 1 in idx
  {
    var sh := Shift(idx);
    if i in sh {
      var k :| 0 <= k < |sh| && sh[k] == i;
      assert idx[k] == i - 1;
    }
    if i - 1 in idx {
      var k :| 0 <= k < |idx| && idx[k] == i - 1;
      assert sh[k] == i;
    }
  }

  /** The positions `Select` keeps are exactly those whose element satisfies
      `keep`, and the result lists them in their original order. */
  lemma {:induction false} SelectPositions<T>(xs: seq<T>, keep: T -> bool) returns (idx: seq<int>)
    ensures Embeds(idx, Select(xs, keep), xs)
    ensures forall i :: 0 <= i < |xs| ==> (keep(xs[i]) <==> i in idx)
  {
    if xs == [] {
      idx := [];
    } else {
      var rest := Select(xs[1..], keep);
      var tail := SelectPositions(xs[1..], keep);
      ShiftEmbeds(tail, rest, xs);
      var sh := Shift(tail);
      forall i | 1 <= i < |xs| ensures keep(xs[i]) <==> i in sh {
        assert xs[1..][i - 1] == xs[i];
        ShiftMembers(tail, i);
      }
      if keep(xs[0]) {
        idx := [0] + sh;
        PrependEmbeds(sh, rest, xs);
        assert Select(xs, keep) == [xs[0]] + rest;
        forall i | 1 <= i < |xs| ensures i in idx <==> i in sh {
        }
      } else {
        idx := sh;
        assert Select(xs, keep) == rest;
      }
    }
  }

  /** An embedding that avoids position 0 extends by the first element. */
  lemma PrependEmbeds<T>(idx: seq<int>, xs: seq<T>, ys: seq<T>)
    requires ys != [] && Embeds(idx, xs, ys)
    requires forall k :: 0 <= k < |idx| ==> idx[k] > 0
    ensures Embeds([0] + idx, [ys[0]] + xs, ys)
  {
    var idx', xs' := [0] + idx, [ys[0]] + xs;
    forall k | 1 <= k < |idx'| ensures 0 <= idx'[k] < |ys| && xs'[k] == ys[idx'[k]] {
      assert idx'[k] == idx[k - 1] && xs'[k] == xs[k - 1];
    }
    forall k, l | 0 <= k < l < |idx'| ensures idx'[k] < idx'[l] {
      assert idx'[l] == idx[l - 1];
      if k > 0 {
        assert idx'[k] == idx[k - 1];
      }
    }
  }

  /** The conjunction of two tests. */
  function And<T>(p: T -> bool, q: T -> bool): T -> bool {
    x => p(x) && q(x)
  }

  /** Filtering the result of a filter is filtering once by the conjunction. */
  lemma {:induction false} SelectFusion<T>(xs: seq<T>, p: T -> bool, q: T -> bool)
    ensures Select(Select(xs, p), q) == Select(xs, And(p, q))
  {
    if xs != [] {
      SelectFusion(xs[1..], p, q);
      SelectAppend((if p(xs[0]) then [xs[0]] else []), Select(xs[1..], p), q);
    }
  }

  /** Filtering distributes over concatenation. */
  lemma {:induction false} SelectAppend<T>(a: seq<T>, b: seq<T>, keep: T -> bool)
    ensures Select(a + b, keep) == Select(a, keep) + Select(b, keep)
  {
    if a != [] {
      assert (a + b)[1..] == a[1..] + b;
      assert (a + b)[0] == a[0];
      SelectAppend(a[1..], b, keep);
      var head := if keep(a[0]) then [a[0]] else [];
      assert Select(a + b, keep) == head + (Select(a[1..], keep) + Select(b, keep));
      assert Select(a, keep) == head + Select(a[1..], keep);
      assert head + (Select(a[1..], keep) + Select(b, keep))
          == (head + Select(a[1..], keep)) + Select(b, keep);
    } else {
      assert a + b == b;
    }
  }

  /** Two predicates that agree on every element select the same elements. */
  lemma {:induction false} SelectCongruent<T>(xs: seq<T>, p: T -> bool, q: T -> bool)
    requires forall x :: x in xs ==> p(x) == q(x)
    ensures Select(xs, p) == Select(xs, q)
  {
    if xs != [] {
      SelectCongruent(xs[1..], p, q);
    }
  }

  /** Two filters applied one after the other commute. */
  lemma SelectCommute<T>(xs: seq<T>, p: T -> bool, q: T -> bool)
    ensures Select(Select(xs, p), q) == Select(Select(xs, q), p)
  {
    SelectFusion(xs, p, q);
    SelectFusion(xs, q, p);
    SelectCongruent(xs, And(p, q), And(q, p));
  }

  /** Applying the same filter twice is applying it once. */
  lemma SelectIdempotent<T>(xs: seq<T>, p: T -> bool)
    ensures Select(Select(xs, p), p) == Select(xs, p)
  {
    SelectFusion(xs, p, p);
    SelectCongruent(xs, And(p, p), p);
  }

  /** A predicate no element satisfies keeps nothing. */
  lemma {:induction false} SelectKeepsNone<T>(xs: seq<T>, keep: T -> bool)
    requires forall x :: x in xs ==> !keep(x)
    ensures Select(xs, keep) == []
  {
    if xs != [] {
      SelectKeepsNone(xs[1..], keep);
    }
  }

  /** A predicate every element satisfies keeps the whole sequence. */
  lemma {:induction false} SelectKeepsAll<T>(xs: seq<T>, keep: T -> bool)
    requires forall x :: x in xs ==> keep(x)
    ensures Select(xs, keep) == xs
  {
    if xs != [] {
      SelectKeepsAll(xs[1..], keep);
    }
  }
}
