/** Sums of a per-element weight over a sequence. The state machines of this project
    keep their threads in a sequence, so "how many threads hold node n" and "how many
    posts are outstanding" are both totals. */
module Totals {

  /** The weight of a condition. */
  function One(b: bool): int { if b then 1 else 0 }

  function Total<P>(ts: seq<P>, w: P -> int): int
  {
    if ts == [] then 0 else Total(ts[..|ts| - 1], w) + w(ts[|ts| - 1])
  }

  /** Changing one element moves the total by exactly the change of its weight. */
  lemma {:induction false} TotalUpdate<P>(ts: seq<P>, i: nat, p: P, w: P -> int)
    requires i < |ts|
    ensures Total(ts[i := p], w) == Total(ts, w) - w(ts[i]) + w(p)
  {
    var last := |ts| - 1;
    if i == last {
      assert ts[i := p][..last] == ts[..last];
    } else {
      assert ts[i := p][..last] == ts[..last][i := p];
      TotalUpdate(ts[..last], i, p, w);
    }
  }

  lemma {:induction false} TotalZero<P>(ts: seq<P>, w: P -> int)
    requires forall i | 0 <= i < |ts| :: w(ts[i]) == 0
    ensures Total(ts, w) == 0
  {
    if ts != [] {
      TotalZero(ts[..|ts| - 1], w);
    }
  }

  lemma {:induction false} TotalNat<P>(ts: seq<P>, w: P -> int)
    requires forall i | 0 <= i < |ts| :: 0 <= w(ts[i])
    ensures 0 <= Total(ts, w)
  {
    if ts != [] {
      TotalNat(ts[..|ts| - 1], w);
    }
  }

  /** A count of elements is at most their number. */
  lemma {:induction false} TotalCount<P>(ts: seq<P>, w: P -> int)
    requires forall i | 0 <= i < |ts| :: 0 <= w(ts[i]) <= 1
    ensures 0 <= Total(ts, w) <= |ts|
  {
    if ts != [] {
      TotalCount(ts[..|ts| - 1], w);
    }
  }

  /** With non-negative weights every element weighs at most the total. */
  lemma {:induction false} TotalAtLeast<P>(ts: seq<P>, w: P -> int, i: nat)
    requires i < |ts|
    requires forall j | 0 <= j < |ts| :: 0 <= w(ts[j])
    ensures w(ts[i]) <= Total(ts, w)
  {
    var last := |ts| - 1;
    if i < last {
      TotalAtLeast(ts[..last], w, i);
    } else {
      TotalNat(ts[..last], w);
    }
  }

  /** A total of which only element i may be non-zero. */
  lemma {:induction false} TotalSingle<P>(ts: seq<P>, w: P -> int, i: nat)
    requires i < |ts|
    requires forall j | 0 <= j < |ts| && j != i :: w(ts[j]) == 0
    ensures Total(ts, w) == w(ts[i])
  {
    var last := |ts| - 1;
    if i == last {
      TotalZero(ts[..last], w);
    } else {
      TotalSingle(ts[..last], w, i);
    }
  }

  /** A positive total names an element of positive weight. */
  lemma {:induction false} TotalWitness<P>(ts: seq<P>, w: P -> int) returns (i: nat)
    requires Total(ts, w) > 0
    ensures i < |ts| && w(ts[i]) > 0
  {
    var last := |ts| - 1;
    if w(ts[last]) > 0 {
      i := last;
    } else {
      i := TotalWitness(ts[..last], w);
    }
  }

  /** Two weights that agree on every element have the same total. */
  lemma {:induction false} TotalSame<P>(ts: seq<P>, v: P -> int, w: P -> int)
    requires forall i | 0 <= i < |ts| :: v(ts[i]) == w(ts[i])
    ensures Total(ts, v) == Total(ts, w)
  {
    if ts != [] {
      TotalSame(ts[..|ts| - 1], v, w);
    }
  }

  /** Two weights that agree on every element but element i. */
  lemma {:induction false} TotalDiffer<P>(ts: seq<P>, v: P -> int, w: P -> int, i: nat)
    requires i < |ts|
    requires forall j | 0 <= j < |ts| && j != i :: v(ts[j]) == w(ts[j])
    ensures Total(ts, v) == Total(ts, w) - w(ts[i]) + v(ts[i])
  {
    var last := |ts| - 1;
    if i == last {
      TotalSame(ts[..last], v, w);
    } else {
      TotalDiffer(ts[..last], v, w, i);
    }
  }
}
