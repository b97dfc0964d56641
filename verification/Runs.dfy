/** Rows laid over experts in runs whose boundaries fall at every alignment of a tile. */
module Runs {
  import opened Ops
  import opened Buffers

  /** Where the runs begin and end: expert `e`'s own share, moved off the tile's grid by an amount that
    * walks it. */
  function Boundary(rows: nat, experts: nat, block: nat, e: nat): int
    requires experts > 0 && block > 0
  {
    if e == 0 then 0
    else if e < experts then rows * e / experts + e * 7 % block - block / 2
    else rows
  }

  function Boundaries(rows: nat, experts: nat, block: nat): (at: seq<int>)
    requires experts > 0 && block > 0
    ensures |at| == experts + 1
    ensures forall e :: 0 <= e <= experts ==> at[e] == Boundary(rows, experts, block, e)
  {
    seq(experts + 1, e requires 0 <= e <= experts => Boundary(rows, experts, block, e))
  }

  function Times(e: nat, count: int): (run: seq<nat>)
    ensures |run| == (if count > 0 then count else 0) && forall i :: 0 <= i < |run| ==> run[i] == e
  {
    if count > 0 then seq(count, _ => e) else []
  }

  /** The first `n` experts' runs, one after another. */
  function Expanded(at: seq<int>, n: nat): seq<nat>
    requires n < |at|
  {
    if n == 0 then [] else Expanded(at, n - 1) + Times(n - 1, at[n] - at[n - 1])
  }

  /** The expert of each row in sorted order; none when the average run fits in a tile. */
  function Laid(rows: nat, experts: nat, block: nat): Option<seq<nat>>
    requires experts > 0 && block > 0
  {
    if rows / experts <= block then None else Some(Expanded(Boundaries(rows, experts, block), experts))
  }

  /** A quotient of a multiple is at least that many quotients on. */
  lemma Shares(rows: nat, experts: nat, e: nat)
    requires experts > 0
    ensures rows * e / experts + rows / experts <= rows * (e + 1) / experts
  {
    var q, p := rows * e / experts, rows / experts;
    assert rows * e == q * experts + rows * e % experts;
    assert rows == p * experts + rows % experts;
    assert rows * (e + 1) == rows * e + rows;
    assert rows * (e + 1) == (q + p) * experts + (rows * e % experts + rows % experts);
    AtLeast(rows * (e + 1), experts, q + p);
  }

  lemma AtLeast(x: nat, d: nat, q: nat)
    requires d > 0 && x >= q * d
    ensures x / d >= q
  {
    var k := x / d;
    assert x == k * d + x % d;
    assert k < q ==> (k + 1) * d <= q * d;
  }

  /** Every boundary is past the one before it by at least a row. */
  lemma Increasing(rows: nat, experts: nat, block: nat, e: nat)
    requires experts > 0 && block > 0 && rows / experts > block && e < experts
    ensures Boundary(rows, experts, block, e) < Boundary(rows, experts, block, e + 1)
  {
    Shares(rows, experts, e);
    Whole(rows, experts);
    if e == 0 {
      assert rows * 0 / experts == 0;
    }
    if e + 1 == experts {
      assert rows * (e + 1) / experts == rows;
    }
    assert 0 <= e * 7 % block < block && 0 <= (e + 1) * 7 % block < block;
  }

  lemma Whole(rows: nat, experts: nat)
    requires experts > 0
    ensures rows * experts / experts == rows
  {
    DivisionIsUnique(rows * experts, experts, rows, 0);
  }

  /** Row `i` is in expert `e`'s run. */
  predicate In(at: seq<int>, e: int, i: int) {
    0 <= e && e + 1 < |at| && at[e] <= i < at[e + 1]
  }

  /** Expert `e` has a row. */
  predicate Rises(at: seq<int>, e: int) {
    0 <= e && e + 1 < |at| && at[e] < at[e + 1]
  }

  /** Expanding runs that are each at least a row long, up to a boundary, gives as many rows as the
    * boundary says, in the experts' order, with none of them missing. */
  lemma {:induction false} ExpandedRuns(at: seq<int>, n: nat)
    requires n < |at| && at[0] == 0 && forall e :: 0 <= e < n ==> Rises(at, e)
    ensures at[n] >= n && |Expanded(at, n)| == at[n]
    ensures forall i :: 0 <= i < |Expanded(at, n)| ==> Expanded(at, n)[i] < n
    ensures forall e, i :: 0 <= e < n && In(at, e, i) ==> 0 <= i < |Expanded(at, n)| && Expanded(at, n)[i] == e
    ensures forall i, j :: 0 <= i < j < |Expanded(at, n)| ==> Expanded(at, n)[i] <= Expanded(at, n)[j]
  {
    if n > 0 {
      ExpandedRuns(at, n - 1);
      assert Rises(at, n - 1);
    }
  }

  /** Whenever there is a layout it covers every row exactly once, in order, and names every expert. */
  lemma LaidOut(rows: nat, experts: nat, block: nat)
    requires experts > 0 && block > 0
    ensures Laid(rows, experts, block).Some? <==> rows / experts > block
    ensures Laid(rows, experts, block).Some? ==>
      var laid := Laid(rows, experts, block).value;
      && |laid| == rows
      && (forall i, j :: 0 <= i < j < rows ==> laid[i] <= laid[j])
      && (forall i :: 0 <= i < rows ==> laid[i] < experts)
      && forall e :: 0 <= e < experts ==> e in laid
  {
    if rows / experts > block {
      var at := Boundaries(rows, experts, block);
      forall e | 0 <= e < experts
        ensures Rises(at, e)
      {
        Increasing(rows, experts, block, e);
      }
      ExpandedRuns(at, experts);
      forall e | 0 <= e < experts
        ensures e in Expanded(at, experts)
      {
        assert Rises(at, e) && In(at, e, at[e]);
        assert Expanded(at, experts)[at[e]] == e;
      }
    }
  }
}
