/** The banded relative-position mask: causal, windowed, and carrying the learned bias over the
  * last `relExtent` distances. */
module Mask {
  import opened Buffers

  /** An additive mask entry.  The constant that rules a key out is a constructor of its own,
    * because what it stands for is a magnitude no bias can reach. */
  datatype Bias = Masked | Of(value: real) {
    /** Scaling a real entry multiplies it; `Masked` stays `Masked`. */
    function Scaled(tau: real): Bias {
      match this
      case Masked => Masked
      case Of(value) => Of(value * tau)
    }
  }

  /** What a layer's mask is made from: a bias for each of `relExtent` distances, read through `dRel` relative
    * cells, and the width of its sliding window, zero for none. */
  datatype BandedMask = BandedMask(dRel: nat, relExtent: nat, sliding: nat, proj: seq<real>) {
    ghost predicate Valid() {
      dRel > 0 && relExtent > 0 && |proj| == dRel * relExtent
    }

    /** Coefficient of feature `d` at distance `dist`. */
    function Coefficient(d: nat, dist: nat): real
      requires Valid() && d < dRel && dist < relExtent
    {
      assert d * relExtent + dist < dRel * relExtent by {
        assert (d + 1) * relExtent <= dRel * relExtent;
      }
      proj[d * relExtent + dist]
    }

    function Projected(rel: Row, dist: nat, n: nat): real
      requires Valid() && dist < relExtent && n <= dRel && |rel| == dRel
    {
      if n == 0 then 0.0 else Projected(rel, dist, n - 1) + rel[n - 1] * Coefficient(n - 1, dist)
    }

    /** The entry for a key `dist` rows before the query: ruled out when ahead of it or past the window, no
      * bias beyond the extent, and the distance's own bias otherwise. */
    function Entry(rel: Row, dist: int): Bias
      requires Valid() && |rel| == dRel
    {
      if dist < 0 then Masked
      else if sliding > 0 && dist >= sliding then Masked
      else if dist >= relExtent then Of(0.0)
      else Of(Projected(rel, dist, dRel))
    }

    /** Whether a query at `position` may read the key at `j`. */
    predicate Sees(position: nat, j: nat) {
      j <= position && (sliding > 0 ==> position - j < sliding)
    }

    /** The entries of one query over the first `keys` keys. */
    ghost function Line(rel: Row, position: nat, keys: nat): (line: seq<Bias>)
      requires Valid() && |rel| == dRel
      ensures |line| == keys
      ensures forall j :: 0 <= j < keys ==> line[j] == Entry(rel, position - j)
    {
      seq(keys, j => Entry(rel, position - j))
    }

    /** An entry is ruled out exactly where the key is in the future or past the window, so a row
      * whose own key is in the span always holds one that is not. */
    lemma UnmaskedIsSeen(rel: Row, position: nat, keys: nat)
      requires Valid() && |rel| == dRel
      ensures forall j :: 0 <= j < keys ==> (Line(rel, position, keys)[j] != Masked <==> Sees(position, j))
      ensures position < keys ==> Line(rel, position, keys)[position] != Masked
    {
    }
  }

  /** Where `[b, h, i, 0]` of a `[_, heads, queries, keys]` tensor is:
    * `((b * heads + h) * queries + i) * keys`. */
  function Start(b: nat, h: nat, i: nat, heads: nat, queries: nat, keys: nat): nat {
    Span(Span(Span(b, heads) + h, queries) + i, keys)
  }

  lemma StartIsProduct(b: nat, h: nat, i: nat, heads: nat, queries: nat, keys: nat)
    ensures Start(b, h, i, heads, queries, keys) == ((b * heads + h) * queries + i) * keys
  {
    SpanIsProduct(b, heads);
    SpanIsProduct(Span(b, heads) + h, queries);
    SpanIsProduct(Span(Span(b, heads) + h, queries) + i, keys);
  }

  lemma StartIsFlat<T>(cube: seq<seq<seq<seq<T>>>>, b: nat, h: nat, i: nat, heads: nat, queries: nat, keys: nat)
    requires Shaped(cube, heads, queries, keys) && b < |cube| && h < heads && i < queries
    ensures Planes(cube[b], queries, keys) && Matrix(cube[b][h], queries, keys)
    ensures Start(b, h, i, heads, queries, keys) + keys <= |Flat(Flat(Flat(cube)))|
    ensures Flat(Flat(Flat(cube)))[Start(b, h, i, heads, queries, keys)..Start(b, h, i, heads, queries, keys) + keys]
         == cube[b][h][i]
  {
    var planes, p := Flat(cube), b * heads + h;
    FlatShaped(cube, heads, queries, keys);
    FlatCell(cube, heads, b, h);
    assert planes[p] == cube[b][h];
    StartIsProduct(b, h, i, heads, queries, keys);
    PlaneRow(planes, p, i, queries, keys);
  }

  /** One query's entries written into the mask from `at`. */
  method WriteLine(mask: BandedMask, out: array<Bias>, at: nat, rel: Row, position: nat, keys: nat)
    requires mask.Valid() && |rel| == mask.dRel && at + keys <= out.Length
    modifies out
    ensures out[..at] == old(out[..at])
    ensures out[at..at + keys] == mask.Line(rel, position, keys)
  {
    for j := 0 to keys
      invariant out[..at] == old(out[..at])
      invariant out[at..at + j] == mask.Line(rel, position, keys)[..j]
    {
      out[at + j] := mask.Entry(rel, position - j);
      assert out[at..at + j + 1] == out[at..at + j] + [out[at + j]];
    }
  }

  /** The entries of every query of head `h` of one batch member. */
  ghost function Plane(mask: BandedMask, parts: seq<seq<Row>>, h: nat, qOffset: nat, keys: nat): (plane: seq<seq<Bias>>)
    requires mask.Valid() && forall i :: 0 <= i < |parts| ==> h < |parts[i]| && |parts[i][h]| == mask.dRel
    ensures Matrix(plane, |parts|, keys)
    ensures forall i :: 0 <= i < |parts| ==> plane[i] == mask.Line(parts[i][h], i + qOffset, keys)
  {
    seq(|parts|, i requires 0 <= i < |parts| => mask.Line(parts[i][h], i + qOffset, keys))
  }

  /** The whole mask: `rel` is query-major and head-minor where this is head-major. */
  ghost function Cube(mask: BandedMask, parts: seq<seq<seq<Row>>>, heads: nat, queries: nat, qOffset: nat, keys: nat)
    : (cube: seq<seq<seq<seq<Bias>>>>)
    requires mask.Valid() && Shaped(parts, queries, heads, mask.dRel)
    ensures |cube| == |parts| && Shaped(cube, heads, queries, keys)
    ensures forall b, h :: 0 <= b < |parts| && 0 <= h < heads ==>
              && Planes(parts[b], heads, mask.dRel)
              && (forall i :: 0 <= i < queries ==> Matrix(parts[b][i], heads, mask.dRel))
              && cube[b][h] == Plane(mask, parts[b], h, qOffset, keys)
  {
    seq(|parts|, b requires 0 <= b < |parts| =>
      assert Planes(parts[b], heads, mask.dRel);
      assert forall i :: 0 <= i < queries ==> Matrix(parts[b][i], heads, mask.dRel);
      seq(heads, h requires 0 <= h < heads => Plane(mask, parts[b], h, qOffset, keys)))
  }

  ghost function Whole(mask: BandedMask, parts: seq<seq<seq<Row>>>, heads: nat, queries: nat, qOffset: nat, keys: nat)
    : seq<Bias>
    requires mask.Valid() && Shaped(parts, queries, heads, mask.dRel)
  {
    Flat(Flat(Flat(Cube(mask, parts, heads, queries, qOffset, keys))))
  }

  /** One query of one head, which leaves the mask written as far as the next. */
  method ForwardLine(mask: BandedMask, out: array<Bias>, rel: seq<real>, b: nat, h: nat, i: nat, heads: nat,
                     queries: nat, qOffset: nat, keys: nat, ghost parts: seq<seq<seq<Row>>>)
    requires mask.Valid() && b < |parts| && h < heads && i < queries
    requires Shaped(parts, queries, heads, mask.dRel) && rel == Flat(Flat(Flat(parts)))
    requires Upto(out[..], Whole(mask, parts, heads, queries, qOffset, keys), Start(b, h, i, heads, queries, keys))
    modifies out
    ensures Upto(out[..], Whole(mask, parts, heads, queries, qOffset, keys),
                 Start(b, h, i, heads, queries, keys) + keys)
  {
    RelRow(parts, b, i, h, queries, heads, mask.dRel);
    LineOfWhole(mask, parts, b, h, i, heads, queries, qOffset, keys);
    var from, at := Start(b, i, h, queries, heads, mask.dRel), Start(b, h, i, heads, queries, keys);
    WriteLine(mask, out, at, rel[from..from + mask.dRel], i + qOffset, keys);
    OneMoreLine(out[..], Whole(mask, parts, heads, queries, qOffset, keys), at, keys);
  }

  /** Every query of one head. */
  method ForwardHead(mask: BandedMask, out: array<Bias>, rel: seq<real>, b: nat, h: nat, heads: nat, queries: nat,
                     qOffset: nat, keys: nat, ghost parts: seq<seq<seq<Row>>>)
    requires mask.Valid() && b < |parts| && h < heads
    requires Shaped(parts, queries, heads, mask.dRel) && rel == Flat(Flat(Flat(parts)))
    requires Upto(out[..], Whole(mask, parts, heads, queries, qOffset, keys), Start(b, h, 0, heads, queries, keys))
    modifies out
    ensures Upto(out[..], Whole(mask, parts, heads, queries, qOffset, keys), Start(b, h + 1, 0, heads, queries, keys))
  {
    ghost var whole := Whole(mask, parts, heads, queries, qOffset, keys);
    for i := 0 to queries
      invariant Upto(out[..], whole, Start(b, h, i, heads, queries, keys))
    {
      ForwardLine(mask, out, rel, b, h, i, heads, queries, qOffset, keys, parts);
    }
  }

  /** Every head of one batch member. */
  method ForwardMember(mask: BandedMask, out: array<Bias>, rel: seq<real>, b: nat, heads: nat, queries: nat,
                       qOffset: nat, keys: nat, ghost parts: seq<seq<seq<Row>>>)
    requires mask.Valid() && b < |parts|
    requires Shaped(parts, queries, heads, mask.dRel) && rel == Flat(Flat(Flat(parts)))
    requires Upto(out[..], Whole(mask, parts, heads, queries, qOffset, keys), Start(b, 0, 0, heads, queries, keys))
    modifies out
    ensures Upto(out[..], Whole(mask, parts, heads, queries, qOffset, keys), Start(b + 1, 0, 0, heads, queries, keys))
  {
    ghost var whole := Whole(mask, parts, heads, queries, qOffset, keys);
    for h := 0 to heads
      invariant Upto(out[..], whole, Start(b, h, 0, heads, queries, keys))
    {
      ForwardHead(mask, out, rel, b, h, heads, queries, qOffset, keys, parts);
    }
    assert Start(b, heads, 0, heads, queries, keys) == Start(b + 1, 0, 0, heads, queries, keys);
  }

  /** The additive mask of a whole call: query `i` sits at `i + qOffset`. */
  method Forward(mask: BandedMask, rel: seq<real>, batch: nat, heads: nat, qOffset: nat, keys: nat,
                 ghost parts: seq<seq<seq<Row>>>, queries: nat)
    returns (out: array<Bias>)
    requires mask.Valid() && |parts| == batch
    requires Shaped(parts, queries, heads, mask.dRel) && rel == Flat(Flat(Flat(parts)))
    ensures fresh(out)
    ensures out[..] == Whole(mask, parts, heads, queries, qOffset, keys)
  {
    ghost var whole := Whole(mask, parts, heads, queries, qOffset, keys);
    CubeLength(Cube(mask, parts, heads, queries, qOffset, keys), heads, queries, keys);
    out := new Bias[Start(batch, 0, 0, heads, queries, keys)];
    for b := 0 to batch
      invariant Upto(out[..], whole, Start(b, 0, 0, heads, queries, keys))
    {
      ForwardMember(mask, out, rel, b, heads, queries, qOffset, keys, parts);
    }
  }

  lemma RelRow(parts: seq<seq<seq<Row>>>, b: nat, i: nat, h: nat, queries: nat, heads: nat, width: nat)
    requires Shaped(parts, queries, heads, width) && b < |parts| && i < queries && h < heads
    ensures Planes(parts[b], heads, width) && Matrix(parts[b][i], heads, width)
    ensures Start(b, i, h, queries, heads, width) + width <= |Flat(Flat(Flat(parts)))|
    ensures Flat(Flat(Flat(parts)))[Start(b, i, h, queries, heads, width)..Start(b, i, h, queries, heads, width)
                                    + width]
         == parts[b][i][h]
  {
    StartIsFlat(parts, b, i, h, queries, heads, width);
  }

  lemma LineOfWhole(mask: BandedMask, parts: seq<seq<seq<Row>>>, b: nat, h: nat, i: nat, heads: nat, queries: nat,
                    qOffset: nat, keys: nat)
    requires mask.Valid() && Shaped(parts, queries, heads, mask.dRel)
    requires b < |parts| && h < heads && i < queries
    ensures Planes(parts[b], heads, mask.dRel) && Matrix(parts[b][i], heads, mask.dRel)
    ensures var whole, at := Whole(mask, parts, heads, queries, qOffset, keys), Start(b, h, i, heads, queries, keys);
            at + keys <= |whole| && whole[at..at + keys] == mask.Line(parts[b][i][h], i + qOffset, keys)
  {
    var cube := Cube(mask, parts, heads, queries, qOffset, keys);
    StartIsFlat(cube, b, h, i, heads, queries, keys);
    assert cube[b][h] == Plane(mask, parts[b], h, qOffset, keys);
  }

  lemma OneMoreLine<T>(got: seq<T>, want: seq<T>, at: nat, keys: nat)
    requires Upto(got, want, at) && at + keys <= |want| && got[at..at + keys] == want[at..at + keys]
    ensures Upto(got, want, at + keys)
  {
    assert got[..at + keys] == got[..at] + got[at..at + keys];
    assert want[..at + keys] == want[..at] + want[at..at + keys];
  }

  /** Every flat index of the mask holds the four-way rule for its query's backward distance. */
  lemma EveryIndex(mask: BandedMask, parts: seq<seq<seq<Row>>>, heads: nat, queries: nat, qOffset: nat, keys: nat,
                   b: nat, h: nat, i: nat, j: nat)
    requires mask.Valid() && Shaped(parts, queries, heads, mask.dRel)
    requires b < |parts| && h < heads && i < queries && j < keys
    ensures Planes(parts[b], heads, mask.dRel) && Matrix(parts[b][i], heads, mask.dRel)
    ensures ((b * heads + h) * queries + i) * keys + j < |Whole(mask, parts, heads, queries, qOffset, keys)|
    ensures Whole(mask, parts, heads, queries, qOffset, keys)[((b * heads + h) * queries + i) * keys + j]
         == mask.Entry(parts[b][i][h], i + qOffset - j)
  {
    LineOfWhole(mask, parts, b, h, i, heads, queries, qOffset, keys);
    var whole, at := Whole(mask, parts, heads, queries, qOffset, keys), Start(b, h, i, heads, queries, keys);
    assert whole[at + j] == whole[at..at + keys][j];
    StartIsProduct(b, h, i, heads, queries, keys);
  }

  ghost predicate Upto<T>(got: seq<T>, want: seq<T>, n: nat) {
    n <= |got| == |want| && got[..n] == want[..n]
  }

  lemma CubeLength<T>(cube: seq<seq<seq<seq<T>>>>, heads: nat, queries: nat, keys: nat)
    requires Shaped(cube, heads, queries, keys)
    ensures |Flat(Flat(Flat(cube)))| == Start(|cube|, 0, 0, heads, queries, keys)
  {
    StartIsProduct(|cube|, 0, 0, heads, queries, keys);
    FlatShaped(cube, heads, queries, keys);
    FlatLength(cube, heads);
    FlatPlanes(Flat(cube), queries, keys);
    FlatLength(Flat(Flat(cube)), keys);
  }
}
