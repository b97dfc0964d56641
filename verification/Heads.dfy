/** The two layouts a head's rows are held in: `[rows, heads, headDim]`, which a projection
  * produces, and `[heads, rows, headDim]`, which attention reads. */
module Heads {
  import opened Buffers

  /** A buffer as the `lines`-by-`cells` matrices it holds. */
  ghost function Parts<T>(x: seq<T>, lines: nat, cells: nat): (planes: seq<seq<seq<T>>>)
    requires lines > 0 && cells > 0
    ensures Planes(planes, lines, cells)
  {
    var rows := Chunks(x, cells);
    var planes := Chunks(rows, lines);
    ChunksKeep(rows, lines, cells);
    planes
  }

  lemma {:induction false} ChunksKeep<T>(rows: seq<seq<T>>, lines: nat, cells: nat)
    requires lines > 0 && Wide(rows, cells)
    ensures Planes(Chunks(rows, lines), lines, cells)
    decreases |rows|
  {
    if |rows| >= lines {
      ChunksKeep(rows[lines..], lines, cells);
    }
  }

  /** Reading the matrices out of the buffer they were laid into. */
  lemma PartsOfFlat<T>(planes: seq<seq<seq<T>>>, lines: nat, cells: nat)
    requires lines > 0 && cells > 0 && Planes(planes, lines, cells)
    ensures Parts(Flat(Flat(planes)), lines, cells) == planes
  {
    FlatPlanes(planes, lines, cells);
    ChunksOfFlat(Flat(planes), cells);
    ChunksOfFlat(planes, lines);
  }

  /** A buffer of whole matrices is those matrices laid end to end. */
  lemma FlatOfParts<T>(x: seq<T>, planes: nat, lines: nat, cells: nat)
    requires lines > 0 && cells > 0 && |x| == planes * lines * cells
    ensures Flat(Flat(Parts(x, lines, cells))) == x && |Parts(x, lines, cells)| == planes
  {
    FlatOfChunks(x, cells, planes * lines);
    FlatOfChunks(Chunks(x, cells), lines, planes);
  }

  /** Rows by heads as heads by rows. */
  ghost function Transposed<T>(planes: seq<seq<seq<T>>>, lines: nat, cells: nat): (turned: seq<seq<seq<T>>>)
    requires Planes(planes, lines, cells)
    ensures |turned| == lines && Planes(turned, |planes|, cells)
    ensures forall p, i :: 0 <= p < |planes| && 0 <= i < lines ==>
              Matrix(planes[p], lines, cells) && turned[i][p] == planes[p][i]
  {
    assert forall p :: 0 <= p < |planes| ==> Matrix(planes[p], lines, cells);
    seq(lines, i requires 0 <= i < lines => seq(|planes|, p requires 0 <= p < |planes| => planes[p][i]))
  }

  lemma TransposedTwice<T>(planes: seq<seq<seq<T>>>, lines: nat, cells: nat)
    requires Planes(planes, lines, cells)
    ensures Transposed(Transposed(planes, lines, cells), |planes|, cells) == planes
  {
    var turned := Transposed(planes, lines, cells);
    forall p | 0 <= p < |planes|
      ensures Transposed(turned, |planes|, cells)[p] == planes[p]
    {
      assert Matrix(planes[p], lines, cells);
      assert Matrix(Transposed(turned, |planes|, cells)[p], lines, cells);
    }
  }

  /** The rows of `x` head by head. */
  ghost function Split(x: seq<real>, heads: nat, headDim: nat): seq<real>
    requires heads > 0 && headDim > 0
  {
    Flat(Flat(Transposed(Parts(x, heads, headDim), heads, headDim)))
  }

  /** Heads of `rows` rows, as rows again. */
  ghost function Merged(x: seq<real>, heads: nat, rows: nat, headDim: nat): seq<real>
    requires heads > 0 && rows > 0 && headDim > 0
  {
    Flat(Flat(Transposed(Parts(x, rows, headDim), rows, headDim)))
  }

  /** The two are inverse, in both directions, on every buffer of whole rows. */
  lemma MergeUndoesSplit(x: seq<real>, rows: nat, heads: nat, headDim: nat)
    requires heads > 0 && rows > 0 && headDim > 0 && |x| == rows * heads * headDim
    ensures Merged(Split(x, heads, headDim), heads, rows, headDim) == x
  {
    var parts := Parts(x, heads, headDim);
    FlatOfParts(x, rows, heads, headDim);
    var turned := Transposed(parts, heads, headDim);
    PartsOfFlat(turned, rows, headDim);
    TransposedTwice(parts, heads, headDim);
  }

  lemma SplitUndoesMerge(x: seq<real>, rows: nat, heads: nat, headDim: nat)
    requires heads > 0 && rows > 0 && headDim > 0 && |x| == heads * rows * headDim
    ensures Split(Merged(x, heads, rows, headDim), heads, headDim) == x
  {
    var parts := Parts(x, rows, headDim);
    FlatOfParts(x, heads, rows, headDim);
    var turned := Transposed(parts, rows, headDim);
    PartsOfFlat(turned, heads, headDim);
    TransposedTwice(parts, rows, headDim);
  }

  /** One head's rows out of every row of the buffer. */
  method SplitHead(x: seq<real>, head: nat, rows: nat, heads: nat, headDim: nat, ghost parts: seq<seq<Row>>)
    returns (out: seq<real>)
    requires |parts| == rows && Planes(parts, heads, headDim) && x == Flat(Flat(parts)) && head < heads
    ensures out == Flat(Transposed(parts, heads, headDim)[head])
  {
    var stride := heads * headDim;
    ghost var own := Transposed(parts, heads, headDim)[head];
    assert Matrix(own, rows, headDim);
    out := [];
    for row := 0 to rows
      invariant out == Flat(own[..row])
    {
      var part := HeadPart(x, head, row, heads, headDim, stride, parts);
      RunAt(own, row);
      out := out + part;
    }
    assert own[..rows] == own;
  }

  /** One head's cells of one row. */
  method HeadPart(x: seq<real>, head: nat, row: nat, heads: nat, headDim: nat, stride: nat, ghost parts: seq<seq<Row>>)
    returns (part: seq<real>)
    requires Planes(parts, heads, headDim) && x == Flat(Flat(parts)) && head < heads && row < |parts|
    requires stride == heads * headDim
    ensures Matrix(parts[row], heads, headDim) && part == parts[row][head]
  {
    var at, from := row * stride, head * headDim;
    HeadOfRow(parts, row, head, heads, headDim, stride, at, from);
    var whole := x[at..at + stride];
    part := whole[from..from + headDim];
  }

  lemma HeadOfRow(parts: seq<seq<Row>>, row: nat, head: nat, heads: nat, headDim: nat, stride: nat, at: nat, from: nat)
    requires Planes(parts, heads, headDim) && row < |parts| && head < heads
    requires stride == heads * headDim && at == row * stride && from == head * headDim
    ensures Matrix(parts[row], heads, headDim)
    ensures at + stride <= |Flat(Flat(parts))| && from + headDim <= stride
    ensures Flat(Flat(parts))[at..at + stride][from..from + headDim] == parts[row][head]
  {
    FlatJoined(parts);
    JoinedWide(parts, heads, headDim);
    FlatRow(Joined(parts), stride, row);
    assert Matrix(parts[row], heads, headDim);
    FlatLength(parts[row], headDim);
    FlatRow(parts[row], headDim, head);
  }

  /** `[rows, heads * headDim]` as `[heads, rows, headDim]`. */
  method SplitHeads(x: seq<real>, heads: nat, headDim: nat, ghost parts: seq<seq<Row>>) returns (out: seq<real>)
    requires heads > 0 && headDim > 0 && Planes(parts, heads, headDim) && x == Flat(Flat(parts))
    ensures out == Flat(Flat(Transposed(parts, heads, headDim)))
    ensures out == Split(x, heads, headDim)
  {
    RowCount(parts, heads, headDim);
    PartsOfFlat(parts, heads, headDim);
    var rows := |x| / (heads * headDim);
    ghost var turned := Transposed(parts, heads, headDim);
    out := [];
    for head := 0 to heads
      invariant out == Flat(Flat(turned[..head]))
    {
      var own := SplitHead(x, head, rows, heads, headDim, parts);
      LayOneMore(turned, head);
      out := out + own;
    }
    assert turned[..heads] == turned;
  }

  lemma LayOneMore<T>(planes: seq<seq<seq<T>>>, p: nat)
    requires p < |planes|
    ensures Flat(Flat(planes[..p + 1])) == Flat(Flat(planes[..p])) + Flat(planes[p])
  {
    assert planes[..p + 1] == planes[..p] + [planes[p]];
    FlatPush(planes[..p], planes[p]);
    FlatAppend(Flat(planes[..p]), planes[p]);
  }

  lemma RowCount<T>(parts: seq<seq<seq<T>>>, lines: nat, cells: nat)
    requires lines > 0 && cells > 0 && Planes(parts, lines, cells)
    ensures lines * cells > 0 && |Flat(Flat(parts))| / (lines * cells) == |parts|
  {
    FlatJoined(parts);
    JoinedWide(parts, lines, cells);
    RowsCounted(Joined(parts), lines * cells);
  }

  /** Where row `row` of head `head` is in a head-major buffer. */
  function At(head: nat, rows: nat, row: nat, headDim: nat): nat {
    (head * rows + row) * headDim
  }

  /** One row out of every head of the buffer. */
  method MergeRow(x: seq<real>, row: nat, rows: nat, heads: nat, headDim: nat, ghost parts: seq<seq<Row>>)
    returns (out: seq<real>)
    requires |parts| == heads && Planes(parts, rows, headDim) && x == Flat(Flat(parts)) && row < rows
    ensures out == Flat(Transposed(parts, rows, headDim)[row])
  {
    ghost var own := Transposed(parts, rows, headDim)[row];
    assert Matrix(own, heads, headDim);
    out := [];
    for head := 0 to heads
      invariant out == Flat(own[..head])
    {
      var from := At(head, rows, row, headDim);
      PlaneRow(parts, head, row, rows, headDim);
      FlatPush(own[..head], own[head]);
      assert own[..head + 1] == own[..head] + [own[head]];
      out := out + x[from..from + headDim];
    }
    assert own[..heads] == own;
  }

  /** The inverse: `[heads, rows, headDim]` back to `[rows, heads * headDim]`. */
  method MergeHeads(x: seq<real>, heads: nat, headDim: nat, ghost parts: seq<seq<Row>>, ghost count: nat)
    returns (out: seq<real>)
    requires heads > 0 && headDim > 0 && |parts| == heads && Planes(parts, count, headDim) && x == Flat(Flat(parts))
    ensures out == Flat(Flat(Transposed(parts, count, headDim)))
    ensures count > 0 ==> out == Merged(x, heads, count, headDim)
  {
    MergedRowCount(parts, count, headDim);
    if count > 0 { PartsOfFlat(parts, count, headDim); }
    var rows := |x| / (heads * headDim);
    ghost var turned := Transposed(parts, count, headDim);
    out := [];
    for row := 0 to rows
      invariant out == Flat(Flat(turned[..row]))
    {
      var own := MergeRow(x, row, rows, heads, headDim, parts);
      LayOneMore(turned, row);
      out := out + own;
    }
    assert turned[..rows] == turned;
  }

  lemma MergedRowCount<T>(parts: seq<seq<seq<T>>>, count: nat, cells: nat)
    requires |parts| > 0 && cells > 0 && Planes(parts, count, cells)
    ensures |parts| * cells > 0 && |Flat(Flat(parts))| / (|parts| * cells) == count
  {
    var length, width := |Flat(Flat(parts))|, |parts| * cells;
    FlatPlanes(parts, count, cells);
    FlatLength(Flat(parts), cells);
    Reordered(|parts|, count, cells);
    Positive(|parts|, cells);
    assert length == width * count;
    DivisionIsUnique(length, width, count, 0);
  }

  lemma Positive(a: nat, b: nat)
    requires a > 0 && b > 0
    ensures a * b > 0
  {
  }

  lemma Reordered(a: nat, b: nat, c: nat)
    ensures (a * b) * c == (a * c) * b
  {
  }

  /** `want` is `planes` with `f` of the query's own index over every row. */
  ghost predicate Cycles<T(!new)>(planes: seq<seq<seq<T>>>, want: seq<seq<seq<T>>>, queries: nat, cells: nat,
                                  f: (nat, seq<T>) -> seq<T>) {
    && |planes| == |want| && Planes(planes, queries, cells) && Wide(want, queries)
    && forall h, i :: 0 <= h < |planes| && 0 <= i < queries ==> CycleAt(planes[h], want[h], i, f)
  }

  ghost predicate CycleAt<T>(plane: seq<seq<T>>, want: seq<seq<T>>, i: nat, f: (nat, seq<T>) -> seq<T>) {
    i < |plane| && i < |want| && want[i] == f(i, plane[i])
  }

  /** `f` over the rows of a `[heads, queries, cells]` buffer, cycling over the queries: they are
    * the minor index, so that walks the rows in order. */
  method Cycled<T(!new)>(x: seq<T>, heads: nat, queries: nat, cells: nat, f: (nat, seq<T>) -> seq<T>,
                         ghost planes: seq<seq<seq<T>>>, ghost want: seq<seq<seq<T>>>) returns (out: seq<T>)
    requires |planes| == heads && Cycles(planes, want, queries, cells, f) && x == Flat(Flat(planes))
    ensures out == Flat(Flat(want))
  {
    out := [];
    for h := 0 to heads
      invariant out == Flat(Flat(want[..h]))
    {
      var rows := CycleHead(x, h, queries, cells, f, planes, want[h]);
      LayOneMore(want, h);
      out := out + rows;
    }
    assert want[..heads] == want;
  }

  method CycleHead<T(!new)>(x: seq<T>, h: nat, queries: nat, cells: nat, f: (nat, seq<T>) -> seq<T>,
                            ghost planes: seq<seq<seq<T>>>, ghost own: seq<seq<T>>) returns (rows: seq<T>)
    requires Planes(planes, queries, cells) && x == Flat(Flat(planes)) && h < |planes| && |own| == queries
    requires forall i :: 0 <= i < queries ==> CycleAt(planes[h], own, i, f)
    ensures rows == Flat(own)
  {
    rows := [];
    for i := 0 to queries
      invariant rows == Flat(own[..i])
    {
      var at := At(h, queries, i, cells);
      PlaneRow(planes, h, i, queries, cells);
      assert CycleAt(planes[h], own, i, f);
      FlatPush(own[..i], own[i]);
      assert own[..i + 1] == own[..i] + [own[i]];
      rows := rows + f(i, x[at..at + cells]);
    }
    assert own[..queries] == own;
  }
}
