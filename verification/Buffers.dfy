/** Row-major float buffers, and the rows they are made of.
  *
  * A hidden state is handed around as one flat buffer of whole rows.  The
  * specifications in this project speak of the rows; what joins the two is
  * `Flat`, and the lemmas here are the index arithmetic every caller needs.
  */
module Buffers {

  type Row = seq<real>

  /** Every row of `rows` is `width` values. */
  ghost predicate Wide<T>(rows: seq<seq<T>>, width: nat) {
    forall i :: 0 <= i < |rows| ==> |rows[i]| == width
  }

  /** The rows laid end to end. */
  function Flat<T>(rows: seq<seq<T>>): seq<T> {
    if rows == [] then [] else rows[0] + Flat(rows[1..])
  }

  /** A buffer cut into rows of `width`. */
  ghost function Chunks<T>(x: seq<T>, width: nat): (rows: seq<seq<T>>)
    requires width > 0
    ensures Wide(rows, width)
    decreases |x|
  {
    if |x| < width then [] else [x[..width]] + Chunks(x[width..], width)
  }

  lemma {:induction false} FlatAppend<T>(a: seq<seq<T>>, b: seq<seq<T>>)
    ensures Flat(a + b) == Flat(a) + Flat(b)
  {
    var both := a + b;
    if a == [] {
      assert both == b;
    } else {
      var rest := a[1..];
      FlatAppend(rest, b);
      assert both[0] == a[0] && both[1..] == rest + b;
      Associates(a[0], Flat(rest), Flat(b));
    }
  }

  lemma Associates<T>(a: seq<T>, b: seq<T>, c: seq<T>)
    ensures a + (b + c) == (a + b) + c
  {
  }

  /** One more row is that row on the end. */
  lemma FlatPush<T>(rows: seq<seq<T>>, row: seq<T>)
    ensures Flat(rows + [row]) == Flat(rows) + row
  {
    FlatAppend(rows, [row]);
    assert Flat([row][1..]) == [];
  }

  lemma {:induction false} FlatLength<T>(rows: seq<seq<T>>, width: nat)
    requires Wide(rows, width)
    ensures |Flat(rows)| == |rows| * width
  {
    if rows != [] {
      FlatLength(rows[1..], width);
    }
  }

  /** A list of rows in two parts is a buffer in two parts. */
  lemma FlatHalves<T>(rows: seq<seq<T>>, width: nat, at: nat)
    requires Wide(rows, width) && at <= |rows|
    ensures |Flat(rows[..at])| == at * width
    ensures Flat(rows) == Flat(rows[..at]) + Flat(rows[at..])
  {
    var front, back := rows[..at], rows[at..];
    assert rows == front + back;
    FlatAppend(front, back);
    FlatLength(front, width);
    assert |front| == at;
  }

  lemma FlatTake<T>(rows: seq<seq<T>>, width: nat, to: nat)
    requires Wide(rows, width) && to <= |rows|
    ensures to * width <= |Flat(rows)| && Flat(rows)[..to * width] == Flat(rows[..to])
  {
    FlatHalves(rows, width, to);
    Halves(Flat(rows[..to]), Flat(rows[to..]), to * width);
  }

  lemma FlatDrop<T>(rows: seq<seq<T>>, width: nat, from: nat)
    requires Wide(rows, width) && from <= |rows|
    ensures from * width <= |Flat(rows)| && Flat(rows)[from * width..] == Flat(rows[from..])
  {
    FlatHalves(rows, width, from);
    Halves(Flat(rows[..from]), Flat(rows[from..]), from * width);
  }

  lemma Halves<T>(a: seq<T>, b: seq<T>, n: nat)
    requires n == |a|
    ensures (a + b)[..n] == a && (a + b)[n..] == b
  {
  }

  /** Cutting a buffer at row boundaries is cutting the list of rows. */
  lemma FlatSlice<T>(rows: seq<seq<T>>, width: nat, from: nat, to: nat)
    requires Wide(rows, width) && from <= to <= |rows|
    ensures from * width <= to * width <= |Flat(rows)| == |rows| * width
    ensures Flat(rows)[from * width..to * width] == Flat(rows[from..to])
  {
    FlatLength(rows, width);
    FlatTake(rows, width, to);
    FlatDrop(rows[..to], width, from);
    assert rows[..to][from..] == rows[from..to];
    Within(Flat(rows), from * width, to * width);
    FlatLength(rows[..to], width);
  }

  lemma FlatPart<T>(rows: seq<seq<T>>, width: nat, first: nat, last: nat, from: nat, to: nat)
    requires Wide(rows, width) && first <= last <= |rows| && from == first * width && to == last * width
    ensures from <= to <= |Flat(rows)| && Flat(rows)[from..to] == Flat(rows[first..last])
  {
    FlatSlice(rows, width, first, last);
  }

  lemma Within<T>(x: seq<T>, from: nat, to: nat)
    requires to <= |x| && from <= to
    ensures x[..to][from..] == x[from..to]
  {
  }

  lemma Cut<T>(a: seq<T>, b: seq<T>, c: seq<T>)
    ensures (a + b + c)[|a|..|a + b|] == b
  {
  }

  /** The `i`th row of the buffer is the `i`th row. */
  lemma FlatRow<T>(rows: seq<seq<T>>, width: nat, i: nat)
    requires Wide(rows, width) && i < |rows|
    ensures i * width + width <= |Flat(rows)|
    ensures Flat(rows)[i * width..i * width + width] == rows[i]
  {
    FlatSlice(rows, width, i, i + 1);
    assert (i + 1) * width == i * width + width;
    assert rows[i..i + 1] == [rows[i]];
    FlatPush([], rows[i]);
    assert [] + [rows[i]] == [rows[i]];
  }

  /** Reading the rows back out of a buffer gives the rows it was laid from. */
  lemma {:induction false} ChunksOfFlat<T>(rows: seq<seq<T>>, width: nat)
    requires width > 0 && Wide(rows, width)
    ensures Chunks(Flat(rows), width) == rows
  {
    if rows != [] {
      ChunksOfFlat(rows[1..], width);
      assert Flat(rows)[width..] == Flat(rows[1..]);
    }
  }

  /** A buffer of whole rows is its rows laid end to end. */
  lemma {:induction false} FlatOfChunks<T>(x: seq<T>, width: nat, n: nat)
    requires width > 0 && |x| == n * width
    ensures Flat(Chunks(x, width)) == x && |Chunks(x, width)| == n
    decreases n
  {
    if n > 0 {
      assert |x| == (n - 1) * width + width;
      FlatOfChunks(x[width..], width, n - 1);
    }
  }

  /** Two buffers added value by value. */
  function Plus(a: seq<real>, b: seq<real>): (sum: seq<real>)
    requires |a| == |b|
    ensures |sum| == |a|
    ensures forall i :: 0 <= i < |a| ==> sum[i] == a[i] + b[i]
  {
    seq(|a|, i requires 0 <= i < |a| => a[i] + b[i])
  }

  /** Two lists of rows added row by row. */
  ghost function PlusRows(a: seq<Row>, b: seq<Row>, width: nat): (rows: seq<Row>)
    requires Wide(a, width) && Wide(b, width) && |a| == |b|
    ensures |rows| == |a| && Wide(rows, width)
    ensures forall i :: 0 <= i < |a| ==> rows[i] == Plus(a[i], b[i])
  {
    seq(|a|, i requires 0 <= i < |a| => Plus(a[i], b[i]))
  }

  lemma PlusParts(a: seq<real>, b: seq<real>, c: seq<real>, d: seq<real>)
    requires |a| == |c| && |b| == |d|
    ensures Plus(a + b, c + d) == Plus(a, c) + Plus(b, d)
  {
  }

  /** Adding buffers adds their rows. */
  lemma {:induction false} PlusFlat(a: seq<Row>, b: seq<Row>, width: nat)
    requires Wide(a, width) && Wide(b, width) && |a| == |b|
    ensures |Flat(a)| == |Flat(b)|
    ensures Plus(Flat(a), Flat(b)) == Flat(PlusRows(a, b, width))
  {
    FlatLength(a, width);
    FlatLength(b, width);
    if a != [] {
      PlusFlat(a[1..], b[1..], width);
      assert PlusRows(a, b, width)[1..] == PlusRows(a[1..], b[1..], width);
      PlusParts(a[0], Flat(a[1..]), b[0], Flat(b[1..]));
    }
  }

  /** Entry `[i, j]` of a matrix laid row by row. */
  lemma FlatCell<T>(rows: seq<seq<T>>, width: nat, i: nat, j: nat)
    requires Wide(rows, width) && i < |rows| && j < width
    ensures i * width + j < |Flat(rows)|
    ensures Flat(rows)[i * width + j] == rows[i][j]
  {
    FlatRow(rows, width, i);
    assert Flat(rows)[i * width..i * width + width][j] == rows[i][j];
  }

  /** What a length divides into is how many rows it was laid from. */
  lemma RowsCounted<T>(rows: seq<seq<T>>, width: nat)
    requires width > 0 && Wide(rows, width)
    ensures |Flat(rows)| % width == 0 && |Flat(rows)| / width == |rows|
  {
    FlatLength(rows, width);
    DivisionIsUnique(|Flat(rows)|, width, |rows|, 0);
  }

  /** `n * width`, counted out: offsets into deep nests are sums of these, and adding one more
    * run is then linear arithmetic. */
  function Span(n: nat, width: nat): nat {
    if n == 0 then 0 else Span(n - 1, width) + width
  }

  lemma {:induction false} SpanIsProduct(n: nat, width: nat)
    ensures Span(n, width) == n * width
  {
    if n > 0 {
      SpanIsProduct(n - 1, width);
      assert n * width == (n - 1) * width + width;
    }
  }

  lemma DivisionIsUnique(x: nat, d: nat, q: nat, r: nat)
    requires x == d * q + r && r < d
    ensures x / d == q && x % d == r
  {
    Between(d, x / d - q);
  }

  lemma Between(d: int, k: int)
    requires d > 0
    ensures -d < d * k < d ==> k == 0
  {
    assert k >= 1 ==> d * k >= d;
    assert k <= -1 ==> d * k <= -d;
  }

  /** A list of matrices, each `lines` by `cells`. */
  ghost predicate Planes<T>(planes: seq<seq<seq<T>>>, lines: nat, cells: nat) {
    forall p :: 0 <= p < |planes| ==> Matrix(planes[p], lines, cells)
  }

  ghost predicate Matrix<T>(plane: seq<seq<T>>, lines: nat, cells: nat) {
    |plane| == lines && Wide(plane, cells)
  }

  /** A list of lists of matrices. */
  ghost predicate Shaped<T>(cube: seq<seq<seq<seq<T>>>>, planes: nat, lines: nat, cells: nat) {
    Wide(cube, planes) && forall b :: 0 <= b < |cube| ==> Planes(cube[b], lines, cells)
  }

  lemma {:induction false} FlatPlanes<T>(planes: seq<seq<seq<T>>>, lines: nat, cells: nat)
    requires Planes(planes, lines, cells)
    ensures Wide(planes, lines) && Wide(Flat(planes), cells) && |Flat(planes)| == |planes| * lines
  {
    assert Wide(planes, lines);
    FlatLength(planes, lines);
    if planes != [] {
      assert Matrix(planes[0], lines, cells);
      FlatPlanes(planes[1..], lines, cells);
    }
  }

  lemma {:induction false} FlatShaped<T>(cube: seq<seq<seq<seq<T>>>>, planes: nat, lines: nat, cells: nat)
    requires Shaped(cube, planes, lines, cells)
    ensures Planes(Flat(cube), lines, cells)
  {
    if cube != [] {
      FlatShaped(cube[1..], planes, lines, cells);
    }
  }

  /** Row `i` of matrix `p` is a run of the buffer. */
  lemma PlaneRow<T>(planes: seq<seq<seq<T>>>, p: nat, i: nat, lines: nat, cells: nat)
    requires Planes(planes, lines, cells) && p < |planes| && i < lines
    ensures Matrix(planes[p], lines, cells)
    ensures (p * lines + i) * cells + cells <= |Flat(Flat(planes))|
    ensures Flat(Flat(planes))[(p * lines + i) * cells..(p * lines + i) * cells + cells] == planes[p][i]
  {
    FlatPlanes(planes, lines, cells);
    FlatCell(planes, lines, p, i);
    FlatRow(Flat(planes), cells, p * lines + i);
  }

  /** Each matrix as one long row. */
  ghost function Joined<T>(planes: seq<seq<seq<T>>>): (rows: seq<seq<T>>)
    ensures |rows| == |planes|
    ensures forall p :: 0 <= p < |planes| ==> rows[p] == Flat(planes[p])
  {
    seq(|planes|, p requires 0 <= p < |planes| => Flat(planes[p]))
  }

  /** Laying the rows of every matrix end to end is laying the long rows end to end. */
  lemma {:induction false} FlatJoined<T>(planes: seq<seq<seq<T>>>)
    ensures Flat(Joined(planes)) == Flat(Flat(planes))
  {
    if planes != [] {
      FlatJoined(planes[1..]);
      FlatAppend(planes[0], Flat(planes[1..]));
      assert Joined(planes)[1..] == Joined(planes[1..]);
    }
  }

  lemma JoinedWide<T>(planes: seq<seq<seq<T>>>, lines: nat, cells: nat)
    requires Planes(planes, lines, cells)
    ensures Wide(Joined(planes), lines * cells)
  {
    forall p | 0 <= p < |planes|
      ensures |Joined(planes)[p]| == lines * cells
    {
      assert Matrix(planes[p], lines, cells);
      FlatLength(planes[p], cells);
    }
  }

  /** Runs of unequal lengths laid end to end: run `s` starts where the ones before it end. */
  lemma RunAt<T>(rows: seq<seq<T>>, s: nat)
    requires s < |rows|
    ensures |Flat(rows[..s])| + |rows[s]| <= |Flat(rows)|
    ensures Flat(rows)[|Flat(rows[..s])|..|Flat(rows[..s])| + |rows[s]|] == rows[s]
    ensures Flat(rows[..s + 1]) == Flat(rows[..s]) + rows[s]
  {
    assert rows == rows[..s + 1] + rows[s + 1..] && rows[..s + 1] == rows[..s] + [rows[s]];
    FlatAppend(rows[..s + 1], rows[s + 1..]);
    FlatPush(rows[..s], rows[s]);
  }

  /** Runs as long as each other's lay their boundaries in the same places. */
  lemma {:induction false} SameRuns<S, T>(a: seq<seq<S>>, b: seq<seq<T>>)
    requires |a| == |b| && forall s :: 0 <= s < |a| ==> |a[s]| == |b[s]|
    ensures |Flat(a)| == |Flat(b)|
  {
    if a != [] {
      SameRuns(a[1..], b[1..]);
    }
  }

  lemma {:induction false} FlatOfSingles<T>(rows: seq<seq<T>>)
    requires Wide(rows, 1)
    ensures |Flat(rows)| == |rows|
    ensures forall i :: 0 <= i < |rows| ==> Flat(rows)[i] == rows[i][0]
  {
    if rows != [] {
      FlatOfSingles(rows[1..]);
    }
  }
}
