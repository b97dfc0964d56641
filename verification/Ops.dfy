/** Operators over one row at a time: the projections, the norms and the MLP, none of which reads
  * any row but its own.  What each computes is left open; how wide its answer is, is not. */
module Ops {
  import opened Buffers

  datatype Option<+T> = None | Some(value: T)

  /** `row` cut or padded to `width`. */
  function Fit(row: Row, width: nat): (fitted: Row)
    ensures |fitted| == width
    ensures |row| == width ==> fitted == row
  {
    seq(width, i => if 0 <= i < |row| then row[i] else 0.0)
  }

  datatype Op = Op(width: nat, f: Row -> Row) {
    function Run(row: Row): (out: Row)
      ensures |out| == width
    {
      Fit(f(row), width)
    }

    ghost function Mapped(rows: seq<Row>): (out: seq<Row>)
      ensures |out| == |rows| && Wide(out, width)
      ensures forall i :: 0 <= i < |rows| ==> out[i] == Run(rows[i])
    {
      seq(|rows|, i requires 0 <= i < |rows| => Run(rows[i]))
    }

    /** The operator over every row of every matrix. */
    ghost function MappedPlanes(planes: seq<seq<Row>>, lines: nat, cells: nat): (out: seq<seq<Row>>)
      requires Planes(planes, lines, cells)
      ensures |out| == |planes| && Planes(out, lines, width)
      ensures forall p :: 0 <= p < |planes| ==> out[p] == Mapped(planes[p])
    {
      assert forall p :: 0 <= p < |planes| ==> Matrix(planes[p], lines, cells);
      seq(|planes|, p requires 0 <= p < |planes| => Mapped(planes[p]))
    }

    lemma MappedAppend(a: seq<Row>, b: seq<Row>)
      ensures Mapped(a + b) == Mapped(a) + Mapped(b)
    {
    }

    lemma {:induction false} MappedFlat(planes: seq<seq<Row>>, lines: nat, cells: nat)
      requires Planes(planes, lines, cells)
      ensures Mapped(Flat(planes)) == Flat(MappedPlanes(planes, lines, cells))
    {
      if planes != [] {
        MappedFlat(planes[1..], lines, cells);
        MappedAppend(planes[0], Flat(planes[1..]));
        assert MappedPlanes(planes, lines, cells)[1..] == MappedPlanes(planes[1..], lines, cells);
      }
    }

    /** `[rows, inWidth]` in and `[rows, width]` out, a row at a time. */
    method Over(x: seq<real>, inWidth: nat, ghost rows: seq<Row>) returns (out: seq<real>)
      requires inWidth > 0 && Wide(rows, inWidth) && x == Flat(rows)
      ensures out == Flat(Mapped(rows))
    {
      RowsCounted(rows, inWidth);
      var count := |x| / inWidth;
      out := [];
      for i := 0 to count
        invariant out == Flat(Mapped(rows)[..i])
      {
        FlatRow(rows, inWidth, i);
        FlatPush(Mapped(rows)[..i], Mapped(rows)[i]);
        assert Mapped(rows)[..i + 1] == Mapped(rows)[..i] + [Mapped(rows)[i]];
        out := out + Run(x[i * inWidth..i * inWidth + inWidth]);
      }
      assert Mapped(rows)[..count] == Mapped(rows);
    }
  }
}
