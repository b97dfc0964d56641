/** One attention layer: the answers its rows have as a sequence, and the cached call that gives them a few
  * rows at a time. */
module Attention {
  import opened Buffers
  import opened Ops
  import opened Heads
  import opened Mask
  import opened Attend
  import Sconv

  /** One layer's shapes and tensors.  `tau` is log scaling's factor at a position, on a layer that
    * has it. */
  datatype Layer = Layer(
    hidden: nat, sdpa: Sdpa, mask: BandedMask, inputNorm: Op,
    qProj: Op, kProj: Op, vProj: Op, rProj: Op, oProj: Op, qNorm: Op, kNorm: Op,
    kSconv: Sconv.ShortConv, vSconv: Sconv.ShortConv, tau: Option<nat -> real>)
  {
    function QWidth(): nat { sdpa.heads * sdpa.headDim }
    function KvWidth(): nat { sdpa.kvHeads * sdpa.headDim }
    function RelWidth(): nat { sdpa.heads * mask.dRel }

    ghost predicate Valid() {
      && hidden > 0 && sdpa.Valid() && mask.Valid()
      && inputNorm.width == hidden && oProj.width == hidden
      && qProj.width == QWidth() && kProj.width == KvWidth() && vProj.width == KvWidth() && rProj.width == RelWidth()
      && qNorm.width == sdpa.headDim && kNorm.width == sdpa.headDim
      && kSconv.Valid() && kSconv.channels == KvWidth()
      && vSconv.Valid() && vSconv.channels == KvWidth()
      && kSconv.kernelSize == vSconv.kernelSize
    }

    /** What the key's convolution reads. */
    ghost function KeyIn(xs: seq<Row>): (rows: seq<Row>)
      requires Valid()
      ensures |rows| == |xs| && Wide(rows, KvWidth())
    {
      kProj.Mapped(inputNorm.Mapped(xs))
    }

    ghost function ValueIn(xs: seq<Row>): (rows: seq<Row>)
      requires Valid()
      ensures |rows| == |xs| && Wide(rows, KvWidth())
    {
      vProj.Mapped(inputNorm.Mapped(xs))
    }

    /** The keys as the cache holds them: convolved, then normed head by head. */
    ghost function Keys(xs: seq<Row>): (planes: seq<seq<Row>>)
      requires Valid()
      ensures |planes| == |xs| && Planes(planes, sdpa.kvHeads, sdpa.headDim)
    {
      kNorm.MappedPlanes(InHeads(kSconv.Answers(KeyIn(xs)), sdpa.kvHeads, sdpa.headDim), sdpa.kvHeads, sdpa.headDim)
    }

    /** The values as the cache holds them: convolved and never normed. */
    ghost function Values(xs: seq<Row>): (planes: seq<seq<Row>>)
      requires Valid()
      ensures |planes| == |xs| && Planes(planes, sdpa.kvHeads, sdpa.headDim)
    {
      InHeads(vSconv.Answers(ValueIn(xs)), sdpa.kvHeads, sdpa.headDim)
    }

    ghost function Scaled(row: Row, position: nat): (out: Row)
      ensures |out| == |row|
    {
      match tau
      case None => row
      case Some(at) => Times(row, at(position))
    }

    /** Every head's query at one position. */
    ghost function Query(x: Row, position: nat): (heads: seq<Row>)
      requires Valid()
      ensures Matrix(heads, sdpa.heads, sdpa.headDim)
    {
      var projected := qNorm.Mapped(RowInHeads(qProj.Run(inputNorm.Run(x)), sdpa.heads, sdpa.headDim));
      seq(sdpa.heads, h requires 0 <= h < sdpa.heads => Scaled(projected[h], position))
    }

    ghost function Rel(x: Row): (heads: seq<Row>)
      requires Valid()
      ensures Matrix(heads, sdpa.heads, mask.dRel)
    {
      RowInHeads(rProj.Run(inputNorm.Run(x)), sdpa.heads, mask.dRel)
    }

    /** One query's biases over the first `keys` keys, with `tau` through those that are biases. */
    ghost function Biases(rel: Row, position: nat, keys: nat): (line: seq<Bias>)
      requires Valid() && |rel| == mask.dRel
      ensures |line| == keys
      ensures forall j :: 0 <= j < keys ==>
                line[j] == (match tau case None => mask.Entry(rel, position - j)
                                      case Some(at) => mask.Entry(rel, position - j).Scaled(at(position)))
    {
      seq(keys, j requires 0 <= j < keys =>
        match tau
        case None => mask.Entry(rel, position - j)
        case Some(at) => mask.Entry(rel, position - j).Scaled(at(position)))
    }

    /** What head `h` of the query at `t` is answered: a function of the rows up to its own, and of
      * no cache. */
    ghost function HeadAnswer(xs: seq<Row>, t: nat, h: nat): (out: Row)
      requires Valid() && t < |xs| && h < sdpa.heads
      ensures |out| == sdpa.headDim
    {
      var kv := sdpa.KvHead(h);
      sdpa.Answer(Query(xs[t], t)[h], OneHead(Keys(xs)[..t + 1], kv, sdpa.kvHeads, sdpa.headDim),
                  OneHead(Values(xs)[..t + 1], kv, sdpa.kvHeads, sdpa.headDim), Biases(Rel(xs[t])[h], t, t + 1))
    }

    ghost function HeadAnswers(xs: seq<Row>, t: nat): (heads: seq<Row>)
      requires Valid() && t < |xs|
      ensures Matrix(heads, sdpa.heads, sdpa.headDim)
      ensures forall h :: 0 <= h < sdpa.heads ==> heads[h] == HeadAnswer(xs, t, h)
    {
      seq(sdpa.heads, h requires 0 <= h < sdpa.heads => HeadAnswer(xs, t, h))
    }

    ghost function AnswerRows(xs: seq<Row>): (rows: seq<Row>)
      requires Valid()
      ensures |rows| == |xs| && Wide(rows, hidden)
      ensures forall t :: 0 <= t < |xs| ==> rows[t] == oProj.Run(Flat(HeadAnswers(xs, t)))
    {
      seq(|xs|, t requires 0 <= t < |xs| => oProj.Run(Flat(HeadAnswers(xs, t))))
    }

    /** What the layer answers for every position of a sequence: `AnswerRows`, kept behind a key. */
    ghost function Answers(xs: seq<Row>): (rows: seq<Row>)
      requires Valid()
      ensures |rows| == |xs| && Wide(rows, hidden)
    {
      assert Answered(xs, AnswerRows(xs));
      var rows :| Answered(xs, rows);
      rows
    }

    ghost predicate Answered(xs: seq<Row>, rows: seq<Row>)
      requires Valid()
    {
      && |rows| == |xs| && Wide(rows, hidden)
      && forall key {:trigger SpanKey(key)} :: SpanKey(key) ==> rows == AnswerRows(xs)
    }
  }

  function Times(row: Row, factor: real): (out: Row)
    ensures |out| == |row|
  {
    seq(|row|, i requires 0 <= i < |row| => row[i] * factor)
  }

  /** A row of `heads * width` values as its heads. */
  ghost function RowInHeads(row: Row, heads: nat, width: nat): (parts: seq<Row>)
    requires width > 0 && |row| == heads * width
    ensures Matrix(parts, heads, width) && Flat(parts) == row
  {
    FlatOfChunks(row, width, heads);
    Chunks(row, width)
  }

  ghost function InHeads(rows: seq<Row>, heads: nat, width: nat): (planes: seq<seq<Row>>)
    requires width > 0 && Wide(rows, heads * width)
    ensures |planes| == |rows| && Planes(planes, heads, width)
    ensures forall t :: 0 <= t < |rows| ==> planes[t] == RowInHeads(rows[t], heads, width)
    ensures Flat(Flat(planes)) == Flat(rows)
  {
    var planes := seq(|rows|, t requires 0 <= t < |rows| => RowInHeads(rows[t], heads, width));
    FlatJoined(planes);
    assert Joined(planes) == rows;
    planes
  }

  /** One head of every row. */
  ghost function OneHead(planes: seq<seq<Row>>, head: nat, heads: nat, width: nat): (rows: seq<Row>)
    requires Planes(planes, heads, width) && head < heads
    ensures |rows| == |planes| && Wide(rows, width)
    ensures forall t :: 0 <= t < |planes| ==> Matrix(planes[t], heads, width) && rows[t] == planes[t][head]
  {
    assert forall t :: 0 <= t < |planes| ==> Matrix(planes[t], heads, width);
    seq(|planes|, t requires 0 <= t < |planes| => planes[t][head])
  }

  lemma KeyInAppend(a: Layer, xs: seq<Row>, ys: seq<Row>)
    requires a.Valid()
    ensures a.KeyIn(xs + ys) == a.KeyIn(xs) + a.KeyIn(ys)
    ensures a.ValueIn(xs + ys) == a.ValueIn(xs) + a.ValueIn(ys)
  {
    a.inputNorm.MappedAppend(xs, ys);
    a.kProj.MappedAppend(a.inputNorm.Mapped(xs), a.inputNorm.Mapped(ys));
    a.vProj.MappedAppend(a.inputNorm.Mapped(xs), a.inputNorm.Mapped(ys));
  }

  /** A sequence's keys and values are settled by the rows up to their own. */
  lemma KeysCausal(a: Layer, xs: seq<Row>, ys: seq<Row>)
    requires a.Valid()
    ensures a.Keys(xs + ys)[..|xs|] == a.Keys(xs)
    ensures a.Values(xs + ys)[..|xs|] == a.Values(xs)
  {
    KeyInAppend(a, xs, ys);
    Sconv.AnswersCausal(a.kSconv, a.KeyIn(xs), a.KeyIn(ys));
    Sconv.AnswersCausal(a.vSconv, a.ValueIn(xs), a.ValueIn(ys));
    forall t | 0 <= t < |xs|
      ensures a.Keys(xs + ys)[t] == a.Keys(xs)[t] && a.Values(xs + ys)[t] == a.Values(xs)[t]
    {
      var keys, shorter := a.kSconv.Answers(a.KeyIn(xs + ys)), a.kSconv.Answers(a.KeyIn(xs));
      assert keys[..|xs|][t] == keys[t] == shorter[t];
      var values, fewer := a.vSconv.Answers(a.ValueIn(xs + ys)), a.vSconv.Answers(a.ValueIn(xs));
      assert values[..|xs|][t] == values[t] == fewer[t];
    }
  }

  /** So is every answer: nothing fed later reaches back. */
  lemma AnswersCausal(a: Layer, xs: seq<Row>, ys: seq<Row>)
    requires a.Valid()
    ensures a.Answers(xs + ys)[..|xs|] == a.Answers(xs)
  {
    assert SpanKey(0);
    KeysCausal(a, xs, ys);
    forall t | 0 <= t < |xs|
      ensures a.HeadAnswers(xs + ys, t) == a.HeadAnswers(xs, t)
    {
      assert a.Keys(xs + ys)[..t + 1] == a.Keys(xs)[..t + 1];
      assert a.Values(xs + ys)[..t + 1] == a.Values(xs)[..t + 1];
      forall h | 0 <= h < a.sdpa.heads
        ensures a.HeadAnswer(xs + ys, t, h) == a.HeadAnswer(xs, t, h)
      {
      }
    }
  }

  /** A mark of an attention cache: its key count, and the rows of both windows at that count. */
  datatype AttentionMark = AttentionMark(seen: nat, kSconv: Sconv.ConvMark, vSconv: Sconv.ConvMark) {
    ghost predicate Of(a: Layer, xs: seq<Row>) {
      && a.Valid() && seen == |xs|
      && Sconv.Windowed(kSconv.held, kSconv.timesteps, a.KeyIn(xs))
      && Sconv.Windowed(vSconv.held, vSconv.timesteps, a.ValueIn(xs))
    }

    /** Both windows stand at `level`, whatever their widths. */
    ghost predicate At(level: Level) {
      Standing(kSconv.held, level) && Standing(vSconv.held, level)
    }
  }

  /** The part of a window's bookkeeping that all of a sequence's windows share. */
  datatype Level = Level(window: nat, slack: nat, kept: nat) {
    ghost predicate Valid() { window <= kept <= window + slack }

    function Rewindable(): nat
      requires Valid()
    {
      kept - window
    }

    function Advanced(rows: nat): Level {
      this.(kept := if kept + rows <= window + slack then kept + rows else window + slack)
    }
  }

  ghost predicate Standing(held: Sconv.Held, level: Level) {
    held.window == level.window && held.slack == level.slack && held.kept == level.kept
  }

  /** The keys and values of `xs`, as a cache lays them out. */
  ghost predicate Laid(a: Layer, xs: seq<Row>, keys: seq<real>, values: seq<real>)
    requires a.Valid()
  {
    forall key {:trigger LaidKey(key)} :: LaidKey(key) ==>
      keys == Flat(Flat(a.Keys(xs))) && values == Flat(Flat(a.Values(xs)))
  }

  /** A key to `Laid`, as `Sconv.WindowKey` is to a window. */
  ghost predicate LaidKey(key: nat) { true }

  /** A key to `AttentionCache.Holds`, as `Sconv.WindowKey` is to a window. */
  ghost predicate SpanKey(key: nat) { true }

  /** What is held of a sequence `xs`: the keys and values of all of it, laid flat, and the last rows of what
    * its two convolutions read. */
  class AttentionCache {
    const kSconv: Sconv.ConvState
    const vSconv: Sconv.ConvState
    var keys: seq<real>
    var values: seq<real>
    var cached: nat

    ghost function Repr(): set<object> { {this, kSconv, vSconv} }

    /** The cache of a sequence that has been fed `xs`, its windows at `level`. */
    ghost predicate Holds(a: Layer, xs: seq<Row>, level: Level)
      reads Repr()
    {
      && a.Valid() && level.Valid() && level.window == a.kSconv.kernelSize - 1 && cached == |xs|
      && forall key {:trigger SpanKey(key)} :: SpanKey(key) ==> Span(a, xs, level)
    }

    ghost predicate Span(a: Layer, xs: seq<Row>, level: Level)
      requires a.Valid() && level.Valid()
      reads Repr()
    {
      && kSconv != vSconv
      && kSconv.Holds(a.KeyIn(xs)) && kSconv.held.channels == a.KvWidth() && Standing(kSconv.held, level)
      && vSconv.Holds(a.ValueIn(xs)) && vSconv.held.channels == a.KvWidth() && Standing(vSconv.held, level)
      && Laid(a, xs, keys, values)
    }

    /** The state a sequence starts from, able to give back `slack` timesteps. */
    constructor (a: Layer, slack: nat)
      requires a.Valid()
      ensures fresh(Repr())
      ensures Holds(a, [], Level(a.kSconv.kernelSize - 1, slack, a.kSconv.kernelSize - 1 + slack))
    {
      kSconv := new Sconv.ConvState(a.KvWidth(), a.kSconv.kernelSize, slack);
      vSconv := new Sconv.ConvState(a.KvWidth(), a.kSconv.kernelSize, slack);
      keys, values, cached := [], [], 0;
      new;
      assert SpanKey(0);
      assert a.KeyIn([]) == [] && a.ValueIn([]) == [] && a.Keys([]) == [] && a.Values([]) == [];
    }

    /** The first `left` keys and values.  Their stride is the vector's length over the count, so an empty
      * vector, for a span held elsewhere, is cut to an empty one. */
    method Cut(left: nat, ghost keyStride: nat, ghost valueStride: nat)
      requires left <= cached
      requires |keys| == cached * keyStride && |values| == cached * valueStride
      modifies this
      ensures 0 <= left * keyStride <= old(|keys|) && keys == old(keys)[..left * keyStride]
      ensures 0 <= left * valueStride <= old(|values|) && values == old(values)[..left * valueStride]
      ensures cached == left
    {
      var each := if cached > 0 then cached else 1;
      StrideIsExact(|keys|, cached, keyStride, left);
      StrideIsExact(|values|, cached, valueStride, left);
      keys := keys[..left * (|keys| / each)];
      values := values[..left * (|values| / each)];
      cached := left;
    }

    method CutTo(left: nat, ghost a: Layer, ghost xs: seq<Row>)
      requires a.Valid() && left <= cached == |xs|
      requires Laid(a, xs, keys, values)
      modifies this
      ensures cached == left && Laid(a, xs[..left], keys, values)
      ensures a.KeyIn(xs)[..left] == a.KeyIn(xs[..left]) && a.ValueIn(xs)[..left] == a.ValueIn(xs[..left])
    {
      assert LaidKey(0);
      CacheCut(a, xs, left);
      Cut(left, a.KvWidth(), a.KvWidth());
    }

    /** Afterwards this holds the sequence without its last `rows` rows: fewer keys and values, and both
      * windows that much earlier. */
    method Rewind(rows: nat, ghost a: Layer, ghost xs: seq<Row>, ghost level: Level)
      requires Holds(a, xs, level) && rows <= cached && rows <= level.Rewindable()
      modifies Repr()
      ensures Holds(a, xs[..|xs| - rows], level.(kept := level.kept - rows))
    {
      assert SpanKey(0);
      var left := cached - rows;
      CutTo(left, a, xs);
      RewindWindows(rows, left, a.KeyIn(xs), a.ValueIn(xs));
      assert xs[..left] == xs[..|xs| - rows];
    }

    /** The two windows back by `rows` timesteps, and nothing else moved. */
    method RewindWindows(rows: nat, ghost left: nat, ghost keyIn: seq<Row>, ghost valueIn: seq<Row>)
      requires kSconv != vSconv && kSconv.Holds(keyIn) && vSconv.Holds(valueIn) && |keyIn| == |valueIn| == left + rows
      requires rows <= kSconv.held.Rewindable() && rows <= vSconv.held.Rewindable()
      modifies kSconv, vSconv
      ensures kSconv.Holds(keyIn[..left]) && kSconv.held == old(kSconv.held).(kept := old(kSconv.held).kept - rows)
      ensures vSconv.Holds(valueIn[..left]) && vSconv.held == old(vSconv.held).(kept := old(vSconv.held).kept - rows)
    {
      kSconv.Rewind(rows, keyIn);
      vSconv.Rewind(rows, valueIn);
    }

    method Mark(ghost a: Layer, ghost xs: seq<Row>, ghost level: Level) returns (mark: AttentionMark)
      requires Holds(a, xs, level)
      ensures mark.Of(a, xs) && mark.At(level)
      ensures mark.kSconv.held.channels == mark.vSconv.held.channels == a.KvWidth()
    {
      assert SpanKey(0);
      var k := kSconv.Mark(a.KeyIn(xs));
      var v := vSconv.Mark(a.ValueIn(xs));
      mark := AttentionMark(cached, k, v);
    }

    /** Whatever has been fed past the mark, this holds the marked sequence again, keys and both windows. */
    method Resume(mark: AttentionMark, ghost a: Layer, ghost xs: seq<Row>, ghost later: seq<Row>,
                  ghost level: Level, ghost marked: Level)
      requires Holds(a, xs + later, level) && mark.Of(a, xs) && mark.At(marked)
      requires mark.kSconv.held.channels == mark.vSconv.held.channels == a.KvWidth()
      requires marked.window == level.window && marked.slack == level.slack
      modifies Repr()
      ensures Holds(a, xs, marked)
    {
      assert SpanKey(0);
      CutTo(mark.seen, a, xs + later);
      assert (xs + later)[..|xs|] == xs;
      kSconv.Resume(mark.kSconv, a.KeyIn(xs));
      vSconv.Resume(mark.vSconv, a.ValueIn(xs));
    }
  }

  /** The first keys and values of a sequence are those of its first rows, and so are what its two
    * convolutions read. */
  lemma CacheCut(a: Layer, xs: seq<Row>, left: nat)
    requires a.Valid() && left <= |xs|
    ensures a.KeyIn(xs)[..left] == a.KeyIn(xs[..left]) && a.ValueIn(xs)[..left] == a.ValueIn(xs[..left])
    ensures |Flat(Flat(a.Keys(xs)))| == |Flat(Flat(a.Values(xs)))| == |xs| * a.KvWidth()
    ensures 0 <= left * a.KvWidth() <= |xs| * a.KvWidth()
    ensures Flat(Flat(a.Keys(xs)))[..left * a.KvWidth()] == Flat(Flat(a.Keys(xs[..left])))
    ensures Flat(Flat(a.Values(xs)))[..left * a.KvWidth()] == Flat(Flat(a.Values(xs[..left])))
  {
    assert xs == xs[..left] + xs[left..];
    KeyInAppend(a, xs[..left], xs[left..]);
    KeysCausal(a, xs[..left], xs[left..]);
    PlanesCut(a.Keys(xs), a.sdpa.kvHeads, a.sdpa.headDim, left);
    PlanesCut(a.Values(xs), a.sdpa.kvHeads, a.sdpa.headDim, left);
  }

  lemma PlanesCut(planes: seq<seq<Row>>, lines: nat, cells: nat, left: nat)
    requires Planes(planes, lines, cells) && left <= |planes|
    ensures |Flat(Flat(planes))| == |planes| * (lines * cells)
    ensures 0 <= left * (lines * cells) <= |planes| * (lines * cells)
    ensures Flat(Flat(planes))[..left * (lines * cells)] == Flat(Flat(planes[..left]))
  {
    var front, back := planes[..left], planes[left..];
    assert planes == front + back;
    FlatAppend(front, back);
    FlatAppend(Flat(front), Flat(back));
    PlanesLength(planes, lines, cells);
    PlanesLength(front, lines, cells);
    Halves(Flat(Flat(front)), Flat(Flat(back)), |front| * (lines * cells));
  }

  lemma PlanesLength(planes: seq<seq<Row>>, lines: nat, cells: nat)
    requires Planes(planes, lines, cells)
    ensures |Flat(Flat(planes))| == |planes| * (lines * cells)
  {
    FlatJoined(planes);
    JoinedWide(planes, lines, cells);
    FlatLength(Joined(planes), lines * cells);
  }

  lemma StrideIsExact(length: nat, cached: nat, stride: nat, left: nat)
    requires length == cached * stride && left <= cached
    ensures left * (length / (if cached > 0 then cached else 1)) == left * stride <= length
  {
    if cached > 0 {
      DivisionIsUnique(length, cached, stride, 0);
      assert left * stride <= cached * stride;
    }
  }

  /** Every head's queries of a call whose first sits at `offset`. */
  ghost function Queries(a: Layer, ys: seq<Row>, offset: nat): (heads: seq<seq<Row>>)
    requires a.Valid()
    ensures |heads| == a.sdpa.heads && Planes(heads, |ys|, a.sdpa.headDim)
    ensures forall h, i :: 0 <= h < a.sdpa.heads && 0 <= i < |ys| ==> heads[h][i] == a.Query(ys[i], offset + i)[h]
  {
    Transposed(QueryRows(a, ys, offset), a.sdpa.heads, a.sdpa.headDim)
  }

  ghost function QueryRows(a: Layer, ys: seq<Row>, offset: nat): (rows: seq<seq<Row>>)
    requires a.Valid()
    ensures |rows| == |ys| && Planes(rows, a.sdpa.heads, a.sdpa.headDim)
    ensures forall i :: 0 <= i < |ys| ==> rows[i] == a.Query(ys[i], offset + i)
  {
    seq(|ys|, i requires 0 <= i < |ys| => a.Query(ys[i], offset + i))
  }

  /** One factor a query, or none on a layer without log scaling. */
  method Taus(a: Layer, offset: nat, queries: nat) returns (taus: Option<seq<real>>)
    ensures TausOf(a, taus, queries, offset)
  {
    match a.tau
    case None => taus := None;
    case Some(at) => taus := Some(seq(queries, i requires 0 <= i < queries => at(offset + i)));
  }

  /** Projected queries before log scaling, heads first. */
  ghost function NormedQueries(a: Layer, ys: seq<Row>): (heads: seq<seq<Row>>)
    requires a.Valid()
    ensures |heads| == a.sdpa.heads && Planes(heads, |ys|, a.sdpa.headDim)
  {
    Transposed(a.qNorm.MappedPlanes(InHeads(a.qProj.Mapped(a.inputNorm.Mapped(ys)), a.sdpa.heads, a.sdpa.headDim),
                                    a.sdpa.heads, a.sdpa.headDim), a.sdpa.heads, a.sdpa.headDim)
  }

  lemma ScaledQueries(a: Layer, ys: seq<Row>, offset: nat, h: nat, i: nat)
    requires a.Valid() && h < a.sdpa.heads && i < |ys|
    ensures Matrix(NormedQueries(a, ys)[h], |ys|, a.sdpa.headDim)
    ensures Matrix(Queries(a, ys, offset)[h], |ys|, a.sdpa.headDim)
    ensures a.Scaled(NormedQueries(a, ys)[h][i], offset + i) == Queries(a, ys, offset)[h][i]
  {
    var planes := InHeads(a.qProj.Mapped(a.inputNorm.Mapped(ys)), a.sdpa.heads, a.sdpa.headDim);
    var normed := a.qNorm.MappedPlanes(planes, a.sdpa.heads, a.sdpa.headDim);
    assert Matrix(normed[i], a.sdpa.heads, a.sdpa.headDim);
    assert normed[i] == a.qNorm.Mapped(RowInHeads(a.qProj.Run(a.inputNorm.Run(ys[i])), a.sdpa.heads, a.sdpa.headDim));
  }

  /** `taus` are the factors of a call of `queries` queries at `offset`. */
  ghost predicate TausOf(a: Layer, taus: Option<seq<real>>, queries: nat, offset: nat) {
    && taus.Some? == a.tau.Some?
    && (taus.Some? ==> |taus.value| == queries)
    && (taus.Some? ==> forall i :: 0 <= i < queries ==> taus.value[i] == a.tau.value(offset + i))
  }

  lemma Unscaled(a: Layer, ys: seq<Row>, offset: nat)
    requires a.Valid() && a.tau.None?
    ensures NormedQueries(a, ys) == Queries(a, ys, offset)
  {
    var normed, scaled := NormedQueries(a, ys), Queries(a, ys, offset);
    forall h | 0 <= h < a.sdpa.heads
      ensures normed[h] == scaled[h]
    {
      assert Matrix(normed[h], |ys|, a.sdpa.headDim) && Matrix(scaled[h], |ys|, a.sdpa.headDim);
      forall i | 0 <= i < |ys|
        ensures normed[h][i] == scaled[h][i]
      {
        ScaledQueries(a, ys, offset, h, i);
      }
    }
  }

  function ScaleAt(factors: seq<real>): (nat, Row) -> Row {
    (i: nat, row: Row) => if i < |factors| then Times(row, factors[i]) else row
  }

  lemma ScaledCycle(a: Layer, factors: seq<real>, ys: seq<Row>, offset: nat)
    requires a.Valid() && TausOf(a, Some(factors), |ys|, offset)
    ensures Cycles(NormedQueries(a, ys), Queries(a, ys, offset), |ys|, a.sdpa.headDim, ScaleAt(factors))
  {
    var normed, scaled := NormedQueries(a, ys), Queries(a, ys, offset);
    forall h, i | 0 <= h < |normed| && 0 <= i < |ys|
      ensures CycleAt(normed[h], scaled[h], i, ScaleAt(factors))
    {
      ScaledQueries(a, ys, offset, h, i);
    }
    assert forall h :: 0 <= h < |scaled| ==> Matrix(scaled[h], |ys|, a.sdpa.headDim);
  }

  /** The queries scaled where they are formed. */
  method ScaleQueries(a: Layer, q: seq<real>, taus: Option<seq<real>>, queries: nat, ghost ys: seq<Row>,
                      ghost offset: nat)
    returns (out: seq<real>)
    requires a.Valid() && |ys| == queries && q == Flat(Flat(NormedQueries(a, ys)))
    requires TausOf(a, taus, queries, offset)
    ensures out == Flat(Flat(Queries(a, ys, offset)))
  {
    match taus
    case None =>
      Unscaled(a, ys, offset);
      out := q;
    case Some(factors) =>
      ScaledCycle(a, factors, ys, offset);
      out := Cycled(q, a.sdpa.heads, queries, a.sdpa.headDim, ScaleAt(factors), NormedQueries(a, ys),
                    Queries(a, ys, offset));
  }

  /** The mask of a call as attention adds it: every head's and query's biases. */
  ghost function MaskHeads(a: Layer, ys: seq<Row>, offset: nat, keys: nat): (heads: seq<seq<seq<Bias>>>)
    requires a.Valid()
    ensures |heads| == a.sdpa.heads && Planes(heads, |ys|, keys)
    ensures forall h, i :: 0 <= h < a.sdpa.heads && 0 <= i < |ys| ==>
              heads[h][i] == a.Biases(a.Rel(ys[i])[h], offset + i, keys)
  {
    seq(a.sdpa.heads, h requires 0 <= h < a.sdpa.heads =>
      seq(|ys|, i requires 0 <= i < |ys| => a.Biases(a.Rel(ys[i])[h], offset + i, keys)))
  }

  ghost function Rels(a: Layer, ys: seq<Row>): (planes: seq<seq<Row>>)
    requires a.Valid()
    ensures |planes| == |ys| && Planes(planes, a.sdpa.heads, a.mask.dRel)
    ensures forall i :: 0 <= i < |ys| ==> planes[i] == a.Rel(ys[i])
  {
    seq(|ys|, i requires 0 <= i < |ys| => a.Rel(ys[i]))
  }

  /** What `rProj` produces for a call is its rows' features head by head. */
  lemma RelsAreProjected(a: Layer, ys: seq<Row>)
    requires a.Valid()
    ensures Flat(a.rProj.Mapped(a.inputNorm.Mapped(ys))) == Flat(Flat(Rels(a, ys)))
  {
    FlatJoined(Rels(a, ys));
    assert Joined(Rels(a, ys)) == a.rProj.Mapped(a.inputNorm.Mapped(ys));
  }

  /** The banded mask before log scaling, heads first. */
  ghost function Band(a: Layer, ys: seq<Row>, offset: nat, keys: nat): (heads: seq<seq<seq<Bias>>>)
    requires a.Valid()
    ensures |heads| == a.sdpa.heads && Planes(heads, |ys|, keys)
    ensures forall h, i :: 0 <= h < a.sdpa.heads && 0 <= i < |ys| ==>
              heads[h][i] == a.mask.Line(a.Rel(ys[i])[h], i + offset, keys)
  {
    seq(a.sdpa.heads, h requires 0 <= h < a.sdpa.heads =>
      seq(|ys|, i requires 0 <= i < |ys| => a.mask.Line(a.Rel(ys[i])[h], i + offset, keys)))
  }

  lemma OneBlock<T>(block: seq<T>)
    ensures Flat([block]) == block
  {
    FlatPush([], block);
    assert [] + [block] == [block];
  }

  /** It is what the mask forms for a batch of one. */
  lemma BandIsWhole(a: Layer, ys: seq<Row>, offset: nat, keys: nat)
    requires a.Valid()
    ensures Shaped([Rels(a, ys)], |ys|, a.sdpa.heads, a.mask.dRel) && Flat([Rels(a, ys)]) == Rels(a, ys)
    ensures Whole(a.mask, [Rels(a, ys)], a.sdpa.heads, |ys|, offset, keys) == Flat(Flat(Band(a, ys, offset, keys)))
  {
    OneBlock(Rels(a, ys));
    var cube := Cube(a.mask, [Rels(a, ys)], a.sdpa.heads, |ys|, offset, keys);
    BandIsCube(a, ys, offset, keys, cube[0]);
    assert cube == [cube[0]];
    OneBlock(cube[0]);
  }

  lemma BandIsCube(a: Layer, ys: seq<Row>, offset: nat, keys: nat, heads: seq<seq<seq<Bias>>>)
    requires a.Valid() && |heads| == a.sdpa.heads
    requires forall h :: 0 <= h < a.sdpa.heads ==>
               && (forall i :: 0 <= i < |ys| ==> Matrix(Rels(a, ys)[i], a.sdpa.heads, a.mask.dRel))
               && heads[h] == Plane(a.mask, Rels(a, ys), h, offset, keys)
    ensures heads == Band(a, ys, offset, keys)
  {
    var band := Band(a, ys, offset, keys);
    forall h | 0 <= h < a.sdpa.heads
      ensures heads[h] == band[h]
    {
      assert Matrix(band[h], |ys|, keys);
    }
  }

  lemma ScaledLine(a: Layer, ys: seq<Row>, offset: nat, keys: nat, h: nat, i: nat)
    requires a.Valid() && h < a.sdpa.heads && i < |ys|
    ensures Matrix(Band(a, ys, offset, keys)[h], |ys|, keys) && Matrix(MaskHeads(a, ys, offset, keys)[h], |ys|, keys)
    ensures MaskHeads(a, ys, offset, keys)[h][i]
         == match a.tau case None => Band(a, ys, offset, keys)[h][i]
                        case Some(at) => TimesUnmasked(Band(a, ys, offset, keys)[h][i], at(offset + i))
  {
    var band, heads := Band(a, ys, offset, keys), MaskHeads(a, ys, offset, keys);
    assert Matrix(band[h], |ys|, keys) && Matrix(heads[h], |ys|, keys);
    var line: seq<Bias> := band[h][i];
    var scaled: seq<Bias> := heads[h][i];
    assert |line| == keys && |scaled| == keys;
    forall j | 0 <= j < keys
      ensures a.tau.None? ==> scaled[j] == line[j]
      ensures a.tau.Some? ==> scaled[j] == line[j].Scaled(a.tau.value(offset + i))
    {
    }
  }

  /** A row of biases scaled, and what the mask ruled out left alone. */
  function TimesUnmasked(line: seq<Bias>, tau: real): (out: seq<Bias>)
    ensures |out| == |line|
  {
    seq(|line|, j requires 0 <= j < |line| => line[j].Scaled(tau))
  }

  function ScaleBiasAt(factors: seq<real>): (nat, seq<Bias>) -> seq<Bias> {
    (i: nat, line: seq<Bias>) => if i < |factors| then TimesUnmasked(line, factors[i]) else line
  }

  lemma ScaledMaskCycle(a: Layer, factors: seq<real>, ys: seq<Row>, offset: nat, keys: nat)
    requires a.Valid() && TausOf(a, Some(factors), |ys|, offset)
    ensures Cycles(Band(a, ys, offset, keys), MaskHeads(a, ys, offset, keys), |ys|, keys, ScaleBiasAt(factors))
  {
    var band, heads := Band(a, ys, offset, keys), MaskHeads(a, ys, offset, keys);
    forall h, i | 0 <= h < |band| && 0 <= i < |ys|
      ensures CycleAt(band[h], heads[h], i, ScaleBiasAt(factors))
    {
      ScaledLine(a, ys, offset, keys, h, i);
    }
    assert forall h :: 0 <= h < |heads| ==> Matrix(heads[h], |ys|, keys);
  }

  lemma UnscaledMask(a: Layer, ys: seq<Row>, offset: nat, keys: nat)
    requires a.Valid() && a.tau.None?
    ensures Band(a, ys, offset, keys) == MaskHeads(a, ys, offset, keys)
  {
    var band, heads := Band(a, ys, offset, keys), MaskHeads(a, ys, offset, keys);
    forall h | 0 <= h < a.sdpa.heads
      ensures band[h] == heads[h]
    {
      assert Matrix(band[h], |ys|, keys) && Matrix(heads[h], |ys|, keys);
      forall i | 0 <= i < |ys|
        ensures band[h][i] == heads[h][i]
      {
        ScaledLine(a, ys, offset, keys, h, i);
      }
    }
  }

  /** The mask formed for the call, and its biases scaled by each query's own factor. */
  method FormMask(a: Layer, rel: seq<real>, taus: Option<seq<real>>, offset: nat, queries: nat, keys: nat,
                  ghost ys: seq<Row>)
    returns (out: seq<Bias>)
    requires a.Valid() && |ys| == queries && rel == Flat(Flat(Rels(a, ys)))
    requires TausOf(a, taus, queries, offset)
    ensures out == Flat(Flat(MaskHeads(a, ys, offset, keys)))
  {
    BandIsWhole(a, ys, offset, keys);
    var formed := Mask.Forward(a.mask, rel, 1, a.sdpa.heads, offset, keys, [Rels(a, ys)], queries);
    var band := formed[..];
    match taus
    case None =>
      UnscaledMask(a, ys, offset, keys);
      out := band;
    case Some(factors) =>
      ScaledMaskCycle(a, factors, ys, offset, keys);
      out := Cycled(band, a.sdpa.heads, queries, keys, ScaleBiasAt(factors),
                    Band(a, ys, offset, keys), MaskHeads(a, ys, offset, keys));
  }

  lemma OwnKeyIsSeen(a: Layer, rel: Row, t: nat, keys: nat)
    requires a.Valid() && |rel| == a.mask.dRel && t < keys
    ensures a.Biases(rel, t, t + 1)[t] != Masked
    ensures OnlyMaskedBehind(a.Biases(rel, t, t + 1), a.Biases(rel, t, keys))
  {
  }

  /** Over the whole cached span, a query is answered what its own rows answer it: the keys of
    * later rows are all ruled out, and its own never is. */
  lemma SpanAnswer(a: Layer, all: seq<Row>, t: nat, h: nat)
    requires a.Valid() && t < |all| && h < a.sdpa.heads
    ensures a.sdpa.Answer(a.Query(all[t], t)[h],
                          OneHead(a.Keys(all), a.sdpa.KvHead(h), a.sdpa.kvHeads, a.sdpa.headDim),
                          OneHead(a.Values(all), a.sdpa.KvHead(h), a.sdpa.kvHeads, a.sdpa.headDim),
                          a.Biases(a.Rel(all[t])[h], t, |all|))
         == a.HeadAnswer(all, t, h)
  {
    var kv, d, rel := a.sdpa.KvHead(h), a.sdpa.headDim, a.Rel(all[t])[h];
    var keys, values := OneHead(a.Keys(all), kv, a.sdpa.kvHeads, d), OneHead(a.Values(all), kv, a.sdpa.kvHeads, d);
    var ownKeys := OneHead(a.Keys(all)[..t + 1], kv, a.sdpa.kvHeads, d);
    var ownValues := OneHead(a.Values(all)[..t + 1], kv, a.sdpa.kvHeads, d);
    assert ownKeys == keys[..t + 1] && ownValues == values[..t + 1];
    OwnKeyIsSeen(a, rel, t, |all|);
    AnswerOfLonger(a.sdpa, a.Query(all[t], t)[h], ownKeys, keys, ownValues, values,
                   a.Biases(rel, t, t + 1), a.Biases(rel, t, |all|));
  }

  /** The attention step of a call that follows `xs`, over the whole cached span. */
  ghost function SpanStep(a: Layer, xs: seq<Row>, ys: seq<Row>): (step: seq<seq<Row>>)
    requires a.Valid()
    ensures |step| == a.sdpa.heads && Planes(step, |ys|, a.sdpa.headDim)
  {
    Attend.Step(a.sdpa, Queries(a, ys, |xs|), Transposed(a.Keys(xs + ys), a.sdpa.kvHeads, a.sdpa.headDim),
                Transposed(a.Values(xs + ys), a.sdpa.kvHeads, a.sdpa.headDim),
                MaskHeads(a, ys, |xs|, |xs + ys|), |ys|, |xs + ys|)
  }

  lemma CallRow(a: Layer, xs: seq<Row>, ys: seq<Row>, h: nat, i: nat, t: nat, all: seq<Row>)
    requires a.Valid() && h < a.sdpa.heads && i < |ys| && t == |xs| + i && all == xs + ys
    ensures Matrix(Queries(a, ys, |xs|)[h], |ys|, a.sdpa.headDim)
    ensures Matrix(MaskHeads(a, ys, |xs|, |all|)[h], |ys|, |all|)
    ensures Queries(a, ys, |xs|)[h][i] == a.Query(all[t], t)[h]
    ensures MaskHeads(a, ys, |xs|, |all|)[h][i] == a.Biases(a.Rel(all[t])[h], t, |all|)
  {
    assert Matrix(Queries(a, ys, |xs|)[h], |ys|, a.sdpa.headDim);
    assert Matrix(MaskHeads(a, ys, |xs|, |all|)[h], |ys|, |all|);
    assert all[t] == ys[i];
  }

  lemma StepCell(a: Layer, xs: seq<Row>, ys: seq<Row>, h: nat, i: nat, t: nat, all: seq<Row>)
    requires a.Valid() && h < a.sdpa.heads && i < |ys| && t == |xs| + i && all == xs + ys
    ensures Matrix(SpanStep(a, xs, ys)[h], |ys|, a.sdpa.headDim)
    ensures SpanStep(a, xs, ys)[h][i] == a.HeadAnswer(all, t, h)
  {
    CallRow(a, xs, ys, h, i, t, all);
    SpanAnswer(a, all, t, h);
    SpanStepAt(a, xs, ys, h, i);
  }

  lemma SpanStepAt(a: Layer, xs: seq<Row>, ys: seq<Row>, h: nat, i: nat)
    requires a.Valid() && h < a.sdpa.heads && i < |ys|
    ensures Matrix(SpanStep(a, xs, ys)[h], |ys|, a.sdpa.headDim)
    ensures Matrix(Queries(a, ys, |xs|)[h], |ys|, a.sdpa.headDim)
    ensures Matrix(MaskHeads(a, ys, |xs|, |xs + ys|)[h], |ys|, |xs + ys|)
    ensures SpanStep(a, xs, ys)[h][i]
         == a.sdpa.Answer(Queries(a, ys, |xs|)[h][i],
              OneHead(a.Keys(xs + ys), a.sdpa.KvHead(h), a.sdpa.kvHeads, a.sdpa.headDim),
              OneHead(a.Values(xs + ys), a.sdpa.KvHead(h), a.sdpa.kvHeads, a.sdpa.headDim),
              MaskHeads(a, ys, |xs|, |xs + ys|)[h][i])
  {
    var all, kv := xs + ys, a.sdpa.KvHead(h);
    TransposedIsOneHead(a.Keys(all), kv, a.sdpa.kvHeads, a.sdpa.headDim);
    TransposedIsOneHead(a.Values(all), kv, a.sdpa.kvHeads, a.sdpa.headDim);
    StepAt(a.sdpa, Queries(a, ys, |xs|), Transposed(a.Keys(all), a.sdpa.kvHeads, a.sdpa.headDim),
           Transposed(a.Values(all), a.sdpa.kvHeads, a.sdpa.headDim), MaskHeads(a, ys, |xs|, |all|), |ys|, |all|, h, i);
  }

  /** The whole step over a call's queries, row by row: what each position answers for itself. */
  lemma StepAnswers(a: Layer, xs: seq<Row>, ys: seq<Row>)
    requires a.Valid()
    ensures var merged := Transposed(SpanStep(a, xs, ys), |ys|, a.sdpa.headDim);
            forall i :: 0 <= i < |ys| ==> merged[i] == a.HeadAnswers(xs + ys, |xs| + i)
  {
    var step := SpanStep(a, xs, ys);
    var merged := Transposed(step, |ys|, a.sdpa.headDim);
    forall i | 0 <= i < |ys|
      ensures merged[i] == a.HeadAnswers(xs + ys, |xs| + i)
    {
      var all, t := xs + ys, |xs| + i;
      assert Matrix(merged[i], a.sdpa.heads, a.sdpa.headDim);
      forall h | 0 <= h < a.sdpa.heads
        ensures merged[i][h] == a.HeadAnswer(all, t, h)
      {
        StepCell(a, xs, ys, h, i, t, all);
      }
    }
  }

  lemma TransposedIsOneHead(planes: seq<seq<Row>>, head: nat, heads: nat, width: nat)
    requires Planes(planes, heads, width) && head < heads
    ensures Transposed(planes, heads, width)[head] == OneHead(planes, head, heads, width)
  {
    assert Matrix(Transposed(planes, heads, width)[head], |planes|, width);
  }

  /** Each query of a call that follows `xs`: its heads' own answers, side by side. */
  ghost function CallAnswers(a: Layer, xs: seq<Row>, ys: seq<Row>): (rows: seq<Row>)
    requires a.Valid()
    ensures |rows| == |ys| && Wide(rows, a.QWidth())
    ensures forall i :: 0 <= i < |ys| ==> rows[i] == Flat(a.HeadAnswers(xs + ys, |xs| + i))
  {
    SideBySide(a, xs + ys)[|xs|..]
  }

  /** Every position's heads, side by side. */
  ghost function SideBySide(a: Layer, all: seq<Row>): (rows: seq<Row>)
    requires a.Valid()
    ensures |rows| == |all| && Wide(rows, a.QWidth())
    ensures forall t :: 0 <= t < |all| ==> rows[t] == Flat(a.HeadAnswers(all, t))
  {
    var planes := seq(|all|, t requires 0 <= t < |all| => a.HeadAnswers(all, t));
    assert forall p :: 0 <= p < |planes| ==> Matrix(planes[p], a.sdpa.heads, a.sdpa.headDim);
    JoinedWide(planes, a.sdpa.heads, a.sdpa.headDim);
    Joined(planes)
  }

  /** The attention step itself, head by head over the cached span. */
  method Stepped(a: Layer, q: seq<real>, k: seq<real>, v: seq<real>, rel: seq<real>, taus: Option<seq<real>>,
                 qOffset: nat, queries: nat, keys: nat, ghost xs: seq<Row>, ghost ys: seq<Row>)
    returns (out: seq<real>)
    requires a.Valid() && qOffset == |xs| && queries == |ys| && keys == |xs + ys| && keys > 0
    requires q == Flat(Flat(Queries(a, ys, qOffset))) && rel == Flat(Flat(Rels(a, ys)))
    requires k == Flat(Flat(Transposed(a.Keys(xs + ys), a.sdpa.kvHeads, a.sdpa.headDim)))
    requires v == Flat(Flat(Transposed(a.Values(xs + ys), a.sdpa.kvHeads, a.sdpa.headDim)))
    requires TausOf(a, taus, queries, qOffset)
    ensures out == Flat(Flat(SpanStep(a, xs, ys)))
  {
    ghost var ks := Transposed(a.Keys(xs + ys), a.sdpa.kvHeads, a.sdpa.headDim);
    ghost var vs := Transposed(a.Values(xs + ys), a.sdpa.kvHeads, a.sdpa.headDim);
    ghost var qs, ms := Queries(a, ys, qOffset), MaskHeads(a, ys, qOffset, keys);
    var mask := FormMask(a, rel, taus, qOffset, queries, keys, ys);
    out := Attend.Forward(a.sdpa, q, k, v, mask, queries, keys, qs, ks, vs, ms);
  }

  /** Turned back into rows, the step is the call's answers. */
  lemma StepMerges(a: Layer, xs: seq<Row>, ys: seq<Row>)
    requires a.Valid()
    ensures Flat(Flat(Transposed(SpanStep(a, xs, ys), |ys|, a.sdpa.headDim))) == Flat(CallAnswers(a, xs, ys))
  {
    StepAnswers(a, xs, ys);
    var merged := Transposed(SpanStep(a, xs, ys), |ys|, a.sdpa.headDim);
    assert Joined(merged) == CallAnswers(a, xs, ys);
    FlatJoined(merged);
  }

  /** Each query's answer over the cached span, its heads side by side. */
  method OnTheCpu(a: Layer, q: seq<real>, k: seq<real>, v: seq<real>, rel: seq<real>, taus: Option<seq<real>>,
                  qOffset: nat, queries: nat, keys: nat, ghost xs: seq<Row>, ghost ys: seq<Row>)
    returns (out: seq<real>)
    requires a.Valid() && qOffset == |xs| && queries == |ys| && keys == |xs + ys| && keys > 0
    requires q == Flat(Flat(Queries(a, ys, qOffset))) && rel == Flat(Flat(Rels(a, ys)))
    requires k == Flat(Flat(Transposed(a.Keys(xs + ys), a.sdpa.kvHeads, a.sdpa.headDim)))
    requires v == Flat(Flat(Transposed(a.Values(xs + ys), a.sdpa.kvHeads, a.sdpa.headDim)))
    requires TausOf(a, taus, queries, qOffset)
    ensures out == Flat(CallAnswers(a, xs, ys))
  {
    var stepped := Stepped(a, q, k, v, rel, taus, qOffset, queries, keys, xs, ys);
    out := MergeHeads(stepped, a.sdpa.heads, a.sdpa.headDim, SpanStep(a, xs, ys), queries);
    StepMerges(a, xs, ys);
  }

  /** The rows a convolution answers for a call, normed head by head, are the call's share of the
    * sequence's keys. */
  lemma NewKeys(a: Layer, xs: seq<Row>, ys: seq<Row>)
    requires a.Valid()
    ensures Wide(a.kSconv.Answers(a.KeyIn(xs + ys))[|xs|..], a.KvWidth())
    ensures Flat(a.kNorm.Mapped(Flat(InHeads(a.kSconv.Answers(a.KeyIn(xs + ys))[|xs|..], a.sdpa.kvHeads,
                                             a.sdpa.headDim))))
         == Flat(Flat(a.Keys(xs + ys)[|xs|..]))
  {
    var rows := a.kSconv.Answers(a.KeyIn(xs + ys));
    var planes := InHeads(rows[|xs|..], a.sdpa.kvHeads, a.sdpa.headDim);
    a.kNorm.MappedFlat(planes, a.sdpa.kvHeads, a.sdpa.headDim);
    assert a.kNorm.MappedPlanes(planes, a.sdpa.kvHeads, a.sdpa.headDim) == a.Keys(xs + ys)[|xs|..];
  }

  lemma NewValues(a: Layer, xs: seq<Row>, ys: seq<Row>)
    requires a.Valid()
    ensures Flat(a.vSconv.Answers(a.ValueIn(xs + ys))[|xs|..]) == Flat(Flat(a.Values(xs + ys)[|xs|..]))
  {
    var rows := a.vSconv.Answers(a.ValueIn(xs + ys));
    assert InHeads(rows[|xs|..], a.sdpa.kvHeads, a.sdpa.headDim) == a.Values(xs + ys)[|xs|..];
  }

  /** Appending a call's planes to the sequence's. */
  lemma SpanGrows(before: seq<seq<Row>>, after: seq<seq<Row>>)
    requires |before| <= |after| && after[..|before|] == before
    ensures Flat(Flat(before)) + Flat(Flat(after[|before|..])) == Flat(Flat(after))
  {
    FlatAppend(before, after[|before|..]);
    FlatAppend(Flat(before), Flat(after[|before|..]));
    assert before + after[|before|..] == after;
  }

  /** The key through its convolution and then its norm. */
  method ConvolvedKeys(a: Layer, state: Sconv.ConvState, k: seq<real>, ghost xs: seq<Row>, ghost ys: seq<Row>)
    returns (keys: seq<real>)
    requires a.Valid() && state.Holds(a.KeyIn(xs)) && k == Flat(a.KeyIn(ys))
    requires state.held.channels == a.KvWidth() && state.held.window == a.kSconv.kernelSize - 1
    modifies state
    ensures state.Holds(a.KeyIn(xs + ys)) && state.held == old(state.held).Advanced(|ys|)
    ensures keys == Flat(Flat(a.Keys(xs + ys)[|xs|..]))
  {
    KeyInAppend(a, xs, ys);
    var convolved := Sconv.Forward(a.kSconv, state, k, None, a.KeyIn(xs), a.KeyIn(ys));
    NewKeys(a, xs, ys);
    ghost var planes := InHeads(a.kSconv.Answers(a.KeyIn(xs + ys))[|xs|..], a.sdpa.kvHeads, a.sdpa.headDim);
    FlatPlanes(planes, a.sdpa.kvHeads, a.sdpa.headDim);
    keys := a.kNorm.Over(convolved, a.sdpa.headDim, Flat(planes));
  }

  method ConvolvedValues(a: Layer, state: Sconv.ConvState, v: seq<real>, ghost xs: seq<Row>, ghost ys: seq<Row>)
    returns (values: seq<real>)
    requires a.Valid() && state.Holds(a.ValueIn(xs)) && v == Flat(a.ValueIn(ys))
    requires state.held.channels == a.KvWidth() && state.held.window == a.kSconv.kernelSize - 1
    modifies state
    ensures state.Holds(a.ValueIn(xs + ys)) && state.held == old(state.held).Advanced(|ys|)
    ensures values == Flat(Flat(a.Values(xs + ys)[|xs|..]))
  {
    KeyInAppend(a, xs, ys);
    values := Sconv.Forward(a.vSconv, state, v, None, a.ValueIn(xs), a.ValueIn(ys));
    NewValues(a, xs, ys);
  }

  /** What a call adds to the keys and values of `xs`. */
  ghost predicate Added(a: Layer, xs: seq<Row>, ys: seq<Row>, keys: seq<real>, values: seq<real>)
    requires a.Valid()
  {
    forall key {:trigger LaidKey(key)} :: LaidKey(key) ==>
      keys == Flat(Flat(a.Keys(xs + ys)[|xs|..])) && values == Flat(Flat(a.Values(xs + ys)[|xs|..]))
  }

  lemma CacheGrows(a: Layer, xs: seq<Row>, ys: seq<Row>, keys: seq<real>, values: seq<real>,
                   moreKeys: seq<real>, moreValues: seq<real>)
    requires a.Valid() && Laid(a, xs, keys, values) && Added(a, xs, ys, moreKeys, moreValues)
    ensures Laid(a, xs + ys, keys + moreKeys, values + moreValues)
  {
    assert LaidKey(0);
    KeysCausal(a, xs, ys);
    SpanGrows(a.Keys(xs), a.Keys(xs + ys));
    SpanGrows(a.Values(xs), a.Values(xs + ys));
  }

  /** A call's keys and values onto the end of the span. */
  method Appended(a: Layer, cache: AttentionCache, k: seq<real>, v: seq<real>, queries: nat,
                  ghost xs: seq<Row>, ghost ys: seq<Row>, ghost level: Level)
    requires cache.Holds(a, xs, level) && queries == |ys|
    requires k == Flat(a.KeyIn(ys)) && v == Flat(a.ValueIn(ys))
    modifies cache.Repr()
    ensures cache.Holds(a, xs + ys, level.Advanced(|ys|))
  {
    assert SpanKey(0);
    var keys, values := Convolved(a, cache.kSconv, cache.vSconv, k, v, xs, ys);
    CacheGrows(a, xs, ys, cache.keys, cache.values, keys, values);
    cache.keys := cache.keys + keys;
    cache.values := cache.values + values;
    cache.cached := cache.cached + queries;
  }

  /** A call's keys and values through their two convolutions. */
  method Convolved(a: Layer, kSconv: Sconv.ConvState, vSconv: Sconv.ConvState, k: seq<real>, v: seq<real>,
                   ghost xs: seq<Row>, ghost ys: seq<Row>)
    returns (keys: seq<real>, values: seq<real>)
    requires a.Valid() && kSconv != vSconv && kSconv.Holds(a.KeyIn(xs)) && vSconv.Holds(a.ValueIn(xs))
    requires k == Flat(a.KeyIn(ys)) && v == Flat(a.ValueIn(ys))
    requires kSconv.held.channels == a.KvWidth() && kSconv.held.window == a.kSconv.kernelSize - 1
    requires vSconv.held.channels == a.KvWidth() && vSconv.held.window == a.kSconv.kernelSize - 1
    modifies kSconv, vSconv
    ensures kSconv.Holds(a.KeyIn(xs + ys)) && kSconv.held == old(kSconv.held).Advanced(|ys|)
    ensures vSconv.Holds(a.ValueIn(xs + ys)) && vSconv.held == old(vSconv.held).Advanced(|ys|)
    ensures Added(a, xs, ys, keys, values)
  {
    keys := ConvolvedKeys(a, kSconv, k, xs, ys);
    values := ConvolvedValues(a, vSconv, v, xs, ys);
  }

  /** The queries of a call, normed head by head, split and scaled. */
  method FormQueries(a: Layer, q: seq<real>, taus: Option<seq<real>>, queries: nat, ghost ys: seq<Row>,
                     ghost offset: nat)
    returns (out: seq<real>)
    requires a.Valid() && |ys| == queries && q == Flat(a.qProj.Mapped(a.inputNorm.Mapped(ys)))
    requires TausOf(a, taus, queries, offset)
    ensures out == Flat(Flat(Queries(a, ys, offset)))
  {
    ghost var planes := InHeads(a.qProj.Mapped(a.inputNorm.Mapped(ys)), a.sdpa.heads, a.sdpa.headDim);
    FlatPlanes(planes, a.sdpa.heads, a.sdpa.headDim);
    a.qNorm.MappedFlat(planes, a.sdpa.heads, a.sdpa.headDim);
    var normed := a.qNorm.Over(q, a.sdpa.headDim, Flat(planes));
    var split := SplitHeads(normed, a.sdpa.heads, a.sdpa.headDim,
                            a.qNorm.MappedPlanes(planes, a.sdpa.heads, a.sdpa.headDim));
    out := ScaleQueries(a, split, taus, queries, ys, offset);
  }

  /** The four projections of the normed rows. */
  method Qkvr(a: Layer, x: seq<real>, ghost ys: seq<Row>)
    returns (q: seq<real>, k: seq<real>, v: seq<real>, rel: seq<real>)
    requires a.Valid() && Wide(ys, a.hidden) && x == Flat(ys)
    ensures q == Flat(a.qProj.Mapped(a.inputNorm.Mapped(ys)))
    ensures k == Flat(a.KeyIn(ys)) && v == Flat(a.ValueIn(ys)) && rel == Flat(Flat(Rels(a, ys)))
  {
    ghost var ns := a.inputNorm.Mapped(ys);
    var normed := a.inputNorm.Over(x, a.hidden, ys);
    q := a.qProj.Over(normed, a.hidden, ns);
    k := a.kProj.Over(normed, a.hidden, ns);
    v := a.vProj.Over(normed, a.hidden, ns);
    rel := a.rProj.Over(normed, a.hidden, ns);
    RelsAreProjected(a, ys);
  }

  lemma RowsAreAnswers(a: Layer, xs: seq<Row>, ys: seq<Row>, rows: seq<Row>)
    requires a.Valid() && |rows| == |ys|
    requires forall i :: 0 <= i < |ys| ==> rows[i] == Flat(a.HeadAnswers(xs + ys, |xs| + i))
    ensures a.QWidth() > 0
    ensures a.oProj.Mapped(rows) == a.Answers(xs + ys)[|xs|..]
  {
    assert SpanKey(0);
    forall i | 0 <= i < |ys|
      ensures a.oProj.Mapped(rows)[i] == a.Answers(xs + ys)[|xs| + i]
    {
    }
  }

  /** A cache's keys and values, heads first. */
  method SplitSpan(a: Layer, keys: seq<real>, values: seq<real>, ghost all: seq<Row>)
    returns (k: seq<real>, v: seq<real>)
    requires a.Valid() && Laid(a, all, keys, values)
    ensures k == Flat(Flat(Transposed(a.Keys(all), a.sdpa.kvHeads, a.sdpa.headDim)))
    ensures v == Flat(Flat(Transposed(a.Values(all), a.sdpa.kvHeads, a.sdpa.headDim)))
  {
    assert LaidKey(0);
    k := SplitHeads(keys, a.sdpa.kvHeads, a.sdpa.headDim, a.Keys(all));
    v := SplitHeads(values, a.sdpa.kvHeads, a.sdpa.headDim, a.Values(all));
  }

  /** The step over the span as the cache holds it, and `oProj` behind it. */
  method Attended(a: Layer, q: seq<real>, cachedKeys: seq<real>, cachedValues: seq<real>, rel: seq<real>,
                  taus: Option<seq<real>>, qOffset: nat, queries: nat, keys: nat, ghost xs: seq<Row>,
                  ghost ys: seq<Row>)
    returns (out: seq<real>)
    requires a.Valid() && qOffset == |xs| && queries == |ys| && keys == |xs + ys| && keys > 0
    requires q == Flat(Flat(Queries(a, ys, qOffset))) && rel == Flat(Flat(Rels(a, ys)))
    requires Laid(a, xs + ys, cachedKeys, cachedValues) && TausOf(a, taus, queries, qOffset)
    ensures out == Flat(a.Answers(xs + ys)[|xs|..])
  {
    var k, v := SplitSpan(a, cachedKeys, cachedValues, xs + ys);
    var attended := OnTheCpu(a, q, k, v, rel, taus, qOffset, queries, keys, xs, ys);
    ghost var rows := CallAnswers(a, xs, ys);
    RowsAreAnswers(a, xs, ys, rows);
    out := a.oProj.Over(attended, a.QWidth(), rows);
  }

  /** The answers of `ys` as the tail of the longer sequence `xs + ys`, which the cache then holds. */
  method Forward(a: Layer, cache: AttentionCache, x: seq<real>, ghost xs: seq<Row>, ghost ys: seq<Row>,
                 ghost level: Level)
    returns (out: seq<real>)
    requires cache.Holds(a, xs, level) && |ys| > 0 && Wide(ys, a.hidden) && x == Flat(ys)
    modifies cache.Repr()
    ensures cache.Holds(a, xs + ys, level.Advanced(|ys|))
    ensures out == Flat(a.Answers(xs + ys)[|xs|..])
  {
    RowsCounted(ys, a.hidden);
    var queries, offset := |x| / a.hidden, cache.cached;
    var taus := Taus(a, offset, queries);

    var q, k, v, rel := Qkvr(a, x, ys);
    q := FormQueries(a, q, taus, queries, ys, offset);
    Appended(a, cache, k, v, queries, xs, ys, level);
    assert SpanKey(0);
    out := Attended(a, q, cache.keys, cache.values, rel, taus, offset, queries, cache.cached, xs, ys);
  }

  /** Whatever the mask rules out cannot reach an answer: over any span that holds the query's own key,
    * its output is settled by the keys and values it may read, which on a sliding layer are none older
    * than the window. */
  lemma BeyondReach(a: Layer, q: Row, rel: Row, t: nat, keys: seq<Row>, otherKeys: seq<Row>, values: seq<Row>,
                    otherValues: seq<Row>)
    requires a.Valid() && |q| == a.sdpa.headDim && |rel| == a.mask.dRel
    requires Wide(keys, a.sdpa.headDim) && Wide(values, a.sdpa.headDim)
    requires Wide(otherKeys, a.sdpa.headDim) && Wide(otherValues, a.sdpa.headDim)
    requires t < |keys| == |values| == |otherKeys| == |otherValues|
    requires forall j :: 0 <= j < |keys| && a.mask.Sees(t, j) ==> keys[j] == otherKeys[j] && values[j] == otherValues[j]
    ensures a.sdpa.Answer(q, keys, values, a.Biases(rel, t, |keys|))
        == a.sdpa.Answer(q, otherKeys, otherValues, a.Biases(rel, t, |keys|))
  {
    var line := a.Biases(rel, t, |keys|);
    assert line[t] != Masked;
    forall j | 0 <= j < |line| && line[j] != Masked
      ensures a.mask.Sees(t, j)
    {
    }
    MaskedKeysCannotReach(a.sdpa, q, keys, otherKeys, values, otherValues, line);
  }
}
