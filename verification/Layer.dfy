/** A decoder layer: attention and an MLP, each behind its norm and each convolved on its way into
  * the residual, and the four windows and the span one sequence carries through it. */
module Layers {
  import opened Buffers
  import opened Ops
  import opened Attention

  datatype Decoder = Decoder(attention: Layer, postNorm: Op, mlp: Op, attnSconv: Sconv.ShortConv,
                             mlpSconv: Sconv.ShortConv) {
    function Hidden(): nat { attention.hidden }

    function Window(): nat
      requires attention.kSconv.kernelSize > 0
    {
      attention.kSconv.kernelSize - 1
    }

    ghost predicate Valid() {
      && attention.Valid() && postNorm.width == Hidden() && mlp.width == Hidden()
      && attnSconv.Valid() && attnSconv.channels == Hidden() && attnSconv.kernelSize == attention.kSconv.kernelSize
      && mlpSconv.Valid() && mlpSconv.channels == Hidden() && mlpSconv.kernelSize == attention.kSconv.kernelSize
    }

    /** `h`: each row's input and what attention's convolution adds to it. */
    ghost function Middle(xs: seq<Row>): (rows: seq<Row>)
      requires Valid() && Wide(xs, Hidden())
      ensures |rows| == |xs| && Wide(rows, Hidden())
    {
      PlusRows(xs, attnSconv.Answers(attention.Answers(xs)), Hidden())
    }

    /** What the second convolution reads, kept behind a key. */
    ghost function Projected(xs: seq<Row>): (rows: seq<Row>)
      requires Valid() && Wide(xs, Hidden())
      ensures |rows| == |xs| && Wide(rows, Hidden())
    {
      assert IsProjected(xs, mlp.Mapped(postNorm.Mapped(Middle(xs))));
      var rows :| IsProjected(xs, rows);
      rows
    }

    ghost predicate IsProjected(xs: seq<Row>, rows: seq<Row>)
      requires Valid() && Wide(xs, Hidden())
    {
      && |rows| == |xs| && Wide(rows, Hidden())
      && forall key {:trigger StreamKey(key)} :: StreamKey(key) ==> rows == mlp.Mapped(postNorm.Mapped(Middle(xs)))
    }

    ghost function AnswerRows(xs: seq<Row>): (rows: seq<Row>)
      requires Valid() && Wide(xs, Hidden())
      ensures |rows| == |xs| && Wide(rows, Hidden())
    {
      PlusRows(Middle(xs), mlpSconv.Answers(Projected(xs)), Hidden())
    }

    /** What the layer answers for every position, stated over the sequence alone: `AnswerRows`,
      * kept behind a key. */
    ghost function Answers(xs: seq<Row>): (rows: seq<Row>)
      requires Valid() && Wide(xs, Hidden())
      ensures |rows| == |xs| && Wide(rows, Hidden())
    {
      assert Answered(xs, AnswerRows(xs));
      var rows :| Answered(xs, rows);
      rows
    }

    ghost predicate Answered(xs: seq<Row>, rows: seq<Row>)
      requires Valid() && Wide(xs, Hidden())
    {
      && |rows| == |xs| && Wide(rows, Hidden())
      && forall key {:trigger StreamKey(key)} :: StreamKey(key) ==> rows == AnswerRows(xs)
    }
  }

  /** A key to the streams inside a layer, as `Sconv.WindowKey` is to a window. */
  ghost predicate StreamKey(key: nat) { true }

  /** `longer` begins with `rows`. */
  ghost predicate Begins(rows: seq<Row>, longer: seq<Row>) {
    |rows| <= |longer| && longer[..|rows|] == rows
  }

  lemma SplitAt(rows: seq<Row>, longer: seq<Row>)
    requires Begins(rows, longer)
    ensures longer == rows + longer[|rows|..]
  {
  }

  /** Every stream inside a layer is settled by the rows up to its own, so feeding more reaches
    * nothing already answered. */
  lemma LayerCausal(d: Decoder, xs: seq<Row>, ys: seq<Row>)
    requires d.Valid() && Wide(xs, d.Hidden()) && Wide(ys, d.Hidden())
    ensures Wide(xs + ys, d.Hidden())
    ensures Begins(d.attention.Answers(xs), d.attention.Answers(xs + ys))
    ensures Begins(d.Middle(xs), d.Middle(xs + ys))
    ensures Begins(d.Projected(xs), d.Projected(xs + ys))
    ensures Begins(d.Answers(xs), d.Answers(xs + ys))
  {
    assert StreamKey(0);
    AnswersCausal(d.attention, xs, ys);
    ConvBegins(d.attnSconv, d.attention.Answers(xs), d.attention.Answers(xs + ys));
    forall t | 0 <= t < |xs|
      ensures d.Middle(xs + ys)[t] == d.Middle(xs)[t]
    {
      BeginsAt(d.attnSconv.Answers(d.attention.Answers(xs)), d.attnSconv.Answers(d.attention.Answers(xs + ys)), t);
    }
    assert d.Middle(xs + ys)[..|xs|] == d.Middle(xs);
    assert d.Projected(xs + ys)[..|xs|] == d.Projected(xs);
    ConvBegins(d.mlpSconv, d.Projected(xs), d.Projected(xs + ys));
    forall t | 0 <= t < |xs|
      ensures d.Answers(xs + ys)[t] == d.Answers(xs)[t]
    {
      BeginsAt(d.mlpSconv.Answers(d.Projected(xs)), d.mlpSconv.Answers(d.Projected(xs + ys)), t);
    }
    assert d.Answers(xs + ys)[..|xs|] == d.Answers(xs);
  }

  /** What a layer's outer convolutions read, some rows ago. */
  lemma LayerCut(d: Decoder, xs: seq<Row>, left: nat)
    requires d.Valid() && Wide(xs, d.Hidden()) && left <= |xs|
    ensures d.attention.Answers(xs)[..left] == d.attention.Answers(xs[..left])
        && d.Projected(xs)[..left] == d.Projected(xs[..left])
  {
    assert xs == xs[..left] + xs[left..];
    LayerCausal(d, xs[..left], xs[left..]);
  }

  lemma BeginsAt(rows: seq<Row>, longer: seq<Row>, t: nat)
    requires Begins(rows, longer) && t < |rows|
    ensures longer[t] == rows[t]
  {
    assert longer[..|rows|][t] == longer[t];
  }

  lemma ConvBegins(conv: Sconv.ShortConv, rows: seq<Row>, longer: seq<Row>)
    requires conv.Valid() && Wide(rows, conv.channels) && Wide(longer, conv.channels) && Begins(rows, longer)
    ensures Begins(conv.Answers(rows), conv.Answers(longer))
  {
    SplitAt(rows, longer);
    Sconv.AnswersCausal(conv, rows, longer[|rows|..]);
  }

  /** Where one layer was: its attention, and the two windows outside it. */
  datatype LayerMark = LayerMark(attention: AttentionMark, attnSconv: Sconv.ConvMark, mlpSconv: Sconv.ConvMark) {
    ghost predicate Of(d: Decoder, xs: seq<Row>, level: Level) {
      && d.Valid() && Wide(xs, d.Hidden())
      && attention.Of(d.attention, xs) && attention.At(level)
      && attention.kSconv.held.channels == attention.vSconv.held.channels == d.attention.KvWidth()
      && attnSconv.held.channels == mlpSconv.held.channels == d.Hidden()
      && Sconv.Windowed(attnSconv.held, attnSconv.timesteps, d.attention.Answers(xs)) && Standing(attnSconv.held, level)
      && Sconv.Windowed(mlpSconv.held, mlpSconv.timesteps, d.Projected(xs)) && Standing(mlpSconv.held, level)
    }
  }

  /** A key to `DecoderCache.Holds`, as `Sconv.WindowKey` is to a window. */
  ghost predicate LayerKey(key: nat) { true }

  /** A layer's cache: the attention's, and two more windows for the convolutions outside attention, all of
    * them holding one sequence. */
  class DecoderCache {
    const attention: AttentionCache
    const attnSconv: Sconv.ConvState
    const mlpSconv: Sconv.ConvState

    ghost const Repr: set<object>

    /** The cache of a sequence that has been fed `xs`: the keys, the values and all four windows
      * at one position. */
    ghost predicate Holds(d: Decoder, xs: seq<Row>, level: Level)
      reads Repr
    {
      forall key {:trigger LayerKey(key)} :: LayerKey(key) ==> Everywhere(d, xs, level)
    }

    ghost predicate Everywhere(d: Decoder, xs: seq<Row>, level: Level)
      reads Repr
    {
      && d.Valid() && Wide(xs, d.Hidden()) && level.Valid() && level.window == d.Window()
      && Repr == attention.Repr() + {attnSconv, mlpSconv}
      && attnSconv != mlpSconv && attnSconv !in attention.Repr() && mlpSconv !in attention.Repr()
      && attention.Holds(d.attention, xs, level)
      && attnSconv.Holds(d.attention.Answers(xs)) && attnSconv.held.channels == d.Hidden()
        && Standing(attnSconv.held, level)
      && mlpSconv.Holds(d.Projected(xs)) && mlpSconv.held.channels == d.Hidden() && Standing(mlpSconv.held, level)
    }

    /** The state a sequence starts from, able to give back `slack` timesteps. */
    constructor (d: Decoder, slack: nat)
      requires d.Valid()
      ensures fresh(Repr)
      ensures Holds(d, [], Level(d.Window(), slack, d.Window() + slack))
    {
      var inside := new AttentionCache(d.attention, slack);
      var attn := new Sconv.ConvState(d.Hidden(), d.attention.kSconv.kernelSize, slack);
      var mlp := new Sconv.ConvState(d.Hidden(), d.attention.kSconv.kernelSize, slack);
      attention, attnSconv, mlpSconv := inside, attn, mlp;
      Repr := inside.Repr() + {attn, mlp};
      new;
      assert LayerKey(0);
      assert d.attention.Answers([]) == [] && d.Projected([]) == [];
    }

    /** Afterwards the attention's cache and both outer windows hold the sequence without its last `rows`
      * rows. */
    method Rewind(rows: nat, ghost d: Decoder, ghost xs: seq<Row>, ghost level: Level)
      requires level.Valid() && Holds(d, xs, level) && rows <= |xs| && rows <= level.Rewindable()
      modifies Repr
      ensures Holds(d, xs[..|xs| - rows], level.(kept := level.kept - rows))
    {
      assert LayerKey(0);
      ghost var left := |xs| - rows;
      ghost var attended, projected := d.attention.Answers(xs), d.Projected(xs);
      LayerCut(d, xs, left);
      attention.Rewind(rows, d.attention, xs, level);
      RewindOutside(rows, left, attended, projected);
    }

    method RewindOutside(rows: nat, ghost left: nat, ghost attended: seq<Row>, ghost projected: seq<Row>)
      requires attnSconv != mlpSconv && attnSconv.Holds(attended) && mlpSconv.Holds(projected)
      requires |attended| == |projected| == left + rows
      requires rows <= attnSconv.held.Rewindable() && rows <= mlpSconv.held.Rewindable()
      modifies attnSconv, mlpSconv
      ensures attnSconv.Holds(attended[..left]) && mlpSconv.Holds(projected[..left])
      ensures attnSconv.held == old(attnSconv.held).(kept := old(attnSconv.held).kept - rows)
      ensures mlpSconv.held == old(mlpSconv.held).(kept := old(mlpSconv.held).kept - rows)
    {
      attnSconv.Rewind(rows, attended);
      mlpSconv.Rewind(rows, projected);
    }

    method Mark(ghost d: Decoder, ghost xs: seq<Row>, ghost level: Level) returns (mark: LayerMark)
      requires Holds(d, xs, level)
      ensures mark.Of(d, xs, level)
    {
      assert LayerKey(0);
      var inside := attention.Mark(d.attention, xs, level);
      var attn := attnSconv.Mark(d.attention.Answers(xs));
      var mlp := mlpSconv.Mark(d.Projected(xs));
      mark := LayerMark(inside, attn, mlp);
    }

    /** All four windows and the keys at the marked sequence again, for any rows fed since. */
    method Resume(mark: LayerMark, ghost d: Decoder, ghost xs: seq<Row>, ghost later: seq<Row>,
                  ghost level: Level, ghost marked: Level)
      requires Holds(d, xs + later, level) && mark.Of(d, xs, marked)
      requires marked.window == level.window && marked.slack == level.slack
      modifies Repr
      ensures Holds(d, xs, marked)
    {
      assert LayerKey(0);
      attention.Resume(mark.attention, d.attention, xs, later, level, marked);
      attnSconv.Resume(mark.attnSconv, d.attention.Answers(xs));
      mlpSconv.Resume(mark.mlpSconv, d.Projected(xs));
    }
  }

  /** What a layer's cache holds is settled by what the sequence was fed: the keys, the values, and what
    * all four convolutions read, however the feeding was divided and whatever was taken back on the way. */
  lemma SameState(d: Decoder, xs: seq<Row>, a: DecoderCache, b: DecoderCache, p: Level, q: Level)
    requires a.Holds(d, xs, p) && b.Holds(d, xs, q)
    ensures Alike(a, b) && a.attention.cached == |xs|
  {
    assert LayerKey(0) && SpanKey(0) && LaidKey(0);
    StatesAlike(a.attention.kSconv, b.attention.kSconv, d.attention.KeyIn(xs));
    StatesAlike(a.attention.vSconv, b.attention.vSconv, d.attention.ValueIn(xs));
    StatesAlike(a.attnSconv, b.attnSconv, d.attention.Answers(xs));
    StatesAlike(a.mlpSconv, b.mlpSconv, d.Projected(xs));
  }

  /** Two caches of one layer agree on everything a later call reads: the keys, the values and their
    * count, and the rows before the next one in each of the four windows. */
  ghost predicate Alike(a: DecoderCache, b: DecoderCache)
    reads a.attention.Repr(), b.attention.Repr(), a.attnSconv, a.mlpSconv, b.attnSconv, b.mlpSconv
  {
    && a.attention.keys == b.attention.keys && a.attention.values == b.attention.values
    && a.attention.cached == b.attention.cached
    && Reads(a.attention.kSconv) == Reads(b.attention.kSconv) && Reads(a.attention.vSconv) == Reads(b.attention.vSconv)
    && Reads(a.attnSconv) == Reads(b.attnSconv) && Reads(a.mlpSconv) == Reads(b.mlpSconv)
  }

  /** The rows of a window its convolution reads. */
  ghost function Reads(state: Sconv.ConvState): seq<real>
    reads state
  {
    if state.held.Reading() <= |state.history| then state.history[state.held.Reading()..] else []
  }

  lemma StatesAlike(a: Sconv.ConvState, b: Sconv.ConvState, rows: seq<Row>)
    requires a.Holds(rows) && b.Holds(rows) && a.held.channels == b.held.channels && a.held.window == b.held.window
    ensures Reads(a) == Reads(b)
  {
    Sconv.WindowsAlike(a.held, a.history, b.held, b.history, rows);
  }

  /** What a layer answers a sequence fed in pieces, after it has been fed `fed`. */
  ghost function InPieces(d: Decoder, fed: seq<Row>, pieces: seq<seq<Row>>): (rows: seq<Row>)
    requires d.Valid() && Wide(fed, d.Hidden()) && forall p :: 0 <= p < |pieces| ==> Wide(pieces[p], d.Hidden())
    decreases |pieces|
  {
    if pieces == [] then []
    else
      assert Wide(pieces[0], d.Hidden()) && Wide(fed + pieces[0], d.Hidden());
      d.Answers(fed + pieces[0])[|fed|..] + InPieces(d, fed + pieces[0], pieces[1..])
  }

  /** Whole or in pieces, it is the same rows. */
  lemma {:induction false} PiecesAreWhole(d: Decoder, fed: seq<Row>, pieces: seq<seq<Row>>)
    requires d.Valid() && Wide(fed, d.Hidden()) && forall p :: 0 <= p < |pieces| ==> Wide(pieces[p], d.Hidden())
    ensures Wide(fed + Flat(pieces), d.Hidden())
    ensures d.Answers(fed) + InPieces(d, fed, pieces) == d.Answers(fed + Flat(pieces))
    decreases |pieces|
  {
    if pieces == [] {
      assert fed + Flat(pieces) == fed;
    } else {
      var on := fed + pieces[0];
      assert Wide(pieces[0], d.Hidden());
      LayerCausal(d, fed, pieces[0]);
      SplitAt(d.Answers(fed), d.Answers(on));
      PiecesAreWhole(d, on, pieces[1..]);
      assert on + Flat(pieces[1..]) == fed + Flat(pieces);
      var first, middle, last := d.Answers(fed), d.Answers(on)[|fed|..], InPieces(d, on, pieces[1..]);
      assert first + (middle + last) == (first + middle) + last;
    }
  }

  /** The rows with attention's convolved answers added to them, as the whole sequence has them. */
  method AroundAttention(d: Decoder, cache: DecoderCache, x: seq<real>, ghost xs: seq<Row>, ghost ys: seq<Row>,
                         ghost level: Level)
    returns (h: seq<real>)
    requires d.Valid() && Wide(xs, d.Hidden())
    requires cache.Holds(d, xs, level) && |ys| > 0 && Wide(ys, d.Hidden()) && x == Flat(ys)
    requires cache.attnSconv !in cache.attention.Repr()
    modifies cache.attention.Repr(), cache.attnSconv
    ensures Wide(xs + ys, d.Hidden())
    ensures cache.attention.Holds(d.attention, xs + ys, level.Advanced(|ys|))
    ensures cache.attnSconv.Holds(d.attention.Answers(xs + ys)) && cache.attnSconv.held.channels == d.Hidden()
    ensures Standing(cache.attnSconv.held, level.Advanced(|ys|))
    ensures h == Flat(d.Middle(xs + ys)[|xs|..])
  {
    assert LayerKey(0);
    LayerCausal(d, xs, ys);
    ghost var before, after := d.attention.Answers(xs), d.attention.Answers(xs + ys);
    SplitAt(before, after);
    var attended := Attention.Forward(d.attention, cache.attention, x, xs, ys, level);
    var convolved := Sconv.Forward(d.attnSconv, cache.attnSconv, attended, None, before, after[|xs|..]);
    MiddleGrows(d, xs, ys);
    h := Plus(x, convolved);
  }

  lemma MiddleGrows(d: Decoder, xs: seq<Row>, ys: seq<Row>)
    requires d.Valid() && Wide(xs, d.Hidden()) && Wide(ys, d.Hidden())
    ensures Wide(xs + ys, d.Hidden())
    ensures |Flat(ys)| == |Flat(d.attnSconv.Answers(d.attention.Answers(xs + ys))[|xs|..])|
    ensures Plus(Flat(ys), Flat(d.attnSconv.Answers(d.attention.Answers(xs + ys))[|xs|..]))
         == Flat(d.Middle(xs + ys)[|xs|..])
  {
    var convolved := d.attnSconv.Answers(d.attention.Answers(xs + ys))[|xs|..];
    PlusFlat(ys, convolved, d.Hidden());
    assert PlusRows(ys, convolved, d.Hidden()) == d.Middle(xs + ys)[|xs|..];
  }

  /** The rows with the MLP's convolved outputs added to them, as the whole sequence has them. */
  method AroundMlp(d: Decoder, cache: DecoderCache, h: seq<real>, ghost xs: seq<Row>, ghost ys: seq<Row>)
    returns (out: seq<real>)
    requires d.Valid() && Wide(xs, d.Hidden()) && Wide(ys, d.Hidden()) && Wide(xs + ys, d.Hidden())
    requires cache.mlpSconv.Holds(d.Projected(xs)) && cache.mlpSconv.held.channels == d.Hidden()
    requires cache.mlpSconv.held.window == d.Window() && h == Flat(d.Middle(xs + ys)[|xs|..])
    modifies cache.mlpSconv
    ensures cache.mlpSconv.Holds(d.Projected(xs + ys)) && cache.mlpSconv.held == old(cache.mlpSconv.held).Advanced(|ys|)
    ensures out == Flat(d.Answers(xs + ys)[|xs|..])
  {
    LayerCausal(d, xs, ys);
    ghost var before, after := d.Projected(xs), d.Projected(xs + ys);
    ghost var middle := d.Middle(xs + ys)[|xs|..];
    SplitAt(before, after);
    var normed := d.postNorm.Over(h, d.Hidden(), middle);
    var projected := d.mlp.Over(normed, d.Hidden(), d.postNorm.Mapped(middle));
    assert StreamKey(0);
    assert d.mlp.Mapped(d.postNorm.Mapped(middle)) == after[|xs|..];
    var convolved := Sconv.Forward(d.mlpSconv, cache.mlpSconv, projected, None, before, after[|xs|..]);
    AnswersGrow(d, xs, ys);
    out := Plus(h, convolved);
  }

  lemma AnswersGrow(d: Decoder, xs: seq<Row>, ys: seq<Row>)
    requires d.Valid() && Wide(xs + ys, d.Hidden()) && Wide(xs, d.Hidden())
    ensures |Flat(d.Middle(xs + ys)[|xs|..])| == |Flat(d.mlpSconv.Answers(d.Projected(xs + ys))[|xs|..])|
    ensures Plus(Flat(d.Middle(xs + ys)[|xs|..]), Flat(d.mlpSconv.Answers(d.Projected(xs + ys))[|xs|..]))
         == Flat(d.Answers(xs + ys)[|xs|..])
  {
    var middle, convolved := d.Middle(xs + ys)[|xs|..], d.mlpSconv.Answers(d.Projected(xs + ys))[|xs|..];
    assert StreamKey(0);
    PlusFlat(middle, convolved, d.Hidden());
    assert PlusRows(middle, convolved, d.Hidden()) == d.Answers(xs + ys)[|xs|..];
  }

  /** A call's answers as the tail of the longer sequence's, and the layer's cache then holding that sequence. */
  method Run(d: Decoder, cache: DecoderCache, x: seq<real>, ghost xs: seq<Row>, ghost ys: seq<Row>, ghost level: Level)
    returns (out: seq<real>)
    requires d.Valid() && Wide(xs, d.Hidden()) && cache.Holds(d, xs, level) && |ys| > 0 && Wide(ys, d.Hidden())
        && x == Flat(ys)
    modifies cache.Repr
    ensures cache.Holds(d, xs + ys, level.Advanced(|ys|))
    ensures out == Flat(d.Answers(xs + ys)[|xs|..])
  {
    Parts(d, cache, xs, level);
    var h := AroundAttention(d, cache, x, xs, ys, level);
    assert cache.mlpSconv.Holds(d.Projected(xs));
    out := AroundMlp(d, cache, h, xs, ys);
    Reassembled(d, cache, xs + ys, level.Advanced(|ys|));
  }

  /** A layer's cache taken apart, and what of it a call's second half still needs. */
  lemma Parts(d: Decoder, cache: DecoderCache, xs: seq<Row>, level: Level)
    requires cache.Holds(d, xs, level)
    ensures d.Valid() && Wide(xs, d.Hidden()) && level.Valid() && level.window == d.Window()
    ensures cache.Repr == cache.attention.Repr() + {cache.attnSconv, cache.mlpSconv}
    ensures cache.attnSconv != cache.mlpSconv
    ensures cache.attnSconv !in cache.attention.Repr() && cache.mlpSconv !in cache.attention.Repr()
    ensures cache.mlpSconv.Holds(d.Projected(xs)) && cache.mlpSconv.held.channels == d.Hidden()
    ensures Standing(cache.mlpSconv.held, level)
  {
    assert LayerKey(0);
  }

  lemma Reassembled(d: Decoder, cache: DecoderCache, xs: seq<Row>, level: Level)
    requires d.Valid() && Wide(xs, d.Hidden()) && level.Valid() && level.window == d.Window()
    requires cache.Repr == cache.attention.Repr() + {cache.attnSconv, cache.mlpSconv}
    requires cache.attnSconv != cache.mlpSconv
    requires cache.attnSconv !in cache.attention.Repr() && cache.mlpSconv !in cache.attention.Repr()
    requires cache.attention.Holds(d.attention, xs, level)
    requires cache.attnSconv.Holds(d.attention.Answers(xs)) && cache.attnSconv.held.channels == d.Hidden()
    requires cache.mlpSconv.Holds(d.Projected(xs)) && cache.mlpSconv.held.channels == d.Hidden()
    requires Standing(cache.attnSconv.held, level) && Standing(cache.mlpSconv.held, level)
    ensures cache.Holds(d, xs, level)
  {
  }

  /** A sequence's place in a batched call: the cache of its own it advances, and its row count in the call. */
  datatype Seat = Seat(cache: DecoderCache, queries: nat)

  ghost function Footprint(seats: seq<Seat>): set<object> {
    set s, o | 0 <= s < |seats| && o in seats[s].cache.Repr :: o
  }

  ghost predicate Apart(seats: seq<Seat>) {
    forall s, r :: 0 <= s < |seats| && 0 <= r < |seats| && s != r ==> seats[s].cache.Repr !! seats[r].cache.Repr
  }

  /** What each seat of a call has been fed, is being fed, and its windows' level. */
  datatype Feed = Feed(fed: seq<Row>, next: seq<Row>, level: Level) {
    ghost predicate Fits(d: Decoder) {
      d.Valid() && Wide(fed, d.Hidden()) && Wide(next, d.Hidden()) && |next| > 0
    }

    ghost function Answered(d: Decoder): (rows: seq<Row>)
      requires Fits(d)
      ensures |rows| == |next|
    {
      d.Answers(fed + next)[|fed|..]
    }
  }

  ghost function News(feeds: seq<Feed>): (rows: seq<seq<Row>>)
    ensures |rows| == |feeds|
    ensures forall s :: 0 <= s < |feeds| ==> rows[s] == feeds[s].next
  {
    seq(|feeds|, s requires 0 <= s < |feeds| => feeds[s].next)
  }

  ghost predicate AllFit(d: Decoder, feeds: seq<Feed>) {
    forall s :: 0 <= s < |feeds| ==> feeds[s].Fits(d)
  }

  ghost function AllAnswered(d: Decoder, feeds: seq<Feed>): (rows: seq<seq<Row>>)
    requires AllFit(d, feeds)
    ensures |rows| == |feeds|
    ensures forall s :: 0 <= s < |feeds| ==> rows[s] == feeds[s].Answered(d)
  {
    seq(|feeds|, s requires 0 <= s < |feeds| => feeds[s].Answered(d))
  }

  /** The rows of one matrix are a run of the buffer they are all laid into. */
  lemma RunOf<T>(planes: seq<seq<seq<T>>>, p: nat)
    requires p < |planes|
    ensures |Flat(Flat(planes[..p]))| + |Flat(planes[p])| <= |Flat(Flat(planes))|
    ensures Flat(Flat(planes))[|Flat(Flat(planes[..p]))|..|Flat(Flat(planes[..p]))| + |Flat(planes[p])|]
        == Flat(planes[p])
    ensures Flat(Flat(planes[..p + 1])) == Flat(Flat(planes[..p])) + Flat(planes[p])
  {
    var front, back := planes[..p + 1], planes[p + 1..];
    assert planes == front + back;
    FlatAppend(front, back);
    FlatAppend(Flat(front), Flat(back));
    assert front == planes[..p] + [planes[p]];
    FlatPush(planes[..p], planes[p]);
    FlatAppend(Flat(planes[..p]), planes[p]);
  }

  /** A seat whose sequence stands where its feed says, about to be fed. */
  ghost predicate Owes(d: Decoder, seat: Seat, feed: Feed)
    reads seat.cache.Repr
  {
    feed.Fits(d) && seat.queries == |feed.next| && seat.cache.Holds(d, feed.fed, feed.level)
  }

  /** The same seat once it has been. */
  ghost predicate Served(d: Decoder, seat: Seat, feed: Feed)
    reads seat.cache.Repr
  {
    feed.Fits(d) && seat.cache.Holds(d, feed.fed + feed.next, feed.level.Advanced(|feed.next|))
  }

  method RunSeat(d: Decoder, seat: Seat, x: seq<real>, ghost feed: Feed) returns (out: seq<real>)
    requires Owes(d, seat, feed) && x == Flat(feed.next)
    modifies seat.cache.Repr
    ensures Served(d, seat, feed) && out == Flat(feed.Answered(d))
  {
    out := Run(d, seat.cache, x, feed.fed, feed.next, feed.level);
  }

  lemma SeatRows(d: Decoder, feeds: seq<Feed>, at: nat)
    requires at < |feeds| && feeds[at].Fits(d)
    ensures |feeds[at].next| * d.Hidden() == |Flat(feeds[at].next)|
    ensures |Flat(Flat(News(feeds)[..at]))| + |Flat(feeds[at].next)| <= |Flat(Flat(News(feeds)))|
    ensures Flat(Flat(News(feeds)))[|Flat(Flat(News(feeds)[..at]))|..|Flat(Flat(News(feeds)[..at]))|
                                    + |Flat(feeds[at].next)|]
         == Flat(feeds[at].next)
    ensures |Flat(Flat(News(feeds)[..at + 1]))| == |Flat(Flat(News(feeds)[..at]))| + |Flat(feeds[at].next)|
  {
    RunOf(News(feeds), at);
    FlatLength(feeds[at].next, d.Hidden());
  }

  /** The first `at` seats of a call served, and the rest still owed. */
  ghost predicate Halfway(d: Decoder, seats: seq<Seat>, feeds: seq<Feed>, at: nat)
    requires |feeds| == |seats|
    reads Footprint(seats)
  {
    forall s :: 0 <= s < |seats| ==> if s < at then Served(d, seats[s], feeds[s]) else Owes(d, seats[s], feeds[s])
  }

  method RunOne(d: Decoder, seats: seq<Seat>, at: nat, x: seq<real>, ghost feeds: seq<Feed>) returns (out: seq<real>)
    requires |feeds| == |seats| && Apart(seats) && at < |seats| && x == Flat(feeds[at].next)
    requires Halfway(d, seats, feeds, at)
    modifies seats[at].cache.Repr
    ensures Halfway(d, seats, feeds, at + 1)
    ensures feeds[at].Fits(d) && out == Flat(feeds[at].Answered(d))
  {
    out := RunSeat(d, seats[at], x, feeds[at]);
  }

  /** Every seat is answered what it is answered alone, in the order the seats are named, and its cache
    * advanced by its own rows. */
  method Severally(d: Decoder, seats: seq<Seat>, x: seq<real>, ghost feeds: seq<Feed>) returns (out: seq<real>)
    requires |feeds| == |seats| && Apart(seats) && AllFit(d, feeds) && x == Flat(Flat(News(feeds)))
    requires Halfway(d, seats, feeds, 0)
    modifies Footprint(seats)
    ensures Halfway(d, seats, feeds, |seats|)
    ensures out == Flat(Flat(AllAnswered(d, feeds)))
  {
    ghost var news, answers := News(feeds), AllAnswered(d, feeds);
    out := [];
    var from := 0;
    for at := 0 to |seats|
      invariant Halfway(d, seats, feeds, at)
      invariant from == |Flat(Flat(news[..at]))| && out == Flat(Flat(answers[..at]))
    {
      SeatRows(d, feeds, at);
      RunOf(answers, at);
      assert Owes(d, seats[at], feeds[at]);
      var take := seats[at].queries * d.Hidden();
      var own := RunOne(d, seats, at, x[from..from + take], feeds);
      out := out + own;
      from := from + take;
    }
    assert answers[..|seats|] == answers;
  }
}
