/** The model: ids embedded, decoder layers in turn, a final norm, and a pick from the row that comes out of
  * it; with one cache a layer. */
module Model {
  import opened Buffers
  import opened Ops
  import opened Attention
  import opened Layers

  type Id = nat

  /** A key to what a whole stack computes and holds, as `Sconv.WindowKey` is to a window. */
  ghost predicate StackKey(key: nat) { true }

  /** `embed` is an embedding row per id and `pick` is the head and the argmax behind it. */
  datatype Net = Net(layers: seq<Decoder>, hidden: nat, kernelSize: nat, embed: Id -> Row, norm: Op, pick: Row -> Id) {
    ghost predicate Valid() {
      && hidden > 0 && kernelSize > 0 && norm.width == hidden
      && forall l {:trigger Fitted(l)} :: 0 <= l < |layers| ==> Fitted(l)
    }

    /** Layer `l` carries the model's hidden state, and its windows are as long as every other's. */
    ghost predicate Fitted(l: nat)
      requires l < |layers|
    {
      layers[l].Valid() && layers[l].Hidden() == hidden && layers[l].attention.kSconv.kernelSize == kernelSize
    }

    function Embedded(id: Id): (row: Row)
      ensures |row| == hidden
    {
      Fit(embed(id), hidden)
    }

    ghost function Embeddings(ids: seq<Id>): (rows: seq<Row>)
      ensures |rows| == |ids| && Wide(rows, hidden)
      ensures forall i :: 0 <= i < |ids| ==> rows[i] == Embedded(ids[i])
    {
      seq(|ids|, i requires 0 <= i < |ids| => Embedded(ids[i]))
    }

    /** What layer `l` is handed over a whole sequence of ids, from no cache at all. */
    ghost function Acts(ids: seq<Id>, l: nat): (rows: seq<Row>)
      requires Valid() && l <= |layers|
      ensures |rows| == |ids| && Wide(rows, hidden)
    {
      if l == 0 then Embeddings(ids)
      else
        assert Fitted(l - 1);
        layers[l - 1].Answers(Acts(ids, l - 1))
    }

    /** The normed state of every position. */
    ghost function Normed(ids: seq<Id>): (rows: seq<Row>)
      requires Valid()
      ensures |rows| == |ids| && Wide(rows, hidden)
    {
      norm.Mapped(Acts(ids, |layers|))
    }

    /** The id that follows a sequence: the argmax at its last position, had it been fed whole.  Kept
      * behind a key, as a layer's answers are. */
    ghost function Next(ids: seq<Id>): Id
      requires Valid() && ids != []
    {
      assert Follows(ids, pick(Normed(ids)[|ids| - 1]));
      var id :| Follows(ids, id);
      id
    }

    ghost predicate Follows(ids: seq<Id>, id: Id)
      requires Valid() && ids != []
    {
      forall key {:trigger StackKey(key)} :: StackKey(key) ==> id == pick(Normed(ids)[|ids| - 1])
    }

    /** Feeding more changes nothing at the positions already fed, at any depth of the stack. */
    lemma {:induction false} ActsCausal(ids: seq<Id>, more: seq<Id>, l: nat)
      requires Valid() && l <= |layers|
      ensures Begins(Acts(ids, l), Acts(ids + more, l))
    {
      if l > 0 {
        ActsCausal(ids, more, l - 1);
        var before, after := Acts(ids, l - 1), Acts(ids + more, l - 1);
        SplitAt(before, after);
        assert Fitted(l - 1);
        LayerCausal(layers[l - 1], before, after[|before|..]);
      }
    }

    lemma ActsCut(ids: seq<Id>, left: nat, l: nat)
      requires Valid() && l <= |layers| && left <= |ids|
      ensures Acts(ids, l)[..left] == Acts(ids[..left], l)
    {
      assert ids == ids[..left] + ids[left..];
      ActsCausal(ids[..left], ids[left..], l);
    }

    /** So a position's normed state, and the id taken from it, are those of the ids up to it. */
    lemma NormedCausal(ids: seq<Id>, more: seq<Id>)
      requires Valid()
      ensures Normed(ids + more)[..|ids|] == Normed(ids)
      ensures ids != [] ==> pick(Normed(ids + more)[|ids| - 1]) == Next(ids)
    {
      assert StackKey(0);
      ActsCausal(ids, more, |layers|);
      forall t | 0 <= t < |ids|
        ensures Normed(ids + more)[t] == Normed(ids)[t]
      {
        BeginsAt(Acts(ids, |layers|), Acts(ids + more, |layers|), t);
      }
    }
  }

  /** Where a sequence stands: what it has been fed, and how far back its windows still reach. */
  datatype Position = Position(ids: seq<Id>, level: Level) {
    function Fed(more: seq<Id>): Position {
      Position(ids + more, level.Advanced(|more|))
    }

    ghost predicate CanGiveBack(rows: nat) {
      level.Valid() && rows <= |ids| && rows <= level.Rewindable()
    }

    function Back(rows: nat): Position
      requires rows <= |ids| && rows <= level.kept
    {
      Position(ids[..|ids| - rows], level.(kept := level.kept - rows))
    }
  }

  /** Where a new sequence stands, able to give back `slack` timesteps. */
  function Start(net: Net, slack: nat): Position
    requires net.kernelSize > 0
  {
    Position([], Level(net.kernelSize - 1, slack, net.kernelSize - 1 + slack))
  }

  ghost function StackRepr(layers: seq<DecoderCache>): set<object> {
    set l, o | 0 <= l < |layers| && o in layers[l].Repr :: o
  }

  /** No two layers share a window or a span. */
  ghost predicate Separate(layers: seq<DecoderCache>) {
    forall l, m :: 0 <= l < |layers| && 0 <= m < |layers| && l != m ==> layers[l].Repr !! layers[m].Repr
  }

  /** `layer` is at depth `l` of the stack, and stands where a sequence has brought it. */
  ghost predicate Reached(net: Net, layer: DecoderCache, l: nat, at: Position)
    reads layer.Repr
  {
    net.Valid() && l < |net.layers| && layer.Holds(net.layers[l], net.Acts(at.ids, l), at.level)
  }

  /** The layers below `index` stand at `to`, and the rest still at `from`. */
  ghost predicate Moving(net: Net, layers: seq<DecoderCache>, from: Position, to: Position, index: nat)
    reads StackRepr(layers)
  {
    forall l :: 0 <= l < |layers| ==> Reached(net, layers[l], l, if l < index then to else from)
  }

  lemma StackPush(net: Net, layers: seq<DecoderCache>, layer: DecoderCache, at: Position)
    requires Moving(net, layers, at, at, 0) && Reached(net, layer, |layers|, at)
    ensures Moving(net, layers + [layer], at, at, 0)
  {
    var longer := layers + [layer];
    assert forall l :: 0 <= l < |layers| ==> longer[l] == layers[l];
  }

  lemma SeparatePush(layers: seq<DecoderCache>, layer: DecoderCache)
    requires Separate(layers) && layer.Repr !! StackRepr(layers)
    ensures Separate(layers + [layer])
    ensures StackRepr(layers + [layer]) == StackRepr(layers) + layer.Repr
  {
    var longer := layers + [layer];
    assert longer[|layers|] == layer;
    forall l | 0 <= l < |layers|
      ensures layers[l].Repr <= StackRepr(layers) && longer[l] == layers[l]
    {
    }
  }

  method OneMore(net: Net, built: seq<DecoderCache>, slack: nat) returns (layer: DecoderCache)
    requires net.Valid() && |built| < |net.layers| && Moving(net, built, Start(net, slack), Start(net, slack), 0)
    ensures fresh(layer.Repr)
    ensures Moving(net, built + [layer], Start(net, slack), Start(net, slack), 0)
  {
    assert net.Fitted(|built|);
    layer := new DecoderCache(net.layers[|built|], slack);
    assert net.Acts([], |built|) == [];
    StackPush(net, built, layer, Start(net, slack));
  }

  /** Where a sequence was, in every layer. */
  datatype CacheMark = CacheMark(layers: seq<LayerMark>) {
    ghost predicate Of(net: Net, at: Position) {
      net.Valid() && |layers| == |net.layers| && forall l :: 0 <= l < |layers| ==> MarkedAt(net, layers[l], l, at)
    }
  }

  ghost predicate MarkedAt(net: Net, mark: LayerMark, l: nat, at: Position) {
    net.Valid() && l < |net.layers| && mark.Of(net.layers[l], net.Acts(at.ids, l), at.level)
  }

  method MarkLayer(layer: DecoderCache, ghost net: Net, ghost l: nat, ghost at: Position) returns (mark: LayerMark)
    requires Reached(net, layer, l, at)
    ensures MarkedAt(net, mark, l, at)
  {
    mark := layer.Mark(net.layers[l], net.Acts(at.ids, l), at.level);
  }

  /** A sequence's caches, one for each layer and all disjoint. */
  class ModelCache {
    const layers: seq<DecoderCache>

    ghost const Repr: set<object>

    /** The cache of a sequence standing at `at`: every layer at the same position. */
    ghost predicate Holds(net: Net, at: Position)
      reads Repr
    {
      && net.Valid() && at.level.Valid() && at.level.window == net.kernelSize - 1
      && forall key {:trigger StackKey(key)} :: StackKey(key) ==> Whole(net, at)
    }

    ghost predicate Whole(net: Net, at: Position)
      reads Repr
    {
      Sound(net) && Moving(net, layers, at, at, 0)
    }

    /** A layer's cache per layer of the model, none of them sharing anything. */
    ghost predicate Sound(net: Net) {
      |layers| == |net.layers| && Separate(layers) && Repr == StackRepr(layers)
    }

    /** Every layer's cache at the empty sequence, with room for `slack` rows to be taken back. */
    constructor (net: Net, slack: nat)
      requires net.Valid()
      ensures fresh(Repr)
      ensures Holds(net, Start(net, slack))
    {
      var built: seq<DecoderCache> := [];
      for l := 0 to |net.layers|
        invariant |built| == l && fresh(StackRepr(built))
        invariant Moving(net, built, Start(net, slack), Start(net, slack), 0) && Separate(built)
      {
        var layer := OneMore(net, built, slack);
        SeparatePush(built, layer);
        built := built + [layer];
      }
      layers := built;
      Repr := StackRepr(built);
    }

    /** Every layer's cache at the sequence without its last `rows` ids. */
    method Rewind(rows: nat, ghost net: Net, ghost at: Position)
      requires Holds(net, at) && at.CanGiveBack(rows)
      modifies Repr
      ensures Holds(net, at.Back(rows))
    {
      assert StackKey(0);
      for l := 0 to |layers|
        invariant Moving(net, layers, at, at.Back(rows), l)
      {
        RewindLayer(layers, l, rows, net, at);
      }
    }

    method Mark(ghost net: Net, ghost at: Position) returns (mark: CacheMark)
      requires Holds(net, at)
      ensures mark.Of(net, at)
    {
      assert StackKey(0);
      var marks: seq<LayerMark> := [];
      for l := 0 to |layers|
        invariant |marks| == l
        invariant forall m :: 0 <= m < l ==> MarkedAt(net, marks[m], m, at)
      {
        var mark := MarkLayer(layers[l], net, l, at);
        marks := marks + [mark];
      }
      mark := CacheMark(marks);
    }

    /** Every layer's cache at the marked sequence again, for any ids fed since. */
    method Resume(mark: CacheMark, ghost net: Net, ghost at: Position, ghost marked: Position, ghost later: seq<Id>)
      requires Holds(net, at) && mark.Of(net, marked) && at.ids == marked.ids + later
      requires marked.level.Valid() && marked.level.window == at.level.window && marked.level.slack == at.level.slack
      modifies Repr
      ensures Holds(net, marked)
    {
      assert StackKey(0);
      for l := 0 to |layers|
        invariant Moving(net, layers, at, marked, l)
      {
        ResumeLayer(layers, l, mark.layers[l], net, at, marked, later);
      }
    }
  }

  /** Two caches that hold the same ids agree in every layer, however each of them came to hold them. */
  lemma SameStack(net: Net, a: ModelCache, b: ModelCache, p: Position, q: Position)
    requires a.Holds(net, p) && b.Holds(net, q) && p.ids == q.ids
    ensures |a.layers| == |b.layers| == |net.layers|
    ensures forall l :: 0 <= l < |net.layers| ==>
      Alike(a.layers[l], b.layers[l]) && a.layers[l].attention.cached == |p.ids|
  {
    assert StackKey(0);
    forall l | 0 <= l < |net.layers|
      ensures Alike(a.layers[l], b.layers[l]) && a.layers[l].attention.cached == |p.ids|
    {
      assert Reached(net, a.layers[l], l, p) && Reached(net, b.layers[l], l, q);
      SameState(net.layers[l], net.Acts(p.ids, l), a.layers[l], b.layers[l], p.level, q.level);
    }
  }

  method RewindLayer(layers: seq<DecoderCache>, l: nat, rows: nat, ghost net: Net, ghost at: Position)
    requires l < |layers| && Separate(layers) && at.CanGiveBack(rows) && Moving(net, layers, at, at.Back(rows), l)
    modifies layers[l].Repr
    ensures Moving(net, layers, at, at.Back(rows), l + 1)
  {
    assert Reached(net, layers[l], l, at);
    RewindReached(layers[l], rows, net, l, at);
  }

  method RewindReached(layer: DecoderCache, rows: nat, ghost net: Net, ghost l: nat, ghost at: Position)
    requires Reached(net, layer, l, at) && at.CanGiveBack(rows)
    modifies layer.Repr
    ensures Reached(net, layer, l, at.Back(rows))
  {
    net.ActsCut(at.ids, |at.ids| - rows, l);
    layer.Rewind(rows, net.layers[l], net.Acts(at.ids, l), at.level);
  }

  method ResumeLayer(layers: seq<DecoderCache>, l: nat, mark: LayerMark, ghost net: Net,
                     ghost at: Position, ghost marked: Position, ghost later: seq<Id>)
    requires l < |layers| && Separate(layers) && Moving(net, layers, at, marked, l)
    requires MarkedAt(net, mark, l, marked)
    requires at.ids == marked.ids + later
    requires marked.level.window == at.level.window && marked.level.slack == at.level.slack
    modifies layers[l].Repr
    ensures Moving(net, layers, at, marked, l + 1)
  {
    assert Reached(net, layers[l], l, at);
    net.ActsCausal(marked.ids, later, l);
    ghost var before, after := net.Acts(marked.ids, l), net.Acts(at.ids, l);
    SplitAt(before, after);
    layers[l].Resume(mark, net.layers[l], before, after[|before|..], at.level, marked.level);
  }
}
