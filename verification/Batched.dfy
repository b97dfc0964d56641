/** Several sequences fed in one call: their ids embedded together, every layer over all of their
  * rows, and each row the one its sequence gets alone. */
module Batches {
  import opened Buffers
  import opened Layers
  import opened Model

  /** One sequence of a call, and what it is feeding. */
  datatype Batched = Batched(cache: ModelCache, ids: seq<Id>)

  ghost function BatchRepr(batch: seq<Batched>): set<object> {
    set s, o | 0 <= s < |batch| && o in batch[s].cache.Repr :: o
  }

  /** No two sequences of a call share a cache. */
  ghost predicate Distinct(batch: seq<Batched>) {
    forall s, r :: 0 <= s < |batch| && 0 <= r < |batch| && s != r ==> batch[s].cache.Repr !! batch[r].cache.Repr
  }

  /** A sequence that stands at `at` and has something to feed. */
  ghost predicate Ready(net: Net, one: Batched, at: Position)
    reads one.cache.Repr
  {
    one.ids != [] && one.cache.Holds(net, at)
  }

  ghost predicate AllReady(net: Net, batch: seq<Batched>, ats: seq<Position>)
    reads BatchRepr(batch)
  {
    |ats| == |batch| && forall s :: 0 <= s < |batch| ==> Ready(net, batch[s], ats[s])
  }

  /** What a call leaves behind: every sequence on by what it fed. */
  ghost predicate AllFed(net: Net, batch: seq<Batched>, ats: seq<Position>)
    reads BatchRepr(batch)
  {
    |ats| == |batch| && forall s :: 0 <= s < |batch| ==> batch[s].cache.Holds(net, ats[s].Fed(batch[s].ids))
  }

  /** Partway up the stack: a sequence's layers below `index` have been fed and the rest have not. */
  ghost predicate Climbed(net: Net, one: Batched, at: Position, index: nat)
    reads one.cache.Repr
  {
    one.ids != [] && one.cache.Sound(net) && Moving(net, one.cache.layers, at, at.Fed(one.ids), index)
  }

  ghost predicate AllClimbed(net: Net, batch: seq<Batched>, ats: seq<Position>, index: nat)
    reads BatchRepr(batch)
  {
    |ats| == |batch| && forall s :: 0 <= s < |batch| ==> Climbed(net, batch[s], ats[s], index)
  }

  /** What layer `l` is handed for the rows one sequence is feeding: its own, over the whole of what
    * it will have been fed. */
  ghost function Came(net: Net, one: Batched, at: Position, l: nat): (rows: seq<Row>)
    requires net.Valid() && l <= |net.layers|
    ensures |rows| == |one.ids| && Wide(rows, net.hidden)
  {
    net.Acts(at.ids + one.ids, l)[|at.ids|..]
  }

  ghost function Wave(net: Net, batch: seq<Batched>, ats: seq<Position>, l: nat): (rows: seq<seq<Row>>)
    requires net.Valid() && l <= |net.layers| && |ats| == |batch|
    ensures |rows| == |batch|
    ensures forall s :: 0 <= s < |batch| ==> rows[s] == Came(net, batch[s], ats[s], l)
  {
    seq(|batch|, s requires 0 <= s < |batch| => Came(net, batch[s], ats[s], l))
  }

  /** A sequence's feed to layer `l`. */
  ghost function FeedOf(net: Net, one: Batched, at: Position, l: nat): Feed
    requires net.Valid() && l <= |net.layers|
  {
    Feed(net.Acts(at.ids, l), Came(net, one, at, l), at.level)
  }

  ghost function Feeds(net: Net, batch: seq<Batched>, ats: seq<Position>, l: nat): (feeds: seq<Feed>)
    requires net.Valid() && l <= |net.layers| && |ats| == |batch|
    ensures |feeds| == |batch|
    ensures forall s :: 0 <= s < |batch| ==> feeds[s] == FeedOf(net, batch[s], ats[s], l)
    ensures News(feeds) == Wave(net, batch, ats, l)
  {
    seq(|batch|, s requires 0 <= s < |batch| => FeedOf(net, batch[s], ats[s], l))
  }

  /** Feeding a layer after what it has already been fed is feeding it the whole. */
  lemma FeedContinues(net: Net, one: Batched, at: Position, l: nat)
    requires net.Valid() && l < |net.layers| && one.ids != []
    ensures FeedOf(net, one, at, l).Fits(net.layers[l])
    ensures FeedOf(net, one, at, l).fed + FeedOf(net, one, at, l).next == net.Acts(at.ids + one.ids, l)
    ensures FeedOf(net, one, at, l).Answered(net.layers[l]) == Came(net, one, at, l + 1)
  {
    assert net.Fitted(l);
    net.ActsCausal(at.ids, one.ids, l);
    SplitAt(net.Acts(at.ids, l), net.Acts(at.ids + one.ids, l));
  }

  lemma FeedsContinue(net: Net, batch: seq<Batched>, ats: seq<Position>, l: nat)
    requires net.Valid() && l < |net.layers| && |ats| == |batch|
    requires forall s :: 0 <= s < |batch| ==> batch[s].ids != []
    ensures AllFit(net.layers[l], Feeds(net, batch, ats, l))
    ensures AllAnswered(net.layers[l], Feeds(net, batch, ats, l)) == Wave(net, batch, ats, l + 1)
  {
    var feeds := Feeds(net, batch, ats, l);
    forall s | 0 <= s < |batch|
      ensures feeds[s].Fits(net.layers[l]) && feeds[s].Answered(net.layers[l]) == Came(net, batch[s], ats[s], l + 1)
    {
      FeedContinues(net, batch[s], ats[s], l);
    }
  }

  /** The caches of one layer, sequence by sequence. */
  function Seats(batch: seq<Batched>, l: nat): (seats: seq<Seat>)
    requires forall s :: 0 <= s < |batch| ==> l < |batch[s].cache.layers|
    ensures |seats| == |batch|
    ensures forall s :: 0 <= s < |batch| ==> seats[s] == Seat(batch[s].cache.layers[l], |batch[s].ids|)
  {
    seq(|batch|, s requires 0 <= s < |batch| => Seat(batch[s].cache.layers[l], |batch[s].ids|))
  }

  ghost predicate AllSound(net: Net, batch: seq<Batched>) {
    forall s :: 0 <= s < |batch| ==> batch[s].cache.Sound(net)
  }

  lemma SeatsApart(net: Net, batch: seq<Batched>, l: nat)
    requires Distinct(batch) && AllSound(net, batch) && l < |net.layers|
    ensures Apart(Seats(batch, l)) && Footprint(Seats(batch, l)) <= BatchRepr(batch)
  {
    var seats := Seats(batch, l);
    forall s | 0 <= s < |batch|
      ensures seats[s].cache.Repr <= batch[s].cache.Repr
    {
    }
  }

  /** Running one layer leaves every other layer of every sequence alone. */
  lemma Elsewhere(net: Net, batch: seq<Batched>, l: nat, s: nat, m: nat)
    requires Distinct(batch) && AllSound(net, batch) && l < |net.layers|
    requires s < |batch| && m < |batch[s].cache.layers| && m != l
    ensures batch[s].cache.layers[m].Repr !! Footprint(Seats(batch, l))
  {
    var mine := batch[s].cache;
    assert mine.layers[m].Repr <= mine.Repr && mine.layers[m].Repr !! mine.layers[l].Repr;
    forall r | 0 <= r < |batch| && r != s
      ensures mine.Repr !! batch[r].cache.layers[l].Repr
    {
      assert batch[r].cache.layers[l].Repr <= batch[r].cache.Repr;
    }
  }

  lemma AllOwe(net: Net, batch: seq<Batched>, ats: seq<Position>, l: nat)
    requires l < |net.layers| && AllClimbed(net, batch, ats, l) && net.Valid() && AllSound(net, batch)
    ensures Halfway(net.layers[l], Seats(batch, l), Feeds(net, batch, ats, l), 0)
  {
    var seats, feeds := Seats(batch, l), Feeds(net, batch, ats, l);
    forall s | 0 <= s < |batch|
      ensures Owes(net.layers[l], seats[s], feeds[s])
    {
      assert Reached(net, batch[s].cache.layers[l], l, ats[s]);
      FeedContinues(net, batch[s], ats[s], l);
    }
  }

  lemma SeatServed(net: Net, one: Batched, at: Position, l: nat)
    requires net.Valid() && l < |net.layers| && one.ids != [] && l < |one.cache.layers|
    requires Served(net.layers[l], Seat(one.cache.layers[l], |one.ids|), FeedOf(net, one, at, l))
    ensures Reached(net, one.cache.layers[l], l, at.Fed(one.ids))
  {
    FeedContinues(net, one, at, l);
  }

  /** One layer over a call's rows, each sequence against its own cache. */
  method RunLayer(net: Net, batch: seq<Batched>, index: nat, h: seq<real>, ghost ats: seq<Position>)
    returns (next: seq<real>)
    requires net.Valid() && index < |net.layers| && Distinct(batch) && AllClimbed(net, batch, ats, index)
    requires h == Flat(Flat(Wave(net, batch, ats, index)))
    modifies BatchRepr(batch)
    ensures AllClimbed(net, batch, ats, index + 1)
    ensures next == Flat(Flat(Wave(net, batch, ats, index + 1)))
  {
    assert AllSound(net, batch);
    var seats := Seats(batch, index);
    ghost var feeds := Feeds(net, batch, ats, index);
    FeedsContinue(net, batch, ats, index);
    SeatsApart(net, batch, index);
    AllOwe(net, batch, ats, index);
    next := Severally(net.layers[index], seats, h, feeds);
    forall s, m | 0 <= s < |batch| && 0 <= m < |batch[s].cache.layers|
      ensures Reached(net, batch[s].cache.layers[m], m, if m < index + 1 then ats[s].Fed(batch[s].ids) else ats[s])
    {
      if m == index {
        assert Served(net.layers[index], seats[s], feeds[s]);
        SeatServed(net, batch[s], ats[s], index);
      } else {
        Elsewhere(net, batch, index, s, m);
        assert old(Reached(net, batch[s].cache.layers[m], m, if m < index then ats[s].Fed(batch[s].ids) else ats[s]));
      }
    }
  }

  /** Everything a call feeds, in the order it names its sequences. */
  ghost function Given(batch: seq<Batched>): (ids: seq<seq<Id>>)
    ensures |ids| == |batch|
    ensures forall s :: 0 <= s < |batch| ==> ids[s] == batch[s].ids
  {
    seq(|batch|, s requires 0 <= s < |batch| => batch[s].ids)
  }

  method GiveAll(batch: seq<Batched>) returns (ids: seq<Id>)
    ensures ids == Flat(Given(batch))
  {
    ids := [];
    for s := 0 to |batch|
      invariant ids == Flat(Given(batch)[..s])
    {
      FlatPush(Given(batch)[..s], batch[s].ids);
      assert Given(batch)[..s + 1] == Given(batch)[..s] + [batch[s].ids];
      ids := ids + batch[s].ids;
    }
    assert Given(batch)[..|batch|] == Given(batch);
  }

  method Embeddings(net: Net, ids: seq<Id>) returns (h: seq<real>)
    ensures h == Flat(net.Embeddings(ids))
  {
    h := [];
    for i := 0 to |ids|
      invariant h == Flat(net.Embeddings(ids[..i]))
    {
      assert net.Embeddings(ids[..i + 1]) == net.Embeddings(ids[..i]) + [net.Embedded(ids[i])];
      FlatPush(net.Embeddings(ids[..i]), net.Embedded(ids[i]));
      h := h + net.Embedded(ids[i]);
    }
    assert ids[..|ids|] == ids;
  }

  /** The first layer is handed each sequence's own embeddings. */
  lemma {:induction false} EmbeddedTogether(net: Net, batch: seq<Batched>, ats: seq<Position>)
    requires net.Valid() && |ats| == |batch|
    ensures net.Embeddings(Flat(Given(batch))) == Flat(Wave(net, batch, ats, 0))
  {
    if batch == [] {
    } else {
      var rest, after := batch[1..], ats[1..];
      EmbeddedTogether(net, rest, after);
      assert Given(batch)[1..] == Given(rest);
      assert Wave(net, batch, ats, 0)[1..] == Wave(net, rest, after, 0);
      assert Came(net, batch[0], ats[0], 0) == net.Embeddings(batch[0].ids);
      EmbeddedApart(net, batch[0].ids, Flat(Given(rest)));
    }
  }

  lemma EmbeddedApart(net: Net, a: seq<Id>, b: seq<Id>)
    requires net.Valid()
    ensures net.Embeddings(a + b) == net.Embeddings(a) + net.Embeddings(b)
  {
  }

  lemma AllStart(net: Net, batch: seq<Batched>, ats: seq<Position>)
    requires AllReady(net, batch, ats)
    ensures AllClimbed(net, batch, ats, 0) && Windows(net, ats)
  {
    assert StackKey(0);
    forall s | 0 <= s < |batch|
      ensures Climbed(net, batch[s], ats[s], 0)
    {
      assert Ready(net, batch[s], ats[s]);
      assert batch[s].cache.Whole(net, ats[s]);
      assert forall l :: 0 <= l < |batch[s].cache.layers| ==> Reached(net, batch[s].cache.layers[l], l, ats[s]);
    }
  }

  lemma AllArrive(net: Net, batch: seq<Batched>, ats: seq<Position>)
    requires net.Valid() && AllClimbed(net, batch, ats, |net.layers|)
    requires Windows(net, ats)
    ensures AllFed(net, batch, ats)
  {
    forall s | 0 <= s < |batch|
      ensures batch[s].cache.Holds(net, ats[s].Fed(batch[s].ids))
    {
      assert Climbed(net, batch[s], ats[s], |net.layers|);
      assert forall l :: 0 <= l < |batch[s].cache.layers| ==>
          Reached(net, batch[s].cache.layers[l], l, ats[s].Fed(batch[s].ids));
    }
  }

  /** Every layer in turn, each over the rows the last left. */
  method Climb(net: Net, batch: seq<Batched>, embedded: seq<real>, ghost ats: seq<Position>) returns (h: seq<real>)
    requires net.Valid() && Distinct(batch) && AllClimbed(net, batch, ats, 0)
    requires embedded == Flat(Flat(Wave(net, batch, ats, 0)))
    modifies BatchRepr(batch)
    ensures AllClimbed(net, batch, ats, |net.layers|)
    ensures h == Flat(Flat(Wave(net, batch, ats, |net.layers|)))
  {
    h := embedded;
    for index := 0 to |net.layers|
      invariant AllClimbed(net, batch, ats, index)
      invariant h == Flat(Flat(Wave(net, batch, ats, index)))
    {
      h := RunLayer(net, batch, index, h, ats);
    }
  }

  ghost predicate Windows(net: Net, ats: seq<Position>) {
    forall s :: 0 <= s < |ats| ==> ats[s].level.Valid() && ats[s].level.window == net.kernelSize - 1
  }

  /** A call over several sequences: the final rows of each, laid end to end in batch order, and every cache
    * advanced by its own ids. */
  method ForwardBatch(net: Net, batch: seq<Batched>, ghost ats: seq<Position>) returns (h: seq<real>)
    requires net.Valid() && batch != [] && Distinct(batch) && AllReady(net, batch, ats)
    modifies BatchRepr(batch)
    ensures AllFed(net, batch, ats)
    ensures h == Flat(Flat(Wave(net, batch, ats, |net.layers|)))
  {
    var ids := GiveAll(batch);
    h := Embeddings(net, ids);
    EmbeddedTogether(net, batch, ats);
    AllStart(net, batch, ats);
    h := Climb(net, batch, h, ats);
    AllArrive(net, batch, ats);
  }
}
