/** Greedy generation: the back of the model, and the loop that turns ids into ids with a proposer
  * allowed to guess ahead of it. */
module Generation {
  import opened Buffers
  import opened Model
  import opened Batches

  /** How many of the last rows of a call are answered with an id, and whether every normed row is handed back
    * too. */
  datatype Tail = Tail(block: nat, chained: bool)

  datatype Tailed = Tailed(normed: seq<real>, picks: seq<Id>)

  /** The id taken from each row. */
  ghost function Taken(net: Net, rows: seq<Row>): (ids: seq<Id>)
    ensures |ids| == |rows|
    ensures forall i :: 0 <= i < |rows| ==> ids[i] == net.pick(net.norm.Run(rows[i]))
  {
    seq<Id>(|rows|, i requires 0 <= i < |rows| => net.pick(net.norm.Run(rows[i])))
  }

  /** What the model says follows each of `ids`, fed after `past`: every answer is to the question
    * "what follows everything up to and including this row". */
  ghost function Picks(net: Net, past: seq<Id>, ids: seq<Id>): (picks: seq<Id>)
    requires net.Valid()
    ensures |picks| == |ids|
    ensures forall i :: 0 <= i < |ids| ==> picks[i] == net.Next(past + ids[..i + 1])
  {
    seq(|ids|, i requires 0 <= i < |ids| => net.Next(past + ids[..i + 1]))
  }

  /** The normed states of `ids`, fed after `past`. */
  ghost function States(net: Net, past: seq<Id>, ids: seq<Id>): (rows: seq<Row>)
    requires net.Valid()
    ensures |rows| == |ids| && Wide(rows, net.hidden)
  {
    net.Normed(past + ids)[|past|..]
  }

  /** A pass over many rows takes at each of them what a decode step would have taken there. */
  lemma PassAnswers(net: Net, past: seq<Id>, ids: seq<Id>)
    requires net.Valid()
    ensures Taken(net, net.Acts(past + ids, |net.layers|)[|past|..]) == Picks(net, past, ids)
    ensures net.norm.Mapped(net.Acts(past + ids, |net.layers|)[|past|..]) == States(net, past, ids)
  {
    var rows := net.Acts(past + ids, |net.layers|)[|past|..];
    forall i | 0 <= i < |ids|
      ensures Taken(net, rows)[i] == Picks(net, past, ids)[i]
    {
      assert past + ids == (past + ids[..i + 1]) + ids[i + 1..];
      net.NormedCausal(past + ids[..i + 1], ids[i + 1..]);
    }
  }

  /** The id picked for each of `count` normed rows laid flat. */
  method TakeBlock(net: Net, block: seq<real>, count: nat, ghost rows: seq<Row>) returns (picks: seq<Id>)
    requires net.hidden > 0 && net.norm.width == net.hidden && |rows| == count && block == Flat(net.norm.Mapped(rows))
    ensures picks == Taken(net, rows)
  {
    picks := [];
    for i := 0 to count
      invariant picks == Taken(net, rows)[..i]
    {
      FlatRow(net.norm.Mapped(rows), net.hidden, i);
      picks := picks + [net.pick(block[i * net.hidden..i * net.hidden + net.hidden])];
    }
  }

  lemma LastRows(rows: seq<Row>, width: nat, block: nat)
    requires Wide(rows, width) && block <= |rows|
    ensures 0 <= |Flat(rows)| - block * width <= |Flat(rows)|
    ensures Flat(rows)[|Flat(rows)| - block * width..] == Flat(rows[|rows| - block..])
  {
    var front, back := rows[..|rows| - block], rows[|rows| - block..];
    assert rows == front + back;
    FlatAppend(front, back);
    FlatLength(back, width);
    Tailing(Flat(front), Flat(back), block * width);
  }

  lemma Tailing<T>(front: seq<T>, back: seq<T>, length: nat)
    requires |back| == length
    ensures (front + back)[|front + back| - length..] == back
  {
  }

  /** The tail over rows the last layer left: the whole state normed, and an id for each row of the
    * block. */
  method OnThisSide(net: Net, h: seq<real>, want: Tail, ghost rows: seq<Row>) returns (tailed: Tailed)
    requires net.hidden > 0 && net.norm.width == net.hidden && Wide(rows, net.hidden) && h == Flat(rows)
    requires want.block <= |rows|
    ensures tailed.normed == if want.chained then Flat(net.norm.Mapped(rows)) else []
    ensures tailed.picks == Taken(net, rows[|rows| - want.block..])
  {
    var normed := net.norm.Over(h, net.hidden, rows);
    LastRows(net.norm.Mapped(rows), net.hidden, want.block);
    assert net.norm.Mapped(rows)[|rows| - want.block..] == net.norm.Mapped(rows[|rows| - want.block..]);
    var picks := TakeBlock(net, normed[|normed| - want.block * net.hidden..], want.block, rows[|rows| - want.block..]);
    tailed := Tailed(if want.chained then normed else [], picks);
  }

  lemma OneSequence(net: Net, one: Batched, at: Position)
    requires net.Valid()
    ensures BatchRepr([one]) == one.cache.Repr && Distinct([one])
    ensures Flat(Wave(net, [one], [at], |net.layers|)) == Came(net, one, at, |net.layers|)
  {
    var wave := Wave(net, [one], [at], |net.layers|);
    assert wave == [] + [wave[0]];
    FlatPush([], wave[0]);
    assert [one][0] == one;
  }

  /** One sequence's call: the ids of its last `block` rows, and its normed rows if they were wanted. */
  method TailedOne(net: Net, cache: ModelCache, ids: seq<Id>, want: Tail, ghost at: Position) returns (tailed: Tailed)
    requires net.Valid() && ids != [] && want.block <= |ids| && cache.Holds(net, at)
    modifies cache.Repr
    ensures cache.Holds(net, at.Fed(ids))
    ensures tailed.normed == if want.chained then Flat(States(net, at.ids, ids)) else []
    ensures tailed.picks == Picks(net, at.ids, ids)[|ids| - want.block..]
  {
    var one := Batched(cache, ids);
    OneSequence(net, one, at);
    assert [one][0] == one && AllReady(net, [one], [at]);
    var h := ForwardBatch(net, [one], [at]);
    assert [one][0].cache.Holds(net, [at][0].Fed([one][0].ids));
    ghost var rows := Came(net, one, at, |net.layers|);
    PassAnswers(net, at.ids, ids);
    tailed := OnThisSide(net, h, want, rows);
    assert Taken(net, rows[|rows| - want.block..]) == Taken(net, rows)[|rows| - want.block..];
  }

  /** A prompt's keys, without the token that follows them. */
  method Prefill(net: Net, cache: ModelCache, ids: seq<Id>, ghost at: Position)
    requires net.Valid() && ids != [] && cache.Holds(net, at)
    modifies cache.Repr
    ensures cache.Holds(net, at.Fed(ids))
  {
    var _ := TailedOne(net, cache, ids, Tail(1, false), at);
  }

  ghost function AllPicks(net: Net, batch: seq<Batched>, ats: seq<Position>): (picks: seq<seq<Id>>)
    requires net.Valid() && |ats| == |batch|
    ensures |picks| == |batch|
    ensures forall s :: 0 <= s < |batch| ==> picks[s] == Picks(net, ats[s].ids, batch[s].ids)
  {
    seq(|batch|, s requires 0 <= s < |batch| => Picks(net, ats[s].ids, batch[s].ids))
  }

  ghost function AllStates(net: Net, batch: seq<Batched>, ats: seq<Position>): (states: seq<seq<Row>>)
    requires net.Valid() && |ats| == |batch|
    ensures |states| == |batch|
    ensures forall s :: 0 <= s < |batch| ==> states[s] == States(net, ats[s].ids, batch[s].ids)
  {
    seq(|batch|, s requires 0 <= s < |batch| => States(net, ats[s].ids, batch[s].ids))
  }

  lemma {:induction false} TakenTogether(net: Net, wave: seq<seq<Row>>, picks: seq<seq<Id>>, states: seq<seq<Row>>)
    requires |wave| == |picks| == |states|
    requires forall s :: 0 <= s < |wave| ==> Taken(net, wave[s]) == picks[s] && net.norm.Mapped(wave[s]) == states[s]
    ensures Taken(net, Flat(wave)) == Flat(picks) && net.norm.Mapped(Flat(wave)) == Flat(states)
  {
    if wave != [] {
      TakenTogether(net, wave[1..], picks[1..], states[1..]);
      assert Taken(net, wave[0] + Flat(wave[1..])) == Taken(net, wave[0]) + Taken(net, Flat(wave[1..]));
      net.norm.MappedAppend(wave[0], Flat(wave[1..]));
    }
  }

  lemma BatchAnswers(net: Net, batch: seq<Batched>, ats: seq<Position>)
    requires net.Valid() && |ats| == |batch|
    ensures Wide(Flat(Wave(net, batch, ats, |net.layers|)), net.hidden)
    ensures Taken(net, Flat(Wave(net, batch, ats, |net.layers|))) == Flat(AllPicks(net, batch, ats))
    ensures net.norm.Mapped(Flat(Wave(net, batch, ats, |net.layers|))) == Flat(AllStates(net, batch, ats))
  {
    var wave := Wave(net, batch, ats, |net.layers|);
    forall s | 0 <= s < |batch|
      ensures Taken(net, wave[s]) == AllPicks(net, batch, ats)[s]
          && net.norm.Mapped(wave[s]) == AllStates(net, batch, ats)[s]
    {
      PassAnswers(net, ats[s].ids, batch[s].ids);
    }
    TakenTogether(net, wave, AllPicks(net, batch, ats), AllStates(net, batch, ats));
    FlatWide(wave, net.hidden);
  }

  lemma {:induction false} FlatWide(planes: seq<seq<Row>>, width: nat)
    requires forall p :: 0 <= p < |planes| ==> Wide(planes[p], width)
    ensures Wide(Flat(planes), width)
  {
    if planes != [] {
      FlatWide(planes[1..], width);
    }
  }

  /** A batch's call: the ids of its last `block` rows, over all the sequences laid end to end. */
  method AskedOf(net: Net, batch: seq<Batched>, want: Tail, ghost ats: seq<Position>) returns (tailed: Tailed)
    requires net.Valid() && batch != [] && Distinct(batch) && AllReady(net, batch, ats)
    requires want.block <= |Flat(AllPicks(net, batch, ats))|
    modifies BatchRepr(batch)
    ensures AllFed(net, batch, ats)
    ensures tailed.normed == if want.chained then Flat(Flat(AllStates(net, batch, ats))) else []
    ensures tailed.picks == Flat(AllPicks(net, batch, ats))[|Flat(AllPicks(net, batch, ats))| - want.block..]
  {
    var h := ForwardBatch(net, batch, ats);
    ghost var rows := Flat(Wave(net, batch, ats, |net.layers|));
    BatchAnswers(net, batch, ats);
    tailed := OnThisSide(net, h, want, rows);
    TakenFrom(net, rows, |rows| - want.block);
  }

  lemma TakenFrom(net: Net, rows: seq<Row>, from: nat)
    requires Wide(rows, net.norm.width) && from <= |rows|
    ensures Taken(net, rows[from..]) == Taken(net, rows)[from..]
  {
  }

  /** A sequence's share of a call's answers: the ids, and the index in the call of the first row they answer. */
  datatype Picked = Picked(first: nat, picks: seq<Id>)

  datatype Verified = Verified(picked: seq<Picked>, normed: seq<real>)

  /** Every sequence of a call is answered for its own rows and no other's. */
  ghost predicate PickedOwn(net: Net, batch: seq<Batched>, ats: seq<Position>, picked: seq<Picked>)
    requires net.Valid() && |ats| == |batch|
  {
    && |picked| <= |batch|
    && forall s :: 0 <= s < |picked| ==>
         picked[s] == Picked(|Flat(Given(batch)[..s])|, Picks(net, ats[s].ids, batch[s].ids))
  }

  method CountRows(batch: seq<Batched>) returns (rows: nat)
    ensures rows == |Flat(Given(batch))|
  {
    rows := 0;
    for s := 0 to |batch|
      invariant rows == |Flat(Given(batch)[..s])|
    {
      RunAt(Given(batch), s);
      rows := rows + |batch[s].ids|;
    }
    assert Given(batch)[..|batch|] == Given(batch);
  }

  /** Every sequence of the call answered at each of its rows, and the normed rows too where the proposer is
    * chained. */
  method VerifyBatch(net: Net, batch: seq<Batched>, chained: bool, ghost ats: seq<Position>)
    returns (verified: Verified)
    requires net.Valid() && batch != [] && Distinct(batch) && AllReady(net, batch, ats)
    modifies BatchRepr(batch)
    ensures AllFed(net, batch, ats)
    ensures |verified.picked| == |batch| && PickedOwn(net, batch, ats, verified.picked)
    ensures verified.normed == if chained then Flat(Flat(AllStates(net, batch, ats))) else []
  {
    var rows := CountRows(batch);
    SameRuns(Given(batch), AllPicks(net, batch, ats));
    var tailed := AskedOf(net, batch, Tail(rows, chained), ats);
    var picked := Share(net, batch, tailed.picks, ats);
    verified := Verified(picked, tailed.normed);
  }

  /** The call's ids handed back to the sequences whose rows they answer. */
  method Share(net: Net, batch: seq<Batched>, picks: seq<Id>, ghost ats: seq<Position>) returns (picked: seq<Picked>)
    requires net.Valid() && |ats| == |batch| && picks == Flat(AllPicks(net, batch, ats))
    ensures |picked| == |batch| && PickedOwn(net, batch, ats, picked)
  {
    var from := 0;
    picked := [];
    for s := 0 to |batch|
      invariant |picked| == s && from == |Flat(Given(batch)[..s])| && PickedOwn(net, batch, ats, picked)
    {
      RunAt(Given(batch), s);
      RunAt(AllPicks(net, batch, ats), s);
      SameRuns(Given(batch)[..s], AllPicks(net, batch, ats)[..s]);
      picked := picked + [Picked(from, picks[from..from + |batch[s].ids|])];
      from := from + |batch[s].ids|;
    }
  }

  /** The rows a sequence keeps, out of the call's: the first of them is its own first, not the
    * call's. */
  lemma OwnRows(net: Net, batch: seq<Batched>, ats: seq<Position>, s: nat, held: nat, from: nat, to: nat)
    requires net.Valid() && |ats| == |batch| && s < |batch| && held <= |batch[s].ids|
    requires var first := |Flat(Given(batch)[..s])|; from == first * net.hidden && to == (first + held) * net.hidden
    ensures from <= to <= |Flat(Flat(AllStates(net, batch, ats)))|
    ensures Flat(Flat(AllStates(net, batch, ats)))[from..to] == Flat(States(net, ats[s].ids, batch[s].ids)[..held])
  {
    var states := AllStates(net, batch, ats);
    SameRuns(Given(batch)[..s], states[..s]);
    RowsOfRun(states, s, net.hidden, held, from, to);
  }

  lemma RowsOfRun(runs: seq<seq<Row>>, s: nat, width: nat, held: nat, from: nat, to: nat)
    requires s < |runs| && held <= |runs[s]|
    requires forall r :: 0 <= r < |runs| ==> Wide(runs[r], width)
    requires var first := |Flat(runs[..s])|; from == first * width && to == (first + held) * width
    ensures from <= to <= |Flat(Flat(runs))|
    ensures Flat(Flat(runs))[from..to] == Flat(runs[s][..held])
  {
    var first, rows := |Flat(runs[..s])|, Flat(runs);
    FlatWide(runs, width);
    PartOfRun(runs, s, held);
    assert rows[first..first + held] == runs[s][..held];
    FlatPart(rows, width, first, first + held, from, to);
  }

  lemma PartOfRun(runs: seq<seq<Row>>, s: nat, held: nat)
    requires s < |runs| && held <= |runs[s]|
    ensures |Flat(runs[..s])| + held <= |Flat(runs)|
    ensures Flat(runs)[|Flat(runs[..s])|..|Flat(runs[..s])| + held] == runs[s][..held]
  {
    var first := |Flat(runs[..s])|;
    RunAt(runs, s);
    assert Flat(runs)[first..first + |runs[s]|][..held] == Flat(runs)[first..first + held];
  }

  /** A call whose last `decoding` sequences feed one row each: what is next after each of those, in their
    * order. */
  method StepAdmitting(net: Net, batch: seq<Batched>, decoding: nat, ghost ats: seq<Position>) returns (picks: seq<Id>)
    requires net.Valid() && batch != [] && decoding <= |batch| && Distinct(batch) && AllReady(net, batch, ats)
    requires forall s :: |batch| - decoding <= s < |batch| ==> |batch[s].ids| == 1
    modifies BatchRepr(batch)
    ensures AllFed(net, batch, ats)
    ensures |picks| == decoding
    ensures forall s :: |batch| - decoding <= s < |batch| ==>
              picks[s - (|batch| - decoding)] == net.Next(ats[s].ids + batch[s].ids)
  {
    ghost var all, filling := Flat(AllPicks(net, batch, ats)), |batch| - decoding;
    DecodersLast(net, batch, decoding, ats, all, filling);
    var block := if decoding > 1 then decoding else 1;
    var tailed := AskedOf(net, batch, Tail(block, false), ats);
    picks := tailed.picks[|tailed.picks| - decoding..];
    TailOfTail(all, block, decoding, tailed.picks, picks);
  }

  lemma TailOfTail(all: seq<Id>, block: nat, decoding: nat, some: seq<Id>, few: seq<Id>)
    requires decoding <= block <= |all| && some == all[|all| - block..] && few == some[|some| - decoding..]
    ensures few == all[|all| - decoding..]
  {
  }

  /** The last rows of such a call are the decoders', in their order. */
  lemma DecodersLast(net: Net, batch: seq<Batched>, decoding: nat, ats: seq<Position>, all: seq<Id>, filling: nat)
    requires net.Valid() && batch != [] && filling + decoding == |batch| == |ats|
    requires forall s :: 0 <= s < |batch| ==> batch[s].ids != []
    requires forall s :: filling <= s < |batch| ==> |batch[s].ids| == 1
    requires all == Flat(AllPicks(net, batch, ats))
    ensures 1 <= |all| && decoding <= |all|
    ensures forall s :: filling <= s < |batch| ==>
              all[|all| - decoding..][s - filling] == net.Next(ats[s].ids + batch[s].ids)
  {
    var picks := AllPicks(net, batch, ats);
    LastSingles(picks, filling, decoding, all);
    forall s | filling <= s < |batch|
      ensures all[|all| - decoding..][s - filling] == net.Next(ats[s].ids + batch[s].ids)
    {
      assert batch[s].ids[..1] == batch[s].ids;
    }
  }

  /** Where the last runs are singles, they are the last of the flat sequence, in order. */
  lemma LastSingles(runs: seq<seq<Id>>, filling: nat, decoding: nat, all: seq<Id>)
    requires filling + decoding == |runs| > 0 && all == Flat(runs) && forall s :: 0 <= s < |runs| ==> runs[s] != []
    requires forall s :: filling <= s < |runs| ==> |runs[s]| == 1
    ensures 1 <= |all| && decoding <= |all|
    ensures forall s :: filling <= s < |runs| ==> all[|all| - decoding..][s - filling] == runs[s][0]
  {
    var front, back := runs[..filling], runs[filling..];
    assert runs == front + back;
    FlatAppend(front, back);
    FlatOfSingles(back);
    assert all[|all| - decoding..] == Flat(back);
    if decoding == 0 {
      RunAt(runs, 0);
    }
    forall s | filling <= s < |runs|
      ensures Flat(back)[s - filling] == runs[s][0]
    {
      assert back[s - filling] == runs[s];
    }
  }
}
