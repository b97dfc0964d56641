/** A batch of generations: every prompt fed alone, then one call a step over all that have not all their
  * tokens. */
module Together {
  import opened Buffers
  import opened Ops
  import opened Model
  import opened Batches
  import opened Generation
  import opened Speculation

  /** A sequence's position before its prompt, the prompt, and how many tokens it is owed. */
  datatype Wish = Wish(start: Position, prompt: seq<Id>, count: nat) {
    function Known(): seq<Id> { start.ids + prompt }
  }

  /** How far one sequence has come: what it has produced is what it produces alone, and its cache
    * stands at everything but the last of it. */
  ghost predicate Progress(net: Net, wish: Wish, produced: seq<Id>, now: Position) {
    && net.Valid() && Room(now, wish.start) && |produced| <= wish.count
    && if wish.count == 0 then now == wish.start
       else
         && wish.prompt != [] && produced != [] && Greedy(net, wish.Known(), produced)
         && now.ids == wish.Known() + produced[..|produced| - 1]
  }

  ghost predicate AllProgress(net: Net, wishes: seq<Wish>, produced: seq<seq<Id>>, nows: seq<Position>) {
    && |produced| == |nows| == |wishes|
    && forall at :: 0 <= at < |wishes| ==> Progress(net, wishes[at], produced[at], nows[at])
  }

  ghost function CachesRepr(caches: seq<ModelCache>): set<object> {
    set at, o | 0 <= at < |caches| && o in caches[at].Repr :: o
  }

  ghost predicate Unshared(caches: seq<ModelCache>) {
    forall at, or :: 0 <= at < |caches| && 0 <= or < |caches| && at != or ==> caches[at].Repr !! caches[or].Repr
  }

  ghost predicate AllHold(net: Net, caches: seq<ModelCache>, nows: seq<Position>)
    reads CachesRepr(caches)
  {
    |nows| == |caches| && forall at :: 0 <= at < |caches| ==> caches[at].Holds(net, nows[at])
  }

  /** Ascending positions in a batch. */
  ghost predicate Ascending(live: seq<nat>, n: nat) {
    && (forall i :: 0 <= i < |live| ==> live[i] < n)
    && forall i, j :: 0 <= i < j < |live| ==> live[i] < live[j]
  }

  /** The sequences that still owe tokens, in order. */
  method Live(produced: seq<seq<Id>>, counts: seq<nat>) returns (live: seq<nat>)
    requires |counts| == |produced|
    ensures Ascending(live, |produced|)
    ensures forall at :: 0 <= at < |produced| ==> (at in live <==> |produced[at]| < counts[at])
  {
    live := [];
    for at := 0 to |produced|
      invariant Ascending(live, at)
      invariant forall or :: 0 <= or < at ==> (or in live <==> |produced[or]| < counts[or])
    {
      if |produced[at]| < counts[at] {
        live := live + [at];
      }
    }
  }

  /** The live caches in the order they lie, each beside what it is feeding: taking them by a filter
    * over every cache and zipping that with the feeds keeps the two in step. */
  method Gather(caches: seq<ModelCache>, live: seq<nat>, feeding: seq<seq<Id>>) returns (batch: seq<Batched>)
    requires Ascending(live, |caches|) && |feeding| == |live|
    ensures |batch| == |live|
    ensures forall i :: 0 <= i < |live| ==> batch[i] == Batched(caches[live[i]], feeding[i])
  {
    batch := [];
    for at := 0 to |caches|
      invariant |batch| <= |live|
      invariant forall i :: 0 <= i < |batch| ==> live[i] < at && batch[i] == Batched(caches[live[i]], feeding[i])
      invariant forall i :: |batch| <= i < |live| ==> at <= live[i]
    {
      if at in live {
        var i :| 0 <= i < |live| && live[i] == at;
        assert |batch| <= i && forall j :: 0 <= j < i ==> live[j] < at;
        batch := batch + [Batched(caches[at], feeding[|batch|])];
      }
    }
  }

  /** Where the live sequences stand. */
  ghost function At<T>(all: seq<T>, live: seq<nat>): (some: seq<T>)
    requires forall i :: 0 <= i < |live| ==> live[i] < |all|
    ensures |some| == |live|
    ensures forall i :: 0 <= i < |live| ==> some[i] == all[live[i]]
  {
    seq(|live|, i requires 0 <= i < |live| => all[live[i]])
  }

  /** What a call to the live sequences leaves: each on by what it was fed, and the others alone. */
  ghost predicate Fed(net: Net, caches: seq<ModelCache>, nows: seq<Position>, live: seq<nat>, feeding: seq<seq<Id>>,
                      from: nat)
    requires |nows| == |caches| && |feeding| == |live| && Ascending(live, |caches|)
    reads CachesRepr(caches)
  {
    && (forall i :: from <= i < |live| ==> caches[live[i]].Holds(net, nows[live[i]].Fed(feeding[i])))
    && forall at :: 0 <= at < |caches| && (forall i :: from <= i < |live| ==> live[i] != at) ==>
      caches[at].Holds(net, nows[at])
  }

  lemma LiveApart(caches: seq<ModelCache>, live: seq<nat>, batch: seq<Batched>)
    requires Unshared(caches) && Ascending(live, |caches|) && |batch| == |live|
    requires forall i :: 0 <= i < |live| ==> batch[i].cache == caches[live[i]]
    ensures Distinct(batch) && BatchRepr(batch) <= CachesRepr(caches)
    ensures forall at :: 0 <= at < |caches| && at !in live ==> caches[at].Repr !! BatchRepr(batch)
  {
    forall i | 0 <= i < |live|
      ensures batch[i].cache.Repr <= CachesRepr(caches)
    {
      assert caches[live[i]].Repr <= CachesRepr(caches);
    }
  }

  /** One call over the live sequences. */
  method FeedLive(net: Net, caches: seq<ModelCache>, live: seq<nat>, feeding: seq<seq<Id>>, chained: bool,
                  ghost nows: seq<Position>)
    returns (verified: Verified, ghost batch: seq<Batched>)
    requires net.Valid() && Unshared(caches) && AllHold(net, caches, nows)
    requires live != [] && Ascending(live, |caches|) && |feeding| == |live|
    requires forall i :: 0 <= i < |live| ==> feeding[i] != []
    modifies CachesRepr(caches)
    ensures Fed(net, caches, nows, live, feeding, 0)
    ensures |batch| == |live| && forall i :: 0 <= i < |live| ==> batch[i] == Batched(caches[live[i]], feeding[i])
    ensures |verified.picked| == |live| && PickedOwn(net, batch, At(nows, live), verified.picked)
    ensures verified.normed == if chained then Flat(Flat(AllStates(net, batch, At(nows, live)))) else []
  {
    var gathered := Gather(caches, live, feeding);
    batch := gathered;
    LiveApart(caches, live, batch);
    ghost var ats := At(nows, live);
    assert AllReady(net, batch, ats);
    verified := VerifyBatch(net, gathered, chained, ats);
    forall i | 0 <= i < |live|
      ensures caches[live[i]].Holds(net, nows[live[i]].Fed(feeding[i]))
    {
      assert batch[i].cache.Holds(net, ats[i].Fed(batch[i].ids));
    }
    forall at | 0 <= at < |caches| && at !in live
      ensures caches[at].Holds(net, nows[at])
    {
      assert old(caches[at].Holds(net, nows[at]));
    }
  }

  ghost function Wishes(starts: seq<Position>, prompts: seq<seq<Id>>, counts: seq<nat>): (wishes: seq<Wish>)
    requires |starts| == |prompts| == |counts|
    ensures |wishes| == |starts|
    ensures forall at :: 0 <= at < |starts| ==> wishes[at] == Wish(starts[at], prompts[at], counts[at])
  {
    seq(|starts|, at requires 0 <= at < |starts| => Wish(starts[at], prompts[at], counts[at]))
  }

  /** What a prompt's own pass makes of a sequence: its first token. */
  lemma Opened(net: Net, wish: Wish, first: Id)
    requires net.Valid() && wish.count > 0 && wish.prompt != [] && wish.start.level.Valid()
    requires first == Picks(net, wish.start.ids, wish.prompt)[|wish.prompt| - 1]
    ensures Progress(net, wish, [first], wish.start.Fed(wish.prompt))
  {
    assert wish.prompt[..|wish.prompt|] == wish.prompt;
    assert wish.Known() + [] == wish.Known();
    GreedyPush(net, wish.Known(), [], first);
  }

  /** One prompt fed on its own. */
  method Open(net: Net, caches: seq<ModelCache>, at: nat, prompt: seq<Id>, chained: bool, ghost nows: seq<Position>)
    returns (tailed: Tailed)
    requires net.Valid() && at < |caches| && prompt != [] && Unshared(caches) && AllHold(net, caches, nows)
    modifies CachesRepr(caches)
    ensures AllHold(net, caches, nows[at := nows[at].Fed(prompt)])
    ensures tailed.normed == if chained then Flat(States(net, nows[at].ids, prompt)) else []
    ensures tailed.picks == [Picks(net, nows[at].ids, prompt)[|prompt| - 1]]
  {
    tailed := TailedOne(net, caches[at], prompt, Tail(1, chained), nows[at]);
    forall or | 0 <= or < |caches| && or != at
      ensures caches[or].Holds(net, nows[or])
    {
      assert old(caches[or].Holds(net, nows[or]));
    }
  }

  /** Tokens still owed by the first `n` sequences. */
  ghost function Owed(produced: seq<seq<Id>>, counts: seq<nat>, n: nat): nat
    requires n <= |produced| == |counts|
  {
    if n == 0 then 0
    else
      Owed(produced, counts, n - 1)
      + if |produced[n - 1]| < counts[n - 1] then counts[n - 1] - |produced[n - 1]| else 0
  }

  lemma {:induction false} OwedLess(before: seq<seq<Id>>, after: seq<seq<Id>>, counts: seq<nat>, at: nat, n: nat)
    requires at < |before| == |after| == |counts| && n <= |before|
    requires forall or :: 0 <= or < |before| ==> |before[or]| <= |after[or]|
    requires |before[at]| < |after[at]| <= counts[at]
    ensures Owed(after, counts, n) <= Owed(before, counts, n)
    ensures at < n ==> Owed(after, counts, n) < Owed(before, counts, n)
  {
    if n > 0 {
      OwedLess(before, after, counts, at, n - 1);
    }
  }

  lemma ProgressPush(net: Net, wish: Wish, produced: seq<Id>, now: Position, id: Id)
    requires Progress(net, wish, produced, now) && |produced| < wish.count
    requires id == net.Next(now.ids + [produced[|produced| - 1]])
    ensures Progress(net, wish, produced + [id], now.Fed([produced[|produced| - 1]]))
  {
    var last := produced[|produced| - 1];
    assert produced == produced[..|produced| - 1] + [last];
    assert now.ids + [last] == wish.Known() + produced;
    GreedyPush(net, wish.Known(), produced, id);
    assert (produced + [id])[..|produced|] == produced;
  }

  /** The token each live sequence feeds back. */
  function Lasts(produced: seq<seq<Id>>, live: seq<nat>): (feeding: seq<seq<Id>>)
    requires forall i :: 0 <= i < |live| ==> live[i] < |produced| && produced[live[i]] != []
    ensures |feeding| == |live|
    ensures forall i :: 0 <= i < |live| ==> feeding[i] == [produced[live[i]][|produced[live[i]]| - 1]]
  {
    seq(|live|, i requires 0 <= i < |live| => [produced[live[i]][|produced[live[i]]| - 1]])
  }

  /** One decode step of every sequence that still owes a token. */
  method StepLive(net: Net, caches: seq<ModelCache>, live: seq<nat>, produced: seq<seq<Id>>,
                  ghost wishes: seq<Wish>, ghost nows: seq<Position>)
    returns (after: seq<seq<Id>>, ghost thens: seq<Position>)
    requires net.Valid() && Unshared(caches) && AllHold(net, caches, nows) && |wishes| == |caches|
    requires AllProgress(net, wishes, produced, nows) && live != [] && Ascending(live, |caches|)
    requires forall i :: 0 <= i < |live| ==> 0 < |produced[live[i]]| < wishes[live[i]].count
    modifies CachesRepr(caches)
    ensures AllHold(net, caches, thens) && AllProgress(net, wishes, after, thens)
    ensures forall at :: 0 <= at < |produced| ==> |produced[at]| <= |after[at]|
    ensures |produced[live[0]]| < |after[live[0]]|
  {
    var feeding := Lasts(produced, live);
    var verified;
    ghost var batch;
    verified, batch := FeedLive(net, caches, live, feeding, false, nows);
    after := PushAll(net, live, produced, verified.picked, batch, nows);
    thens := Moved(nows, live, feeding);
    FedHolds(net, caches, nows, live, feeding);
    AllPushed(net, wishes, live, produced, after, nows);
  }

  lemma AllPushed(net: Net, wishes: seq<Wish>, live: seq<nat>, produced: seq<seq<Id>>, after: seq<seq<Id>>,
                  nows: seq<Position>)
    requires net.Valid() && AllProgress(net, wishes, produced, nows) && Ascending(live, |wishes|)
        && |after| == |produced|
    requires forall i :: 0 <= i < |live| ==> 0 < |produced[live[i]]| < wishes[live[i]].count
    requires Longer(net, live, produced, nows, after, |live|)
    ensures forall at :: 0 <= at < |produced| ==> |produced[at]| <= |after[at]|
    ensures |live| > 0 ==> |produced[live[0]]| < |after[live[0]]|
    ensures AllProgress(net, wishes, after, Moved(nows, live, Lasts(produced, live)))
  {
    var feeding := Lasts(produced, live);
    var thens := Moved(nows, live, feeding);
    assert live[..|live|] == live;
    if live != [] {
      assert LongerAt(net, produced, nows, after, live[0]);
    }
    forall at | 0 <= at < |wishes|
      ensures Progress(net, wishes[at], after[at], thens[at]) && |produced[at]| <= |after[at]|
    {
      if at in live {
        var i :| 0 <= i < |live| && live[i] == at;
        assert LongerAt(net, produced, nows, after, live[i]) && feeding[i] == [produced[at][|produced[at]| - 1]];
        Pushed(net, wishes[at], produced[at], nows[at], feeding[i], after[at], thens[at]);
      }
    }
  }

  lemma Pushed(net: Net, wish: Wish, produced: seq<Id>, now: Position, fed: seq<Id>, after: seq<Id>, moved: Position)
    requires Progress(net, wish, produced, now) && 0 < |produced| < wish.count && fed == [produced[|produced| - 1]]
    requires after == produced + [net.Next(now.ids + fed)] && moved == now.Fed(fed)
    ensures Progress(net, wish, after, moved)
  {
    ProgressPush(net, wish, produced, now, net.Next(now.ids + fed));
  }

  /** Where a call over the live sequences leaves all of them. */
  ghost function Moved(nows: seq<Position>, live: seq<nat>, feeding: seq<seq<Id>>): (thens: seq<Position>)
    requires Ascending(live, |nows|) && |feeding| == |live|
    ensures |thens| == |nows|
    ensures forall i :: 0 <= i < |live| ==> thens[live[i]] == nows[live[i]].Fed(feeding[i])
    ensures forall at :: 0 <= at < |nows| && at !in live ==> thens[at] == nows[at]
  {
    seq(|nows|, at requires 0 <= at < |nows| =>
      if at in live then (var i :| 0 <= i < |live| && live[i] == at; nows[at].Fed(feeding[i])) else nows[at])
  }

  lemma FedHolds(net: Net, caches: seq<ModelCache>, nows: seq<Position>, live: seq<nat>, feeding: seq<seq<Id>>)
    requires |nows| == |caches| && |feeding| == |live| && Ascending(live, |caches|)
    requires Fed(net, caches, nows, live, feeding, 0)
    ensures AllHold(net, caches, Moved(nows, live, feeding))
  {
    forall at | 0 <= at < |caches|
      ensures caches[at].Holds(net, Moved(nows, live, feeding)[at])
    {
      if at in live {
        var i :| 0 <= i < |live| && live[i] == at;
        assert caches[live[i]].Holds(net, nows[live[i]].Fed(feeding[i]));
      }
    }
  }

  /** Each live sequence's answer put behind what it has produced. */
  method PushAll(net: Net, live: seq<nat>, produced: seq<seq<Id>>, picked: seq<Picked>, ghost batch: seq<Batched>,
                 ghost nows: seq<Position>)
    returns (after: seq<seq<Id>>)
    requires net.Valid() && |nows| == |produced| && Ascending(live, |produced|)
    requires forall i :: 0 <= i < |live| ==> produced[live[i]] != []
    requires |batch| == |picked| == |live| && PickedOwn(net, batch, At(nows, live), picked)
    requires forall i :: 0 <= i < |live| ==> batch[i].ids == Lasts(produced, live)[i]
    ensures |after| == |produced| && Longer(net, live, produced, nows, after, |live|)
  {
    after := produced;
    for i := 0 to |live|
      invariant |after| == |produced| && Longer(net, live, produced, nows, after, i)
    {
      var at, picks := live[i], picked[i].picks;
      LastAnswers(net, nows[at], produced[at], picks);
      ghost var was := after;
      after := after[at := after[at] + [picks[|picks| - 1]]];
      LongerOne(net, live, produced, nows, was, i, after);
    }
  }

  /** The first `n` of the live sequences each one token longer, and the rest as they were. */
  ghost predicate Longer(net: Net, live: seq<nat>, produced: seq<seq<Id>>, nows: seq<Position>, after: seq<seq<Id>>,
                         n: nat)
    requires net.Valid() && |nows| == |produced| == |after| && Ascending(live, |produced|) && n <= |live|
    requires forall i :: 0 <= i < |live| ==> produced[live[i]] != []
  {
    && (forall j :: 0 <= j < n ==> LongerAt(net, produced, nows, after, live[j]))
    && forall at :: 0 <= at < |produced| && at !in live[..n] ==> after[at] == produced[at]
  }

  ghost predicate LongerAt(net: Net, produced: seq<seq<Id>>, nows: seq<Position>, after: seq<seq<Id>>, at: nat)
    requires net.Valid() && |nows| == |produced| == |after| && at < |produced| && produced[at] != []
  {
    after[at] == produced[at] + [net.Next(nows[at].ids + [produced[at][|produced[at]| - 1]])]
  }

  lemma LongerOne(net: Net, live: seq<nat>, produced: seq<seq<Id>>, nows: seq<Position>, before: seq<seq<Id>>, i: nat,
                  after: seq<seq<Id>>)
    requires net.Valid() && |nows| == |produced| == |before| == |after| && Ascending(live, |produced|) && i < |live|
    requires forall i :: 0 <= i < |live| ==> produced[live[i]] != []
    requires Longer(net, live, produced, nows, before, i)
    requires forall at :: 0 <= at < |produced| && at != live[i] ==> after[at] == before[at]
    requires LongerAt(net, produced, nows, after, live[i])
    ensures Longer(net, live, produced, nows, after, i + 1)
  {
    assert live[..i + 1] == live[..i] + [live[i]];
    forall j | 0 <= j < i + 1
      ensures LongerAt(net, produced, nows, after, live[j])
    {
      if j < i {
        assert live[j] != live[i] && LongerAt(net, produced, nows, before, live[j]);
      }
    }
  }

  lemma LastAnswers(net: Net, now: Position, produced: seq<Id>, picks: seq<Id>)
    requires net.Valid() && produced != [] && picks == Picks(net, now.ids, [produced[|produced| - 1]])
    ensures |picks| == 1 && picks[0] == net.Next(now.ids + [produced[|produced| - 1]])
  {
    var ids := [produced[|produced| - 1]];
    assert ids[..1] == ids;
  }

  /** The first `upto` sequences opened, and the rest where they started. */
  ghost predicate Opening(net: Net, wishes: seq<Wish>, produced: seq<seq<Id>>, nows: seq<Position>, upto: nat) {
    && |produced| == |nows| == |wishes|
    && (forall at :: 0 <= at < upto && at < |wishes| ==> Progress(net, wishes[at], produced[at], nows[at]))
    && forall at :: upto <= at < |wishes| ==> nows[at] == wishes[at].start && produced[at] == []
  }

  ghost predicate AllAsked(net: Net, wishes: seq<Wish>) {
    forall at :: 0 <= at < |wishes| ==>
      wishes[at].start.level.Valid() && (wishes[at].count > 0 ==> wishes[at].prompt != [])
  }

  lemma OpenedOne(net: Net, wishes: seq<Wish>, produced: seq<seq<Id>>, nows: seq<Position>, at: nat, first: Id)
    requires net.Valid() && AllAsked(net, wishes) && at < |wishes| && Opening(net, wishes, produced, nows, at)
    requires wishes[at].count > 0
        && first == Picks(net, wishes[at].start.ids, wishes[at].prompt)[|wishes[at].prompt| - 1]
    ensures Opening(net, wishes, produced[at := [first]], nows[at := nows[at].Fed(wishes[at].prompt)], at + 1)
  {
    Opened(net, wishes[at], first);
  }

  lemma NotAsked(net: Net, wishes: seq<Wish>, produced: seq<seq<Id>>, nows: seq<Position>, at: nat)
    requires net.Valid() && AllAsked(net, wishes) && at < |wishes| && Opening(net, wishes, produced, nows, at)
    requires wishes[at].count == 0
    ensures Opening(net, wishes, produced, nows, at + 1)
  {
  }

  /** Every prompt on its own, and the token that follows it. */
  method OpenAll(net: Net, caches: seq<ModelCache>, prompts: seq<seq<Id>>, counts: seq<nat>,
                 ghost starts: seq<Position>)
    returns (produced: seq<seq<Id>>, ghost nows: seq<Position>)
    requires net.Valid() && Unshared(caches) && AllHold(net, caches, starts) && |caches| == |prompts| == |counts|
    requires AllAsked(net, Wishes(starts, prompts, counts))
    modifies CachesRepr(caches)
    ensures AllHold(net, caches, nows) && AllProgress(net, Wishes(starts, prompts, counts), produced, nows)
  {
    ghost var wishes := Wishes(starts, prompts, counts);
    produced, nows := seq(|prompts|, _ => []), starts;
    for at := 0 to |caches|
      invariant AllHold(net, caches, nows) && Opening(net, wishes, produced, nows, at)
    {
      if counts[at] == 0 {
        NotAsked(net, wishes, produced, nows, at);
      } else {
        var tailed := Open(net, caches, at, prompts[at], false, nows);
        OpenedOne(net, wishes, produced, nows, at, tailed.picks[0]);
        produced, nows := produced[at := [tailed.picks[0]]], nows[at := nows[at].Fed(prompts[at])];
      }
    }
  }

  /** Every sequence is given exactly what it asked for: the greedy tokens of its own prompt, and a
    * cache at everything but the last of them.  One that asked for nothing is not touched. */
  ghost predicate AllGranted(net: Net, wishes: seq<Wish>, produced: seq<seq<Id>>, nows: seq<Position>) {
    && AllProgress(net, wishes, produced, nows)
    && forall at :: 0 <= at < |wishes| ==> |produced[at]| == wishes[at].count
  }

  /** What a sequence is given in a batch is what it is given alone. */
  lemma AloneOrTogether(net: Net, wishes: seq<Wish>, produced: seq<seq<Id>>, nows: seq<Position>, at: nat,
                        declines: Declines, tokens: seq<Id>, stop: Stop)
    requires AllGranted(net, wishes, produced, nows) && at < |wishes| && wishes[at].start.level.Valid()
    requires forall told :: !declines(told)
    requires net.Valid() && (wishes[at].count > 0 ==> wishes[at].prompt != [])
    requires Generated(net, wishes[at].Known(), Ending(wishes[at].count, None), declines, tokens, stop)
    ensures produced[at] == tokens && stop == Budget
    ensures nows[at].ids == wishes[at].start.ids + Behind(wishes[at].prompt, tokens)
  {
    var wish := wishes[at];
    assert Progress(net, wish, produced[at], nows[at]);
    if wish.count > 0 {
      SameGreedy(net, wish.Known(), tokens, produced[at], |tokens|);
      assert tokens[..|tokens|] == tokens && produced[at][..wish.count] == produced[at];
      assert Why(Ending(wish.count, None), declines, tokens) == Some(stop);
    }
  }

  /** Several prompts to their own counts, their tokens decoded together. */
  method GenerateBatch(net: Net, caches: seq<ModelCache>, prompts: seq<seq<Id>>, counts: seq<nat>,
                       ghost starts: seq<Position>)
    returns (produced: seq<seq<Id>>, ghost nows: seq<Position>)
    requires net.Valid() && Unshared(caches) && AllHold(net, caches, starts) && |caches| == |prompts| == |counts|
    requires AllAsked(net, Wishes(starts, prompts, counts))
    modifies CachesRepr(caches)
    ensures AllHold(net, caches, nows) && AllGranted(net, Wishes(starts, prompts, counts), produced, nows)
  {
    ghost var wishes := Wishes(starts, prompts, counts);
    produced, nows := OpenAll(net, caches, prompts, counts, starts);
    while true
      invariant AllHold(net, caches, nows) && AllProgress(net, wishes, produced, nows)
      decreases Owed(produced, counts, |counts|)
    {
      var live := Live(produced, counts);
      AllOwe(net, wishes, produced, nows, live);
      if live == [] {
        return;
      }
      ghost var before := produced;
      produced, nows := StepLive(net, caches, live, produced, wishes, nows);
      assert Progress(net, wishes[live[0]], produced[live[0]], nows[live[0]]);
      OwedLess(before, produced, counts, live[0], |counts|);
    }
  }

  lemma AllOwe(net: Net, wishes: seq<Wish>, produced: seq<seq<Id>>, nows: seq<Position>, live: seq<nat>)
    requires AllProgress(net, wishes, produced, nows) && Ascending(live, |wishes|)
    requires forall at :: 0 <= at < |wishes| ==> (at in live <==> |produced[at]| < wishes[at].count)
    ensures live == [] ==> AllGranted(net, wishes, produced, nows)
    ensures forall i :: 0 <= i < |live| ==> 0 < |produced[live[i]]| < wishes[live[i]].count
  {
    forall at | 0 <= at < |wishes|
      ensures |produced[at]| <= wishes[at].count && (wishes[at].count > 0 ==> produced[at] != [])
    {
      assert Progress(net, wishes[at], produced[at], nows[at]);
    }
    assert forall i :: 0 <= i < |live| ==> live[i] in live;
  }
}
