/** The generation loop, for one sequence and a proposer that may guess ahead of the model.
  *
  * No guess is trusted: what a run emits, how it ends and what it leaves in the cache are settled by
  * the model, the prompt, the ending and the sink, and a proposer appears in none of the three.
  */
module Speculation {
  import opened Buffers
  import opened Ops
  import opened Model
  import opened Generation

  /** The most tokens a run may have, and an id that ends it when decoded. */
  datatype Ending = Ending(budget: nat, eos: Option<Id>)

  datatype Stop = EndOfSequence | Budget | Sink

  /** Whether a sink declines the last of the tokens it has been offered. */
  type Declines = seq<Id> -> bool

  /** A proposer's view of one round: rows newly fed, normed; for each the id after it; and how far a guess is
    * worth making. */
  datatype Round = Round(hidden: seq<real>, next: seq<Id>, depth: nat)

  /** A proposer of any kind at all: what it answers may depend on every round it has been handed. */
  datatype Proposer = Proposer(depth: nat, propose: seq<Round> -> seq<Id>) {
    /** No proposal is longer than a cache has slack to give back. */
    ghost predicate Within(slack: nat) {
      forall rounds :: |propose(rounds)| <= slack
    }
  }

  /** No depth, and no guess ever. */
  const ALONE := Proposer(0, (_: seq<Round>) => [])

  /** Why a generation ends on the last of `tokens`, if it does: the sink is asked first, then the
    * end-of-sequence id is checked for, then the budget. */
  function Why(ending: Ending, declines: Declines, tokens: seq<Id>): Option<Stop>
    requires tokens != []
  {
    if declines(tokens) then Some(Sink)
    else if ending.eos == Some(tokens[|tokens| - 1]) then Some(EndOfSequence)
    else if |tokens| == ending.budget then Some(Budget)
    else None
  }

  /** Each of `tokens` is what the model says follows `known` and the tokens before it. */
  ghost predicate Greedy(net: Net, known: seq<Id>, tokens: seq<Id>)
    requires net.Valid() && known != []
  {
    forall i :: 0 <= i < |tokens| ==> tokens[i] == net.Next(known + tokens[..i])
  }

  /** Nothing ends a generation before the `n`th of its tokens. */
  ghost predicate Unended(ending: Ending, declines: Declines, tokens: seq<Id>, n: nat)
    requires n <= |tokens| + 1
  {
    forall i :: 1 <= i < n ==> Why(ending, declines, tokens[..i]) == None
  }

  /** What a generation emits and why it ends, said of the tokens alone: they are greedy, nothing ends
    * them early, and the last of them is what ends them. */
  ghost predicate Generated(net: Net, known: seq<Id>, ending: Ending, declines: Declines, tokens: seq<Id>, stop: Stop)
    requires net.Valid() && (ending.budget > 0 ==> known != [])
  {
    if ending.budget == 0 then
      tokens == [] && stop == Budget
    else
      && 0 < |tokens| <= ending.budget
      && Greedy(net, known, tokens)
      && Unended(ending, declines, tokens, |tokens|)
      && Why(ending, declines, tokens) == Some(stop)
  }

  /** There is one such run and no other. */
  lemma GeneratedOnce(net: Net, known: seq<Id>, ending: Ending, declines: Declines,
                      tokens: seq<Id>, stop: Stop, others: seq<Id>, other: Stop)
    requires net.Valid() && (ending.budget > 0 ==> known != [])
    requires Generated(net, known, ending, declines, tokens, stop)
    requires Generated(net, known, ending, declines, others, other)
    ensures tokens == others && stop == other
  {
    if ending.budget > 0 {
      var n := if |tokens| <= |others| then |tokens| else |others|;
      SameGreedy(net, known, tokens, others, n);
      assert tokens[..|tokens|] == tokens && others[..|others|] == others;
    }
  }

  lemma {:induction false} SameGreedy(net: Net, known: seq<Id>, a: seq<Id>, b: seq<Id>, n: nat)
    requires net.Valid() && known != [] && Greedy(net, known, a) && Greedy(net, known, b)
    requires n <= |a| && n <= |b|
    ensures a[..n] == b[..n]
  {
    if n > 0 {
      SameGreedy(net, known, a, b, n - 1);
    }
  }

  lemma GreedyPush(net: Net, known: seq<Id>, tokens: seq<Id>, id: Id)
    requires net.Valid() && known != [] && Greedy(net, known, tokens) && id == net.Next(known + tokens)
    ensures Greedy(net, known, tokens + [id])
  {
    var longer := tokens + [id];
    forall i | 0 <= i < |longer|
      ensures longer[i] == net.Next(known + longer[..i])
    {
      assert longer[..i] == tokens[..i];
      assert tokens[..|tokens|] == tokens;
    }
  }

  /** `round` is the answers to as many guesses as agreed with them, and the answer after those. */
  ghost predicate BankedOf(guesses: seq<Id>, picks: seq<Id>, round: seq<Id>) {
    && 0 < |round| <= |guesses| + 1 && |round| <= |picks| && round == picks[..|round|]
    && round[..|round| - 1] == guesses[..|round| - 1]
    && (|round| <= |guesses| ==> guesses[|round| - 1] != picks[|round| - 1])
  }

  /** What one round produced out of what it guessed and what the model answered: the longest prefix
    * of guesses the model agrees with, and the first answer that disagreed. */
  method Banked(guesses: seq<Id>, picks: seq<Id>) returns (round: seq<Id>)
    requires |picks| > |guesses|
    ensures BankedOf(guesses, picks, round)
  {
    var agreed := 0;
    while agreed < |guesses| && guesses[agreed] == picks[agreed]
      invariant agreed <= |guesses|
      invariant guesses[..agreed] == picks[..agreed]
    {
      agreed := agreed + 1;
    }
    round := guesses[..agreed] + [picks[agreed]];
  }

  /** A round's answers are the decode steps it stands for. */
  lemma RoundIsGreedy(net: Net, known: seq<Id>, emitted: seq<Id>, guesses: seq<Id>, picks: seq<Id>, round: seq<Id>)
    requires net.Valid() && known != [] && Greedy(net, known, emitted)
    requires |picks| == |guesses| + 1
    requires forall i :: 0 <= i < |picks| ==> picks[i] == net.Next(known + emitted + guesses[..i])
    requires 0 < |round| <= |picks| && round == picks[..|round|] && round[..|round| - 1] == guesses[..|round| - 1]
    ensures Greedy(net, known, emitted + round)
  {
    var tokens := emitted + round;
    forall i | 0 <= i < |tokens|
      ensures tokens[i] == net.Next(known + tokens[..i])
    {
      if i < |emitted| {
        assert tokens[..i] == emitted[..i];
      } else {
        var j := i - |emitted|;
        assert guesses[..j] == round[..j] by {
          assert guesses[..|round| - 1][..j] == round[..|round| - 1][..j];
        }
        assert known + emitted + guesses[..j] == known + tokens[..i];
      }
    }
  }

  /** The tokens of one round offered to the sink in order, until one of them ends the generation. */
  method Emit(round: seq<Id>, ending: Ending, declines: Declines, emitted: seq<Id>, budget: nat)
    returns (taken: nat, left: nat, stop: Option<Stop>)
    requires |emitted| + budget == ending.budget && budget > 0 && round != []
    requires Unended(ending, declines, emitted, |emitted| + 1)
    ensures 0 < taken <= |round| && taken + left == budget
    ensures Unended(ending, declines, emitted + round[..taken], |emitted| + taken)
    ensures stop == Why(ending, declines, emitted + round[..taken])
    ensures stop == None ==> taken == |round| && left > 0
  {
    taken, left, stop := 0, budget, None;
    assert emitted + round[..0] == emitted;
    while taken < |round| && stop == None
      invariant taken <= |round| && taken + left == budget
      invariant taken == 0 ==> stop == None
      invariant taken > 0 ==> stop == Why(ending, declines, emitted + round[..taken])
      invariant Unended(ending, declines, emitted + round[..taken], |emitted| + taken + if stop == None then 1 else 0)
      invariant stop == None ==> left > 0
    {
      assert round[..taken + 1] == round[..taken] + [round[taken]];
      UnendedMore(ending, declines, emitted + round[..taken], round[taken]);
      assert emitted + round[..taken] + [round[taken]] == emitted + round[..taken + 1];
      taken, left := taken + 1, left - 1;
      var offered := emitted + round[..taken];
      stop := if declines(offered) then Some(Sink)
              else if ending.eos == Some(round[taken - 1]) then Some(EndOfSequence)
              else if left == 0 then Some(Budget)
              else None;
    }
  }

  lemma UnendedMore(ending: Ending, declines: Declines, tokens: seq<Id>, id: Id)
    requires Unended(ending, declines, tokens, |tokens| + 1)
    ensures Unended(ending, declines, tokens + [id], |tokens| + 1)
    ensures Why(ending, declines, tokens + [id]) == None ==> Unended(ending, declines, tokens + [id], |tokens| + 2)
  {
    forall i | 1 <= i < |tokens| + 2
      ensures (tokens + [id])[..i] == if i <= |tokens| then tokens[..i] else tokens + [id]
    {
    }
  }

  /** What was fed last can be given back out of a window with room for it. */
  lemma GiveBack(at: Position, ids: seq<Id>, back: nat)
    requires at.level.Valid() && back <= |ids| && back <= at.level.slack
    ensures at.Fed(ids).CanGiveBack(back)
    ensures at.Fed(ids).Back(back).ids == at.ids + ids[..|ids| - back]
    ensures Room(at.Fed(ids).Back(back), at)
  {
  }

  /** `now` is a place the same windows can be: as wide, and with as much room behind them. */
  ghost predicate Room(now: Position, at: Position) {
    now.level.Valid() && now.level.window == at.level.window && now.level.slack == at.level.slack
  }

  /** The rows a sequence's passes answered, in turn, are those of one pass over all of it. */
  lemma StatesTile(net: Net, past: seq<Id>, a: seq<Id>, b: seq<Id>)
    requires net.Valid()
    ensures States(net, past, a + b)[..|a|] == States(net, past, a)
    ensures States(net, past, a + b) == States(net, past, a) + States(net, past + a, b)
  {
    assert past + (a + b) == past + a + b;
    net.NormedCausal(past + a, b);
  }

  /** The tokens a proposer has been handed, and the rows beside them. */
  ghost function Nexts(rounds: seq<Round>): seq<Id> {
    if rounds == [] then [] else Nexts(rounds[..|rounds| - 1]) + rounds[|rounds| - 1].next
  }

  ghost function Hiddens(rounds: seq<Round>): seq<real> {
    if rounds == [] then [] else Hiddens(rounds[..|rounds| - 1]) + rounds[|rounds| - 1].hidden
  }

  /** The rounds handed on so far are the sequence itself, every position once and in order: each
    * row's own normed state, beside the token that follows it.  No rejected row is among them. */
  ghost predicate Tiled(net: Net, chained: bool, past: seq<Id>, fed: seq<Id>, pending: Id, rounds: seq<Round>)
    requires net.Valid()
  {
    if fed == [] then rounds == []
    else
      && Nexts(rounds) == fed[1..] + [pending]
      && Hiddens(rounds) == if chained then Flat(States(net, past, fed)) else []
  }

  lemma TiledMore(net: Net, chained: bool, past: seq<Id>, fed: seq<Id>, pending: Id, rounds: seq<Round>,
                  more: seq<Id>, after: Id, round: Round)
    requires net.Valid() && more != [] && Tiled(net, chained, past, fed, pending, rounds)
    requires fed != [] ==> more[0] == pending
    requires round.next == more[1..] + [after]
    requires round.hidden == if chained then Flat(States(net, past + fed, more)) else []
    ensures Tiled(net, chained, past, fed + more, after, rounds + [round])
  {
    HandedOne(rounds, round);
    HiddensMore(net, past, fed, more);
    if fed == [] {
      assert fed + more == more && past + fed == past;
      assert Nexts(rounds) == [] && Hiddens(rounds) == [];
    } else {
      NextsMore(fed, pending, more, after);
    }
  }

  lemma HandedOne(rounds: seq<Round>, round: Round)
    ensures Nexts(rounds + [round]) == Nexts(rounds) + round.next
    ensures Hiddens(rounds + [round]) == Hiddens(rounds) + round.hidden
  {
    var all := rounds + [round];
    assert all[..|rounds|] == rounds;
  }

  lemma NextsMore(fed: seq<Id>, pending: Id, more: seq<Id>, after: Id)
    requires fed != [] && more != [] && more[0] == pending
    ensures (fed + more)[1..] + [after] == (fed[1..] + [pending]) + (more[1..] + [after])
  {
  }

  lemma HiddensMore(net: Net, past: seq<Id>, fed: seq<Id>, more: seq<Id>)
    requires net.Valid()
    ensures Flat(States(net, past, fed + more)) == Flat(States(net, past, fed)) + Flat(States(net, past + fed, more))
  {
    StatesTile(net, past, fed, more);
    FlatAppend(States(net, past, fed), States(net, past + fed, more));
  }

  /** A generation partway: what it has emitted is greedy, and none of it ended the run. */
  ghost predicate Underway(net: Net, known: seq<Id>, ending: Ending, declines: Declines, tokens: seq<Id>, left: nat)
    requires net.Valid() && known != []
  {
    |tokens| + left == ending.budget && Greedy(net, known, tokens) && Unended(ending, declines, tokens, |tokens| + 1)
  }

  /** What a pass is fed: the rows it owes, and the guesses after them. */
  ghost predicate Owing(known: seq<Id>, tokens: seq<Id>, fed: seq<Id>, ids: seq<Id>, guesses: seq<Id>) {
    && |ids| > |guesses| && ids[|ids| - |guesses|..] == guesses
    && fed + ids[..|ids| - |guesses|] == known + tokens
  }

  lemma BlockAnswers(net: Net, known: seq<Id>, tokens: seq<Id>, fed: seq<Id>, ids: seq<Id>, guesses: seq<Id>)
    requires net.Valid() && Owing(known, tokens, fed, ids, guesses)
    ensures var picks := Picks(net, fed, ids)[|ids| - |guesses| - 1..];
      |picks| == |guesses| + 1 && forall i :: 0 <= i < |picks| ==> picks[i] == net.Next(known + tokens + guesses[..i])
  {
    var owed := ids[..|ids| - |guesses|];
    var picks := Picks(net, fed, ids)[|owed| - 1..];
    forall i | 0 <= i < |picks|
      ensures picks[i] == net.Next(known + tokens + guesses[..i])
    {
      assert ids[..|owed| + i] == owed + guesses[..i];
      assert fed + ids[..|owed| + i] == known + tokens + guesses[..i];
    }
  }

  /** One pass, and what it banked: tokens that are greedy whatever was guessed. */
  method RunRound(net: Net, cache: ModelCache, ids: seq<Id>, guesses: seq<Id>, chained: bool,
                  ghost at: Position, ghost known: seq<Id>, ghost tokens: seq<Id>)
    returns (round: seq<Id>, normed: seq<real>)
    requires net.Valid() && known != [] && cache.Holds(net, at)
    requires Owing(known, tokens, at.ids, ids, guesses) && Greedy(net, known, tokens)
    modifies cache.Repr
    ensures cache.Holds(net, at.Fed(ids))
    ensures 0 < |round| <= |guesses| + 1 && round[..|round| - 1] == guesses[..|round| - 1]
    ensures Greedy(net, known, tokens + round)
    ensures normed == if chained then Flat(States(net, at.ids, ids)) else []
  {
    BlockAnswers(net, known, tokens, at.ids, ids, guesses);
    var tailed := TailedOne(net, cache, ids, Tail(|guesses| + 1, chained), at);
    round := Banked(guesses, tailed.picks);
    RoundIsGreedy(net, known, tokens, guesses, tailed.picks, round);
    normed := tailed.normed;
  }

  /** The rows a round kept are the rows it owed and the guesses it banked. */
  lemma KeptRows(known: seq<Id>, tokens: seq<Id>, fed: seq<Id>, ids: seq<Id>, guesses: seq<Id>, round: seq<Id>,
                 taken: nat)
    requires Owing(known, tokens, fed, ids, guesses)
    requires 0 < taken <= |round| <= |guesses| + 1 && round[..|round| - 1] == guesses[..|round| - 1]
    ensures |ids| - |guesses| - 1 + taken <= |ids|
    ensures fed + ids[..|ids| - |guesses| - 1 + taken] == known + (tokens + round[..taken])[..|tokens| + taken - 1]
  {
    var owed := ids[..|ids| - |guesses|];
    var kept := |owed| - 1 + taken;
    assert ids[..kept] == owed + guesses[..taken - 1];
    assert guesses[..taken - 1] == round[..taken - 1] by {
      assert guesses[..|round| - 1][..taken - 1] == round[..|round| - 1][..taken - 1];
    }
    assert (tokens + round[..taken])[..|tokens| + taken - 1] == tokens + round[..taken - 1];
    assert fed + (owed + round[..taken - 1]) == (fed + owed) + round[..taken - 1];
    assert known + (tokens + round[..taken - 1]) == (known + tokens) + round[..taken - 1];
  }

  lemma {:induction false} GreedyPrefix(net: Net, known: seq<Id>, tokens: seq<Id>, n: nat)
    requires net.Valid() && known != [] && Greedy(net, known, tokens) && n <= |tokens|
    ensures Greedy(net, known, tokens[..n])
  {
    forall i | 0 <= i < n
      ensures tokens[..n][i] == net.Next(known + tokens[..n][..i])
    {
      assert tokens[..n][..i] == tokens[..i];
    }
  }

  /** The rows of a pass that a round kept, normed. */
  lemma KeptStates(net: Net, past: seq<Id>, ids: seq<Id>, kept: nat)
    requires net.Valid() && kept <= |ids|
    ensures 0 <= kept * net.hidden <= |Flat(States(net, past, ids))|
    ensures Flat(States(net, past, ids))[..kept * net.hidden] == Flat(States(net, past, ids[..kept]))
  {
    FlatTake(States(net, past, ids), net.hidden, kept);
    assert ids == ids[..kept] + ids[kept..];
    StatesTile(net, past, ids[..kept], ids[kept..]);
  }

  /** What a round hands its proposer. */
  method Hand(net: Net, normed: seq<real>, ids: seq<Id>, kept: nat, pending: Id, depth: nat, ghost chained: bool,
              ghost past: seq<Id>)
    returns (round: Round)
    requires net.Valid() && 0 < kept <= |ids|
    requires normed == if chained then Flat(States(net, past, ids)) else []
    ensures round.next == ids[..kept][1..] + [pending] && round.depth == depth
    ensures round.hidden == if chained then Flat(States(net, past, ids[..kept])) else []
  {
    KeptStates(net, past, ids, kept);
    if chained {
      FlatLength(States(net, past, ids), net.hidden);
      assert |ids| * net.hidden > 0;
    }
    var hidden := if normed == [] then [] else normed[..kept * net.hidden];
    round := Round(hidden, ids[1..kept] + [pending], depth);
  }

  /** One round: the pass, the tokens it banked offered to the sink, and what was not kept taken
    * back out of the cache. */
  method OneRound(net: Net, cache: ModelCache, ids: seq<Id>, guesses: seq<Id>, chained: bool, ending: Ending,
                  declines: Declines, told: seq<Id>, budget: nat, ghost at: Position, ghost known: seq<Id>)
    returns (tokens: seq<Id>, left: nat, over: Option<Stop>, kept: nat, normed: seq<real>, ghost now: Position)
    requires net.Valid() && known != [] && cache.Holds(net, at) && budget > 0 && |guesses| <= at.level.slack
    requires Underway(net, known, ending, declines, told, budget) && Owing(known, told, at.ids, ids, guesses)
    modifies cache.Repr
    ensures cache.Holds(net, now) && Room(now, at)
    ensures |told| < |tokens| <= |told| + |guesses| + 1 && told == tokens[..|told|] && left < budget
    ensures 0 < kept <= |ids| && now.ids == at.ids + ids[..kept] == known + tokens[..|tokens| - 1]
    ensures normed == if chained then Flat(States(net, at.ids, ids)) else []
    ensures over == None ==> left > 0 && Underway(net, known, ending, declines, tokens, left)
    ensures over != None ==> Generated(net, known, ending, declines, tokens, over.value)
  {
    var round, taken;
    round, normed := RunRound(net, cache, ids, guesses, chained, at, known, told);
    taken, left, over := Emit(round, ending, declines, told, budget);
    kept := |ids| - |guesses| - 1 + taken;
    tokens := told + round[..taken];
    KeptRows(known, told, at.ids, ids, guesses, round, taken);
    Settled(net, known, ending, declines, told, round, taken, left, over);
    now := TakeBack(net, cache, ids, kept, at);
  }

  /** The rows a round did not keep, out of the cache again. */
  method TakeBack(net: Net, cache: ModelCache, ids: seq<Id>, kept: nat, ghost at: Position)
    returns (ghost now: Position)
    requires at.level.Valid() && cache.Holds(net, at.Fed(ids))
    requires kept <= |ids| && |ids| - kept <= at.level.slack
    modifies cache.Repr
    ensures cache.Holds(net, now) && Room(now, at) && now.ids == at.ids + ids[..kept]
  {
    var back := |ids| - kept;
    GiveBack(at, ids, back);
    ghost var fed := at.Fed(ids);
    cache.Rewind(back, net, fed);
    now := fed.Back(back);
  }

  /** What a round's tokens make of the run. */
  lemma Settled(net: Net, known: seq<Id>, ending: Ending, declines: Declines, told: seq<Id>, round: seq<Id>,
                taken: nat, left: nat, over: Option<Stop>)
    requires net.Valid() && known != [] && Greedy(net, known, told + round) && 0 < taken <= |round|
    requires |told| + taken + left == ending.budget
    requires var tokens := told + round[..taken];
      Unended(ending, declines, tokens, |tokens|) && over == Why(ending, declines, tokens)
        && (over == None ==> left > 0)
    ensures over == None ==> Underway(net, known, ending, declines, told + round[..taken], left)
    ensures over != None ==> Generated(net, known, ending, declines, told + round[..taken], over.value)
  {
    EmittedGreedy(net, known, told, round, taken);
    if over == None {
      UnendedYet(ending, declines, told + round[..taken]);
    }
  }

  lemma EmittedGreedy(net: Net, known: seq<Id>, told: seq<Id>, round: seq<Id>, taken: nat)
    requires net.Valid() && known != [] && Greedy(net, known, told + round) && taken <= |round|
    ensures Greedy(net, known, told + round[..taken])
  {
    GreedyPrefix(net, known, told + round, |told| + taken);
    assert (told + round)[..|told| + taken] == told + round[..taken];
  }

  lemma UnendedYet(ending: Ending, declines: Declines, tokens: seq<Id>)
    requires tokens != [] && Unended(ending, declines, tokens, |tokens|) && Why(ending, declines, tokens) == None
    ensures Unended(ending, declines, tokens, |tokens| + 1)
  {
    assert tokens[..|tokens|] == tokens;
  }

  /** What the next pass is fed: the token just produced, and what the proposer made of it. */
  lemma OwingNext(known: seq<Id>, tokens: seq<Id>, fed: seq<Id>, guesses: seq<Id>)
    requires tokens != [] && fed == known + tokens[..|tokens| - 1]
    ensures Owing(known, tokens, fed, [tokens[|tokens| - 1]] + guesses, guesses)
  {
    var last := tokens[|tokens| - 1];
    assert ([last] + guesses)[..1] == [last];
    assert tokens == tokens[..|tokens| - 1] + [last];
  }

  /** `rounds` are all a proposer has been handed of a run that has emitted `tokens`. */
  ghost predicate Handed(net: Net, chained: bool, past: seq<Id>, prompt: seq<Id>, tokens: seq<Id>, rounds: seq<Round>)
    requires net.Valid()
  {
    if tokens == [] then rounds == []
    else Tiled(net, chained, past, Behind(prompt, tokens), tokens[|tokens| - 1], rounds)
  }

  /** What a run that has emitted `tokens` has fed: all but the last of them. */
  function Behind(prompt: seq<Id>, tokens: seq<Id>): seq<Id> {
    if tokens == [] then [] else prompt + tokens[..|tokens| - 1]
  }

  lemma HandedMore(net: Net, chained: bool, past: seq<Id>, prompt: seq<Id>, told: seq<Id>, tokens: seq<Id>,
                   rounds: seq<Round>, more: seq<Id>, round: Round)
    requires net.Valid() && Handed(net, chained, past, prompt, told, rounds)
    requires more != [] && tokens != [] && (told != [] ==> more[0] == told[|told| - 1])
    requires Behind(prompt, told) + more == Behind(prompt, tokens)
    requires round.next == more[1..] + [tokens[|tokens| - 1]]
    requires round.hidden == if chained then Flat(States(net, past + Behind(prompt, told), more)) else []
    ensures Handed(net, chained, past, prompt, tokens, rounds + [round])
  {
    var pending := if told == [] then 0 else told[|told| - 1];
    TiledMore(net, chained, past, Behind(prompt, told), pending, rounds, more, tokens[|tokens| - 1], round);
  }

  /** What is fed between two points of a run is what the later has fed and the earlier has not. */
  lemma FedBetween(past: seq<Id>, prompt: seq<Id>, told: seq<Id>, tokens: seq<Id>, more: seq<Id>)
    requires tokens != [] && past + Behind(prompt, told) + more == past + prompt + tokens[..|tokens| - 1]
    ensures Behind(prompt, told) + more == Behind(prompt, tokens)
  {
    var fed, all := Behind(prompt, told), Behind(prompt, tokens);
    Associates(past, fed, more);
    Associates(past, prompt, tokens[..|tokens| - 1]);
    assert (past + (fed + more))[|past|..] == fed + more;
    assert (past + all)[|past|..] == all;
  }

  /** Every round handed on offered as much depth as there was, and no more than the run could still use
    * past the token it is sure of. */
  ghost predicate Offered(depth: nat, count: nat, prompt: nat, rounds: seq<Round>) {
    forall j :: 0 <= j < |rounds| ==> OfferedAt(depth, count, prompt, rounds, j)
  }

  ghost predicate OfferedAt(depth: nat, count: nat, prompt: nat, rounds: seq<Round>, j: nat) {
    j < |rounds| &&
    var made := |Nexts(rounds[..j + 1])| - prompt + 1;
    0 < made < count && rounds[j].depth == DepthFor(depth, count - made)
  }

  /** How far it is worth guessing when `left` tokens are still owed. */
  function DepthFor(depth: nat, left: nat): nat {
    if depth + 1 < left then depth else if left > 0 then left - 1 else 0
  }

  lemma OfferedMore(net: Net, chained: bool, past: seq<Id>, prompt: seq<Id>, tokens: seq<Id>, rounds: seq<Round>,
                    round: Round, depth: nat, count: nat)
    requires net.Valid() && prompt != [] && Handed(net, chained, past, prompt, tokens, rounds + [round])
    requires 0 < |tokens| < count && round.depth == DepthFor(depth, count - |tokens|)
    requires Offered(depth, count, |prompt|, rounds)
    ensures Offered(depth, count, |prompt|, rounds + [round])
  {
    var all := rounds + [round];
    forall j | 0 <= j < |all|
      ensures OfferedAt(depth, count, |prompt|, all, j)
    {
      if j < |rounds| {
        assert OfferedAt(depth, count, |prompt|, rounds, j);
        assert all[..j + 1] == rounds[..j + 1];
      } else {
        assert all[..j + 1] == all;
        assert |Nexts(all)| == |Behind(prompt, tokens)|;
      }
    }
  }

  /** The round handed on, and the guesses that come back. */
  method Ask(net: Net, proposer: Proposer, normed: seq<real>, ids: seq<Id>, kept: nat, tokens: seq<Id>, left: nat,
             rounds: seq<Round>, ghost past: seq<Id>, ghost prompt: seq<Id>, ghost told: seq<Id>, ghost count: nat)
    returns (handed: seq<Round>, guesses: seq<Id>)
    requires net.Valid() && 0 < kept <= |ids| && tokens != [] && left > 0 && |tokens| + left == count
    requires told != [] ==> ids[0] == told[|told| - 1]
    requires normed == if proposer.depth > 0 then Flat(States(net, past + Behind(prompt, told), ids)) else []
    requires Behind(prompt, told) + ids[..kept] == Behind(prompt, tokens)
    requires prompt != [] && Handed(net, proposer.depth > 0, past, prompt, told, rounds)
    requires Offered(proposer.depth, count, |prompt|, rounds)
    ensures Handed(net, proposer.depth > 0, past, prompt, tokens, handed)
    ensures Offered(proposer.depth, count, |prompt|, handed)
    ensures guesses == proposer.propose(handed)
  {
    ghost var chained, more := proposer.depth > 0, ids[..kept];
    var pending := tokens[|tokens| - 1];
    var depth := DepthFor(proposer.depth, left);
    var round := Hand(net, normed, ids, kept, pending, depth, chained, past + Behind(prompt, told));
    handed := rounds + [round];
    assert told != [] ==> more[0] == told[|told| - 1];
    HandedMore(net, chained, past, prompt, told, tokens, rounds, more, round);
    OfferedMore(net, chained, past, prompt, tokens, rounds, round, proposer.depth, count);
    guesses := proposer.propose(handed);
  }

  /** A run partway, with `left` tokens still owed: what it has emitted, what it feeds next, where the
    * cache stands, and what the proposer has been handed. */
  ghost predicate Partway(net: Net, depth: nat, ending: Ending, declines: Declines, at: Position, prompt: seq<Id>,
                          ids: seq<Id>, guesses: seq<Id>, tokens: seq<Id>, left: nat, now: Position, rounds: seq<Round>)
    requires net.Valid()
  {
    && left > 0 && prompt != [] && |guesses| <= at.level.slack
    && Underway(net, at.ids + prompt, ending, declines, tokens, left)
    && Owing(at.ids + prompt, tokens, now.ids, ids, guesses)
    && now.ids == at.ids + Behind(prompt, tokens)
    && (tokens != [] ==> ids[0] == tokens[|tokens| - 1])
    && Handed(net, depth > 0, at.ids, prompt, tokens, rounds) && Offered(depth, ending.budget, |prompt|, rounds)
  }

  lemma Departs(net: Net, depth: nat, ending: Ending, declines: Declines, at: Position, prompt: seq<Id>)
    requires net.Valid() && prompt != [] && ending.budget > 0
    ensures Partway(net, depth, ending, declines, at, prompt, prompt, [], [], ending.budget, at, [])
  {
    assert prompt[..|prompt| - 0] == prompt && prompt[|prompt| - 0..] == [];
    assert at.ids + prompt + [] == at.ids + prompt;
  }

  /** One round of a run, and what the proposer makes of it. */
  method Further(net: Net, cache: ModelCache, ending: Ending, proposer: Proposer, declines: Declines,
                 ids: seq<Id>, guesses: seq<Id>, told: seq<Id>, budget: nat, rounds: seq<Round>,
                 ghost at: Position, ghost prompt: seq<Id>, ghost before: Position)
    returns (tokens: seq<Id>, left: nat, over: Option<Stop>, feeding: seq<Id>, guessed: seq<Id>, handed: seq<Round>,
             ghost now: Position)
    requires net.Valid() && cache.Holds(net, before) && Room(before, at) && proposer.Within(at.level.slack)
    requires Partway(net, proposer.depth, ending, declines, at, prompt, ids, guesses, told, budget, before, rounds)
    modifies cache.Repr
    ensures cache.Holds(net, now) && Room(now, at) && left < budget
    ensures |told| < |tokens| <= |told| + at.level.slack + 1 && told == tokens[..|told|]
    ensures now.ids == at.ids + prompt + tokens[..|tokens| - 1]
    ensures over != None ==> Generated(net, at.ids + prompt, ending, declines, tokens, over.value) && handed == rounds
    ensures over == None ==>
      Partway(net, proposer.depth, ending, declines, at, prompt, feeding, guessed, tokens, left, now, handed)
  {
    ghost var known := at.ids + prompt;
    var kept, normed;
    tokens, left, over, kept, normed, now :=
      OneRound(net, cache, ids, guesses, proposer.depth > 0, ending, declines, told, budget, before, known);
    handed, guessed, feeding := rounds, [], [];
    FedBetween(at.ids, prompt, told, tokens, ids[..kept]);
    if over == None {
      handed, guessed :=
        Ask(net, proposer, normed, ids, kept, tokens, left, rounds, at.ids, prompt, told, ending.budget);
      feeding := [tokens[|tokens| - 1]] + guessed;
      OwingNext(known, tokens, now.ids, guessed);
      Associates(at.ids, prompt, tokens[..|tokens| - 1]);
    }
  }

  /** Tokens decoded until `ending` or the sink says to stop, with `proposer` allowed to guess ahead.
    *
    * The tokens and the reason are `Generated`, in which no proposer appears; the cache is left at
    * the prompt and every token but the last.  What the proposer sees is the sequence, every position
    * of it once: `seen` is how many tokens there were when it was last asked, with at most one round since. */
  method Speculate(net: Net, cache: ModelCache, prompt: seq<Id>, ending: Ending, proposer: Proposer, declines: Declines,
                   ghost at: Position)
    returns (tokens: seq<Id>, stop: Stop, ghost now: Position, rounds: seq<Round>, ghost seen: nat)
    requires net.Valid() && cache.Holds(net, at) && (ending.budget > 0 ==> prompt != [])
    requires proposer.Within(at.level.slack)
    modifies cache.Repr
    ensures Generated(net, at.ids + prompt, ending, declines, tokens, stop)
    ensures cache.Holds(net, now) && Room(now, at)
    ensures now.ids == if ending.budget == 0 then at.ids else at.ids + prompt + tokens[..|tokens| - 1]
    ensures ending.budget == 0 ==> now == at
    ensures seen <= |tokens| <= seen + at.level.slack + 1
    ensures Handed(net, proposer.depth > 0, at.ids, prompt, tokens[..seen], rounds)
    ensures Offered(proposer.depth, ending.budget, |prompt|, rounds)
  {
    var ids, guesses, left := prompt, [], ending.budget;
    tokens, rounds, now, stop, seen := [], [], at, Budget, 0;
    if left > 0 {
      Departs(net, proposer.depth, ending, declines, at, prompt);
    }
    while left > 0
      invariant cache.Holds(net, now) && Room(now, at)
      invariant left == 0 ==> ending.budget == 0 && now == at && tokens == [] && rounds == []
      invariant left > 0 ==> ending.budget > 0
      invariant left > 0 ==>
        Partway(net, proposer.depth, ending, declines, at, prompt, ids, guesses, tokens, left, now, rounds)
    {
      ghost var told := tokens;
      var over;
      tokens, left, over, ids, guesses, rounds, now :=
        Further(net, cache, ending, proposer, declines, ids, guesses, tokens, left, rounds, at, prompt, now);
      if over != None {
        stop, seen := over.value, |told|;
        return;
      }
    }
  }

  /** The same loop with nothing guessed. */
  method Stream(net: Net, cache: ModelCache, prompt: seq<Id>, ending: Ending, declines: Declines, ghost at: Position)
    returns (tokens: seq<Id>, stop: Stop, ghost now: Position)
    requires net.Valid() && cache.Holds(net, at) && (ending.budget > 0 ==> prompt != [])
    modifies cache.Repr
    ensures Generated(net, at.ids + prompt, ending, declines, tokens, stop)
    ensures cache.Holds(net, now) && Room(now, at)
    ensures now.ids == if ending.budget == 0 then at.ids else at.ids + prompt + tokens[..|tokens| - 1]
    ensures ending.budget == 0 ==> now == at
  {
    var rounds;
    ghost var seen;
    tokens, stop, now, rounds, seen := Speculate(net, cache, prompt, ending, ALONE, declines, at);
  }

  /** `count` tokens, with no id and no sink ending them early. */
  method Generate(net: Net, cache: ModelCache, prompt: seq<Id>, count: nat, ghost at: Position)
    returns (tokens: seq<Id>, ghost now: Position)
    requires net.Valid() && cache.Holds(net, at) && (count > 0 ==> prompt != [])
    modifies cache.Repr
    ensures |tokens| == count && (count > 0 ==> Greedy(net, at.ids + prompt, tokens))
    ensures cache.Holds(net, now) && Room(now, at)
    ensures now.ids == if count == 0 then at.ids else at.ids + prompt + tokens[..|tokens| - 1]
  {
    var stop;
    tokens, stop, now := Stream(net, cache, prompt, Ending(count, None), (_: seq<Id>) => false, at);
  }
}
