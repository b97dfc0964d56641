/** Several generations at once with guesses made for all of them: one ragged verify a round, and
  * each sequence banking, rewinding and being chained from its own rows. */
module Ragged {
  import opened Buffers
  import opened Model
  import opened Batches
  import opened Generation
  import opened Speculation
  import opened Together

  /** A round, and the index in the batch of the sequence it belongs to. */
  datatype Seated = Seated(at: nat, round: Round)

  /** A proposer of any kind for a batch: what it answers may depend on every call it has been made,
    * and it may answer for fewer sequences than it was asked about. */
  datatype BatchProposer = BatchProposer(depth: nat, propose: seq<seq<Seated>> -> seq<seq<Id>>) {
    ghost predicate Within(slack: nat) {
      forall calls :: ShortAll(propose(calls), slack)
    }
  }

  ghost predicate ShortAll(guesses: seq<seq<Id>>, slack: nat) {
    forall i :: 0 <= i < |guesses| ==> |guesses[i]| <= slack
  }

  /** What a sequence of the batch has just had committed: the rows, and what follows each. */
  datatype Commit = Commit(at: nat, hidden: seq<real>, next: seq<Id>)

  /** `hidden` and `next` are exactly what a sequence was fed while it went from `before` to `after`: those
    * rows normed, and the id after each. */
  ghost predicate OwnPart(net: Net, chained: bool, wish: Wish, before: seq<Id>, after: seq<Id>, hidden: seq<real>,
                          next: seq<Id>)
    requires net.Valid()
  {
    var fed, all := Behind(wish.prompt, before), Behind(wish.prompt, after);
    && after != [] && fed <= all && fed != all
    && next == all[|fed|..][1..] + [after[|after| - 1]]
    && hidden == if chained then Flat(States(net, wish.start.ids + fed, all[|fed|..])) else []
  }

  /** The rounds of one call that are sequence `at`'s. */
  ghost function OwnOf(seated: seq<Seated>, at: nat): seq<Round> {
    if seated == [] then []
    else
      var last := seated[|seated| - 1];
      OwnOf(seated[..|seated| - 1], at) + if last.at == at then [last.round] else []
  }

  /** All the rounds sequence `at` has been handed over in, call after call. */
  ghost function OwnRounds(calls: seq<seq<Seated>>, at: nat): seq<Round> {
    if calls == [] then [] else OwnRounds(calls[..|calls| - 1], at) + OwnOf(calls[|calls| - 1], at)
  }

  ghost predicate Rising(seated: seq<Seated>, n: nat) {
    && (forall s :: 0 <= s < |seated| ==> seated[s].at < n)
    && forall r, s :: 0 <= r < s < |seated| ==> seated[r].at < seated[s].at
  }

  ghost predicate Sits(seated: seq<Seated>, at: nat) {
    exists s :: 0 <= s < |seated| && seated[s].at == at
  }

  lemma {:induction false} OwnNone(seated: seq<Seated>, at: nat)
    requires !Sits(seated, at)
    ensures OwnOf(seated, at) == []
  {
    if seated != [] {
      var rest := seated[..|seated| - 1];
      assert forall s :: 0 <= s < |rest| ==> rest[s] == seated[s];
      OwnNone(rest, at);
      assert seated[|seated| - 1].at != at;
    }
  }

  lemma {:induction false} OwnOne(seated: seq<Seated>, s: nat, n: nat)
    requires Rising(seated, n) && s < |seated|
    ensures OwnOf(seated, seated[s].at) == [seated[s].round]
  {
    var last := |seated| - 1;
    var rest := seated[..last];
    if s == last {
      OwnNone(rest, seated[s].at);
    } else {
      OwnOne(rest, s, n);
    }
  }

  lemma OwnMore(calls: seq<seq<Seated>>, seated: seq<Seated>, at: nat)
    ensures OwnRounds(calls + [seated], at) == OwnRounds(calls, at) + OwnOf(seated, at)
  {
    assert (calls + [seated])[..|calls|] == calls;
  }

  /** What one sequence's proposer has been handed: every position of the sequence once and in order, as
    * far as it had come when it was last asked about, which for one that still owes tokens is all of it. */
  ghost predicate Covered(net: Net, depth: nat, wish: Wish, produced: seq<Id>, told: seq<Id>, rounds: seq<Round>)
    requires net.Valid()
  {
    && told <= produced && (|produced| < wish.count ==> told == produced)
    && Handed(net, depth > 0, wish.start.ids, wish.prompt, told, rounds)
    && Offered(depth, wish.count, |wish.prompt|, rounds)
  }

  ghost predicate AllCovered(net: Net, depth: nat, wishes: seq<Wish>, produced: seq<seq<Id>>, told: seq<seq<Id>>,
                             calls: seq<seq<Seated>>)
    requires net.Valid()
  {
    && |told| == |produced| == |wishes| && (forall c :: 0 <= c < |calls| ==> Rising(calls[c], |wishes|))
    && forall at :: 0 <= at < |wishes| ==> Covered(net, depth, wishes[at], produced[at], told[at], OwnRounds(calls, at))
  }

  /** Each sequence's own commit of what it was last fed. */
  ghost predicate Commits(net: Net, chained: bool, wishes: seq<Wish>, before: seq<seq<Id>>, after: seq<seq<Id>>,
                          commits: seq<Commit>)
    requires net.Valid() && |before| == |after| == |wishes|
  {
    && (forall i :: 0 <= i < |commits| ==> Committed(net, chained, wishes, before, after, commits[i]))
    && forall i, j :: 0 <= i < j < |commits| ==> commits[i].at < commits[j].at
  }

  ghost predicate Committed(net: Net, chained: bool, wishes: seq<Wish>, before: seq<seq<Id>>, after: seq<seq<Id>>,
                            commit: Commit)
    requires net.Valid() && |before| == |after| == |wishes|
  {
    && commit.at < |wishes|
    && (after[commit.at] != [] ==>
          OwnPart(net, chained, wishes[commit.at], before[commit.at], after[commit.at], commit.hidden, commit.next))
  }

  ghost predicate Commences(commits: seq<Commit>, at: nat) {
    exists i :: 0 <= i < |commits| && commits[i].at == at
  }

  /** The round a commit opens for a proposer of `depth`, where the sequence still owes `left`. */
  function RoundOf(commit: Commit, depth: nat, left: nat): Round {
    Round(if depth > 0 then commit.hidden else [], commit.next, DepthFor(depth, left))
  }

  /** The rounds a proposer is to be asked about: those of the first `upto` commits whose sequences still
    * owe a token. */
  ghost predicate SeatsOf(seated: seq<Seated>, commits: seq<Commit>, produced: seq<seq<Id>>, counts: seq<nat>,
                          depth: nat, upto: nat)
    requires |produced| == |counts| && upto <= |commits|
  {
    && Rising(seated, |counts|)
    && (forall s :: 0 <= s < |seated| ==> SeatOf(seated[s], commits, upto, produced, counts, depth))
    && forall i :: 0 <= i < upto && commits[i].at < |counts| && |produced[commits[i].at]| < counts[commits[i].at] ==>
         Sits(seated, commits[i].at)
  }

  ghost predicate SeatOf(seated: Seated, commits: seq<Commit>, upto: nat, produced: seq<seq<Id>>, counts: seq<nat>,
                         depth: nat)
    requires |produced| == |counts| && upto <= |commits|
  {
    && seated.at < |counts| && |produced[seated.at]| < counts[seated.at]
    && exists i :: 0 <= i < upto && commits[i].at == seated.at
         && seated.round == RoundOf(commits[i], depth, counts[seated.at] - |produced[seated.at]|)
  }

  /** A round for each commit whose sequence has not all its tokens, in batch order. */
  method SeatRounds(commits: seq<Commit>, produced: seq<seq<Id>>, counts: seq<nat>, depth: nat)
    returns (seated: seq<Seated>)
    requires |produced| == |counts|
    requires forall i :: 0 <= i < |commits| ==> commits[i].at < |counts|
    requires forall i, j :: 0 <= i < j < |commits| ==> commits[i].at < commits[j].at
    ensures SeatsOf(seated, commits, produced, counts, depth, |commits|)
  {
    seated := [];
    for i := 0 to |commits|
      invariant SeatsOf(seated, commits, produced, counts, depth, i)
      invariant forall s :: 0 <= s < |seated| ==> i > 0 && seated[s].at <= commits[i - 1].at
    {
      var at := commits[i].at;
      var left := counts[at] - |produced[at]|;
      SeatsKeep(seated, commits, produced, counts, depth, i);
      if left > 0 {
        var seat := Seated(at, RoundOf(commits[i], depth, left));
        assert SeatOf(seat, commits, i + 1, produced, counts, depth);
        SeatsMore(seated, seat, commits, produced, counts, depth, i);
        seated := seated + [seat];
      }
    }
  }

  /** One more commit leaves every seat already found the seat it was. */
  lemma SeatsKeep(seated: seq<Seated>, commits: seq<Commit>, produced: seq<seq<Id>>, counts: seq<nat>, depth: nat,
                  upto: nat)
    requires |produced| == |counts| && upto < |commits| && SeatsOf(seated, commits, produced, counts, depth, upto)
    ensures forall s :: 0 <= s < |seated| ==> SeatOf(seated[s], commits, upto + 1, produced, counts, depth)
  {
    forall s | 0 <= s < |seated|
      ensures SeatOf(seated[s], commits, upto + 1, produced, counts, depth)
    {
      assert SeatOf(seated[s], commits, upto, produced, counts, depth);
    }
  }

  lemma SeatsMore(seated: seq<Seated>, seat: Seated, commits: seq<Commit>, produced: seq<seq<Id>>, counts: seq<nat>,
                  depth: nat, upto: nat)
    requires |produced| == |counts| && upto < |commits| && SeatsOf(seated, commits, produced, counts, depth, upto)
    requires forall s :: 0 <= s < |seated| ==> SeatOf(seated[s], commits, upto + 1, produced, counts, depth)
    requires forall s :: 0 <= s < |seated| ==> seated[s].at < seat.at
    requires SeatOf(seat, commits, upto + 1, produced, counts, depth) && seat.at == commits[upto].at
    ensures SeatsOf(seated + [seat], commits, produced, counts, depth, upto + 1)
  {
    var more := seated + [seat];
    assert more[|seated|] == seat;
    forall i | 0 <= i < upto + 1 && commits[i].at < |counts| && |produced[commits[i].at]| < counts[commits[i].at]
      ensures Sits(more, commits[i].at)
    {
      if i < upto {
        var s :| 0 <= s < |seated| && seated[s].at == commits[i].at;
        assert more[s].at == commits[i].at;
      }
    }
  }

  /** What was proposed for each sequence asked about, put where the next verify reads it; a sequence
    * that was not asked about, or not answered for, has none. */
  method Place(n: nat, seated: seq<Seated>, proposed: seq<seq<Id>>) returns (guesses: seq<seq<Id>>)
    requires forall s :: 0 <= s < |seated| ==> seated[s].at < n
    requires forall r, s :: 0 <= r < s < |seated| ==> seated[r].at < seated[s].at
    ensures |guesses| == n
    ensures forall s :: 0 <= s < |seated| && s < |proposed| ==> guesses[seated[s].at] == proposed[s]
    ensures forall at :: 0 <= at < n && (forall s :: 0 <= s < |seated| && s < |proposed| ==> seated[s].at != at) ==>
        guesses[at] == []
  {
    guesses := seq(n, _ => []);
    var upto := if |seated| < |proposed| then |seated| else |proposed|;
    for s := 0 to upto
      invariant |guesses| == n
      invariant forall r :: 0 <= r < s ==> guesses[seated[r].at] == proposed[r]
      invariant forall at :: 0 <= at < n && (forall r :: 0 <= r < s ==> seated[r].at != at) ==> guesses[at] == []
    {
      guesses := guesses[seated[s].at := proposed[s]];
    }
  }

  /** One call of the proposer, over the sequences that have not all their tokens, and where its guesses
    * belong. */
  method Asking(net: Net, commits: seq<Commit>, produced: seq<seq<Id>>, counts: seq<nat>, proposer: BatchProposer,
                calls: seq<seq<Seated>>, ghost slack: nat, ghost wishes: seq<Wish>, ghost before: seq<seq<Id>>,
                ghost told: seq<seq<Id>>)
    returns (guesses: seq<seq<Id>>, asked: seq<seq<Seated>>, ghost heard: seq<seq<Id>>)
    requires net.Valid() && |produced| == |counts| == |wishes| && proposer.Within(slack)
    requires AllCovered(net, proposer.depth, wishes, before, told, calls)
    requires Extends(net, proposer.depth, wishes, before, produced, counts, commits)
    ensures |guesses| == |counts| && ShortAll(guesses, slack)
    ensures AllCovered(net, proposer.depth, wishes, produced, heard, asked) && heard == Heard(produced, counts, told)
  {
    var seated := SeatRounds(commits, produced, counts, proposer.depth);
    asked := if seated == [] then calls else calls + [seated];
    heard := Heard(produced, counts, told);
    AllAskedOnce(net, proposer.depth, wishes, before, produced, counts, commits, told, calls, seated, asked);
    if seated == [] {
      guesses := seq(|counts|, _ => []);
      return;
    }
    guesses := Guess(|counts|, seated, asked, proposer, slack);
  }

  /** What the proposer answers, each guess where its own sequence reads it. */
  method Guess(n: nat, seated: seq<Seated>, asked: seq<seq<Seated>>, proposer: BatchProposer, ghost slack: nat)
    returns (guesses: seq<seq<Id>>)
    requires Rising(seated, n) && proposer.Within(slack)
    ensures |guesses| == n && ShortAll(guesses, slack)
  {
    var proposed := proposer.propose(asked);
    guesses := Place(n, seated, proposed);
    assert ShortAll(proposed, slack);
    forall at | 0 <= at < |guesses|
      ensures |guesses[at]| <= slack
    {
      if s :| 0 <= s < |seated| && s < |proposed| && seated[s].at == at {
        assert guesses[seated[s].at] == proposed[s];
      }
    }
  }

  /** What each sequence had produced when it was last asked about: all of it, for one that still owes. */
  ghost function Heard(produced: seq<seq<Id>>, counts: seq<nat>, told: seq<seq<Id>>): (heard: seq<seq<Id>>)
    requires |told| == |produced| == |counts|
    ensures |heard| == |produced|
    ensures forall at :: 0 <= at < |produced| ==> heard[at] == if |produced[at]| < counts[at] then produced[at]
                                                               else told[at]
  {
    seq(|produced|, at requires 0 <= at < |produced| => if |produced[at]| < counts[at] then produced[at] else told[at])
  }

  /** A proposer is never behind a sequence by more than the round that finished it. */
  ghost predicate Abreast(produced: seq<seq<Id>>, counts: seq<nat>, told: seq<seq<Id>>, slack: nat) {
    && |told| == |produced| == |counts|
    && forall at :: 0 <= at < |produced| ==>
         && (|produced[at]| < counts[at] ==> told[at] == produced[at])
         && |told[at]| <= |produced[at]| <= |told[at]| + slack + 1
  }

  /** What one round may have added: to each sequence a round's worth, and nothing to one that had all it asked
    * for. */
  ghost predicate Strides(before: seq<seq<Id>>, produced: seq<seq<Id>>, counts: seq<nat>, slack: nat) {
    && |before| == |produced| == |counts|
    && forall at :: 0 <= at < |produced| ==>
         && |before[at]| <= |produced[at]| <= |before[at]| + slack + 1
         && (counts[at] <= |before[at]| ==> produced[at] == before[at])
  }

  lemma StillAbreast(before: seq<seq<Id>>, produced: seq<seq<Id>>, counts: seq<nat>, told: seq<seq<Id>>, slack: nat)
    requires Abreast(before, counts, told, slack) && Strides(before, produced, counts, slack)
    ensures Abreast(produced, counts, Heard(produced, counts, told), slack)
  {
  }

  /** A round of the batch carried it from `before` to `produced`, and committed what every sequence that
    * still owes was fed in it. */
  ghost predicate Extends(net: Net, depth: nat, wishes: seq<Wish>, before: seq<seq<Id>>, produced: seq<seq<Id>>,
                          counts: seq<nat>, commits: seq<Commit>)
    requires net.Valid()
  {
    && |before| == |produced| == |counts| == |wishes|
    && (forall at :: 0 <= at < |counts| ==>
          && wishes[at].count == counts[at] && before[at] <= produced[at]
          && (|produced[at]| < counts[at] ==> wishes[at].prompt != [] && produced[at] != [] && Commences(commits, at)))
    && Commits(net, depth > 0, wishes, before, produced, commits)
    && (depth == 0 ==> forall i :: 0 <= i < |commits| ==> commits[i].hidden == [])
  }

  lemma AllAskedOnce(net: Net, depth: nat, wishes: seq<Wish>, before: seq<seq<Id>>, produced: seq<seq<Id>>,
                     counts: seq<nat>, commits: seq<Commit>, told: seq<seq<Id>>, calls: seq<seq<Seated>>,
                     seated: seq<Seated>, asked: seq<seq<Seated>>)
    requires net.Valid() && AllCovered(net, depth, wishes, before, told, calls)
    requires Extends(net, depth, wishes, before, produced, counts, commits)
    requires SeatsOf(seated, commits, produced, counts, depth, |commits|)
    requires asked == if seated == [] then calls else calls + [seated]
    ensures AllCovered(net, depth, wishes, produced, Heard(produced, counts, told), asked)
  {
    var heard := Heard(produced, counts, told);
    forall at | 0 <= at < |wishes|
      ensures Covered(net, depth, wishes[at], produced[at], heard[at], OwnRounds(asked, at))
    {
      assert Covered(net, depth, wishes[at], before[at], told[at], OwnRounds(calls, at));
      OwnAsked(calls, seated, asked, at);
      OneCovered(net, depth, wishes, before, produced, counts, commits, told[at], seated, at, OwnRounds(calls, at));
    }
  }

  /** Whether it is asked about or not, a sequence stays covered. */
  lemma OneCovered(net: Net, depth: nat, wishes: seq<Wish>, before: seq<seq<Id>>, produced: seq<seq<Id>>,
                   counts: seq<nat>, commits: seq<Commit>, told: seq<Id>, seated: seq<Seated>, at: nat,
                   rounds: seq<Round>)
    requires net.Valid() && Extends(net, depth, wishes, before, produced, counts, commits)
    requires SeatsOf(seated, commits, produced, counts, depth, |commits|) && at < |wishes|
    requires Covered(net, depth, wishes[at], before[at], told, rounds)
    ensures Covered(net, depth, wishes[at], produced[at], if |produced[at]| < counts[at] then produced[at] else told,
                    rounds + OwnOf(seated, at))
  {
    if |produced[at]| < counts[at] {
      AskedOnce(net, depth, wishes, before, produced, counts, commits, seated, at, rounds);
    } else {
      NotSeated(seated, commits, produced, counts, depth, at);
      OwnNone(seated, at);
      assert rounds + [] == rounds;
    }
  }

  lemma NotSeated(seated: seq<Seated>, commits: seq<Commit>, produced: seq<seq<Id>>, counts: seq<nat>, depth: nat,
                  at: nat)
    requires |produced| == |counts| && SeatsOf(seated, commits, produced, counts, depth, |commits|)
    requires at < |counts| && counts[at] <= |produced[at]|
    ensures !Sits(seated, at)
  {
    forall s | 0 <= s < |seated|
      ensures seated[s].at != at
    {
      assert SeatOf(seated[s], commits, |commits|, produced, counts, depth);
    }
  }

  lemma OwnAsked(calls: seq<seq<Seated>>, seated: seq<Seated>, asked: seq<seq<Seated>>, at: nat)
    requires asked == if seated == [] then calls else calls + [seated]
    ensures OwnRounds(asked, at) == OwnRounds(calls, at) + OwnOf(seated, at)
  {
    OwnMore(calls, seated, at);
  }

  /** A sequence that still owes is asked about once, in a round of its own. */
  lemma AskedOnce(net: Net, depth: nat, wishes: seq<Wish>, before: seq<seq<Id>>, produced: seq<seq<Id>>,
                  counts: seq<nat>, commits: seq<Commit>, seated: seq<Seated>, at: nat, rounds: seq<Round>)
    requires net.Valid() && Extends(net, depth, wishes, before, produced, counts, commits)
    requires SeatsOf(seated, commits, produced, counts, depth, |commits|)
    requires at < |wishes| && |produced[at]| < counts[at]
    requires Covered(net, depth, wishes[at], before[at], before[at], rounds)
    ensures Covered(net, depth, wishes[at], produced[at], produced[at], rounds + OwnOf(seated, at))
  {
    var i, round := SeatAt(seated, commits, produced, counts, depth, at);
    assert Committed(net, depth > 0, wishes, before, produced, commits[i]);
    PartHanded(net, depth, wishes[at], before[at], produced[at], commits[i], rounds, round);
  }

  /** The one seat of a sequence that still owes, and the commit that opened it. */
  lemma SeatAt(seated: seq<Seated>, commits: seq<Commit>, produced: seq<seq<Id>>, counts: seq<nat>, depth: nat, at: nat)
    returns (i: nat, round: Round)
    requires |produced| == |counts| && SeatsOf(seated, commits, produced, counts, depth, |commits|)
    requires at < |counts| && |produced[at]| < counts[at] && Commences(commits, at)
    ensures i < |commits| && commits[i].at == at && round == RoundOf(commits[i], depth, counts[at] - |produced[at]|)
    ensures OwnOf(seated, at) == [round]
  {
    var j :| 0 <= j < |commits| && commits[j].at == at;
    assert Sits(seated, commits[j].at);
    var s :| 0 <= s < |seated| && seated[s].at == at;
    OwnOne(seated, s, |counts|);
    assert SeatOf(seated[s], commits, |commits|, produced, counts, depth);
    i :| 0 <= i < |commits| && commits[i].at == at
      && seated[s].round == RoundOf(commits[i], depth, counts[at] - |produced[at]|);
    round := seated[s].round;
  }

  lemma PartHanded(net: Net, depth: nat, wish: Wish, before: seq<Id>, after: seq<Id>, commit: Commit,
                   rounds: seq<Round>, round: Round)
    requires net.Valid() && wish.prompt != [] && before <= after && 0 < |after| < wish.count
    requires OwnPart(net, depth > 0, wish, before, after, commit.hidden, commit.next)
    requires depth == 0 ==> commit.hidden == []
    requires round == RoundOf(commit, depth, wish.count - |after|)
    requires Covered(net, depth, wish, before, before, rounds)
    ensures Covered(net, depth, wish, after, after, rounds + [round])
  {
    PartFollows(net, depth > 0, wish, before, after, commit, rounds, round);
    OfferedMore(net, depth > 0, wish.start.ids, wish.prompt, after, rounds, round, depth, wish.count);
  }

  lemma PartFollows(net: Net, chained: bool, wish: Wish, before: seq<Id>, after: seq<Id>, commit: Commit,
                    rounds: seq<Round>, round: Round)
    requires net.Valid() && before <= after && after != []
    requires OwnPart(net, chained, wish, before, after, commit.hidden, commit.next)
    requires round.next == commit.next && round.hidden == commit.hidden
    requires Handed(net, chained, wish.start.ids, wish.prompt, before, rounds)
    ensures Handed(net, chained, wish.start.ids, wish.prompt, after, rounds + [round])
  {
    var fed, all := Behind(wish.prompt, before), Behind(wish.prompt, after);
    var more := all[|fed|..];
    assert fed + more == all && more != [];
    if before != [] {
      assert |before| < |after|;
      LastIsNext(wish.prompt, before, after);
    }
    HandedMore(net, chained, wish.start.ids, wish.prompt, before, after, rounds, more, round);
  }

  /** The next row a run feeds is the last token it had produced. */
  lemma LastIsNext(prompt: seq<Id>, before: seq<Id>, after: seq<Id>)
    requires before != [] && before <= after && |before| < |after|
    ensures |Behind(prompt, before)| < |Behind(prompt, after)|
    ensures Behind(prompt, after)[|Behind(prompt, before)|] == before[|before| - 1]
  {
    assert before[|before| - 1] == after[|before| - 1];
  }

  /** What a prompt's own pass commits: every row of it, and the token after each. */
  lemma PromptPart(net: Net, chained: bool, wish: Wish, first: Id, hidden: seq<real>)
    requires net.Valid() && wish.prompt != []
    requires hidden == if chained then Flat(States(net, wish.start.ids, wish.prompt)) else []
    ensures OwnPart(net, chained, wish, [], [first], hidden, wish.prompt[1..] + [first])
  {
    assert Behind(wish.prompt, [first]) == wish.prompt && wish.prompt[0..] == wish.prompt;
    assert wish.start.ids + [] == wish.start.ids;
  }

  /** The token each sequence owes the next call is the last it produced. */
  ghost predicate PendingOf(produced: seq<seq<Id>>, pending: seq<Id>) {
    && |pending| == |produced|
    && forall at :: 0 <= at < |produced| && produced[at] != [] ==> pending[at] == produced[at][|produced[at]| - 1]
  }

  /** Every prompt on its own, the token that follows it, and the round it opens. */
  method OpenRounds(net: Net, caches: seq<ModelCache>, prompts: seq<seq<Id>>, counts: seq<nat>, chained: bool,
                    ghost starts: seq<Position>)
    returns (produced: seq<seq<Id>>, pending: seq<Id>, commits: seq<Commit>, ghost nows: seq<Position>)
    requires net.Valid() && Unshared(caches) && AllHold(net, caches, starts) && |caches| == |prompts| == |counts|
    requires AllAsked(net, Wishes(starts, prompts, counts))
    modifies CachesRepr(caches)
    ensures AllHold(net, caches, nows) && AllProgress(net, Wishes(starts, prompts, counts), produced, nows)
    ensures PendingOf(produced, pending)
        && Commits(net, chained, Wishes(starts, prompts, counts), Nothing(|counts|), produced, commits)
    ensures |commits| == |counts| && forall i :: 0 <= i < |commits| ==> commits[i].at == i
    ensures !chained ==> forall i :: 0 <= i < |commits| ==> commits[i].hidden == []
    ensures forall at :: 0 <= at < |produced| ==> |produced[at]| <= 1
  {
    ghost var wishes := Wishes(starts, prompts, counts);
    produced, pending, commits, nows := seq(|prompts|, _ => []), seq(|prompts|, _ => 0), [], starts;
    for at := 0 to |caches|
      invariant AllHold(net, caches, nows)
      invariant RoundsOpen(net, chained, wishes, produced, pending, commits, nows, at)
    {
      if counts[at] == 0 {
        RoundSkipped(net, chained, wishes, produced, pending, commits, nows, at);
        commits := commits + [Commit(at, [], [])];
      } else {
        var tailed := Open(net, caches, at, prompts[at], chained, nows);
        var first := tailed.picks[0];
        var commit := Commit(at, tailed.normed, prompts[at][1..] + [first]);
        RoundOpened(net, chained, wishes, produced, pending, commits, nows, at, first, commit);
        produced, pending, nows := produced[at := [first]], pending[at := first], nows[at := nows[at].Fed(prompts[at])];
        commits := commits + [commit];
      }
    }
  }

  /** A batch that has produced nothing. */
  ghost function Nothing(n: nat): (produced: seq<seq<Id>>)
    ensures |produced| == n && forall at :: 0 <= at < n ==> produced[at] == []
  {
    seq(n, _ => [])
  }

  /** The first `upto` sequences opened, each with the round it opens. */
  ghost predicate RoundsOpen(net: Net, chained: bool, wishes: seq<Wish>, produced: seq<seq<Id>>, pending: seq<Id>,
                             commits: seq<Commit>, nows: seq<Position>, upto: nat)
    requires net.Valid()
  {
    && Opening(net, wishes, produced, nows, upto) && PendingOf(produced, pending)
    && (forall at :: 0 <= at < |produced| ==> |produced[at]| <= 1)
    && |commits| == upto && (forall i :: 0 <= i < upto ==> commits[i].at == i)
    && Commits(net, chained, wishes, Nothing(|wishes|), produced, commits)
    && (!chained ==> forall i :: 0 <= i < |commits| ==> commits[i].hidden == [])
  }

  lemma RoundSkipped(net: Net, chained: bool, wishes: seq<Wish>, produced: seq<seq<Id>>, pending: seq<Id>,
                     commits: seq<Commit>, nows: seq<Position>, at: nat)
    requires net.Valid() && AllAsked(net, wishes) && at < |wishes| && wishes[at].count == 0
    requires RoundsOpen(net, chained, wishes, produced, pending, commits, nows, at)
    ensures RoundsOpen(net, chained, wishes, produced, pending, commits + [Commit(at, [], [])], nows, at + 1)
  {
    NotAsked(net, wishes, produced, nows, at);
    CommitsPush(net, chained, wishes, Nothing(|wishes|), produced, commits, Commit(at, [], []));
  }

  lemma RoundOpened(net: Net, chained: bool, wishes: seq<Wish>, produced: seq<seq<Id>>, pending: seq<Id>,
                    commits: seq<Commit>, nows: seq<Position>, at: nat, first: Id, commit: Commit)
    requires net.Valid() && AllAsked(net, wishes) && at < |wishes| && wishes[at].count > 0
    requires RoundsOpen(net, chained, wishes, produced, pending, commits, nows, at)
    requires first == Picks(net, nows[at].ids, wishes[at].prompt)[|wishes[at].prompt| - 1]
    requires commit.at == at && commit.next == wishes[at].prompt[1..] + [first]
    requires commit.hidden == if chained then Flat(States(net, nows[at].ids, wishes[at].prompt)) else []
    ensures RoundsOpen(net, chained, wishes, produced[at := [first]], pending[at := first], commits + [commit],
                       nows[at := nows[at].Fed(wishes[at].prompt)], at + 1)
  {
    var after := produced[at := [first]];
    assert nows[at] == wishes[at].start;
    OpenedOne(net, wishes, produced, nows, at, first);
    PromptPart(net, chained, wishes[at], first, commit.hidden);
    CommitsKeep(net, chained, wishes, Nothing(|wishes|), produced, commits, at, [first]);
    assert after[at] == [first];
    CommitsPush(net, chained, wishes, Nothing(|wishes|), after, commits, commit);
  }

  lemma CommitsKeep(net: Net, chained: bool, wishes: seq<Wish>, before: seq<seq<Id>>, produced: seq<seq<Id>>,
                    commits: seq<Commit>, at: nat, own: seq<Id>)
    requires net.Valid() && |before| == |produced| == |wishes| && at < |wishes|
    requires Commits(net, chained, wishes, before, produced, commits)
    requires forall i :: 0 <= i < |commits| ==> commits[i].at < at
    ensures Commits(net, chained, wishes, before, produced[at := own], commits)
  {
    forall i | 0 <= i < |commits|
      ensures Committed(net, chained, wishes, before, produced[at := own], commits[i])
    {
      assert Committed(net, chained, wishes, before, produced, commits[i]);
    }
  }

  /** What one sequence banks of a round, cut to what it still owes. */
  method Bank(net: Net, guesses: seq<Id>, picks: seq<Id>, left: nat, ghost wish: Wish, ghost produced: seq<Id>,
              ghost now: Position)
    returns (round: seq<Id>)
    requires Progress(net, wish, produced, now) && 0 < |produced| < wish.count && left == wish.count - |produced|
    requires picks == Picks(net, now.ids, [produced[|produced| - 1]] + guesses)
    ensures 0 < |round| <= |guesses| + 1 && |round| <= left
    ensures Greedy(net, wish.Known(), produced + round)
    ensures now.ids + ([produced[|produced| - 1]] + guesses)[..|round|]
        == wish.Known() + (produced + round)[..|produced + round| - 1]
  {
    ghost var ids := [produced[|produced| - 1]] + guesses;
    OwingNext(wish.Known(), produced, now.ids, guesses);
    BlockAnswers(net, wish.Known(), produced, now.ids, ids, guesses);
    assert picks[0..] == picks;
    var banked := Banked(guesses, picks);
    RoundIsGreedy(net, wish.Known(), produced, guesses, picks, banked);
    var held := if |banked| < left then |banked| else left;
    round := banked[..held];
    EmittedGreedy(net, wish.Known(), produced, banked, held);
    KeptRows(wish.Known(), produced, now.ids, ids, guesses, banked, held);
  }

  /** One sequence's round settled: its tokens, and its own rejected rows out of its own cache. */
  method Settle(net: Net, caches: seq<ModelCache>, live: seq<nat>, i: nat, feeding: seq<seq<Id>>, guesses: seq<Id>,
                picks: seq<Id>, left: nat, ghost wish: Wish, ghost produced: seq<Id>, ghost nows: seq<Position>)
    returns (round: seq<Id>, ghost moved: Position)
    requires |nows| == |caches| && |feeding| == |live| && i < |live| && Ascending(live, |caches|) && Unshared(caches)
    requires Fed(net, caches, nows, live, feeding, i)
    requires Progress(net, wish, produced, nows[live[i]]) && 0 < |produced| < wish.count
        && left == wish.count - |produced|
    requires |guesses| <= wish.start.level.slack && feeding[i] == [produced[|produced| - 1]] + guesses
    requires picks == Picks(net, nows[live[i]].ids, feeding[i])
    modifies CachesRepr(caches)
    ensures Fed(net, caches, nows[live[i] := moved], live, feeding, i + 1)
    ensures 0 < |round| <= |guesses| + 1
    ensures Progress(net, wish, produced + round, moved)
    ensures moved.ids == nows[live[i]].ids + feeding[i][..|round|]
  {
    ghost var now := nows[live[i]];
    round := Bank(net, guesses, picks, left, wish, produced, now);
    assert caches[live[i]].Holds(net, now.Fed(feeding[i]));
    moved := TakeBack(net, caches[live[i]], feeding[i], |round|, now);
    ghost var thens := nows[live[i] := moved];
    forall j | i < j < |live|
      ensures caches[live[j]].Holds(net, thens[live[j]].Fed(feeding[j]))
    {
      assert old(caches[live[j]].Holds(net, nows[live[j]].Fed(feeding[j])));
    }
    forall at | 0 <= at < |caches| && forall j :: i < j < |live| ==> live[j] != at
      ensures caches[at].Holds(net, thens[at])
    {
      if at != live[i] {
        assert old(caches[at].Holds(net, nows[at]));
      }
    }
  }

  lemma SamePast(past: seq<Id>, a: seq<Id>, b: seq<Id>)
    requires past + a == past + b
    ensures a == b
  {
    assert (past + a)[|past|..] == a && (past + b)[|past|..] == b;
  }

  /** What a later round commits is what its own sequence was fed in it. */
  lemma RoundPart(net: Net, chained: bool, wish: Wish, produced: seq<Id>, round: seq<Id>, now: Position, ids: seq<Id>,
                  hidden: seq<real>, next: seq<Id>)
    requires Progress(net, wish, produced, now) && 0 < |produced| < wish.count && 0 < |round| <= |ids|
    requires now.ids + ids[..|round|] == wish.Known() + (produced + round)[..|produced + round| - 1]
    requires next == ids[..|round|][1..] + [round[|round| - 1]]
    requires hidden == if chained then Flat(States(net, now.ids, ids)[..|round|]) else []
    ensures OwnPart(net, chained, wish, produced, produced + round, hidden, next)
  {
    var before, more := Behind(wish.prompt, produced), ids[..|round|];
    var after := produced + round;
    var all := Behind(wish.prompt, after);
    Associates(wish.start.ids, wish.prompt, produced[..|produced| - 1]);
    Associates(wish.start.ids, before, more);
    Associates(wish.start.ids, wish.prompt, after[..|after| - 1]);
    SamePast(wish.start.ids, all, before + more);
    assert all[|before|..] == more;
    assert ids == more + ids[|round|..];
    StatesTile(net, now.ids, more, ids[|round|..]);
    assert after[|after| - 1] == round[|round| - 1];
  }

  /** A round of the live sequences partway settled: those before the `i`th hold what they banked, and
    * the rest are as they were. */
  ghost predicate Settling(net: Net, wishes: seq<Wish>, live: seq<nat>, produced: seq<seq<Id>>, nows: seq<Position>,
                           after: seq<seq<Id>>, thens: seq<Position>, rounds: seq<seq<Id>>)
  {
    && |produced| == |nows| == |after| == |thens| == |wishes| && |rounds| <= |live| && Ascending(live, |wishes|)
    && (forall at :: 0 <= at < |wishes| ==> Progress(net, wishes[at], after[at], thens[at]))
    && (forall j :: 0 <= j < |rounds| ==> after[live[j]] == produced[live[j]] + rounds[j] && 0 < |rounds[j]|)
    && forall at :: 0 <= at < |wishes| && at !in live[..|rounds|] ==> after[at] == produced[at] && thens[at] == nows[at]
  }

  lemma SettledOne(net: Net, wishes: seq<Wish>, live: seq<nat>, produced: seq<seq<Id>>, nows: seq<Position>,
                   after: seq<seq<Id>>, thens: seq<Position>, rounds: seq<seq<Id>>, round: seq<Id>, moved: Position)
    requires Settling(net, wishes, live, produced, nows, after, thens, rounds) && |rounds| < |live| && round != []
    requires var at := live[|rounds|]; Progress(net, wishes[at], produced[at] + round, moved)
    ensures var at := live[|rounds|];
      Settling(net, wishes, live, produced, nows, after[at := produced[at] + round], thens[at := moved],
               rounds + [round])
  {
    var i := |rounds|;
    assert live[..i + 1] == live[..i] + [live[i]];
    assert (rounds + [round])[..i] == rounds;
  }

  /** A live sequence's ids for the next call: the last it was given, then what was guessed to follow. */
  function Feeding(pending: seq<Id>, guesses: seq<seq<Id>>, live: seq<nat>): (feeding: seq<seq<Id>>)
    requires |pending| == |guesses| && forall i :: 0 <= i < |live| ==> live[i] < |pending|
    ensures |feeding| == |live|
    ensures forall i :: 0 <= i < |live| ==> feeding[i] == [pending[live[i]]] + guesses[live[i]]
  {
    seq(|live|, i requires 0 <= i < |live| => [pending[live[i]]] + guesses[live[i]])
  }

  /** The batch between rounds, by sequence: tokens so far, the last of them, and the guesses to follow it. */
  datatype Running = Running(produced: seq<seq<Id>>, pending: seq<Id>, guesses: seq<seq<Id>>)

  ghost predicate InStep(wishes: seq<Wish>, run: Running, slack: nat) {
    |run.produced| == |run.guesses| == |wishes| && ShortAll(run.guesses, slack) && PendingOf(run.produced, run.pending)
  }

  /** A sequence whose turn has not come stands where it did. */
  lemma Unsettled(net: Net, wishes: seq<Wish>, live: seq<nat>, produced: seq<seq<Id>>, nows: seq<Position>,
                  after: seq<seq<Id>>, thens: seq<Position>, rounds: seq<seq<Id>>, i: nat)
    requires Settling(net, wishes, live, produced, nows, after, thens, rounds) && |rounds| == i < |live|
    ensures thens[live[i]] == nows[live[i]] && after[live[i]] == produced[live[i]]
    ensures Progress(net, wishes[live[i]], produced[live[i]], nows[live[i]])
  {
    assert live[i] !in live[..i];
  }

  lemma PendingOne(produced: seq<seq<Id>>, pending: seq<Id>, at: nat, round: seq<Id>)
    requires PendingOf(produced, pending) && at < |produced| && round != []
    ensures PendingOf(produced[at := produced[at] + round], pending[at := round[|round| - 1]])
  {
  }

  lemma GainedOne(wishes: seq<Wish>, live: seq<nat>, before: seq<seq<Id>>, nows: seq<Position>, feeding: seq<seq<Id>>,
                  rounds: seq<seq<Id>>, thens: seq<Position>, round: seq<Id>, moved: Position)
    requires |before| == |nows| == |thens| == |wishes| && |rounds| < |live| == |feeding| && Ascending(live, |wishes|)
    requires AllGained(wishes, live, before, nows, feeding, rounds, thens, |rounds|)
    requires var i := |rounds|; Gained(wishes[live[i]], before[live[i]], nows[live[i]], feeding[i], round, moved)
    ensures AllGained(wishes, live, before, nows, feeding, rounds + [round], thens[live[|rounds|] := moved],
                      |rounds| + 1)
  {
    var n, more, after := |rounds|, rounds + [round], thens[live[|rounds|] := moved];
    forall i | 0 <= i < n + 1
      ensures Gained(wishes[live[i]], before[live[i]], nows[live[i]], feeding[i], more[i], after[live[i]])
    {
      if i < n {
        assert live[i] != live[n];
        assert Gained(wishes[live[i]], before[live[i]], nows[live[i]], feeding[i], rounds[i], thens[live[i]]);
      }
    }
  }

  /** Every live sequence's round settled in turn. */
  method SettleAll(net: Net, caches: seq<ModelCache>, counts: seq<nat>, live: seq<nat>, feeding: seq<seq<Id>>,
                   run: Running, picked: seq<Picked>, ghost slack: nat, ghost wishes: seq<Wish>,
                   ghost nows: seq<Position>)
    returns (produced: seq<seq<Id>>, pending: seq<Id>, rounds: seq<seq<Id>>, ghost thens: seq<Position>)
    requires |wishes| == |caches| == |counts| && Unshared(caches) && InStep(wishes, run, slack)
    requires Settling(net, wishes, live, run.produced, nows, run.produced, nows, [])
    requires forall i :: 0 <= i < |live| ==> 0 < |run.produced[live[i]]| < counts[live[i]]
    requires forall at :: 0 <= at < |wishes| ==> counts[at] == wishes[at].count && slack <= wishes[at].start.level.slack
    requires feeding == Feeding(run.pending, run.guesses, live) && Fed(net, caches, nows, live, feeding, 0)
    requires net.Valid() && |picked| == |live|
    requires forall i :: 0 <= i < |live| ==> picked[i].picks == Picks(net, nows[live[i]].ids, feeding[i])
    modifies CachesRepr(caches)
    ensures AllHold(net, caches, thens) && PendingOf(produced, pending)
    ensures |rounds| == |live| && Settling(net, wishes, live, run.produced, nows, produced, thens, rounds)
    ensures AllGained(wishes, live, run.produced, nows, feeding, rounds, thens, |live|)
  {
    produced, pending, rounds, thens := run.produced, run.pending, [], nows;
    for i := 0 to |live|
      invariant |rounds| == i && Settling(net, wishes, live, run.produced, nows, produced, thens, rounds)
      invariant Fed(net, caches, thens, live, feeding, i) && PendingOf(produced, pending)
      invariant AllGained(wishes, live, run.produced, nows, feeding, rounds, thens, i)
    {
      var at := live[i];
      Unsettled(net, wishes, live, run.produced, nows, produced, thens, rounds, i);
      var round;
      ghost var moved;
      round, moved := Settle(net, caches, live, i, feeding, run.guesses[at], picked[i].picks,
                             counts[at] - |run.produced[at]|, wishes[at], run.produced[at], thens);
      assert Gained(wishes[at], run.produced[at], nows[at], feeding[i], round, moved);
      SettledOne(net, wishes, live, run.produced, nows, produced, thens, rounds, round, moved);
      GainedOne(wishes, live, run.produced, nows, feeding, rounds, thens, round, moved);
      PendingOne(produced, pending, at, round);
      produced, pending := produced[at := produced[at] + round], pending[at := round[|round| - 1]];
      rounds, thens := rounds + [round], thens[at := moved];
    }
  }

  /** Where `held` rows from the `first` lie in a flat buffer. */
  method Offsets(first: nat, held: nat, width: nat) returns (from: nat, to: nat)
    ensures from == first * width && to == (first + held) * width
  {
    from, to := first * width, (first + held) * width;
  }

  /** The first `held` normed rows of sequence `i`, cut out of the rows of the whole call. */
  method OwnHidden(net: Net, verified: Verified, i: nat, held: nat, chained: bool, ghost batch: seq<Batched>,
                   ghost ats: seq<Position>)
    returns (hidden: seq<real>)
    requires net.Valid() && |ats| == |batch| && i < |batch| && held <= |batch[i].ids|
    requires |verified.picked| == |batch| && PickedOwn(net, batch, ats, verified.picked)
    requires verified.normed == if chained then Flat(Flat(AllStates(net, batch, ats))) else []
    ensures hidden == if chained then Flat(States(net, ats[i].ids, batch[i].ids)[..held]) else []
  {
    var first := verified.picked[i].first;
    var from, to := Offsets(first, held, net.hidden);
    OwnRows(net, batch, ats, i, held, from, to);
    hidden := if chained then verified.normed[from..to] else [];
  }

  /** What one live sequence's round has come to: something banked, and its cache on by as many of the
    * rows it was fed. */
  ghost predicate Gained(wish: Wish, before: seq<Id>, now: Position, ids: seq<Id>, round: seq<Id>, moved: Position) {
    && 0 < |before| < wish.count && 0 < |round| <= |ids|
    && moved.ids == now.ids + ids[..|round|]
  }

  ghost predicate AllGained(wishes: seq<Wish>, live: seq<nat>, before: seq<seq<Id>>, nows: seq<Position>,
                            feeding: seq<seq<Id>>, rounds: seq<seq<Id>>, thens: seq<Position>, n: nat)
    requires |before| == |nows| == |thens| == |wishes| && n <= |live| == |feeding| && n <= |rounds|
    requires forall i :: 0 <= i < |live| ==> live[i] < |wishes|
  {
    forall i :: 0 <= i < n ==>
      Gained(wishes[live[i]], before[live[i]], nows[live[i]], feeding[i], rounds[i], thens[live[i]])
  }

  /** The rounds the live sequences committed. */
  method CommitAll(net: Net, live: seq<nat>, feeding: seq<seq<Id>>, rounds: seq<seq<Id>>, verified: Verified,
                   chained: bool, ghost batch: seq<Batched>, ghost wishes: seq<Wish>, ghost before: seq<seq<Id>>,
                   ghost nows: seq<Position>, ghost after: seq<seq<Id>>, ghost thens: seq<Position>)
    returns (commits: seq<Commit>)
    requires net.Valid() && |rounds| == |live| == |feeding| == |batch|
    requires AllProgress(net, wishes, before, nows) && Settling(net, wishes, live, before, nows, after, thens, rounds)
    requires forall i :: 0 <= i < |live| ==> batch[i].ids == feeding[i]
    requires AllGained(wishes, live, before, nows, feeding, rounds, thens, |live|)
    requires |verified.picked| == |batch| && PickedOwn(net, batch, At(nows, live), verified.picked)
    requires verified.normed == if chained then Flat(Flat(AllStates(net, batch, At(nows, live)))) else []
    ensures Commits(net, chained, wishes, before, after, commits)
    ensures |commits| == |live| && forall i :: 0 <= i < |live| ==> commits[i].at == live[i]
    ensures !chained ==> forall i :: 0 <= i < |commits| ==> commits[i].hidden == []
  {
    commits := [];
    for i := 0 to |live|
      invariant CommitsUpTo(net, chained, wishes, before, after, live, commits, i)
    {
      ghost var at := live[i];
      assert Gained(wishes[at], before[at], nows[at], feeding[i], rounds[i], thens[at]);
      assert Progress(net, wishes[at], before[at], nows[at]) && after[at] == before[at] + rounds[i];
      var commit := CommitOne(net, live[i], i, feeding[i], rounds[i], verified, chained, batch, At(nows, live),
                              wishes[at], before[at], after[at], thens[at]);
      CommitsOn(net, chained, wishes, before, after, live, commits, i, commit);
      commits := commits + [commit];
    }
  }

  /** The commits of the first `n` live sequences. */
  ghost predicate CommitsUpTo(net: Net, chained: bool, wishes: seq<Wish>, before: seq<seq<Id>>, after: seq<seq<Id>>,
                              live: seq<nat>, commits: seq<Commit>, n: nat)
    requires net.Valid() && |before| == |after| == |wishes| && n <= |live|
  {
    && |commits| == n && (forall j :: 0 <= j < n ==> commits[j].at == live[j])
    && Commits(net, chained, wishes, before, after, commits)
    && (!chained ==> forall j :: 0 <= j < n ==> commits[j].hidden == [])
  }

  lemma CommitsOn(net: Net, chained: bool, wishes: seq<Wish>, before: seq<seq<Id>>, after: seq<seq<Id>>,
                  live: seq<nat>, commits: seq<Commit>, n: nat, commit: Commit)
    requires net.Valid() && |before| == |after| == |wishes| && n < |live| && Ascending(live, |wishes|)
    requires CommitsUpTo(net, chained, wishes, before, after, live, commits, n)
    requires commit.at == live[n] && Committed(net, chained, wishes, before, after, commit)
    requires !chained ==> commit.hidden == []
    ensures CommitsUpTo(net, chained, wishes, before, after, live, commits + [commit], n + 1)
  {
    CommitsPush(net, chained, wishes, before, after, commits, commit);
  }

  lemma CommitsPush(net: Net, chained: bool, wishes: seq<Wish>, before: seq<seq<Id>>, after: seq<seq<Id>>,
                    commits: seq<Commit>, commit: Commit)
    requires net.Valid() && |before| == |after| == |wishes| && Commits(net, chained, wishes, before, after, commits)
    requires Committed(net, chained, wishes, before, after, commit)
    requires forall i :: 0 <= i < |commits| ==> commits[i].at < commit.at
    ensures Commits(net, chained, wishes, before, after, commits + [commit])
  {
  }

  method CommitOne(net: Net, at: nat, i: nat, ids: seq<Id>, round: seq<Id>, verified: Verified, chained: bool,
                   ghost batch: seq<Batched>, ghost ats: seq<Position>, ghost wish: Wish, ghost produced: seq<Id>,
                   ghost after: seq<Id>, ghost moved: Position)
    returns (commit: Commit)
    requires net.Valid() && |ats| == |batch| && i < |batch| && batch[i].ids == ids && 0 < |round| <= |ids|
    requires |verified.picked| == |batch| && PickedOwn(net, batch, ats, verified.picked)
    requires verified.normed == if chained then Flat(Flat(AllStates(net, batch, ats))) else []
    requires Progress(net, wish, produced, ats[i]) && Gained(wish, produced, ats[i], ids, round, moved)
    requires after == produced + round && Progress(net, wish, after, moved)
    ensures commit.at == at && OwnPart(net, chained, wish, produced, after, commit.hidden, commit.next)
    ensures !chained ==> commit.hidden == []
  {
    var held := |round|;
    var hidden := OwnHidden(net, verified, i, held, chained, batch, ats);
    var next := ids[1..held] + [round[held - 1]];
    CommitOwn(net, chained, wish, produced, round, ats[i], ids, hidden, next, after, moved);
    commit := Commit(at, hidden, next);
  }

  lemma CommitOwn(net: Net, chained: bool, wish: Wish, produced: seq<Id>, round: seq<Id>, now: Position, ids: seq<Id>,
                  hidden: seq<real>, next: seq<Id>, after: seq<Id>, moved: Position)
    requires Progress(net, wish, produced, now) && 0 < |produced| < wish.count && 0 < |round| <= |ids|
    requires after == produced + round && Progress(net, wish, after, moved) && moved.ids == now.ids + ids[..|round|]
    requires next == ids[1..|round|] + [round[|round| - 1]]
    requires hidden == if chained then Flat(States(net, now.ids, ids)[..|round|]) else []
    ensures OwnPart(net, chained, wish, produced, after, hidden, next)
  {
    assert ids[1..|round|] == ids[..|round|][1..];
    RoundPart(net, chained, wish, produced, round, now, ids, hidden, next);
  }

  /** One round of every sequence that still owes a token: one ragged verify, and a settlement apiece. */
  method RoundLive(net: Net, caches: seq<ModelCache>, counts: seq<nat>, live: seq<nat>, run: Running, chained: bool,
                   ghost slack: nat, ghost wishes: seq<Wish>, ghost nows: seq<Position>)
    returns (produced: seq<seq<Id>>, pending: seq<Id>, commits: seq<Commit>, ghost thens: seq<Position>)
    requires net.Valid() && |wishes| == |caches| == |counts| && Unshared(caches) && AllHold(net, caches, nows)
    requires InStep(wishes, run, slack) && AllProgress(net, wishes, run.produced, nows)
    requires live != [] && Ascending(live, |caches|)
    requires forall i :: 0 <= i < |live| ==> 0 < |run.produced[live[i]]| < wishes[live[i]].count
    requires forall at :: 0 <= at < |wishes| ==> counts[at] == wishes[at].count && slack <= wishes[at].start.level.slack
    modifies CachesRepr(caches)
    ensures AllHold(net, caches, thens) && AllProgress(net, wishes, produced, thens)
    ensures forall at :: 0 <= at < |wishes| ==> run.produced[at] <= produced[at]
    ensures |run.produced[live[0]]| < |produced[live[0]]|
    ensures forall at :: 0 <= at < |wishes| ==>
      |produced[at]| <= |run.produced[at]| + slack + 1 && (at !in live ==> produced[at] == run.produced[at])
    ensures PendingOf(produced, pending) && Commits(net, chained, wishes, run.produced, produced, commits)
    ensures |commits| == |live| && forall i :: 0 <= i < |live| ==> commits[i].at == live[i]
    ensures !chained ==> forall i :: 0 <= i < |commits| ==> commits[i].hidden == []
  {
    var feeding := Feeding(run.pending, run.guesses, live);
    var verified, rounds;
    ghost var batch;
    verified, batch := FeedLive(net, caches, live, feeding, chained, nows);
    produced, pending, rounds, thens :=
      SettleAll(net, caches, counts, live, feeding, run, verified.picked, slack, wishes, nows);
    commits := CommitAll(net, live, feeding, rounds, verified, chained, batch, wishes, run.produced, nows, produced,
                         thens);
    Grown(net, wishes, live, run.produced, nows, produced, thens, rounds);
    Strode(net, wishes, live, run.produced, nows, produced, thens, rounds, feeding, slack);
  }

  /** No round is longer than what was fed for it. */
  lemma Strode(net: Net, wishes: seq<Wish>, live: seq<nat>, produced: seq<seq<Id>>, nows: seq<Position>,
               after: seq<seq<Id>>, thens: seq<Position>, rounds: seq<seq<Id>>, feeding: seq<seq<Id>>, slack: nat)
    requires Settling(net, wishes, live, produced, nows, after, thens, rounds) && |rounds| == |live| == |feeding|
    requires AllGained(wishes, live, produced, nows, feeding, rounds, thens, |live|)
    requires forall i :: 0 <= i < |live| ==> |feeding[i]| <= slack + 1
    ensures forall at :: 0 <= at < |wishes| ==>
      |after[at]| <= |produced[at]| + slack + 1 && (at !in live ==> after[at] == produced[at])
  {
    assert live[..|live|] == live;
    forall at | 0 <= at < |wishes| && at in live
      ensures |after[at]| <= |produced[at]| + slack + 1
    {
      var j :| 0 <= j < |live| && live[j] == at;
      assert after[live[j]] == produced[live[j]] + rounds[j];
      assert Gained(wishes[live[j]], produced[live[j]], nows[live[j]], feeding[j], rounds[j], thens[live[j]]);
    }
  }

  lemma Grown(net: Net, wishes: seq<Wish>, live: seq<nat>, produced: seq<seq<Id>>, nows: seq<Position>,
              after: seq<seq<Id>>, thens: seq<Position>, rounds: seq<seq<Id>>)
    requires Settling(net, wishes, live, produced, nows, after, thens, rounds) && |rounds| == |live| > 0
    ensures forall at :: 0 <= at < |wishes| ==> produced[at] <= after[at]
    ensures |produced[live[0]]| < |after[live[0]]|
  {
    assert live[..|live|] == live;
    forall at | 0 <= at < |wishes|
      ensures produced[at] <= after[at]
    {
      if at in live {
        var j :| 0 <= j < |live| && live[j] == at;
        assert after[live[j]] == produced[live[j]] + rounds[j];
      }
    }
    assert after[live[0]] == produced[live[0]] + rounds[0];
  }

  /** Every prompt's own pass, and what the proposer makes of the rounds they open. */
  method FirstRound(net: Net, caches: seq<ModelCache>, prompts: seq<seq<Id>>, counts: seq<nat>, proposer: BatchProposer,
                    ghost slack: nat, ghost starts: seq<Position>, ghost wishes: seq<Wish>)
    returns (run: Running, calls: seq<seq<Seated>>, ghost nows: seq<Position>, ghost told: seq<seq<Id>>)
    requires net.Valid() && Unshared(caches) && AllHold(net, caches, starts) && |caches| == |prompts| == |counts|
    requires wishes == Wishes(starts, prompts, counts) && AllAsked(net, wishes) && proposer.Within(slack)
    modifies CachesRepr(caches)
    ensures AllHold(net, caches, nows) && AllProgress(net, wishes, run.produced, nows) && InStep(wishes, run, slack)
    ensures AllCovered(net, proposer.depth, wishes, run.produced, told, calls)
    ensures Abreast(run.produced, counts, told, slack)
  {
    var produced, pending, commits, guesses;
    produced, pending, commits, nows := OpenRounds(net, caches, prompts, counts, proposer.depth > 0, starts);
    Begun(net, wishes, produced, nows);
    told := Nothing(|counts|);
    OpensCovered(net, proposer.depth, wishes, told, produced, counts, commits);
    StillAbreast(told, produced, counts, told, slack);
    guesses, calls, told := Asking(net, commits, produced, counts, proposer, [], slack, wishes, told, told);
    run := Running(produced, pending, guesses);
  }

  /** The same several generations with guesses made for all of them at once: what each is given is
    * what `GenerateBatch` gives it, whatever was guessed, and what the proposer was handed of each is
    * that sequence, every position of it once. */
  method SpeculateBatch(net: Net, caches: seq<ModelCache>, prompts: seq<seq<Id>>, counts: seq<nat>,
                        proposer: BatchProposer, ghost slack: nat, ghost starts: seq<Position>)
    returns (produced: seq<seq<Id>>, calls: seq<seq<Seated>>, ghost nows: seq<Position>, ghost told: seq<seq<Id>>)
    requires net.Valid() && Unshared(caches) && AllHold(net, caches, starts) && |caches| == |prompts| == |counts|
    requires AllAsked(net, Wishes(starts, prompts, counts)) && proposer.Within(slack)
    requires forall at :: 0 <= at < |starts| ==> slack <= starts[at].level.slack
    modifies CachesRepr(caches)
    ensures AllHold(net, caches, nows) && AllGranted(net, Wishes(starts, prompts, counts), produced, nows)
    ensures AllCovered(net, proposer.depth, Wishes(starts, prompts, counts), produced, told, calls)
    ensures Abreast(produced, counts, told, slack)
  {
    ghost var wishes := Wishes(starts, prompts, counts);
    var run;
    run, calls, nows, told := FirstRound(net, caches, prompts, counts, proposer, slack, starts, wishes);
    while true
      invariant AllHold(net, caches, nows) && AllProgress(net, wishes, run.produced, nows)
      invariant InStep(wishes, run, slack) && AllCovered(net, proposer.depth, wishes, run.produced, told, calls)
      invariant Abreast(run.produced, counts, told, slack)
      decreases Owed(run.produced, counts, |counts|)
    {
      var live := Live(run.produced, counts);
      Together.AllOwe(net, wishes, run.produced, nows, live);
      if live == [] {
        produced := run.produced;
        return;
      }
      run, calls, nows, told := NextRound(net, caches, counts, live, run, proposer, calls, slack, wishes, nows, told);
    }
  }

  /** Nothing has been handed over of sequences that have produced nothing, and every one that owes opens
    * a round. */
  lemma OpensCovered(net: Net, depth: nat, wishes: seq<Wish>, nothing: seq<seq<Id>>, produced: seq<seq<Id>>,
                     counts: seq<nat>, commits: seq<Commit>)
    requires net.Valid() && AllAsked(net, wishes) && |produced| == |counts| == |wishes| && nothing == Nothing(|wishes|)
    requires forall at :: 0 <= at < |wishes| ==>
        wishes[at].count == counts[at] && (counts[at] > 0 ==> produced[at] != [])
    requires Commits(net, depth > 0, wishes, nothing, produced, commits)
    requires |commits| == |counts| && forall i :: 0 <= i < |commits| ==> commits[i].at == i
    requires depth == 0 ==> forall i :: 0 <= i < |commits| ==> commits[i].hidden == []
    ensures AllCovered(net, depth, wishes, nothing, nothing, [])
    ensures Extends(net, depth, wishes, nothing, produced, counts, commits)
  {
    forall at | 0 <= at < |counts|
      ensures Commences(commits, at)
    {
      assert commits[at].at == at;
    }
  }

  /** One round of the batch, and what the proposer makes of it. */
  method NextRound(net: Net, caches: seq<ModelCache>, counts: seq<nat>, live: seq<nat>, run: Running,
                   proposer: BatchProposer, calls: seq<seq<Seated>>, ghost slack: nat, ghost wishes: seq<Wish>,
                   ghost nows: seq<Position>, ghost told: seq<seq<Id>>)
    returns (next: Running, asked: seq<seq<Seated>>, ghost thens: seq<Position>, ghost heard: seq<seq<Id>>)
    requires net.Valid() && |wishes| == |caches| == |counts| && Unshared(caches) && AllHold(net, caches, nows)
    requires InStep(wishes, run, slack) && AllProgress(net, wishes, run.produced, nows)
    requires live != [] && Ascending(live, |caches|) && proposer.Within(slack)
    requires forall i :: 0 <= i < |live| ==> 0 < |run.produced[live[i]]| < wishes[live[i]].count
    requires forall at :: 0 <= at < |wishes| ==> (at in live <==> |run.produced[at]| < counts[at])
    requires forall at :: 0 <= at < |wishes| ==> counts[at] == wishes[at].count && slack <= wishes[at].start.level.slack
    requires AllCovered(net, proposer.depth, wishes, run.produced, told, calls)
    requires Abreast(run.produced, counts, told, slack)
    modifies CachesRepr(caches)
    ensures AllHold(net, caches, thens) && AllProgress(net, wishes, next.produced, thens) && InStep(wishes, next, slack)
    ensures AllCovered(net, proposer.depth, wishes, next.produced, heard, asked)
    ensures Abreast(next.produced, counts, heard, slack)
    ensures Owed(next.produced, counts, |counts|) < Owed(run.produced, counts, |counts|)
  {
    var produced, pending, commits, guesses;
    produced, pending, commits, thens :=
      RoundLive(net, caches, counts, live, run, proposer.depth > 0, slack, wishes, nows);
    Begun(net, wishes, produced, thens);
    OwedLess(run.produced, produced, counts, live[0], |counts|);
    LiveExtends(net, proposer.depth, wishes, run.produced, produced, thens, counts, live, commits);
    guesses, asked, heard := Asking(net, commits, produced, counts, proposer, calls, slack, wishes, run.produced, told);
    next := Running(produced, pending, guesses);
    StillAbreast(run.produced, produced, counts, told, slack);
  }

  /** Every sequence that still owes after a round was live in it. */
  lemma LiveExtends(net: Net, depth: nat, wishes: seq<Wish>, before: seq<seq<Id>>, produced: seq<seq<Id>>,
                    thens: seq<Position>, counts: seq<nat>, live: seq<nat>, commits: seq<Commit>)
    requires |before| == |counts| == |wishes| && AllProgress(net, wishes, produced, thens) && net.Valid()
    requires forall at :: 0 <= at < |wishes| ==> counts[at] == wishes[at].count && before[at] <= produced[at]
    requires forall at :: 0 <= at < |wishes| ==> (at in live <==> |before[at]| < counts[at])
    requires |commits| == |live| && forall i :: 0 <= i < |live| ==> commits[i].at == live[i]
    requires Commits(net, depth > 0, wishes, before, produced, commits)
    requires depth == 0 ==> forall i :: 0 <= i < |commits| ==> commits[i].hidden == []
    ensures Extends(net, depth, wishes, before, produced, counts, commits)
  {
    forall at | 0 <= at < |counts| && |produced[at]| < counts[at]
      ensures wishes[at].prompt != [] && produced[at] != [] && Commences(commits, at)
    {
      assert Progress(net, wishes[at], produced[at], thens[at]);
      assert at in live;
      var i :| 0 <= i < |live| && live[i] == at;
      assert commits[i].at == at;
    }
  }

  lemma Begun(net: Net, wishes: seq<Wish>, produced: seq<seq<Id>>, nows: seq<Position>)
    requires AllProgress(net, wishes, produced, nows)
    ensures forall at :: 0 <= at < |wishes| ==>
        |produced[at]| <= wishes[at].count && (wishes[at].count > 0 ==> produced[at] != [])
  {
    forall at | 0 <= at < |wishes|
      ensures |produced[at]| <= wishes[at].count && (wishes[at].count > 0 ==> produced[at] != [])
    {
      assert Progress(net, wishes[at], produced[at], nows[at]);
    }
  }
}
