/** A simulated conversation driven turn by turn through one kept cache. */
module Sessions {
  import opened Buffers
  import opened Ops
  import opened Model
  import opened Speculation
  import opened Keeping

  /** `ids` repeated without end, `skip` of them dropped and `take` kept: what repeats is nothing where
    * there is nothing to repeat. */
  function Repeated(ids: seq<Id>, skip: nat, take: nat): (out: seq<Id>)
    ensures ids != [] ==> |out| == take && forall i :: 0 <= i < take ==> out[i] == ids[(skip + i) % |ids|]
  {
    if ids == [] then [] else seq<Id>(take, i requires 0 <= i < take => ids[(skip + i) % |ids|])
  }

  /** Tokens a conversation opens at, how many turns it takes, and how many tokens the user adds and
    * the model produces in each. */
  datatype Session = Session(opening: nat, turns: nat, added: nat, generated: nat) {

    /** What the user adds at the end of turn `at`. */
    function Added(ids: seq<Id>, at: nat): seq<Id> {
      Repeated(ids, opening + at * added, added)
    }

    /** The ids a turn prompts with: its predecessor's, that turn's reply, and `added` more out of the
      * repeated script. */
    ghost function PromptOf(ids: seq<Id>, turn: nat, produced: seq<seq<Id>>): seq<Id>
      requires turn <= |produced|
    {
      if turn == 0 then Repeated(ids, 0, opening)
      else PromptOf(ids, turn - 1, produced) + produced[turn - 1] + Added(ids, turn - 1)
    }

    /** How long a turn's prompt is. */
    ghost function Length(turn: nat): nat {
      if turn == 0 then opening else Length(turn - 1) + generated + added
    }

    /** Whether every prompt of `n` turns but the last may be kept: whether the longest of them may. */
    ghost predicate Fits(bound: nat, n: nat) {
      n <= 1 || opening + (n - 2) * (generated + added) <= bound + 1
    }

    method Prompt(ids: seq<Id>, turn: nat, produced: seq<seq<Id>>) returns (prompt: seq<Id>)
      ensures prompt == PromptOf(ids, if turn < |produced| then turn else |produced|, produced)
    {
      prompt := Repeated(ids, 0, opening);
      var upto := if turn < |produced| then turn else |produced|;
      for at := 0 to upto
        invariant prompt == PromptOf(ids, at, produced)
      {
        prompt := prompt + produced[at];
        prompt := prompt + Added(ids, at);
      }
    }

    /** A prompt is settled by the replies before its own turn, and every later one extends it. */
    lemma {:induction false} PromptsExtend(ids: seq<Id>, earlier: nat, turn: nat, produced: seq<seq<Id>>,
                                           more: seq<seq<Id>>)
      requires earlier <= turn <= |produced|
      ensures PromptOf(ids, earlier, produced + more) == PromptOf(ids, earlier, produced)
      ensures PromptOf(ids, earlier, produced) <= PromptOf(ids, turn, produced)
      decreases turn
    {
      if earlier < turn {
        PromptsExtend(ids, earlier, turn - 1, produced, more);
      } else if turn > 0 {
        PromptsExtend(ids, earlier - 1, turn - 1, produced, more);
      }
    }
  }

  /** What one turn cost: the tokens of its prompt, how many of them were already held, and what it
    * produced. */
  datatype Turn = Turn(prompt: nat, reused: nat, produced: seq<Id>)

  ghost function Replies(turns: seq<Turn>): (produced: seq<seq<Id>>)
    ensures |produced| == |turns|
    ensures forall t :: 0 <= t < |turns| ==> produced[t] == turns[t].produced
  {
    seq(|turns|, t requires 0 <= t < |turns| => turns[t].produced)
  }

  /** What is still held of a prompt by the turn after it. */
  function Carried(prompt: nat, bound: nat): nat {
    if 0 < prompt <= bound + 1 then prompt - 1 else 0
  }

  /** Every turn answered its prompt as a cold cache would, and carried over all of the prompt before
    * it but the last token, where that was within the bound. */
  ghost predicate Told(net: Net, bound: nat, session: Session, ids: seq<Id>, turns: seq<Turn>, first: nat)
    requires net.Valid() && session.opening > 0 && ids != []
  {
    forall t :: 0 <= t < |turns| ==> ToldAt(net, bound, session, ids, turns, first, t)
  }

  ghost predicate ToldAt(net: Net, bound: nat, session: Session, ids: seq<Id>, turns: seq<Turn>, first: nat, t: nat)
    requires net.Valid() && session.opening > 0 && ids != [] && t < |turns|
  {
    var prompt := session.PromptOf(ids, t, Replies(turns));
    && prompt != [] && turns[t].prompt == |prompt|
    && |turns[t].produced| == session.generated
    && (session.generated > 0 ==> Greedy(net, prompt, turns[t].produced))
    && turns[t].reused == if t == 0 then first else Carried(turns[t - 1].prompt, bound)
  }

  lemma {:induction false} Opens(session: Session, ids: seq<Id>, t: nat, produced: seq<seq<Id>>)
    requires session.opening > 0 && ids != [] && t <= |produced|
    ensures session.PromptOf(ids, t, produced) != []
  {
    session.PromptsExtend(ids, 0, t, produced, []);
    assert produced + [] == produced;
  }

  lemma ToldMore(net: Net, bound: nat, session: Session, ids: seq<Id>, turns: seq<Turn>, first: nat, turn: Turn)
    requires net.Valid() && session.opening > 0 && ids != [] && Told(net, bound, session, ids, turns, first)
    requires var prompt := session.PromptOf(ids, |turns|, Replies(turns));
      && prompt != [] && turn.prompt == |prompt| && |turn.produced| == session.generated
      && (session.generated > 0 ==> Greedy(net, prompt, turn.produced))
    requires turn.reused == if turns == [] then first else Carried(turns[|turns| - 1].prompt, bound)
    ensures Told(net, bound, session, ids, turns + [turn], first)
  {
    var longer := turns + [turn];
    RepliesPush(turns, turn);
    forall t | 0 <= t < |longer|
      ensures ToldAt(net, bound, session, ids, longer, first, t)
    {
      session.PromptsExtend(ids, t, |turns|, Replies(turns), [turn.produced]);
      if t < |turns| {
        assert ToldAt(net, bound, session, ids, turns, first, t);
        StillTold(net, bound, session, ids, turns, longer, first, t);
      } else {
        ToldLast(net, bound, session, ids, turns, longer, first, turn);
      }
    }
  }

  lemma ToldLast(net: Net, bound: nat, session: Session, ids: seq<Id>, turns: seq<Turn>, longer: seq<Turn>, first: nat,
                 turn: Turn)
    requires net.Valid() && session.opening > 0 && ids != [] && longer == turns + [turn]
    requires session.PromptOf(ids, |turns|, Replies(longer)) == session.PromptOf(ids, |turns|, Replies(turns))
    requires var prompt := session.PromptOf(ids, |turns|, Replies(turns));
      && prompt != [] && turn.prompt == |prompt| && |turn.produced| == session.generated
      && (session.generated > 0 ==> Greedy(net, prompt, turn.produced))
    requires turn.reused == if turns == [] then first else Carried(turns[|turns| - 1].prompt, bound)
    ensures ToldAt(net, bound, session, ids, longer, first, |turns|)
  {
  }

  lemma RepliesPush(turns: seq<Turn>, turn: Turn)
    ensures Replies(turns + [turn]) == Replies(turns) + [turn.produced]
  {
  }

  /** What was told of a turn is told of it however many follow. */
  lemma StillTold(net: Net, bound: nat, session: Session, ids: seq<Id>, turns: seq<Turn>, longer: seq<Turn>, first: nat,
                  t: nat)
    requires net.Valid() && session.opening > 0 && ids != [] && t < |turns| <= |longer| && longer[..|turns|] == turns
    requires session.PromptOf(ids, t, Replies(longer)) == session.PromptOf(ids, t, Replies(turns))
    requires ToldAt(net, bound, session, ids, turns, first, t)
    ensures ToldAt(net, bound, session, ids, longer, first, t)
  {
    assert longer[t] == turns[t];
    if t > 0 {
      assert longer[t - 1] == turns[t - 1];
    }
  }

  /** The whole session, turn by turn. */
  method Run(kept: Kept, session: Session, ids: seq<Id>) returns (turns: seq<Turn>, ghost first: nat)
    requires kept.Valid() && session.opening > 0 && ids != []
    modifies kept.Repr()
    ensures kept.Valid() && |turns| == session.turns
    ensures first == old(kept.Matching(Repeated(ids, 0, session.opening)))
    ensures Told(kept.net, kept.bound, session, ids, turns, first)
  {
    turns := [];
    var produced: seq<seq<Id>> := [];
    first := kept.Matching(Repeated(ids, 0, session.opening));
    for turn := 0 to session.turns
      invariant kept.Valid() && fresh(kept.Repr() - old(kept.Repr()))
      invariant |turns| == turn && produced == Replies(turns)
      invariant Told(kept.net, kept.bound, session, ids, turns, first)
      invariant turn == 0 ==> first == kept.Matching(Repeated(ids, 0, session.opening))
      invariant turn > 0 ==> HeldAfter(kept.bound, session, ids, turns, kept.ids)
    {
      var prompt := session.Prompt(ids, turn, produced);
      Opens(session, ids, turn, produced);
      CarriedOver(kept, session, ids, turns, prompt);
      var reply, served := kept.Turn(prompt, Ending(session.generated, None), (_: seq<Id>) => false);
      var one := Turn(|prompt|, served.reused, reply);
      ToldMore(kept.net, kept.bound, session, ids, turns, first, one);
      HeldNext(kept.bound, session, ids, turns, one, prompt);
      turns := turns + [one];
      produced := produced + [reply];
    }
  }

  /** What is held after a turn: its prompt but the last token, or nothing. */
  ghost predicate HeldAfter(bound: nat, session: Session, ids: seq<Id>, turns: seq<Turn>, held: seq<Id>)
    requires turns != []
  {
    var prompt := session.PromptOf(ids, |turns| - 1, Replies(turns));
    && prompt != [] && turns[|turns| - 1].prompt == |prompt|
    && held == if |prompt| - 1 <= bound then prompt[..|prompt| - 1] else []
  }

  lemma HeldNext(bound: nat, session: Session, ids: seq<Id>, turns: seq<Turn>, turn: Turn, prompt: seq<Id>)
    requires prompt == session.PromptOf(ids, |turns|, Replies(turns)) && prompt != [] && turn.prompt == |prompt|
    ensures HeldAfter(bound, session, ids, turns + [turn], if |prompt| - 1 <= bound then prompt[..|prompt| - 1] else [])
  {
    assert Replies(turns + [turn]) == Replies(turns) + [turn.produced];
    session.PromptsExtend(ids, |turns|, |turns|, Replies(turns), [turn.produced]);
  }

  lemma CarriedOver(kept: Kept, session: Session, ids: seq<Id>, turns: seq<Turn>, prompt: seq<Id>)
    requires session.opening > 0 && ids != []
    requires prompt == session.PromptOf(ids, |turns|, Replies(turns))
    requires turns != [] ==> HeldAfter(kept.bound, session, ids, turns, kept.ids)
    ensures turns != [] ==> kept.Matching(prompt) == Carried(turns[|turns| - 1].prompt, kept.bound)
    ensures turns == [] ==> prompt == Repeated(ids, 0, session.opening)
  {
    if turns != [] {
      session.PromptsExtend(ids, |turns| - 1, |turns|, Replies(turns), []);
    }
  }

  /** Positions prefilled by the first `n` turns: each prompt but its last token, less what was held. */
  ghost function Prefilled(turns: seq<Turn>, n: nat): int
    requires n <= |turns|
  {
    if n == 0 then 0 else Prefilled(turns, n - 1) + turns[n - 1].prompt - 1 - turns[n - 1].reused
  }

  /** Positions of prompts past the bound, which the turn after each has to feed again. */
  ghost function Forgotten(turns: seq<Turn>, bound: nat, n: nat): nat
    requires n <= |turns|
  {
    if n == 0 then 0
    else Forgotten(turns, bound, n - 1) + if turns[n - 1].prompt > bound + 1 then turns[n - 1].prompt - 1 else 0
  }

  /** Over a session every position is prefilled once: the turns together prefill the last prompt but
    * its last token, and again only what was forgotten on the way. */
  lemma {:induction false} PrefilledOnce(net: Net, bound: nat, session: Session, ids: seq<Id>, turns: seq<Turn>,
                                         first: nat, n: nat)
    requires net.Valid() && session.opening > 0 && ids != [] && Told(net, bound, session, ids, turns, first)
    requires 0 < n <= |turns|
    ensures Prefilled(turns, n) + first == turns[n - 1].prompt - 1 + Forgotten(turns, bound, n - 1)
  {
    assert ToldAt(net, bound, session, ids, turns, first, n - 1);
    if n > 1 {
      PrefilledOnce(net, bound, session, ids, turns, first, n - 1);
      assert ToldAt(net, bound, session, ids, turns, first, n - 2);
    } else {
      assert Prefilled(turns, 0) == 0;
    }
  }

  /** What the first `n` turns were fed all fits what may be kept. */
  ghost predicate WithinBound(turns: seq<Turn>, bound: nat, n: nat)
    requires n <= |turns|
  {
    forall t :: 0 <= t < n ==> turns[t].prompt <= bound + 1
  }

  lemma {:induction false} NothingForgotten(turns: seq<Turn>, bound: nat, n: nat)
    requires n <= |turns|
    ensures Forgotten(turns, bound, n) == 0 <==> WithinBound(turns, bound, n)
  {
    if n > 0 {
      NothingForgotten(turns, bound, n - 1);
    }
  }

  /** A turn's prompt is the opening and, for each turn before it, what that produced and what was added. */
  lemma {:induction false} PromptLength(net: Net, bound: nat, session: Session, ids: seq<Id>, turns: seq<Turn>,
                                        first: nat, t: nat)
    requires net.Valid() && session.opening > 0 && ids != [] && Told(net, bound, session, ids, turns, first)
    requires t < |turns|
    ensures turns[t].prompt == session.Length(t)
  {
    assert ToldAt(net, bound, session, ids, turns, first, t);
    if t > 0 {
      PromptLength(net, bound, session, ids, turns, first, t - 1);
      assert ToldAt(net, bound, session, ids, turns, first, t - 1);
    }
  }

  lemma {:induction false} LengthsGrow(session: Session, t: nat, u: nat)
    requires t <= u
    ensures session.Length(t) <= session.Length(u)
    decreases u
  {
    if t < u {
      LengthsGrow(session, t, u - 1);
    }
  }

  lemma {:induction false} LengthIs(session: Session, t: nat)
    ensures session.Length(t) == session.opening + t * (session.generated + session.added)
  {
    if t > 0 {
      LengthIs(session, t - 1);
      var each := session.generated + session.added;
      assert t * each == (t - 1) * each + each;
    }
  }

  /** Every prompt but the last is within the bound when the longest of them is, which the session says before it
    * begins. */
  lemma FitsWithin(net: Net, bound: nat, session: Session, ids: seq<Id>, turns: seq<Turn>, first: nat)
    requires net.Valid() && session.opening > 0 && ids != [] && Told(net, bound, session, ids, turns, first)
    requires turns != []
    ensures WithinBound(turns, bound, |turns| - 1) <==> session.Fits(bound, |turns|)
  {
    var n := |turns|;
    forall t | 0 <= t < n
      ensures turns[t].prompt == session.Length(t) && (t <= n - 2 ==> session.Length(t) <= session.Length(n - 2))
    {
      PromptLength(net, bound, session, ids, turns, first, t);
      if t <= n - 2 {
        LengthsGrow(session, t, n - 2);
      }
    }
    if n > 1 {
      LengthIs(session, n - 2);
      assert turns[n - 2].prompt == session.Length(n - 2);
    }
  }

  /** A cold session prefills exactly its last prompt but one token when, and only when, the prompt before that
    * one is within the bound, which the session's own numbers say. */
  lemma PrefilledExactly(net: Net, bound: nat, session: Session, ids: seq<Id>, turns: seq<Turn>)
    requires net.Valid() && session.opening > 0 && ids != [] && Told(net, bound, session, ids, turns, 0)
    requires turns != []
    ensures Prefilled(turns, |turns|) == turns[|turns| - 1].prompt - 1 <==> session.Fits(bound, |turns|)
  {
    PrefilledOnce(net, bound, session, ids, turns, 0, |turns|);
    ExactlyOnce(turns, bound, |turns|, Prefilled(turns, |turns|));
    FitsWithin(net, bound, session, ids, turns, 0);
  }

  lemma ExactlyOnce(turns: seq<Turn>, bound: nat, n: nat, prefilled: int)
    requires 0 < n <= |turns| && prefilled == turns[n - 1].prompt - 1 + Forgotten(turns, bound, n - 1)
    ensures prefilled == turns[n - 1].prompt - 1 <==> WithinBound(turns, bound, n - 1)
  {
    NothingForgotten(turns, bound, n - 1);
  }

  /** Two turns are enough to break the count where nothing may be kept: an opening prompt of two tokens
    * and one more added are prefilled three positions, and the last prompt but one token is two. */
  lemma ForgottenTurn(net: Net, id: Id)
    requires net.Valid()
    ensures var session, ids, turns := Session(2, 2, 1, 0), [id], [Turn(2, 0, []), Turn(3, 0, [])];
      && Told(net, 0, session, ids, turns, 0)
      && Prefilled(turns, 2) == 3 && turns[1].prompt - 1 == 2
  {
    var session, ids := Session(2, 2, 1, 0), [id];
    var opening, later := Turn(2, 0, []), Turn(3, 0, []);
    ToldMore(net, 0, session, ids, [], 0, opening);
    assert [] + [opening] == [opening] && Replies([opening]) == [[]];
    ToldMore(net, 0, session, ids, [opening], 0, later);
    assert [opening] + [later] == [opening, later];
    assert Prefilled([opening, later], 1) == 1;
  }

  /** What the other arm of the comparison adds and decodes in a turn. */
  const ADDED: nat := 256
  const GENERATED: nat := 64
  const TURNS: nat := 5

  /** `a / n` rounded up, as a negation either side of a floor division spells it. */
  function CeilDiv(a: nat, n: nat): (q: nat)
    requires n > 0
    ensures a <= q * n < a + n
  {
    var below: int := 0 - a;
    var floor: int := below / n;
    assert below == floor * n + below % n;
    assert floor > 0 ==> floor * n >= n;
    0 - floor
  }

  /** `ids` written out `k` times. */
  function Times(ids: seq<Id>, k: nat): (out: seq<Id>)
    ensures |out| == k * |ids|
  {
    if k == 0 then [] else
      assert k * |ids| == (k - 1) * |ids| + |ids|;
      Times(ids, k - 1) + ids
  }

  lemma {:induction false} TimesAt(ids: seq<Id>, k: nat, i: nat)
    requires i < k * |ids|
    ensures |ids| > 0 && Times(ids, k)[i] == ids[i % |ids|]
  {
    assert k * |ids| == (k - 1) * |ids| + |ids|;
    if i < (k - 1) * |ids| {
      TimesAt(ids, k - 1, i);
    } else {
      DivisionIsUnique(i, |ids|, k - 1, i - (k - 1) * |ids|);
    }
  }

  lemma TimesIsRepeated(ids: seq<Id>, k: nat, skip: nat, take: nat)
    requires ids != [] && skip + take <= k * |ids|
    ensures Times(ids, k)[skip..skip + take] == Repeated(ids, skip, take)
  {
    forall i | 0 <= i < take
      ensures Times(ids, k)[skip + i] == Repeated(ids, skip, take)[i]
    {
      TimesAt(ids, k, skip + i);
    }
  }

  /** The other arm's own spelling of a prompt, by writing the pool out often enough and cutting it:
    * the same prompt, turn by turn. */
  method PromptFor(ids: seq<Id>, turn: nat, produced: seq<seq<Id>>, opening: nat) returns (prompt: seq<Id>)
    requires ids != []
    ensures prompt
        == Session(opening, TURNS, ADDED, GENERATED).PromptOf(ids, if turn < |produced| then turn
                                                                   else |produced|, produced)
  {
    ghost var session := Session(opening, TURNS, ADDED, GENERATED);
    var repeats := CeilDiv(opening, |ids|);
    TimesIsRepeated(ids, repeats, 0, opening);
    prompt := Times(ids, repeats)[..opening];
    var upto := if turn < |produced| then turn else |produced|;
    for at := 0 to upto
      invariant prompt == session.PromptOf(ids, at, produced)
    {
      prompt := prompt + produced[at];
      var start := opening + at * ADDED;
      var wrapped := Wrapped(ids, start);
      prompt := prompt + wrapped;
    }
  }

  method Wrapped(ids: seq<Id>, start: nat) returns (wrapped: seq<Id>)
    requires ids != []
    ensures wrapped == Repeated(ids, start, ADDED)
  {
    var times := CeilDiv(start + ADDED, |ids|) + 1;
    assert times * |ids| == CeilDiv(start + ADDED, |ids|) * |ids| + |ids|;
    TimesIsRepeated(ids, times, start, ADDED);
    wrapped := Times(ids, times)[start..start + ADDED];
  }
}
