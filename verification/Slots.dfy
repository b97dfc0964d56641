/** Slots and their residents: admission, dealing out rows, the call over the seated, and leaving. */
module Slots {
  import opened Ops
  import opened Model
  import opened Batches
  import opened Generation
  import opened Speculation
  import opened Keeping

  /** A prompt, and the number of tokens wanted after it. */
  datatype Request = Request(prompt: seq<Id>, count: nat)

  /** The slot a ticket was given, and the length of the prefix it did not have to feed. */
  datatype Admitted = Admitted(ticket: nat, slot: nat, reused: nat)

  /** One request, answered. */
  datatype Answered = Answered(ticket: nat, produced: seq<Id>)

  /** A seated request: its prompt and how much of that has been fed, what it has produced so far, and a mark
    * of its slot's cache where its kept ids end, once there is one. */
  datatype Resident = Resident(ticket: nat, prompt: seq<Id>, count: nat, filled: nat, produced: seq<Id>,
                               mark: Option<CacheMark>) {
    /** True while the prompt has at least two ids unfed. */
    predicate Filling() { filled + 1 < |prompt| }

    /** The ids to be recorded of it: its prompt, all but the last. */
    function Kept(): seq<Id>
      requires prompt != []
    {
      prompt[..|prompt| - 1]
    }

    /** The prompt rows it feeds next: never none while it is filling, and never the prompt's last. */
    function Chunk(share: nat): (rows: seq<Id>)
      requires Filling()
      ensures 0 < |rows| && filled + |rows| < |prompt| && |rows| <= (if share > 1 then share else 1)
      ensures prompt[..filled] + rows == prompt[..filled + |rows|]
    {
      var upto := filled + if share > 1 then share else 1;
      prompt[filled..if upto < |prompt| - 1 then upto else |prompt| - 1]
    }

    /** The id a decoding resident feeds next: the last it produced, or failing that the prompt's last. */
    function Owes(): Id
      requires prompt != []
    {
      if produced != [] then produced[|produced| - 1] else prompt[|prompt| - 1]
    }

    predicate Done() { |produced| >= count }

    /** What it carries once its rows are fed: more of its prompt in, or one more token. */
    function Told(rows: seq<Id>, picked: Id): Resident {
      if Filling() then this.(filled := filled + |rows|) else this.(produced := produced + [picked])
    }

    /** Everything fed to its slot's cache. */
    function Fed(): seq<Id> {
      if produced != [] then prompt + produced[..|produced| - 1]
      else if filled <= |prompt| then prompt[..filled]
      else prompt
    }

    /** Nothing is produced before all but the last id of the prompt has been fed, and what is produced is
      * what the prompt produces alone. */
    ghost predicate Sound(net: Net) {
      && net.Valid() && prompt != [] && count > 0 && filled < |prompt| && |produced| <= count
      && (produced != [] ==> !Filling() && mark.Some?)
      && Greedy(net, prompt, produced)
      && (mark.Some? ==> !Filling() && mark.value.Of(net, Kept0(net, Kept())))
    }
  }

  /** A place for one request at a time: a kept conversation, a resident if there is one, and a stamp of the
    * last leaving. */
  datatype Slot = Slot(kept: Kept, held: Option<Resident>, vacated: nat) {
    predicate Filling() { held.Some? && held.value.Filling() }
  }

  /** A key to `Lodged`, as `Sconv.WindowKey` is to a window. */
  ghost predicate SlotKey(key: nat) { true }

  /** A slot's cache stands at the end of the conversation it keeps, or where its resident has brought
    * it. */
  ghost predicate Lodged(net: Net, slot: Slot)
    reads slot.kept, slot.kept.cache.Repr
  {
    forall key {:trigger SlotKey(key)} :: SlotKey(key) ==> Lodging(net, slot)
  }

  ghost predicate Lodging(net: Net, slot: Slot)
    reads slot.kept, slot.kept.cache.Repr
  {
    && slot.kept.net == net
    && match slot.held
       case None => slot.kept.Valid()
       case Some(held) =>
         && held.Sound(net) && slot.kept !in slot.kept.cache.Repr
         && slot.kept.cache.Holds(net, Kept0(net, held.Fed()))
  }

  ghost function Keeps(slots: seq<Slot>): set<Kept> {
    set s | 0 <= s < |slots| :: slots[s].kept
  }

  /** Every slot lodged, on nothing but `repr`, and no two of them on anything shared. */
  ghost predicate Lodgings(net: Net, slots: seq<Slot>, repr: set<object>)
    reads repr
  {
    && (forall s :: 0 <= s < |slots| ==> On(slots[s], repr) && Lodged(net, slots[s]))
    && forall s, r :: 0 <= s < |slots| && 0 <= r < |slots| && s != r ==> slots[s].kept.Repr() !! slots[r].kept.Repr()
  }

  ghost predicate On(slot: Slot, repr: set<object>)
    reads repr
  {
    slot.kept in repr && slot.kept.cache.Repr <= repr
  }

  /** The slots a sequence can be put in. */
  predicate Free(slots: seq<Slot>, at: int) {
    0 <= at < |slots| && slots[at].held == None
  }

  /** The ids recorded in each slot. */
  ghost function Recorded(slots: seq<Slot>): (ids: seq<seq<Id>>)
    reads Keeps(slots)
    ensures |ids| == |slots| && forall s :: 0 <= s < |slots| ==> ids[s] == slots[s].kept.ids
  {
    seq(|slots|, s requires 0 <= s < |slots| reads Keeps(slots) => slots[s].kept.ids)
  }

  /** Which free slot a prompt takes, where `ids` are recorded: the lowest of those that match the most of it, if
    * any match; else the lowest with nothing recorded; else the one with the oldest stamp. */
  ghost predicate Chosen(slots: seq<Slot>, ids: seq<seq<Id>>, prompt: seq<Id>, at: nat)
    requires |ids| == |slots|
  {
    && Free(slots, at)
    && var matching := MatchingOf(ids[at], prompt);
       if exists or :: Free(slots, or) && MatchingOf(ids[or], prompt) > 0 then
         && (forall or :: Free(slots, or) ==> MatchingOf(ids[or], prompt) <= matching)
         && forall or :: Free(slots, or) && MatchingOf(ids[or], prompt) == matching ==> at <= or
       else if exists or :: Free(slots, or) && ids[or] == [] then
         ids[at] == [] && forall or :: Free(slots, or) && ids[or] == [] ==> at <= or
       else
         && (forall or :: Free(slots, or) ==> slots[at].vacated <= slots[or].vacated)
         && forall or :: Free(slots, or) && slots[or].vacated == slots[at].vacated ==> at <= or
  }

  /** Only what is recorded in the free slots decides. */
  lemma ChosenStill(slots: seq<Slot>, ids: seq<seq<Id>>, others: seq<seq<Id>>, prompt: seq<Id>, at: nat)
    requires |ids| == |others| == |slots| && Chosen(slots, ids, prompt, at)
    requires forall s :: Free(slots, s) ==> others[s] == ids[s]
    ensures Chosen(slots, others, prompt, at)
  {
  }

  /** The free slot with the most of `prompt` already in it, where one has any. */
  method Resumed(slots: seq<Slot>, prompt: seq<Id>) returns (at: Option<nat>)
    ensures at.None? ==> forall or :: Free(slots, or) ==> slots[or].kept.Matching(prompt) == 0
    ensures at.Some? ==> Free(slots, at.value) && slots[at.value].kept.Matching(prompt) > 0
    ensures at.Some? ==> forall or :: Free(slots, or) ==>
        slots[or].kept.Matching(prompt) <= slots[at.value].kept.Matching(prompt)
    ensures at.Some? ==> forall or :: Free(slots, or) && or < at.value ==>
              slots[or].kept.Matching(prompt) < slots[at.value].kept.Matching(prompt)
  {
    at := None;
    var most := 0;
    for s := 0 to |slots|
      invariant at.None? ==> most == 0
      invariant at.Some? ==> at.value < s && Free(slots, at.value) && slots[at.value].kept.Matching(prompt) == most > 0
      invariant forall or :: Free(slots, or) && or < s ==> slots[or].kept.Matching(prompt) <= most
      invariant at.Some? ==> forall or :: Free(slots, or) && or < at.value ==> slots[or].kept.Matching(prompt) < most
    {
      if Free(slots, s) && slots[s].kept.Matching(prompt) > most {
        at, most := Some(s), slots[s].kept.Matching(prompt);
      }
    }
  }

  /** The lowest free slot keeping no conversation. */
  method Empty(slots: seq<Slot>) returns (at: Option<nat>)
    ensures at.None? ==> forall or :: Free(slots, or) ==> slots[or].kept.ids != []
    ensures at.Some? ==> Free(slots, at.value) && slots[at.value].kept.ids == []
    ensures at.Some? ==> forall or :: Free(slots, or) && or < at.value ==> slots[or].kept.ids != []
  {
    for s := 0 to |slots|
      invariant forall or :: Free(slots, or) && or < s ==> slots[or].kept.ids != []
    {
      if Free(slots, s) && slots[s].kept.ids == [] {
        return Some(s);
      }
    }
    at := None;
  }

  /** The free slot a sequence left longest ago. */
  method Oldest(slots: seq<Slot>) returns (at: Option<nat>)
    ensures at.None? <==> forall or :: !Free(slots, or)
    ensures at.Some? ==> Free(slots, at.value)
    ensures at.Some? ==> forall or :: Free(slots, or) ==> slots[at.value].vacated <= slots[or].vacated
    ensures at.Some? ==> forall or :: Free(slots, or) && or < at.value ==> slots[at.value].vacated < slots[or].vacated
  {
    at := None;
    for s := 0 to |slots|
      invariant at.None? ==> forall or :: or < s ==> !Free(slots, or)
      invariant at.Some? ==> at.value < s && Free(slots, at.value)
      invariant at.Some? ==> forall or :: Free(slots, or) && or < s ==> slots[at.value].vacated <= slots[or].vacated
      invariant at.Some? ==> forall or :: Free(slots, or) && or < at.value ==>
          slots[at.value].vacated < slots[or].vacated
    {
      if Free(slots, s) && (at.None? || slots[s].vacated < slots[at.value].vacated) {
        at := Some(s);
      }
    }
  }

  /** `None` exactly where every slot holds a sequence. */
  method SeatFor(slots: seq<Slot>, prompt: seq<Id>) returns (at: Option<nat>)
    ensures at.None? <==> forall or :: !Free(slots, or)
    ensures at.Some? ==> Chosen(slots, Recorded(slots), prompt, at.value)
  {
    ghost var ids := Recorded(slots);
    assert forall s :: Free(slots, s) ==> MatchingOf(ids[s], prompt) == slots[s].kept.Matching(prompt);
    at := Resumed(slots, prompt);
    if at.None? {
      at := Empty(slots);
      if at.None? {
        at := Oldest(slots);
      }
    }
  }

  /** What a slot records once its resident has left it. */
  ghost function LeftIds(held: Resident, bound: nat): seq<Id>
    requires held.prompt != []
  {
    if !held.Filling() && |held.Kept()| <= bound then held.Kept() else []
  }

  /** The slot freed: at its resident's kept ids if those have all been fed, and forgotten otherwise. */
  method Leave(net: Net, slot: Slot, vacancy: nat) returns (left: Slot)
    requires Lodged(net, slot) && slot.held.Some?
    modifies slot.kept.Repr()
    ensures Lodged(net, left) && left == Slot(slot.kept, None, vacancy)
    ensures fresh(slot.kept.Repr() - old(slot.kept.Repr()))
    ensures slot.held.value.prompt != [] && slot.kept.ids == LeftIds(slot.held.value, slot.kept.bound)
  {
    assert SlotKey(0);
    var kept, held := slot.kept, slot.held.value;
    if held.mark.Some? {
      ghost var now, marked := Kept0(net, held.Fed()), Kept0(net, held.Kept());
      HeldBeyond(held);
      kept.cache.Resume(held.mark.value, net, now, marked, now.ids[|held.Kept()|..]);
      kept.Keep(held.Kept());
    } else if !held.Filling() {
      kept.Keep(held.Kept());
    } else {
      kept.Forget();
    }
    left := Slot(kept, None, vacancy);
  }

  /** Everything fed past its prompt's last question is past the position it is kept at. */
  lemma HeldBeyond(held: Resident)
    requires held.prompt != [] && held.filled < |held.prompt| && !held.Filling()
    ensures held.Kept() <= held.Fed()
  {
    assert held.produced != [] ==> held.Fed()[..|held.prompt| - 1] == held.prompt[..|held.prompt| - 1];
  }

  /** A request put in a free slot: what the slot keeps is reused where the prompt names it, and is
    * gone where it does not. */
  method Enter(net: Net, slot: Slot, ticket: nat, request: Request) returns (taken: Slot, reused: nat)
    requires Lodged(net, slot) && slot.held == None && request.prompt != [] && request.count > 0
    modifies slot.kept
    ensures Lodged(net, taken) && taken.vacated == slot.vacated && taken.kept == slot.kept
        && fresh(slot.kept.Repr() - old(slot.kept.Repr()))
    ensures reused == old(slot.kept.Matching(request.prompt))
    ensures taken.held == Some(Resident(ticket, request.prompt, request.count, reused, [], None))
    ensures reused < |request.prompt| && slot.kept.ids == request.prompt[..reused]
  {
    assert SlotKey(0);
    reused := slot.kept.Opened(request.prompt);
    var resident := Resident(ticket, request.prompt, request.count, reused, [], None);
    taken := slot.(held := Some(resident));
  }

  /** One slot gone on to `slot`, and its neighbours where they were. */
  lemma Neighbours(net: Net, slots: seq<Slot>, at: nat, slot: Slot, repr: set<object>)
    requires at < |slots| && slot.kept == slots[at].kept && On(slot, repr) && Lodged(net, slot)
    requires forall s :: 0 <= s < |slots| && s != at ==> On(slots[s], repr) && Lodged(net, slots[s])
    requires forall s, r :: 0 <= s < |slots| && 0 <= r < |slots| && s != r ==>
        slots[s].kept.Repr() !! slots[r].kept.Repr()
    ensures Lodgings(net, slots[at := slot], repr)
  {
    var after := slots[at := slot];
    forall s | 0 <= s < |after|
      ensures On(after[s], repr) && Lodged(net, after[s])
    {
    }
  }

  method VacateAt(net: Net, slots: seq<Slot>, at: nat, vacancy: nat, ghost repr: set<object>)
    returns (after: seq<Slot>, ghost grown: set<object>)
    requires Lodgings(net, slots, repr) && at < |slots| && slots[at].held.Some?
    modifies repr
    ensures Lodgings(net, after, grown) && repr <= grown && fresh(grown - repr)
    ensures after == slots[at := Slot(slots[at].kept, None, vacancy)] && slots[at].held.value.prompt != []
    ensures Recorded(after) == old(Recorded(slots))[at := LeftIds(slots[at].held.value, slots[at].kept.bound)]
  {
    assert On(slots[at], repr);
    var left := Leave(net, slots[at], vacancy);
    grown := repr + slots[at].kept.cache.Repr;
    forall s | 0 <= s < |slots| && s != at
      ensures Lodged(net, slots[s]) && slots[s].kept.cache == old(slots[s].kept.cache) && On(slots[s], grown)
      ensures slots[s].kept.ids == old(slots[s].kept.ids)
    {
      assert old(Lodged(net, slots[s])) && old(On(slots[s], repr));
    }
    Neighbours(net, slots, at, left, grown);
    after := slots[at := left];
  }

  method EnterAt(net: Net, slots: seq<Slot>, at: nat, ticket: nat, request: Request, ghost repr: set<object>)
    returns (after: seq<Slot>, reused: nat, ghost grown: set<object>)
    requires Lodgings(net, slots, repr) && Free(slots, at) && request.prompt != [] && request.count > 0
    modifies repr
    ensures Lodgings(net, after, grown) && repr <= grown && fresh(grown - repr)
    ensures reused == MatchingOf(old(Recorded(slots))[at], request.prompt) < |request.prompt|
    ensures Recorded(after) == old(Recorded(slots))[at := request.prompt[..reused]]
    ensures after
        == slots[at := Slot(slots[at].kept, Some(Resident(ticket, request.prompt, request.count, reused, [], None)),
                            slots[at].vacated)]
  {
    assert On(slots[at], repr);
    var taken;
    taken, reused := Enter(net, slots[at], ticket, request);
    grown := repr + slots[at].kept.cache.Repr;
    forall s | 0 <= s < |slots| && s != at
      ensures Lodged(net, slots[s]) && slots[s].kept.cache == old(slots[s].kept.cache) && On(slots[s], grown)
      ensures slots[s].kept.ids == old(slots[s].kept.ids)
    {
      assert old(Lodged(net, slots[s])) && old(On(slots[s], repr));
    }
    Neighbours(net, slots, at, taken, grown);
    after := slots[at := taken];
  }

  /** The seated slots as a call names them: those filling in front and those decoding behind, each in
    * slot order. */
  ghost predicate Ordered(slots: seq<Slot>, order: seq<nat>, filling: nat) {
    && filling <= |order|
    && (forall i :: 0 <= i < |order| ==> order[i] < |slots| && slots[order[i]].held.Some?)
    && (forall i :: 0 <= i < |order| ==> (slots[order[i]].Filling() <==> i < filling))
    && (forall i, j :: 0 <= i < j < |order| ==> order[i] != order[j])
    && forall s :: 0 <= s < |slots| && slots[s].held.Some? ==> s in order
  }

  method Order(slots: seq<Slot>) returns (order: seq<nat>, filling: nat)
    ensures Ordered(slots, order, filling)
    ensures forall i, j :: 0 <= i < j < filling || filling <= i < j < |order| ==> order[i] < order[j]
  {
    var fillers: seq<nat>, decoders: seq<nat> := [], [];
    for s := 0 to |slots|
      invariant forall i :: 0 <= i < |fillers| ==> fillers[i] < s && slots[fillers[i]].Filling()
      invariant forall i :: 0 <= i < |decoders| ==>
                  decoders[i] < s && slots[decoders[i]].held.Some? && !slots[decoders[i]].Filling()
      invariant forall i, j :: 0 <= i < j < |fillers| ==> fillers[i] < fillers[j]
      invariant forall i, j :: 0 <= i < j < |decoders| ==> decoders[i] < decoders[j]
      invariant forall r :: 0 <= r < s && slots[r].held.Some? ==> r in fillers || r in decoders
    {
      if slots[s].held.Some? {
        if slots[s].Filling() {
          fillers := fillers + [s];
        } else {
          decoders := decoders + [s];
        }
      }
    }
    order, filling := fillers + decoders, |fillers|;
  }

  /** Two seatings that differ in nothing but marks. */
  ghost predicate Marked(slots: seq<Slot>, after: seq<Slot>) {
    && |after| == |slots|
    && forall s :: 0 <= s < |slots| ==>
         && after[s].kept == slots[s].kept && after[s].vacated == slots[s].vacated
           && after[s].held.Some? == slots[s].held.Some?
         && (slots[s].held.Some? ==> after[s].held.value == slots[s].held.value.(mark := after[s].held.value.mark))
  }

  /** The same slot with a mark on its decoding resident, made now unless it has one already. */
  method MarkSlot(net: Net, slot: Slot) returns (marked: Slot)
    requires Lodged(net, slot) && slot.held.Some? && !slot.Filling()
    ensures Lodged(net, marked) && marked.held.Some? && marked.held.value.mark.Some?
    ensures marked == slot.(held := Some(slot.held.value.(mark := marked.held.value.mark)))
  {
    assert SlotKey(0);
    var held := slot.held.value;
    if held.mark.Some? {
      marked := slot;
    } else {
      var mark := slot.kept.cache.Mark(net, Kept0(net, held.Fed()));
      marked := slot.(held := Some(held.(mark := Some(mark))));
    }
  }

  method MarkAll(net: Net, slots: seq<Slot>, ghost repr: set<object>) returns (after: seq<Slot>)
    requires Lodgings(net, slots, repr)
    ensures Lodgings(net, after, repr) && Marked(slots, after)
    ensures forall s :: 0 <= s < |after| && after[s].held.Some? && !after[s].Filling() ==>
        after[s].held.value.mark.Some?
  {
    after := MarkEach(net, slots);
    forall s | 0 <= s < |slots|
      ensures On(after[s], repr)
    {
      assert On(slots[s], repr);
    }
  }

  method MarkEach(net: Net, slots: seq<Slot>) returns (after: seq<Slot>)
    requires forall s :: 0 <= s < |slots| ==> Lodged(net, slots[s])
    ensures Marked(slots, after) && forall s :: 0 <= s < |slots| ==> Lodged(net, after[s])
    ensures forall s :: 0 <= s < |after| && after[s].held.Some? && !after[s].Filling() ==>
        after[s].held.value.mark.Some?
  {
    after := slots;
    for s := 0 to |slots|
      invariant Marked(slots, after) && forall r :: 0 <= r < |slots| ==> Lodged(net, after[r])
      invariant forall r :: 0 <= r < s && after[r].held.Some? && !after[r].Filling() ==> after[r].held.value.mark.Some?
    {
      if after[s].held.Some? && !after[s].Filling() {
        var marked := MarkSlot(net, after[s]);
        after := after[s := marked];
      }
    }
  }

  /** Prompt rows the first `n` seats feed. */
  ghost function Rows(fed: seq<seq<Id>>, n: nat): nat
    requires n <= |fed|
  {
    if n == 0 then 0 else Rows(fed, n - 1) + |fed[n - 1]|
  }

  /** What each seat of a call feeds. */
  ghost predicate Dealt(slots: seq<Slot>, order: seq<nat>, filling: nat, fed: seq<seq<Id>>, n: nat)
    requires Ordered(slots, order, filling)
  {
    && |fed| == n <= |order|
    && forall i :: 0 <= i < n ==> DealtTo(slots[order[i]].held.value, fed[i])
  }

  /** A seat's next rows: some of its prompt, never its last, or the token it owes. */
  ghost predicate DealtTo(held: Resident, rows: seq<Id>) {
    if held.Filling() then
      rows != [] && held.filled + |rows| < |held.prompt|
        && held.prompt[..held.filled] + rows == held.prompt[..held.filled + |rows|]
    else
      held.prompt != [] && rows == [held.Owes()]
  }

  /** What a seat is allowed: its share of the budget, a row of the remainder while there is one, and
    * never nothing. */
  function Allowed(share: nat, spare: nat, i: nat): nat {
    var own := share + if i < spare then 1 else 0;
    if own > 1 then own else 1
  }

  /** The step's prompt budget, dealt over the seats that are filling with its remainder handed out: a
    * row each at least, and otherwise no more than the budget between them. */
  method Deal(slots: seq<Slot>, order: seq<nat>, filling: nat, chunk: nat) returns (fed: seq<seq<Id>>)
    requires Ordered(slots, order, filling) && chunk > 0
    requires forall i :: 0 <= i < |order| ==> slots[order[i]].held.value.prompt != []
    ensures Dealt(slots, order, filling, fed, |order|)
    ensures Rows(fed, filling) <= if chunk > filling then chunk else filling
  {
    if filling == 0 {
      fed := DealEach(slots, order, filling, 0, 0);
    } else {
      fed := DealEach(slots, order, filling, chunk / filling, chunk % filling);
      WithinBudget(fed, filling, chunk / filling, chunk % filling);
      Budget(chunk, filling);
    }
  }

  method DealEach(slots: seq<Slot>, order: seq<nat>, filling: nat, share: nat, over: nat) returns (fed: seq<seq<Id>>)
    requires Ordered(slots, order, filling)
    requires forall i :: 0 <= i < |order| ==> slots[order[i]].held.value.prompt != []
    ensures Dealt(slots, order, filling, fed, |order|)
    ensures forall i :: 0 <= i < filling ==> |fed[i]| <= Allowed(share, over, i)
  {
    var spare := over;
    fed := [];
    for i := 0 to |order|
      invariant Dealt(slots, order, filling, fed, i)
      invariant i <= filling ==> spare == if over > i then over - i else 0
      invariant forall j :: 0 <= j < i && j < filling ==> |fed[j]| <= Allowed(share, over, j)
    {
      var held := slots[order[i]].held.value;
      if held.Filling() {
        var more := if spare > 0 then 1 else 0;
        spare := spare - more;
        fed := fed + [held.Chunk(share + more)];
      } else {
        fed := fed + [[held.Owes()]];
      }
    }
  }

  lemma Budget(chunk: nat, filling: nat)
    requires filling > 0
    ensures chunk / filling == 0 ==> chunk < filling
    ensures chunk / filling > 0 ==> filling <= (chunk / filling) * filling + chunk % filling == chunk
    ensures chunk % filling < filling
  {
  }

  lemma {:induction false} WithinBudget(fed: seq<seq<Id>>, n: nat, share: nat, spare: nat)
    requires n <= |fed| && forall j :: 0 <= j < n ==> |fed[j]| <= Allowed(share, spare, j)
    ensures Rows(fed, n) <= if share == 0 then n else share * n + if n < spare then n else spare
  {
    if n > 0 {
      WithinBudget(fed, n - 1, share, spare);
      assert share * n == share * (n - 1) + share;
    }
  }

  /** A seated slot whose cache has been fed its next rows, before its resident has been told. */
  ghost predicate Carrying(net: Net, slot: Slot, rows: seq<Id>)
    reads slot.kept, slot.kept.cache.Repr
  {
    forall key {:trigger SlotKey(key)} :: SlotKey(key) ==> Carries(net, slot, rows)
  }

  ghost predicate Carries(net: Net, slot: Slot, rows: seq<Id>)
    reads slot.kept, slot.kept.cache.Repr
  {
    && slot.kept.net == net && slot.held.Some? && slot.held.value.Sound(net) && slot.kept !in slot.kept.cache.Repr
    && slot.kept.cache.Holds(net, Kept0(net, slot.held.value.Fed() + rows))
  }

  /** The seated slots a call is made over. */
  ghost predicate Seating(net: Net, seats: seq<Slot>, filling: nat, fed: seq<seq<Id>>) {
    && net.Valid() && |fed| == |seats| && filling <= |seats| && seats != []
    && forall i :: 0 <= i < |seats| ==> seats[i].held.Some? && fed[i] != [] && (i >= filling ==> |fed[i]| == 1)
  }

  /** Where each seat's sequence stands. */
  ghost function Positions(net: Net, seats: seq<Slot>): (ats: seq<Position>)
    requires net.kernelSize > 0 && forall i :: 0 <= i < |seats| ==> seats[i].held.Some?
    ensures |ats| == |seats|
    ensures forall i :: 0 <= i < |seats| ==> ats[i] == Kept0(net, seats[i].held.value.Fed())
  {
    seq(|seats|, i requires 0 <= i < |seats| => Kept0(net, seats[i].held.value.Fed()))
  }

  method Board(seats: seq<Slot>, fed: seq<seq<Id>>) returns (batch: seq<Batched>)
    requires |fed| == |seats|
    ensures Boarded(seats, fed, batch)
  {
    batch := [];
    for i := 0 to |seats|
      invariant |batch| == i && forall j :: 0 <= j < i ==> batch[j] == Batched(seats[j].kept.cache, fed[j])
    {
      batch := batch + [Batched(seats[i].kept.cache, fed[i])];
    }
  }

  ghost predicate Boarded(seats: seq<Slot>, fed: seq<seq<Id>>, batch: seq<Batched>)
    reads Keeps(seats)
  {
    |batch| == |seats| == |fed| && forall i :: 0 <= i < |seats| ==> batch[i] == Batched(seats[i].kept.cache, fed[i])
  }

  lemma SeatReady(net: Net, slot: Slot)
    requires Lodged(net, slot) && slot.held.Some?
    ensures slot.held.value.Sound(net) && slot.kept !in slot.kept.cache.Repr && slot.kept.net == net
    ensures slot.kept.cache.Holds(net, Kept0(net, slot.held.value.Fed()))
  {
    assert SlotKey(0);
  }

  lemma SeatCarries(net: Net, slot: Slot, rows: seq<Id>)
    requires slot.held.Some? && slot.held.value.Sound(net) && slot.kept !in slot.kept.cache.Repr && slot.kept.net == net
    requires slot.kept.cache.Holds(net, Kept0(net, slot.held.value.Fed()).Fed(rows))
    ensures Carrying(net, slot, rows)
  {
    assert Kept0(net, slot.held.value.Fed()).Fed(rows) == Kept0(net, slot.held.value.Fed() + rows);
  }

  lemma AllSeatsReady(net: Net, seats: seq<Slot>, filling: nat, fed: seq<seq<Id>>, batch: seq<Batched>)
    requires Seating(net, seats, filling, fed) && Boarded(seats, fed, batch)
    requires forall i :: 0 <= i < |seats| ==> Lodged(net, seats[i])
    ensures AllReady(net, batch, Positions(net, seats))
  {
    forall i | 0 <= i < |seats|
      ensures Ready(net, batch[i], Positions(net, seats)[i])
    {
      SeatReady(net, seats[i]);
    }
  }

  lemma BatchApart(net: Net, seats: seq<Slot>, fed: seq<seq<Id>>, batch: seq<Batched>)
    requires Boarded(seats, fed, batch)
    requires forall i, j :: 0 <= i < |seats| && 0 <= j < |seats| && i != j ==>
        seats[i].kept.Repr() !! seats[j].kept.Repr()
    ensures Distinct(batch)
  {
    forall i | 0 <= i < |seats|
      ensures batch[i].cache.Repr <= seats[i].kept.Repr()
    {
    }
  }

  lemma KeptElsewhere(net: Net, seats: seq<Slot>, fed: seq<seq<Id>>, batch: seq<Batched>, at: nat)
    requires Boarded(seats, fed, batch) && at < |seats|
    requires forall i, j :: 0 <= i < |seats| && 0 <= j < |seats| && i != j ==>
        seats[i].kept.Repr() !! seats[j].kept.Repr()
    requires seats[at].kept !in seats[at].kept.cache.Repr
    ensures seats[at].kept !in BatchRepr(batch)
  {
    forall i | 0 <= i < |batch|
      ensures seats[at].kept !in batch[i].cache.Repr
    {
      assert seats[at].kept in seats[at].kept.Repr() && batch[i].cache.Repr <= seats[i].kept.Repr();
    }
  }

  /** The caches a call moves. */
  ghost function CachesOf(seats: seq<Slot>): set<object>
    reads Keeps(seats)
  {
    set i, o | 0 <= i < |seats| && o in seats[i].kept.cache.Repr :: o
  }

  ghost predicate Asunder(seats: seq<Slot>)
    reads Keeps(seats)
  {
    forall i, j :: 0 <= i < |seats| && 0 <= j < |seats| && i != j ==> seats[i].kept.Repr() !! seats[j].kept.Repr()
  }

  lemma BatchIsCaches(seats: seq<Slot>, fed: seq<seq<Id>>, batch: seq<Batched>)
    requires Boarded(seats, fed, batch)
    ensures BatchRepr(batch) == CachesOf(seats)
  {
    forall i | 0 <= i < |seats|
      ensures batch[i].cache == seats[i].kept.cache
    {
    }
  }

  /** What a call left in the seats it was made over. */
  ghost predicate AllCarrying(net: Net, seats: seq<Slot>, fed: seq<seq<Id>>)
    requires |fed| == |seats|
    reads Keeps(seats), CachesOf(seats)
  {
    forall i :: 0 <= i < |seats| ==> Carrying(net, seats[i], fed[i])
  }

  /** What it answered the seats that decode: each, the token that follows its own. */
  ghost predicate AllPicked(net: Net, seats: seq<Slot>, filling: nat, fed: seq<seq<Id>>, picks: seq<Id>)
    requires net.Valid() && |fed| == |seats|
  {
    && filling + |picks| == |seats|
    && forall i :: filling <= i < |seats| ==>
         && seats[i].held.Some? && seats[i].held.value.Fed() + fed[i] != []
         && picks[i - filling] == net.Next(seats[i].held.value.Fed() + fed[i])
  }

  /** One forward pass carrying every seat's next rows. */
  method FeedSeats(net: Net, seats: seq<Slot>, filling: nat, fed: seq<seq<Id>>) returns (picks: seq<Id>)
    requires Seating(net, seats, filling, fed) && Asunder(seats)
    requires forall i :: 0 <= i < |seats| ==> Lodged(net, seats[i])
    modifies CachesOf(seats)
    ensures forall i :: 0 <= i < |seats| ==>
      seats[i].kept.cache == old(seats[i].kept.cache) && seats[i].kept.ids == old(seats[i].kept.ids)
    ensures AllCarrying(net, seats, fed) && AllPicked(net, seats, filling, fed, picks)
  {
    var batch := Board(seats, fed);
    ghost var ats := Positions(net, seats);
    AllSeatsReady(net, seats, filling, fed, batch);
    BatchApart(net, seats, fed, batch);
    BatchIsCaches(seats, fed, batch);
    AllIntact(net, seats, fed, batch);
    var decoding := |seats| - filling;
    picks := StepAdmitting(net, batch, decoding, ats);
    assert old(Intact(net, seats));
    AllSeatsCarry(net, seats, fed, batch, ats);
    AllSeatsPicked(net, seats, filling, decoding, fed, batch, ats, picks);
  }

  /** What a call over the seats leaves alone. */
  ghost predicate Intact(net: Net, seats: seq<Slot>)
    reads Keeps(seats)
  {
    forall i :: 0 <= i < |seats| ==>
      && seats[i].held.Some? && seats[i].held.value.Sound(net)
      && seats[i].kept.net == net && seats[i].kept !in seats[i].kept.cache.Repr
  }

  lemma AllIntact(net: Net, seats: seq<Slot>, fed: seq<seq<Id>>, batch: seq<Batched>)
    requires Boarded(seats, fed, batch) && Asunder(seats)
    requires forall i :: 0 <= i < |seats| ==> seats[i].held.Some? && Lodged(net, seats[i])
    ensures Intact(net, seats) && Keeps(seats) !! BatchRepr(batch)
  {
    forall i | 0 <= i < |seats|
      ensures seats[i].held.value.Sound(net) && seats[i].kept.net == net
      ensures seats[i].kept !in seats[i].kept.cache.Repr && seats[i].kept !in BatchRepr(batch)
    {
      SeatReady(net, seats[i]);
      KeptElsewhere(net, seats, fed, batch, i);
    }
  }

  lemma AllSeatsCarry(net: Net, seats: seq<Slot>, fed: seq<seq<Id>>, batch: seq<Batched>, ats: seq<Position>)
    requires net.kernelSize > 0 && Intact(net, seats) && Boarded(seats, fed, batch)
    requires ats == Positions(net, seats) && AllFed(net, batch, ats)
    ensures AllCarrying(net, seats, fed)
  {
    forall i | 0 <= i < |seats|
      ensures Carrying(net, seats[i], fed[i])
    {
      assert batch[i].cache.Holds(net, ats[i].Fed(batch[i].ids));
      SeatCarries(net, seats[i], fed[i]);
    }
  }

  lemma AllSeatsPicked(net: Net, seats: seq<Slot>, filling: nat, decoding: nat, fed: seq<seq<Id>>, batch: seq<Batched>,
                       ats: seq<Position>, picks: seq<Id>)
    requires Seating(net, seats, filling, fed) && Boarded(seats, fed, batch) && ats == Positions(net, seats)
    requires |picks| == decoding == |seats| - filling
    requires forall s :: |batch| - decoding <= s < |batch| ==> ats[s].ids + batch[s].ids != []
    requires forall s :: |batch| - decoding <= s < |batch| ==>
               picks[s - (|batch| - decoding)] == net.Next(ats[s].ids + batch[s].ids)
    ensures AllPicked(net, seats, filling, fed, picks)
  {
    forall i | filling <= i < |seats|
      ensures picks[i - filling] == net.Next(seats[i].held.value.Fed() + fed[i])
    {
      assert i - (|batch| - decoding) == i - filling;
      assert ats[i].ids == seats[i].held.value.Fed() && batch[i].ids == fed[i];
    }
  }

  /** The seats a call names, out of the slots. */
  function Named(slots: seq<Slot>, order: seq<nat>): (seats: seq<Slot>)
    requires forall i :: 0 <= i < |order| ==> order[i] < |slots|
    ensures |seats| == |order|
    ensures forall i :: 0 <= i < |order| ==> seats[i] == slots[order[i]]
  {
    seq(|order|, i requires 0 <= i < |order| => slots[order[i]])
  }

  lemma NamedApart(net: Net, slots: seq<Slot>, order: seq<nat>, filling: nat, repr: set<object>)
    requires Ordered(slots, order, filling) && Lodgings(net, slots, repr)
    ensures Asunder(Named(slots, order)) && CachesOf(Named(slots, order)) <= repr
    ensures forall s :: 0 <= s < |slots| && s !in order ==> slots[s].kept.Repr() !! CachesOf(Named(slots, order))
  {
    var seats := Named(slots, order);
    forall i | 0 <= i < |seats|
      ensures seats[i].kept.cache.Repr <= slots[order[i]].kept.Repr() && On(slots[order[i]], repr)
    {
    }
  }

  lemma DealtSeats(net: Net, slots: seq<Slot>, order: seq<nat>, filling: nat, fed: seq<seq<Id>>)
    requires net.Valid() && Ordered(slots, order, filling) && Dealt(slots, order, filling, fed, |order|) && order != []
    ensures Seating(net, Named(slots, order), filling, fed)
  {
    forall i | 0 <= i < |order|
      ensures fed[i] != [] && (i >= filling ==> |fed[i]| == 1)
    {
      assert DealtTo(slots[order[i]].held.value, fed[i]);
    }
  }

  /** The same call, and the slots it leaves alone. */
  method FeedSlots(net: Net, slots: seq<Slot>, order: seq<nat>, filling: nat, fed: seq<seq<Id>>,
                   ghost repr: set<object>)
    returns (picks: seq<Id>)
    requires net.Valid() && Lodgings(net, slots, repr) && Ordered(slots, order, filling) && order != []
    requires Dealt(slots, order, filling, fed, |order|)
    modifies repr
    ensures AllCarrying(net, Named(slots, order), fed) && AllPicked(net, Named(slots, order), filling, fed, picks)
    ensures forall s :: 0 <= s < |slots| && s !in order ==> Lodged(net, slots[s])
    ensures forall s :: 0 <= s < |slots| ==>
      slots[s].kept.cache == old(slots[s].kept.cache) && slots[s].kept.ids == old(slots[s].kept.ids)
  {
    var seats := Named(slots, order);
    NamedApart(net, slots, order, filling, repr);
    DealtSeats(net, slots, order, filling, fed);
    picks := FeedSeats(net, seats, filling, fed);
    forall s | 0 <= s < |slots| && s !in order
      ensures Lodged(net, slots[s])
      ensures slots[s].kept.cache == old(slots[s].kept.cache) && slots[s].kept.ids == old(slots[s].kept.ids)
    {
      assert old(Lodged(net, slots[s]));
    }
    forall s | 0 <= s < |slots| && s in order
      ensures slots[s].kept.cache == old(slots[s].kept.cache) && slots[s].kept.ids == old(slots[s].kept.ids)
    {
      var i :| 0 <= i < |order| && order[i] == s;
      assert seats[i].kept.cache == old(seats[i].kept.cache) && seats[i].kept.ids == old(seats[i].kept.ids);
    }
  }

  /** A resident told what its cache was fed is where its cache is. */
  lemma Arrived(net: Net, slot: Slot, rows: seq<Id>, picked: Id, told: Slot)
    requires Carrying(net, slot, rows) && slot.held.Some? && DealtTo(slot.held.value, rows)
    requires |slot.held.value.produced| < slot.held.value.count
    requires !slot.Filling() ==> slot.held.value.mark.Some?
    requires !slot.Filling() ==>
        net.Valid() && slot.held.value.Fed() + rows != [] && picked == net.Next(slot.held.value.Fed() + rows)
    requires told == slot.(held := Some(slot.held.value.Told(rows, picked)))
    ensures Lodged(net, told)
  {
    assert SlotKey(0);
    var held, after := slot.held.value, told.held.value;
    if held.Filling() {
      assert after.Fed() == held.Fed() + rows;
    } else {
      DecodeFed(held, rows, picked);
      GreedyPush(net, held.prompt, held.produced, picked);
      assert after.Kept() == held.Kept();
    }
  }

  lemma DecodeFed(held: Resident, rows: seq<Id>, picked: Id)
    requires held.prompt != [] && held.filled < |held.prompt| && !held.Filling() && rows == [held.Owes()]
    ensures held.Fed() + rows == held.prompt + held.produced == held.Told(rows, picked).Fed()
  {
    var after := held.Told(rows, picked);
    assert after.produced[..|after.produced| - 1] == held.produced;
    if held.produced == [] {
      assert held.prompt == held.prompt[..held.filled] + [held.prompt[|held.prompt| - 1]];
    } else {
      assert held.produced == held.produced[..|held.produced| - 1] + [held.Owes()];
    }
  }
}
