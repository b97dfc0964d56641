/** The engine's step over its slots and queue, and what it does to a book of the requests it owes. */
module Scheduling {
  import opened Ops
  import opened Model
  import opened Keeping
  import opened Slots

  /** A request in the queue, under the ticket it will be answered by. */
  datatype Queued = Queued(ticket: nat, request: Request)

  /** What the engine owes on a ticket: the request, and what it has produced of it. */
  datatype Entry = Entry(prompt: seq<Id>, count: nat, produced: seq<Id>)

  function EntryOf(held: Resident): Entry { Entry(held.prompt, held.count, held.produced) }

  ghost predicate SeatedAt(slots: seq<Slot>, at: int, ticket: nat) {
    0 <= at < |slots| && slots[at].held.Some? && slots[at].held.value.ticket == ticket
  }

  ghost predicate QueuedAt(waiting: seq<Queued>, at: int, ticket: nat) {
    0 <= at < |waiting| && waiting[at].ticket == ticket
  }

  /** `book` is exactly what the engine holds: a ticket is in it when, and only when, it is seated in one
    * slot or queued once, and never both. */
  ghost predicate Booked(slots: seq<Slot>, waiting: seq<Queued>, book: map<nat, Entry>, tickets: nat) {
    forall key {:trigger BookKey(key)} :: BookKey(key) ==> Tallied(slots, waiting, book, tickets)
  }

  /** A key to `Booked`, as `Sconv.WindowKey` is to a window. */
  ghost predicate BookKey(key: nat) { true }

  ghost predicate Tallied(slots: seq<Slot>, waiting: seq<Queued>, book: map<nat, Entry>, tickets: nat) {
    && (forall s, t :: SeatedAt(slots, s, t) ==> t in book && book[t] == EntryOf(slots[s].held.value))
    && (forall w, t :: QueuedAt(waiting, w, t) ==>
          t in book && book[t] == Entry(waiting[w].request.prompt, waiting[w].request.count, []))
    && (forall t :: t in book ==>
          t < tickets && book[t].prompt != []
            && ((exists s :: SeatedAt(slots, s, t)) || (exists w :: QueuedAt(waiting, w, t))))
    && (forall s, r, t :: SeatedAt(slots, s, t) && SeatedAt(slots, r, t) ==> s == r)
    && (forall s, w, t :: SeatedAt(slots, s, t) ==> !QueuedAt(waiting, w, t))
    && forall v, w :: 0 <= v < w < |waiting| ==> waiting[v].ticket < waiting[w].ticket
  }

  lemma Submitted(slots: seq<Slot>, waiting: seq<Queued>, book: map<nat, Entry>, tickets: nat, request: Request)
    requires Booked(slots, waiting, book, tickets) && request.prompt != []
    ensures tickets !in book
    ensures Booked(slots, waiting + [Queued(tickets, request)],
                   book[tickets := Entry(request.prompt, request.count, [])], tickets + 1)
  {
    assert BookKey(0);
    var queue, after := waiting + [Queued(tickets, request)], book[tickets := Entry(request.prompt, request.count, [])];
    assert QueuedAt(queue, |waiting|, tickets);
    forall w, t | QueuedAt(queue, w, t)
      ensures w < |waiting| ==> QueuedAt(waiting, w, t)
    {
    }
    forall t | t in after
      ensures (exists s :: SeatedAt(slots, s, t)) || (exists w :: QueuedAt(queue, w, t))
    {
      if t != tickets && exists w :: QueuedAt(waiting, w, t) {
        var w :| QueuedAt(waiting, w, t);
        assert QueuedAt(queue, w, t);
      }
    }
    forall v, w | 0 <= v < w < |queue|
      ensures queue[v].ticket < queue[w].ticket
    {
      assert QueuedAt(waiting, v, waiting[v].ticket);
    }
  }

  /** A slot emptied of its sequence takes that ticket, and no other, off the book. */
  lemma LeftBook(slots: seq<Slot>, waiting: seq<Queued>, book: map<nat, Entry>, tickets: nat, at: nat, left: Slot)
    requires Booked(slots, waiting, book, tickets) && at < |slots| && slots[at].held.Some? && left.held == None
    ensures slots[at].held.value.ticket in book
    ensures Booked(slots[at := left], waiting, book - {slots[at].held.value.ticket}, tickets)
  {
    assert BookKey(0);
    var gone, after := slots[at].held.value.ticket, slots[at := left];
    assert SeatedAt(slots, at, gone);
    forall s, t | SeatedAt(after, s, t)
      ensures SeatedAt(slots, s, t) && t != gone
    {
      assert SeatedAt(slots, s, t) && s != at;
    }
    forall t | t in book && t != gone
      ensures (exists s :: SeatedAt(after, s, t)) || (exists w :: QueuedAt(waiting, w, t))
    {
      if s :| SeatedAt(slots, s, t) {
        assert SeatedAt(after, s, t);
      }
    }
  }

  /** The front of the queue put in a free slot: the same ticket owed the same thing. */
  lemma EnteredBook(slots: seq<Slot>, waiting: seq<Queued>, book: map<nat, Entry>, tickets: nat, at: nat, taken: Slot)
    requires Booked(slots, waiting, book, tickets) && waiting != [] && Free(slots, at)
    requires taken.held.Some? && taken.held.value.ticket == waiting[0].ticket
    requires EntryOf(taken.held.value) == Entry(waiting[0].request.prompt, waiting[0].request.count, [])
    ensures Booked(slots[at := taken], waiting[1..], book, tickets)
  {
    assert BookKey(0);
    var after, queue, front := slots[at := taken], waiting[1..], waiting[0].ticket;
    assert QueuedAt(waiting, 0, front) && SeatedAt(after, at, front);
    forall s, t | SeatedAt(after, s, t)
      ensures s == at || SeatedAt(slots, s, t)
    {
    }
    forall w, t | QueuedAt(queue, w, t)
      ensures QueuedAt(waiting, w + 1, t)
    {
    }
    forall t | t in book
      ensures (exists s :: SeatedAt(after, s, t)) || (exists w :: QueuedAt(queue, w, t))
    {
      if s :| SeatedAt(slots, s, t) {
        assert SeatedAt(after, s, t);
      } else {
        var w :| QueuedAt(waiting, w, t);
        assert w > 0 ==> QueuedAt(queue, w - 1, t);
      }
    }
  }

  function Past(at: int, w: int): int { if w < at then w else w + 1 }

  function Before(at: int, w: int): int { if w < at then w else w - 1 }

  function Cut(waiting: seq<Queued>, at: nat): seq<Queued>
    requires at < |waiting|
  {
    waiting[..at] + waiting[at + 1..]
  }

  lemma CutAt(waiting: seq<Queued>, at: nat, w: int, t: nat)
    requires at < |waiting|
    ensures QueuedAt(Cut(waiting, at), w, t) ==> QueuedAt(waiting, Past(at, w), t) && Past(at, w) != at
    ensures QueuedAt(waiting, w, t) && w != at ==> QueuedAt(Cut(waiting, at), Before(at, w), t)
  {
  }

  lemma QueuedOnce(waiting: seq<Queued>, v: int, w: int, t: nat)
    requires forall v, w :: 0 <= v < w < |waiting| ==> waiting[v].ticket < waiting[w].ticket
    requires QueuedAt(waiting, v, t) && QueuedAt(waiting, w, t)
    ensures v == w
  {
  }

  /** A request dropped from the queue, wherever in it. */
  lemma DroppedBook(slots: seq<Slot>, waiting: seq<Queued>, book: map<nat, Entry>, tickets: nat, at: nat)
    requires Booked(slots, waiting, book, tickets) && at < |waiting|
    ensures waiting[at].ticket in book
    ensures Booked(slots, Cut(waiting, at), book - {waiting[at].ticket}, tickets)
  {
    assert BookKey(0);
    var queue, gone := Cut(waiting, at), waiting[at].ticket;
    assert QueuedAt(waiting, at, gone);
    forall w, t | QueuedAt(queue, w, t)
      ensures t != gone && t in book && book[t] == Entry(queue[w].request.prompt, queue[w].request.count, [])
      ensures forall s :: !SeatedAt(slots, s, t)
    {
      CutAt(waiting, at, w, t);
      if t == gone {
        QueuedOnce(waiting, at, Past(at, w), t);
      }
    }
    forall t | t in book && t != gone
      ensures (exists s :: SeatedAt(slots, s, t)) || (exists w :: QueuedAt(queue, w, t))
    {
      if w :| QueuedAt(waiting, w, t) {
        CutAt(waiting, at, w, t);
      }
    }
    CutAscends(waiting, at);
  }

  lemma CutAscends(waiting: seq<Queued>, at: nat)
    requires at < |waiting|
    requires forall v, w :: 0 <= v < w < |waiting| ==> waiting[v].ticket < waiting[w].ticket
    ensures forall v, w :: 0 <= v < w < |Cut(waiting, at)| ==> Cut(waiting, at)[v].ticket < Cut(waiting, at)[w].ticket
  {
  }

  lemma MarkedBook(slots: seq<Slot>, after: seq<Slot>, waiting: seq<Queued>, book: map<nat, Entry>, tickets: nat)
    requires Booked(slots, waiting, book, tickets) && Marked(slots, after)
    ensures Booked(after, waiting, book, tickets)
  {
    assert BookKey(0);
    forall s, t
      ensures SeatedAt(after, s, t) <==> SeatedAt(slots, s, t)
    {
    }
    forall t | t in book
      ensures (exists s :: SeatedAt(after, s, t)) || (exists w :: QueuedAt(waiting, w, t))
    {
      if s :| SeatedAt(slots, s, t) {
        assert SeatedAt(after, s, t);
      }
    }
  }

  /** A token, against the ticket that owes it. */
  datatype Token = Token(ticket: nat, id: Id)

  /** A step's report: how many rows of each kind it fed and over how many seats, the tickets answered for the
    * first time, those newly seated, each token with its ticket, and the finished answers. */
  datatype Stepped = Stepped(filling: nat, decoding: nat, seats: nat, first: seq<nat>, admitted: seq<Admitted>,
                             produced: seq<Token>, done: seq<Answered>)

  /** What is left to do for whoever is in a slot: prompt to feed, and tokens to produce. */
  ghost function SlotWork(slot: Slot): nat {
    if slot.held.None? then 0
    else
      var held := slot.held.value;
      (if held.filled < |held.prompt| then |held.prompt| - held.filled else 0)
      + (if |held.produced| < held.count then held.count - |held.produced| else 0)
  }

  ghost function SlotsWork(slots: seq<Slot>): nat {
    if slots == [] then 0 else SlotWork(slots[0]) + SlotsWork(slots[1..])
  }

  ghost function QueueWork(waiting: seq<Queued>): nat {
    if waiting == [] then 0 else |waiting[0].request.prompt| + waiting[0].request.count + 1 + QueueWork(waiting[1..])
  }

  ghost function Work(slots: seq<Slot>, waiting: seq<Queued>): nat {
    SlotsWork(slots) + QueueWork(waiting)
  }

  lemma {:induction false} LessWork(slots: seq<Slot>, after: seq<Slot>, at: nat)
    requires |after| == |slots| && forall s :: 0 <= s < |slots| ==> SlotWork(after[s]) <= SlotWork(slots[s])
    ensures SlotsWork(after) <= SlotsWork(slots)
    ensures at < |slots| && SlotWork(after[at]) < SlotWork(slots[at]) ==> SlotsWork(after) < SlotsWork(slots)
  {
    if slots != [] {
      LessWork(slots[1..], after[1..], if at > 0 then at - 1 else |slots|);
    }
  }

  lemma {:induction false} WorkAt(slots: seq<Slot>, at: nat, slot: Slot)
    requires at < |slots|
    ensures SlotsWork(slots[at := slot]) + SlotWork(slots[at]) == SlotsWork(slots) + SlotWork(slot)
  {
    if at == 0 {
      assert slots[0 := slot][1..] == slots[1..];
    } else {
      WorkAt(slots[1..], at - 1, slot);
      assert slots[at := slot][1..] == slots[1..][at - 1 := slot];
    }
  }

  /** No resident has all it asked for: one that has leaves in the step that finished it. */
  ghost predicate Unfinished(slots: seq<Slot>) {
    forall s :: 0 <= s < |slots| && slots[s].held.Some? ==> !slots[s].held.value.Done()
  }

  /** No slot's stamp is ahead of how often slots have been left, so a new stamp is the newest. */
  ghost predicate Stamped(slots: seq<Slot>, vacancies: nat) {
    forall key {:trigger StampKey(key)} :: StampKey(key) ==> forall s :: 0 <= s < |slots| ==>
      slots[s].vacated <= vacancies
  }

  /** A key to `Stamped`, as `Sconv.WindowKey` is to a window. */
  ghost predicate StampKey(key: nat) { true }

  lemma StampedNext(slots: seq<Slot>, vacancies: nat, at: nat, left: Slot)
    requires Stamped(slots, vacancies) && at < |slots| && left.vacated == vacancies + 1
    ensures Stamped(slots[at := left], vacancies + 1)
  {
    assert StampKey(0);
  }

  lemma StampedStill(slots: seq<Slot>, after: seq<Slot>, vacancies: nat)
    requires Stamped(slots, vacancies) && |after| == |slots|
    requires forall s :: 0 <= s < |slots| ==> after[s].vacated == slots[s].vacated
    ensures Stamped(after, vacancies)
  {
    assert StampKey(0);
  }

  /** Everything on `before` that wanted a token still is on `after`, unchanged. */
  ghost predicate OnlyIdleDropped(before: map<nat, Entry>, after: map<nat, Entry>) {
    && (forall t :: t in after ==> t in before && after[t] == before[t])
    && forall t :: t in before && before[t].count > 0 ==> t in after
  }

  /** Where the engine stands: slots, queue and book agree, and nobody seated is finished. */
  ghost predicate Consistent(net: Net, slots: seq<Slot>, waiting: seq<Queued>, book: map<nat, Entry>, tickets: nat,
                             repr: set<object>)
    reads repr
  {
    Lodgings(net, slots, repr) && Booked(slots, waiting, book, tickets) && Unfinished(slots)
  }

  lemma FrontAsks(slots: seq<Slot>, waiting: seq<Queued>, book: map<nat, Entry>, tickets: nat)
    requires Booked(slots, waiting, book, tickets) && waiting != []
    ensures waiting[0].request.prompt != []
  {
    assert BookKey(0);
    assert QueuedAt(waiting, 0, waiting[0].ticket);
  }

  /** The front of the queue put in the slot it is given. */
  method AdmitFront(net: Net, slots: seq<Slot>, waiting: seq<Queued>, at: nat, ghost book: map<nat, Entry>,
                    ghost tickets: nat, ghost repr: set<object>)
    returns (after: seq<Slot>, admitted: seq<Admitted>, ghost grown: set<object>)
    requires Consistent(net, slots, waiting, book, tickets, repr) && waiting != [] && Free(slots, at)
    requires waiting[0].request.count > 0 && Chosen(slots, Recorded(slots), waiting[0].request.prompt, at)
    modifies repr
    ensures |after| == |slots| && Consistent(net, after, waiting[1..], book, tickets, grown)
    ensures Admitting(slots, waiting, book, after, waiting[1..], book)
    ensures Fills(slots, old(Recorded(slots)), waiting, waiting[1..], after, Recorded(after), admitted)
    ensures repr <= grown && fresh(grown - repr)
  {
    var front := waiting[0];
    FrontAsks(slots, waiting, book, tickets);
    var reused;
    after, reused, grown := EnterAt(net, slots, at, front.ticket, front.request, repr);
    admitted := [Admitted(front.ticket, at, reused)];
    EnteredBook(slots, waiting, book, tickets, at, after[at]);
    WorkAt(slots, at, after[at]);
    PassedOne(waiting);
    SeatedFront(slots, old(Recorded(slots)), front, at, reused, after, Recorded(after), admitted);
  }

  /** What is left of a queue that has been taken from the front. */
  ghost predicate QueueTail(waiting: seq<Queued>, queue: seq<Queued>) {
    |queue| <= |waiting| && queue == waiting[|waiting| - |queue|..]
  }

  lemma DroppedFront(net: Net, slots: seq<Slot>, waiting: seq<Queued>, book: map<nat, Entry>, tickets: nat)
    requires Booked(slots, waiting, book, tickets) && waiting != [] && waiting[0].request.count == 0
    ensures waiting[0].ticket in book && book[waiting[0].ticket].count == 0
    ensures Booked(slots, waiting[1..], book - {waiting[0].ticket}, tickets)
  {
    assert BookKey(0);
    assert QueuedAt(waiting, 0, waiting[0].ticket);
    DroppedBook(slots, waiting, book, tickets, 0);
    assert Cut(waiting, 0) == waiting[1..];
  }

  /** Those of a queue that want a token, in order. */
  ghost function Wanting(waiting: seq<Queued>): seq<Queued> {
    if waiting == [] then []
    else
      var last := waiting[|waiting| - 1];
      Wanting(waiting[..|waiting| - 1]) + if last.request.count > 0 then [last] else []
  }

  /** A free slot given to a queued request, which starts at as much of its prompt as is recorded there. */
  ghost predicate Seats(slots: seq<Slot>, ids: seq<seq<Id>>, after: seq<Slot>, later: seq<seq<Id>>, queued: Queued,
                        a: Admitted)
    requires |after| == |slots| == |ids| == |later|
  {
    && Free(slots, a.slot) && a.ticket == queued.ticket
    && a.reused == MatchingOf(ids[a.slot], queued.request.prompt) < |queued.request.prompt|
    && later[a.slot] == queued.request.prompt[..a.reused]
    && after[a.slot]
      == slots[a.slot].(held := Some(Resident(a.ticket, queued.request.prompt, queued.request.count, a.reused, [],
                                              None)))
  }

  /** The slots once the first `k` of the admitted have been given theirs. */
  ghost function Partly(slots: seq<Slot>, after: seq<Slot>, admitted: seq<Admitted>, k: nat): (partly: seq<Slot>)
    requires |after| == |slots| && k <= |admitted|
    ensures |partly| == |slots|
    ensures forall s :: 0 <= s < |slots| ==> partly[s] == if Takes(admitted[..k], s) then after[s] else slots[s]
  {
    seq(|slots|, s requires 0 <= s < |slots| => if Takes(admitted[..k], s) then after[s] else slots[s])
  }

  /** `admitted` is `taken`, one for one and in order, each in the slot its prompt chooses of those still free,
    * and no other slot has changed, nor what is recorded there. */
  ghost predicate Admits(slots: seq<Slot>, ids: seq<seq<Id>>, taken: seq<Queued>, after: seq<Slot>,
                         later: seq<seq<Id>>, admitted: seq<Admitted>) {
    && |after| == |slots| == |ids| == |later|
    && forall key {:trigger AdmitKey(key)} :: AdmitKey(key) ==> AdmitsSo(slots, ids, taken, after, later, admitted)
  }

  /** A key to `Admits`, as `Sconv.WindowKey` is to a window. */
  ghost predicate AdmitKey(key: nat) { true }

  ghost predicate AdmitsSo(slots: seq<Slot>, ids: seq<seq<Id>>, taken: seq<Queued>, after: seq<Slot>,
                           later: seq<seq<Id>>, admitted: seq<Admitted>)
    requires |after| == |slots| == |ids| == |later|
  {
    && |admitted| == |taken|
    && (forall k :: 0 <= k < |taken| ==> Seats(slots, ids, after, later, taken[k], admitted[k]))
    && (forall k :: 0 <= k < |taken| ==> ChosenAt(slots, ids, after, taken, admitted, k))
    && (forall j, k :: 0 <= j < k < |admitted| ==> admitted[j].slot != admitted[k].slot)
    && forall s :: 0 <= s < |slots| && !Takes(admitted, s) ==> after[s] == slots[s] && later[s] == ids[s]
  }

  ghost predicate ChosenAt(slots: seq<Slot>, ids: seq<seq<Id>>, after: seq<Slot>, taken: seq<Queued>,
                           admitted: seq<Admitted>, k: nat)
    requires |after| == |slots| == |ids| && k < |taken| && k < |admitted|
  {
    Chosen(Partly(slots, after, admitted, k), ids, taken[k].request.prompt, admitted[k].slot)
  }

  lemma NoneAdmitted(slots: seq<Slot>, ids: seq<seq<Id>>)
    requires |ids| == |slots|
    ensures Admits(slots, ids, [], slots, ids, [])
  {
  }

  ghost predicate Takes(admitted: seq<Admitted>, s: nat) {
    exists k :: 0 <= k < |admitted| && admitted[k].slot == s
  }

  lemma TakesMore(admitted: seq<Admitted>, one: Admitted, s: nat)
    ensures Takes(admitted + [one], s) <==> Takes(admitted, s) || one.slot == s
  {
    var all := admitted + [one];
    assert all[|admitted|] == one;
    if Takes(admitted, s) {
      var k :| 0 <= k < |admitted| && admitted[k].slot == s;
      assert all[k].slot == s;
    }
  }

  /** A slot that is free yet was free before, and is as it was; one that has been given stays given. */
  lemma FreeYet(slots: seq<Slot>, ids: seq<seq<Id>>, taken: seq<Queued>, after: seq<Slot>, later: seq<seq<Id>>,
                admitted: seq<Admitted>, s: nat)
    requires Admits(slots, ids, taken, after, later, admitted) && s < |slots|
    ensures after[s].held == None ==> !Takes(admitted, s) && after[s] == slots[s] && later[s] == ids[s]
    ensures slots[s].held.Some? ==> !Takes(admitted, s)
  {
    assert AdmitKey(0);
    if Takes(admitted, s) {
      var k :| 0 <= k < |admitted| && admitted[k].slot == s;
      assert Seats(slots, ids, after, later, taken[k], admitted[k]);
    }
  }

  /** The next to be admitted takes a slot nobody before it took. */
  lemma Newly(slots: seq<Slot>, ids: seq<seq<Id>>, taken: seq<Queued>, after: seq<Slot>, later: seq<seq<Id>>,
              admitted: seq<Admitted>, queued: Queued, next: seq<Slot>, last: seq<seq<Id>>, one: Admitted)
    requires Admits(slots, ids, taken, after, later, admitted) && Admits(after, later, [queued], next, last, [one])
    ensures |admitted| == |taken| && one.slot < |slots|
    ensures Seats(slots, ids, next, last, queued, one)
    ensures forall k :: 0 <= k < |admitted| ==> admitted[k].slot != one.slot
    ensures forall s :: 0 <= s < |slots| && one.slot != s ==> next[s] == after[s] && last[s] == later[s]
  {
    assert AdmitKey(0);
    assert Seats(after, later, next, last, [queued][0], [one][0]);
    FreeYet(slots, ids, taken, after, later, admitted, one.slot);
    forall k | 0 <= k < |admitted|
      ensures admitted[k].slot != one.slot
    {
      assert admitted[k].slot == one.slot ==> Takes(admitted, one.slot);
    }
    forall s | 0 <= s < |slots| && one.slot != s
      ensures next[s] == after[s] && last[s] == later[s]
    {
      TakesMore([], one, s);
      assert [] + [one] == [one];
    }
  }

  /** One more admitted, after all that were before it. */
  lemma AdmitsOn(slots: seq<Slot>, ids: seq<seq<Id>>, taken: seq<Queued>, after: seq<Slot>, later: seq<seq<Id>>,
                 admitted: seq<Admitted>, queued: Queued, next: seq<Slot>, last: seq<seq<Id>>, one: Admitted)
    requires Admits(slots, ids, taken, after, later, admitted) && Admits(after, later, [queued], next, last, [one])
    ensures Admits(slots, ids, taken + [queued], next, last, admitted + [one])
  {
    var all, both := admitted + [one], taken + [queued];
    Newly(slots, ids, taken, after, later, admitted, queued, next, last, one);
    forall k | 0 <= k < |both|
      ensures Seats(slots, ids, next, last, both[k], all[k]) && ChosenAt(slots, ids, next, both, all, k)
    {
      SeatsOn(slots, ids, taken, after, later, admitted, queued, next, last, one, k);
      ChosenOn(slots, ids, taken, after, later, admitted, queued, next, last, one, k);
    }
    forall s | 0 <= s < |slots| && !Takes(all, s)
      ensures next[s] == slots[s] && last[s] == ids[s]
    {
      assert AdmitKey(0);
      TakesMore(admitted, one, s);
    }
    forall j, k | 0 <= j < k < |all|
      ensures all[j].slot != all[k].slot
    {
      assert AdmitKey(0);
    }
  }

  lemma SeatsOn(slots: seq<Slot>, ids: seq<seq<Id>>, taken: seq<Queued>, after: seq<Slot>, later: seq<seq<Id>>,
                admitted: seq<Admitted>, queued: Queued, next: seq<Slot>, last: seq<seq<Id>>, one: Admitted, k: nat)
    requires Admits(slots, ids, taken, after, later, admitted) && |next| == |last| == |slots|
    requires Seats(slots, ids, next, last, queued, one) && |admitted| == |taken| && k <= |taken|
    requires forall s :: 0 <= s < |slots| && one.slot != s ==> next[s] == after[s] && last[s] == later[s]
    requires forall j :: 0 <= j < |admitted| ==> admitted[j].slot != one.slot
    ensures Seats(slots, ids, next, last, (taken + [queued])[k], (admitted + [one])[k])
  {
    if k < |taken| {
      assert AdmitKey(0);
      assert Seats(slots, ids, after, later, taken[k], admitted[k]) && admitted[k].slot != one.slot;
    }
  }

  lemma ChosenOn(slots: seq<Slot>, ids: seq<seq<Id>>, taken: seq<Queued>, after: seq<Slot>, later: seq<seq<Id>>,
                 admitted: seq<Admitted>, queued: Queued, next: seq<Slot>, last: seq<seq<Id>>, one: Admitted, k: nat)
    requires Admits(slots, ids, taken, after, later, admitted) && Admits(after, later, [queued], next, last, [one])
    requires |admitted| == |taken| && k <= |taken|
    requires forall s :: 0 <= s < |slots| && one.slot != s ==> next[s] == after[s]
    requires forall j :: 0 <= j < |admitted| ==> admitted[j].slot != one.slot
    ensures ChosenAt(slots, ids, next, taken + [queued], admitted + [one], k)
  {
    assert AdmitKey(0);
    var all := admitted + [one];
    assert all[..k] == admitted[..k];
    if k < |taken| {
      assert ChosenAt(slots, ids, after, taken, admitted, k);
      assert Partly(slots, next, all, k) == Partly(slots, after, admitted, k);
    } else {
      assert admitted[..k] == admitted;
      assert Partly(slots, next, all, k) == after;
      assert ChosenAt(after, later, next, [queued], [one], 0);
      assert Partly(after, next, [one], 0) == after;
      forall s | Free(after, s)
        ensures ids[s] == later[s]
      {
        FreeYet(slots, ids, taken, after, later, admitted, s);
      }
      ChosenStill(after, later, ids, queued.request.prompt, one.slot);
    }
  }

  /** What a queue has lost from its front. */
  ghost function Passed(waiting: seq<Queued>, queue: seq<Queued>): seq<Queued> {
    if |queue| <= |waiting| then waiting[..|waiting| - |queue|] else []
  }

  lemma PassedOne(waiting: seq<Queued>)
    requires waiting != []
    ensures Wanting(Passed(waiting, waiting)) == []
    ensures Wanting(Passed(waiting, waiting[1..])) == if waiting[0].request.count > 0 then [waiting[0]] else []
  {
    var front := waiting[0];
    assert Passed(waiting, waiting[1..]) == [front] && [front][..0] == [];
  }

  /** A queue taken from twice has lost what each took. */
  lemma PassedOn(waiting: seq<Queued>, held: seq<Queued>, queue: seq<Queued>)
    requires QueueTail(waiting, held) && QueueTail(held, queue) && |held| <= |queue| + 1
    ensures QueueTail(waiting, queue)
    ensures Wanting(Passed(waiting, queue)) == Wanting(Passed(waiting, held)) + Wanting(Passed(held, queue))
  {
    var was, now := Passed(waiting, held), Passed(waiting, queue);
    if |held| == |queue| {
      assert now == was && Passed(held, queue) == [];
    } else {
      assert now[..|now| - 1] == was && now[|now| - 1] == held[0] && Passed(held, queue) == [held[0]];
      assert [held[0]][..0] == [];
    }
  }

  /** How far filling the slots has come: what is left of the queue, of the book, and to do. */
  ghost predicate Admitting(slots: seq<Slot>, waiting: seq<Queued>, book: map<nat, Entry>,
                            after: seq<Slot>, queue: seq<Queued>, left: map<nat, Entry>)
  {
    && |after| == |slots| && QueueTail(waiting, queue) && OnlyIdleDropped(book, left)
    && Work(after, queue) + |waiting| - |queue| <= Work(slots, waiting)
    && (queue == waiting ==> left == book)
  }

  /** The requests a queue has lost from its front were each put in the slot it chose, but for those that want
    * no token, and `admitted` says where. */
  ghost predicate Fills(slots: seq<Slot>, ids: seq<seq<Id>>, waiting: seq<Queued>, queue: seq<Queued>,
                        after: seq<Slot>, later: seq<seq<Id>>, admitted: seq<Admitted>) {
    forall key {:trigger QueueKey(key)} :: QueueKey(key) ==>
      Admits(slots, ids, Wanting(Passed(waiting, queue)), after, later, admitted)
  }

  /** A key to `Fills`, as `Sconv.WindowKey` is to a window. */
  ghost predicate QueueKey(key: nat) { true }

  lemma FillsOn(slots: seq<Slot>, ids: seq<seq<Id>>, waiting: seq<Queued>, held: seq<Queued>, after: seq<Slot>,
                later: seq<seq<Id>>, admitted: seq<Admitted>, queue: seq<Queued>, next: seq<Slot>,
                last: seq<seq<Id>>, added: seq<Admitted>)
    requires QueueTail(waiting, held) && QueueTail(held, queue) && |held| <= |queue| + 1
    requires Fills(slots, ids, waiting, held, after, later, admitted)
    requires Fills(after, later, held, queue, next, last, added)
    ensures Fills(slots, ids, waiting, queue, next, last, admitted + added)
  {
    assert QueueKey(0);
    PassedOn(waiting, held, queue);
    var taken, more := Wanting(Passed(waiting, held)), Wanting(Passed(held, queue));
    AtMostOne(held, queue);
    if more == [] {
      SameSlots(after, later, next, last, added);
      assert taken + more == taken && admitted + added == admitted;
    } else {
      OneAdmitted(after, later, more, next, last, added);
      assert more == [more[0]] && added == [added[0]];
      AdmitsOn(slots, ids, taken, after, later, admitted, more[0], next, last, added[0]);
    }
  }

  lemma AtMostOne(held: seq<Queued>, queue: seq<Queued>)
    requires QueueTail(held, queue) && |held| <= |queue| + 1
    ensures |Wanting(Passed(held, queue))| <= 1
  {
    if |held| > |queue| {
      assert Passed(held, queue) == [held[0]] && [held[0]][..0] == [];
    } else {
      assert Passed(held, queue) == [];
    }
  }

  lemma SameSlots(slots: seq<Slot>, ids: seq<seq<Id>>, after: seq<Slot>, later: seq<seq<Id>>, admitted: seq<Admitted>)
    requires Admits(slots, ids, [], after, later, admitted)
    ensures after == slots && later == ids && admitted == []
  {
    assert AdmitKey(0);
    assert forall s :: 0 <= s < |slots| ==> !Takes(admitted, s);
  }

  lemma OneAdmitted(slots: seq<Slot>, ids: seq<seq<Id>>, more: seq<Queued>, after: seq<Slot>, later: seq<seq<Id>>,
                    added: seq<Admitted>)
    requires Admits(slots, ids, more, after, later, added)
    ensures |added| == |more|
  {
    assert AdmitKey(0);
  }

  lemma SeatedFront(slots: seq<Slot>, ids: seq<seq<Id>>, front: Queued, at: nat, reused: nat, after: seq<Slot>,
                    later: seq<seq<Id>>, admitted: seq<Admitted>)
    requires |after| == |slots| == |ids| == |later| && admitted == [Admitted(front.ticket, at, reused)]
    requires Seats(slots, ids, after, later, front, admitted[0]) && Chosen(slots, ids, front.request.prompt, at)
    requires after == slots[at := after[at]] && later == ids[at := later[at]]
    ensures Admits(slots, ids, [front], after, later, admitted)
  {
    assert admitted[0].slot == at;
    assert Partly(slots, after, admitted, 0) == slots;
    assert ChosenAt(slots, ids, after, [front], admitted, 0);
  }

  lemma NobodyAdmitted(slots: seq<Slot>, ids: seq<seq<Id>>, waiting: seq<Queued>, book: map<nat, Entry>)
    requires waiting != [] && |ids| == |slots|
    ensures Admitting(slots, waiting, book, slots, waiting, book)
    ensures Fills(slots, ids, waiting, waiting, slots, ids, [])
  {
    NoneAdmitted(slots, ids);
    PassedOne(waiting);
  }

  /** A request that wants no token, walked past. */
  lemma WalkedPast(slots: seq<Slot>, ids: seq<seq<Id>>, waiting: seq<Queued>, book: map<nat, Entry>)
    requires waiting != [] && waiting[0].request.count == 0 && waiting[0].ticket in book
        && book[waiting[0].ticket].count == 0 && |ids| == |slots|
    ensures Admitting(slots, waiting, book, slots, waiting[1..], book - {waiting[0].ticket})
    ensures Fills(slots, ids, waiting, waiting[1..], slots, ids, [])
  {
    NoneAdmitted(slots, ids);
    PassedOne(waiting);
  }

  /** The front of the queue dealt with, where it can be: walked past if it wants no token, and given a
    * slot if there is one. */
  method AdmitNext(net: Net, slots: seq<Slot>, waiting: seq<Queued>, ghost book: map<nat, Entry>, ghost tickets: nat,
                   ghost repr: set<object>)
    returns (after: seq<Slot>, queue: seq<Queued>, admitted: seq<Admitted>, ghost left: map<nat, Entry>,
             ghost grown: set<object>)
    requires Consistent(net, slots, waiting, book, tickets, repr) && waiting != []
    modifies repr
    ensures repr <= grown && fresh(grown - repr) && Consistent(net, after, queue, left, tickets, grown)
    ensures Admitting(slots, waiting, book, after, queue, left)
    ensures |waiting| <= |queue| + 1
    ensures Fills(slots, old(Recorded(slots)), waiting, queue, after, Recorded(after), admitted)
    ensures queue == waiting ==> forall s :: !Free(after, s)
  {
    ghost var ids := Recorded(slots);
    var front := waiting[0];
    after, queue, admitted, left, grown := slots, waiting[1..], [], book, repr;
    if front.request.count == 0 {
      DroppedFront(net, slots, waiting, book, tickets);
      WalkedPast(slots, ids, waiting, book);
      left := left - {front.ticket};
    } else {
      var at := SeatFor(slots, front.request.prompt);
      assert Recorded(slots) == ids;
      if at.None? {
        queue := waiting;
        NobodyAdmitted(slots, ids, waiting, book);
      } else {
        after, admitted, grown := AdmitFront(net, slots, waiting, at.value, book, tickets, repr);
      }
    }
  }

  lemma AdmittedMore(slots: seq<Slot>, waiting: seq<Queued>, book: map<nat, Entry>, after: seq<Slot>,
                     queue: seq<Queued>, left: map<nat, Entry>, next: seq<Slot>, rest: seq<Queued>,
                     remains: map<nat, Entry>)
    requires Admitting(slots, waiting, book, after, queue, left) && Admitting(after, queue, left, next, rest, remains)
    ensures Admitting(slots, waiting, book, next, rest, remains)
  {
  }

  /** The queue moved forward while it can be: a request for no token is passed over, and any other takes a
    * free slot, so what remains queued remains only for want of one. */
  method AdmitAll(net: Net, slots: seq<Slot>, waiting: seq<Queued>, ghost book: map<nat, Entry>, ghost tickets: nat,
                  ghost repr: set<object>)
    returns (after: seq<Slot>, queue: seq<Queued>, admitted: seq<Admitted>, ghost left: map<nat, Entry>,
             ghost grown: set<object>)
    requires Consistent(net, slots, waiting, book, tickets, repr)
    modifies repr
    ensures repr <= grown && fresh(grown - repr) && Consistent(net, after, queue, left, tickets, grown)
    ensures Admitting(slots, waiting, book, after, queue, left)
    ensures Fills(slots, old(Recorded(slots)), waiting, queue, after, Recorded(after), admitted)
    ensures queue != [] ==> forall s :: !Free(after, s)
  {
    after, queue, admitted, left, grown := slots, waiting, [], book, repr;
    ghost var ids := Recorded(slots);
    NoneAdmitted(slots, ids);
    while queue != []
      invariant repr <= grown && fresh(grown - repr) && Consistent(net, after, queue, left, tickets, grown)
      invariant Admitting(slots, waiting, book, after, queue, left)
      invariant Fills(slots, ids, waiting, queue, after, Recorded(after), admitted)
      decreases |queue|
    {
      ghost var here, held, kept, was := after, queue, left, Recorded(after);
      var length, more := |queue|, [];
      after, queue, more, left, grown := AdmitNext(net, after, queue, left, tickets, grown);
      AdmittedMore(slots, waiting, book, here, held, kept, after, queue, left);
      FillsOn(slots, ids, waiting, held, here, was, admitted, queue, after, Recorded(after), more);
      admitted := admitted + more;
      if |queue| == length {
        return;
      }
    }
  }

  /** What a step's tokens make of the book: each goes to a request still owed one, is the token that
    * request would have been given alone, and touches no other; no request is given two. */
  ghost predicate Advances(net: Net, before: map<nat, Entry>, produced: seq<Token>, told: map<nat, Entry>)
    requires net.Valid()
  {
    && told.Keys == before.Keys
    && (forall k :: 0 <= k < |produced| ==> TokenDue(net, before, produced[k], told))
    && (forall k, l :: 0 <= k < l < |produced| ==> produced[k].ticket != produced[l].ticket)
    && forall t :: t in before && (forall k :: 0 <= k < |produced| ==> produced[k].ticket != t) ==> told[t] == before[t]
  }

  ghost predicate TokenDue(net: Net, before: map<nat, Entry>, token: Token, told: map<nat, Entry>)
    requires net.Valid()
  {
    && token.ticket in before && token.ticket in told
    && var entry := before[token.ticket];
       && |entry.produced| < entry.count && entry.prompt + entry.produced != []
       && token.id == net.Next(entry.prompt + entry.produced)
       && told[token.ticket] == entry.(produced := entry.produced + [token.id])
  }

  lemma AdvancesMore(net: Net, before: map<nat, Entry>, produced: seq<Token>, told: map<nat, Entry>, token: Token,
                     after: map<nat, Entry>)
    requires net.Valid() && Advances(net, before, produced, told)
    requires token.ticket in before && forall k :: 0 <= k < |produced| ==> produced[k].ticket != token.ticket
    requires token.ticket in after && after == told[token.ticket := after[token.ticket]]
        && TokenDue(net, before, token, after)
    ensures Advances(net, before, produced + [token], after)
  {
    var all := produced + [token];
    forall k | 0 <= k < |all|
      ensures TokenDue(net, before, all[k], after)
    {
      if k < |produced| {
        assert TokenDue(net, before, produced[k], told);
      }
    }
    forall t | t in before && (forall k :: 0 <= k < |all| ==> all[k].ticket != t)
      ensures after[t] == before[t]
    {
      assert all[|produced|].ticket != t;
      forall k | 0 <= k < |produced|
        ensures produced[k].ticket != t
      {
        assert all[k].ticket != t;
      }
    }
  }

  /** A resident told of its rows: the same request, and what the book says of it. */
  lemma ToldBook(slots: seq<Slot>, waiting: seq<Queued>, book: map<nat, Entry>, tickets: nat, at: nat, told: Slot)
    requires Booked(slots, waiting, book, tickets) && at < |slots| && slots[at].held.Some? && told.held.Some?
    requires told.held.value.ticket == slots[at].held.value.ticket
        && told.held.value.prompt == slots[at].held.value.prompt
    ensures told.held.value.ticket in book && book[told.held.value.ticket] == EntryOf(slots[at].held.value)
    ensures Booked(slots[at := told], waiting, book[told.held.value.ticket := EntryOf(told.held.value)], tickets)
  {
    assert BookKey(0);
    var after, ticket := slots[at := told], told.held.value.ticket;
    assert SeatedAt(slots, at, ticket);
    forall s, t
      ensures SeatedAt(after, s, t) <==> SeatedAt(slots, s, t)
    {
    }
    forall t | t in book
      ensures (exists s :: SeatedAt(after, s, t)) || (exists w :: QueuedAt(waiting, w, t))
    {
      if s :| SeatedAt(slots, s, t) {
        assert SeatedAt(after, s, t);
      }
    }
  }

  lemma TicketsDiffer(slots: seq<Slot>, waiting: seq<Queued>, book: map<nat, Entry>, tickets: nat, s: nat, r: nat)
    requires Booked(slots, waiting, book, tickets) && s < |slots| && r < |slots| && s != r
    requires slots[s].held.Some? && slots[r].held.Some?
    ensures slots[s].held.value.ticket != slots[r].held.value.ticket
  {
    assert BookKey(0);
    assert SeatedAt(slots, s, slots[s].held.value.ticket) && SeatedAt(slots, r, slots[r].held.value.ticket);
  }

  /** What a resident's answer is once it has been given one more token. */
  function Longer(held: Resident, id: Id): Answered { Answered(held.ticket, held.produced + [id]) }

  /** The slots once the first `n` seats of a call have been told of their rows. */
  ghost predicate ToldUpTo(slots: seq<Slot>, order: seq<nat>, filling: nat, fed: seq<seq<Id>>, picks: seq<Id>,
                           after: seq<Slot>, n: nat)
    requires Ordered(slots, order, filling) && |fed| == |order| == filling + |picks| && n <= |order|
  {
    && |after| == |slots|
    && (forall j :: 0 <= j < n ==>
          after[order[j]]
            == slots[order[j]].(held := Some(slots[order[j]].held.value.Told(fed[j], if j < filling then 0
                                                                                     else picks[j - filling]))))
    && forall s :: 0 <= s < |slots| && s !in order[..n] ==> after[s] == slots[s]
  }

  /** The decoding seats among the first `n` that had nothing yet. */
  ghost function Firsts(seats: seq<Slot>, filling: nat, n: nat): seq<nat>
    requires n <= |seats| && forall i :: 0 <= i < |seats| ==> seats[i].held.Some?
  {
    if n <= filling then []
    else Firsts(seats, filling, n - 1) + if seats[n - 1].held.value.produced == [] then [seats[n - 1].held.value.ticket]
                                         else []
  }

  /** The answers of the decoding seats among the first `n` that now have all they asked for. */
  ghost function Answers(seats: seq<Slot>, filling: nat, picks: seq<Id>, n: nat): seq<Answered>
    requires n <= |seats| == filling + |picks| && forall i :: 0 <= i < |seats| ==> seats[i].held.Some?
  {
    if n <= filling then []
    else
      var held := seats[n - 1].held.value;
      Answers(seats, filling, picks, n - 1)
        + if |held.produced| + 1 >= held.count then [Longer(held, picks[n - 1 - filling])] else []
  }

  lemma {:induction false} AnswersAre(seats: seq<Slot>, filling: nat, picks: seq<Id>, n: nat, a: Answered)
    requires n <= |seats| == filling + |picks| && forall i :: 0 <= i < |seats| ==> seats[i].held.Some?
    ensures a in Answers(seats, filling, picks, n) <==>
            exists k :: filling <= k < n && a == Longer(seats[k].held.value, picks[k - filling])
                        && |seats[k].held.value.produced| + 1 >= seats[k].held.value.count
  {
    if n > filling {
      AnswersAre(seats, filling, picks, n - 1, a);
    }
  }

  lemma BookSays(slots: seq<Slot>, waiting: seq<Queued>, book: map<nat, Entry>, tickets: nat, s: nat)
    requires Booked(slots, waiting, book, tickets) && s < |slots| && slots[s].held.Some?
    ensures slots[s].held.value.ticket in book && book[slots[s].held.value.ticket] == EntryOf(slots[s].held.value)
  {
    assert BookKey(0);
    assert SeatedAt(slots, s, slots[s].held.value.ticket);
  }

  /** A decoding seat's token is the one its request is due. */
  lemma DecodedDue(net: Net, slots: seq<Slot>, waiting: seq<Queued>, before: map<nat, Entry>, tickets: nat, s: nat,
                   rows: seq<Id>, id: Id, told: map<nat, Entry>)
    requires net.Valid() && Booked(slots, waiting, before, tickets) && s < |slots| && slots[s].held.Some?
    requires var held := slots[s].held.value;
      && !held.Done() && !held.Filling() && held.filled < |held.prompt| && DealtTo(held, rows)
      && held.Fed() + rows != [] && id == net.Next(held.Fed() + rows)
      && held.ticket in told && told[held.ticket] == EntryOf(held.Told(rows, id))
    ensures TokenDue(net, before, Token(slots[s].held.value.ticket, id), told)
  {
    BookSays(slots, waiting, before, tickets, s);
    DecodeFed(slots[s].held.value, rows, id);
  }

  /** Everything a step's call needs of the slots it is made over. */
  ghost predicate Settleable(net: Net, slots: seq<Slot>, order: seq<nat>, filling: nat, fed: seq<seq<Id>>,
                             picks: seq<Id>)
    requires Ordered(slots, order, filling) && net.Valid()
  {
    && |fed| == |order| == filling + |picks|
    && forall key {:trigger SettleKey(key)} :: SettleKey(key) ==> Answerable(net, slots, order, filling, fed, picks)
  }

  ghost predicate Answerable(net: Net, slots: seq<Slot>, order: seq<nat>, filling: nat, fed: seq<seq<Id>>,
                             picks: seq<Id>)
    requires Ordered(slots, order, filling) && net.Valid() && |fed| == |order|
  {
    && Dealt(slots, order, filling, fed, |order|) && Unfinished(slots)
    && AllPicked(net, Named(slots, order), filling, fed, picks)
    && forall i :: 0 <= i < |order| ==> slots[order[i]].held.value.filled < |slots[order[i]].held.value.prompt|
  }

  /** A call settled as far as its first `n` seats: what they carry, what has been reported of them,
    * and what the book says now. */
  ghost predicate SettledTo(net: Net, slots: seq<Slot>, order: seq<nat>, filling: nat, fed: seq<seq<Id>>,
                            picks: seq<Id>, waiting: seq<Queued>, book: map<nat, Entry>, tickets: nat, n: nat,
                            after: seq<Slot>, produced: seq<Token>, told: map<nat, Entry>)
    requires net.Valid() && Ordered(slots, order, filling) && |fed| == |order| == filling + |picks| && n <= |order|
  {
    |after| == |slots| && forall key {:trigger SettleKey(key)} :: SettleKey(key) ==>
      SettledAt(net, slots, order, filling, fed, picks, waiting, book, tickets, n, after, produced, told)
  }

  /** A key to `SettledTo`, as `Sconv.WindowKey` is to a window. */
  ghost predicate SettleKey(key: nat) { true }

  ghost predicate SettledAt(net: Net, slots: seq<Slot>, order: seq<nat>, filling: nat, fed: seq<seq<Id>>,
                            picks: seq<Id>, waiting: seq<Queued>, book: map<nat, Entry>, tickets: nat, n: nat,
                            after: seq<Slot>, produced: seq<Token>, told: map<nat, Entry>)
    requires net.Valid() && Ordered(slots, order, filling) && |fed| == |order| == filling + |picks| && n <= |order|
  {
    && ToldUpTo(slots, order, filling, fed, picks, after, n)
    && Booked(after, waiting, told, tickets) && Advances(net, book, produced, told)
    && |produced| == (if n > filling then n - filling else 0)
    && Matched(slots, order, filling, picks, produced)
  }

  /** What has been reported so far: each decoding seat's answer, under its own ticket. */
  ghost predicate Matched(slots: seq<Slot>, order: seq<nat>, filling: nat, picks: seq<Id>, produced: seq<Token>)
    requires Ordered(slots, order, filling) && |order| == filling + |picks|
  {
    |produced| <= |picks| && forall k :: 0 <= k < |produced| ==> Reports(slots, order, filling, picks, produced[k], k)
  }

  ghost predicate Reports(slots: seq<Slot>, order: seq<nat>, filling: nat, picks: seq<Id>, token: Token, k: nat)
    requires Ordered(slots, order, filling) && |order| == filling + |picks| && k < |picks|
  {
    token == Token(slots[order[filling + k]].held.value.ticket, picks[k])
  }

  lemma MatchedMore(slots: seq<Slot>, order: seq<nat>, filling: nat, picks: seq<Id>, produced: seq<Token>, token: Token)
    requires Ordered(slots, order, filling) && |order| == filling + |picks| && |produced| < |picks|
    requires Matched(slots, order, filling, picks, produced)
    requires Reports(slots, order, filling, picks, token, |produced|)
    ensures Matched(slots, order, filling, picks, produced + [token])
  {
  }

  lemma NothingSettled(net: Net, slots: seq<Slot>, order: seq<nat>, filling: nat, fed: seq<seq<Id>>, picks: seq<Id>,
                       waiting: seq<Queued>, book: map<nat, Entry>, tickets: nat)
    requires net.Valid() && Ordered(slots, order, filling) && |fed| == |order| == filling + |picks|
    requires Booked(slots, waiting, book, tickets)
    ensures SettledTo(net, slots, order, filling, fed, picks, waiting, book, tickets, 0, slots, [], book)
  {
  }

  lemma SettledFiller(net: Net, slots: seq<Slot>, order: seq<nat>, filling: nat, fed: seq<seq<Id>>, picks: seq<Id>,
                      waiting: seq<Queued>, book: map<nat, Entry>, tickets: nat, n: nat,
                      after: seq<Slot>, produced: seq<Token>, told: map<nat, Entry>, slot: Slot)
    requires net.Valid() && Ordered(slots, order, filling) && |fed| == |order| == filling + |picks| && n < filling
    requires SettledTo(net, slots, order, filling, fed, picks, waiting, book, tickets, n, after, produced, told)
    requires slot == slots[order[n]].(held := Some(slots[order[n]].held.value.Told(fed[n], 0)))
    ensures SettledTo(net, slots, order, filling, fed, picks, waiting, book, tickets, n + 1, after[order[n] := slot],
                      produced, told)
  {
    assert SettleKey(0);
    assert order[n] !in order[..n];
    ToldBook(after, waiting, told, tickets, order[n], slot);
    ToldOneMore(slots, order, filling, fed, picks, after, n, slot);
    assert told[slot.held.value.ticket := EntryOf(slot.held.value)] == told;
  }

  lemma SettledDecoder(net: Net, slots: seq<Slot>, order: seq<nat>, filling: nat, fed: seq<seq<Id>>, picks: seq<Id>,
                       waiting: seq<Queued>, book: map<nat, Entry>, tickets: nat, n: nat,
                       after: seq<Slot>, produced: seq<Token>, told: map<nat, Entry>, slot: Slot, token: Token)
    requires net.Valid() && Ordered(slots, order, filling) && |fed| == |order| == filling + |picks|
        && filling <= n < |order|
    requires Settleable(net, slots, order, filling, fed, picks) && Booked(slots, waiting, book, tickets)
    requires SettledTo(net, slots, order, filling, fed, picks, waiting, book, tickets, n, after, produced, told)
    requires token == Token(slots[order[n]].held.value.ticket, picks[n - filling])
    requires slot == slots[order[n]].(held := Some(slots[order[n]].held.value.Told(fed[n], token.id)))
    ensures SettledTo(net, slots, order, filling, fed, picks, waiting, book, tickets, n + 1, after[order[n] := slot],
                    produced + [token], told[token.ticket := EntryOf(slot.held.value)])
  {
    assert SettleKey(0);
    assert order[n] !in order[..n];
    var next := told[token.ticket := EntryOf(slot.held.value)];
    ToldBook(after, waiting, told, tickets, order[n], slot);
    ToldOneMore(slots, order, filling, fed, picks, after, n, slot);
    DecodesMore(net, slots, order, filling, fed, picks, waiting, book, tickets, n, produced, told, token, next);
    MatchedMore(slots, order, filling, picks, produced, token);
  }

  lemma DecodesMore(net: Net, slots: seq<Slot>, order: seq<nat>, filling: nat, fed: seq<seq<Id>>, picks: seq<Id>,
                    waiting: seq<Queued>, book: map<nat, Entry>, tickets: nat, n: nat,
                    produced: seq<Token>, told: map<nat, Entry>, token: Token, next: map<nat, Entry>)
    requires net.Valid() && Ordered(slots, order, filling) && |fed| == |order| == filling + |picks|
        && filling <= n < |order|
    requires Settleable(net, slots, order, filling, fed, picks) && Booked(slots, waiting, book, tickets)
    requires Advances(net, book, produced, told) && |produced| == n - filling
    requires Matched(slots, order, filling, picks, produced)
    requires token == Token(slots[order[n]].held.value.ticket, picks[n - filling])
    requires next == told[token.ticket := EntryOf(slots[order[n]].held.value.Told(fed[n], token.id))]
    ensures Advances(net, book, produced + [token], next)
  {
    var s := order[n];
    assert SettleKey(0);
    assert DealtTo(slots[s].held.value, fed[n]) && Named(slots, order)[n] == slots[s];
    DecodedDue(net, slots, waiting, book, tickets, s, fed[n], token.id, next);
    forall k | 0 <= k < |produced|
      ensures produced[k].ticket != token.ticket
    {
      assert Reports(slots, order, filling, picks, produced[k], k);
      TicketsDiffer(slots, waiting, book, tickets, order[filling + k], s);
    }
    BookSays(slots, waiting, book, tickets, s);
    AdvancesMore(net, book, produced, told, token, next);
  }

  /** What each seat was answered, told to its resident and to the caller. */
  method Settle(net: Net, slots: seq<Slot>, order: seq<nat>, filling: nat, fed: seq<seq<Id>>, picks: seq<Id>,
                ghost waiting: seq<Queued>, ghost book: map<nat, Entry>, ghost tickets: nat)
    returns (after: seq<Slot>, first: seq<nat>, produced: seq<Token>, done: seq<Answered>, ghost told: map<nat, Entry>)
    requires net.Valid() && Ordered(slots, order, filling) && Settleable(net, slots, order, filling, fed, picks)
    requires Booked(slots, waiting, book, tickets)
    ensures |fed| == |order| == filling + |picks|
    ensures SettledTo(net, slots, order, filling, fed, picks, waiting, book, tickets, |order|, after, produced, told)
    ensures first == Firsts(Named(slots, order), filling, |order|)
    ensures done == Answers(Named(slots, order), filling, picks, |order|)
  {
    after, first, produced, done, told := slots, [], [], [], book;
    ghost var seats := Named(slots, order);
    NothingSettled(net, slots, order, filling, fed, picks, waiting, book, tickets);
    for i := 0 to |order|
      invariant SettledTo(net, slots, order, filling, fed, picks, waiting, book, tickets, i, after, produced, told)
      invariant first == Firsts(seats, filling, i) && done == Answers(seats, filling, picks, i)
    {
      after, first, produced, done, told :=
        SettleSeat(net, slots, order, filling, fed, picks, i, after, first, produced, done,
                                                       waiting, book, tickets, told, seats);
    }
  }

  /** One seat's part of that. */
  method SettleSeat(net: Net, slots: seq<Slot>, order: seq<nat>, filling: nat, fed: seq<seq<Id>>, picks: seq<Id>,
                    i: nat, before: seq<Slot>, begun: seq<nat>, so: seq<Token>, finished: seq<Answered>,
                    ghost waiting: seq<Queued>, ghost book: map<nat, Entry>, ghost tickets: nat,
                    ghost said: map<nat, Entry>, ghost seats: seq<Slot>)
    returns (after: seq<Slot>, first: seq<nat>, produced: seq<Token>, done: seq<Answered>, ghost told: map<nat, Entry>)
    requires net.Valid() && Ordered(slots, order, filling) && Settleable(net, slots, order, filling, fed, picks)
    requires Booked(slots, waiting, book, tickets) && i < |order| && seats == Named(slots, order)
    requires SettledTo(net, slots, order, filling, fed, picks, waiting, book, tickets, i, before, so, said)
    requires begun == Firsts(seats, filling, i) && finished == Answers(seats, filling, picks, i)
    ensures SettledTo(net, slots, order, filling, fed, picks, waiting, book, tickets, i + 1, after, produced, told)
    ensures first == Firsts(seats, filling, i + 1) && done == Answers(seats, filling, picks, i + 1)
  {
    first, produced, done, told := begun, so, finished, said;
    if i < filling {
      var slot := slots[order[i]].(held := Some(slots[order[i]].held.value.Told(fed[i], 0)));
      SettledFiller(net, slots, order, filling, fed, picks, waiting, book, tickets, i, before, so, said, slot);
      after := before[order[i] := slot];
    } else {
      var token, slot := SettleOne(slots, order, filling, fed, picks, i);
      SettledDecoder(net, slots, order, filling, fed, picks, waiting, book, tickets, i, before, so, said, slot, token);
      first, done := Reported(slots, order, filling, picks, i, begun, finished);
      after, produced, told := before[order[i] := slot], so + [token], said[token.ticket := EntryOf(slot.held.value)];
    }
  }

  /** A decoding seat's token, and the seat once its resident has been told. */
  method SettleOne(slots: seq<Slot>, order: seq<nat>, filling: nat, fed: seq<seq<Id>>, picks: seq<Id>, i: nat)
    returns (token: Token, slot: Slot)
    requires Ordered(slots, order, filling) && |fed| == |order| == filling + |picks| && filling <= i < |order|
    ensures token == Token(slots[order[i]].held.value.ticket, picks[i - filling])
    ensures slot == slots[order[i]].(held := Some(slots[order[i]].held.value.Told(fed[i], token.id)))
  {
    var held := slots[order[i]].held.value;
    token := Token(held.ticket, picks[i - filling]);
    slot := slots[order[i]].(held := Some(held.Told(fed[i], token.id)));
  }

  /** What that seat's caller is told: that it has begun, or that it has all it asked for. */
  method Reported(slots: seq<Slot>, order: seq<nat>, filling: nat, picks: seq<Id>, i: nat, first: seq<nat>,
                  done: seq<Answered>)
    returns (begun: seq<nat>, finished: seq<Answered>)
    requires Ordered(slots, order, filling) && filling <= i < |order| == filling + |picks|
    requires first == Firsts(Named(slots, order), filling, i) && done == Answers(Named(slots, order), filling, picks, i)
    ensures begun == Firsts(Named(slots, order), filling, i + 1)
        && finished == Answers(Named(slots, order), filling, picks, i + 1)
  {
    var held := slots[order[i]].held.value;
    begun, finished := first, done;
    SeatTold(slots, order, filling, picks, i);
    if held.produced == [] {
      begun := first + [held.ticket];
    }
    if |held.produced| + 1 >= held.count {
      finished := done + [Longer(held, picks[i - filling])];
    }
  }

  /** What telling one more decoding seat adds to the answers. */
  lemma SeatTold(slots: seq<Slot>, order: seq<nat>, filling: nat, picks: seq<Id>, i: nat)
    requires Ordered(slots, order, filling) && filling <= i < |order| == filling + |picks|
    ensures var seats, held := Named(slots, order), slots[order[i]].held.value;
      && Firsts(seats, filling, i + 1)
        == (if held.produced == [] then Firsts(seats, filling, i) + [held.ticket] else Firsts(seats, filling, i))
      && Answers(seats, filling, picks, i + 1)
      == if |held.produced| + 1 >= held.count then Answers(seats, filling, picks, i)
        + [Longer(held, picks[i - filling])]
         else Answers(seats, filling, picks, i)
  {
    assert Named(slots, order)[i] == slots[order[i]];
  }

  lemma ToldOneMore(slots: seq<Slot>, order: seq<nat>, filling: nat, fed: seq<seq<Id>>, picks: seq<Id>,
                    after: seq<Slot>, i: nat, slot: Slot)
    requires Ordered(slots, order, filling) && |fed| == |order| == filling + |picks| && i < |order|
    requires ToldUpTo(slots, order, filling, fed, picks, after, i)
    requires slot
        == slots[order[i]].(held := Some(slots[order[i]].held.value.Told(fed[i], if i < filling then 0
                                                                                 else picks[i - filling])))
    ensures ToldUpTo(slots, order, filling, fed, picks, after[order[i] := slot], i + 1)
  {
    assert order[..i + 1] == order[..i] + [order[i]];
  }

  /** What a call leaves in the slots, before their residents are told. */
  ghost predicate Riding(net: Net, slots: seq<Slot>, order: seq<nat>, fed: seq<seq<Id>>, repr: set<object>)
    requires |fed| == |order| && forall i :: 0 <= i < |order| ==> order[i] < |slots|
    reads repr
  {
    && (forall s :: 0 <= s < |slots| ==> On(slots[s], repr))
    && (forall i :: 0 <= i < |order| ==> On(slots[order[i]], repr) && Carrying(net, slots[order[i]], fed[i]))
    && (forall s :: 0 <= s < |slots| && s !in order ==> Lodged(net, slots[s]))
    && forall s, r :: 0 <= s < |slots| && 0 <= r < |slots| && s != r ==> slots[s].kept.Repr() !! slots[r].kept.Repr()
  }

  /** One resident told, its slot is lodged where its cache now is. */
  lemma DisembarkOne(net: Net, slots: seq<Slot>, order: seq<nat>, filling: nat, fed: seq<seq<Id>>, picks: seq<Id>,
                     after: Slot, i: nat)
    requires net.Valid() && Ordered(slots, order, filling) && Settleable(net, slots, order, filling, fed, picks)
    requires i < |order| && Carrying(net, slots[order[i]], fed[i])
    requires after
      == slots[order[i]].(held := Some(slots[order[i]].held.value.Told(fed[i], if i < filling then 0
                                                                              else picks[i - filling])))
    requires i >= filling ==> slots[order[i]].held.value.mark.Some?
    ensures Lodged(net, after)
  {
    assert SettleKey(0);
    assert Named(slots, order)[i] == slots[order[i]] && DealtTo(slots[order[i]].held.value, fed[i]);
    Arrived(net, slots[order[i]], fed[i], if i < filling then 0 else picks[i - filling], after);
  }

  /** Every resident told, every slot is lodged where its cache now is. */
  lemma Disembark(net: Net, slots: seq<Slot>, order: seq<nat>, filling: nat, fed: seq<seq<Id>>, picks: seq<Id>,
                  after: seq<Slot>, repr: set<object>)
    requires net.Valid() && Ordered(slots, order, filling) && Settleable(net, slots, order, filling, fed, picks)
    requires ToldUpTo(slots, order, filling, fed, picks, after, |order|)
    requires forall s :: 0 <= s < |slots| && slots[s].held.Some? && !slots[s].Filling() ==>
        slots[s].held.value.mark.Some?
    requires Riding(net, slots, order, fed, repr)
    ensures Lodgings(net, after, repr)
  {
    assert order[..|order|] == order;
    forall s | 0 <= s < |slots|
      ensures after[s].kept == slots[s].kept && On(after[s], repr) && Lodged(net, after[s])
    {
      if s in order {
        var i :| 0 <= i < |order| && order[i] == s;
        DisembarkOne(net, slots, order, filling, fed, picks, after[s], i);
      }
      assert On(slots[s], repr);
    }
  }

  /** Those of the first `n` slots whose residents have all they asked for. */
  ghost predicate Leaves(slots: seq<Slot>, n: nat, ticket: nat) {
    exists s :: 0 <= s < n && s < |slots| && SeatedAt(slots, s, ticket) && slots[s].held.value.Done()
  }

  /** What is on the book once they have gone. */
  ghost predicate LeftUpTo(slots: seq<Slot>, book: map<nat, Entry>, left: map<nat, Entry>, after: seq<Slot>, n: nat) {
    && |after| == |slots|
    && (forall t :: t in left ==> t in book && left[t] == book[t])
    && (forall t :: t in book ==> (t in left <==> !Leaves(slots, n, t)))
    && (forall s :: 0 <= s < n && s < |slots| && after[s].held.Some? ==>
        !after[s].held.value.Done() && after[s] == slots[s])
    && forall s :: n <= s < |slots| ==> after[s] == slots[s]
  }

  lemma NotLeaving(slots: seq<Slot>, waiting: seq<Queued>, book: map<nat, Entry>, tickets: nat, left: map<nat, Entry>,
                   after: seq<Slot>, at: nat)
    requires at < |slots| && LeftUpTo(slots, book, left, after, at)
    requires !(slots[at].held.Some? && slots[at].held.value.Done())
    ensures LeftUpTo(slots, book, left, after, at + 1)
  {
    forall t | t in book
      ensures Leaves(slots, at + 1, t) <==> Leaves(slots, at, t)
    {
    }
  }

  lemma OneLeaves(slots: seq<Slot>, waiting: seq<Queued>, book: map<nat, Entry>, tickets: nat, left: map<nat, Entry>,
                  after: seq<Slot>, at: nat, gone: Slot)
    requires at < |slots| && LeftUpTo(slots, book, left, after, at) && Booked(slots, waiting, book, tickets)
    requires slots[at].held.Some? && slots[at].held.value.Done() && gone.held == None
    ensures LeftUpTo(slots, book, left - {slots[at].held.value.ticket}, after[at := gone], at + 1)
  {
    var ticket := slots[at].held.value.ticket;
    assert SeatedAt(slots, at, ticket);
    forall t | t in book
      ensures Leaves(slots, at + 1, t) <==> Leaves(slots, at, t) || t == ticket
    {
      if t == ticket {
        assert SeatedAt(slots, at, t);
      }
    }
  }

  /** What a slot comes to when the finished go: theirs is left recording what it may, under a new stamp, and
    * any other is as it was. */
  ghost predicate LeftAt(slot: Slot, ids: seq<Id>, next: Slot, later: seq<Id>, stamp: nat) {
    if slot.held.Some? && slot.held.value.Done() then
      && slot.held.value.prompt != [] && next.held == None && next.kept == slot.kept && next.vacated > stamp
      && later == LeftIds(slot.held.value, slot.kept.bound)
    else next == slot && later == ids
  }

  ghost predicate LeftAll(slots: seq<Slot>, ids: seq<seq<Id>>, after: seq<Slot>, later: seq<seq<Id>>, stamp: nat,
                          n: nat) {
    && |after| == |slots| == |ids| == |later|
    && forall key {:trigger LeaveKey(key)} :: LeaveKey(key) ==> LeftSo(slots, ids, after, later, stamp, n)
  }

  /** A key to `LeftAll`, as `Sconv.WindowKey` is to a window. */
  ghost predicate LeaveKey(key: nat) { true }

  ghost predicate LeftSo(slots: seq<Slot>, ids: seq<seq<Id>>, after: seq<Slot>, later: seq<seq<Id>>, stamp: nat,
                         n: nat)
    requires |after| == |slots| == |ids| == |later|
  {
    && (forall s :: 0 <= s < n && s < |slots| ==> LeftAt(slots[s], ids[s], after[s], later[s], stamp))
    && forall s :: n <= s < |slots| ==> after[s] == slots[s] && later[s] == ids[s]
  }

  lemma LeftOn(slots: seq<Slot>, ids: seq<seq<Id>>, after: seq<Slot>, later: seq<seq<Id>>, stamp: nat, at: nat,
               next: seq<Slot>, last: seq<seq<Id>>)
    requires at < |slots| && LeftAll(slots, ids, after, later, stamp, at)
    requires |next| == |last| == |slots| && next == after[at := next[at]] && last == later[at := last[at]]
    requires LeftAt(after[at], later[at], next[at], last[at], stamp)
    ensures LeftAll(slots, ids, next, last, stamp, at + 1)
  {
    assert LeaveKey(0);
    forall s | 0 <= s < at
      ensures LeftAt(slots[s], ids[s], next[s], last[s], stamp)
    {
      assert LeftAt(slots[s], ids[s], after[s], later[s], stamp);
    }
  }

  /** Out of its slot with whatever the step finished. */
  method VacateDone(net: Net, slots: seq<Slot>, vacancies: nat, ghost waiting: seq<Queued>, ghost book: map<nat, Entry>,
                    ghost tickets: nat, ghost repr: set<object>)
    returns (after: seq<Slot>, vacated: nat, ghost left: map<nat, Entry>, ghost grown: set<object>)
    requires Lodgings(net, slots, repr) && Booked(slots, waiting, book, tickets) && Stamped(slots, vacancies)
    modifies repr
    ensures Consistent(net, after, waiting, left, tickets, grown) && LeftUpTo(slots, book, left, after, |slots|)
    ensures LeftAll(slots, old(Recorded(slots)), after, Recorded(after), vacancies, |slots|)
    ensures Stamped(after, vacated) && repr <= grown && fresh(grown - repr)
  {
    ghost var ids := Recorded(slots);
    after, vacated, left, grown := slots, vacancies, book, repr;
    for at := 0 to |slots|
      invariant LeftUpTo(slots, book, left, after, at) && LeftAll(slots, ids, after, Recorded(after), vacancies, at)
      invariant Stamped(after, vacated) && vacancies <= vacated
      invariant Lodgings(net, after, grown) && Booked(after, waiting, left, tickets)
      invariant repr <= grown && fresh(grown - repr)
    {
      after, vacated, left, grown :=
        VacateOne(net, slots, at, after, vacated, waiting, book, tickets, left, grown, ids, vacancies);
    }
  }

  /** One slot's part of that. */
  method VacateOne(net: Net, slots: seq<Slot>, at: nat, seats: seq<Slot>, vacancies: nat, ghost waiting: seq<Queued>,
                   ghost book: map<nat, Entry>, ghost tickets: nat, ghost held: map<nat, Entry>,
                   ghost repr: set<object>, ghost ids: seq<seq<Id>>, ghost stamp: nat)
    returns (after: seq<Slot>, vacated: nat, ghost left: map<nat, Entry>, ghost grown: set<object>)
    requires at < |slots| && LeftUpTo(slots, book, held, seats, at) && Booked(slots, waiting, book, tickets)
    requires Lodgings(net, seats, repr) && Booked(seats, waiting, held, tickets)
    requires LeftAll(slots, ids, seats, Recorded(seats), stamp, at) && Stamped(seats, vacancies) && stamp <= vacancies
    modifies repr
    ensures LeftUpTo(slots, book, left, after, at + 1)
    ensures LeftAll(slots, ids, after, Recorded(after), stamp, at + 1)
    ensures Stamped(after, vacated) && vacancies <= vacated
    ensures Lodgings(net, after, grown) && Booked(after, waiting, left, tickets)
    ensures repr <= grown && fresh(grown - repr)
  {
    after, vacated, left, grown := seats, vacancies, held, repr;
    ghost var were := Recorded(seats);
    if seats[at].held.Some? && seats[at].held.value.Done() {
      vacated := vacated + 1;
      ghost var gone := Slot(seats[at].kept, None, vacated);
      LeftBook(seats, waiting, held, tickets, at, gone);
      OneLeaves(slots, waiting, book, tickets, held, seats, at, gone);
      StampedNext(seats, vacancies, at, gone);
      left := held - {seats[at].held.value.ticket};
      after, grown := VacateAt(net, seats, at, vacated, repr);
    } else {
      NotLeaving(slots, waiting, book, tickets, held, seats, at);
    }
    LeftOn(slots, ids, seats, were, stamp, at, after, Recorded(after));
  }

  lemma StillOrdered(slots: seq<Slot>, after: seq<Slot>, order: seq<nat>, filling: nat)
    requires Ordered(slots, order, filling) && Marked(slots, after)
    ensures Ordered(after, order, filling)
  {
  }

  /** What one step does to the book, and what it says it did. */
  ghost predicate StepsTo(net: Net, before: map<nat, Entry>, stepped: Stepped, after: map<nat, Entry>)
    requires net.Valid()
  {
    forall key {:trigger StepKey(key)} :: StepKey(key) ==>
      StepsSo(net, before, stepped, after) && stepped.first == FirstsOf(before, stepped.produced)
  }

  /** A key to `StepsTo`, as `Sconv.WindowKey` is to a window. */
  ghost predicate StepKey(key: nat) { true }

  ghost predicate StepsSo(net: Net, before: map<nat, Entry>, stepped: Stepped, after: map<nat, Entry>)
    requires net.Valid()
  {
    && (forall t :: t in after ==> t in before)
    && (forall k :: 0 <= k < |stepped.produced| ==> Answers1(net, before, stepped.produced[k], stepped.done, after))
    && (forall k, l :: 0 <= k < l < |stepped.produced| ==> stepped.produced[k].ticket != stepped.produced[l].ticket)
    && (forall t ::
          t in before && before[t].count > 0
          && (forall k :: 0 <= k < |stepped.produced| ==> stepped.produced[k].ticket != t)
          ==> t in after && after[t] == before[t])
    && forall a :: a in stepped.done ==> Finishes(before, stepped.produced, a)
  }

  /** Those of a step's tickets that had been given nothing before it. */
  ghost function FirstsOf(before: map<nat, Entry>, produced: seq<Token>): seq<nat> {
    if produced == [] then []
    else
      var ticket := produced[|produced| - 1].ticket;
      FirstsOf(before, produced[..|produced| - 1])
        + if ticket in before && before[ticket].produced == [] then [ticket] else []
  }

  lemma {:induction false} SameFirsts(before: map<nat, Entry>, left: map<nat, Entry>, produced: seq<Token>)
    requires OnlyIdleDropped(before, left) && forall k :: 0 <= k < |produced| ==> produced[k].ticket in left
    ensures FirstsOf(before, produced) == FirstsOf(left, produced)
  {
    if produced != [] {
      SameFirsts(before, left, produced[..|produced| - 1]);
    }
  }

  /** One token of a step: the next of its own request's, and the end of that request exactly when it is
    * the last it asked for. */
  ghost predicate Answers1(net: Net, before: map<nat, Entry>, token: Token, done: seq<Answered>, after: map<nat, Entry>)
    requires net.Valid()
  {
    && token.ticket in before
    && var entry := before[token.ticket];
       && |entry.produced| < entry.count && entry.prompt + entry.produced != []
       && token.id == net.Next(entry.prompt + entry.produced)
       && if |entry.produced| + 1 < entry.count then
            token.ticket in after && after[token.ticket] == entry.(produced := entry.produced + [token.id])
          else
            token.ticket !in after && Answered(token.ticket, entry.produced + [token.id]) in done
  }

  /** A request is answered only on the token that ends it. */
  ghost predicate Finishes(before: map<nat, Entry>, produced: seq<Token>, a: Answered) {
    exists k :: 0 <= k < |produced| && produced[k].ticket == a.ticket && a.ticket in before
                && a.produced == before[a.ticket].produced + [produced[k].id] && |a.produced| == before[a.ticket].count
  }

  lemma Leaving(slots: seq<Slot>, waiting: seq<Queued>, book: map<nat, Entry>, tickets: nat, t: nat)
    requires Booked(slots, waiting, book, tickets) && t in book
    ensures Leaves(slots, |slots|, t) ==> |book[t].produced| >= book[t].count
    ensures |book[t].produced| >= book[t].count > 0 ==> Leaves(slots, |slots|, t)
  {
    assert BookKey(0);
    assert forall w :: QueuedAt(waiting, w, t) ==> book[t].produced == [];
    forall s | SeatedAt(slots, s, t)
      ensures slots[s].held.value.Done() <==> |book[t].produced| >= book[t].count
    {
    }
  }

  /** A request nothing was produced for does not leave. */
  lemma Unmoved(slots: seq<Slot>, waiting: seq<Queued>, book: map<nat, Entry>, tickets: nat, t: nat)
    requires Booked(slots, waiting, book, tickets) && Unfinished(slots) && t in book && book[t].count > 0
    ensures |book[t].produced| < book[t].count
  {
    assert BookKey(0);
    if s :| SeatedAt(slots, s, t) {
      assert !slots[s].held.value.Done();
    }
  }

  /** What one call comes to, once it is settled and whoever it finished has gone. */
  ghost predicate Called(net: Net, slots: seq<Slot>, order: seq<nat>, filling: nat, fed: seq<seq<Id>>, picks: seq<Id>,
                         waiting: seq<Queued>, left: map<nat, Entry>, tickets: nat, after: seq<Slot>,
                         produced: seq<Token>, told: map<nat, Entry>, final: map<nat, Entry>)
    requires net.Valid() && Ordered(slots, order, filling) && |fed| == |order| == filling + |picks|
  {
    && Booked(slots, waiting, left, tickets) && Unfinished(slots)
    && SettledTo(net, slots, order, filling, fed, picks, waiting, left, tickets, |order|, after, produced, told)
    && Booked(after, waiting, told, tickets)
    && (forall t :: t in final ==> t in told && final[t] == told[t])
    && forall t :: t in told ==> (t in final <==> !Leaves(after, |after|, t))
  }

  /** The seat a token came out of, and what the book said of it. */
  lemma TokenSeat(net: Net, slots: seq<Slot>, order: seq<nat>, filling: nat, fed: seq<seq<Id>>, picks: seq<Id>,
                  waiting: seq<Queued>, left: map<nat, Entry>, tickets: nat, after: seq<Slot>, produced: seq<Token>,
                  told: map<nat, Entry>, k: nat)
    requires net.Valid() && Ordered(slots, order, filling) && |fed| == |order| == filling + |picks|
    requires Booked(slots, waiting, left, tickets) && k < |picks|
    requires SettledTo(net, slots, order, filling, fed, picks, waiting, left, tickets, |order|, after, produced, told)
    ensures |produced| == |picks| && produced[k] == Token(slots[order[filling + k]].held.value.ticket, picks[k])
    ensures TokenDue(net, left, produced[k], told)
    ensures left[produced[k].ticket] == EntryOf(slots[order[filling + k]].held.value)
  {
    assert SettleKey(0);
    BookSays(slots, waiting, left, tickets, order[filling + k]);
  }

  lemma TokenAnswered(net: Net, seats: seq<Slot>, filling: nat, picks: seq<Id>, waiting: seq<Queued>,
                      left: map<nat, Entry>, tickets: nat, after: seq<Slot>, token: Token, told: map<nat, Entry>,
                      final: map<nat, Entry>, done: seq<Answered>, k: nat)
    requires net.Valid() && |seats| == filling + |picks| && k < |picks| && forall i :: 0 <= i < |seats| ==>
        seats[i].held.Some?
    requires TokenDue(net, left, token, told) && token == Token(seats[filling + k].held.value.ticket, picks[k])
    requires left[token.ticket] == EntryOf(seats[filling + k].held.value)
    requires Booked(after, waiting, told, tickets)
    requires forall t :: t in final ==> t in told && final[t] == told[t]
    requires forall t :: t in told ==> (t in final <==> !Leaves(after, |after|, t))
    requires done == Answers(seats, filling, picks, |seats|)
    ensures Answers1(net, left, token, done, final)
  {
    Leaving(after, waiting, told, tickets, token.ticket);
    var at := filling + k;
    AnswersAre(seats, filling, picks, |seats|, Longer(seats[at].held.value, picks[at - filling]));
  }

  lemma DoneFinishes(net: Net, slots: seq<Slot>, order: seq<nat>, filling: nat, fed: seq<seq<Id>>, picks: seq<Id>,
                     waiting: seq<Queued>, left: map<nat, Entry>, tickets: nat, after: seq<Slot>, produced: seq<Token>,
                     told: map<nat, Entry>, final: map<nat, Entry>, done: seq<Answered>, a: Answered)
    requires net.Valid() && Ordered(slots, order, filling) && |fed| == |order| == filling + |picks|
    requires Called(net, slots, order, filling, fed, picks, waiting, left, tickets, after, produced, told, final)
    requires done == Answers(Named(slots, order), filling, picks, |order|) && a in done
    ensures Finishes(left, produced, a)
  {
    var seats := Named(slots, order);
    AnswersAre(seats, filling, picks, |order|, a);
    var s :| filling <= s < |order| && a == Longer(seats[s].held.value, picks[s - filling])
             && |seats[s].held.value.produced| + 1 >= seats[s].held.value.count;
    var k := s - filling;
    TokenSeat(net, slots, order, filling, fed, picks, waiting, left, tickets, after, produced, told, k);
    FinishesAt(net, left, produced, told, k, slots[order[filling + k]].held.value, a);
  }

  lemma FinishesAt(net: Net, left: map<nat, Entry>, produced: seq<Token>, told: map<nat, Entry>, k: nat, held: Resident,
                   a: Answered)
    requires net.Valid() && k < |produced| && TokenDue(net, left, produced[k], told)
    requires left[produced[k].ticket] == EntryOf(held) && produced[k].ticket == held.ticket
    requires a == Longer(held, produced[k].id) && |held.produced| + 1 >= held.count
    ensures Finishes(left, produced, a)
  {
  }

  lemma StepAnswers(net: Net, slots: seq<Slot>, order: seq<nat>, filling: nat, fed: seq<seq<Id>>, picks: seq<Id>,
                    waiting: seq<Queued>, left: map<nat, Entry>, tickets: nat, after: seq<Slot>, stepped: Stepped,
                    told: map<nat, Entry>, final: map<nat, Entry>, k: nat)
    requires net.Valid() && Ordered(slots, order, filling) && |fed| == |order| == filling + |picks| && k < |picks|
    requires Called(net, slots, order, filling, fed, picks, waiting, left, tickets, after, stepped.produced,
                    told, final)
    requires stepped.done == Answers(Named(slots, order), filling, picks, |order|)
    ensures k < |stepped.produced| && Answers1(net, left, stepped.produced[k], stepped.done, final)
  {
    var seats, produced := Named(slots, order), stepped.produced;
    TokenSeat(net, slots, order, filling, fed, picks, waiting, left, tickets, after, produced, told, k);
    TokenAnswered(net, seats, filling, picks, waiting, left, tickets, after, produced[k], told, final, stepped.done, k);
  }

  lemma {:induction false} FirstsAre(net: Net, slots: seq<Slot>, order: seq<nat>, filling: nat, fed: seq<seq<Id>>,
                                     picks: seq<Id>, waiting: seq<Queued>, left: map<nat, Entry>, tickets: nat,
                                     after: seq<Slot>, produced: seq<Token>, told: map<nat, Entry>, n: nat)
    requires net.Valid() && Ordered(slots, order, filling) && |fed| == |order| == filling + |picks|
    requires Booked(slots, waiting, left, tickets) && n <= |picks| == |produced|
    requires SettledTo(net, slots, order, filling, fed, picks, waiting, left, tickets, |order|, after, produced, told)
    ensures Firsts(Named(slots, order), filling, filling + n) == FirstsOf(left, produced[..n])
  {
    if n > 0 {
      FirstsAre(net, slots, order, filling, fed, picks, waiting, left, tickets, after, produced, told, n - 1);
      TokenSeat(net, slots, order, filling, fed, picks, waiting, left, tickets, after, produced, told, n - 1);
      assert produced[..n][..n - 1] == produced[..n - 1];
    }
  }

  /** A call reports as begun those given their first token by it. */
  lemma CallFirsts(net: Net, slots: seq<Slot>, order: seq<nat>, filling: nat, fed: seq<seq<Id>>, picks: seq<Id>,
                   waiting: seq<Queued>, left: map<nat, Entry>, tickets: nat, after: seq<Slot>, produced: seq<Token>,
                   told: map<nat, Entry>)
    requires net.Valid() && Ordered(slots, order, filling) && |fed| == |order| == filling + |picks|
    requires Booked(slots, waiting, left, tickets) && |picks| == |produced|
    requires SettledTo(net, slots, order, filling, fed, picks, waiting, left, tickets, |order|, after, produced, told)
    ensures Firsts(Named(slots, order), filling, |order|) == FirstsOf(left, produced)
  {
    FirstsAre(net, slots, order, filling, fed, picks, waiting, left, tickets, after, produced, told, |picks|);
    assert produced[..|picks|] == produced;
  }

  lemma CallSteps(net: Net, slots: seq<Slot>, order: seq<nat>, filling: nat, fed: seq<seq<Id>>, picks: seq<Id>,
                  waiting: seq<Queued>, left: map<nat, Entry>, tickets: nat, after: seq<Slot>, stepped: Stepped,
                  told: map<nat, Entry>, final: map<nat, Entry>)
    requires net.Valid() && Ordered(slots, order, filling) && |fed| == |order| == filling + |picks|
    requires Called(net, slots, order, filling, fed, picks, waiting, left, tickets, after, stepped.produced,
                    told, final)
    requires stepped.done == Answers(Named(slots, order), filling, picks, |order|)
    ensures StepsSo(net, left, stepped, final)
  {
    assert Advances(net, left, stepped.produced, told) && |stepped.produced| == |picks| by {
      assert SettleKey(0);
    }
    forall k | 0 <= k < |stepped.produced|
      ensures Answers1(net, left, stepped.produced[k], stepped.done, final)
    {
      StepAnswers(net, slots, order, filling, fed, picks, waiting, left, tickets, after, stepped, told, final, k);
    }
    forall a | a in stepped.done
      ensures Finishes(left, stepped.produced, a)
    {
      DoneFinishes(net, slots, order, filling, fed, picks, waiting, left, tickets, after, stepped.produced, told, final,
                   stepped.done, a);
    }
    forall t | t in left && left[t].count > 0
      && (forall k :: 0 <= k < |stepped.produced| ==> stepped.produced[k].ticket != t)
      ensures t in final && final[t] == left[t]
    {
      StaysOn(slots, waiting, left, tickets, after, told, final, t);
    }
  }

  /** A request nothing was produced for is on the book as it was. */
  lemma StaysOn(slots: seq<Slot>, waiting: seq<Queued>, left: map<nat, Entry>, tickets: nat, after: seq<Slot>,
                told: map<nat, Entry>, final: map<nat, Entry>, t: nat)
    requires Booked(slots, waiting, left, tickets) && Unfinished(slots) && Booked(after, waiting, told, tickets)
    requires t in left && left[t].count > 0 && t in told && told[t] == left[t]
    requires t in final ==> final[t] == told[t]
    requires t in final <==> !Leaves(after, |after|, t)
    ensures t in final && final[t] == left[t]
  {
    Unmoved(slots, waiting, left, tickets, t);
    Leaving(after, waiting, told, tickets, t);
  }

  lemma SameAnswers(net: Net, before: map<nat, Entry>, left: map<nat, Entry>, token: Token, done: seq<Answered>,
                    final: map<nat, Entry>)
    requires net.Valid() && OnlyIdleDropped(before, left) && Answers1(net, left, token, done, final)
    ensures token.ticket in left && Answers1(net, before, token, done, final)
  {
  }

  lemma SameFinishes(before: map<nat, Entry>, left: map<nat, Entry>, produced: seq<Token>, a: Answered)
    requires OnlyIdleDropped(before, left) && Finishes(left, produced, a)
    ensures Finishes(before, produced, a)
  {
  }

  /** Dropping the requests that want no token first changes nothing of what a step does to the rest. */
  lemma DroppedFirst(net: Net, before: map<nat, Entry>, left: map<nat, Entry>, stepped: Stepped, final: map<nat, Entry>,
                     admitted: seq<Admitted>)
    requires net.Valid() && OnlyIdleDropped(before, left) && StepsTo(net, left, stepped, final)
    ensures StepsTo(net, before, stepped.(admitted := admitted), final)
  {
    assert StepKey(0);
    forall k | 0 <= k < |stepped.produced|
      ensures Answers1(net, before, stepped.produced[k], stepped.done, final)
      ensures stepped.produced[k].ticket in left
    {
      SameAnswers(net, before, left, stepped.produced[k], stepped.done, final);
    }
    assert stepped.first == FirstsOf(before, stepped.produced) by {
      SameFirsts(before, left, stepped.produced);
    }
    forall a | a in stepped.done
      ensures Finishes(before, stepped.produced, a)
    {
      SameFinishes(before, left, stepped.produced, a);
    }
  }
}
