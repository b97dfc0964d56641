/** The engine itself: requests submitted and released under tickets, and steps that carry them. */
module Engine {
  import opened Ops
  import opened Model
  import opened Keeping
  import opened Slots
  import opened Scheduling

  lemma Dealable(net: Net, slots: seq<Slot>, order: seq<nat>, filling: nat, repr: set<object>)
    requires Lodgings(net, slots, repr) && Ordered(slots, order, filling)
    ensures forall i :: 0 <= i < |order| ==> slots[order[i]].held.value.filled < |slots[order[i]].held.value.prompt|
  {
    forall i | 0 <= i < |order|
      ensures slots[order[i]].held.value.filled < |slots[order[i]].held.value.prompt|
    {
      SeatReady(net, slots[order[i]]);
    }
  }

  lemma Answerables(net: Net, slots: seq<Slot>, order: seq<nat>, filling: nat, fed: seq<seq<Id>>, picks: seq<Id>)
    requires net.Valid() && Ordered(slots, order, filling) && |fed| == |order| && Unfinished(slots)
    requires Dealt(slots, order, filling, fed, |order|) && AllPicked(net, Named(slots, order), filling, fed, picks)
    requires forall i :: 0 <= i < |order| ==> slots[order[i]].held.value.filled < |slots[order[i]].held.value.prompt|
    ensures Settleable(net, slots, order, filling, fed, picks)
  {
  }

  /** Rows the call carries for the seats that are filling. */
  method CountRows(fed: seq<seq<Id>>, filling: nat) returns (rows: nat)
    requires filling <= |fed|
    ensures rows == Rows(fed, filling)
  {
    rows := 0;
    for i := 0 to filling
      invariant rows == Rows(fed, i)
    {
      rows := rows + |fed[i]|;
    }
  }

  /** Everyone seated dealt their rows, and the call that carries them. */
  method Feed(net: Net, slots: seq<Slot>, order: seq<nat>, filling: nat, chunk: nat, ghost repr: set<object>)
    returns (fed: seq<seq<Id>>, picks: seq<Id>)
    requires net.Valid() && chunk > 0 && Lodgings(net, slots, repr) && Unfinished(slots)
    requires Ordered(slots, order, filling) && order != []
    modifies repr
    ensures |fed| == |order| && Riding(net, slots, order, fed, repr)
    ensures Settleable(net, slots, order, filling, fed, picks)
    ensures Rows(fed, filling) <= if chunk > filling then chunk else filling
    ensures Recorded(slots) == old(Recorded(slots))
  {
    Dealable(net, slots, order, filling, repr);
    assert forall i :: 0 <= i < |order| ==> slots[order[i]].held.value.prompt != [];
    fed := Deal(slots, order, filling, chunk);
    picks := FeedSlots(net, slots, order, filling, fed, repr);
    Answerables(net, slots, order, filling, fed, picks);
    forall s | 0 <= s < |slots|
      ensures On(slots[s], repr) && slots[s].kept.Repr() == old(slots[s].kept.Repr())
    {
      assert old(On(slots[s], repr));
    }
    forall i | 0 <= i < |order|
      ensures Carrying(net, slots[order[i]], fed[i])
    {
      assert Carrying(net, Named(slots, order)[i], fed[i]);
    }
  }

  /** Everyone a call carries has less left to do. */
  lemma ToldLess(slot: Slot, rows: seq<Id>, picked: Id)
    requires slot.held.Some? && DealtTo(slot.held.value, rows) && !slot.held.value.Done()
    ensures SlotWork(slot.(held := Some(slot.held.value.Told(rows, picked)))) < SlotWork(slot)
  {
  }

  lemma ToldWork(net: Net, slots: seq<Slot>, order: seq<nat>, filling: nat, fed: seq<seq<Id>>, picks: seq<Id>,
                 after: seq<Slot>)
    requires net.Valid() && Ordered(slots, order, filling) && Settleable(net, slots, order, filling, fed, picks)
        && order != []
    requires ToldUpTo(slots, order, filling, fed, picks, after, |order|)
    ensures SlotsWork(after) < SlotsWork(slots)
  {
    assert SettleKey(0);
    assert order[..|order|] == order;
    forall i | 0 <= i < |order|
      ensures SlotWork(after[order[i]]) < SlotWork(slots[order[i]])
    {
      ToldLess(slots[order[i]], fed[i], if i < filling then 0 else picks[i - filling]);
    }
    forall s | 0 <= s < |slots|
      ensures SlotWork(after[s]) <= SlotWork(slots[s])
    {
      assert s in order || after[s] == slots[s];
    }
    LessWork(slots, after, order[0]);
  }

  lemma SameWork(slots: seq<Slot>, after: seq<Slot>)
    requires Marked(slots, after)
    ensures SlotsWork(after) <= SlotsWork(slots)
  {
    LessWork(slots, after, |slots|);
  }

  lemma LeftWork(slots: seq<Slot>, book: map<nat, Entry>, left: map<nat, Entry>, after: seq<Slot>)
    requires LeftUpTo(slots, book, left, after, |slots|)
    ensures SlotsWork(after) <= SlotsWork(slots)
  {
    LessWork(slots, after, |slots|);
  }

  /** One forward pass over whoever is seated: their rows dealt and fed, their answers told, and the
    * caches where that leaves them. */
  method Carry(net: Net, slots: seq<Slot>, order: seq<nat>, filling: nat, chunk: nat, ghost waiting: seq<Queued>,
               ghost book: map<nat, Entry>, ghost tickets: nat, ghost repr: set<object>)
    returns (after: seq<Slot>, stepped: Stepped, ghost fed: seq<seq<Id>>, ghost picks: seq<Id>,
             ghost told: map<nat, Entry>)
    requires net.Valid() && chunk > 0 && Consistent(net, slots, waiting, book, tickets, repr)
    requires Ordered(slots, order, filling) && order != []
    requires forall s :: 0 <= s < |slots| && slots[s].held.Some? && !slots[s].Filling() ==>
        slots[s].held.value.mark.Some?
    modifies repr
    ensures |fed| == |order| == filling + |picks|
    ensures SettledTo(net, slots, order, filling, fed, picks, waiting, book, tickets, |order|, after,
                      stepped.produced, told)
    ensures Lodgings(net, after, repr) && Booked(after, waiting, told, tickets) && SlotsWork(after) < SlotsWork(slots)
    ensures stepped.done == Answers(Named(slots, order), filling, picks, |order|)
    ensures stepped.first == Firsts(Named(slots, order), filling, |order|)
    ensures stepped.seats == |order| && stepped.decoding == |order| - filling == |stepped.produced|
        && stepped.admitted == []
    ensures stepped.filling <= if chunk > filling then chunk else filling
    ensures |after| == |slots| && Recorded(after) == old(Recorded(slots)) && Tells(slots, after, stepped.filling)
  {
    var given, picked := Feed(net, slots, order, filling, chunk, repr);
    fed, picks := given, picked;
    var rows := CountRows(given, filling);
    var first, produced, done;
    after, first, produced, done, told := Settle(net, slots, order, filling, given, picked, waiting, book, tickets);
    SettledOut(net, slots, order, filling, fed, picks, waiting, book, tickets, after, produced, told);
    Disembark(net, slots, order, filling, fed, picks, after, repr);
    ToldWork(net, slots, order, filling, fed, picks, after);
    stepped := Stepped(rows, |order| - filling, |order|, first, [], produced, done);
    AllTold(net, slots, order, filling, fed, picks, after);
    SameRecords(slots, after, stepped.filling);
  }

  /** How much more of its prompt a slot's resident has in. */
  ghost function Gain(slot: Slot, next: Slot): int {
    if slot.held.Some? && next.held.Some? then next.held.value.filled - slot.held.value.filled else 0
  }

  /** How much more of all their prompts the residents of the slots have in. */
  ghost function Gains(slots: seq<Slot>, after: seq<Slot>): int
    requires |after| == |slots|
  {
    if slots == [] then 0
    else
      var last := |slots| - 1;
      Gains(slots[..last], after[..last]) + Gain(slots[last], after[last])
  }

  lemma {:induction false} SameGains(slots: seq<Slot>, after: seq<Slot>, others: seq<Slot>, nexts: seq<Slot>)
    requires |after| == |slots| == |others| == |nexts|
    requires forall s :: 0 <= s < |slots| ==> Gain(slots[s], after[s]) == Gain(others[s], nexts[s])
    ensures Gains(slots, after) == Gains(others, nexts)
  {
    if slots != [] {
      var last := |slots| - 1;
      SameGains(slots[..last], after[..last], others[..last], nexts[..last]);
    }
  }

  lemma {:induction false} NoGains(slots: seq<Slot>)
    ensures Gains(slots, slots) == 0
  {
    if slots != [] {
      NoGains(slots[..|slots| - 1]);
    }
  }

  lemma {:induction false} GainsAt(slots: seq<Slot>, after: seq<Slot>, at: nat, next: Slot)
    requires |after| == |slots| && at < |slots| && Gain(slots[at], after[at]) == 0
    ensures Gains(slots, after[at := next]) == Gains(slots, after) + Gain(slots[at], next)
  {
    var last := |slots| - 1;
    var fewer, before, went := slots[..last], after[..last], after[at := next][..last];
    if at == last {
      assert went == before;
    } else {
      assert went == before[at := next];
      GainsAt(fewer, before, at, next);
    }
  }

  /** The slots once the first `n` seats of a call have gone on. */
  ghost function Midway(slots: seq<Slot>, after: seq<Slot>, order: seq<nat>, n: nat): (midway: seq<Slot>)
    requires |after| == |slots| && n <= |order|
    ensures |midway| == |slots|
    ensures forall s :: 0 <= s < |slots| ==> midway[s] == if s in order[..n] then after[s] else slots[s]
  {
    seq(|slots|, s requires 0 <= s < |slots| => if s in order[..n] then after[s] else slots[s])
  }

  ghost predicate GainsRows(slots: seq<Slot>, after: seq<Slot>, order: seq<nat>, filling: nat, fed: seq<seq<Id>>,
                            i: nat)
    requires |after| == |slots| && |fed| == |order| && i < |order| && order[i] < |slots|
  {
    Gain(slots[order[i]], after[order[i]]) == if i < filling then |fed[i]| else 0
  }

  /** The prompt rows that a call carries are what its residents have gained by it. */
  lemma {:induction false} RowsGained(slots: seq<Slot>, after: seq<Slot>, order: seq<nat>, filling: nat,
                                      fed: seq<seq<Id>>, n: nat)
    requires |after| == |slots| && filling <= |fed| == |order| && n <= |order|
    requires forall i :: 0 <= i < |order| ==> order[i] < |slots| && GainsRows(slots, after, order, filling, fed, i)
    requires forall i, j :: 0 <= i < j < |order| ==> order[i] != order[j]
    ensures Gains(slots, Midway(slots, after, order, n)) == Rows(fed, if n < filling then n else filling)
  {
    if n == 0 {
      assert Midway(slots, after, order, 0) == slots;
      NoGains(slots);
    } else {
      var at, mid := order[n - 1], Midway(slots, after, order, n - 1);
      RowsGained(slots, after, order, filling, fed, n - 1);
      assert GainsRows(slots, after, order, filling, fed, n - 1);
      assert order[..n] == order[..n - 1] + [at] && at !in order[..n - 1];
      assert Midway(slots, after, order, n) == mid[at := after[at]] && mid[at] == slots[at];
      GainsAt(slots, mid, at, after[at]);
    }
  }

  /** A resident carried on by a call: more of its prompt in, or one more token produced. */
  ghost predicate GoneOn(held: Resident, on: Resident) {
    && on.ticket == held.ticket && on.prompt == held.prompt && on.count == held.count
    && if held.Filling() then held.filled < on.filled < |held.prompt| && on.produced == held.produced
       else on.filled == held.filled && held.produced <= on.produced && |on.produced| == |held.produced| + 1
  }

  ghost predicate ToldAt(slot: Slot, after: Slot) {
    && after.kept == slot.kept && after.vacated == slot.vacated && after.held.Some? == slot.held.Some?
    && (slot.held.Some? ==> !slot.held.value.Done() && GoneOn(slot.held.value, after.held.value))
  }

  /** What a call told whoever is seated: each has gone on, and between them by `rows` rows of their prompts. */
  ghost predicate Tells(slots: seq<Slot>, seats: seq<Slot>, rows: nat) {
    && |seats| == |slots|
    && forall key {:trigger CarryKey(key)} :: CarryKey(key) ==>
         rows == Gains(slots, seats) && forall s :: 0 <= s < |slots| ==> ToldAt(slots[s], seats[s])
  }

  lemma AllTold(net: Net, slots: seq<Slot>, order: seq<nat>, filling: nat, fed: seq<seq<Id>>, picks: seq<Id>,
                after: seq<Slot>)
    requires net.Valid() && Ordered(slots, order, filling) && Settleable(net, slots, order, filling, fed, picks)
    requires ToldUpTo(slots, order, filling, fed, picks, after, |order|)
    ensures Tells(slots, after, Rows(fed, filling))
  {
    assert order[..|order|] == order;
    forall i | 0 <= i < |order|
      ensures ToldAt(slots[order[i]], after[order[i]]) && GainsRows(slots, after, order, filling, fed, i)
    {
      assert SettleKey(0);
      assert DealtTo(slots[order[i]].held.value, fed[i]) && !slots[order[i]].held.value.Done();
    }
    forall s | 0 <= s < |slots|
      ensures ToldAt(slots[s], after[s])
    {
      if slots[s].held.Some? {
        assert s in order;
      } else {
        assert s !in order;
      }
    }
    RowsGained(slots, after, order, filling, fed, |order|);
    assert Midway(slots, after, order, |order|) == after;
  }

  /** A call records nothing. */
  lemma SameRecords(slots: seq<Slot>, seats: seq<Slot>, rows: nat)
    requires Tells(slots, seats, rows)
    ensures Recorded(seats) == Recorded(slots)
  {
    assert CarryKey(0);
    forall s | 0 <= s < |slots|
      ensures seats[s].kept == slots[s].kept
    {
      assert ToldAt(slots[s], seats[s]);
    }
  }

  /** What a step makes of a slot: whoever is in it is carried on, or has had its last token and is gone, leaving
    * what the slot may record under a new stamp; and one with nobody in it is as it was. */
  ghost predicate CarriedAt(slot: Slot, ids: seq<Id>, next: Slot, later: seq<Id>, stamp: nat) {
    && next.kept == slot.kept
    && match slot.held
       case None => next == slot && later == ids
       case Some(held) =>
         if next.held.Some? then
           next.vacated == slot.vacated && later == ids && GoneOn(held, next.held.value)
         else
           && held.prompt != [] && !held.Filling() && |held.produced| + 1 == held.count
           && later == LeftIds(held, slot.kept.bound) && next.vacated > stamp
  }

  ghost predicate CarriesAll(slots: seq<Slot>, ids: seq<seq<Id>>, after: seq<Slot>, later: seq<seq<Id>>, stamp: nat,
                             rows: nat) {
    && |after| == |slots| == |ids| == |later|
    && forall key {:trigger CarryKey(key)} :: CarryKey(key) ==>
         && rows == Gains(slots, after)
         && forall s :: 0 <= s < |slots| ==> CarriedAt(slots[s], ids[s], after[s], later[s], stamp)
  }

  /** A key to `CarriesAll`, `Tells` and `GivenUp`, as `Sconv.WindowKey` is to a window. */
  ghost predicate CarryKey(key: nat) { true }

  /** Whoever a step finishes had its prompt in before it. */
  lemma LeftCarries(slots: seq<Slot>, ids: seq<seq<Id>>, seats: seq<Slot>, after: seq<Slot>, later: seq<seq<Id>>,
                    stamp: nat, rows: nat)
    requires Tells(slots, seats, rows) && LeftAll(seats, ids, after, later, stamp, |seats|)
    ensures CarriesAll(slots, ids, after, later, stamp, rows)
  {
    assert CarryKey(0) && LeaveKey(0);
    forall s | 0 <= s < |slots|
      ensures CarriedAt(slots[s], ids[s], after[s], later[s], stamp)
      ensures Gain(slots[s], after[s]) == Gain(slots[s], seats[s])
    {
      assert ToldAt(slots[s], seats[s]) && LeftAt(seats[s], ids[s], after[s], later[s], stamp);
    }
    SameGains(slots, after, slots, seats);
  }

  /** Marks make no difference to what a step makes of a slot. */
  lemma MarkedCarries(slots: seq<Slot>, marked: seq<Slot>, ids: seq<seq<Id>>, after: seq<Slot>, later: seq<seq<Id>>,
                      stamp: nat, rows: nat)
    requires Marked(slots, marked) && CarriesAll(marked, ids, after, later, stamp, rows)
    ensures CarriesAll(slots, ids, after, later, stamp, rows)
  {
    assert CarryKey(0);
    forall s | 0 <= s < |slots|
      ensures CarriedAt(slots[s], ids[s], after[s], later[s], stamp)
      ensures Gain(slots[s], after[s]) == Gain(marked[s], after[s])
    {
      assert CarriedAt(marked[s], ids[s], after[s], later[s], stamp);
    }
    SameGains(slots, after, marked, after);
  }

  /** A step over empty slots leaves them as they were. */
  lemma NobodyCarried(slots: seq<Slot>, ids: seq<seq<Id>>, stamp: nat)
    requires |ids| == |slots| && forall s :: 0 <= s < |slots| ==> slots[s].held == None
    ensures CarriesAll(slots, ids, slots, ids, stamp, 0)
  {
    NoGains(slots);
  }

  /** How many slots have somebody in them. */
  ghost function Seated(slots: seq<Slot>): nat {
    |set s | 0 <= s < |slots| && slots[s].held.Some?|
  }

  ghost function Members(order: seq<nat>): set<int> {
    set i | 0 <= i < |order| :: order[i]
  }

  lemma {:induction false} NamedOnce(order: seq<nat>)
    requires forall i, j :: 0 <= i < j < |order| ==> order[i] != order[j]
    ensures |Members(order)| == |order|
  {
    if order == [] {
      assert Members(order) == {};
    } else {
      var last := |order| - 1;
      var fewer := order[..last];
      NamedOnce(fewer);
      assert order[last] !in Members(fewer) && Members(order) == Members(fewer) + {order[last]};
    }
  }

  /** A call's order names everyone seated, once. */
  lemma OrderCounts(slots: seq<Slot>, order: seq<nat>, filling: nat)
    requires Ordered(slots, order, filling)
    ensures |order| == Seated(slots)
  {
    NamedOnce(order);
    assert Members(order) == set s | 0 <= s < |slots| && slots[s].held.Some?;
  }

  lemma SettledOut(net: Net, slots: seq<Slot>, order: seq<nat>, filling: nat, fed: seq<seq<Id>>, picks: seq<Id>,
                   waiting: seq<Queued>, book: map<nat, Entry>, tickets: nat, after: seq<Slot>, produced: seq<Token>,
                   told: map<nat, Entry>)
    requires net.Valid() && Ordered(slots, order, filling) && |fed| == |order| == filling + |picks|
    requires SettledTo(net, slots, order, filling, fed, picks, waiting, book, tickets, |order|, after, produced, told)
    ensures ToldUpTo(slots, order, filling, fed, picks, after, |order|)
    ensures |produced| == |picks| && Booked(after, waiting, told, tickets)
  {
    assert SettleKey(0);
  }

  lemma StampedTold(slots: seq<Slot>, seats: seq<Slot>, vacancies: nat, rows: nat)
    requires Tells(slots, seats, rows) && Stamped(slots, vacancies)
    ensures Stamped(seats, vacancies)
  {
    assert CarryKey(0);
    forall s | 0 <= s < |slots|
      ensures seats[s].vacated == slots[s].vacated
    {
      assert ToldAt(slots[s], seats[s]);
    }
    StampedStill(slots, seats, vacancies);
  }

  /** The call, and whoever it finished out of their slots. */
  method Serve(net: Net, slots: seq<Slot>, order: seq<nat>, filling: nat, chunk: nat, vacancies: nat,
               ghost waiting: seq<Queued>, ghost book: map<nat, Entry>, ghost tickets: nat, ghost repr: set<object>)
    returns (after: seq<Slot>, vacated: nat, stepped: Stepped, ghost final: map<nat, Entry>, ghost grown: set<object>)
    requires net.Valid() && chunk > 0 && Consistent(net, slots, waiting, book, tickets, repr)
    requires Ordered(slots, order, filling) && order != []
    requires forall s :: 0 <= s < |slots| && slots[s].held.Some? && !slots[s].Filling() ==>
        slots[s].held.value.mark.Some?
    requires Stamped(slots, vacancies)
    modifies repr
    ensures |after| == |slots| && Consistent(net, after, waiting, final, tickets, grown)
        && StepsTo(net, book, stepped, final)
    ensures repr <= grown && fresh(grown - repr) && SlotsWork(after) < SlotsWork(slots)
    ensures stepped.seats == |order| && stepped.decoding == |order| - filling == |stepped.produced|
        && stepped.admitted == []
    ensures stepped.filling <= if chunk > filling then chunk else filling
    ensures CarriesAll(slots, old(Recorded(slots)), after, Recorded(after), vacancies, stepped.filling)
    ensures Stamped(after, vacated)
  {
    var seats;
    ghost var fed, picks, told;
    seats, stepped, fed, picks, told := Carry(net, slots, order, filling, chunk, waiting, book, tickets, repr);
    SettledOut(net, slots, order, filling, fed, picks, waiting, book, tickets, seats, stepped.produced, told);
    StampedTold(slots, seats, vacancies, stepped.filling);
    after, vacated, final, grown := VacateDone(net, seats, vacancies, waiting, told, tickets, repr);
    LeftWork(seats, told, final, after);
    LeftCarries(slots, old(Recorded(slots)), seats, after, Recorded(after), vacancies, stepped.filling);
    CallFirsts(net, slots, order, filling, fed, picks, waiting, book, tickets, seats, stepped.produced, told);
    CallSteps(net, slots, order, filling, fed, picks, waiting, book, tickets, seats, stepped, told, final);
  }

  lemma StillUnfinished(slots: seq<Slot>, after: seq<Slot>)
    requires Unfinished(slots) && Marked(slots, after)
    ensures Unfinished(after)
  {
    forall s | 0 <= s < |after| && after[s].held.Some?
      ensures !after[s].held.value.Done()
    {
      assert !slots[s].held.value.Done();
    }
  }

  lemma EmptyBook(slots: seq<Slot>, waiting: seq<Queued>, book: map<nat, Entry>, tickets: nat)
    requires Booked(slots, waiting, book, tickets)
    ensures waiting == [] && (forall s :: 0 <= s < |slots| ==> slots[s].held == None) <==> book == map[]
  {
    assert BookKey(0);
    forall s | 0 <= s < |slots| && slots[s].held.Some?
      ensures slots[s].held.value.ticket in book
    {
      assert SeatedAt(slots, s, slots[s].held.value.ticket);
    }
    if waiting != [] {
      assert QueuedAt(waiting, 0, waiting[0].ticket);
    }
    if book != map[] {
      var t :| t in book;
    }
  }

  lemma LodgeNew(net: Net, slots: seq<Slot>, slot: Slot, repr: set<object>)
    requires Lodgings(net, slots, repr) && slot.held == None && slot.kept.Valid() && slot.kept.net == net
    requires slot.kept.Repr() !! repr
    ensures Lodgings(net, slots + [slot], repr + slot.kept.Repr())
  {
    var longer, wider := slots + [slot], repr + slot.kept.Repr();
    forall s | 0 <= s < |longer|
      ensures On(longer[s], wider) && Lodged(net, longer[s])
      ensures s < |slots| ==> longer[s].kept.Repr() <= repr
    {
      if s < |slots| {
        assert On(slots[s], repr) && Lodged(net, slots[s]);
      }
    }
  }

  lemma StillGoing(slots: seq<Slot>, at: nat, left: Slot)
    requires at < |slots| && Unfinished(slots) && left.held == None
    ensures Unfinished(slots[at := left])
  {
  }

  lemma {:induction false} CutWork(waiting: seq<Queued>, at: nat)
    requires at < |waiting|
    ensures QueueWork(Cut(waiting, at)) < QueueWork(waiting)
  {
    if at == 0 {
      assert Cut(waiting, 0) == waiting[1..];
    } else {
      CutWork(waiting[1..], at - 1);
      assert Cut(waiting, at)[1..] == Cut(waiting[1..], at - 1);
    }
  }

  lemma NotHeld(slots: seq<Slot>, waiting: seq<Queued>, book: map<nat, Entry>, tickets: nat, ticket: nat)
    requires Booked(slots, waiting, book, tickets)
    requires (forall s :: !SeatedAt(slots, s, ticket)) && forall w :: !QueuedAt(waiting, w, ticket)
    ensures ticket !in book
  {
    assert BookKey(0);
  }

  /** With nobody seated there was nobody to seat. */
  lemma NobodySeated(slots: seq<Slot>, waiting: seq<Queued>, book: map<nat, Entry>, tickets: nat, filling: nat)
    requires Booked(slots, waiting, book, tickets) && slots != [] && Ordered(slots, [], filling)
    requires waiting != [] ==> forall s :: !Free(slots, s)
    ensures book == map[] && waiting == [] && forall s :: 0 <= s < |slots| ==> slots[s].held == None
  {
    assert Free(slots, 0);
    EmptyBook(slots, waiting, book, tickets);
  }

  lemma {:induction false} EverySeat(slots: seq<Slot>)
    requires forall s :: 0 <= s < |slots| ==> slots[s].held.Some?
    ensures Seated(slots) == |slots|
  {
    if slots != [] {
      var last := |slots| - 1;
      var fewer := slots[..last];
      EverySeat(fewer);
      assert (set s | 0 <= s < |slots| && slots[s].held.Some?)
          == (set s | 0 <= s < |fewer| && fewer[s].held.Some?) + {last};
    }
  }

  /** A request is left waiting only where every slot is seated. */
  lemma FullHouse(slots: seq<Slot>)
    requires forall s :: !Free(slots, s)
    ensures Seated(slots) == |slots|
  {
    forall s | 0 <= s < |slots|
      ensures slots[s].held.Some?
    {
      assert !Free(slots, s);
    }
    EverySeat(slots);
  }

  /** What a step does once everyone who can be is seated: marks where prompts are in, and one call. */
  method Advance(net: Net, slots: seq<Slot>, chunk: nat, vacancies: nat, ghost waiting: seq<Queued>,
                 ghost book: map<nat, Entry>, ghost tickets: nat, ghost repr: set<object>)
    returns (after: seq<Slot>, vacated: nat, stepped: Stepped, ghost final: map<nat, Entry>, ghost grown: set<object>)
    requires net.Valid() && chunk > 0 && slots != [] && Consistent(net, slots, waiting, book, tickets, repr)
    requires Stamped(slots, vacancies) && (waiting != [] ==> forall s :: !Free(slots, s))
    modifies repr
    ensures |after| == |slots| && Consistent(net, after, waiting, final, tickets, grown)
        && StepsTo(net, book, stepped, final)
    ensures repr <= grown && fresh(grown - repr)
    ensures waiting != [] ==> stepped.seats == |slots|
    ensures if stepped.seats == 0 then book == final == map[] && after == slots else SlotsWork(after) < SlotsWork(slots)
    ensures stepped.admitted == [] && stepped.decoding == |stepped.produced| <= stepped.seats
    ensures stepped.filling <= if chunk > stepped.seats - stepped.decoding then chunk
                               else stepped.seats - stepped.decoding
    ensures stepped.seats == Seated(slots)
    ensures CarriesAll(slots, old(Recorded(slots)), after, Recorded(after), vacancies, stepped.filling)
    ensures Stamped(after, vacated)
  {
    var order, filling := Order(slots);
    OrderCounts(slots, order, filling);
    if order == [] {
      NobodySeated(slots, waiting, book, tickets, filling);
      after, vacated, final, grown := slots, vacancies, book, repr;
      NobodyCarried(slots, Recorded(slots), vacancies);
      stepped := Stepped(0, 0, 0, [], [], [], []);
      return;
    }
    if waiting != [] {
      FullHouse(slots);
    }
    var marked := MarkAll(net, slots, repr);
    StillOrdered(slots, marked, order, filling);
    StillUnfinished(slots, marked);
    MarkedBook(slots, marked, waiting, book, tickets);
    SameWork(slots, marked);
    StampedStill(slots, marked, vacancies);
    assert Recorded(marked) == Recorded(slots);
    after, vacated, stepped, final, grown :=
      Serve(net, marked, order, filling, chunk, vacancies, waiting, book, tickets, repr);
    MarkedCarries(slots, marked, old(Recorded(slots)), after, Recorded(after), vacancies, stepped.filling);
  }

  /** Admission moves no stamp. */
  lemma StampedFill(slots: seq<Slot>, ids: seq<seq<Id>>, waiting: seq<Queued>, queue: seq<Queued>, after: seq<Slot>,
                    later: seq<seq<Id>>, admitted: seq<Admitted>, vacancies: nat)
    requires Fills(slots, ids, waiting, queue, after, later, admitted) && Stamped(slots, vacancies)
    ensures |after| == |slots| && Stamped(after, vacancies)
  {
    assert QueueKey(0) && AdmitKey(0);
    var taken := Wanting(Passed(waiting, queue));
    forall s | 0 <= s < |slots|
      ensures after[s].vacated == slots[s].vacated
    {
      if Takes(admitted, s) {
        var k :| 0 <= k < |admitted| && admitted[k].slot == s;
        assert Seats(slots, ids, after, later, taken[k], admitted[k]);
      }
    }
    StampedStill(slots, after, vacancies);
  }

  /** What giving a ticket up makes of the slots: the one it is seated in is left recording what it may, and every
    * other is as it was. */
  ghost predicate GivenUp(slots: seq<Slot>, ids: seq<seq<Id>>, after: seq<Slot>, later: seq<seq<Id>>, ticket: nat,
                          vacancies: nat) {
    && |after| == |slots| == |ids| == |later|
    && forall key {:trigger CarryKey(key)} :: CarryKey(key) ==>
         forall s :: 0 <= s < |slots| ==> GivenUpAt(slots, ids, after, later, ticket, vacancies, s)
  }

  ghost predicate GivenUpAt(slots: seq<Slot>, ids: seq<seq<Id>>, after: seq<Slot>, later: seq<seq<Id>>, ticket: nat,
                            vacancies: nat, s: nat)
    requires |after| == |slots| == |ids| == |later| && s < |slots|
  {
    if SeatedAt(slots, s, ticket) then
      && slots[s].held.value.prompt != [] && after[s] == Slot(slots[s].kept, None, vacancies + 1)
      && later[s] == LeftIds(slots[s].held.value, slots[s].kept.bound)
    else after[s] == slots[s] && later[s] == ids[s]
  }

  lemma SeatGivenUp(slots: seq<Slot>, ids: seq<seq<Id>>, waiting: seq<Queued>, book: map<nat, Entry>, tickets: nat,
                    after: seq<Slot>, later: seq<seq<Id>>, ticket: nat, vacancies: nat, at: nat)
    requires Booked(slots, waiting, book, tickets) && SeatedAt(slots, at, ticket) && |ids| == |slots|
    requires slots[at].held.value.prompt != [] && after == slots[at := Slot(slots[at].kept, None, vacancies + 1)]
    requires later == ids[at := LeftIds(slots[at].held.value, slots[at].kept.bound)]
    ensures GivenUp(slots, ids, after, later, ticket, vacancies)
  {
    assert BookKey(0);
    forall s | 0 <= s < |slots|
      ensures GivenUpAt(slots, ids, after, later, ticket, vacancies, s)
    {
      assert SeatedAt(slots, s, ticket) ==> s == at;
    }
  }

  lemma NobodyGivenUp(slots: seq<Slot>, ids: seq<seq<Id>>, ticket: nat, vacancies: nat)
    requires |ids| == |slots| && forall s :: !SeatedAt(slots, s, ticket)
    ensures GivenUp(slots, ids, slots, ids, ticket, vacancies)
  {
  }

  /** A key to `Continuous.Valid`, as `Sconv.WindowKey` is to a window. */
  ghost predicate EngineKey(key: nat) { true }

  /** The continuous batching engine: slots, the queue before them, and a ghost book of every request it still
    * owes. */
  class Continuous {
    const net: Net
    /** The budget of prompt rows that a single step deals out among its filling seats. */
    const chunk: nat
    var slots: seq<Slot>
    var waiting: seq<Queued>
    var tickets: nat
    /** How often a slot has been left; a slot's `vacated` is this count at its last leaving. */
    var vacancies: nat

    /** What the engine holds, by ticket. */
    ghost var book: map<nat, Entry>
    ghost var Repr: set<object>

    ghost predicate Valid()
      reads this, Repr
    {
      && net.Valid() && this in Repr
      && forall key {:trigger EngineKey(key)} :: EngineKey(key) ==> InOrder()
    }

    ghost predicate InOrder()
      reads this, Repr
    {
      && chunk > 0 && slots != [] && Consistent(net, slots, waiting, book, tickets, Repr - {this})
      && Stamped(slots, vacancies)
    }

    /** The fields as a method leaves them: a consistent engine over what it owns. */
    method Put(slots: seq<Slot>, waiting: seq<Queued>, vacancies: nat, ghost book: map<nat, Entry>,
               ghost grown: set<object>)
      requires net.Valid() && chunk > 0 && slots != [] && this !in grown
      requires Consistent(net, slots, waiting, book, tickets, grown) && Stamped(slots, vacancies)
      modifies this
      ensures Valid() && tickets == old(tickets) && Repr == grown + {this}
      ensures this.slots == slots && this.waiting == waiting && this.vacancies == vacancies && this.book == book
    {
      this.slots, this.waiting, this.vacancies, this.book, Repr := slots, waiting, vacancies, book, grown + {this};
      assert grown == Repr - {this};
    }

    /** An engine of `count` empty slots, with nothing on its book; a slot keeps no conversation longer than
      * `bound`. */
    constructor (net: Net, count: nat, chunk: nat, bound: nat)
      requires net.Valid() && count > 0 && chunk > 0
      ensures Valid() && fresh(Repr) && book == map[] && tickets == 0 && |slots| == count
      ensures this.net == net && this.chunk == chunk
    {
      var built: seq<Slot> := [];
      ghost var repr: set<object> := {};
      for s := 0 to count
        invariant |built| == s && Lodgings(net, built, repr) && fresh(repr)
        invariant forall r :: 0 <= r < s ==> built[r].held == None && built[r].vacated == 0
      {
        var kept := new Kept(net, bound);
        var slot := Slot(kept, None, 0);
        LodgeNew(net, built, slot, repr);
        built, repr := built + [slot], repr + kept.Repr();
      }
      this.net, this.chunk, slots, waiting, tickets, vacancies := net, chunk, built, [], 0, 0;
      book := map[];
      Repr := repr + {this};
      new;
      assert repr == Repr - {this};
    }

    /** A new ticket, on the book for the whole of `request` and at the back of the queue. */
    method Submit(request: Request) returns (ticket: nat)
      requires Valid() && request.prompt != []
      modifies this
      ensures Valid() && Repr == old(Repr) && slots == old(slots)
      ensures ticket !in old(book) && book == old(book)[ticket := Entry(request.prompt, request.count, [])]
      ensures ticket == old(tickets) && tickets == ticket + 1
    {
      assert EngineKey(0);
      Submitted(slots, waiting, book, tickets, request);
      ticket := tickets;
      tickets := tickets + 1;
      waiting := waiting + [Queued(ticket, request)];
      book := book[ticket := Entry(request.prompt, request.count, [])];
    }

    /** The slot a ticket is seated in. */
    method Position(ticket: nat) returns (at: Option<nat>)
      ensures at.Some? ==> SeatedAt(slots, at.value, ticket)
      ensures at.None? ==> forall s :: !SeatedAt(slots, s, ticket)
    {
      for s := 0 to |slots|
        invariant forall r :: r < s ==> !SeatedAt(slots, r, ticket)
      {
        if slots[s].held.Some? && slots[s].held.value.ticket == ticket {
          return Some(s);
        }
      }
      at := None;
    }

    method QueuePosition(ticket: nat) returns (at: Option<nat>)
      ensures at.Some? ==> QueuedAt(waiting, at.value, ticket)
      ensures at.None? ==> forall w :: !QueuedAt(waiting, w, ticket)
    {
      for w := 0 to |waiting|
        invariant forall v :: v < w ==> !QueuedAt(waiting, v, ticket)
      {
        if waiting[w].ticket == ticket {
          return Some(w);
        }
      }
      at := None;
    }

    /** A seated request given up: its slot is left where its conversation ends. */
    method ReleaseSeat(ticket: nat, at: nat)
      requires Valid() && SeatedAt(slots, at, ticket)
      modifies Repr
      ensures Valid() && fresh(Repr - old(Repr)) && tickets == old(tickets)
      ensures ticket in old(book) && book == old(book) - {ticket}
      ensures Work(slots, waiting) <= old(Work(slots, waiting))
      ensures GivenUp(old(slots), old(Recorded(slots)), slots, Recorded(slots), ticket, old(vacancies))
    {
      assert EngineKey(0);
      ghost var gone := Slot(slots[at].kept, None, vacancies + 1);
      ghost var ids := Recorded(slots);
      LeftBook(slots, waiting, book, tickets, at, gone);
      StampedNext(slots, vacancies, at, gone);
      ghost var grown;
      var left;
      left, grown := VacateAt(net, slots, at, vacancies + 1, Repr - {this});
      ghost var recorded := Recorded(left);
      assert left == slots[at := gone];
      StillGoing(slots, at, gone);
      WorkAt(slots, at, gone);
      SeatGivenUp(slots, ids, waiting, book, tickets, left, recorded, ticket, vacancies, at);
      Put(left, waiting, vacancies + 1, book - {ticket}, grown);
      assert Recorded(slots) == recorded;
    }

    /** The ticket off the book, from its slot or from the queue, and true if it was on it; every other entry
      * stays as it was. */
    method Release(ticket: nat) returns (there: bool)
      requires Valid()
      modifies Repr
      ensures Valid() && fresh(Repr - old(Repr)) && tickets == old(tickets)
      ensures there == (ticket in old(book)) && book == old(book) - {ticket}
      ensures Work(slots, waiting) <= old(Work(slots, waiting))
      ensures GivenUp(old(slots), old(Recorded(slots)), slots, Recorded(slots), ticket, old(vacancies))
    {
      assert EngineKey(0);
      ghost var ids := Recorded(slots);
      var seat := Position(ticket);
      assert Recorded(slots) == ids;
      if seat.Some? {
        ReleaseSeat(ticket, seat.value);
        return true;
      }
      NobodyGivenUp(slots, ids, ticket, vacancies);
      var queued := QueuePosition(ticket);
      assert Recorded(slots) == ids;
      if queued.None? {
        NotHeld(slots, waiting, book, tickets, ticket);
        assert book - {ticket} == book;
        return false;
      }
      DroppedBook(slots, waiting, book, tickets, queued.value);
      CutWork(waiting, queued.value);
      waiting := Cut(waiting, queued.value);
      book := book - {ticket};
      assert Recorded(slots) == ids;
      there := true;
    }

    /** True exactly when the book is empty. */
    method Idle() returns (idle: bool)
      requires Valid()
      ensures idle <==> book == map[]
    {
      assert EngineKey(0);
      EmptyBook(slots, waiting, book, tickets);
      if waiting != [] {
        return false;
      }
      for s := 0 to |slots|
        invariant forall r :: 0 <= r < s ==> slots[r].held == None
      {
        if slots[s].held.Some? {
          return false;
        }
      }
      idle := true;
    }

    /** The queue's front moved into free slots until one of the two runs out. */
    method Admit() returns (admitted: seq<Admitted>)
      requires Valid()
      modifies Repr
      ensures Valid() && fresh(Repr - old(Repr)) && tickets == old(tickets)
      ensures Admitting(old(slots), old(waiting), old(book), slots, waiting, book)
      ensures Fills(old(slots), old(Recorded(slots)), old(waiting), waiting, slots, Recorded(slots), admitted)
      ensures waiting != [] ==> forall s :: !Free(slots, s)
      ensures vacancies == old(vacancies)
    {
      assert EngineKey(0);
      ghost var left, grown;
      var seated, queue;
      ghost var ids := Recorded(slots);
      seated, queue, admitted, left, grown := AdmitAll(net, slots, waiting, book, tickets, Repr - {this});
      ghost var recorded := Recorded(seated);
      StampedFill(slots, ids, waiting, queue, seated, recorded, admitted, vacancies);
      Put(seated, queue, vacancies, left, grown);
      assert Recorded(slots) == recorded;
    }

    /** Everyone seated carried on by one call. */
    method Run() returns (stepped: Stepped)
      requires Valid() && (waiting != [] ==> forall s :: !Free(slots, s))
      modifies Repr
      ensures Valid() && fresh(Repr - old(Repr)) && tickets == old(tickets) && waiting == old(waiting)
          && |slots| == |old(slots)|
      ensures StepsTo(net, old(book), stepped, book) && stepped.admitted == []
      ensures waiting != [] ==> stepped.seats == |slots|
      ensures if stepped.seats == 0 then old(book) == book == map[] && slots == old(slots)
              else SlotsWork(slots) < old(SlotsWork(slots))
      ensures stepped.decoding == |stepped.produced| <= stepped.seats
      ensures stepped.filling <= if chunk > stepped.seats - stepped.decoding then chunk
                                 else stepped.seats - stepped.decoding
      ensures stepped.seats == Seated(old(slots))
      ensures CarriesAll(old(slots), old(Recorded(slots)), slots, Recorded(slots), old(vacancies), stepped.filling)
    {
      assert EngineKey(0);
      ghost var final, wider;
      var seated, vacated;
      seated, vacated, stepped, final, wider :=
        Advance(net, slots, chunk, vacancies, waiting, book, tickets, Repr - {this});
      ghost var recorded := Recorded(seated);
      Put(seated, waiting, vacated, final, wider);
      assert Recorded(slots) == recorded;
    }

    /** The queue's front seated, and then everyone seated carried on by one call: `seated` and `recorded` are the
      * slots and what they record in between.  The book moves on by the tokens this reports, each its own
      * request's next and a finished request off the book, with strictly less work left to do. */
    method Step() returns (stepped: Stepped, ghost seated: seq<Slot>, ghost recorded: seq<seq<Id>>)
      requires Valid()
      modifies Repr
      ensures Valid() && fresh(Repr - old(Repr)) && tickets == old(tickets)
      ensures StepsTo(net, old(book), stepped, book)
      ensures |slots| == |old(slots)| && QueueTail(old(waiting), waiting)
      ensures Fills(old(slots), old(Recorded(slots)), old(waiting), waiting, seated, recorded, stepped.admitted)
      ensures CarriesAll(seated, recorded, slots, Recorded(slots), old(vacancies), stepped.filling)
      ensures stepped.seats == Seated(seated)
      ensures waiting != [] ==> stepped.seats == |slots|
      ensures old(book) != map[] ==> Work(slots, waiting) < old(Work(slots, waiting))
      ensures stepped.decoding == |stepped.produced| <= stepped.seats
      ensures stepped.filling <= if chunk > stepped.seats - stepped.decoding then chunk
                                 else stepped.seats - stepped.decoding
    {
      ghost var before := book;
      var admitted := Admit();
      assert waiting == [] || forall s :: 0 <= s < |slots| ==> !Free(slots, s);
      ghost var left := book;
      seated, recorded := slots, Recorded(slots);
      stepped := Run();
      DroppedFirst(net, before, left, stepped, book, admitted);
      stepped := stepped.(admitted := admitted);
    }
  }
}
