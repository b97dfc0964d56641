/** The scheduler behind the socket: requests and releases arriving in any order between steps, and each
  * step's tokens sent to whoever is waiting for them. */
module Server {
  import opened Ops
  import opened Model
  import opened Speculation
  import opened Slots
  import opened Scheduling
  import opened Engine

  /** A request for a seat, and whether its receiver is gone once it has been sent what it has. */
  datatype Seating = Seating(ids: seq<Id>, budget: nat, leaves: seq<Dispatch> -> bool)

  /** The two messages of a connection: a seat wanted, and a ticket given up. */
  datatype Wanted = Seat(seating: Seating) | Release(ticket: nat)

  /** The three messages a connection is sent: its ticket, a token, and how its tokens ended. */
  datatype Dispatch = Seated(ticket: nat) | Said(id: Id) | Done(stop: Stop)

  /** One connection's channel: what has been sent down it, and heard. */
  datatype Line = Line(seating: Seating, log: seq<Dispatch>) {
    /** A send fails once the receiver has gone, and from then on. */
    predicate Listening() {
      !seating.leaves(log)
    }

    function Send(message: Dispatch): Line {
      if Listening() then this.(log := log + [message]) else this
    }
  }

  function Told(tokens: seq<Id>): (log: seq<Dispatch>)
    ensures |log| == |tokens| && forall i :: 0 <= i < |tokens| ==> log[i] == Said(tokens[i])
  {
    seq(|tokens|, i requires 0 <= i < |tokens| => Said(tokens[i]))
  }

  /** How one request's story stands: its tokens so far, and how it ended if it has. */
  datatype Status = Live | Ended(stop: Stop) | Gone | Freed

  datatype Tale = Tale(tokens: seq<Id>, status: Status)

  /** Everything a receiver that stayed would have been sent. */
  ghost function Whole(ticket: nat, tale: Tale): seq<Dispatch> {
    [Seated(ticket)] + Told(tale.tokens) + if tale.status.Ended? then [Done(tale.status.stop)] else []
  }

  /** What a receiver hears of it before it leaves, if it does. */
  ghost function Heard(leaves: seq<Dispatch> -> bool, whole: seq<Dispatch>): (heard: seq<Dispatch>)
    ensures heard <= whole && (|heard| < |whole| ==> leaves(heard))
  {
    if whole == [] then []
    else
      var before := Heard(leaves, whole[..|whole| - 1]);
      if leaves(before) then before else whole
  }

  /** A sink that takes every token: nothing on this side of the socket declines one. */
  const TAKES_ALL: Declines := (_: seq<Id>) => false

  /** A generation that has not ended: its tokens are greedy, none of them ends it. */
  ghost predicate Going(net: Net, seating: Seating, eos: Id, tokens: seq<Id>)
    requires net.Valid()
  {
    && seating.ids != [] && |tokens| <= seating.budget && Greedy(net, seating.ids, tokens) && eos !in tokens
  }

  /** A key to `LineOk`, as `Sconv.WindowKey` is to a window. */
  ghost predicate LineKey(key: nat) { true }

  /** One line is a faithful telling of its own request. */
  ghost predicate LineOk(net: Net, eos: Id, ticket: nat, line: Line, tale: Tale)
    requires net.Valid()
  {
    && line.seating.ids != [] && line.seating.budget > 0
    && forall key {:trigger LineKey(key)} :: LineKey(key) ==> Faithful(net, eos, ticket, line, tale)
  }

  ghost predicate Faithful(net: Net, eos: Id, ticket: nat, line: Line, tale: Tale)
    requires net.Valid() && line.seating.ids != []
  {
    && line.log == Heard(line.seating.leaves, Whole(ticket, tale))
    && match tale.status
       case Live =>
         Going(net, line.seating, eos, tale.tokens) && line.log == Whole(ticket, tale)
       case Ended(stop) =>
         Generated(net, line.seating.ids, Ending(line.seating.budget, Some(eos)), TAKES_ALL, tale.tokens, stop)
       case Gone =>
         Going(net, line.seating, eos, tale.tokens) && |line.log| < |Whole(ticket, tale)|
       case Freed =>
         Going(net, line.seating, eos, tale.tokens) && line.log == Whole(ticket, tale)
  }

  lemma GoingMore(net: Net, seating: Seating, eos: Id, tokens: seq<Id>, id: Id)
    requires net.Valid() && Going(net, seating, eos, tokens) && |tokens| < seating.budget
    requires id == net.Next(seating.ids + tokens)
    ensures Greedy(net, seating.ids, tokens + [id])
    ensures id != eos ==> Going(net, seating, eos, tokens + [id])
    ensures id == eos ==>
              Generated(net, seating.ids, Ending(seating.budget, Some(eos)), TAKES_ALL, tokens + [id], EndOfSequence)
  {
    GreedyPush(net, seating.ids, tokens, id);
    var longer := tokens + [id];
    forall i | 1 <= i < |longer|
      ensures Why(Ending(seating.budget, Some(eos)), TAKES_ALL, longer[..i]) == None
    {
      assert longer[..i] == tokens[..i];
    }
  }

  lemma BudgetSpent(net: Net, seating: Seating, eos: Id, tokens: seq<Id>)
    requires net.Valid() && Going(net, seating, eos, tokens) && |tokens| == seating.budget > 0
    ensures Generated(net, seating.ids, Ending(seating.budget, Some(eos)), TAKES_ALL, tokens, Budget)
  {
    forall i | 1 <= i <= |tokens|
      ensures tokens[..i][i - 1] != eos
    {
      assert tokens[..i][i - 1] == tokens[i - 1];
    }
    assert tokens[..|tokens|] == tokens;
  }

  /** A receiver hears everything sent until it leaves, and nothing sent after. */
  lemma SendHeard(line: Line, whole: seq<Dispatch>, message: Dispatch)
    requires line.log == Heard(line.seating.leaves, whole)
    ensures line.Send(message).log == Heard(line.seating.leaves, whole + [message])
    ensures line.Listening() ==> line.log == whole && line.Send(message).log == whole + [message]
    ensures !line.Listening() ==> |line.Send(message).log| < |whole + [message]|
  {
    assert (whole + [message])[..|whole|] == whole;
  }

  /** What one token does to its line: it is sent, and the end after it if it is the terminator. */
  function TokenSent(line: Line, id: Id, eos: Id): Line {
    var said := line.Send(Said(id));
    if id == eos then said.Send(Done(EndOfSequence)) else said
  }

  ghost function TokenTale(line: Line, tale: Tale, id: Id, eos: Id): Tale {
    Tale(tale.tokens + [id], if id == eos then Ended(EndOfSequence) else if line.Listening() then Live else Gone)
  }

  lemma TokenLine(net: Net, eos: Id, ticket: nat, line: Line, tale: Tale, id: Id)
    requires net.Valid() && LineOk(net, eos, ticket, line, tale) && tale.status == Live
    requires |tale.tokens| < line.seating.budget && line.seating.ids != []
        && id == net.Next(line.seating.ids + tale.tokens)
    ensures LineOk(net, eos, ticket, TokenSent(line, id, eos), TokenTale(line, tale, id, eos))
  {
    assert LineKey(0);
    var whole, said := Whole(ticket, tale), line.Send(Said(id));
    var more := whole + [Said(id)];
    GoingMore(net, line.seating, eos, tale.tokens, id);
    SendHeard(line, whole, Said(id));
    ToldOne(ticket, tale, id);
    if id == eos {
      SendHeard(said, more, Done(EndOfSequence));
      assert Whole(ticket, TokenTale(line, tale, id, eos)) == more + [Done(EndOfSequence)];
    } else {
      assert Whole(ticket, TokenTale(line, tale, id, eos)) == more;
    }
  }

  lemma ToldOne(ticket: nat, tale: Tale, id: Id)
    requires tale.status == Live
    ensures Whole(ticket, tale) + [Said(id)] == [Seated(ticket)] + Told(tale.tokens + [id])
  {
    assert Told(tale.tokens + [id]) == Told(tale.tokens) + [Said(id)];
  }

  lemma BudgetLine(net: Net, eos: Id, ticket: nat, line: Line, tale: Tale)
    requires net.Valid() && LineOk(net, eos, ticket, line, tale) && tale.status == Live
    requires |tale.tokens| == line.seating.budget
    ensures LineOk(net, eos, ticket, line.Send(Done(Budget)), Tale(tale.tokens, Ended(Budget)))
  {
    assert LineKey(0);
    BudgetSpent(net, line.seating, eos, tale.tokens);
    SendHeard(line, Whole(ticket, tale), Done(Budget));
    assert Whole(ticket, Tale(tale.tokens, Ended(Budget))) == Whole(ticket, tale) + [Done(Budget)];
  }

  lemma SeatLine(net: Net, eos: Id, ticket: nat, seating: Seating)
    requires net.Valid() && seating.ids != [] && seating.budget > 0
    ensures var line := Line(seating, []);
      LineOk(net, eos, ticket, line.Send(Seated(ticket)), Tale([], if line.Listening() then Live else Gone))
  {
    assert LineKey(0);
    SendHeard(Line(seating, []), [], Seated(ticket));
    assert Told([]) == [] && Whole(ticket, Tale([], Live)) == [] + [Seated(ticket)] == Whole(ticket, Tale([], Gone));
  }

  /** Between iterations of the loop: whoever is being waited for is whoever the engine holds, and every
    * line is a faithful telling of its own request as far as it has got. */
  ghost predicate Telling(net: Net, eos: Id, book: map<nat, Entry>, tickets: nat,
                          live: map<nat, nat>, lines: seq<Line>, tales: seq<Tale>)
    requires net.Valid()
  {
    && |lines| == |tales| == tickets && live.Keys == book.Keys
    && (forall t :: t in book ==> Owed(book[t], live, lines, tales, t))
    && AllLines(net, eos, live, lines, tales)
  }

  /** Every line is a faithful telling, and the live ones are those still waited on. */
  ghost predicate AllLines(net: Net, eos: Id, live: map<nat, nat>, lines: seq<Line>, tales: seq<Tale>)
    requires net.Valid() && |lines| == |tales|
  {
    forall t :: 0 <= t < |lines| ==> LineOk(net, eos, t, lines[t], tales[t]) && (t in live <==> tales[t].status == Live)
  }

  lemma OneLine(net: Net, eos: Id, live: map<nat, nat>, lines: seq<Line>, tales: seq<Tale>, t: nat, line: Line,
                tale: Tale, still: map<nat, nat>)
    requires net.Valid() && |lines| == |tales| && AllLines(net, eos, live, lines, tales) && t < |lines|
    requires LineOk(net, eos, t, line, tale) && (t in still <==> tale.status == Live)
    requires forall o :: o != t ==> (o in still <==> o in live)
    ensures AllLines(net, eos, still, lines[t := line], tales[t := tale])
  {
  }

  ghost predicate Owed(entry: Entry, live: map<nat, nat>, lines: seq<Line>, tales: seq<Tale>, t: nat)
  {
    && t < |lines| && t < |tales| && t in live && live[t] == t
    && entry == Entry(lines[t].seating.ids, lines[t].seating.budget, tales[t].tokens)
    && |entry.produced| < entry.count
  }

  /** What `answer` puts on the channel: a request wanting no token it answers itself. */
  ghost predicate Sendable(wanted: Wanted) {
    wanted.Seat? ==> wanted.seating.ids != [] && wanted.seating.budget > 0
  }

  lemma FreedLine(net: Net, eos: Id, ticket: nat, line: Line, tale: Tale)
    requires net.Valid() && LineOk(net, eos, ticket, line, tale) && tale.status == Live
    ensures LineOk(net, eos, ticket, line, tale.(status := Freed))
  {
    assert LineKey(0);
  }

  /** A request seated: one more line, opened by its own ticket. */
  lemma TellingSeat(net: Net, eos: Id, book: map<nat, Entry>, live: map<nat, nat>, lines: seq<Line>, tales: seq<Tale>,
                    line: Line)
    requires net.Valid() && line.seating.ids != [] && line.seating.budget > 0 && line.log == [] && line.Listening()
    requires Telling(net, eos, book, |lines|, live, lines, tales)
    ensures |lines| !in book
    ensures Telling(net, eos, book[|lines| := Entry(line.seating.ids, line.seating.budget, [])], |lines| + 1,
                    live[|lines| := |lines|],
                    lines + [line.Send(Seated(|lines|))], tales + [Tale([], Live)])
  {
    var t := |lines|;
    var after, told := lines + [line.Send(Seated(t))], tales + [Tale([], Live)];
    SeatLine(net, eos, t, line.seating);
    forall o | o in book
      ensures o < t && Owed(book[o], live[t := t], after, told, o)
    {
      assert Owed(book[o], live, lines, tales, o);
    }
    assert Owed(Entry(line.seating.ids, line.seating.budget, []), live[t := t], after, told, t);
  }

  /** One gone before it was ever seated: its line is over before it began. */
  lemma TellingGone(net: Net, eos: Id, book: map<nat, Entry>, live: map<nat, nat>, lines: seq<Line>, tales: seq<Tale>,
                    line: Line)
    requires net.Valid() && line.seating.ids != [] && line.seating.budget > 0 && line.log == [] && !line.Listening()
    requires Telling(net, eos, book, |lines|, live, lines, tales)
    ensures |lines| !in book
    ensures Telling(net, eos, book, |lines| + 1, live, lines + [line.Send(Seated(|lines|))], tales + [Tale([], Gone)])
  {
    var t := |lines|;
    SeatLine(net, eos, t, line.seating);
    forall o | o in book
      ensures o < t && Owed(book[o], live, lines + [line.Send(Seated(t))], tales + [Tale([], Gone)], o)
    {
      assert Owed(book[o], live, lines, tales, o);
    }
  }

  /** A ticket given back: its own line stops, and no other's does. */
  lemma TellingRelease(net: Net, eos: Id, book: map<nat, Entry>, tickets: nat, live: map<nat, nat>, lines: seq<Line>,
                       tales: seq<Tale>, ticket: nat)
    requires net.Valid() && Telling(net, eos, book, tickets, live, lines, tales)
    ensures Telling(net, eos, book - {ticket}, tickets, live - {ticket}, lines, Released(tales, ticket))
  {
    if ticket < |lines| && tales[ticket].status == Live {
      FreedLine(net, eos, ticket, lines[ticket], tales[ticket]);
    }
    forall o | o in book && o != ticket
      ensures Owed(book[o], live - {ticket}, lines, Released(tales, ticket), o)
    {
      assert Owed(book[o], live, lines, tales, o);
    }
  }

  ghost function Released(tales: seq<Tale>, ticket: nat): (told: seq<Tale>)
    ensures |told| == |tales|
    ensures forall t :: 0 <= t < |tales| && t != ticket ==> told[t] == tales[t]
  {
    if ticket < |tales| && tales[ticket].status == Live then tales[ticket := tales[ticket].(status := Freed)] else tales
  }

  /** One message acted on: a seat opens a line under a new ticket, and a release takes that ticket off the
    * live ones. */
  method Take(engine: Continuous, live: map<nat, nat>, lines: seq<Line>, wanted: Wanted, ghost eos: Id,
              ghost tales: seq<Tale>)
    returns (still: map<nat, nat>, after: seq<Line>, ghost told: seq<Tale>)
    requires engine.Valid() && Telling(engine.net, eos, engine.book, engine.tickets, live, lines, tales)
        && Sendable(wanted)
    modifies engine.Repr
    ensures engine.Valid() && fresh(engine.Repr - old(engine.Repr))
    ensures Telling(engine.net, eos, engine.book, engine.tickets, still, after, told)
    ensures Takes(wanted, lines, tales, after, told)
    ensures wanted.Release? ==> Work(engine.slots, engine.waiting) <= old(Work(engine.slots, engine.waiting))
  {
    match wanted
    case Seat(seating) =>
      ghost var book := engine.book;
      var ticket := engine.Submit(Request(seating.ids, seating.budget));
      var line := Line(seating, []);
      after := lines + [line.Send(Seated(ticket))];
      told := tales + [Tale([], if line.Listening() then Live else Gone)];
      if line.Listening() {
        TellingSeat(engine.net, eos, book, live, lines, tales, line);
        still := live[ticket := ticket];
      } else {
        TellingGone(engine.net, eos, book, live, lines, tales, line);
        still := live;
        var there := engine.Release(ticket);
        assert engine.book == book;
      }
    case Release(ticket) =>
      TellingRelease(engine.net, eos, engine.book, engine.tickets, live, lines, tales, ticket);
      var there := engine.Release(ticket);
      still, after, told := live - {ticket}, lines, Released(tales, ticket);
  }

  /** What a request has been told once the first `k` tokens of a step have been sent. */
  ghost function SaidBy(entry: Entry, produced: seq<Token>, k: nat, t: nat): seq<Id>
    requires k <= |produced|
  {
    if k == 0 then entry.produced
    else if produced[k - 1].ticket == t then entry.produced + [produced[k - 1].id]
    else SaidBy(entry, produced, k - 1, t)
  }

  lemma {:induction false} SaidNothing(entry: Entry, produced: seq<Token>, k: nat, t: nat)
    requires k <= |produced| && forall i :: 0 <= i < k ==> produced[i].ticket != t
    ensures SaidBy(entry, produced, k, t) == entry.produced
  {
    if k > 0 {
      SaidNothing(entry, produced, k - 1, t);
    }
  }

  lemma {:induction false} SaidOnce(entry: Entry, produced: seq<Token>, k: nat, i: nat)
    requires i < k <= |produced| && forall k, l :: 0 <= k < l < |produced| ==> produced[k].ticket != produced[l].ticket
    ensures SaidBy(entry, produced, k, produced[i].ticket) == entry.produced + [produced[i].id]
  {
    if i < k - 1 {
      SaidOnce(entry, produced, k - 1, i);
    }
  }

  /** A request still being told of a step: what it has been told is what the step has sent it so far,
    * and it is held exactly where the step did not finish it. */
  ghost predicate SendingTo(before: map<nat, Entry>, final: map<nat, Entry>, produced: seq<Token>, k: nat,
                            book: map<nat, Entry>, live: map<nat, nat>, lines: seq<Line>, tales: seq<Tale>, t: nat)
    requires k <= |produced|
  {
    && t in before && t in live && live[t] == t && t < |lines| && t < |tales| && before[t].count > 0
    && before[t].prompt == lines[t].seating.ids && before[t].count == lines[t].seating.budget
    && tales[t].tokens == SaidBy(before[t], produced, k, t)
    && (t in final ==> t in book)
  }

  /** A step's tokens partway sent. */
  ghost predicate Sending(net: Net, eos: Id, before: map<nat, Entry>, final: map<nat, Entry>, produced: seq<Token>,
                          k: nat, book: map<nat, Entry>, live: map<nat, nat>, lines: seq<Line>, tales: seq<Tale>)
    requires net.Valid() && k <= |produced|
  {
    && |lines| == |tales|
    && (forall t :: t in book ==> t in live && t in final && book[t] == final[t])
    && (forall t :: t in live ==> SendingTo(before, final, produced, k, book, live, lines, tales, t))
    && AllLines(net, eos, live, lines, tales)
  }

  lemma NothingSent(net: Net, eos: Id, before: map<nat, Entry>, tickets: nat, stepped: Stepped, final: map<nat, Entry>,
                    live: map<nat, nat>, lines: seq<Line>, tales: seq<Tale>)
    requires net.Valid() && Telling(net, eos, before, tickets, live, lines, tales)
        && StepsTo(net, before, stepped, final)
    ensures Sending(net, eos, before, final, stepped.produced, 0, final, live, lines, tales)
  {
    assert StepKey(0);
    forall t | t in live
      ensures SendingTo(before, final, stepped.produced, 0, final, live, lines, tales, t)
    {
      assert Owed(before[t], live, lines, tales, t);
    }
  }

  /** A token sent down one line leaves what every other has been told as it was. */
  lemma OthersTold(before: map<nat, Entry>, final: map<nat, Entry>, produced: seq<Token>, k: nat, book: map<nat, Entry>,
                   live: map<nat, nat>, lines: seq<Line>, tales: seq<Tale>, t: nat, line: Line, tale: Tale, o: nat)
    requires k < |produced| && SendingTo(before, final, produced, k, book, live, lines, tales, o)
    requires produced[k].ticket == t && t < |lines| == |tales| && line.seating == lines[t].seating
    requires t in before && tale.tokens == SaidBy(before[t], produced, k + 1, t)
    ensures SendingTo(before, final, produced, k + 1, book, live, lines[t := line], tales[t := tale], o)
    ensures o != t ==>
        SendingTo(before, final, produced, k + 1, book - {t}, live - {t}, lines[t := line], tales[t := tale], o)
  {
  }

  /** One line told its token and still going, and every other as it was. */
  lemma SendingMore(net: Net, eos: Id, before: map<nat, Entry>, final: map<nat, Entry>, produced: seq<Token>, k: nat,
                    book: map<nat, Entry>, live: map<nat, nat>, lines: seq<Line>, tales: seq<Tale>, t: nat, line: Line,
                    tale: Tale)
    requires net.Valid() && k < |produced| && Sending(net, eos, before, final, produced, k, book, live, lines, tales)
    requires produced[k].ticket == t && t in live && t in before && t < |lines| && line.seating == lines[t].seating
    requires LineOk(net, eos, t, line, tale) && tale.tokens == SaidBy(before[t], produced, k + 1, t)
    requires tale.status == Live
    ensures Sending(net, eos, before, final, produced, k + 1, book, live, lines[t := line], tales[t := tale])
  {
    OneLine(net, eos, live, lines, tales, t, line, tale, live);
    forall o | o in live
      ensures SendingTo(before, final, produced, k + 1, book, live, lines[t := line], tales[t := tale], o)
    {
      OthersTold(before, final, produced, k, book, live, lines, tales, t, line, tale, o);
    }
  }

  /** One line told its token and over, and every other as it was. */
  lemma SendingLast(net: Net, eos: Id, before: map<nat, Entry>, final: map<nat, Entry>, produced: seq<Token>, k: nat,
                    book: map<nat, Entry>, live: map<nat, nat>, lines: seq<Line>, tales: seq<Tale>, t: nat, line: Line,
                    tale: Tale)
    requires net.Valid() && k < |produced| && Sending(net, eos, before, final, produced, k, book, live, lines, tales)
    requires produced[k].ticket == t && t in live && t in before && t < |lines| && line.seating == lines[t].seating
    requires LineOk(net, eos, t, line, tale) && tale.tokens == SaidBy(before[t], produced, k + 1, t)
    requires tale.status != Live
    ensures Sending(net, eos, before, final, produced, k + 1, book - {t}, live - {t}, lines[t := line],
                    tales[t := tale])
  {
    var still, held, after, told := live - {t}, book - {t}, lines[t := line], tales[t := tale];
    OneLine(net, eos, live, lines, tales, t, line, tale, still);
    forall o | o in still
      ensures SendingTo(before, final, produced, k + 1, held, still, after, told, o)
    {
      OthersTold(before, final, produced, k, book, live, lines, tales, t, line, tale, o);
    }
  }

  /** One token sent to whoever it is for: the next of its own telling. */
  lemma TokenTold(net: Net, eos: Id, before: map<nat, Entry>, stepped: Stepped, final: map<nat, Entry>, k: nat,
                  book: map<nat, Entry>, live: map<nat, nat>, lines: seq<Line>, tales: seq<Tale>, t: nat, id: Id)
    requires net.Valid() && k < |stepped.produced| && StepsTo(net, before, stepped, final)
    requires Sending(net, eos, before, final, stepped.produced, k, book, live, lines, tales)
    requires stepped.produced[k] == Token(t, id) && t in live
    ensures t in before && t < |lines| && live[t] == t
    ensures LineOk(net, eos, t, TokenSent(lines[t], id, eos), TokenTale(lines[t], tales[t], id, eos))
    ensures TokenTale(lines[t], tales[t], id, eos).tokens == SaidBy(before[t], stepped.produced, k + 1, t)
  {
    assert StepKey(0);
    assert SendingTo(before, final, stepped.produced, k, book, live, lines, tales, t);
    assert Answers1(net, before, stepped.produced[k], stepped.done, final);
    SaidNothing(before[t], stepped.produced, k, t);
    TokenLine(net, eos, t, lines[t], tales[t], id);
  }

  /** A token nobody is waiting for goes nowhere. */
  lemma TokenDropped(net: Net, eos: Id, before: map<nat, Entry>, final: map<nat, Entry>, produced: seq<Token>, k: nat,
                     book: map<nat, Entry>, live: map<nat, nat>, lines: seq<Line>, tales: seq<Tale>)
    requires net.Valid() && k < |produced| && Sending(net, eos, before, final, produced, k, book, live, lines, tales)
    requires produced[k].ticket !in live
    ensures Sending(net, eos, before, final, produced, k + 1, book, live, lines, tales)
  {
    forall o | o in live
      ensures SendingTo(before, final, produced, k + 1, book, live, lines, tales, o)
    {
      assert SendingTo(before, final, produced, k, book, live, lines, tales, o);
    }
  }

  /** All of a step's tokens sent, and the endings of the first `d` requests it finished. */
  ghost predicate Closing(net: Net, eos: Id, before: map<nat, Entry>, stepped: Stepped, final: map<nat, Entry>, d: nat,
                          book: map<nat, Entry>, live: map<nat, nat>, lines: seq<Line>, tales: seq<Tale>)
    requires net.Valid()
  {
    && |lines| == |tales| && AllLines(net, eos, live, lines, tales)
    && (forall t :: t in book ==> t in live && t in final && book[t] == final[t])
    && (forall t :: t in live ==>
        SendingTo(before, final, stepped.produced, |stepped.produced|, book, live, lines, tales, t))
    && forall t :: t in live ==> t in book || exists e :: d <= e < |stepped.done| && stepped.done[e].ticket == t
  }

  /** A request the step finished is one of its endings. */
  lemma FinishedIsDone(net: Net, before: map<nat, Entry>, stepped: Stepped, final: map<nat, Entry>, t: nat)
    requires net.Valid() && StepsTo(net, before, stepped, final) && t in before && before[t].count > 0 && t !in final
    ensures exists e :: 0 <= e < |stepped.done| && stepped.done[e].ticket == t
  {
    assert StepKey(0);
    if k :| 0 <= k < |stepped.produced| && stepped.produced[k].ticket == t {
      assert Answers1(net, before, stepped.produced[k], stepped.done, final);
      var a := Answered(t, before[t].produced + [stepped.produced[k].id]);
      assert a in stepped.done && a.ticket == t;
    }
  }

  lemma AllSent(net: Net, eos: Id, before: map<nat, Entry>, stepped: Stepped, final: map<nat, Entry>,
                book: map<nat, Entry>, live: map<nat, nat>, lines: seq<Line>, tales: seq<Tale>)
    requires net.Valid() && StepsTo(net, before, stepped, final)
    requires Sending(net, eos, before, final, stepped.produced, |stepped.produced|, book, live, lines, tales)
    ensures Closing(net, eos, before, stepped, final, 0, book, live, lines, tales)
  {
    forall t | t in live && t !in book
      ensures exists e :: 0 <= e < |stepped.done| && stepped.done[e].ticket == t
    {
      assert SendingTo(before, final, stepped.produced, |stepped.produced|, book, live, lines, tales, t);
      FinishedIsDone(net, before, stepped, final, t);
    }
  }

  /** One the step finished has been told everything it asked for. */
  lemma DoneTold(net: Net, before: map<nat, Entry>, stepped: Stepped, final: map<nat, Entry>, d: nat,
                 book: map<nat, Entry>, live: map<nat, nat>, lines: seq<Line>, tales: seq<Tale>, t: nat)
    requires net.Valid() && StepsTo(net, before, stepped, final) && d < |stepped.done| && stepped.done[d].ticket == t
    requires SendingTo(before, final, stepped.produced, |stepped.produced|, book, live, lines, tales, t)
    ensures t !in final && |tales[t].tokens| == lines[t].seating.budget
  {
    assert StepKey(0);
    assert Finishes(before, stepped.produced, stepped.done[d]);
    var k :| 0 <= k < |stepped.produced| && stepped.produced[k].ticket == t && t in before
             && stepped.done[d].produced == before[t].produced + [stepped.produced[k].id]
               && |stepped.done[d].produced| == before[t].count;
    assert Answers1(net, before, stepped.produced[k], stepped.done, final);
    SaidOnce(before[t], stepped.produced, |stepped.produced|, k);
  }

  /** Nothing done to one line reaches another. */
  lemma OtherLine(before: map<nat, Entry>, final: map<nat, Entry>, produced: seq<Token>, book: map<nat, Entry>,
                  live: map<nat, nat>, lines: seq<Line>, tales: seq<Tale>, t: nat, line: Line, tale: Tale, o: nat)
    requires SendingTo(before, final, produced, |produced|, book, live, lines, tales, o) && o != t && t < |lines|
        && t < |tales|
    ensures SendingTo(before, final, produced, |produced|, book, live - {t}, lines[t := line], tales[t := tale], o)
  {
  }

  lemma ClosedLine(net: Net, eos: Id, before: map<nat, Entry>, stepped: Stepped, final: map<nat, Entry>, d: nat,
                   book: map<nat, Entry>, live: map<nat, nat>, lines: seq<Line>, tales: seq<Tale>, t: nat)
    requires net.Valid() && StepsTo(net, before, stepped, final) && d < |stepped.done| && stepped.done[d].ticket == t
    requires Closing(net, eos, before, stepped, final, d, book, live, lines, tales) && t in live
    ensures t < |lines| && live[t] == t && t !in book
    ensures LineOk(net, eos, t, lines[t].Send(Done(Budget)), Tale(tales[t].tokens, Ended(Budget)))
  {
    assert SendingTo(before, final, stepped.produced, |stepped.produced|, book, live, lines, tales, t);
    DoneTold(net, before, stepped, final, d, book, live, lines, tales, t);
    BudgetLine(net, eos, t, lines[t], tales[t]);
  }

  lemma ClosedOne(net: Net, eos: Id, before: map<nat, Entry>, stepped: Stepped, final: map<nat, Entry>, d: nat,
                  book: map<nat, Entry>, live: map<nat, nat>, lines: seq<Line>, tales: seq<Tale>, t: nat, line: Line,
                  tale: Tale)
    requires net.Valid() && d < |stepped.done| && stepped.done[d].ticket == t
    requires Closing(net, eos, before, stepped, final, d, book, live, lines, tales) && t in live && t < |lines|
        && t !in book
    requires LineOk(net, eos, t, line, tale) && tale.status != Live
    ensures Closing(net, eos, before, stepped, final, d + 1, book, live - {t}, lines[t := line], tales[t := tale])
  {
    OneLine(net, eos, live, lines, tales, t, line, tale, live - {t});
    forall o | o in live && o != t
      ensures SendingTo(before, final, stepped.produced, |stepped.produced|, book, live - {t}, lines[t := line],
                        tales[t := tale], o)
    {
      OtherLine(before, final, stepped.produced, book, live, lines, tales, t, line, tale, o);
    }
  }

  lemma ClosedNone(net: Net, eos: Id, before: map<nat, Entry>, stepped: Stepped, final: map<nat, Entry>, d: nat,
                   book: map<nat, Entry>, live: map<nat, nat>, lines: seq<Line>, tales: seq<Tale>)
    requires net.Valid() && d < |stepped.done| && stepped.done[d].ticket !in live
    requires Closing(net, eos, before, stepped, final, d, book, live, lines, tales)
    ensures Closing(net, eos, before, stepped, final, d + 1, book, live, lines, tales)
  {
    forall o | o in live
      ensures o in book || exists e :: d + 1 <= e < |stepped.done| && stepped.done[e].ticket == o
    {
    }
  }

  lemma StillOwed(net: Net, before: map<nat, Entry>, stepped: Stepped, final: map<nat, Entry>,
                  book: map<nat, Entry>, live: map<nat, nat>, lines: seq<Line>, tales: seq<Tale>, t: nat)
    requires net.Valid() && StepsTo(net, before, stepped, final) && t in final && t in book && book[t] == final[t]
    requires SendingTo(before, final, stepped.produced, |stepped.produced|, book, live, lines, tales, t)
    requires |before[t].produced| < before[t].count
    ensures Owed(book[t], live, lines, tales, t)
  {
    assert StepKey(0);
    if k :| 0 <= k < |stepped.produced| && stepped.produced[k].ticket == t {
      assert Answers1(net, before, stepped.produced[k], stepped.done, final);
      SaidOnce(before[t], stepped.produced, |stepped.produced|, k);
    } else {
      SaidNothing(before[t], stepped.produced, |stepped.produced|, t);
    }
  }

  /** Every ending sent, whoever is still waited for is whoever is still held. */
  lemma AllClosed(net: Net, eos: Id, before: map<nat, Entry>, stepped: Stepped, final: map<nat, Entry>,
                  book: map<nat, Entry>, live: map<nat, nat>, lines: seq<Line>, tales: seq<Tale>)
    requires net.Valid() && StepsTo(net, before, stepped, final)
    requires forall t :: t in before ==> |before[t].produced| < before[t].count
    requires Closing(net, eos, before, stepped, final, |stepped.done|, book, live, lines, tales)
    ensures Telling(net, eos, book, |lines|, live, lines, tales)
  {
    forall t | t in book
      ensures Owed(book[t], live, lines, tales, t)
    {
      StillOwed(net, before, stepped, final, book, live, lines, tales, t);
    }
  }

  /** What a step may do to the lines: one that is over is as it was, one that is not has at most been
    * sent more, and no ticket has been given back. */
  ghost predicate Onward(lines: seq<Line>, tales: seq<Tale>, after: seq<Line>, told: seq<Tale>) {
    && |lines| == |tales| <= |after| == |told|
    && forall t :: 0 <= t < |lines| ==> OnwardAt(lines[t], tales[t], after[t], told[t])
  }

  ghost predicate OnwardAt(line: Line, tale: Tale, after: Line, told: Tale) {
    && after.seating == line.seating && line.log <= after.log && tale.tokens <= told.tokens
    && (tale.status != Live ==> after == line && told == tale)
    && (told.status == Freed ==> tale.status == Freed)
  }

  lemma OnwardOne(lines: seq<Line>, tales: seq<Tale>, after: seq<Line>, told: seq<Tale>, t: nat, line: Line, tale: Tale)
    requires Onward(lines, tales, after, told) && |after| == |lines| && t < |after| && told[t].status == Live
    requires OnwardAt(after[t], told[t], line, tale)
    ensures Onward(lines, tales, after[t := line], told[t := tale])
  {
  }

  lemma Stays(lines: seq<Line>, tales: seq<Tale>)
    requires |lines| == |tales|
    ensures Onward(lines, tales, lines, tales)
  {
  }

  /** A step's tokens and endings written to the lines of the tickets still live, and nothing written to any
    * other. */
  method Dispatched(engine: Continuous, live: map<nat, nat>, lines: seq<Line>, stepped: Stepped, eos: Id,
                    ghost before: map<nat, Entry>, ghost tales: seq<Tale>)
    returns (still: map<nat, nat>, after: seq<Line>, ghost told: seq<Tale>)
    requires engine.Valid() && StepsTo(engine.net, before, stepped, engine.book)
    requires Telling(engine.net, eos, before, engine.tickets, live, lines, tales)
    modifies engine.Repr
    ensures engine.Valid() && fresh(engine.Repr - old(engine.Repr))
    ensures Telling(engine.net, eos, engine.book, engine.tickets, still, after, told)
    ensures Onward(lines, tales, after, told) && |after| == |lines|
    ensures Work(engine.slots, engine.waiting) <= old(Work(engine.slots, engine.waiting))
  {
    ghost var final, net := engine.book, engine.net;
    still, after, told := live, lines, tales;
    NothingSent(net, eos, before, engine.tickets, stepped, final, live, lines, tales);
    Stays(lines, tales);
    AllOwed(net, eos, before, engine.tickets, live, lines, tales);
    for k := 0 to |stepped.produced|
      invariant engine.Valid() && fresh(engine.Repr - old(engine.Repr)) && engine.tickets == old(engine.tickets)
      invariant Sending(net, eos, before, final, stepped.produced, k, engine.book, still, after, told)
      invariant Onward(lines, tales, after, told) && |after| == |lines|
      invariant Work(engine.slots, engine.waiting) <= old(Work(engine.slots, engine.waiting))
    {
      still, after, told := SendToken(engine, still, after, stepped, k, eos, before, final, told, lines, tales);
    }
    AllSent(net, eos, before, stepped, final, engine.book, still, after, told);
    still, after, told := CloseAll(net, stepped, eos, still, after, engine.book, before, final, told, lines, tales);
    AllClosed(net, eos, before, stepped, final, engine.book, still, after, told);
  }

  /** The endings of whatever the step finished, to those still waiting for one. */
  method CloseAll(ghost net: Net, stepped: Stepped, ghost eos: Id, live: map<nat, nat>, lines: seq<Line>,
                  ghost book: map<nat, Entry>, ghost before: map<nat, Entry>, ghost final: map<nat, Entry>,
                  ghost tales: seq<Tale>, ghost first: seq<Line>, ghost begun: seq<Tale>)
    returns (still: map<nat, nat>, after: seq<Line>, ghost told: seq<Tale>)
    requires net.Valid() && StepsTo(net, before, stepped, final)
    requires Closing(net, eos, before, stepped, final, 0, book, live, lines, tales)
    requires Onward(first, begun, lines, tales) && |lines| == |first|
    ensures Closing(net, eos, before, stepped, final, |stepped.done|, book, still, after, told)
    ensures Onward(first, begun, after, told) && |after| == |first|
  {
    still, after, told := live, lines, tales;
    for d := 0 to |stepped.done|
      invariant Closing(net, eos, before, stepped, final, d, book, still, after, told)
      invariant Onward(first, begun, after, told) && |after| == |first|
    {
      still, after, told := CloseNext(net, stepped, d, eos, still, after, book, before, final, told, first, begun);
    }
  }

  method CloseNext(ghost net: Net, stepped: Stepped, d: nat, ghost eos: Id, live: map<nat, nat>, lines: seq<Line>,
                   ghost book: map<nat, Entry>, ghost before: map<nat, Entry>, ghost final: map<nat, Entry>,
                   ghost tales: seq<Tale>, ghost first: seq<Line>, ghost begun: seq<Tale>)
    returns (still: map<nat, nat>, after: seq<Line>, ghost told: seq<Tale>)
    requires net.Valid() && StepsTo(net, before, stepped, final) && d < |stepped.done|
    requires Closing(net, eos, before, stepped, final, d, book, live, lines, tales)
    requires Onward(first, begun, lines, tales) && |lines| == |first|
    ensures Closing(net, eos, before, stepped, final, d + 1, book, still, after, told)
    ensures Onward(first, begun, after, told) && |after| == |first|
  {
    still, after, told := live, lines, tales;
    var t := stepped.done[d].ticket;
    if t in live {
      ClosedLine(net, eos, before, stepped, final, d, book, live, lines, tales, t);
      var line := lines[live[t]].Send(Done(Budget));
      ghost var tale := Tale(tales[t].tokens, Ended(Budget));
      ClosedOne(net, eos, before, stepped, final, d, book, live, lines, tales, t, line, tale);
      OnwardOne(first, begun, lines, tales, t, line, tale);
      after, told, still := lines[t := line], tales[t := tale], live - {t};
    } else {
      ClosedNone(net, eos, before, stepped, final, d, book, live, lines, tales);
    }
  }

  lemma AllOwed(net: Net, eos: Id, before: map<nat, Entry>, tickets: nat, live: map<nat, nat>, lines: seq<Line>,
                tales: seq<Tale>)
    requires net.Valid() && Telling(net, eos, before, tickets, live, lines, tales)
    ensures forall t :: t in before ==> |before[t].produced| < before[t].count
  {
    forall t | t in before
      ensures |before[t].produced| < before[t].count
    {
      assert Owed(before[t], live, lines, tales, t);
    }
  }

  /** One of a step's tokens, sent. */
  method SendToken(engine: Continuous, live: map<nat, nat>, lines: seq<Line>, stepped: Stepped, k: nat, eos: Id,
                   ghost before: map<nat, Entry>, ghost final: map<nat, Entry>, ghost tales: seq<Tale>,
                   ghost first: seq<Line>, ghost begun: seq<Tale>)
    returns (still: map<nat, nat>, after: seq<Line>, ghost told: seq<Tale>)
    requires engine.Valid() && k < |stepped.produced| && StepsTo(engine.net, before, stepped, final)
    requires Sending(engine.net, eos, before, final, stepped.produced, k, engine.book, live, lines, tales)
    requires Onward(first, begun, lines, tales) && |lines| == |first|
    modifies engine.Repr
    ensures engine.Valid() && fresh(engine.Repr - old(engine.Repr)) && engine.tickets == old(engine.tickets)
    ensures Sending(engine.net, eos, before, final, stepped.produced, k + 1, engine.book, still, after, told)
    ensures Onward(first, begun, after, told) && |after| == |first|
    ensures Work(engine.slots, engine.waiting) <= old(Work(engine.slots, engine.waiting))
  {
    still, after, told := live, lines, tales;
    var t, id := stepped.produced[k].ticket, stepped.produced[k].id;
    if t !in live {
      TokenDropped(engine.net, eos, before, final, stepped.produced, k, engine.book, live, lines, tales);
      return;
    }
    TokenTold(engine.net, eos, before, stepped, final, k, engine.book, live, lines, tales, t, id);
    var reply := lines[live[t]];
    var gone, ended := !reply.Listening(), id == eos;
    var line := reply.Send(Said(id));
    if ended {
      line := line.Send(Done(EndOfSequence));
    }
    ghost var tale := TokenTale(lines[t], tales[t], id, eos);
    OnwardOne(first, begun, lines, tales, t, line, tale);
    if ended || gone {
      SendingLast(engine.net, eos, before, final, stepped.produced, k, engine.book, live, lines, tales, t, line, tale);
      var there := engine.Release(t);
      still := live - {t};
    } else {
      SendingMore(engine.net, eos, before, final, stepped.produced, k, engine.book, live, lines, tales, t, line, tale);
    }
    after, told := lines[t := line], tales[t := tale];
  }

  /** Every line there will be, in the order its request is taken. */
  ghost function Seats(arrivals: seq<Wanted>): seq<Seating> {
    if arrivals == [] then []
    else (if arrivals[0].Seat? then [arrivals[0].seating] else []) + Seats(arrivals[1..])
  }

  /** One look at the channel: the message it finds, which may depend on whatever has been sent so far. */
  type Look = seq<Line> -> Option<Wanted>

  ghost predicate Proper(look: Look) {
    forall lines :: look(lines).Some? ==> Sendable(look(lines).value)
  }

  /** A look that has been taken, and the lines as they were then. */
  datatype Moment = Moment(look: Look, lines: seq<Line>) {
    function Message(): Option<Wanted> { look(lines) }
  }

  /** The messages found so far, in order. */
  ghost function Found(past: seq<Moment>): seq<Wanted> {
    if past == [] then []
    else
      var last := past[|past| - 1].Message();
      Found(past[..|past| - 1]) + if last.Some? then [last.value] else []
  }

  lemma FoundPush(past: seq<Moment>, moment: Moment)
    ensures Found(past + [moment]) == Found(past) + if moment.Message().Some? then [moment.Message().value] else []
  {
    assert (past + [moment])[..|past|] == past;
  }

  /** Of all the looks there will be, those of `past` have been taken and `coming` are left. */
  ghost predicate Spent(all: seq<Look>, past: seq<Moment>, coming: seq<Look>) {
    && |past| <= |all| && coming == all[|past|..]
    && forall i :: 0 <= i < |past| ==> past[i].look == all[i]
  }

  lemma SpentOne(all: seq<Look>, past: seq<Moment>, coming: seq<Look>, lines: seq<Line>)
    requires Spent(all, past, coming) && coming != []
    ensures Spent(all, past + [Moment(coming[0], lines)], coming[1..])
  {
  }

  /** What the channel still has to deliver: a look for each time the loop will make one, and nothing once every
    * connection thread has gone. */
  class Channel {
    var coming: seq<Look>

    constructor (coming: seq<Look>)
      ensures this.coming == coming
    {
      this.coming := coming;
    }

    ghost predicate Sendables()
      reads this
    {
      forall i :: 0 <= i < |coming| ==> Proper(coming[i])
    }

    /** The next message if it has arrived, without waiting. */
    method TryReceive(lines: seq<Line>) returns (wanted: Option<Wanted>)
      requires Sendables()
      modifies this
      ensures Sendables() && (wanted.Some? ==> Sendable(wanted.value))
      ensures if old(coming) == [] then coming == [] && wanted.None?
        else coming == old(coming)[1..] && wanted == old(coming)[0](lines)
    {
      if coming == [] {
        return None;
      }
      assert Proper(coming[0]);
      wanted, coming := coming[0](lines), coming[1..];
    }

    /** The next message, however long it is in coming: none only once there will never be one. */
    method Receive(lines: seq<Line>, ghost all: seq<Look>, ghost past: seq<Moment>)
      returns (wanted: Option<Wanted>, ghost waited: seq<Moment>)
      requires Sendables() && Spent(all, past, coming)
      modifies this
      ensures Sendables() && (wanted.Some? ==> Sendable(wanted.value))
      ensures Waited(past, waited, lines)
      ensures wanted.None? ==> coming == [] && Spent(all, waited, coming)
      ensures wanted.Some? ==>
        && |waited| < |all| && all[|waited|](lines) == wanted && |coming| < |old(coming)|
        && Spent(all, waited + [Moment(all[|waited|], lines)], coming)
    {
      waited := past;
      while coming != []
        invariant Sendables() && Spent(all, waited, coming) && Waited(past, waited, lines)
        invariant |coming| <= |old(coming)|
        decreases |coming|
      {
        ghost var was := coming;
        SpentOne(all, waited, coming, lines);
        wanted := TryReceive(lines);
        if wanted.Some? {
          return;
        }
        waited := waited + [Moment(was[0], lines)];
      }
      wanted := None;
    }
  }

  /** Looks that found nothing, one after another. */
  ghost predicate Waited(past: seq<Moment>, waited: seq<Moment>, lines: seq<Line>) {
    && past <= waited
    && forall i :: |past| <= i < |waited| ==> waited[i].Message().None? && waited[i].lines == lines
  }

  lemma {:induction false} SeatsPush(taken: seq<Wanted>, wanted: Wanted)
    ensures Seats(taken + [wanted]) == Seats(taken) + if wanted.Seat? then [wanted.seating] else []
  {
    if taken == [] {
      assert ([wanted])[1..] == [];
    } else {
      SeatsPush(taken[1..], wanted);
      assert (taken + [wanted])[1..] == taken[1..] + [wanted];
    }
  }

  /** Lines that have at most been sent more, and others opened after them. */
  ghost predicate Grows(lines: seq<Line>, after: seq<Line>) {
    |lines| <= |after| && forall t :: 0 <= t < |lines| ==> GrowsAt(lines[t], after[t])
  }

  ghost predicate GrowsAt(line: Line, after: Line) {
    after.seating == line.seating && line.log <= after.log
  }

  lemma GrowsOn(a: seq<Line>, b: seq<Line>, c: seq<Line>)
    requires Grows(a, b) && Grows(b, c)
    ensures Grows(a, c)
  {
    forall t | 0 <= t < |a|
      ensures GrowsAt(a[t], c[t])
    {
      assert GrowsAt(a[t], b[t]) && GrowsAt(b[t], c[t]);
    }
  }

  /** The looks were taken over lines that only ever grew, each seat found opening one more. */
  ghost predicate Unfolds(past: seq<Moment>, lines: seq<Line>) {
    && (forall i :: 0 <= i < |past| ==> Grows(past[i].lines, lines))
    && (forall i, j :: 0 <= i < j < |past| ==> Grows(past[i].lines, past[j].lines))
    && forall i :: 0 <= i < |past| ==> |past[i].lines| == |Seats(Found(past[..i]))|
  }

  /** `ticket` was given back by a message found when its line was already all that it is now. */
  ghost predicate FreedBy(past: seq<Moment>, lines: seq<Line>, ticket: nat) {
    exists i :: 0 <= i < |past| && FreedAt(past[i], lines, ticket)
  }

  ghost predicate FreedAt(moment: Moment, lines: seq<Line>, ticket: nat) {
    && moment.Message() == Some(Release(ticket))
    && ticket < |moment.lines| && ticket < |lines| && moment.lines[ticket] == lines[ticket]
  }

  /** A line for every seat found, in order. */
  ghost predicate Opened(found: seq<Wanted>, lines: seq<Line>) {
    |Seats(found)| == |lines| && forall t :: 0 <= t < |lines| ==> lines[t].seating == Seats(found)[t]
  }

  /** What the loop has done with everything it has found: a line for every request, in order, each a
    * faithful telling, and none given back but by a message found while it stood as it does. */
  ghost predicate Served(net: Net, eos: Id, past: seq<Moment>, book: map<nat, Entry>, tickets: nat,
                         live: map<nat, nat>, lines: seq<Line>, tales: seq<Tale>)
    requires net.Valid()
  {
    forall key {:trigger ServedKey(key)} :: ServedKey(key) ==>
      ServedAll(net, eos, past, book, tickets, live, lines, tales)
  }

  /** A key to `Served`, as `Sconv.WindowKey` is to a window. */
  ghost predicate ServedKey(key: nat) { true }

  ghost predicate ServedAll(net: Net, eos: Id, past: seq<Moment>, book: map<nat, Entry>, tickets: nat,
                            live: map<nat, nat>, lines: seq<Line>, tales: seq<Tale>)
    requires net.Valid()
  {
    && Telling(net, eos, book, tickets, live, lines, tales)
    && Opened(Found(past), lines) && Unfolds(past, lines)
    && forall t :: 0 <= t < |tales| && tales[t].status == Freed ==> FreedBy(past, lines, t)
  }

  lemma ServedTells(net: Net, eos: Id, past: seq<Moment>, book: map<nat, Entry>, tickets: nat,
                    live: map<nat, nat>, lines: seq<Line>, tales: seq<Tale>)
    requires net.Valid() && Served(net, eos, past, book, tickets, live, lines, tales)
    ensures Telling(net, eos, book, tickets, live, lines, tales)
  {
    assert ServedKey(0);
  }

  /** A look taken now is taken over lines that have grown as far as these. */
  lemma UnfoldsMore(past: seq<Moment>, moment: Moment, lines: seq<Line>, longer: seq<Line>)
    requires Unfolds(past, lines) && moment.lines == lines && Grows(lines, longer) && Opened(Found(past), lines)
    ensures Unfolds(past + [moment], longer)
  {
    var more := past + [moment];
    forall i | 0 <= i < |more|
      ensures Grows(more[i].lines, longer) && |more[i].lines| == |Seats(Found(more[..i]))|
    {
      if i < |past| {
        GrowsOn(past[i].lines, lines, longer);
        assert more[..i] == past[..i];
      } else {
        assert more[..i] == past;
      }
    }
    forall i, j | 0 <= i < j < |more|
      ensures Grows(more[i].lines, more[j].lines)
    {
      assert Grows(past[i].lines, lines);
    }
  }

  /** A ticket already given back stays given back by the message it was. */
  lemma StaysFreed(past: seq<Moment>, more: seq<Moment>, lines: seq<Line>, longer: seq<Line>, ticket: nat)
    requires FreedBy(past, lines, ticket) && past <= more
    requires ticket < |lines| && ticket < |longer| && longer[ticket] == lines[ticket]
    ensures FreedBy(more, longer, ticket)
  {
    var i :| 0 <= i < |past| && FreedAt(past[i], lines, ticket);
    assert more[i] == past[i] && FreedAt(more[i], longer, ticket);
  }

  /** A look that found nothing. */
  lemma ServedNothing(net: Net, eos: Id, past: seq<Moment>, book: map<nat, Entry>, tickets: nat, live: map<nat, nat>,
                      lines: seq<Line>, tales: seq<Tale>, moment: Moment)
    requires net.Valid() && Served(net, eos, past, book, tickets, live, lines, tales)
    requires moment.lines == lines && moment.Message().None?
    ensures Served(net, eos, past + [moment], book, tickets, live, lines, tales)
  {
    assert ServedKey(0);
    assert Grows(lines, lines);
    FoundPush(past, moment);
    assert Found(past) + [] == Found(past);
    UnfoldsMore(past, moment, lines, lines);
    forall t | 0 <= t < |tales| && tales[t].status == Freed
      ensures FreedBy(past + [moment], lines, t)
    {
      StaysFreed(past, past + [moment], lines, lines, t);
    }
  }

  lemma {:induction false} ServedWaiting(net: Net, eos: Id, past: seq<Moment>, book: map<nat, Entry>, tickets: nat,
                                         live: map<nat, nat>, lines: seq<Line>, tales: seq<Tale>, waited: seq<Moment>)
    requires net.Valid() && Served(net, eos, past, book, tickets, live, lines, tales) && Waited(past, waited, lines)
    ensures Served(net, eos, waited, book, tickets, live, lines, tales)
    decreases |waited|
  {
    if |waited| == |past| {
      assert waited == past;
    } else {
      var before := waited[..|waited| - 1];
      ServedWaiting(net, eos, past, book, tickets, live, lines, tales, before);
      assert waited == before + [waited[|waited| - 1]];
      ServedNothing(net, eos, before, book, tickets, live, lines, tales, waited[|waited| - 1]);
    }
  }

  /** What taking one message does to the lines: a seat opens one more, and a release stops its own. */
  ghost predicate Takes(wanted: Wanted, lines: seq<Line>, tales: seq<Tale>, longer: seq<Line>, told: seq<Tale>) {
    match wanted
    case Release(ticket) => longer == lines && told == Released(tales, ticket)
    case Seat(seating) =>
      && |tales| == |lines| && |longer| == |told| == |lines| + 1 && longer[..|lines|] == lines
        && told[..|lines|] == tales
      && longer[|lines|].seating == seating && told[|lines|].status != Freed
  }

  /** A look that found a message, once that has been taken. */
  lemma ServedMore(net: Net, eos: Id, past: seq<Moment>, book: map<nat, Entry>, tickets: nat, live: map<nat, nat>,
                   lines: seq<Line>, tales: seq<Tale>, moment: Moment, after: map<nat, Entry>, issued: nat,
                   still: map<nat, nat>, longer: seq<Line>, told: seq<Tale>)
    requires net.Valid() && Served(net, eos, past, book, tickets, live, lines, tales)
    requires Telling(net, eos, after, issued, still, longer, told)
    requires moment.lines == lines && moment.Message().Some?
        && Takes(moment.Message().value, lines, tales, longer, told)
    ensures Served(net, eos, past + [moment], after, issued, still, longer, told)
  {
    assert ServedKey(0);
    FoundPush(past, moment);
    ServedSeatings(Found(past), lines, tales, moment.Message().value, longer, told);
    UnfoldsMore(past, moment, lines, longer);
    ServedFreed(past, lines, tales, moment, longer, told);
  }

  lemma ServedFreed(past: seq<Moment>, lines: seq<Line>, tales: seq<Tale>, moment: Moment, longer: seq<Line>,
                    told: seq<Tale>)
    requires |lines| == |tales| && forall t :: 0 <= t < |tales| && tales[t].status == Freed ==> FreedBy(past, lines, t)
    requires moment.lines == lines && moment.Message().Some?
        && Takes(moment.Message().value, lines, tales, longer, told)
    ensures forall t :: 0 <= t < |told| && told[t].status == Freed ==> FreedBy(past + [moment], longer, t)
  {
    var wanted, more := moment.Message().value, past + [moment];
    forall t | 0 <= t < |told| && told[t].status == Freed
      ensures FreedBy(more, longer, t)
    {
      if wanted.Seat? {
        assert t < |lines| && told[..|lines|][t] == told[t] && longer[..|lines|][t] == longer[t];
        StaysFreed(past, more, lines, longer, t);
      } else if tales[t].status == Freed {
        StaysFreed(past, more, lines, longer, t);
      } else {
        assert more[|past|] == moment && FreedAt(more[|past|], longer, t);
      }
    }
  }

  lemma ServedSeatings(found: seq<Wanted>, lines: seq<Line>, tales: seq<Tale>, wanted: Wanted, longer: seq<Line>,
                       told: seq<Tale>)
    requires Opened(found, lines) && Takes(wanted, lines, tales, longer, told)
    ensures Opened(found + [wanted], longer) && Grows(lines, longer)
  {
    SeatsPush(found, wanted);
    forall t | 0 <= t < |longer|
      ensures longer[t].seating == Seats(found + [wanted])[t] && (t < |lines| ==> longer[t] == lines[t])
    {
      if t < |lines| {
        assert longer[..|lines|][t] == lines[t];
      }
    }
  }

  lemma ServedOn(net: Net, eos: Id, past: seq<Moment>, book: map<nat, Entry>, tickets: nat, live: map<nat, nat>,
                 lines: seq<Line>, tales: seq<Tale>, after: map<nat, Entry>, still: map<nat, nat>, longer: seq<Line>,
                 told: seq<Tale>)
    requires net.Valid() && Served(net, eos, past, book, tickets, live, lines, tales)
    requires Telling(net, eos, after, tickets, still, longer, told) && Onward(lines, tales, longer, told)
        && |longer| == |lines|
    ensures Served(net, eos, past, after, tickets, still, longer, told)
  {
    assert ServedKey(0);
    forall t | 0 <= t < |lines|
      ensures GrowsAt(lines[t], longer[t])
      ensures told[t].status == Freed ==> FreedBy(past, longer, t)
    {
      assert OnwardAt(lines[t], tales[t], longer[t], told[t]);
      if told[t].status == Freed {
        StaysFreed(past, past, lines, longer, t);
      }
    }
    forall i | 0 <= i < |past|
      ensures Grows(past[i].lines, longer)
    {
      GrowsOn(past[i].lines, lines, longer);
    }
  }

  /** Everything that has arrived by the time each look is made, taken in order until one finds nothing. */
  method TakeAll(engine: Continuous, asked: Channel, live: map<nat, nat>, lines: seq<Line>, ghost eos: Id,
                 ghost tales: seq<Tale>, ghost all: seq<Look>, ghost past: seq<Moment>)
    returns (still: map<nat, nat>, after: seq<Line>, ghost told: seq<Tale>, ghost now: seq<Moment>)
    requires engine.Valid() && asked !in engine.Repr && asked.Sendables() && Spent(all, past, asked.coming)
    requires Served(engine.net, eos, past, engine.book, engine.tickets, live, lines, tales)
    modifies engine.Repr, asked
    ensures engine.Valid() && fresh(engine.Repr - old(engine.Repr)) && asked.Sendables()
    ensures Spent(all, now, asked.coming)
    ensures Served(engine.net, eos, now, engine.book, engine.tickets, still, after, told)
    ensures |asked.coming| < |old(asked.coming)| || (asked.coming == old(asked.coming)
              && engine.book == old(engine.book)
              && Work(engine.slots, engine.waiting) <= old(Work(engine.slots, engine.waiting)))
  {
    still, after, told, now := live, lines, tales, past;
    var found := true;
    while found && asked.coming != []
      invariant engine.Valid() && fresh(engine.Repr - old(engine.Repr)) && asked !in engine.Repr && asked.Sendables()
      invariant Spent(all, now, asked.coming)
      invariant Served(engine.net, eos, now, engine.book, engine.tickets, still, after, told)
      invariant |asked.coming| < |old(asked.coming)| || (asked.coming == old(asked.coming)
                  && engine.book == old(engine.book) && engine.slots == old(engine.slots)
                  && engine.waiting == old(engine.waiting))
      decreases |asked.coming|
    {
      found, still, after, told, now := TakeOne(engine, asked, still, after, eos, told, all, now);
    }
  }

  /** One look, and what it found taken. */
  method TakeOne(engine: Continuous, asked: Channel, live: map<nat, nat>, lines: seq<Line>, ghost eos: Id,
                 ghost tales: seq<Tale>, ghost all: seq<Look>, ghost past: seq<Moment>)
    returns (found: bool, still: map<nat, nat>, after: seq<Line>, ghost told: seq<Tale>, ghost now: seq<Moment>)
    requires engine.Valid() && asked !in engine.Repr && asked.Sendables() && Spent(all, past, asked.coming)
    requires Served(engine.net, eos, past, engine.book, engine.tickets, live, lines, tales) && asked.coming != []
    modifies engine.Repr, asked
    ensures engine.Valid() && fresh(engine.Repr - old(engine.Repr)) && asked.Sendables()
    ensures Spent(all, now, asked.coming) && |asked.coming| < |old(asked.coming)|
    ensures Served(engine.net, eos, now, engine.book, engine.tickets, still, after, told)
  {
    ghost var moment := Moment(asked.coming[0], lines);
    SpentOne(all, past, asked.coming, lines);
    still, after, told, now := live, lines, tales, past + [moment];
    var wanted := asked.TryReceive(lines);
    found := wanted.Some?;
    if found {
      still, after, told := TakeNext(engine, live, lines, wanted.value, eos, tales, past, moment);
    } else {
      ServedNothing(engine.net, eos, past, engine.book, engine.tickets, live, lines, tales, moment);
    }
  }

  method TakeNext(engine: Continuous, live: map<nat, nat>, lines: seq<Line>, wanted: Wanted, ghost eos: Id,
                  ghost tales: seq<Tale>, ghost past: seq<Moment>, ghost moment: Moment)
    returns (still: map<nat, nat>, after: seq<Line>, ghost told: seq<Tale>)
    requires engine.Valid() && Served(engine.net, eos, past, engine.book, engine.tickets, live, lines, tales)
    requires Sendable(wanted) && moment.lines == lines && moment.Message() == Some(wanted)
    modifies engine.Repr
    ensures engine.Valid() && fresh(engine.Repr - old(engine.Repr))
    ensures Served(engine.net, eos, past + [moment], engine.book, engine.tickets, still, after, told)
  {
    ServedTells(engine.net, eos, past, engine.book, engine.tickets, live, lines, tales);
    ghost var book, tickets := engine.book, engine.tickets;
    still, after, told := Take(engine, live, lines, wanted, eos, tales);
    ServedMore(engine.net, eos, past, book, tickets, live, lines, tales, moment, engine.book, engine.tickets, still,
               after, told);
  }

  /** A step, and what it produced sent. */
  method StepOnce(engine: Continuous, live: map<nat, nat>, lines: seq<Line>, eos: Id, ghost tales: seq<Tale>,
                  ghost past: seq<Moment>)
    returns (still: map<nat, nat>, after: seq<Line>, ghost told: seq<Tale>)
    requires engine.Valid() && Served(engine.net, eos, past, engine.book, engine.tickets, live, lines, tales)
    requires engine.book != map[]
    modifies engine.Repr
    ensures engine.Valid() && fresh(engine.Repr - old(engine.Repr))
    ensures Served(engine.net, eos, past, engine.book, engine.tickets, still, after, told)
    ensures Work(engine.slots, engine.waiting) < old(Work(engine.slots, engine.waiting))
  {
    ServedTells(engine.net, eos, past, engine.book, engine.tickets, live, lines, tales);
    ghost var before := engine.book;
    var stepped;
    ghost var seated, recorded;
    stepped, seated, recorded := engine.Step();
    still, after, told := Dispatched(engine, live, lines, stepped, eos, before, tales);
    ServedOn(engine.net, eos, past, before, engine.tickets, live, lines, tales, engine.book, still, after, told);
  }

  /** Waiting only where there is nothing to step, and over only where nothing is held and nothing will ever
    * arrive. */
  method AwaitOne(engine: Continuous, asked: Channel, live: map<nat, nat>, lines: seq<Line>, ghost eos: Id,
                  ghost tales: seq<Tale>, ghost all: seq<Look>, ghost past: seq<Moment>)
    returns (still: map<nat, nat>, after: seq<Line>, over: bool, ghost told: seq<Tale>, ghost now: seq<Moment>)
    requires engine.Valid() && asked !in engine.Repr && asked.Sendables() && Spent(all, past, asked.coming)
    requires Served(engine.net, eos, past, engine.book, engine.tickets, live, lines, tales)
    modifies engine.Repr, asked
    ensures engine.Valid() && fresh(engine.Repr - old(engine.Repr)) && asked.Sendables()
    ensures Spent(all, now, asked.coming)
    ensures Served(engine.net, eos, now, engine.book, engine.tickets, still, after, told)
    ensures if old(engine.book) != map[] then
        && !over && now == past && asked.coming == old(asked.coming) && still == live && after == lines
        && engine.book == old(engine.book) && engine.slots == old(engine.slots) && engine.waiting == old(engine.waiting)
      else if over then
        && asked.coming == [] && engine.book == map[] && after == lines
        && engine.slots == old(engine.slots) && engine.waiting == old(engine.waiting)
      else |asked.coming| < |old(asked.coming)|
  {
    still, after, told, now, over := live, lines, tales, past, false;
    var idle := engine.Idle();
    if idle {
      still, after, over, told, now := Awaited(engine, asked, live, lines, eos, tales, all, past);
    }
  }

  /** Nothing to step: the next message waited for and taken, if there will be one. */
  method Awaited(engine: Continuous, asked: Channel, live: map<nat, nat>, lines: seq<Line>, ghost eos: Id,
                 ghost tales: seq<Tale>, ghost all: seq<Look>, ghost past: seq<Moment>)
    returns (still: map<nat, nat>, after: seq<Line>, over: bool, ghost told: seq<Tale>, ghost now: seq<Moment>)
    requires engine.Valid() && asked !in engine.Repr && asked.Sendables() && Spent(all, past, asked.coming)
    requires Served(engine.net, eos, past, engine.book, engine.tickets, live, lines, tales) && engine.book == map[]
    modifies engine.Repr, asked
    ensures engine.Valid() && fresh(engine.Repr - old(engine.Repr)) && asked.Sendables()
    ensures Spent(all, now, asked.coming)
    ensures Served(engine.net, eos, now, engine.book, engine.tickets, still, after, told)
    ensures if over then
        && asked.coming == [] && engine.book == map[] && after == lines
        && engine.slots == old(engine.slots) && engine.waiting == old(engine.waiting)
      else |asked.coming| < |old(asked.coming)|
  {
    still, after, told, over := live, lines, tales, false;
    var wanted;
    ghost var waited;
    wanted, waited := asked.Receive(lines, all, past);
    now := waited;
    ServedWaiting(engine.net, eos, past, engine.book, engine.tickets, live, lines, tales, waited);
    if wanted.None? {
      over := true;
    } else {
      ghost var moment := Moment(all[|waited|], lines);
      still, after, told := TakeNext(engine, live, lines, wanted.value, eos, tales, waited, moment);
      now := waited + [moment];
    }
  }

  /** Whatever has arrived taken, and a step where there is anything to step. */
  method TurnOn(engine: Continuous, asked: Channel, live: map<nat, nat>, lines: seq<Line>, eos: Id,
                ghost tales: seq<Tale>, ghost all: seq<Look>, ghost past: seq<Moment>)
    returns (still: map<nat, nat>, after: seq<Line>, ghost told: seq<Tale>, ghost now: seq<Moment>)
    requires engine.Valid() && asked !in engine.Repr && asked.Sendables() && Spent(all, past, asked.coming)
    requires Served(engine.net, eos, past, engine.book, engine.tickets, live, lines, tales)
    modifies engine.Repr, asked
    ensures engine.Valid() && fresh(engine.Repr - old(engine.Repr)) && asked.Sendables()
    ensures Spent(all, now, asked.coming)
    ensures Served(engine.net, eos, now, engine.book, engine.tickets, still, after, told)
    ensures |asked.coming| < |old(asked.coming)| || (asked.coming == old(asked.coming)
              && (old(engine.book) == map[]
                  || Work(engine.slots, engine.waiting) < old(Work(engine.slots, engine.waiting))))
  {
    still, after, told, now := TakeAll(engine, asked, live, lines, eos, tales, all, past);
    var idle := engine.Idle();
    if !idle {
      still, after, told := StepOnce(engine, still, after, eos, told, now);
    }
  }

  /** One time round the loop. */
  method Turn(engine: Continuous, asked: Channel, live: map<nat, nat>, lines: seq<Line>, eos: Id,
              ghost tales: seq<Tale>, ghost all: seq<Look>, ghost past: seq<Moment>)
    returns (still: map<nat, nat>, after: seq<Line>, over: bool, ghost told: seq<Tale>, ghost now: seq<Moment>)
    requires engine.Valid() && asked !in engine.Repr && asked.Sendables() && Spent(all, past, asked.coming)
    requires Served(engine.net, eos, past, engine.book, engine.tickets, live, lines, tales)
    modifies engine.Repr, asked
    ensures engine.Valid() && fresh(engine.Repr - old(engine.Repr)) && asked.Sendables()
    ensures Spent(all, now, asked.coming)
    ensures Served(engine.net, eos, now, engine.book, engine.tickets, still, after, told)
    ensures still.Keys == engine.book.Keys
    ensures over ==>
        && asked.coming == [] && engine.book == map[]
        && engine.slots == old(engine.slots) && engine.waiting == old(engine.waiting)
    ensures over || |asked.coming| < |old(asked.coming)| || (asked.coming == old(asked.coming)
              && Work(engine.slots, engine.waiting) < old(Work(engine.slots, engine.waiting)))
  {
    still, after, over, told, now := AwaitOne(engine, asked, live, lines, eos, tales, all, past);
    if !over {
      still, after, told, now := TurnOn(engine, asked, still, after, eos, told, all, now);
    }
    ServedTells(engine.net, eos, now, engine.book, engine.tickets, still, after, told);
  }

  /** The chunk its engine is made with. */
  const ADMIT: nat := 128

  /** The serving loop: each turn takes what has arrived and steps the engine, until no message is left to
    * come and no request is owed.  Whoever gives a ticket back, or stops listening, only once its reading is
    * over is given what its prompt is given alone. */
  method Stepping(net: Net, asked: Channel, eos: Id, slots: nat, reuse: nat)
    returns (lines: seq<Line>, ghost tales: seq<Tale>, ghost past: seq<Moment>)
    requires net.Valid() && slots > 0 && asked.Sendables()
    modifies asked
    ensures asked.coming == [] && Spent(old(asked.coming), past, [])
    ensures |lines| == |tales| && Opened(Found(past), lines) && Unfolds(past, lines)
    ensures forall t :: 0 <= t < |lines| ==> LineOk(net, eos, t, lines[t], tales[t]) && tales[t].status != Live
    ensures forall t :: 0 <= t < |lines| && tales[t].status == Freed ==> FreedBy(past, lines, t)
    ensures forall t, declines :: 0 <= t < |lines| && Mannered(old(asked.coming), lines[t].seating, t, declines) ==>
      GivenAlone(net, eos, lines[t], declines)
  {
    var engine := new Continuous(net, slots, ADMIT, reuse);
    var live: map<nat, nat> := map[];
    lines, tales, past := [], [], [];
    ghost var all := asked.coming;
    var over := false;
    while !over
      invariant engine.Valid() && fresh(engine.Repr) && asked !in engine.Repr && asked.Sendables() && engine.net == net
      invariant Served(net, eos, past, engine.book, engine.tickets, live, lines, tales)
      invariant Spent(all, past, asked.coming)
      invariant over ==> asked.coming == [] && engine.book == map[]
      decreases |asked.coming|, Work(engine.slots, engine.waiting), !over
    {
      live, lines, over, tales, past := Turn(engine, asked, live, lines, eos, tales, all, past);
    }
    assert ServedKey(0);
    AllGiven(net, eos, all, past, lines, tales);
  }

  /** What one connection made of its line: the tokens its turn was offered, and how it closed. */
  datatype Outcome = Outcome(tokens: seq<Id>, stop: Stop)

  /** Nothing among the first `n` tokens is declined. */
  ghost predicate TakesFirst(declines: Declines, tokens: seq<Id>, n: nat)
    requires n <= |tokens|
  {
    forall i :: 1 <= i <= n ==> !declines(tokens[..i])
  }

  /** What reading `log` from `at` comes to, with `offered` before it, if nothing more is ever sent: frames until
    * the sink declines one or the log says it is over, and otherwise the close of a line that was cut off. */
  function ReadFrom(log: seq<Dispatch>, declines: Declines, at: nat, offered: seq<Id>): Outcome
    decreases |log| - at
  {
    if at >= |log| then Outcome(offered, Sink)
    else
      match log[at]
      case Done(stop) => Outcome(offered, stop)
      case Seated(_) => Outcome(offered, Sink)
      case Said(id) =>
        if declines(offered + [id]) then Outcome(offered + [id], Sink)
        else ReadFrom(log, declines, at + 1, offered + [id])
  }

  /** What a connection makes of its line: nothing if it was never told its ticket. */
  function ReadOf(log: seq<Dispatch>, declines: Declines): Option<Outcome> {
    if log == [] || !log[0].Seated? then None else Some(ReadFrom(log, declines, 1, []))
  }

  /** Whether a reading has come to an end of its own, whatever may still be sent. */
  ghost predicate OverFrom(log: seq<Dispatch>, declines: Declines, at: nat, offered: seq<Id>)
    decreases |log| - at
  {
    at < |log| &&
    match log[at]
    case Done(_) => true
    case Seated(_) => true
    case Said(id) => declines(offered + [id]) || OverFrom(log, declines, at + 1, offered + [id])
  }

  ghost predicate Over(log: seq<Dispatch>, declines: Declines) {
    log != [] && log[0].Seated? && OverFrom(log, declines, 1, [])
  }

  /** A reading that is over comes to the same whatever is sent after. */
  lemma OverStays(log: seq<Dispatch>, more: seq<Dispatch>, declines: Declines)
    requires Over(log, declines) && log <= more
    ensures Over(more, declines) && ReadOf(more, declines) == ReadOf(log, declines)
  {
    OverOn(log, more, declines, 1, []);
  }

  lemma {:induction false} OverOn(log: seq<Dispatch>, more: seq<Dispatch>, declines: Declines, at: nat,
                                  offered: seq<Id>)
    requires OverFrom(log, declines, at, offered) && log <= more
    ensures OverFrom(more, declines, at, offered)
    ensures ReadFrom(more, declines, at, offered) == ReadFrom(log, declines, at, offered)
    decreases |log| - at
  {
    assert more[at] == log[at];
    if log[at].Said? && !declines(offered + [log[at].id]) {
      OverOn(log, more, declines, at + 1, offered + [log[at].id]);
    }
  }

  /** The reading itself, message by message. */
  method Read(log: seq<Dispatch>, declines: Declines) returns (outcome: Option<Outcome>)
    ensures outcome == ReadOf(log, declines)
  {
    if log == [] || !log[0].Seated? {
      return None;
    }
    var offered, stop, at := [], Sink, 1;
    while at < |log|
      invariant 1 <= at <= |log| && stop == Sink
      invariant ReadFrom(log, declines, at, offered) == ReadFrom(log, declines, 1, [])
    {
      var dispatch := log[at];
      if dispatch.Done? {
        return Some(Outcome(offered, dispatch.stop));
      } else if dispatch.Seated? {
        return Some(Outcome(offered, stop));
      }
      offered := offered + [dispatch.id];
      if declines(offered) {
        return Some(Outcome(offered, stop));
      }
      at := at + 1;
    }
    outcome := Some(Outcome(offered, stop));
  }

  /** A reading that ended at its sink. */
  ghost predicate Declined(outcome: Outcome, declines: Declines, heard: seq<Id>) {
    && 0 < |outcome.tokens| <= |heard| && outcome.tokens == heard[..|outcome.tokens|] && outcome.stop == Sink
    && declines(outcome.tokens) && TakesFirst(declines, heard, |outcome.tokens| - 1)
  }

  /** A line of some tokens, and its ending if it has one, is read to its sink or to its end. */
  lemma {:induction false} ReadTold(log: seq<Dispatch>, declines: Declines, ticket: nat, heard: seq<Id>,
                                    ending: seq<Dispatch>, n: nat)
    requires log == [Seated(ticket)] + Told(heard) + ending && (ending == [] || (|ending| == 1 && ending[0].Done?))
    requires n <= |heard| && TakesFirst(declines, heard, n)
    ensures var outcome := ReadFrom(log, declines, n + 1, heard[..n]);
      if Declined(outcome, declines, heard) then OverFrom(log, declines, n + 1, heard[..n])
      else
        && outcome == Outcome(heard, if ending == [] then Sink else ending[0].stop)
        && TakesFirst(declines, heard, |heard|)
        && (OverFrom(log, declines, n + 1, heard[..n]) <==> ending != [])
    decreases |heard| - n
  {
    if n == |heard| {
      assert heard[..n] == heard;
    } else {
      assert log[n + 1] == Said(heard[n]) && heard[..n] + [heard[n]] == heard[..n + 1];
      if !declines(heard[..n + 1]) {
        ReadTold(log, declines, ticket, heard, ending, n + 1);
      }
    }
  }

  /** A run with a refusal of the `n`th token in it has `n` tokens and ends at the sink. */
  lemma DeclinedAt(net: Net, known: seq<Id>, ending: Ending, declines: Declines, tokens: seq<Id>, n: nat)
    requires net.Valid() && known != [] && ending.budget > 0 && 0 < n <= |tokens| <= ending.budget
    requires Greedy(net, known, tokens) && Unended(ending, TAKES_ALL, tokens, |tokens|)
    requires declines(tokens[..n]) && TakesFirst(declines, tokens, n - 1)
    ensures Generated(net, known, ending, declines, tokens[..n], Sink)
  {
    GreedyPrefix(net, known, tokens, n);
    forall i | 1 <= i < n
      ensures Why(ending, declines, tokens[..n][..i]) == None
    {
      assert tokens[..n][..i] == tokens[..i];
      assert Why(ending, TAKES_ALL, tokens[..i]) == None;
    }
  }

  /** A sink that takes everything ends nothing. */
  lemma TakenAll(net: Net, known: seq<Id>, ending: Ending, declines: Declines, tokens: seq<Id>, stop: Stop)
    requires net.Valid() && known != [] && ending.budget > 0
    requires Generated(net, known, ending, TAKES_ALL, tokens, stop) && TakesFirst(declines, tokens, |tokens|)
    ensures Generated(net, known, ending, declines, tokens, stop)
  {
    assert tokens[..|tokens|] == tokens;
    forall i | 1 <= i < |tokens|
      ensures Why(ending, declines, tokens[..i]) == None
    {
      assert Why(ending, TAKES_ALL, tokens[..i]) == None;
    }
  }

  lemma GoingUnended(net: Net, seating: Seating, eos: Id, tokens: seq<Id>)
    requires net.Valid() && Going(net, seating, eos, tokens) && seating.budget > 0
    ensures Unended(Ending(seating.budget, Some(eos)), TAKES_ALL, tokens, |tokens|)
  {
    forall i | 1 <= i < |tokens|
      ensures tokens[..i][i - 1] != eos
    {
      assert tokens[..i][i - 1] == tokens[i - 1];
    }
  }

  /** What a line's tokens are, however it stands: greedy, within budget, and nothing before the last
    * of them ends the run. */
  lemma LineTokens(net: Net, eos: Id, ticket: nat, line: Line, tale: Tale)
    requires net.Valid() && LineOk(net, eos, ticket, line, tale)
    ensures |tale.tokens| <= line.seating.budget && Greedy(net, line.seating.ids, tale.tokens)
    ensures Unended(Ending(line.seating.budget, Some(eos)), TAKES_ALL, tale.tokens, |tale.tokens|)
    ensures line.log == Heard(line.seating.leaves, Whole(ticket, tale))
  {
    assert LineKey(0);
    if !tale.status.Ended? {
      GoingUnended(net, line.seating, eos, tale.tokens);
    }
  }

  /** Any part of a line reads as its ticket, some of its tokens, and its ending only after all of them. */
  lemma LineParts(ticket: nat, tale: Tale, log: seq<Dispatch>) returns (heard: seq<Id>, rest: seq<Dispatch>)
    requires log <= Whole(ticket, tale)
    ensures log == [] || log == [Seated(ticket)] + Told(heard) + rest
    ensures heard <= tale.tokens
        && (rest == [] || (tale.status.Ended? && rest == [Done(tale.status.stop)] && heard == tale.tokens))
    ensures log == Whole(ticket, tale) && tale.status.Ended? ==> rest != []
  {
    var whole := Whole(ticket, tale);
    assert log == whole[..|log|];
    if |log| <= 1 + |tale.tokens| {
      heard, rest := tale.tokens[..if |log| > 0 then |log| - 1 else 0], [];
      assert log == [] || log == [Seated(ticket)] + Told(heard) + rest;
    } else {
      heard, rest := tale.tokens, [Done(tale.status.stop)];
    }
  }

  /** A turn whose sink declined a token closed as a run of that prompt would. */
  lemma DeclinedLine(net: Net, eos: Id, ticket: nat, line: Line, tale: Tale, declines: Declines, heard: seq<Id>, n: nat)
    requires net.Valid() && LineOk(net, eos, ticket, line, tale) && heard <= tale.tokens && 0 < n <= |heard|
    requires declines(heard[..n]) && TakesFirst(declines, heard, n - 1)
    ensures Generated(net, line.seating.ids, Ending(line.seating.budget, Some(eos)), declines, heard[..n], Sink)
  {
    LineTokens(net, eos, ticket, line, tale);
    assert heard[..n] == tale.tokens[..n];
    forall i | 1 <= i <= n - 1
      ensures tale.tokens[..i] == heard[..i]
    {
    }
    DeclinedAt(net, line.seating.ids, Ending(line.seating.budget, Some(eos)), declines, tale.tokens, n);
  }

  /** A line read is given the run its prompt has alone, under its own sink. */
  ghost predicate GivenAlone(net: Net, eos: Id, line: Line, declines: Declines)
    requires net.Valid()
  {
    && line.seating.ids != [] && ReadOf(line.log, declines).Some?
    && var outcome := ReadOf(line.log, declines).value;
       Generated(net, line.seating.ids, Ending(line.seating.budget, Some(eos)), declines, outcome.tokens, outcome.stop)
  }

  /** A connection that stops listening, or gives its ticket back, only once its reading is over: which is all
    * that a seat's going out of scope can do. */
  ghost predicate Mannered(all: seq<Look>, seating: Seating, ticket: nat, declines: Declines) {
    && (forall log :: seating.leaves(log) ==> Over(log, declines))
    && forall i :: 0 <= i < |all| ==> GivesBackLate(all[i], ticket, declines)
  }

  ghost predicate GivesBackLate(look: Look, ticket: nat, declines: Declines) {
    forall lines: seq<Line> :: look(lines) == Some(Release(ticket)) ==>
      ticket < |lines| && Over(lines[ticket].log, declines)
  }

  /** Whether a line was cut short of what its reader was still reading. */
  ghost predicate CutOff(line: Line, tale: Tale, declines: Declines) {
    (tale.status == Freed || !line.Listening()) && !Over(line.log, declines)
  }

  lemma LineGiven(net: Net, eos: Id, ticket: nat, line: Line, tale: Tale, declines: Declines)
    requires net.Valid() && LineOk(net, eos, ticket, line, tale) && tale.status != Live
    ensures !CutOff(line, tale, declines) ==> GivenAlone(net, eos, line, declines)
    ensures
      var outcome := ReadOf(line.log, declines);
      outcome.Some? && outcome.value.tokens != [] && declines(outcome.value.tokens) ==>
        GivenAlone(net, eos, line, declines)
  {
    LineStands(net, eos, ticket, line, tale);
    var heard, rest := LineParts(ticket, tale, line.log);
    if line.log != [] {
      ReadTold(line.log, declines, ticket, heard, rest, 0);
      assert heard[..0] == [];
      var outcome := ReadFrom(line.log, declines, 1, []);
      LineReads(net, eos, ticket, line, tale, declines, heard, rest, outcome);
    }
  }

  /** A line not heard to its end was given back, or its receiver has gone. */
  lemma LineStands(net: Net, eos: Id, ticket: nat, line: Line, tale: Tale)
    requires net.Valid() && LineOk(net, eos, ticket, line, tale) && tale.status != Live
    ensures line.log <= Whole(ticket, tale)
    ensures (line.log == Whole(ticket, tale) && tale.status.Ended?) || tale.status == Freed || !line.Listening()
  {
    assert LineKey(0);
  }

  lemma LineReads(net: Net, eos: Id, ticket: nat, line: Line, tale: Tale, declines: Declines, heard: seq<Id>,
                  rest: seq<Dispatch>, outcome: Outcome)
    requires net.Valid() && LineOk(net, eos, ticket, line, tale) && heard <= tale.tokens
    requires rest == [] || (tale.status.Ended? && rest == [Done(tale.status.stop)] && heard == tale.tokens)
    requires Declined(outcome, declines, heard)
      || (TakesFirst(declines, heard, |heard|) && outcome == Outcome(heard, if rest == [] then Sink else rest[0].stop))
    ensures Declined(outcome, declines, heard) || rest != [] ==>
      Generated(net, line.seating.ids, Ending(line.seating.budget, Some(eos)), declines, outcome.tokens, outcome.stop)
    ensures outcome.tokens != [] && declines(outcome.tokens) ==> Declined(outcome, declines, heard)
  {
    if Declined(outcome, declines, heard) {
      DeclinedLine(net, eos, ticket, line, tale, declines, heard, |outcome.tokens|);
    } else {
      assert heard[..|heard|] == heard;
      if rest != [] {
        assert LineKey(0);
        TakenAll(net, line.seating.ids, Ending(line.seating.budget, Some(eos)), declines, tale.tokens,
                 tale.status.stop);
      }
    }
  }

  /** Whoever keeps its manners is given what its prompt is given alone. */
  lemma AllGiven(net: Net, eos: Id, all: seq<Look>, past: seq<Moment>, lines: seq<Line>, tales: seq<Tale>)
    requires net.Valid() && Spent(all, past, []) && |lines| == |tales|
    requires forall t :: 0 <= t < |lines| ==> LineOk(net, eos, t, lines[t], tales[t]) && tales[t].status != Live
    requires forall t :: 0 <= t < |lines| && tales[t].status == Freed ==> FreedBy(past, lines, t)
    ensures forall t, declines :: 0 <= t < |lines| && Mannered(all, lines[t].seating, t, declines) ==>
      GivenAlone(net, eos, lines[t], declines)
  {
    forall t, declines | 0 <= t < |lines| && Mannered(all, lines[t].seating, t, declines)
      ensures GivenAlone(net, eos, lines[t], declines)
    {
      if tales[t].status == Freed {
        FreedOver(all, past, lines, t, declines);
      }
      LineGiven(net, eos, t, lines[t], tales[t], declines);
    }
  }

  lemma FreedOver(all: seq<Look>, past: seq<Moment>, lines: seq<Line>, ticket: nat, declines: Declines)
    requires Spent(all, past, []) && FreedBy(past, lines, ticket) && ticket < |lines|
    requires forall i :: 0 <= i < |all| ==> GivesBackLate(all[i], ticket, declines)
    ensures Over(lines[ticket].log, declines)
  {
    var i :| 0 <= i < |past| && FreedAt(past[i], lines, ticket);
    assert GivesBackLate(all[i], ticket, declines) && past[i].look == all[i];
  }

  /** One connection answered against the scheduler by what comes down its line: unless it was cut off, its
    * turn is given what its prompt is given alone. */
  method Answer(line: Line, declines: Declines, ghost net: Net, ghost eos: Id, ghost ticket: nat, ghost tale: Tale)
    returns (outcome: Option<Outcome>)
    requires net.Valid() && LineOk(net, eos, ticket, line, tale) && tale.status != Live
    ensures !CutOff(line, tale, declines) ==>
      && outcome.Some?
      && Generated(net, line.seating.ids, Ending(line.seating.budget, Some(eos)), declines, outcome.value.tokens,
                   outcome.value.stop)
    ensures outcome.Some? && outcome.value.tokens != [] && declines(outcome.value.tokens) ==>
      Generated(net, line.seating.ids, Ending(line.seating.budget, Some(eos)), declines, outcome.value.tokens,
                outcome.value.stop)
  {
    LineGiven(net, eos, ticket, line, tale, declines);
    outcome := Read(line.log, declines);
  }

  /** So a served connection and the same prompt streamed alone come to the same tokens and the same stop. */
  lemma ServedAsStreamed(net: Net, eos: Id, line: Line, declines: Declines, tokens: seq<Id>, stop: Stop)
    requires net.Valid() && line.seating.budget > 0 && GivenAlone(net, eos, line, declines)
    requires Generated(net, line.seating.ids, Ending(line.seating.budget, Some(eos)), declines, tokens, stop)
    ensures ReadOf(line.log, declines) == Some(Outcome(tokens, stop))
  {
    var outcome := ReadOf(line.log, declines).value;
    GeneratedOnce(net, line.seating.ids, Ending(line.seating.budget, Some(eos)), declines, tokens, stop, outcome.tokens,
                  outcome.stop);
  }

  /** A client that takes every token, and is not cut off, hears its request out. */
  lemma HeardOut(net: Net, eos: Id, ticket: nat, line: Line, tale: Tale)
    requires net.Valid() && LineOk(net, eos, ticket, line, tale) && tale.status != Live
    requires !CutOff(line, tale, TAKES_ALL)
    ensures tale.status.Ended? && line.log == Whole(ticket, tale)
    ensures Generated(net, line.seating.ids, Ending(line.seating.budget, Some(eos)), TAKES_ALL, tale.tokens,
                      tale.status.stop)
  {
    assert LineKey(0);
    var heard, rest := LineParts(ticket, tale, line.log);
    if line.log != [] {
      ReadTold(line.log, TAKES_ALL, ticket, heard, rest, 0);
      assert heard[..0] == [];
    }
  }

  /** A request as its connection thread understands it: one that wants no token is answered here and
    * never seated, and any other is put on the channel. */
  method Ask(ids: seq<Id>, ending: Ending, leaves: seq<Dispatch> -> bool, ghost net: Net, ghost declines: Declines)
    returns (wanted: Option<Wanted>, outcome: Option<Outcome>)
    requires net.Valid() && ids != []
    ensures wanted.Some? != outcome.Some?
    ensures wanted.Some? ==> Sendable(wanted.value) && wanted.value == Seat(Seating(ids, ending.budget, leaves))
    ensures outcome.Some? ==> Generated(net, ids, ending, declines, outcome.value.tokens, outcome.value.stop)
  {
    if ending.budget == 0 {
      return None, Some(Outcome([], Budget));
    }
    wanted, outcome := Some(Seat(Seating(ids, ending.budget, leaves))), None;
  }
}
