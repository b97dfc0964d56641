/** A streamed response on the wire: chunked framing, as section 7.1 of RFC 9112 has it, written frame by
  * frame down a socket that may fail at any write. */
module Wire {
  import opened Buffers
  import opened Ops

  type Byte = b: int | 0 <= b < 256

  type Bytes = seq<Byte>

  /** ASCII text as its bytes. */
  function Ascii(text: string): (bytes: Bytes)
    ensures |bytes| == |text|
  {
    seq<Byte>(|text|, i requires 0 <= i < |text| => if text[i] as int < 128 then text[i] as int else 63)
  }

  const CR: Byte := 13
  const LF: Byte := 10

  /** The head of an event stream. */
  const EVENT_STREAM: Bytes :=
    Ascii("HTTP/1.1 200 OK\r\nContent-Type: text/event-stream\r\n"
          + "Cache-Control: no-cache\r\nTransfer-Encoding: chunked\r\n\r\n")

  /** One hexadecimal digit, lower case. */
  function Digit(d: nat): (b: Byte)
    requires d < 16
    ensures HexValue(b) == Some(d)
  {
    if d < 10 then 48 + d else 97 + d - 10
  }

  /** What a hexadecimal digit of either case stands for. */
  function HexValue(b: Byte): Option<nat> {
    if 48 <= b <= 57 then Some(b - 48)
    else if 97 <= b <= 102 then Some(b - 97 + 10)
    else if 65 <= b <= 70 then Some(b - 65 + 10)
    else None
  }

  /** A length in hexadecimal, with no leading zero. */
  function Hex(n: nat): (digits: Bytes)
    ensures |digits| > 0 && forall i :: 0 <= i < |digits| ==> HexValue(digits[i]).Some?
  {
    if n < 16 then [Digit(n)] else Hex(n / 16) + [Digit(n % 16)]
  }

  /** A chunk in the framing of section 7.1 of RFC 9112: the size in hexadecimal, the data, and a line break
    * after each. */
  function Chunked(text: Bytes): Bytes {
    Hex(|text|) + [CR, LF] + text + [CR, LF]
  }

  /** A chunk of size zero. */
  const LAST_CHUNK: Bytes := Ascii("0\r\n\r\n")

  function Framed(frames: seq<Bytes>): Bytes {
    if frames == [] then [] else Chunked(frames[0]) + Framed(frames[1..])
  }

  // The client's side: a reading of the grammar that knows nothing of how a body is written.

  /** The digits a size line opens with. */
  function Digits(bytes: Bytes): (n: nat)
    ensures n <= |bytes|
    ensures forall i :: 0 <= i < n ==> HexValue(bytes[i]).Some?
    ensures n < |bytes| ==> HexValue(bytes[n]).None?
  {
    if bytes == [] || HexValue(bytes[0]).None? then 0 else 1 + Digits(bytes[1..])
  }

  function Value(digits: Bytes): (n: nat)
    requires forall i :: 0 <= i < |digits| ==> HexValue(digits[i]).Some?
  {
    if digits == [] then 0 else Value(digits[..|digits| - 1]) * 16 + HexValue(digits[|digits| - 1]).value
  }

  /** The next chunk, and what follows it: `None` where the bytes are not, or not yet, a whole one. */
  function NextChunk(bytes: Bytes): (next: Option<(Bytes, Bytes)>)
    ensures next.Some? ==> |next.value.1| < |bytes|
  {
    var n := Digits(bytes);
    if n == 0 || n + 2 > |bytes| || bytes[n] != CR || bytes[n + 1] != LF then None
    else
      var size, rest := Value(bytes[..n]), bytes[n + 2..];
      if size + 2 > |rest| || rest[size] != CR || rest[size + 1] != LF then None
      else Some((rest[..size], rest[size + 2..]))
  }

  /** A chunked body read to its last chunk: what it carried, and whatever lies past its end. */
  function ReadBody(bytes: Bytes): Option<(Bytes, Bytes)>
    decreases |bytes|
  {
    match NextChunk(bytes)
    case None => None
    case Some((data, rest)) =>
      if data == [] then Some(([], rest))
      else
        match ReadBody(rest)
        case None => None
        case Some((more, beyond)) => Some((data + more, beyond))
  }

  lemma {:induction false} HexReads(n: nat)
    ensures Value(Hex(n)) == n
  {
    if n >= 16 {
      HexReads(n / 16);
      assert Hex(n)[..|Hex(n)| - 1] == Hex(n / 16);
    } else {
      assert Hex(n)[..0] == [];
    }
  }

  lemma {:induction false} DigitsOf(digits: Bytes, rest: Bytes)
    requires forall i :: 0 <= i < |digits| ==> HexValue(digits[i]).Some?
    requires rest != [] && HexValue(rest[0]).None?
    ensures Digits(digits + rest) == |digits|
  {
    if digits == [] {
      assert digits + rest == rest;
    } else {
      DigitsOf(digits[1..], rest);
      assert (digits + rest)[1..] == digits[1..] + rest;
    }
  }

  /** A chunk reads back as what it was made from, whatever follows it. */
  lemma ChunkReads(text: Bytes, rest: Bytes)
    ensures NextChunk(Chunked(text) + rest) == Some((text, rest))
  {
    var digits, data := Hex(|text|), text + [CR, LF] + rest;
    var after := [CR, LF] + data;
    var bytes := Chunked(text) + rest;
    assert bytes == digits + after;
    DigitsOf(digits, after);
    HexReads(|text|);
    assert bytes[..|digits|] == digits && bytes[|digits| + 2..] == data;
    assert bytes[|digits|] == after[0] && bytes[|digits| + 1] == after[1];
    assert data[..|text|] == text && data[|text|] == CR && data[|text| + 1] == LF && data[|text| + 2..] == rest;
  }

  lemma LastIsEmpty()
    ensures Chunked([]) == LAST_CHUNK
  {
    assert Hex(0) == [Digit(0)];
  }

  /** How far a client reads a body: to its end, or only to the first empty frame, which is spelled as
    * the last chunk is and ends the body where it stands. */
  lemma {:induction false} ReadsUpTo(frames: seq<Bytes>, n: nat)
    requires n <= |frames| && forall i :: 0 <= i < n ==> frames[i] != []
    requires n < |frames| ==> frames[n] == []
    ensures ReadBody(Framed(frames) + LAST_CHUNK) == Some((Flat(frames[..n]), Beyond(frames, n)))
  {
    if frames == [] {
      LastIsEmpty();
      assert Framed(frames) + LAST_CHUNK == Chunked([]) + [];
      ReadOne([], []);
    } else {
      var tail := frames[1..];
      Associates(Chunked(frames[0]), Framed(tail), LAST_CHUNK);
      ReadOne(frames[0], Framed(tail) + LAST_CHUNK);
      if n > 0 {
        ReadsUpTo(tail, n - 1);
        OnePast(frames, n);
      } else {
        assert frames[..0] == [];
      }
    }
  }

  /** What is left on the wire past the empty frame at `n`. */
  function Beyond(frames: seq<Bytes>, n: nat): Bytes {
    if n < |frames| then Framed(frames[n + 1..]) + LAST_CHUNK else []
  }

  /** A chunk read off the front of a body: all there is to read, when it is empty. */
  lemma ReadOne(data: Bytes, rest: Bytes)
    ensures data == [] ==> ReadBody(Chunked(data) + rest) == Some(([], rest))
    ensures data != [] ==> ReadBody(Chunked(data) + rest) == match ReadBody(rest)
      case None => None
      case Some((more, beyond)) => Some((data + more, beyond))
  {
    ChunkReads(data, rest);
  }

  lemma OnePast(frames: seq<Bytes>, n: nat)
    requires 0 < n <= |frames|
    ensures Flat(frames[..n]) == frames[0] + Flat(frames[1..][..n - 1])
    ensures Beyond(frames[1..], n - 1) == Beyond(frames, n)
  {
    assert frames[..n][1..] == frames[1..][..n - 1];
    if n < |frames| {
      assert frames[1..][n - 1 + 1..] == frames[n + 1..];
    }
  }

  /** A complete body is read as exactly its frames, and to its end, when and only when no frame is
    * empty. */
  lemma BodyReads(frames: seq<Bytes>)
    ensures ReadBody(Framed(frames) + LAST_CHUNK) == Some((Flat(frames), []))
       <==> forall i :: 0 <= i < |frames| ==> frames[i] != []
  {
    if forall i :: 0 <= i < |frames| ==> frames[i] != [] {
      ReadsUpTo(frames, |frames|);
      assert frames[..|frames|] == frames;
    } else {
      var n := FirstEmpty(frames);
      ReadsUpTo(frames, n);
    }
  }

  ghost function FirstEmpty(frames: seq<Bytes>): (n: nat)
    requires exists i :: 0 <= i < |frames| && frames[i] == []
    ensures n < |frames| && frames[n] == [] && forall i :: 0 <= i < n ==> frames[i] != []
  {
    if frames[0] == [] then 0 else 1 + FirstEmpty(frames[1..])
  }

  /** Cut short anywhere, a body of non-empty frames reads as nothing at all: a client can tell a stream
    * that is over from one that stopped. */
  lemma {:induction false} CutIsUnread(frames: seq<Bytes>, n: nat)
    requires forall i :: 0 <= i < |frames| ==> frames[i] != []
    requires n < |Framed(frames) + LAST_CHUNK|
    ensures ReadBody((Framed(frames) + LAST_CHUNK)[..n]).None?
  {
    LastIsEmpty();
    var whole := Framed(frames) + LAST_CHUNK;
    if frames == [] {
      assert whole == Chunked([]) + [];
      CutChunk([], [], n);
    } else {
      var rest := Framed(frames[1..]) + LAST_CHUNK;
      assert whole == Chunked(frames[0]) + rest;
      if n < |Chunked(frames[0])| {
        CutChunk(frames[0], rest, n);
      } else {
        var m := n - |Chunked(frames[0])|;
        assert whole[..n] == Chunked(frames[0]) + rest[..m];
        ChunkReads(frames[0], rest[..m]);
        CutIsUnread(frames[1..], m);
      }
    }
  }

  /** Less than a whole chunk is no chunk. */
  lemma CutChunk(text: Bytes, rest: Bytes, n: nat)
    requires n < |Chunked(text)|
    ensures NextChunk((Chunked(text) + rest)[..n]).None?
  {
    var digits, bytes := Hex(|text|), (Chunked(text) + rest)[..n];
    assert bytes == Chunked(text)[..n];
    if n > |digits| {
      var after := bytes[|digits|..];
      assert bytes == digits + after && after[0] == CR;
      DigitsOf(digits, after);
      HexReads(|text|);
      assert bytes[..|digits|] == digits;
    } else {
      AllDigits(digits, n);
      assert bytes == digits[..n];
    }
  }

  lemma {:induction false} AllDigits(digits: Bytes, n: nat)
    requires n <= |digits| && forall i :: 0 <= i < |digits| ==> HexValue(digits[i]).Some?
    ensures Digits(digits[..n]) == n
  {
    if n > 0 {
      AllDigits(digits[1..], n - 1);
      assert digits[..n][1..] == digits[1..][..n - 1];
    }
  }

  lemma {:induction false} FramedAppend(a: seq<Bytes>, b: seq<Bytes>)
    ensures Framed(a + b) == Framed(a) + Framed(b)
  {
    var whole := a + b;
    if a == [] {
      assert whole == b;
    } else {
      var rest := a[1..];
      FramedAppend(rest, b);
      assert whole[0] == a[0] && whole[1..] == rest + b;
      Associates(Chunked(a[0]), Framed(rest), Framed(b));
    }
  }

  lemma FramedOne(frame: Bytes)
    ensures Framed([frame]) == Chunked(frame)
  {
    assert [frame][1..] == [];
  }

  lemma LastFrame(frames: seq<Bytes>, closing: Bytes)
    ensures EVENT_STREAM + Framed(frames + [closing]) + LAST_CHUNK
        == EVENT_STREAM + Framed(frames) + (Chunked(closing) + LAST_CHUNK)
    ensures EVENT_STREAM + Framed(frames) <= EVENT_STREAM + Framed(frames + [closing]) + LAST_CHUNK
  {
    var all, one := Framed(frames), Chunked(closing);
    FramedAppend(frames, [closing]);
    FramedOne(closing);
    Associates(EVENT_STREAM, all, one);
    Associates(EVENT_STREAM + all, one, LAST_CHUNK);
    var whole := EVENT_STREAM + all + (one + LAST_CHUNK);
    assert EVENT_STREAM + all <= whole;
  }

  /** One end of a connection.  `fate` says of each write whether it goes through, and if not, how many of
    * its bytes got out first: any socket at all, whenever it fails. */
  class Socket {
    const fate: nat -> Option<nat>
    var sent: Bytes
    var attempts: seq<bool>

    constructor (fate: nat -> Option<nat>)
      ensures this.fate == fate && sent == [] && attempts == []
    {
      this.fate, sent, attempts := fate, [], [];
    }

    /** Written and flushed, or failed at one or the other. */
    method WriteAll(text: Bytes) returns (ok: bool)
      modifies this
      ensures attempts == old(attempts) + [ok] && old(sent) <= sent <= old(sent) + text
      ensures ok ==> sent == old(sent) + text
    {
      var failing := fate(|attempts|);
      if failing.None? {
        sent, ok := sent + text, true;
      } else {
        sent, ok := sent + text[..if failing.value < |text| then failing.value else |text|], false;
      }
      attempts := attempts + [ok];
    }
  }

  /** Every write went through, but perhaps the last. */
  ghost predicate NoneAfterFailure(attempts: seq<bool>) {
    forall i :: 0 <= i < |attempts| - 1 ==> attempts[i]
  }

  /** The last write of a connection failed. */
  ghost predicate Broken(attempts: seq<bool>) {
    attempts != [] && !attempts[|attempts| - 1]
  }

  ghost predicate NoneEmpty(frames: seq<Bytes>) {
    forall i :: 0 <= i < |frames| ==> frames[i] != []
  }

  /** A number in decimal. */
  function Decimal(n: nat): Bytes {
    if n < 10 then [48 + n] else Decimal(n / 10) + [48 + n % 10]
  }

  function JsonHead(status: Bytes, length: nat): Bytes {
    Ascii("HTTP/1.1 ") + status + Ascii("\r\nContent-Type: application/json\r\nContent-Length: ") + Decimal(length)
    + Ascii("\r\n\r\n")
  }

  const OK: Bytes := Ascii("200 OK")
  const FAILED: Bytes := Ascii("500 Internal Server Error")

  function Given(frame: Option<Bytes>): seq<Bytes> {
    if frame.Some? then [frame.value] else []
  }

  /** The frames a stream closes with: whatever text and stop-sequence matching still held, and the
    * closing frame. */
  ghost function Ends(leftover: Option<Bytes>, held: Option<Bytes>, closing: Bytes): seq<Bytes> {
    Given(leftover) + Given(held) + [closing]
  }

  /** The writer of one response, streamed frame by frame or sent whole at its close.  The frames are whatever
    * the completion makes of its tokens, none of them empty. */
  class Body {
    const out: Socket
    const streaming: bool
    /** Whether a stop sequence matched. */
    var struck: bool
    var failed: bool
    /** A write was refused. */
    var disconnected: bool
    /** Every frame meant for the client so far. */
    ghost var frames: seq<Bytes>

    /** What is on the wire is the head and every frame, for as long as the socket has held; once it has
      * not, it is a beginning of that, and nothing has been written since. */
    ghost predicate Valid()
      reads this, out
    {
      && NoneEmpty(frames) && NoneAfterFailure(out.attempts)
      && (disconnected ==> failed) && disconnected == Broken(out.attempts)
      && if streaming then
           if disconnected then EVENT_STREAM <= out.sent <= EVENT_STREAM + Framed(frames)
           else out.sent == EVENT_STREAM + Framed(frames)
         else
           !disconnected && frames == [] && out.sent == [] && out.attempts == []
    }

    /** The body of a connection whose head has gone out, where it needs one. */
    constructor (out: Socket, streaming: bool)
      requires if streaming then out.sent == EVENT_STREAM && out.attempts == [true]
               else out.sent == [] && out.attempts == []
      ensures Valid() && fresh(this) && this.out == out && this.streaming == streaming && frames == []
      ensures !struck && !failed && !disconnected
    {
      this.out, this.streaming, struck, failed, disconnected, frames := out, streaming, false, false, false, [];
      new;
      assert EVENT_STREAM + Framed([]) == EVENT_STREAM;
    }

    /** One write, unless the connection has already gone: what it adds to the wire is `text`, all of it
      * or, on the write that fails, a beginning of it. */
    method Write(text: Bytes) returns (go: bool)
      requires NoneAfterFailure(out.attempts) && disconnected == Broken(out.attempts)
      modifies this`failed, this`disconnected, out
      ensures go == !disconnected && NoneAfterFailure(out.attempts) && disconnected == Broken(out.attempts)
      ensures old(disconnected) ==>
          disconnected && failed == old(failed) && out.sent == old(out.sent) && out.attempts == old(out.attempts)
      ensures !old(disconnected) ==> out.attempts == old(out.attempts) + [go]
      ensures go ==> out.sent == old(out.sent) + text && failed == old(failed)
      ensures !go && !old(disconnected) ==> failed && old(out.sent) <= out.sent <= old(out.sent) + text
    {
      if disconnected {
        return false;
      }
      go := out.WriteAll(text);
      if !go {
        disconnected, failed := true, true;
      }
    }

    /** A frame on its way out, which a collected body has nothing to send of until the end. */
    method Emit(frame: Option<Bytes>) returns (go: bool)
      requires Valid() && (frame.Some? ==> frame.value != [])
      modifies this`failed, this`disconnected, this`frames, out
      ensures Valid() && (old(disconnected) ==> disconnected && out.attempts == old(out.attempts))
      ensures failed == (old(failed) || disconnected)
      ensures frames == old(frames) + if streaming then Given(frame) else []
      ensures go == (streaming && frame.Some? ==> !disconnected)
    {
      if frame.Some? && streaming {
        FramedAppend(frames, [frame.value]);
        FramedOne(frame.value);
        ghost var whole := EVENT_STREAM + Framed(frames);
        assert EVENT_STREAM + Framed(frames + [frame.value]) == whole + Chunked(frame.value);
        go := Write(Chunked(frame.value));
        frames := frames + [frame.value];
      } else {
        go := true;
      }
    }

    /** The frame a token made, if it made one, written; and true while nothing has matched a stop sequence
      * and every write has been taken. */
    method Push(frame: Option<Bytes>, matched: bool) returns (go: bool)
      requires Valid() && (frame.Some? ==> frame.value != [])
      modifies this, out
      ensures Valid() && struck == (old(struck) || matched)
      ensures frames == old(frames) + if streaming then Given(frame) else []
      ensures old(disconnected) ==> disconnected && out.attempts == old(out.attempts)
      ensures failed == (old(failed) || disconnected)
      ensures go == (!struck && (streaming && frame.Some? ==> !disconnected))
    {
      struck := struck || matched;
      var wrote := Emit(frame);
      go := !struck && wrote;
    }

    /** The completion marked failed: no more tokens are wanted, and the connection is still written to. */
    method Fail() returns (go: bool)
      requires Valid()
      modifies this`failed
      ensures Valid() && failed && !go
    {
      failed := true;
      go := false;
    }

    /** The last of it.  A stream that holds to the end is a whole chunked body of exactly its frames,
      * ended once; one that does not is a beginning of that. */
    method CloseStream(leftover: Option<Bytes>, held: Option<Bytes>, closing: Bytes) returns (ok: bool)
      requires Valid() && streaming && closing != []
      requires (leftover.Some? ==> leftover.value != []) && (held.Some? ==> held.value != [])
      modifies this, out
      ensures ok == !failed && failed == (old(failed) || disconnected)
      ensures disconnected == Broken(out.attempts)
          && (old(disconnected) ==> disconnected && out.attempts == old(out.attempts))
      ensures NoneEmpty(frames) && NoneAfterFailure(out.attempts)
      ensures frames == if old(failed) then old(frames) else old(frames) + Ends(leftover, held, closing)
      ensures if disconnected then EVENT_STREAM <= out.sent <= EVENT_STREAM + Framed(frames) + LAST_CHUNK
              else out.sent == EVENT_STREAM + Framed(frames) + LAST_CHUNK
    {
      var rest := LAST_CHUNK;
      if !failed {
        rest := Conclude(leftover, held, closing);
      }
      ghost var before := out.sent;
      assert EVENT_STREAM <= before;
      var _ := Write(rest);
      ok := !failed;
    }

    /** What is left of the reply emitted, and what goes out last of all. */
    method Conclude(leftover: Option<Bytes>, held: Option<Bytes>, closing: Bytes) returns (rest: Bytes)
      requires Valid() && streaming && !failed && closing != []
      requires (leftover.Some? ==> leftover.value != []) && (held.Some? ==> held.value != [])
      modifies this`failed, this`disconnected, this`frames, out
      ensures NoneEmpty(frames) && NoneAfterFailure(out.attempts) && (failed <==> disconnected)
      ensures frames == old(frames) + Ends(leftover, held, closing)
      ensures disconnected == Broken(out.attempts)
      ensures !disconnected ==> out.sent + rest == EVENT_STREAM + Framed(frames) + LAST_CHUNK
      ensures EVENT_STREAM <= out.sent <= EVENT_STREAM + Framed(frames) + LAST_CHUNK
    {
      Associates(frames, Given(leftover), Given(held));
      Associates(frames, Given(leftover) + Given(held), [closing]);
      var _ := Emit(leftover);
      var _ := Emit(held);
      rest := Chunked(closing) + LAST_CHUNK;
      LastFrame(frames, closing);
      frames := frames + [closing];
    }

    /** A collected body, whose length is known at last: the reply, or the failure it became. */
    method CloseCollected(collected: Bytes, error: Bytes) returns (ok: bool)
      requires Valid() && !streaming
      modifies this, out
      ensures |out.attempts| == 1 && disconnected == Broken(out.attempts)
      ensures var whole := if old(failed) then JsonHead(FAILED, |error|) + error
                           else JsonHead(OK, |collected|) + collected;
        if disconnected then out.sent <= whole && !ok else out.sent == whole && ok == !old(failed)
    {
      var rest := if failed then JsonHead(FAILED, |error|) + error else JsonHead(OK, |collected|) + collected;
      var _ := Write(rest);
      ok := !failed;
    }
  }

  /** A streamed body begins with its head, and is none at all if that write is refused; a collected body
    * begins with nothing written. */
  method Open(out: Socket, streaming: bool, opening: Bytes) returns (body: Option<Body>)
    requires out.sent == [] && out.attempts == [] && opening != []
    modifies out
    ensures body.None? ==> streaming && out.sent <= EVENT_STREAM && out.attempts == [false]
    ensures body.Some? ==>
        fresh(body.value) && body.value.Valid() && body.value.out == out && body.value.streaming == streaming
    ensures body.Some? ==> body.value.frames == if streaming then [opening] else []
    ensures body.Some? ==> body.value.failed == body.value.disconnected
  {
    if streaming {
      var ok := out.WriteAll(EVENT_STREAM);
      if !ok {
        return None;
      }
      assert out.attempts == [true];
    }
    var begun := new Body(out, streaming);
    var _ := begun.Emit(if streaming then Some(opening) else None);
    body := Some(begun);
  }

  /** A client of a stream that sent `frames` reads all of them and the end, where everything was sent,
    * and no complete body anywhere short of that. */
  ghost predicate ReadAs(sent: Bytes, frames: seq<Bytes>) {
    EVENT_STREAM <= sent ==>
      var body := sent[|EVENT_STREAM|..];
      if sent == EVENT_STREAM + Framed(frames) + LAST_CHUNK then ReadBody(body) == Some((Flat(frames), []))
      else ReadBody(body).None?
  }

  /** What a client makes of a streamed response: every frame, where it was all sent, and otherwise no
    * complete body. */
  lemma Received(frames: seq<Bytes>, sent: Bytes)
    requires NoneEmpty(frames) && EVENT_STREAM <= sent <= EVENT_STREAM + Framed(frames) + LAST_CHUNK
    ensures ReadAs(sent, frames)
  {
    var whole, body := Framed(frames) + LAST_CHUNK, sent[|EVENT_STREAM|..];
    Associates(EVENT_STREAM, Framed(frames), LAST_CHUNK);
    PastHead(EVENT_STREAM, whole, sent, body);
    if body == whole {
      BodyReads(frames);
    } else {
      CutIsUnread(frames, |body|);
    }
  }

  /** What follows a head that was sent whole is a beginning of what was to follow it. */
  lemma PastHead(head: Bytes, whole: Bytes, sent: Bytes, body: Bytes)
    requires head <= sent <= head + whole && body == sent[|head|..]
    ensures |body| <= |whole| && body == whole[..|body|]
    ensures sent == head + whole <==> body == whole
    ensures body != whole ==> |body| < |whole|
  {
    assert sent == head + body;
    assert body == (head + whole)[..|sent|][|head|..];
  }

  /** One thing that happens to a body while its tokens arrive. */
  datatype Event = Token(frame: Option<Bytes>, matched: bool) | Failure {
    predicate Framing() { Token? && frame.Some? ==> frame.value != [] }
  }

  /** The frames a run of them hands over. */
  ghost function Handed(events: seq<Event>): seq<Bytes> {
    if events == [] then []
    else
      var last := events[|events| - 1];
      Handed(events[..|events| - 1]) + if last.Token? then Given(last.frame) else []
  }

  ghost predicate Fails(events: seq<Event>) {
    exists e :: 0 <= e < |events| && events[e].Failure?
  }

  /** A streamed response from its head to its close, over any socket and any run of tokens and failures:
    * what its client reads is every frame or no complete body, and it is every frame whenever no write
    * failed. */
  method Respond(out: Socket, opening: Bytes, events: seq<Event>, leftover: Option<Bytes>, held: Option<Bytes>,
                 closing: Bytes)
    returns (ok: bool, ghost frames: seq<Bytes>)
    requires out.sent == [] && out.attempts == [] && opening != [] && closing != []
    requires forall e :: 0 <= e < |events| ==> events[e].Framing()
    requires (leftover.Some? ==> leftover.value != []) && (held.Some? ==> held.value != [])
    modifies out
    ensures NoneAfterFailure(out.attempts) && ok == !(Fails(events) || Broken(out.attempts))
    ensures ok ==> frames == [opening] + Handed(events) + Ends(leftover, held, closing)
    ensures !Broken(out.attempts) && Fails(events) ==> frames == [opening] + Handed(events)
    ensures frames <= [opening] + Handed(events) + Ends(leftover, held, closing)
    ensures !Broken(out.attempts) ==> out.sent == EVENT_STREAM + Framed(frames) + LAST_CHUNK
    ensures ReadAs(out.sent, frames)
  {
    var begun := Open(out, true, opening);
    if begun.None? {
      Refused(out.sent);
      return false, [];
    }
    var body := begun.value;
    Carry(body, events);
    ok := body.CloseStream(leftover, held, closing);
    frames := body.frames;
    Received(frames, out.sent);
  }

  /** A head that was not taken is followed by no body. */
  lemma Refused(sent: Bytes)
    requires sent <= EVENT_STREAM
    ensures ReadAs(sent, [])
  {
    var whole := EVENT_STREAM + LAST_CHUNK;
    assert EVENT_STREAM + Framed([]) == EVENT_STREAM;
    if EVENT_STREAM <= sent {
      assert sent <= whole && |sent| < |whole|;
      Received([], sent);
    }
  }

  /** Every token of a run pushed, and every failure told. */
  method Carry(body: Body, events: seq<Event>)
    requires body.Valid() && body.streaming && body.failed == body.disconnected
    requires forall e :: 0 <= e < |events| ==> events[e].Framing()
    modifies body, body.out
    ensures body.Valid() && body.frames == old(body.frames) + Handed(events)
    ensures body.failed == (Fails(events) || body.disconnected)
  {
    for e := 0 to |events|
      invariant body.Valid() && body.frames == old(body.frames) + Handed(events[..e])
      invariant body.failed == (Fails(events[..e]) || body.disconnected)
    {
      var event := events[e];
      HandedMore(events, e);
      match event {
        case Token(frame, matched) => var _ := body.Push(frame, matched);
        case Failure => var _ := body.Fail();
      }
    }
    assert events[..|events|] == events;
  }

  lemma HandedMore(events: seq<Event>, e: nat)
    requires e < |events|
    ensures Handed(events[..e + 1])
         == Handed(events[..e]) + if events[e].Token? then Given(events[e].frame) else []
    ensures Fails(events[..e + 1]) <==> Fails(events[..e]) || events[e].Failure?
  {
    var more := events[..e + 1];
    assert more[..e] == events[..e] && more[e] == events[e];
    assert forall i :: 0 <= i < e ==> more[i] == events[..e][i];
    if Fails(events[..e]) {
      var i :| 0 <= i < e && events[..e][i].Failure?;
      assert more[i].Failure?;
    }
  }
}
