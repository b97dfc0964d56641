/** Bytes back into text: the lossy decoding in one go, and the stream that shows of it all that the bytes so
  * far settle. */
module Detokenize {
  import opened Buffers
  import opened Ops
  import opened Wire
  import opened Utf8

  /** What some bytes come to, and the bytes of an unfinished character held back. */
  ghost function Feed(bytes: Bytes): (fed: (Text, Bytes))
    decreases |bytes|
  {
    if bytes == [] then ([], [])
    else
      match Find(bytes)
      case Char(n) =>
        CharIsComplete(bytes);
        var rest := Feed(bytes[n..]);
        ([ScalarOf(bytes[..n])] + rest.0, rest.1)
      case Invalid(n) =>
        var rest := Feed(bytes[n..]);
        ([REPLACEMENT] + rest.0, rest.1)
      case Incomplete => ([], bytes)
  }

  /** `bytes` come to `text`, and `held` is held back. */
  ghost predicate Comes(bytes: Bytes, text: Text, held: Bytes) {
    Feed(bytes).0 == text && Feed(bytes).1 == held
  }

  /** What they come to when nothing follows: an unfinished character is one run like any other. */
  ghost function Lossy(bytes: Bytes): Text {
    Feed(bytes).0 + if Feed(bytes).1 == [] then [] else [REPLACEMENT]
  }

  /** That is the lossy decoding the grammar defines. */
  lemma {:induction false} LossyDecodes(bytes: Bytes)
    ensures Decodes(bytes, Lossy(bytes))
    decreases |bytes|
  {
    if bytes != [] {
      var found := Find(bytes);
      if found.Incomplete? {
        IncompleteBegins(bytes);
        var text := Lossy(bytes);
        assert text[1..] == [] && bytes[|bytes|..] == [];
        DecodesRun(bytes, |bytes|, text);
      } else {
        var n, text := found.len, Lossy(bytes);
        LossyDecodes(bytes[n..]);
        assert text[1..] == Lossy(bytes[n..]);
        if found.Char? {
          CharIsComplete(bytes);
          DecodesChar(bytes, n, text);
        } else {
          InvalidIsRun(bytes);
          DecodesRun(bytes, n, text);
        }
      }
    }
  }

  lemma DecodesChar(bytes: Bytes, n: nat, text: Text)
    requires Complete(bytes, n) && n > 0 && text != [] && text[0] == ScalarOf(bytes[..n])
        && Decodes(bytes[n..], text[1..])
    ensures Decodes(bytes, text)
  {
  }

  lemma DecodesRun(bytes: Bytes, n: nat, text: Text)
    requires bytes != [] && (forall m :: !Complete(bytes, m)) && MaximalRun(bytes, n)
    requires text != [] && text[0] == REPLACEMENT && Decodes(bytes[n..], text[1..])
    ensures Decodes(bytes, text)
  {
  }

  /** What has been found is not changed by what follows it. */
  lemma FoundStays(a: Bytes, b: Bytes)
    requires a != [] && !Find(a).Incomplete?
    ensures Find(a + b) == Find(a)
  {
  }

  /** Feeding bytes in two pieces is feeding the second behind what the first held back. */
  lemma {:induction false} FeedSplit(a: Bytes, b: Bytes)
    ensures Comes(a + b, Feed(a).0 + Feed(Feed(a).1 + b).0, Feed(Feed(a).1 + b).1)
    decreases |a|
  {
    var both := a + b;
    if a == [] {
      assert both == b;
    } else if Find(a).Incomplete? {
      assert Feed(a).1 + b == both;
    } else {
      FoundStays(a, b);
      var n := Find(a).len;
      var rest := a[n..];
      FeedSplit(rest, b);
      assert both[n..] == rest + b && both[..n] == a[..n];
    }
  }

  /** What is held back is always the beginning of one character, never a whole one. */
  lemma {:induction false} HeldBegins(bytes: Bytes)
    ensures Feed(bytes).1 != [] ==> Beginning(Feed(bytes).1) && |Feed(bytes).1| <= 3
    ensures Comes(Feed(bytes).1, [], Feed(bytes).1)
    decreases |bytes|
  {
    if bytes != [] {
      if Find(bytes).Incomplete? {
        IncompleteBegins(bytes);
      } else {
        HeldBegins(bytes[Find(bytes).len..]);
      }
    }
  }

  /** What validating bytes comes to: all of them text, or the text up to where they stop being it and how
    * many bytes are past rescue, where any are. */
  datatype Checked = Ok(text: Text) | Err(text: Text, valid: nat, run: Option<nat>)

  /** Bytes partway through: what they come to is `text` and then whatever `rest` comes to. */
  ghost predicate Remains(goal: (Text, Bytes), text: Text, rest: Bytes) {
    forall key {:trigger RestKey(key)} :: RestKey(key) ==> goal.0 == text + Feed(rest).0 && goal.1 == Feed(rest).1
  }

  /** A key to `Remains`, as `Sconv.WindowKey` is to a window. */
  ghost predicate RestKey(key: nat) { true }

  /** One more character or one more run found in front of `rest`. */
  lemma FeedStep(goal: (Text, Bytes), text: Text, rest: Bytes, found: Found)
    requires Remains(goal, text, rest) && rest != [] && found == Find(rest)
    ensures found.Char? ==>
      Complete(rest, found.len) && Remains(goal, text + [ScalarOf(rest[..found.len])], rest[found.len..])
    ensures found.Invalid? ==> Remains(goal, text + [REPLACEMENT], rest[found.len..])
    ensures found.Incomplete? ==> goal.0 == text && goal.1 == rest
  {
    assert RestKey(0);
    if found.Char? {
      CharIsComplete(rest);
    }
  }

  /** What a check of `bytes` found of them: the text before the place it stopped at, if it stopped, and what
    * they come to from there. */
  ghost predicate CheckOf(goal: (Text, Bytes), bytes: Bytes, checked: Checked) {
    match checked
    case Ok(text) => goal.0 == text && goal.1 == []
    case Err(text, valid, None) => valid < |bytes| && goal.0 == text && goal.1 == bytes[valid..]
    case Err(text, valid, Some(run)) =>
      0 < run && valid + run <= |bytes| && Remains(goal, text + [REPLACEMENT], bytes[valid + run..])
  }

  lemma StopsAtRun(goal: (Text, Bytes), bytes: Bytes, text: Text, at: nat, rest: Bytes, n: nat)
    requires at <= |bytes| && rest == bytes[at..] && 0 < n <= |rest|
    requires Remains(goal, text + [REPLACEMENT], rest[n..])
    ensures CheckOf(goal, bytes, Err(text, at, Some(n)))
  {
    SliceOn(bytes, at, rest, n);
  }

  lemma SliceOn(bytes: Bytes, at: nat, rest: Bytes, n: nat)
    requires at <= |bytes| && rest == bytes[at..] && n <= |rest|
    ensures rest[n..] == bytes[at + n..]
  {
  }

  method FromUtf8(bytes: Bytes) returns (checked: Checked)
    ensures CheckOf(Feed(bytes), bytes, checked)
  {
    ghost var goal := Feed(bytes);
    var text, at, rest := [], 0, bytes;
    while rest != []
      invariant at <= |bytes| && rest == bytes[at..]
      invariant Remains(goal, text, rest)
      decreases |rest|
    {
      var found := Find(rest);
      FeedStep(goal, text, rest, found);
      match found {
        case Incomplete => return Err(text, at, None);
        case Invalid(n) =>
          StopsAtRun(goal, bytes, text, at, rest, n);
          return Err(text, at, Some(n));
        case Char(n) =>
          SliceOn(bytes, at, rest, n);
          text, at, rest := text + [ScalarOf(rest[..n])], at + n, rest[n..];
      }
    }
    assert RestKey(0);
    checked := Ok(text);
  }

  /** Bytes decoded with nothing refused: what is past rescue replaced a run at a time, and an unfinished
    * character at the end replaced too. */
  method FromUtf8Lossy(bytes: Bytes) returns (text: Text)
    ensures text == Lossy(bytes)
  {
    ghost var goal := Feed(bytes);
    var rest := bytes;
    text := [];
    while rest != []
      invariant Remains(goal, text, rest)
      decreases |rest|
    {
      var found := Find(rest);
      FeedStep(goal, text, rest, found);
      match found {
        case Incomplete => return text + [REPLACEMENT];
        case Invalid(n) => text, rest := text + [REPLACEMENT], rest[n..];
        case Char(n) => text, rest := text + [ScalarOf(rest[..n])], rest[n..];
      }
    }
    assert RestKey(0);
  }

  /** A drain partway: what has been drawn off, and what the bytes left would come to. */
  ghost predicate Drawn(goal: (Text, Bytes), before: Text, text: Text, pending: Bytes) {
    goal.0 == before + text + Feed(pending).0 && goal.1 == Feed(pending).1
  }

  lemma DrawnMore(goal: (Text, Bytes), before: Text, text: Text, pending: Bytes, more: Text, rest: Text)
    requires Drawn(goal, before, text, pending) && Feed(pending).0 == more + rest
    ensures goal.0 == before + (text + more) + rest && goal.1 == Feed(pending).1
  {
    assert before + text + (more + rest) == before + (text + more) + rest;
  }

  /** A decoding in progress: the bytes that settle nothing yet, and ghosts for everything pushed and shown. */
  class Utf8Stream {
    var pending: Bytes
    /** Everything pushed since the stream began, and everything it has come to. */
    ghost var pushed: Bytes
    ghost var shown: Text

    ghost predicate Valid()
      reads this
    {
      Comes(pushed, shown, pending)
    }

    constructor ()
      ensures Valid() && pushed == [] && shown == [] && pending == []
    {
      pending, pushed, shown := [], [], [];
    }

    /** The text these bytes completed.  However the bytes were cut, what has been shown is all that
      * they settle, and what is pending is the beginning of one character. */
    method Push(bytes: Bytes) returns (text: Text)
      requires Valid()
      modifies this
      ensures Valid() && pushed == old(pushed) + bytes && shown == old(shown) + text
      ensures pending != [] ==> Beginning(pending) && |pending| <= 3
    {
      FeedSplit(pushed, bytes);
      pushed := pushed + bytes;
      HeldBegins(pushed);
      pending := pending + bytes;
      text := Drain(Feed(pushed), shown);
      shown := shown + text;
    }

    /** Everything pending that is settled, as text. */
    method Drain(ghost goal: (Text, Bytes), ghost before: Text) returns (text: Text)
      requires goal.0 == before + Feed(pending).0 && goal.1 == Feed(pending).1
      modifies this`pending
      ensures goal.0 == before + text && goal.1 == pending
    {
      text := [];
      while true
        invariant Drawn(goal, before, text, pending)
        decreases |pending|
      {
        var checked := FromUtf8(pending);
        assert RestKey(0);
        match checked {
          case Ok(more) =>
            DrawnMore(goal, before, text, pending, more, []);
            text, pending := text + more, [];
            return;
          case Err(more, valid, None) =>
            DrawnMore(goal, before, text, pending, more, []);
            text, pending := text + more, pending[valid..];
            return;
          case Err(more, valid, Some(run)) =>
            DrawnMore(goal, before, text, pending, more + [REPLACEMENT], Feed(pending[valid + run..]).0);
            text, pending := text + (more + [REPLACEMENT]), pending[valid + run..];
        }
      }
    }

    /** The stream closed: with what is still pending decoded lossily, everything shown is the lossy decoding
      * of everything pushed. */
    method Finish() returns (text: Text)
      requires Valid()
      modifies this
      ensures old(shown) + text == Lossy(old(pushed))
      ensures Valid() && pushed == [] && pending == []
    {
      HeldBegins(pushed);
      text := FromUtf8Lossy(pending);
      pending, pushed, shown := [], [], [];
    }
  }

  /** A whole stream, chunk by chunk. */
  method Stream(chunks: seq<Bytes>) returns (text: Text)
    ensures Decodes(Flat(chunks), text)
  {
    var stream := new Utf8Stream();
    text := [];
    for i := 0 to |chunks|
      invariant stream.Valid() && fresh(stream) && text == stream.shown && stream.pushed == Flat(chunks[..i])
    {
      RunAt(chunks, i);
      var more := stream.Push(chunks[i]);
      text := text + more;
    }
    assert chunks[..|chunks|] == chunks;
    LossyDecodes(Flat(chunks));
    var last := stream.Finish();
    text := text + last;
  }

  /** Text survives: what is encoded, cut into bytes and decoded is what was encoded. */
  lemma {:induction false} TextSurvives(text: Text)
    ensures Feed(EncodeAll(text)) == (text, [])
  {
    if text != [] {
      var bytes, c := EncodeAll(text), Encode(text[0]);
      Encoded(text[0]);
      assert bytes[..|c|] == c && bytes[|c|..] == EncodeAll(text[1..]);
      assert forall i :: 0 <= i < |c| ==> bytes[i] == c[i];
      TextSurvives(text[1..]);
      assert [text[0]] + text[1..] == text;
      EncodedFound(c, bytes);
    }
  }

  lemma EncodedFound(c: Bytes, bytes: Bytes)
    requires WellFormed(c) && c <= bytes
    ensures Find(bytes) == Char(|c|)
  {
  }
}
