/** UTF-8, as section 4 of RFC 3629 has its grammar, and its lossy decoding: one U+FFFD for each maximal
  * run of bytes that no continuation can make a character. */
module Utf8 {
  import opened Wire

  /** A Unicode scalar value: a code point that is no surrogate. */
  type Scalar = s: int | 0 <= s < 0xD800 || 0xE000 <= s < 0x110000

  type Text = seq<Scalar>

  const REPLACEMENT: Scalar := 0xFFFD

  predicate Tail(b: Byte) { 0x80 <= b <= 0xBF }

  /** UTF8-char: one character's bytes. */
  predicate WellFormed(c: Bytes) {
    match |c|
    case 1 => c[0] <= 0x7F
    case 2 => 0xC2 <= c[0] <= 0xDF && Tail(c[1])
    case 3 =>
      && Tail(c[2])
      && (|| (c[0] == 0xE0 && 0xA0 <= c[1] <= 0xBF)
          || (0xE1 <= c[0] <= 0xEC && Tail(c[1]))
          || (c[0] == 0xED && 0x80 <= c[1] <= 0x9F)
          || (0xEE <= c[0] <= 0xEF && Tail(c[1])))
    case 4 =>
      && Tail(c[2]) && Tail(c[3])
      && (|| (c[0] == 0xF0 && 0x90 <= c[1] <= 0xBF)
          || (0xF1 <= c[0] <= 0xF3 && Tail(c[1]))
          || (c[0] == 0xF4 && 0x80 <= c[1] <= 0x8F))
    case _ => false
  }

  /** What a character's bytes stand for, section 3. */
  function ScalarOf(c: Bytes): (s: Scalar)
    requires WellFormed(c)
  {
    if |c| == 1 then c[0]
    else if |c| == 2 then (c[0] as int - 0xC0) * 64 + (c[1] as int - 0x80)
    else if |c| == 3 then (c[0] as int - 0xE0) * 4096 + (c[1] as int - 0x80) * 64 + (c[2] as int - 0x80)
    else (c[0] as int - 0xF0) * 262144 + (c[1] as int - 0x80) * 4096 + (c[2] as int - 0x80) * 64 + (c[3] as int - 0x80)
  }

  /** A character's bytes. */
  function Encode(s: Scalar): (c: Bytes) {
    var a := s / 64;
    var b := a / 64;
    if s < 0x80 then [s]
    else if s < 0x800 then [0xC0 + a, 0x80 + s % 64]
    else if s < 0x10000 then [0xE0 + b, 0x80 + a % 64, 0x80 + s % 64]
    else [0xF0 + b / 64, 0x80 + b % 64, 0x80 + a % 64, 0x80 + s % 64]
  }

  lemma Encoded(s: Scalar)
    ensures WellFormed(Encode(s)) && ScalarOf(Encode(s)) == s
  {
    var a := s / 64;
    var b := a / 64;
    assert s == a * 64 + s % 64 && a == b * 64 + a % 64 && b == b / 64 * 64 + b % 64;
  }

  lemma Place(q: nat, r: nat)
    requires r < 64
    ensures (q * 64 + r) / 64 == q && (q * 64 + r) % 64 == r
  {
  }

  /** Every character is spelled by one sequence of bytes only. */
  lemma SpelledOnce(c: Bytes)
    requires WellFormed(c)
    ensures Encode(ScalarOf(c)) == c
  {
    if |c| == 2 {
      Place(c[0] as int - 0xC0, c[1] as int - 0x80);
    } else if |c| == 3 {
      SpelledInThree(c);
    } else if |c| == 4 {
      SpelledInFour(c);
    }
  }

  lemma SpelledInThree(c: Bytes)
    requires WellFormed(c) && |c| == 3
    ensures Encode(ScalarOf(c)) == c
  {
    var a := (c[0] as int - 0xE0) * 64 + (c[1] as int - 0x80);
    Place(c[0] as int - 0xE0, c[1] as int - 0x80);
    Place(a, c[2] as int - 0x80);
    assert ScalarOf(c) == a * 64 + (c[2] as int - 0x80);
  }

  lemma SpelledInFour(c: Bytes)
    requires WellFormed(c) && |c| == 4
    ensures Encode(ScalarOf(c)) == c
  {
    var b := (c[0] as int - 0xF0) * 64 + (c[1] as int - 0x80);
    var a := b * 64 + (c[2] as int - 0x80);
    Place(c[0] as int - 0xF0, c[1] as int - 0x80);
    Place(b, c[2] as int - 0x80);
    Place(a, c[3] as int - 0x80);
    assert ScalarOf(c) == a * 64 + (c[3] as int - 0x80);
  }

  function EncodeAll(text: Text): Bytes {
    if text == [] then [] else Encode(text[0]) + EncodeAll(text[1..])
  }

  /** Bytes some continuation would complete. */
  ghost predicate Beginning(p: Bytes) {
    p != [] && exists s: Bytes :: s != [] && WellFormed(p + s)
  }

  /** No character begins another. */
  lemma PrefixFree(bytes: Bytes, n: int, m: int)
    requires 0 <= n <= |bytes| && 0 <= m <= |bytes| && WellFormed(bytes[..n]) && WellFormed(bytes[..m])
    ensures n == m
  {
    assert n > 0 && m > 0 && bytes[..n][0] == bytes[..m][0];
  }

  ghost predicate Complete(bytes: Bytes, n: int) {
    0 <= n <= |bytes| && WellFormed(bytes[..n])
  }

  /** The run of bytes one U+FFFD stands for: as much as could have begun a character, and a byte at least. */
  ghost predicate MaximalRun(bytes: Bytes, n: int) {
    && 0 < n <= |bytes|
    && (n > 1 ==> Beginning(bytes[..n]))
    && forall m :: n < m <= |bytes| ==> !Beginning(bytes[..m])
  }

  /** `text` is the lossy decoding of `bytes`, said of the grammar alone. */
  ghost predicate Decodes(bytes: Bytes, text: Text)
    decreases |bytes|
  {
    if bytes == [] then text == []
    else
      && text != []
      && if exists n :: Complete(bytes, n) then
           exists n :: Complete(bytes, n) && text[0] == ScalarOf(bytes[..n]) && n > 0 && Decodes(bytes[n..], text[1..])
         else
           text[0] == REPLACEMENT && exists n :: MaximalRun(bytes, n) && Decodes(bytes[n..], text[1..])
  }

  lemma RunOnce(bytes: Bytes, n: int, m: int)
    requires MaximalRun(bytes, n) && MaximalRun(bytes, m)
    ensures n == m
  {
  }

  /** There is one decoding. */
  lemma {:induction false} DecodedOnce(bytes: Bytes, a: Text, b: Text)
    requires Decodes(bytes, a) && Decodes(bytes, b)
    ensures a == b
    decreases |bytes|
  {
    if bytes != [] {
      if exists n :: Complete(bytes, n) {
        var n :| Complete(bytes, n) && a[0] == ScalarOf(bytes[..n]) && n > 0 && Decodes(bytes[n..], a[1..]);
        var m :| Complete(bytes, m) && b[0] == ScalarOf(bytes[..m]) && m > 0 && Decodes(bytes[m..], b[1..]);
        PrefixFree(bytes, n, m);
        DecodedOnce(bytes[n..], a[1..], b[1..]);
      } else {
        var n :| MaximalRun(bytes, n) && Decodes(bytes[n..], a[1..]);
        var m :| MaximalRun(bytes, m) && Decodes(bytes[m..], b[1..]);
        RunOnce(bytes, n, m);
        DecodedOnce(bytes[n..], a[1..], b[1..]);
      }
    }
  }

  /** What a validator finds at the front of some bytes: a character, a run no continuation can rescue, or
    * bytes that end inside a character. */
  datatype Found = Char(len: nat) | Invalid(len: nat) | Incomplete

  /** The second byte a lead byte admits, and how many bytes it asks for. */
  predicate Second(lead: Byte, b: Byte) {
    if lead == 0xE0 then 0xA0 <= b <= 0xBF
    else if lead == 0xED then 0x80 <= b <= 0x9F
    else if lead == 0xF0 then 0x90 <= b <= 0xBF
    else if lead == 0xF4 then 0x80 <= b <= 0x8F
    else Tail(b)
  }

  function Width(lead: Byte): nat {
    if lead <= 0x7F then 1
    else if 0xC2 <= lead <= 0xDF then 2
    else if 0xE0 <= lead <= 0xEF then 3
    else if 0xF0 <= lead <= 0xF4 then 4
    else 0
  }

  function Find(bytes: Bytes): (found: Found)
    requires bytes != []
    ensures found.Char? ==> 0 < found.len <= |bytes|
    ensures found.Invalid? ==> 0 < found.len <= |bytes|
  {
    var width := Width(bytes[0]);
    if width == 0 then Invalid(1)
    else if width == 1 then Char(1)
    else if |bytes| < 2 then Incomplete
    else if !Second(bytes[0], bytes[1]) then Invalid(1)
    else if width == 2 then Char(2)
    else if |bytes| < 3 then Incomplete
    else if !Tail(bytes[2]) then Invalid(2)
    else if width == 3 then Char(3)
    else if |bytes| < 4 then Incomplete
    else if !Tail(bytes[3]) then Invalid(3)
    else Char(4)
  }

  /** A continuation of at most three bytes for any beginning: the least each position admits. */
  ghost function Rest(p: Bytes): Bytes
    requires p != []
  {
    var second: Byte := if p[0] == 0xE0 then 0xA0 else if p[0] == 0xF0 then 0x90 else 0x80;
    var full := [second, 0x80, 0x80];
    if |p| - 1 <= Width(p[0]) - 1 <= 3 then full[|p| - 1..Width(p[0]) - 1] else []
  }

  lemma IncompleteBegins(bytes: Bytes)
    requires bytes != [] && Find(bytes) == Incomplete
    ensures Beginning(bytes) && forall n :: !Complete(bytes, n)
    ensures MaximalRun(bytes, |bytes|)
  {
    assert WellFormed(bytes + Rest(bytes)) && Rest(bytes) != [];
    forall n | 0 <= n <= |bytes|
      ensures !WellFormed(bytes[..n])
    {
      if n > 0 {
        assert bytes[..n][0] == bytes[0];
      }
    }
    assert bytes[..|bytes|] == bytes;
  }

  lemma CharIsComplete(bytes: Bytes)
    requires bytes != [] && Find(bytes).Char?
    ensures Complete(bytes, Find(bytes).len)
  {
  }

  lemma InvalidIsRun(bytes: Bytes)
    requires bytes != [] && Find(bytes).Invalid?
    ensures forall n :: !Complete(bytes, n)
    ensures MaximalRun(bytes, Find(bytes).len)
  {
    var len := Find(bytes).len;
    forall n | 0 <= n <= |bytes|
      ensures !WellFormed(bytes[..n])
    {
      Unfinished(bytes, bytes[..n]);
    }
    if len > 1 {
      var p := bytes[..len];
      assert p[0] == bytes[0] && p[1] == bytes[1];
      assert len == 3 ==> p[2] == bytes[2];
      assert WellFormed(p + Rest(p)) && Rest(p) != [];
    }
    forall m | len < m <= |bytes|
      ensures !Beginning(bytes[..m])
    {
      forall s: Bytes | s != []
        ensures !WellFormed(bytes[..m] + s)
      {
        var c := bytes[..m] + s;
        assert forall i :: 0 <= i < m ==> c[i] == bytes[i];
        Unfinished(bytes, c);
      }
    }
    assert len == |bytes| ==> bytes[..len] == bytes;
  }

  /** No character agrees with these bytes as far as either goes. */
  lemma Unfinished(bytes: Bytes, c: Bytes)
    requires bytes != [] && Find(bytes).Invalid?
    requires forall i :: 0 <= i < |c| && i <= Find(bytes).len && i < |bytes| ==> c[i] == bytes[i]
    requires |c| > Find(bytes).len || c <= bytes
    ensures !WellFormed(c)
  {
    if |c| > 0 {
      assert c[0] == bytes[0];
    }
  }
}
