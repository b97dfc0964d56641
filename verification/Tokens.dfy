/** Byte-level pieces: the alphabet that spells every byte as one character, byte-pair merging by rank,
  * and text through both and back. */
module Tokens {
  import opened Ops
  import opened Wire
  import opened Utf8

  const LIFTED_COUNT: nat := 68

  /** The printable Latin-1 bytes, whose alphabet character has the byte's own number. */
  predicate SpellsItself(b: Byte) {
    0x21 <= b <= 0x7E || 0xA1 <= b <= 0xAC || 0xAE <= b
  }

  /** How many bytes below `b` do not. */
  ghost function Rank(b: nat): nat
    requires b <= 256
  {
    if b == 0 then 0 else Rank(b - 1) + if SpellsItself(b - 1) then 0 else 1
  }

  /** The same count, read off the three runs the alphabet lifts. */
  ghost function RankAt(b: nat): nat {
    if b <= 0x21 then b
    else if b <= 0x7F then 33
    else if b <= 0xA1 then 33 + (b - 0x7F)
    else if b <= 0xAD then 67
    else 68
  }

  lemma {:induction false} RankIs(b: nat)
    requires b <= 256
    ensures Rank(b) == RankAt(b)
  {
    if b > 0 {
      RankIs(b - 1);
    }
  }

  /** The `k`th byte, in ascending order, that does not spell itself. */
  function Lifted(k: nat): (b: Byte)
    requires k < LIFTED_COUNT
    ensures !SpellsItself(b)
  {
    if k < 33 then k else if k < 67 then 0x7F + (k - 33) else 0xAD
  }

  lemma LiftedRank(k: nat)
    requires k < LIFTED_COUNT
    ensures Rank(Lifted(k)) == k
  {
    RankIs(Lifted(k));
  }

  lemma RankLifted(b: Byte)
    requires !SpellsItself(b)
    ensures Rank(b) < LIFTED_COUNT && Lifted(Rank(b)) == b
  {
    RankIs(b);
  }

  /** The other bytes, in rising order, collected by one pass over all of them: exactly as many as the table
    * has room for. */
  method LiftedBytes() returns (lifted: array<Byte>)
    ensures fresh(lifted) && lifted.Length == LIFTED_COUNT
    ensures forall k :: 0 <= k < LIFTED_COUNT ==> lifted[k] == Lifted(k)
  {
    lifted := new Byte[LIFTED_COUNT](_ => 0);
    var byte, found := 0, 0;
    while byte < 256
      invariant byte <= 256 && found == Rank(byte) <= LIFTED_COUNT
      invariant forall k :: 0 <= k < found ==> lifted[k] == Lifted(k)
    {
      RankIs(byte);
      RankIs(byte + 1);
      if !SpellsItself(byte) {
        RankLifted(byte);
        lifted[found] := byte;
        found := found + 1;
      }
      byte := byte + 1;
    }
    RankIs(256);
    assert found == LIFTED_COUNT;
  }

  /** The inverse of the alphabet: a byte for each of its characters, and none for any other scalar. */
  function CharByte(spelling: Scalar): Option<Byte> {
    if spelling < 0x100 && SpellsItself(spelling) then Some(spelling)
    else if spelling < 0x100 || spelling - 0x100 >= LIFTED_COUNT then None
    else Some(Lifted(spelling - 0x100))
  }

  /** The character a byte is spelled by: itself, or U+0100 and up in the order of the bytes that are not. */
  ghost function ByteChar(b: Byte): (c: Scalar)
    ensures !SpellsItself(b) ==> c == 0x100 + Rank(b)
  {
    RankIs(b);
    if SpellsItself(b) then b else 0x100 + RankAt(b)
  }

  /** The alphabet is a bijection: every byte has a character of its own, and every character of it a
    * byte. */
  lemma Alphabet(b: Byte, c: Scalar)
    ensures CharByte(c) == Some(b) <==> c == ByteChar(b)
  {
    if !SpellsItself(b) {
      RankLifted(b);
    }
    if c >= 0x100 && c - 0x100 < LIFTED_COUNT {
      LiftedRank(c - 0x100);
    }
  }

  /** The table of the alphabet: every byte that spells itself, and then the rest in byte order. */
  method ByteLevelChars() returns (table: map<Byte, Scalar>)
    ensures forall b: Byte :: b in table && table[b] == ByteChar(b)
  {
    table := Printable();
    var offset := 0;
    for b := 0 to 256
      invariant offset == Rank(b) && Spells(table, b)
    {
      if b !in table {
        RankLifted(b);
        Lift(table, b);
        table := table[b := 0x100 + offset];
        offset := offset + 1;
      }
    }
  }

  /** The alphabet as far as the bytes below `upto`, and those that spell themselves. */
  ghost predicate Spells(table: map<Byte, Scalar>, upto: nat) {
    && (forall c: Byte :: c in table <==> c < upto || SpellsItself(c))
    && forall c: Byte :: c in table ==> table[c] == ByteChar(c)
  }

  lemma Lift(table: map<Byte, Scalar>, b: Byte)
    requires Spells(table, b) && b !in table && Rank(b) < LIFTED_COUNT
    ensures Spells(table[b := 0x100 + Rank(b)], b + 1)
  {
    var spelling := ByteChar(b);
    var more := table[b := spelling];
    assert !SpellsItself(b) && spelling == 0x100 + Rank(b);
    forall c: Byte
      ensures c in more <==> c < b + 1 || SpellsItself(c)
      ensures c in more ==> more[c] == ByteChar(c)
    {
      if c != b {
        assert c in more <==> c in table;
      }
    }
  }

  method Printable() returns (table: map<Byte, Scalar>)
    ensures forall c: Byte :: c in table <==> SpellsItself(c)
    ensures forall c: Byte :: c in table ==> table[c] == ByteChar(c)
  {
    table := map[];
    for b := 0 to 256
      invariant forall c: Byte :: c in table <==> c < b && SpellsItself(c)
      invariant forall c: Byte :: c in table ==> table[c] == c
    {
      if SpellsItself(b) {
        table := table[b := b];
      }
    }
  }

  /** Bytes spelled character by character. */
  ghost function Spelled(bytes: Bytes): (piece: Text)
    ensures |piece| == |bytes| && forall i :: 0 <= i < |bytes| ==> piece[i] == ByteChar(bytes[i])
  {
    seq<Scalar>(|bytes|, i requires 0 <= i < |bytes| => ByteChar(bytes[i]))
  }

  /** Lifted to whole strings the alphabet is still one: no two byte strings are spelled alike. */
  lemma SpelledApart(a: Bytes, b: Bytes)
    ensures Spelled(a) == Spelled(b) <==> a == b
  {
    if Spelled(a) == Spelled(b) {
      forall i | 0 <= i < |a|
        ensures a[i] == b[i]
      {
        Alphabet(a[i], Spelled(a)[i]);
        Alphabet(b[i], Spelled(b)[i]);
      }
    }
  }

  /** The bytes whose spelling is `piece`, or none if no bytes have it. */
  method PieceBytes(piece: Text) returns (bytes: Option<Bytes>)
    ensures bytes.Some? ==> piece == Spelled(bytes.value)
    ensures bytes.None? ==> forall any :: piece != Spelled(any)
  {
    var so: Bytes := [];
    for i := 0 to |piece|
      invariant |so| == i && forall j :: 0 <= j < i ==> piece[j] == ByteChar(so[j])
    {
      var b := CharByte(piece[i]);
      if b.None? {
        forall any
          ensures piece != Spelled(any)
        {
          if |any| == |piece| {
            Alphabet(any[i], piece[i]);
          }
        }
        return None;
      }
      Alphabet(b.value, piece[i]);
      so := so + [b.value];
    }
    bytes := Some(so);
  }
}
