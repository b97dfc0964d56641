/** Byte-pair encoding by rank, and the round trip from text to ids and back. */
module Bpe {
  import opened Buffers
  import opened Ops
  import opened Wire
  import opened Utf8
  import opened Detokenize
  import opened Tokens

  type Ranks = map<Bytes, nat>

  /** The adjacent pair at `i` merges. */
  predicate Merges(parts: seq<Bytes>, ranks: Ranks, i: int) {
    0 <= i && i + 1 < |parts| && parts[i] + parts[i + 1] in ranks
  }

  /** The pair a round merges: of the lowest rank there is, and the first of those. */
  ghost predicate Best(parts: seq<Bytes>, ranks: Ranks, i: int) {
    && Merges(parts, ranks, i)
    && (forall j :: Merges(parts, ranks, j) ==> ranks[parts[i] + parts[i + 1]] <= ranks[parts[j] + parts[j + 1]])
    && forall j ::
      Merges(parts, ranks, j) && ranks[parts[j] + parts[j + 1]] == ranks[parts[i] + parts[i + 1]] ==> i <= j
  }

  method FindBest(parts: seq<Bytes>, ranks: Ranks) returns (best: Option<nat>)
    ensures best.None? ==> forall i :: !Merges(parts, ranks, i)
    ensures best.Some? ==> Best(parts, ranks, best.value)
  {
    best := None;
    for i := 0 to |parts|
      invariant best.None? ==> forall j :: j < i ==> !Merges(parts, ranks, j)
      invariant best.Some? ==> best.value < i && Merges(parts, ranks, best.value)
      invariant best.Some? ==> forall j :: j < i && Merges(parts, ranks, j) ==>
                  ranks[parts[best.value] + parts[best.value + 1]] <= ranks[parts[j] + parts[j + 1]]
      invariant best.Some? ==> forall j :: j < best.value && Merges(parts, ranks, j) ==>
                  ranks[parts[best.value] + parts[best.value + 1]] < ranks[parts[j] + parts[j + 1]]
    {
      if Merges(parts, ranks, i) {
        if best.None? || ranks[parts[i] + parts[i + 1]] < ranks[parts[best.value] + parts[best.value + 1]] {
          best := Some(i);
        }
      }
    }
  }

  /** The pair at `i` as one part. */
  function Merge(parts: seq<Bytes>, i: nat): (merged: seq<Bytes>)
    requires i + 1 < |parts|
    ensures |merged| == |parts| - 1
  {
    parts[..i] + [parts[i] + parts[i + 1]] + parts[i + 2..]
  }

  function Singles(piece: Bytes): (parts: seq<Bytes>)
    ensures |parts| == |piece| && forall i :: 0 <= i < |piece| ==> parts[i] == [piece[i]]
  {
    seq(|piece|, i requires 0 <= i < |piece| => [piece[i]])
  }

  lemma {:induction false} SinglesFlat(piece: Bytes)
    ensures Flat(Singles(piece)) == piece
  {
    if piece != [] {
      SinglesFlat(piece[1..]);
      assert Singles(piece)[1..] == Singles(piece[1..]);
      assert [piece[0]] + piece[1..] == piece;
    }
  }

  /** Merging loses nothing. */
  lemma MergeKeeps(parts: seq<Bytes>, i: nat)
    requires i + 1 < |parts|
    ensures Flat(Merge(parts, i)) == Flat(parts)
  {
    var front, back := parts[..i], parts[i + 2..];
    var pair, one := [parts[i], parts[i + 1]], [parts[i] + parts[i + 1]];
    Around(parts, i, front, pair, back);
    FlatAround(front, pair, back);
    FlatAround(front, one, back);
    FlatPair(parts[i], parts[i + 1]);
  }

  lemma Around(parts: seq<Bytes>, i: nat, front: seq<Bytes>, pair: seq<Bytes>, back: seq<Bytes>)
    requires i + 1 < |parts| && front == parts[..i] && pair == [parts[i], parts[i + 1]] && back == parts[i + 2..]
    ensures front + pair + back == parts
  {
  }

  lemma FlatAround(front: seq<Bytes>, middle: seq<Bytes>, back: seq<Bytes>)
    ensures Flat(front + middle + back) == Flat(front) + Flat(middle) + Flat(back)
  {
    FlatAppend(front + middle, back);
    FlatAppend(front, middle);
  }

  lemma FlatPair(a: Bytes, b: Bytes)
    ensures Flat([a, b]) == a + b == Flat([a + b])
  {
    assert [a, b] == [a] + [b];
    FlatAppend([a], [b]);
    FlatOne(a);
    FlatOne(b);
    FlatOne(a + b);
  }

  lemma FlatOne(part: Bytes)
    ensures Flat([part]) == part
  {
    var one := [part];
    assert one[1..] == [];
  }

  /** Every part is either known or a byte on its own. */
  ghost predicate KnownOrSingle(parts: seq<Bytes>, ranks: Ranks) {
    forall i :: 0 <= i < |parts| ==> parts[i] in ranks || |parts[i]| == 1
  }

  /** The rounds of merging, run until nothing merges. */
  ghost predicate MergesTo(parts: seq<Bytes>, ranks: Ranks, final: seq<Bytes>)
    decreases |parts|
  {
    if forall i :: !Merges(parts, ranks, i) then final == parts
    else exists i :: Best(parts, ranks, i) && MergesTo(Merge(parts, i), ranks, final)
  }

  /** There is one outcome: the ranks are the merge order. */
  lemma {:induction false} MergedOnce(parts: seq<Bytes>, ranks: Ranks, a: seq<Bytes>, b: seq<Bytes>)
    requires MergesTo(parts, ranks, a) && MergesTo(parts, ranks, b)
    ensures a == b
    decreases |parts|
  {
    if exists i :: Merges(parts, ranks, i) {
      var i :| Best(parts, ranks, i) && MergesTo(Merge(parts, i), ranks, a);
      var j :| Best(parts, ranks, j) && MergesTo(Merge(parts, j), ranks, b);
      assert i == j;
      MergedOnce(Merge(parts, i), ranks, a, b);
    }
  }

  /** The rounds done so far lead to the same end. */
  ghost predicate LeadsTo(start: seq<Bytes>, ranks: Ranks, parts: seq<Bytes>) {
    forall final :: MergesTo(parts, ranks, final) ==> MergesTo(start, ranks, final)
  }

  /** The parts a piece comes to: nothing lost, and nothing left that merges. */
  method MergeParts(piece: Bytes, ranks: Ranks) returns (parts: seq<Bytes>)
    ensures Flat(parts) == piece && KnownOrSingle(parts, ranks)
    ensures forall i :: !Merges(parts, ranks, i)
    ensures MergesTo(Singles(piece), ranks, parts)
  {
    parts := Singles(piece);
    SinglesFlat(piece);
    while |parts| > 1
      invariant Flat(parts) == piece && KnownOrSingle(parts, ranks)
      invariant LeadsTo(Singles(piece), ranks, parts)
      decreases |parts|
    {
      var best := FindBest(parts, ranks);
      if best.None? {
        break;
      }
      MergeKeeps(parts, best.value);
      LeadsOn(Singles(piece), ranks, parts, best.value);
      parts := Merge(parts, best.value);
    }
  }

  lemma LeadsOn(start: seq<Bytes>, ranks: Ranks, parts: seq<Bytes>, i: nat)
    requires LeadsTo(start, ranks, parts) && Best(parts, ranks, i)
    ensures LeadsTo(start, ranks, Merge(parts, i))
  {
    forall final | MergesTo(Merge(parts, i), ranks, final)
      ensures MergesTo(start, ranks, final)
    {
      assert MergesTo(parts, ranks, final);
    }
  }

  /** Each id named in the vocabulary by the piece it stands for. */
  ghost predicate Names(parts: seq<Bytes>, ranks: Ranks, ids: seq<nat>) {
    |ids| == |parts| && forall i :: 0 <= i < |parts| ==> parts[i] in ranks && ranks[parts[i]] == ids[i]
  }

  /** A piece as ids.  There are none to give exactly where some byte on its own has no rank and nothing
    * merged it away. */
  method MergeByRank(piece: Bytes, ranks: Ranks) returns (ids: Option<seq<nat>>, ghost parts: seq<Bytes>)
    ensures Flat(parts) == piece
    ensures ids.Some? <==> forall i :: 0 <= i < |parts| ==> parts[i] in ranks
    ensures ids.Some? ==> Names(parts, ranks, ids.value)
    ensures piece in ranks ==> parts == [piece]
    ensures piece !in ranks ==> MergesTo(Singles(piece), ranks, parts) && forall i :: !Merges(parts, ranks, i)
    ensures (forall b: Byte :: [b] in ranks) ==> ids.Some?
  {
    if piece in ranks {
      parts := [piece];
      FlatOne(piece);
      return Some([ranks[piece]]), parts;
    }
    var merged := MergeParts(piece, ranks);
    parts := merged;
    var named: seq<nat> := [];
    for i := 0 to |merged|
      invariant |named| == i && forall j :: 0 <= j < i ==> merged[j] in ranks && ranks[merged[j]] == named[j]
    {
      if merged[i] !in ranks {
        assert |merged[i]| == 1 && merged[i] == [merged[i][0]];
        return None, parts;
      }
      named := named + [ranks[merged[i]]];
    }
    ids := Some(named);
  }

  /** The parts a piece is spelled with: itself where it has a rank of its own, and otherwise whatever
    * merging its bytes by rank comes to. */
  ghost predicate Tokenized(piece: Bytes, ranks: Ranks, parts: seq<Bytes>) {
    if piece in ranks then parts == [piece] else MergesTo(Singles(piece), ranks, parts)
  }

  /** The parts of every piece of a split, piece by piece. */
  ghost predicate AllTokenized(pieces: seq<Text>, ranks: Ranks, each: seq<seq<Bytes>>) {
    |each| == |pieces| && forall i :: 0 <= i < |pieces| ==> Tokenized(EncodeAll(pieces[i]), ranks, each[i])
  }

  /** `ids` are what a split is encoded to: ids for the parts of every piece, if all of those have any, and the
    * parts spell the text. */
  ghost predicate Encodes(pieces: seq<Text>, ranks: Ranks, ids: Option<seq<nat>>, each: seq<seq<Bytes>>) {
    && AllTokenized(pieces, ranks, each) && Flat(Flat(each)) == EncodeAll(Flat(pieces))
    && (ids.Some? <==> AllKnown(Flat(each), ranks))
    && (ids.Some? ==> Names(Flat(each), ranks, ids.value))
  }

  /** Text as ids: each piece of the split on its own, one after another. */
  method Encoding(pieces: seq<Text>, ranks: Ranks) returns (ids: Option<seq<nat>>, ghost each: seq<seq<Bytes>>)
    ensures Encodes(pieces, ranks, ids, each)
    ensures (forall b: Byte :: [b] in ranks) ==> ids.Some?
  {
    var all: seq<nat> := [];
    var known := true;
    each := [];
    for i := 0 to |pieces|
      invariant AllTokenized(pieces[..i], ranks, each) && Flat(Flat(each)) == EncodeAll(Flat(pieces[..i]))
      invariant known <==> AllKnown(Flat(each), ranks)
      invariant known ==> Names(Flat(each), ranks, all)
      invariant (forall b: Byte :: [b] in ranks) ==> known
    {
      ghost var more;
      var some;
      some, more := MergeByRank(EncodeAll(pieces[i]), ranks);
      EncodedMore(pieces, i, Flat(each), more);
      FlatPush(each, more);
      KnownMore(Flat(each), more, ranks);
      if some.Some? && known {
        NamesMore(Flat(each), all, more, some.value, ranks);
      }
      TokenizedMore(pieces, i, ranks, each, more);
      each := each + [more];
      if some.Some? {
        all := all + some.value;
      } else {
        known := false;
      }
    }
    assert pieces[..|pieces|] == pieces;
    ids := if known then Some(all) else None;
  }

  ghost predicate AllKnown(parts: seq<Bytes>, ranks: Ranks) {
    forall i :: 0 <= i < |parts| ==> parts[i] in ranks
  }

  lemma KnownMore(parts: seq<Bytes>, more: seq<Bytes>, ranks: Ranks)
    ensures AllKnown(parts + more, ranks) <==> AllKnown(parts, ranks) && AllKnown(more, ranks)
  {
    var all := parts + more;
    if AllKnown(all, ranks) {
      forall i | 0 <= i < |parts|
        ensures parts[i] in ranks
      {
        assert all[i] in ranks;
      }
      forall i | 0 <= i < |more|
        ensures more[i] in ranks
      {
        assert all[|parts| + i] in ranks;
      }
    }
  }

  lemma TokenizedMore(pieces: seq<Text>, i: nat, ranks: Ranks, each: seq<seq<Bytes>>, more: seq<Bytes>)
    requires i < |pieces| && AllTokenized(pieces[..i], ranks, each) && Tokenized(EncodeAll(pieces[i]), ranks, more)
    ensures AllTokenized(pieces[..i + 1], ranks, each + [more])
  {
    assert pieces[..i + 1] == pieces[..i] + [pieces[i]];
  }

  lemma NamesMore(parts: seq<Bytes>, ids: seq<nat>, more: seq<Bytes>, others: seq<nat>, ranks: Ranks)
    requires Names(parts, ranks, ids) && Names(more, ranks, others)
    ensures Names(parts + more, ranks, ids + others)
  {
  }

  lemma EncodedMore(pieces: seq<Text>, i: nat, parts: seq<Bytes>, more: seq<Bytes>)
    requires i < |pieces| && Flat(parts) == EncodeAll(Flat(pieces[..i])) && Flat(more) == EncodeAll(pieces[i])
    ensures Flat(parts + more) == EncodeAll(Flat(pieces[..i + 1]))
  {
    RunAt(pieces, i);
    EncodeAppend(Flat(pieces[..i]), pieces[i]);
    FlatAppend(parts, more);
  }

  lemma {:induction false} EncodeAppend(a: Text, b: Text)
    ensures EncodeAll(a + b) == EncodeAll(a) + EncodeAll(b)
  {
    var both := a + b;
    if a == [] {
      assert both == b;
    } else {
      EncodeAppend(a[1..], b);
      assert both[0] == a[0] && both[1..] == a[1..] + b;
    }
  }

  /** The vocabulary as it is stored: every ranked piece, spelled in the alphabet, under its id. */
  ghost predicate Stores(vocabulary: map<nat, Text>, ranks: Ranks) {
    forall piece :: piece in ranks ==> ranks[piece] in vocabulary && vocabulary[ranks[piece]] == Spelled(piece)
  }

  /** The pieces ids stand for, as bytes, pushed down one stream. */
  method Decoding(ids: seq<nat>, vocabulary: map<nat, Text>, ghost parts: seq<Bytes>, ghost ranks: Ranks)
    returns (text: Text)
    requires Stores(vocabulary, ranks) && Names(parts, ranks, ids)
    ensures Decodes(Flat(parts), text)
  {
    var chunks: seq<Bytes> := [];
    for i := 0 to |ids|
      invariant chunks == parts[..i]
    {
      var bytes := PieceBytes(vocabulary[ids[i]]);
      assert vocabulary[ids[i]] == Spelled(parts[i]);
      SpelledApart(bytes.value, parts[i]);
      chunks := chunks + [bytes.value];
    }
    assert parts[..|ids|] == parts;
    text := Stream(chunks);
  }

  /** There and back: out of the ids that any split of a text was encoded to, and the vocabulary, comes the
    * text, if the split loses none of it. */
  method RoundTrip(ids: seq<nat>, vocabulary: map<nat, Text>, ghost text: Text, ghost pieces: seq<Text>,
                   ghost each: seq<seq<Bytes>>, ghost ranks: Ranks)
    returns (back: Text)
    requires Flat(pieces) == text && Stores(vocabulary, ranks)
    requires Encodes(pieces, ranks, Some(ids), each)
    ensures back == text
  {
    back := Decoding(ids, vocabulary, Flat(each), ranks);
    TextDecodes(text, EncodeAll(text), back);
  }

  /** One piece a byte of the encoded text, each spelled in the alphabet. */
  method BytePieces(text: Text) returns (pieces: seq<Text>)
    ensures |pieces| == |EncodeAll(text)|
    ensures forall i :: 0 <= i < |pieces| ==> pieces[i] == Spelled([EncodeAll(text)[i]])
  {
    var table := ByteLevelChars();
    var bytes := EncodeAll(text);
    pieces := [];
    for i := 0 to |bytes|
      invariant |pieces| == i && forall j :: 0 <= j < i ==> pieces[j] == Spelled([bytes[j]])
    {
      var piece := [table[bytes[i]]];
      assert piece == Spelled([bytes[i]]);
      pieces := pieces + [piece];
    }
  }

  /** Streaming what those pieces carry gives the text back, though no one of them need hold a whole
    * character. */
  lemma BytePiecesDecode(text: Text, pieces: seq<Text>, chunks: seq<Bytes>, back: Text)
    requires |pieces| == |EncodeAll(text)| == |chunks|
    requires forall i :: 0 <= i < |pieces| ==> pieces[i] == Spelled([EncodeAll(text)[i]])
    requires forall i :: 0 <= i < |pieces| ==> pieces[i] == Spelled(chunks[i])
    ensures Flat(chunks) == EncodeAll(text)
    ensures Decodes(Flat(chunks), back) <==> back == text
  {
    var bytes := EncodeAll(text);
    var singles := Singles(bytes);
    forall i | 0 <= i < |chunks|
      ensures chunks[i] == singles[i]
    {
      SpelledApart(chunks[i], [bytes[i]]);
    }
    assert chunks == singles;
    SinglesFlat(bytes);
    TextDecodes(text, bytes, back);
  }

  /** The bytes of a text decode to that text and to nothing else. */
  lemma TextDecodes(text: Text, bytes: Bytes, back: Text)
    requires bytes == EncodeAll(text)
    ensures Decodes(bytes, back) <==> back == text
  {
    TextSurvives(text);
    LossyDecodes(bytes);
    assert Lossy(bytes) == text;
    if Decodes(bytes, back) {
      DecodedOnce(bytes, back, text);
    }
  }
}
