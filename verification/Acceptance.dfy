/** How far ahead a chain of heads would have been right, counted from one teacher-forced replay per head
  * instead of one chain per position. */
module Acceptance {
  import opened Buffers
  import opened Model
  import opened Speculation

  /** A head is causal: its row at a position is settled by the rows handed to it up to there and the
    * tokens beside them. */
  type Head = (seq<Row>, seq<Id>) -> Row

  datatype Stack = Stack(heads: seq<Head>, guess: Row -> Id)

  /** The first `n` rows handed to head `d` when the tokens are `tokens`: the model's own states, and then
    * what each head in turn made of the one before it and the token `d` further on. */
  ghost function Chained(stack: Stack, hidden: seq<Row>, tokens: seq<Id>, d: nat, n: nat): (rows: seq<Row>)
    requires d <= |stack.heads| && n <= |hidden| && n + d <= |tokens|
    ensures |rows| == n
    decreases d
  {
    if d == 0 then hidden[..n]
    else seq(n,
             i requires 0 <= i < n => stack.heads[d - 1](Chained(stack, hidden, tokens, d - 1, i + 1),
                                                         tokens[d..d + 1 + i]))
  }

  /** What head `d` guesses at position `i`. */
  ghost function Guess(stack: Stack, hidden: seq<Row>, tokens: seq<Id>, d: nat, i: nat): Id
    requires d < |stack.heads| && i < |hidden| && i + d + 2 <= |tokens|
  {
    stack.guess(Chained(stack, hidden, tokens, d + 1, i + 1)[i])
  }

  /** A head looks no further than the token its guess follows. */
  lemma {:induction false} ChainedLocal(stack: Stack, hidden: seq<Row>, a: seq<Id>, b: seq<Id>, d: nat, n: nat)
    requires d <= |stack.heads| && n <= |hidden| && n + d <= |a| && n + d <= |b| && a[..n + d] == b[..n + d]
    ensures Chained(stack, hidden, a, d, n) == Chained(stack, hidden, b, d, n)
    decreases d
  {
    if d > 0 {
      forall i | 0 <= i < n
        ensures Chained(stack, hidden, a, d, n)[i] == Chained(stack, hidden, b, d, n)[i]
      {
        assert a[..i + d] == a[..n + d][..i + d] == b[..n + d][..i + d] == b[..i + d];
        assert a[d..d + 1 + i] == a[..n + d][d..d + 1 + i] == b[..n + d][d..d + 1 + i] == b[d..d + 1 + i];
        ChainedLocal(stack, hidden, a, b, d - 1, i + 1);
      }
    }
  }

  /** Rows of a longer pass are rows of a shorter one. */
  lemma ChainedTake(stack: Stack, hidden: seq<Row>, tokens: seq<Id>, d: nat, n: nat, m: nat)
    requires d <= |stack.heads| && m <= n <= |hidden| && n + d <= |tokens|
    ensures Chained(stack, hidden, tokens, d, n)[..m] == Chained(stack, hidden, tokens, d, m)
  {
  }

  /** How many heads a replay scores: as many as were asked for, of those there are, while there is a
    * position left to score them on. */
  function Depths(heads: nat, depths: nat, length: nat): (scored: nat) {
    var upto := if 0 < depths < heads then depths else heads;
    if upto + 2 <= length then upto else if length < 2 then 0 else length - 2
  }

  /** The teacher-forced replay: head `d` over every position at once, fed the true tokens. */
  method Predictions(stack: Stack, sequence: seq<Id>, hidden: seq<Row>, depths: nat) returns (predictions: seq<seq<Id>>)
    requires |hidden| + 1 >= |sequence|
    ensures |predictions| == Depths(|stack.heads|, depths, |sequence|)
    ensures forall d :: 0 <= d < |predictions| ==>
      && |predictions[d]| == |sequence| - d - 2 > 0
      && forall i :: 0 <= i < |predictions[d]| ==> predictions[d][i] == Guess(stack, hidden, sequence, d, i)
  {
    predictions := [];
    var chained := hidden;
    var upto := if 0 < depths < |stack.heads| then depths else |stack.heads|;
    for depth := 0 to upto
      invariant |predictions| == depth
      invariant depth == 0 ==> chained == hidden
      invariant depth > 0 ==>
          |sequence| - depth - 1 > 0 && chained == Chained(stack, hidden, sequence, depth, |sequence| - depth - 1)
      invariant forall d :: 0 <= d < depth ==>
        && |predictions[d]| == |sequence| - d - 2 > 0
        && forall i :: 0 <= i < |predictions[d]| ==> predictions[d][i] == Guess(stack, hidden, sequence, d, i)
    {
      var count := |sequence| - depth - 2;
      if count <= 0 {
        break;
      }
      var ids := sequence[depth + 1..depth + 1 + count];
      var rows := chained[..count];
      if depth > 0 {
        ChainedTake(stack, hidden, sequence, depth, |sequence| - depth - 1, count);
      }
      assert rows == Chained(stack, hidden, sequence, depth, count);
      chained := Forward(stack.heads[depth], rows, ids);
      Forwarded(stack, hidden, sequence, depth, count, chained);
      var guesses: seq<Id> := seq(count, i requires 0 <= i < count => stack.guess(chained[i]));
      forall i | 0 <= i < count
        ensures guesses[i] == Guess(stack, hidden, sequence, depth, i)
      {
        ChainedTake(stack, hidden, sequence, depth + 1, count, i + 1);
        assert Chained(stack, hidden, sequence, depth + 1, count)[..i + 1][i] == chained[i];
      }
      predictions := predictions + [guesses];
    }
  }

  function Forward(head: Head, rows: seq<Row>, ids: seq<Id>): (out: seq<Row>)
    requires |rows| == |ids|
    ensures |out| == |rows|
  {
    seq(|rows|, i requires 0 <= i < |rows| => head(rows[..i + 1], ids[..i + 1]))
  }

  lemma Forwarded(stack: Stack, hidden: seq<Row>, tokens: seq<Id>, d: nat, n: nat, out: seq<Row>)
    requires d < |stack.heads| && n <= |hidden| && n + d + 1 <= |tokens|
    requires out == Forward(stack.heads[d], Chained(stack, hidden, tokens, d, n), tokens[d + 1..d + 1 + n])
    ensures out == Chained(stack, hidden, tokens, d + 1, n)
  {
    var ids := tokens[d + 1..d + 1 + n];
    forall i | 0 <= i < n
      ensures out[i] == Chained(stack, hidden, tokens, d + 1, n)[i]
    {
      ChainedTake(stack, hidden, tokens, d, n, i + 1);
      assert ids[..i + 1] == tokens[d + 1..d + 2 + i];
    }
  }

  /** What a chain started at position `i` believes the sequence to be once `d` heads have guessed: the
    * tokens there are, and then its own guesses, each made by a head fed the last. */
  ghost function Believed(stack: Stack, hidden: seq<Row>, sequence: seq<Id>, i: nat, d: nat): (told: seq<Id>)
    requires d <= |stack.heads| && i < |hidden| && i + 2 <= |sequence|
    ensures |told| == i + 2 + d
  {
    if d == 0 then sequence[..i + 2]
    else
      var so := Believed(stack, hidden, sequence, i, d - 1);
      so + [Guess(stack, hidden, so, d - 1, i)]
  }

  /** The guesses of such a chain. */
  ghost function ChainGuesses(stack: Stack, hidden: seq<Row>, sequence: seq<Id>, i: nat, d: nat): (guesses: seq<Id>)
    requires d <= |stack.heads| && i < |hidden| && i + 2 <= |sequence|
    ensures |guesses| == d
  {
    Believed(stack, hidden, sequence, i, d)[i + 2..]
  }

  /** Head `d`'s teacher-forced guess at `i` is the true token. */
  ghost predicate Hit(stack: Stack, hidden: seq<Row>, sequence: seq<Id>, d: nat, i: nat)
    requires d < |stack.heads| && i < |hidden| && i + d + 3 <= |sequence|
  {
    Guess(stack, hidden, sequence, d, i) == sequence[i + d + 2]
  }

  ghost predicate HitsBefore(stack: Stack, hidden: seq<Row>, sequence: seq<Id>, d: nat, i: nat)
    requires d <= |stack.heads| && i < |hidden| && i + d + 2 <= |sequence|
  {
    forall e :: 0 <= e < d ==> Hit(stack, hidden, sequence, e, i)
  }

  /** For as long as every head so far has been right, the chain believes the truth, and the next head
    * guesses what it guesses teacher-forced; and it stops believing the truth as soon as one is wrong. */
  lemma {:induction false} ReplayIsExact(stack: Stack, hidden: seq<Row>, sequence: seq<Id>, i: nat, d: nat)
    requires d <= |stack.heads| && i < |hidden| && i + d + 2 <= |sequence|
    ensures Believed(stack, hidden, sequence, i, d) == sequence[..i + 2 + d] <==>
        HitsBefore(stack, hidden, sequence, d, i)
    ensures d < |stack.heads| && HitsBefore(stack, hidden, sequence, d, i) ==>
      Guess(stack, hidden, Believed(stack, hidden, sequence, i, d), d, i) == Guess(stack, hidden, sequence, d, i)
  {
    if d > 0 {
      ReplayIsExact(stack, hidden, sequence, i, d - 1);
      var before := Believed(stack, hidden, sequence, i, d - 1);
      var guess := Guess(stack, hidden, before, d - 1, i);
      PushedAlike(before, guess, sequence, i + 1 + d);
      HitsMore(stack, hidden, sequence, d, i);
    }
    var told := Believed(stack, hidden, sequence, i, d);
    if d < |stack.heads| && told == sequence[..i + 2 + d] {
      GuessLocal(stack, hidden, told, sequence, d, i);
    }
  }

  /** A guess is settled by the tokens up to the one before it. */
  lemma GuessLocal(stack: Stack, hidden: seq<Row>, told: seq<Id>, sequence: seq<Id>, d: nat, i: nat)
    requires d < |stack.heads| && i < |hidden| && |told| == i + d + 2 <= |sequence| && told == sequence[..i + d + 2]
    ensures Guess(stack, hidden, told, d, i) == Guess(stack, hidden, sequence, d, i)
  {
    assert told[..i + d + 2] == told;
    ChainedLocal(stack, hidden, told, sequence, d + 1, i + 1);
  }

  lemma PushedAlike(before: seq<Id>, guess: Id, sequence: seq<Id>, n: nat)
    requires |before| == n < |sequence|
    ensures before + [guess] == sequence[..n + 1] <==> before == sequence[..n] && guess == sequence[n]
  {
    var now := before + [guess];
    assert now[..n] == before && now[n] == guess;
    assert sequence[..n + 1][..n] == sequence[..n] && sequence[..n + 1] == sequence[..n] + [sequence[n]];
  }

  lemma HitsMore(stack: Stack, hidden: seq<Row>, sequence: seq<Id>, d: nat, i: nat)
    requires 0 < d <= |stack.heads| && i < |hidden| && i + d + 2 <= |sequence|
    ensures HitsBefore(stack, hidden, sequence, d, i) <==>
      HitsBefore(stack, hidden, sequence, d - 1, i) && Hit(stack, hidden, sequence, d - 1, i)
  {
  }

  /** `n` is how many of a chain's guesses a round would bank: as many as agree, up to the first that does
    * not. */
  ghost predicate Agreed(guesses: seq<Id>, truth: seq<Id>, n: nat) {
    && n <= |guesses| <= |truth| && guesses[..n] == truth[..n]
    && (n < |guesses| ==> guesses[n] != truth[n])
  }

  /** What is banked of a round is what agrees, and one more. */
  lemma BankedAgreed(guesses: seq<Id>, picks: seq<Id>, round: seq<Id>, n: nat)
    requires |picks| > |guesses| && BankedOf(guesses, picks, round)
    ensures Agreed(guesses, picks, n) <==> |round| == n + 1
  {
    var m := |round| - 1;
    assert picks[..m] == round[..m];
    assert Agreed(guesses, picks, m);
    if Agreed(guesses, picks, n) {
      AgreedOnce(guesses, picks, n, m);
    }
  }

  lemma AgreedOnce(guesses: seq<Id>, truth: seq<Id>, n: nat, m: nat)
    requires Agreed(guesses, truth, n) && Agreed(guesses, truth, m)
    ensures n == m
  {
    forall i | 0 <= i < n
      ensures guesses[i] == truth[i]
    {
      assert guesses[..n][i] == truth[..n][i];
    }
    forall i | 0 <= i < m
      ensures guesses[i] == truth[i]
    {
      assert guesses[..m][i] == truth[..m][i];
    }
  }

  /** How many teacher-forced hits lead at a position, of the first `d` heads. */
  ghost function Run(stack: Stack, hidden: seq<Row>, sequence: seq<Id>, d: nat, i: nat): (run: nat)
    requires d <= |stack.heads| && i < |hidden| && i + d + 2 <= |sequence|
    ensures run <= d && HitsBefore(stack, hidden, sequence, run, i)
    ensures run < d ==> !Hit(stack, hidden, sequence, run, i)
  {
    if d == 0 then 0
    else
      var before := Run(stack, hidden, sequence, d - 1, i);
      if before == d - 1 && Hit(stack, hidden, sequence, d - 1, i) then d else before
  }

  lemma {:induction false} BelievedBegins(stack: Stack, hidden: seq<Row>, sequence: seq<Id>, i: nat, d: nat, e: nat)
    requires e <= d <= |stack.heads| && i < |hidden| && i + 2 <= |sequence|
    ensures Believed(stack, hidden, sequence, i, d)[..i + 2 + e] == Believed(stack, hidden, sequence, i, e)
  {
    if e < d {
      BelievedBegins(stack, hidden, sequence, i, d - 1, e);
      var before, now := Believed(stack, hidden, sequence, i, d - 1), Believed(stack, hidden, sequence, i, d);
      assert now[..i + 2 + e] == before[..i + 2 + e];
    }
  }

  /** The replay counts exactly what a chained round would bank: the guesses of a chain fed its own
    * guesses agree with the sequence for precisely as many heads as lead with teacher-forced hits. */
  lemma ChainBanksTheRun(stack: Stack, hidden: seq<Row>, sequence: seq<Id>, i: nat, d: nat, n: nat)
    requires d <= |stack.heads| && i < |hidden| && i + d + 2 <= |sequence|
    ensures Agreed(ChainGuesses(stack, hidden, sequence, i, d), sequence[i + 2..i + 2 + d], n)
       <==> n == Run(stack, hidden, sequence, d, i)
  {
    var guesses, truth := ChainGuesses(stack, hidden, sequence, i, d), sequence[i + 2..i + 2 + d];
    var run := Run(stack, hidden, sequence, d, i);
    AgreesWhileHit(stack, hidden, sequence, i, d, run);
    if run < d {
      assert !HitsBefore(stack, hidden, sequence, run + 1, i);
      AgreesWhileHit(stack, hidden, sequence, i, d, run + 1);
      assert guesses[..run + 1] == guesses[..run] + [guesses[run]] && truth[..run + 1] == truth[..run] + [truth[run]];
    }
    assert Agreed(guesses, truth, run);
    if Agreed(guesses, truth, n) {
      AgreedOnce(guesses, truth, n, run);
    }
  }

  lemma AgreesWhileHit(stack: Stack, hidden: seq<Row>, sequence: seq<Id>, i: nat, d: nat, e: nat)
    requires e <= d <= |stack.heads| && i < |hidden| && i + d + 2 <= |sequence|
    ensures ChainGuesses(stack, hidden, sequence, i, d)[..e] == sequence[i + 2..i + 2 + d][..e]
       <==> HitsBefore(stack, hidden, sequence, e, i)
  {
    var told, so := Believed(stack, hidden, sequence, i, d), Believed(stack, hidden, sequence, i, e);
    BelievedBegins(stack, hidden, sequence, i, d, e);
    BelievedBegins(stack, hidden, sequence, i, e, 0);
    ReplayIsExact(stack, hidden, sequence, i, e);
    assert told[i + 2..][..e] == so[i + 2..];
    assert sequence[i + 2..i + 2 + d][..e] == sequence[..i + 2 + e][i + 2..];
    assert so == so[..i + 2] + so[i + 2..];
    assert sequence[..i + 2 + e] == sequence[..i + 2] + sequence[..i + 2 + e][i + 2..];
  }

  /** Where `length` of a head's guesses from `start` on are the true token. */
  function HitMask(prediction: seq<Id>, sequence: seq<Id>, d: nat, start: nat, length: nat): (mask: seq<bool>)
    requires length == 0 || (start + length <= |prediction| && |prediction| + d + 2 <= |sequence|)
    ensures |mask| == length
    ensures forall k :: 0 <= k < length ==> mask[k] == (prediction[start + k] == sequence[start + k + d + 2])
  {
    seq(length, k requires 0 <= k < length => prediction[start + k] == sequence[start + k + d + 2])
  }

  /** Every prediction is long enough to be scored on `length` positions from `start` on. */
  ghost predicate Scorable(predictions: seq<seq<Id>>, sequence: seq<Id>, start: nat, length: nat) {
    forall d :: 0 <= d < |predictions| ==>
      length == 0 || (start + length <= |predictions[d]| && |predictions[d]| + d + 2 <= |sequence|)
  }

  /** Per-depth hit masks, over as many positions from `start` on as the shortest prediction reaches. */
  method Accepted(predictions: seq<seq<Id>>, sequence: seq<Id>, start: nat) returns (hits: seq<seq<bool>>, count: nat)
    requires predictions != []
    requires forall d :: 0 <= d < |predictions| ==> |predictions[d]| + d + 2 <= |sequence|
    ensures |hits| == |predictions|
    ensures forall d :: 0 <= d < |predictions| ==> count <= |predictions[d]|
    ensures exists d :: 0 <= d < |predictions| && count == |predictions[d]|
    ensures Scorable(predictions, sequence, start, Past(count, start))
    ensures forall d :: 0 <= d < |hits| ==> hits[d] == HitMask(predictions[d], sequence, d, start, Past(count, start))
  {
    count := |predictions[0]|;
    for d := 1 to |predictions|
      invariant forall e :: 0 <= e < d ==> count <= |predictions[e]|
      invariant exists e :: 0 <= e < d && count == |predictions[e]|
    {
      if |predictions[d]| < count {
        count := |predictions[d]|;
      }
    }
    hits := [];
    var length := Past(count, start);
    assert Scorable(predictions, sequence, start, length);
    for d := 0 to |predictions|
      invariant |hits| == d
      invariant forall e :: 0 <= e < d ==> hits[e] == HitMask(predictions[e], sequence, e, start, length)
    {
      hits := hits + [HitMask(predictions[d], sequence, d, start, length)];
    }
  }

  /** How much of `count` lies past `start`. */
  function Past(count: nat, start: nat): nat {
    if start < count then count - start else 0
  }

  /** Where all of the first `d` depths hit. */
  ghost function Joint(hits: seq<seq<bool>>, d: nat, k: nat): bool
    requires d <= |hits| && forall e :: 0 <= e < |hits| ==> k < |hits[e]|
  {
    forall e :: 0 <= e < d ==> hits[e][k]
  }

  function Count(mask: seq<bool>): (n: nat)
    ensures n <= |mask|
  {
    if mask == [] then 0 else Count(mask[1..]) + if mask[0] then 1 else 0
  }

  function And(a: seq<bool>, b: seq<bool>): (both: seq<bool>)
    requires |a| == |b|
    ensures |both| == |a| && forall k :: 0 <= k < |a| ==> both[k] == (a[k] && b[k])
  {
    seq(|a|, k requires 0 <= k < |a| => a[k] && b[k])
  }

  ghost predicate Even(hits: seq<seq<bool>>, n: nat) {
    forall e :: 0 <= e < |hits| ==> |hits[e]| == n
  }

  ghost function JointMask(hits: seq<seq<bool>>, n: nat, d: nat): (mask: seq<bool>)
    requires Even(hits, n) && d <= |hits|
    ensures |mask| == n && forall k :: 0 <= k < n ==> mask[k] == Joint(hits, d, k)
  {
    seq(n, k requires 0 <= k < n => Joint(hits, d, k))
  }

  /** `part` is the fraction `count` is of `n`. */
  ghost predicate Fraction(part: real, count: nat, n: nat)
    requires n > 0
  {
    part == count as real / n as real
  }

  ghost predicate MarginalAt(hits: seq<seq<bool>>, n: nat, marginal: seq<real>, d: nat)
    requires n > 0
  {
    d < |hits| && d < |marginal| && Fraction(marginal[d], Count(hits[d]), n)
  }

  ghost predicate JointAt(hits: seq<seq<bool>>, n: nat, joint: seq<real>, d: nat)
    requires n > 0 && Even(hits, n)
  {
    d < |hits| && d < |joint| && Fraction(joint[d], Count(JointMask(hits, n, d + 1)), n)
  }

  ghost predicate MarginalsOf(hits: seq<seq<bool>>, n: nat, marginal: seq<real>, upto: nat)
    requires n > 0
  {
    |marginal| == upto && forall d :: 0 <= d < upto ==> MarginalAt(hits, n, marginal, d)
  }

  ghost predicate JointsOf(hits: seq<seq<bool>>, n: nat, joint: seq<real>, upto: nat)
    requires n > 0 && Even(hits, n)
  {
    |joint| == upto && forall d :: 0 <= d < upto ==> JointAt(hits, n, joint, d)
  }

  /** The fraction of positions each depth hits, and the fraction all depths up to it do. */
  method Curves(hits: seq<seq<bool>>, n: nat) returns (marginal: seq<real>, joint: seq<real>)
    requires hits != [] && Even(hits, n) && n > 0
    ensures MarginalsOf(hits, n, marginal, |hits|) && JointsOf(hits, n, joint, |hits|)
  {
    var both := seq(|hits[0]|, _ => true);
    marginal, joint := [], [];
    for d := 0 to |hits|
      invariant |both| == n && both == JointMask(hits, n, d)
      invariant MarginalsOf(hits, n, marginal, d) && JointsOf(hits, n, joint, d)
    {
      both := And(both, hits[d]);
      assert both == JointMask(hits, n, d + 1);
      var own, all := Count(hits[d]) as real / n as real, Count(both) as real / n as real;
      CurvesMore(hits, n, marginal, joint, d, own, all);
      marginal, joint := marginal + [own], joint + [all];
    }
  }

  lemma CurvesMore(hits: seq<seq<bool>>, n: nat, marginal: seq<real>, joint: seq<real>, d: nat, own: real, all: real)
    requires n > 0 && Even(hits, n) && d < |hits|
    requires MarginalsOf(hits, n, marginal, d) && JointsOf(hits, n, joint, d)
    requires Fraction(own, Count(hits[d]), n) && Fraction(all, Count(JointMask(hits, n, d + 1)), n)
    ensures MarginalsOf(hits, n, marginal + [own], d + 1) && JointsOf(hits, n, joint + [all], d + 1)
  {
    var owns, alls := marginal + [own], joint + [all];
    forall e | 0 <= e < d + 1
      ensures MarginalAt(hits, n, owns, e) && JointAt(hits, n, alls, e)
    {
      if e < d {
        assert MarginalAt(hits, n, marginal, e) && JointAt(hits, n, joint, e);
        assert owns[e] == marginal[e] && alls[e] == joint[e];
      }
    }
  }

  /** How many depths lead with hits at `k`. */
  ghost function Leading(hits: seq<seq<bool>>, n: nat, d: nat, k: nat): (run: nat)
    requires Even(hits, n) && d <= |hits| && k < n
    ensures run <= d && Joint(hits, run, k) && (run < d ==> !hits[run][k])
  {
    if d == 0 then 0
    else
      var before := Leading(hits, n, d - 1, k);
      if before == d - 1 && hits[d - 1][k] then d else before
  }

  ghost function JointSum(hits: seq<seq<bool>>, n: nat, d: nat): nat
    requires Even(hits, n) && d <= |hits|
  {
    if d == 0 then 0 else JointSum(hits, n, d - 1) + Count(JointMask(hits, n, d))
  }

  ghost function RunSum(hits: seq<seq<bool>>, n: nat, d: nat, k: nat): nat
    requires Even(hits, n) && d <= |hits| && k <= n
  {
    if k == 0 then 0 else RunSum(hits, n, d, k - 1) + Leading(hits, n, d, k - 1)
  }

  lemma {:induction false} CountPush(mask: seq<bool>, more: bool)
    ensures Count(mask + [more]) == Count(mask) + if more then 1 else 0
  {
    if mask == [] {
      assert mask + [more] == [more];
    } else {
      CountPush(mask[1..], more);
      assert (mask + [more])[1..] == mask[1..] + [more];
    }
  }

  /** One more depth adds one to every position whose run reaches it. */
  lemma {:induction false} RunsReach(hits: seq<seq<bool>>, n: nat, d: nat, k: nat)
    requires Even(hits, n) && 0 < d <= |hits| && k <= n
    ensures RunSum(hits, n, d, k) == RunSum(hits, n, d - 1, k) + Count(JointMask(hits, n, d)[..k])
  {
    if k > 0 {
      RunsReach(hits, n, d, k - 1);
      var mask := JointMask(hits, n, d);
      assert mask[..k] == mask[..k - 1] + [mask[k - 1]];
      CountPush(mask[..k - 1], mask[k - 1]);
      assert mask[k - 1] <==> Leading(hits, n, d, k - 1) == d;
    }
  }

  /** The joint counts over depths add up to what the rounds would bank over positions. */
  lemma {:induction false} JointsAreRuns(hits: seq<seq<bool>>, n: nat, d: nat)
    requires Even(hits, n) && d <= |hits|
    ensures JointSum(hits, n, d) == RunSum(hits, n, d, n)
  {
    if d == 0 {
      NoRuns(hits, n, n);
    } else {
      JointsAreRuns(hits, n, d - 1);
      RunsReach(hits, n, d, n);
      assert JointMask(hits, n, d)[..n] == JointMask(hits, n, d);
    }
  }

  lemma {:induction false} NoRuns(hits: seq<seq<bool>>, n: nat, k: nat)
    requires Even(hits, n) && k <= n
    ensures RunSum(hits, n, 0, k) == 0
  {
    if k > 0 {
      NoRuns(hits, n, k - 1);
    }
  }

  /** Read off the replay's own masks, the run that leads at a position is what a chain started there
    * would have banked. */
  lemma {:induction false} MaskRun(stack: Stack, hidden: seq<Row>, sequence: seq<Id>, hits: seq<seq<bool>>, n: nat,
                                   d: nat, i: nat, k: nat)
    requires Even(hits, n) && d <= |hits| <= |stack.heads| && k < n
    requires i < |hidden| && i + |hits| + 2 <= |sequence|
    requires forall e :: 0 <= e < |hits| ==> hits[e][k] == Hit(stack, hidden, sequence, e, i)
    ensures Leading(hits, n, d, k) == Run(stack, hidden, sequence, d, i)
  {
    if d > 0 {
      MaskRun(stack, hidden, sequence, hits, n, d - 1, i, k);
    }
  }

  /** Banking a chain's guesses at `i` against the tokens there are, and any one after them, produces
    * `run` of them and one more token. */
  ghost predicate Banks(stack: Stack, hidden: seq<Row>, sequence: seq<Id>, i: nat, d: nat, run: nat)
    requires d <= |stack.heads| && i < |hidden| && i + d + 2 <= |sequence|
  {
    forall next: Id, round: seq<Id> ::
      BankedOf(ChainGuesses(stack, hidden, sequence, i, d), sequence[i + 2..i + 2 + d] + [next], round) ==>
        |round| == run + 1
  }

  lemma RunIsBanked(stack: Stack, hidden: seq<Row>, sequence: seq<Id>, i: nat, d: nat)
    requires d <= |stack.heads| && i < |hidden| && i + d + 2 <= |sequence|
    ensures Banks(stack, hidden, sequence, i, d, Run(stack, hidden, sequence, d, i))
  {
    var guesses, truth, run := ChainGuesses(stack, hidden, sequence, i, d), sequence[i + 2..i + 2 + d],
        Run(stack, hidden, sequence, d, i);
    ChainBanksTheRun(stack, hidden, sequence, i, d, run);
    forall next: Id, round: seq<Id> | BankedOf(guesses, truth + [next], round)
      ensures |round| == run + 1
    {
      AgreedLonger(guesses, truth, next, run);
      BankedAgreed(guesses, truth + [next], round, run);
    }
  }

  lemma AgreedLonger(guesses: seq<Id>, truth: seq<Id>, next: Id, n: nat)
    requires |guesses| == |truth| && Agreed(guesses, truth, n)
    ensures Agreed(guesses, truth + [next], n)
  {
    assert (truth + [next])[..n] == truth[..n];
  }

  function Sum(xs: seq<real>): real {
    if xs == [] then 0.0 else Sum(xs[..|xs| - 1]) + xs[|xs| - 1]
  }

  /** `sum` comes to `total` over `n` positions. */
  ghost predicate Scales(sum: real, total: nat, n: nat) {
    sum * n as real == total as real
  }

  lemma FractionScales(part: real, count: nat, n: nat)
    requires n > 0 && Fraction(part, count, n)
    ensures Scales(part, count, n)
  {
  }

  lemma ScalesAdd(a: real, x: nat, b: real, y: nat, n: nat)
    requires Scales(a, x, n) && Scales(b, y, n)
    ensures Scales(a + b, x + y, n)
  {
  }

  /** The joint fractions of the first `d` depths add up to their joint counts over the positions. */
  lemma {:induction false} JointFractions(hits: seq<seq<bool>>, n: nat, joint: seq<real>, d: nat)
    requires Even(hits, n) && n > 0 && d <= |hits| && JointsOf(hits, n, joint, |hits|)
    ensures Scales(Sum(joint[..d]), JointSum(hits, n, d), n)
  {
    if d > 0 {
      JointFractions(hits, n, joint, d - 1);
      var before, last, count := joint[..d - 1], joint[d - 1], Count(JointMask(hits, n, d));
      assert JointAt(hits, n, joint, d - 1);
      FractionScales(last, count, n);
      ScalesAdd(Sum(before), JointSum(hits, n, d - 1), last, count, n);
      assert joint[..d] == before + [last];
      SumPush(before, last);
    }
  }

  lemma SumPush(xs: seq<real>, x: real)
    ensures Sum(xs + [x]) == Sum(xs) + x
  {
    assert (xs + [x])[..|xs|] == xs;
  }

  /** The curves of a measurement, and the tokens a round is expected to come to: one, and a guess for
    * every depth that is jointly hit. */
  method Report(hits: seq<seq<bool>>, n: nat) returns (marginal: seq<real>, joint: seq<real>, tokens: real)
    requires hits != [] && Even(hits, n) && n > 0
    ensures MarginalsOf(hits, n, marginal, |hits|) && JointsOf(hits, n, joint, |hits|)
    ensures Scales(tokens, n + RunSum(hits, n, |hits|, n), n)
  {
    marginal, joint := Curves(hits, n);
    var guessed := Sum(joint);
    tokens := 1.0 + guessed;
    JointFractions(hits, n, joint, |hits|);
    assert joint[..|hits|] == joint;
    JointsAreRuns(hits, n, |hits|);
    assert Scales(1.0, n, n);
    ScalesAdd(1.0, n, guessed, RunSum(hits, n, |hits|, n), n);
  }

  /** The whole measurement: every head replayed once and scored, and the tokens a round is expected to
    * come to.  Over its positions that expectation adds up to exactly the tokens that rounds chained at
    * each of them would have banked. */
  method Measure(stack: Stack, sequence: seq<Id>, hidden: seq<Row>, depths: nat, start: nat)
    returns (hits: seq<seq<bool>>, n: nat, marginal: seq<real>, joint: seq<real>, tokens: real)
    requires |hidden| + 1 >= |sequence| >= 3 && stack.heads != []
    ensures 0 < |hits| == Depths(|stack.heads|, depths, |sequence|) && Even(hits, n)
    ensures n == Past(|sequence| - |hits| - 1, start)
    ensures AllScored(stack, hidden, sequence, hits, start, n)
    ensures n > 0 ==> MarginalsOf(hits, n, marginal, |hits|) && JointsOf(hits, n, joint, |hits|)
    ensures n > 0 ==> Scales(tokens, n + RunSum(hits, n, |hits|, n), n)
    ensures AllBanked(stack, hidden, sequence, hits, start, n)
  {
    var predictions := Predictions(stack, sequence, hidden, depths);
    var count;
    hits, count := Accepted(predictions, sequence, start);
    n := Past(count, start);
    CountIs(predictions, |sequence|, count);
    AllScores(stack, hidden, sequence, predictions, hits, start, n);
    RunsBanked(stack, hidden, sequence, hits, start, n);
    marginal, joint, tokens := [], [], 0.0;
    if n > 0 {
      marginal, joint, tokens := Report(hits, n);
    }
  }

  /** A mask says of depth `e` at its `k`th position what that head's own guess there comes to. */
  ghost predicate ScoredAt(stack: Stack, hidden: seq<Row>, sequence: seq<Id>, hits: seq<seq<bool>>, start: nat, e: nat,
                           k: nat)
  {
    && e < |hits| && e < |stack.heads| && k < |hits[e]| && start + k < |hidden| && start + k + e + 3 <= |sequence|
    && hits[e][k] == Hit(stack, hidden, sequence, e, start + k)
  }

  ghost predicate AllScored(stack: Stack, hidden: seq<Row>, sequence: seq<Id>, hits: seq<seq<bool>>, start: nat,
                            n: nat) {
    forall e, k :: 0 <= e < |hits| && 0 <= k < n ==> ScoredAt(stack, hidden, sequence, hits, start, e, k)
  }

  /** At every position a round chained there banks what leads there, and one more token. */
  ghost predicate AllBanked(stack: Stack, hidden: seq<Row>, sequence: seq<Id>, hits: seq<seq<bool>>, start: nat, n: nat)
    requires Even(hits, n)
  {
    forall k :: 0 <= k < n ==> BankedAt(stack, hidden, sequence, hits, n, start, k)
  }

  ghost predicate BankedAt(stack: Stack, hidden: seq<Row>, sequence: seq<Id>, hits: seq<seq<bool>>, n: nat, start: nat,
                           k: nat)
    requires Even(hits, n)
  {
    var i := start + k;
    && k < n && i < |hidden| && |hits| <= |stack.heads| && i + |hits| + 2 <= |sequence|
    && Banks(stack, hidden, sequence, i, |hits|, Leading(hits, n, |hits|, k))
  }

  /** The last depth is scored on the fewest positions. */
  lemma CountIs(predictions: seq<seq<Id>>, length: nat, count: nat)
    requires predictions != []
    requires forall d :: 0 <= d < |predictions| ==> count <= |predictions[d]| == length - d - 2
    requires exists d :: 0 <= d < |predictions| && count == |predictions[d]|
    ensures count == length - |predictions| - 1
  {
    var d :| 0 <= d < |predictions| && count == |predictions[d]|;
    assert count <= |predictions[|predictions| - 1]|;
  }

  lemma AllScores(stack: Stack, hidden: seq<Row>, sequence: seq<Id>, predictions: seq<seq<Id>>, hits: seq<seq<bool>>,
                  start: nat, n: nat)
    requires |hidden| + 1 >= |sequence| && |hits| == |predictions| <= |stack.heads|
    requires Scorable(predictions, sequence, start, n)
    requires forall d :: 0 <= d < |predictions| ==>
      && |predictions[d]| == |sequence| - d - 2
      && forall i :: 0 <= i < |predictions[d]| ==> predictions[d][i] == Guess(stack, hidden, sequence, d, i)
    requires forall d :: 0 <= d < |hits| ==> hits[d] == HitMask(predictions[d], sequence, d, start, n)
    ensures AllScored(stack, hidden, sequence, hits, start, n)
  {
    forall e, k | 0 <= e < |hits| && 0 <= k < n
      ensures ScoredAt(stack, hidden, sequence, hits, start, e, k)
    {
      assert start + n <= |predictions[e]|;
      assert predictions[e][start + k] == Guess(stack, hidden, sequence, e, start + k);
    }
  }

  lemma RunsBanked(stack: Stack, hidden: seq<Row>, sequence: seq<Id>, hits: seq<seq<bool>>, start: nat, n: nat)
    requires hits != [] && Even(hits, n) && AllScored(stack, hidden, sequence, hits, start, n)
    ensures AllBanked(stack, hidden, sequence, hits, start, n)
  {
    forall k | 0 <= k < n
      ensures BankedAt(stack, hidden, sequence, hits, n, start, k)
    {
      RunBankedAt(stack, hidden, sequence, hits, start, n, k);
    }
  }

  lemma RunBankedAt(stack: Stack, hidden: seq<Row>, sequence: seq<Id>, hits: seq<seq<bool>>, start: nat, n: nat, k: nat)
    requires hits != [] && Even(hits, n) && AllScored(stack, hidden, sequence, hits, start, n) && k < n
    ensures BankedAt(stack, hidden, sequence, hits, n, start, k)
  {
    var i, last := start + k, |hits| - 1;
    assert ScoredAt(stack, hidden, sequence, hits, start, last, k);
    forall e | 0 <= e < |hits|
      ensures hits[e][k] == Hit(stack, hidden, sequence, e, i)
    {
      assert ScoredAt(stack, hidden, sequence, hits, start, e, k);
    }
    MaskRun(stack, hidden, sequence, hits, n, |hits|, i, k);
    RunIsBanked(stack, hidden, sequence, i, |hits|);
  }
}
