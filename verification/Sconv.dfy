/** The short causal convolution, and the rewindable window it reads.
  *
  * A layer runs four of these.  Each carries the last `kernelSize - 1` inputs
  * between calls, plus `slack` older ones so that a rejected token can be
  * taken back out again.
  */
module Sconv {
  import opened Buffers
  import opened Ops

  /** A short convolution: `kernelSize` weights for each channel, applied to a row and those before it, the
    * row itself added back. */
  datatype ShortConv = ShortConv(channels: nat, kernelSize: nat, weight: seq<real>) {
    ghost predicate Valid() {
      channels > 0 && kernelSize > 0 && |weight| == channels * kernelSize
    }

    /** Tap `k` of channel `c`. */
    function Tap(c: nat, k: nat): real
      requires Valid() && c < channels && k < kernelSize
    {
      assert c * kernelSize + k < channels * kernelSize by {
        assert (c + 1) * kernelSize <= channels * kernelSize;
      }
      weight[c * kernelSize + k]
    }

    /** The first `n` taps of channel `c` over the window ending at timestep `t`. */
    ghost function Taps(xs: seq<Row>, t: nat, c: nat, n: nat): real
      requires Valid() && Wide(xs, channels) && t < |xs| && c < channels && n <= kernelSize
    {
      if n == 0 then 0.0
      else Taps(xs, t, c, n - 1) + Tap(c, n - 1) * Past(xs, channels, t + n - kernelSize)[c]
    }

    /** What the convolution answers for timestep `t` of a sequence: causal, and stated over
      * the sequence alone. */
    ghost function Answer(xs: seq<Row>, t: nat): (row: Row)
      requires Valid() && Wide(xs, channels) && t < |xs|
      ensures |row| == channels
    {
      seq(channels, c requires 0 <= c < channels => Taps(xs, t, c, kernelSize) + xs[t][c])
    }

    /** The answers of a call whose own rows are `ys`, which the convolution is shown as `shown` after `xs`. */
    ghost function Beside(xs: seq<Row>, shown: seq<Row>, ys: seq<Row>): (rows: seq<Row>)
      requires Valid() && Wide(xs, channels) && Wide(shown, channels) && Wide(ys, channels) && |shown| == |ys|
      ensures |rows| == |ys| && Wide(rows, channels)
      ensures forall t :: 0 <= t < |ys| ==> rows[t] == BesideAt(xs + shown, |xs| + t, ys[t])
    {
      seq(|ys|, t requires 0 <= t < |ys| => BesideAt(xs + shown, |xs| + t, ys[t]))
    }

    ghost function BesideAt(all: seq<Row>, t: nat, own: Row): (row: Row)
      requires Valid() && Wide(all, channels) && t < |all| && |own| == channels
      ensures |row| == channels
    {
      seq(channels, c requires 0 <= c < channels => Taps(all, t, c, kernelSize) + own[c])
    }

    /** The answers to a whole sequence, kept behind a key. */
    ghost function Answers(xs: seq<Row>): (rows: seq<Row>)
      requires Valid() && Wide(xs, channels)
      ensures |rows| == |xs| && Wide(rows, channels)
    {
      assert Answered(xs, seq(|xs|, t requires 0 <= t < |xs| => Answer(xs, t)));
      var rows :| Answered(xs, rows);
      rows
    }

    ghost predicate Answered(xs: seq<Row>, rows: seq<Row>)
      requires Valid() && Wide(xs, channels)
    {
      && |rows| == |xs| && Wide(rows, channels)
      && forall key {:trigger WindowKey(key)} :: WindowKey(key) ==>
           forall t :: 0 <= t < |xs| ==> rows[t] == Answer(xs, t)
    }
  }

  /** What the convolution is shown of rows some of which are padding: zeros for those. */
  ghost function Shown(ys: seq<Row>, mask: Option<seq<bool>>, width: nat): (rows: seq<Row>)
    requires Wide(ys, width) && (mask.Some? ==> |mask.value| == |ys|)
    ensures |rows| == |ys| && Wide(rows, width)
  {
    if mask.None? then ys
    else seq(|ys|, t requires 0 <= t < |ys| => if mask.value[t] then ys[t] else seq(width, _ => 0.0))
  }

  /** Timestep `t` of a sequence, which before its start is the zero padding. */
  ghost function Past(xs: seq<Row>, width: nat, t: int): (row: Row)
    requires Wide(xs, width) && t < |xs|
    ensures |row| == width
  {
    if t < 0 then seq(width, _ => 0.0) else xs[t]
  }

  /** What follows a timestep cannot reach it. */
  lemma {:induction false} TapsCausal(conv: ShortConv, xs: seq<Row>, ys: seq<Row>, t: nat, c: nat, n: nat)
    requires conv.Valid() && Wide(xs, conv.channels) && Wide(xs + ys, conv.channels)
    requires t < |xs| && c < conv.channels && n <= conv.kernelSize
    ensures conv.Taps(xs + ys, t, c, n) == conv.Taps(xs, t, c, n)
  {
    if n > 0 {
      TapsCausal(conv, xs, ys, t, c, n - 1);
    }
  }

  lemma AnswersCausal(conv: ShortConv, xs: seq<Row>, ys: seq<Row>)
    requires conv.Valid() && Wide(xs, conv.channels) && Wide(xs + ys, conv.channels)
    ensures conv.Answers(xs + ys)[..|xs|] == conv.Answers(xs)
  {
    assert WindowKey(0);
    forall t | 0 <= t < |xs|
      ensures conv.Answer(xs + ys, t) == conv.Answer(xs, t)
    {
      forall c | 0 <= c < conv.channels
        ensures conv.Answer(xs + ys, t)[c] == conv.Answer(xs, t)[c]
      {
        TapsCausal(conv, xs, ys, t, c, conv.kernelSize);
      }
    }
  }

  /** The dimensions of a window, apart from its contents: its width, the slack before it, and how many of its
    * rows are ones it was given. */
  datatype Held = Held(channels: nat, window: nat, slack: nat, kept: nat) {
    ghost predicate Valid() {
      channels > 0 && window <= kept <= window + slack
    }

    function Rows(): nat { window + slack }

    function Floats(): nat { Rows() * channels }

    /** The offset of the convolution's own window in the held vector, past the slack. */
    function Reading(): nat { slack * channels }

    function Rewindable(): nat
      requires Valid()
    {
      kept - window
    }

    function Advanced(rows: nat): Held {
      this.(kept := if kept + rows <= Rows() then kept + rows else Rows())
    }
  }

  /** A copy of a window's dimensions and rows, taken at some sequence. */
  datatype ConvMark = ConvMark(held: Held, timesteps: seq<real>)

  /** A key to `Windowed`: the definition behind it is there for a proof that names a key, and is
    * one fact to every other.  What it says is the same either way. */
  ghost predicate WindowKey(key: nat) { true }

  /** `timesteps` are the rows of a window standing at the end of `xs`: the rows that are
    * still the sequence's own are its last inputs, and the front may hold anything. */
  ghost predicate Windowed(held: Held, timesteps: seq<real>, xs: seq<Row>) {
    && held.Valid()
    && Wide(xs, held.channels)
    && forall key {:trigger WindowKey(key)} :: WindowKey(key) ==> WindowRows(held, timesteps, xs)
  }

  ghost predicate WindowRows(held: Held, timesteps: seq<real>, xs: seq<Row>)
    requires held.Valid() && Wide(xs, held.channels)
  {
    var rows := Chunks(timesteps, held.channels);
    timesteps == Flat(rows) && Recent(held, rows, xs)
  }

  /** The same, over the rows themselves. */
  ghost predicate Recent(held: Held, rows: seq<Row>, xs: seq<Row>)
    requires Wide(xs, held.channels)
  {
    && |rows| == held.Rows()
    && forall i :: 0 <= held.Rows() - held.kept <= i < held.Rows() ==>
         rows[i] == Past(xs, held.channels, |xs| - held.Rows() + i)
  }

  lemma WindowOf(held: Held, rows: seq<Row>, xs: seq<Row>)
    requires held.Valid() && Wide(xs, held.channels) && Wide(rows, held.channels)
    requires Recent(held, rows, xs)
    ensures Windowed(held, Flat(rows), xs)
    ensures |Flat(rows)| == held.Floats()
  {
    ChunksOfFlat(rows, held.channels);
    FlatLength(rows, held.channels);
    assert WindowKey(0);
  }

  /** What the convolution reads of a window: its last rows, whatever lies in front of them. */
  lemma WindowRead(held: Held, timesteps: seq<real>, xs: seq<Row>) returns (rows: seq<Row>)
    requires Windowed(held, timesteps, xs)
    ensures held.Reading() <= |timesteps| && timesteps[held.Reading()..] == Flat(rows)
    ensures |rows| == held.window
    ensures forall i :: 0 <= i < held.window ==> rows[i] == Past(xs, held.channels, |xs| - held.window + i)
  {
    assert WindowKey(0);
    var all := Chunks(timesteps, held.channels);
    rows := all[held.slack..];
    FlatDrop(all, held.channels, held.slack);
  }

  /** Two windows at the end of one sequence read alike, however each came to be there. */
  lemma WindowsAlike(a: Held, one: seq<real>, b: Held, other: seq<real>, xs: seq<Row>)
    requires Windowed(a, one, xs) && Windowed(b, other, xs) && a.channels == b.channels && a.window == b.window
    ensures a.Reading() <= |one| && b.Reading() <= |other| && one[a.Reading()..] == other[b.Reading()..]
  {
    var rows := WindowRead(a, one, xs);
    var same := WindowRead(b, other, xs);
    assert rows == same;
  }

  /** A sequence without its last `rows` rows, and nothing of one that has no more. */
  ghost function Without(xs: seq<Row>, rows: nat): (left: seq<Row>)
    ensures left <= xs
  {
    if rows <= |xs| then xs[..|xs| - rows] else []
  }

  /** Shifting the rows along by `r` leaves the window the sequence had `r` inputs ago. */
  lemma ShiftedWindow(held: Held, timesteps: seq<real>, xs: seq<Row>, r: nat)
    requires Windowed(held, timesteps, xs) && r <= held.Rewindable()
    ensures 0 <= r * held.channels <= held.Floats() == |timesteps|
    ensures Windowed(held.(kept := held.kept - r),
                     timesteps[..r * held.channels] + timesteps[..held.Floats() - r * held.channels],
                     Without(xs, r))
  {
    assert WindowKey(0);
    var rows := Chunks(timesteps, held.channels);
    var left := held.Rows() - r;
    var shifted := rows[..r] + rows[..left];
    ShiftedRecent(held, rows, xs, r, shifted);
    WindowOf(held.(kept := held.kept - r), shifted, Without(xs, r));
    ShiftedFloats(rows, held.channels, r);
  }

  /** Rows shifted along are those of the shorter sequence, which before its start are the padding. */
  lemma ShiftedRecent(held: Held, rows: seq<Row>, xs: seq<Row>, r: nat, shifted: seq<Row>)
    requires held.Valid() && r <= held.Rewindable() && Wide(xs, held.channels) && Recent(held, rows, xs)
    requires shifted == rows[..r] + rows[..held.Rows() - r]
    ensures Recent(held.(kept := held.kept - r), shifted, Without(xs, r))
  {
    var left, n := Without(xs, r), held.Rows();
    forall i | n - held.kept + r <= i < n
      ensures shifted[i] == Past(left, held.channels, |left| - n + i)
    {
      assert shifted[i] == rows[i - r] == Past(xs, held.channels, |xs| - n + (i - r));
    }
  }

  lemma ShiftedFloats(rows: seq<Row>, width: nat, r: nat)
    requires Wide(rows, width) && r <= |rows|
    ensures 0 <= r * width <= |rows| * width == |Flat(rows)|
    ensures Flat(rows)[..r * width] + Flat(rows)[..|rows| * width - r * width]
         == Flat(rows[..r] + rows[..|rows| - r])
  {
    var left := |rows| - r;
    var n := left * width;
    FlatLength(rows, width);
    FlatTake(rows, width, r);
    FlatTake(rows, width, left);
    Distributes(|rows|, r, width);
    assert |rows| * width - r * width == n;
    FlatAppend(rows[..r], rows[..left]);
  }

  lemma Distributes(n: nat, r: nat, width: nat)
    requires r <= n
    ensures n * width - r * width == (n - r) * width
  {
  }

  /** A zeroed buffer is the window of a sequence that has not begun. */
  lemma Blank(held: Held, zeros: seq<real>)
    requires held.Valid() && zeros == seq(held.Floats(), _ => 0.0)
    ensures Windowed(held, zeros, [])
  {
    FlatOfChunks(zeros, held.channels, held.Rows());
    var rows := Chunks(zeros, held.channels);
    forall i | 0 <= i < held.Rows()
      ensures rows[i] == Past([], held.channels, i - held.Rows())
    {
      FlatRow(rows, held.channels, i);
    }
  }

  class ConvState {
    var held: Held
    var history: seq<real>

    ghost predicate Holds(xs: seq<Row>)
      reads this
    {
      Windowed(held, history, xs)
    }

    /** The state a sequence starts from: zeroed timesteps, `slack` of them further back than
      * the convolution reads. */
    constructor (channels: nat, kernelSize: nat, slack: nat)
      requires channels > 0 && kernelSize > 0
      ensures held == Held(channels, kernelSize - 1, slack, kernelSize - 1 + slack)
      ensures Holds([])
    {
      held := Held(channels, kernelSize - 1, slack, kernelSize - 1 + slack);
      history := seq((kernelSize - 1 + slack) * channels, _ => 0.0);
      new;
      Blank(held, history);
    }

    /** Afterwards this holds the sequence without its last `rows` rows, or nothing of one that has no more;
      * as many rows at the front no longer mean anything. */
    method Rewind(rows: nat, ghost xs: seq<Row>)
      requires Holds(xs) && rows <= held.Rewindable()
      modifies this
      ensures Holds(Without(xs, rows))
      ensures held == old(held).(kept := old(held).kept - rows)
    {
      ShiftedWindow(held, history, xs, rows);
      history := history[..rows * held.channels] + history[..held.Floats() - rows * held.channels];
      held := held.(kept := held.kept - rows);
    }

    method Mark(ghost xs: seq<Row>) returns (mark: ConvMark)
      requires Holds(xs)
      ensures Windowed(mark.held, mark.timesteps, xs)
      ensures mark.held == held
    {
      mark := ConvMark(held, history);
    }

    /** The rows of the marked sequence again, for any rows held in between. */
    method Resume(mark: ConvMark, ghost xs: seq<Row>)
      requires Windowed(mark.held, mark.timesteps, xs)
      requires mark.held.channels == held.channels && mark.held.Floats() == held.Floats()
      modifies this
      ensures Holds(xs) && held == mark.held
    {
      held := mark.held;
      history := mark.timesteps;
    }
  }

  /** The first `n` taps of channel `c` over the rows `t..` of a padded buffer. */
  ghost function PaddedTaps(conv: ShortConv, pad: seq<Row>, t: nat, c: nat, n: nat): real
    requires conv.Valid() && Wide(pad, conv.channels)
    requires c < conv.channels && n <= conv.kernelSize && t + n <= |pad|
  {
    if n == 0 then 0.0 else PaddedTaps(conv, pad, t, c, n - 1) + conv.Tap(c, n - 1) * pad[t + n - 1][c]
  }

  ghost function PaddedRow(conv: ShortConv, pad: seq<Row>, t: nat): (row: Row)
    requires conv.Valid() && Wide(pad, conv.channels) && t + conv.kernelSize <= |pad|
    ensures |row| == conv.channels
  {
    seq(conv.channels, c requires 0 <= c < conv.channels => PaddedTaps(conv, pad, t, c, conv.kernelSize))
  }

  /** The first `k` taps of every channel, over the rows from `t`. */
  ghost predicate TapsUpTo(conv: ShortConv, pad: seq<Row>, t: nat, k: nat, row: Row)
    requires conv.Valid() && Wide(pad, conv.channels) && k <= conv.kernelSize && t + k <= |pad|
  {
    |row| == conv.channels && forall c :: 0 <= c < conv.channels ==> row[c] == PaddedTaps(conv, pad, t, c, k)
  }

  /** One more tap of every channel, over one row of the window. */
  method AddTap(conv: ShortConv, window: Row, before: Row, k: nat, ghost pad: seq<Row>, ghost t: nat) returns (row: Row)
    requires conv.Valid() && Wide(pad, conv.channels) && k < conv.kernelSize && t + k < |pad|
    requires TapsUpTo(conv, pad, t, k, before) && window == pad[t + k]
    ensures TapsUpTo(conv, pad, t, k + 1, row)
  {
    row := before;
    for c := 0 to conv.channels
      invariant |row| == conv.channels
      invariant forall d :: 0 <= d < c ==> row[d] == PaddedTaps(conv, pad, t, d, k + 1)
      invariant forall d :: c <= d < conv.channels ==> row[d] == before[d]
    {
      row := row[c := row[c] + conv.Tap(c, k) * window[c]];
    }
  }

  /** The convolution of one row, without the row itself: the outer loop is over taps, and each adds its share
    * to every channel. */
  method ConvolveRow(conv: ShortConv, padded: seq<real>, t: nat, ghost pad: seq<Row>) returns (row: Row)
    requires conv.Valid() && Wide(pad, conv.channels) && padded == Flat(pad)
    requires t + conv.kernelSize <= |pad|
    ensures row == PaddedRow(conv, pad, t)
  {
    row := seq(conv.channels, _ => 0.0);
    for k := 0 to conv.kernelSize
      invariant TapsUpTo(conv, pad, t, k, row)
    {
      FlatRow(pad, conv.channels, t + k);
      row := AddTap(conv, padded[(t + k) * conv.channels..(t + k) * conv.channels + conv.channels], row, k, pad, t);
    }
  }

  ghost function PaddedRows(conv: ShortConv, pad: seq<Row>, rows: nat): (answers: seq<Row>)
    requires conv.Valid() && Wide(pad, conv.channels) && |pad| == rows + conv.kernelSize - 1
    ensures |answers| == rows && Wide(answers, conv.channels)
    ensures forall t :: 0 <= t < rows ==> answers[t] == PaddedRow(conv, pad, t)
  {
    seq(rows, t requires 0 <= t < rows => PaddedRow(conv, pad, t))
  }

  /** The convolution alone, without the residual. */
  method Convolve(conv: ShortConv, padded: seq<real>, rows: nat, ghost pad: seq<Row>) returns (out: seq<real>)
    requires conv.Valid() && Wide(pad, conv.channels) && padded == Flat(pad)
    requires |pad| == rows + conv.kernelSize - 1
    ensures out == Flat(PaddedRows(conv, pad, rows))
  {
    ghost var answers := PaddedRows(conv, pad, rows);
    out := [];
    for t := 0 to rows
      invariant out == Flat(answers[..t])
    {
      var row := ConvolveRow(conv, padded, t, pad);
      RunAt(answers, t);
      out := out + row;
    }
    assert answers[..rows] == answers;
  }

  /** The rows a state holds followed by the new inputs are the true sequence around them, past
    * whatever a rewind left at the front. */
  lemma HeldThenInputs(held: Held, rows: seq<Row>, xs: seq<Row>, ys: seq<Row>, i: nat)
    requires held.Valid() && Wide(xs, held.channels) && Wide(ys, held.channels) && Wide(rows, held.channels)
    requires Recent(held, rows, xs)
    requires held.Rows() - held.kept <= i < held.Rows() + |ys|
    ensures (rows + ys)[i] == Past(xs + ys, held.channels, |xs| - held.Rows() + i)
  {
  }

  /** The buffer the convolution reads: nothing at the front of the state is in it. */
  lemma WindowThenInputs(held: Held, timesteps: seq<real>, xs: seq<Row>, ys: seq<Row>) returns (pad: seq<Row>)
    requires Windowed(held, timesteps, xs) && Wide(ys, held.channels)
    ensures |pad| == held.window + |ys| && Wide(pad, held.channels)
    ensures held.Reading() <= |timesteps + Flat(ys)|
    ensures (timesteps + Flat(ys))[held.Reading()..] == Flat(pad)
    ensures forall i :: 0 <= i < |pad| ==> pad[i] == Past(xs + ys, held.channels, |xs| - held.window + i)
  {
    assert WindowKey(0);
    var all := Chunks(timesteps, held.channels) + ys;
    pad := all[held.slack..];
    FlatAppend(Chunks(timesteps, held.channels), ys);
    FlatDrop(all, held.channels, held.slack);
    forall i | 0 <= i < |pad|
      ensures pad[i] == Past(xs + ys, held.channels, |xs| - held.window + i)
    {
      HeldThenInputs(held, Chunks(timesteps, held.channels), xs, ys, held.slack + i);
    }
  }

  /** The tail a call leaves behind is the window after the new inputs. */
  lemma TailIsWindow(held: Held, timesteps: seq<real>, xs: seq<Row>, ys: seq<Row>)
    requires Windowed(held, timesteps, xs) && Wide(ys, held.channels)
    ensures Windowed(held.Advanced(|ys|), (timesteps + Flat(ys))[|Flat(ys)|..], xs + ys)
  {
    assert WindowKey(0);
    var rows := Chunks(timesteps, held.channels);
    var tail := (rows + ys)[|ys|..];
    TailRows(rows, ys, held.channels);
    RecentTail(held, rows, xs, ys, tail);
    WindowOf(held.Advanced(|ys|), tail, xs + ys);
  }

  lemma RecentTail(held: Held, rows: seq<Row>, xs: seq<Row>, ys: seq<Row>, tail: seq<Row>)
    requires held.Valid() && Wide(xs, held.channels) && Wide(ys, held.channels) && Wide(rows, held.channels)
    requires Recent(held, rows, xs) && tail == (rows + ys)[|ys|..]
    ensures Recent(held.Advanced(|ys|), tail, xs + ys) && Wide(tail, held.channels)
  {
    var after, all := held.Advanced(|ys|), rows + ys;
    forall i | held.Rows() - after.kept <= i < held.Rows()
      ensures tail[i] == Past(xs + ys, held.channels, |xs + ys| - held.Rows() + i)
    {
      assert tail[i] == all[|ys| + i];
      HeldThenInputs(held, rows, xs, ys, |ys| + i);
    }
  }

  lemma TailRows(rows: seq<Row>, ys: seq<Row>, width: nat)
    requires Wide(rows, width) && Wide(ys, width)
    ensures |Flat(ys)| <= |Flat(rows) + Flat(ys)|
    ensures (Flat(rows) + Flat(ys))[|Flat(ys)|..] == Flat((rows + ys)[|ys|..])
  {
    FlatAppend(rows, ys);
    FlatDrop(rows + ys, width, |ys|);
    FlatLength(ys, width);
  }

  lemma {:induction false} PaddedTapsAreTaps(conv: ShortConv, pad: seq<Row>, all: seq<Row>, seen: nat, t: nat, c: nat,
                                             n: nat)
    requires conv.Valid() && Wide(pad, conv.channels) && Wide(all, conv.channels)
    requires c < conv.channels && n <= conv.kernelSize && t + conv.kernelSize <= |pad| && seen + t < |all|
    requires forall i :: 0 <= i < |pad| && seen - conv.kernelSize + 1 + i < |all| ==>
               pad[i] == Past(all, conv.channels, seen - conv.kernelSize + 1 + i)
    ensures PaddedTaps(conv, pad, t, c, n) == conv.Taps(all, seen + t, c, n)
  {
    if n > 0 {
      PaddedTapsAreTaps(conv, pad, all, seen, t, c, n - 1);
    }
  }

  /** With the rows themselves added, the padded rows are the answers of the call. */
  lemma AddResidual(conv: ShortConv, pad: seq<Row>, xs: seq<Row>, shown: seq<Row>, ys: seq<Row>, answers: seq<Row>)
    requires conv.Valid() && Wide(xs, conv.channels) && Wide(shown, conv.channels) && Wide(ys, conv.channels)
    requires Wide(pad, conv.channels) && Wide(answers, conv.channels)
    requires |pad| == |ys| + conv.kernelSize - 1 && |answers| == |shown| == |ys|
    requires forall i :: 0 <= i < |pad| ==>
               pad[i] == Past(xs + shown, conv.channels, |xs| - conv.kernelSize + 1 + i)
    requires forall t :: 0 <= t < |ys| ==> answers[t] == PaddedRow(conv, pad, t)
    ensures PlusRows(answers, ys, conv.channels) == conv.Beside(xs, shown, ys)
  {
    var all := xs + shown;
    forall t | 0 <= t < |ys|
      ensures Plus(answers[t], ys[t]) == conv.BesideAt(all, |xs| + t, ys[t])
    {
      forall c | 0 <= c < conv.channels
        ensures answers[t][c] == conv.Taps(all, |xs| + t, c, conv.kernelSize)
      {
        PaddedTapsAreTaps(conv, pad, all, |xs|, t, c, conv.kernelSize);
      }
    }
  }

  /** With no padding among them, those are the answers of the longer sequence. */
  lemma NothingPadded(conv: ShortConv, xs: seq<Row>, ys: seq<Row>)
    requires conv.Valid() && Wide(xs, conv.channels) && Wide(ys, conv.channels) && Wide(xs + ys, conv.channels)
    ensures conv.Beside(xs, ys, ys) == conv.Answers(xs + ys)[|xs|..]
  {
    assert WindowKey(0);
    forall t | 0 <= t < |ys|
      ensures conv.BesideAt(xs + ys, |xs| + t, ys[t]) == conv.Answer(xs + ys, |xs| + t)
    {
      assert (xs + ys)[|xs| + t] == ys[t];
    }
  }

  /** What a padded row holds reaches no other row's answer and nothing that is kept, and is added to its own
    * answer only. */
  lemma PaddingIsInert(conv: ShortConv, xs: seq<Row>, ys: seq<Row>, others: seq<Row>, mask: seq<bool>)
    requires conv.Valid() && Wide(xs, conv.channels) && Wide(ys, conv.channels) && Wide(others, conv.channels)
    requires |mask| == |ys| == |others| && forall t :: 0 <= t < |ys| && mask[t] ==> ys[t] == others[t]
    ensures var shown, seen := Shown(ys, Some(mask), conv.channels), Shown(others, Some(mask), conv.channels);
      && shown == seen
      && forall t :: 0 <= t < |ys| && mask[t] ==> conv.Beside(xs, shown, ys)[t] == conv.Beside(xs, seen, others)[t]
  {
    assert Shown(ys, Some(mask), conv.channels) == Shown(others, Some(mask), conv.channels);
  }

  /** What a state holds and then the call's rows, with zeros for those that are padding. */
  method Pad(history: seq<real>, x: seq<real>, mask: Option<seq<bool>>, width: nat, ghost ys: seq<Row>)
    returns (padded: seq<real>)
    requires width > 0 && Wide(ys, width) && x == Flat(ys) && (mask.Some? ==> |mask.value| == |ys|)
    ensures padded == history + Flat(Shown(ys, mask, width))
  {
    RowsCounted(ys, width);
    ghost var shown := Shown(ys, mask, width);
    var own := [];
    for t := 0 to |x| / width
      invariant own == Flat(shown[..t])
    {
      FlatRow(ys, width, t);
      RunAt(shown, t);
      var row := x[t * width..t * width + width];
      own := own + if mask.None? || mask.value[t] then row else seq(width, _ => 0.0);
    }
    assert shown[..|ys|] == shown;
    padded := history + own;
  }

  /** A call's answers, each its own row added to the convolution of the rows shown so far, and the state left
    * holding those; with nothing padded, that is the tail of the longer sequence's answers. */
  method Forward(conv: ShortConv, state: ConvState, x: seq<real>, mask: Option<seq<bool>>, ghost xs: seq<Row>,
                 ghost ys: seq<Row>)
    returns (out: seq<real>)
    requires conv.Valid() && state.Holds(xs)
    requires state.held.channels == conv.channels && state.held.window == conv.kernelSize - 1
    requires Wide(ys, conv.channels) && x == Flat(ys) && (mask.Some? ==> |mask.value| == |ys|)
    modifies state
    ensures state.Holds(xs + Shown(ys, mask, conv.channels))
    ensures state.held == old(state.held).Advanced(|ys|)
    ensures Wide(xs, conv.channels) && Wide(xs + ys, conv.channels)
    ensures out == Flat(conv.Beside(xs, Shown(ys, mask, conv.channels), ys))
    ensures mask == None ==> out == Flat(conv.Answers(xs + ys)[|xs|..])
  {
    RowsCounted(ys, conv.channels);
    var rows := |x| / conv.channels;
    ghost var shown := Shown(ys, mask, conv.channels);
    var padded := Pad(state.history, x, mask, conv.channels, ys);
    ghost var pad := WindowThenInputs(state.held, state.history, xs, shown);
    TailIsWindow(state.held, state.history, xs, shown);

    var convolved := Convolve(conv, padded[state.held.Reading()..], rows, pad);
    ghost var answers := PaddedRows(conv, pad, rows);
    PlusFlat(answers, ys, conv.channels);
    AddResidual(conv, pad, xs, shown, ys, answers);
    NothingPadded(conv, xs, ys);
    out := Plus(convolved, x);

    FlatLength(shown, conv.channels);
    state.history := padded[|padded| - |state.history|..];
    state.held := state.held.Advanced(rows);
  }
}
