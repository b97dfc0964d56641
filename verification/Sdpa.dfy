/** Scaled dot-product attention over planes of heads: its softmax, its answers, and the loops that compute
  * them. */
module Attend {
  import opened Buffers
  import opened Heads
  import opened Mask

  ghost function Dot(a: Row, b: Row, n: nat): real
    requires n <= |a| && n <= |b|
  {
    if n == 0 then 0.0 else Dot(a, b, n - 1) + a[n - 1] * b[n - 1]
  }

  method DotProduct(a: Row, b: Row) returns (sum: real)
    requires |a| == |b|
    ensures sum == Dot(a, b, |a|)
  {
    sum := 0.0;
    for i := 0 to |a|
      invariant sum == Dot(a, b, i)
    {
      sum := sum + a[i] * b[i];
    }
  }

  function Larger(a: Bias, b: Bias): Bias {
    match (a, b)
    case (Masked, _) => b
    case (_, Masked) => a
    case (Of(x), Of(y)) => if x < y then b else a
  }

  /** The largest of the first `n` entries, and `Masked` where none of them is anything else. */
  ghost function Peak(row: seq<Bias>, n: nat): Bias
    requires n <= |row|
  {
    if n == 0 then Masked else Larger(Peak(row, n - 1), row[n - 1])
  }

  /** The attention step, over `[heads, queries, headDim]` queries and `[kvHeads, keys, headDim]`
    * keys and values.  `exp` is whatever the host's is: all that is used of it is its sign. */
  datatype Sdpa = Sdpa(heads: nat, kvHeads: nat, headDim: nat, exp: real -> real) {
    predicate Valid() {
      kvHeads > 0 && heads > 0 && heads % kvHeads == 0 && headDim > 0
    }

    function Exp(x: real): (y: real)
      ensures y > 0.0
    {
      var y := exp(x);
      if y > 0.0 then y else 1.0
    }

    function Scale(): real
      requires Valid()
    {
      1.0 / headDim as real
    }

    /** Query heads are grouped evenly and in order over the KV heads; this is the group of `head`. */
    function KvHead(head: nat): (kv: nat)
      requires Valid() && head < heads
      ensures kv < kvHeads
    {
      GroupsDivide(head);
      head / (heads / kvHeads)
    }

    lemma GroupsDivide(head: nat)
      requires Valid() && head < heads
      ensures heads / kvHeads > 0 && heads == (heads / kvHeads) * kvHeads
      ensures head / (heads / kvHeads) < kvHeads
    {
      var group := heads / kvHeads;
      assert heads == kvHeads * group + heads % kvHeads;
      assert group > 0;
      Below(head, group, kvHeads);
    }

    /** What is left of a logit once the peak is taken off it and it is exponentiated. */
    function Raw(logit: Bias, peak: Bias): (w: real)
      ensures w >= 0.0
    {
      match (logit, peak)
      case (Masked, Of(_)) => 0.0
      case (Masked, Masked) => Exp(0.0)
      case (Of(x), Of(p)) => Exp(x - p)
      case (Of(_), Masked) => 0.0
    }

    ghost function Total(row: seq<Bias>, peak: Bias, n: nat): (sum: real)
      requires n <= |row|
      ensures sum >= 0.0
    {
      if n == 0 then 0.0 else Total(row, peak, n - 1) + Raw(row[n - 1], peak)
    }

    /** A row's softmax. */
    ghost function Softmax(row: seq<Bias>): (weights: seq<real>)
      ensures |weights| == |row|
    {
      var peak := Peak(row, |row|);
      var total := Total(row, peak, |row|);
      seq(|row|, j requires 0 <= j < |row| => if total == 0.0 then 0.0 else Raw(row[j], peak) / total)
    }

    /** One query's logits: every key scored, the mask added. */
    ghost function Logits(q: Row, keys: seq<Row>, mask: seq<Bias>): (row: seq<Bias>)
      requires Valid() && |q| == headDim && Wide(keys, headDim) && |keys| == |mask|
      ensures |row| == |keys|
      ensures forall j :: 0 <= j < |keys| ==> row[j] == Score(q, keys[j], mask[j])
    {
      seq(|keys|, j requires 0 <= j < |keys| => Score(q, keys[j], mask[j]))
    }

    function Added(score: real, entry: Bias): Bias {
      match entry
      case Masked => Masked
      case Of(bias) => Of(score + bias)
    }

    ghost function Score(q: Row, key: Row, entry: Bias): Bias
      requires Valid() && |q| == headDim && |key| == headDim
    {
      Added(Dot(q, key, headDim) * Scale(), entry)
    }

    /** The first `n` values weighted and added, one channel. */
    ghost function Weighted(weights: seq<real>, values: seq<Row>, c: nat, n: nat): real
      requires n <= |weights| && n <= |values| && Wide(values, headDim) && c < headDim
    {
      if n == 0 then 0.0 else Weighted(weights, values, c, n - 1) + weights[n - 1] * values[n - 1][c]
    }

    /** What one query is answered: its keys' softmax over their values. */
    ghost function Answer(q: Row, keys: seq<Row>, values: seq<Row>, mask: seq<Bias>): (out: Row)
      requires Valid() && |q| == headDim && Wide(keys, headDim) && Wide(values, headDim)
      requires |keys| == |values| == |mask|
      ensures |out| == headDim
    {
      seq(headDim, c requires 0 <= c < headDim =>
        Weighted(Softmax(Logits(q, keys, mask)), values, c, |values|))
    }
  }

  lemma Below(x: nat, d: nat, q: nat)
    requires d > 0 && x < d * q
    ensures x / d < q
  {
    Grows(d, q, x / d);
  }

  lemma Grows(d: nat, a: int, b: int)
    ensures a <= b ==> d * a <= d * b
  {
  }

  /** Softmax over a row's largest entry. */
  method SoftmaxRow(sdpa: Sdpa, row: seq<Bias>) returns (weights: seq<real>)
    requires |row| > 0
    ensures weights == sdpa.Softmax(row)
  {
    var peak := Masked;
    for j := 0 to |row|
      invariant peak == Peak(row, j)
    {
      peak := Larger(peak, row[j]);
    }
    var total := 0.0;
    weights := [];
    for j := 0 to |row|
      invariant total == sdpa.Total(row, peak, j) && |weights| == j
      invariant forall i :: 0 <= i < j ==> weights[i] == sdpa.Raw(row[i], peak)
    {
      weights := weights + [sdpa.Raw(row[j], peak)];
      total := total + sdpa.Raw(row[j], peak);
    }
    TotalPositive(sdpa, row);
    for j := 0 to |row|
      invariant |weights| == |row|
      invariant forall i :: 0 <= i < j ==> weights[i] == sdpa.Softmax(row)[i]
      invariant forall i :: j <= i < |row| ==> weights[i] == sdpa.Raw(row[i], peak)
    {
      weights := weights[j := weights[j] / total];
    }
  }

  /** A row always sums to something: its peak is its own, and what exponentiates it is positive. */
  lemma TotalPositive(sdpa: Sdpa, row: seq<Bias>)
    requires |row| > 0
    ensures sdpa.Total(row, Peak(row, |row|), |row|) > 0.0
  {
    if Peak(row, |row|) == Masked {
      PeakCovers(row, |row|);
      assert row[|row| - 1] == Masked;
    } else {
      var j := PeakReached(row, |row|);
      TotalCovers(sdpa, row, Peak(row, |row|), j, |row|);
    }
  }

  lemma {:induction false} PeakCovers(row: seq<Bias>, n: nat)
    requires n <= |row| && Peak(row, n) == Masked
    ensures forall j :: 0 <= j < n ==> row[j] == Masked
  {
    if n > 0 { PeakCovers(row, n - 1); }
  }

  lemma {:induction false} PeakReached(row: seq<Bias>, n: nat) returns (j: nat)
    requires n <= |row| && Peak(row, n) != Masked
    ensures j < n && row[j] == Peak(row, n)
  {
    if Peak(row, n) == row[n - 1] { j := n - 1; } else { j := PeakReached(row, n - 1); }
  }

  lemma {:induction false} TotalCovers(sdpa: Sdpa, row: seq<Bias>, peak: Bias, j: nat, n: nat)
    requires j < n <= |row|
    ensures sdpa.Total(row, peak, n) >= sdpa.Raw(row[j], peak)
  {
    if j < n - 1 { TotalCovers(sdpa, row, peak, j, n - 1); }
  }

  /** `row` and `longer` agree as far as `row` goes, and past it `longer` is ruled out. */
  ghost predicate OnlyMaskedBehind(row: seq<Bias>, longer: seq<Bias>) {
    row <= longer && forall j :: |row| <= j < |longer| ==> longer[j] == Masked
  }

  lemma {:induction false} PeakOfLonger(row: seq<Bias>, longer: seq<Bias>, n: nat)
    requires OnlyMaskedBehind(row, longer) && n <= |longer|
    ensures Peak(longer, n) == Peak(row, if n <= |row| then n else |row|)
  {
    if n > 0 { PeakOfLonger(row, longer, n - 1); }
  }

  lemma {:induction false} TotalOfLonger(sdpa: Sdpa, row: seq<Bias>, longer: seq<Bias>, peak: Bias, n: nat)
    requires OnlyMaskedBehind(row, longer) && n <= |longer| && peak != Masked
    ensures sdpa.Total(longer, peak, n) == sdpa.Total(row, peak, if n <= |row| then n else |row|)
  {
    if n > 0 { TotalOfLonger(sdpa, row, longer, peak, n - 1); }
  }

  lemma {:induction false} WeightedOfLonger(sdpa: Sdpa, weights: seq<real>, longer: seq<real>,
                                            values: seq<Row>, more: seq<Row>, c: nat, n: nat)
    requires weights <= longer && values <= more && |weights| == |values| && |longer| == |more|
    requires forall j :: |weights| <= j < |longer| ==> longer[j] == 0.0
    requires Wide(more, sdpa.headDim) && c < sdpa.headDim && n <= |more|
    ensures Wide(values, sdpa.headDim)
    ensures sdpa.Weighted(longer, more, c, n)
        == sdpa.Weighted(weights, values, c, if n <= |values| then n else |values|)
  {
    if n > 0 { WeightedOfLonger(sdpa, weights, longer, values, more, c, n - 1); }
  }

  /** Keys that are ruled out weigh nothing, so an answer over a longer span is the answer over
    * as much of it as the query may read -- provided it may read something. */
  lemma AnswerOfLonger(sdpa: Sdpa, q: Row, keys: seq<Row>, moreKeys: seq<Row>, values: seq<Row>, moreValues: seq<Row>,
                       mask: seq<Bias>, moreMask: seq<Bias>)
    requires sdpa.Valid() && |q| == sdpa.headDim && Wide(moreKeys, sdpa.headDim) && Wide(moreValues, sdpa.headDim)
    requires keys <= moreKeys && values <= moreValues && OnlyMaskedBehind(mask, moreMask)
    requires |keys| == |values| == |mask| && |moreKeys| == |moreValues| == |moreMask|
    requires exists j :: 0 <= j < |mask| && mask[j] != Masked
    ensures Wide(keys, sdpa.headDim) && Wide(values, sdpa.headDim)
    ensures sdpa.Answer(q, moreKeys, moreValues, moreMask) == sdpa.Answer(q, keys, values, mask)
  {
    var row, longer := sdpa.Logits(q, keys, mask), sdpa.Logits(q, moreKeys, moreMask);
    var peak := Peak(row, |row|);
    var j :| 0 <= j < |mask| && mask[j] != Masked;
    assert row[j] != Masked;
    if peak == Masked { PeakCovers(row, |row|); }
    PeakOfLonger(row, longer, |longer|);
    TotalOfLonger(sdpa, row, longer, peak, |longer|);
    var weights, spread := sdpa.Softmax(row), sdpa.Softmax(longer);
    assert weights <= spread by {
      assert forall j :: 0 <= j < |row| ==> weights[j] == spread[j];
    }
    forall c | 0 <= c < sdpa.headDim
      ensures sdpa.Answer(q, moreKeys, moreValues, moreMask)[c] == sdpa.Answer(q, keys, values, mask)[c]
    {
      WeightedOfLonger(sdpa, weights, spread, values, moreValues, c, |moreValues|);
    }
  }

  lemma {:induction false} WeightedIgnores(sdpa: Sdpa, weights: seq<real>, values: seq<Row>, others: seq<Row>, c: nat,
                                           n: nat)
    requires |weights| == |values| == |others| && Wide(values, sdpa.headDim) && Wide(others, sdpa.headDim)
    requires c < sdpa.headDim && n <= |values|
    requires forall j :: 0 <= j < |values| && weights[j] != 0.0 ==> values[j] == others[j]
    ensures sdpa.Weighted(weights, values, c, n) == sdpa.Weighted(weights, others, c, n)
  {
    if n > 0 { WeightedIgnores(sdpa, weights, values, others, c, n - 1); }
  }

  /** A row that holds an unmasked key is answered out of its unmasked keys and values alone:
    * what the others hold cannot reach it. */
  lemma MaskedKeysCannotReach(sdpa: Sdpa, q: Row, keys: seq<Row>, otherKeys: seq<Row>,
                              values: seq<Row>, otherValues: seq<Row>, mask: seq<Bias>)
    requires sdpa.Valid() && |q| == sdpa.headDim
    requires Wide(keys, sdpa.headDim) && Wide(values, sdpa.headDim)
    requires Wide(otherKeys, sdpa.headDim) && Wide(otherValues, sdpa.headDim)
    requires |keys| == |values| == |otherKeys| == |otherValues| == |mask|
    requires exists j :: 0 <= j < |mask| && mask[j] != Masked
    requires forall j :: 0 <= j < |mask| && mask[j] != Masked ==> keys[j] == otherKeys[j] && values[j] == otherValues[j]
    ensures sdpa.Answer(q, keys, values, mask) == sdpa.Answer(q, otherKeys, otherValues, mask)
  {
    var row := sdpa.Logits(q, keys, mask);
    assert row == sdpa.Logits(q, otherKeys, mask);
    var peak, weights := Peak(row, |row|), sdpa.Softmax(row);
    var j :| 0 <= j < |mask| && mask[j] != Masked;
    assert row[j] != Masked;
    if peak == Masked { PeakCovers(row, |row|); }
    forall c | 0 <= c < sdpa.headDim
      ensures sdpa.Answer(q, keys, values, mask)[c] == sdpa.Answer(q, otherKeys, otherValues, mask)[c]
    {
      assert forall j :: 0 <= j < |values| && weights[j] != 0.0 ==> row[j] != Masked;
      WeightedIgnores(sdpa, weights, values, otherValues, c, |values|);
    }
  }

  /** One query's row of the step: scored, softmaxed, and accumulated over the values. */
  method ForwardRow(sdpa: Sdpa, q: Row, k: seq<real>, v: seq<real>, mask: seq<Bias>, keys: nat,
                    ghost keyRows: seq<Row>, ghost valueRows: seq<Row>) returns (out: Row)
    requires sdpa.Valid() && |q| == sdpa.headDim && keys > 0
    requires Matrix(keyRows, keys, sdpa.headDim) && Matrix(valueRows, keys, sdpa.headDim)
    requires Flat(keyRows) <= k && Flat(valueRows) <= v && |mask| == keys
    ensures out == sdpa.Answer(q, keyRows, valueRows, mask)
  {
    var logits := ScoreRow(sdpa, q, k, mask, keys, keyRows);
    var weights := SoftmaxRow(sdpa, logits);
    out := WeighRow(sdpa, weights, v, keys, valueRows);
  }

  method ScoreRow(sdpa: Sdpa, q: Row, k: seq<real>, mask: seq<Bias>, keys: nat, ghost keyRows: seq<Row>)
    returns (logits: seq<Bias>)
    requires sdpa.Valid() && |q| == sdpa.headDim && |mask| == keys
    requires Matrix(keyRows, keys, sdpa.headDim) && Flat(keyRows) <= k
    ensures logits == sdpa.Logits(q, keyRows, mask)
  {
    logits := [];
    for j := 0 to keys
      invariant |logits| == j
      invariant forall i :: 0 <= i < j ==> logits[i] == sdpa.Score(q, keyRows[i], mask[i])
    {
      FlatRow(keyRows, sdpa.headDim, j);
      var at := j * sdpa.headDim;
      var key := k[at..at + sdpa.headDim];
      assert key == Flat(keyRows)[at..at + sdpa.headDim];
      var score := DotProduct(q, key);
      logits := logits + [sdpa.Added(score * sdpa.Scale(), mask[j])];
    }
  }

  method WeighRow(sdpa: Sdpa, weights: seq<real>, v: seq<real>, keys: nat, ghost valueRows: seq<Row>) returns (out: Row)
    requires sdpa.Valid() && |weights| == keys
    requires Matrix(valueRows, keys, sdpa.headDim) && Flat(valueRows) <= v
    ensures |out| == sdpa.headDim
    ensures forall c :: 0 <= c < sdpa.headDim ==> out[c] == sdpa.Weighted(weights, valueRows, c, keys)
  {
    out := seq(sdpa.headDim, _ => 0.0);
    for j := 0 to keys
      invariant |out| == sdpa.headDim
      invariant forall c :: 0 <= c < sdpa.headDim ==> out[c] == sdpa.Weighted(weights, valueRows, c, j)
    {
      FlatRow(valueRows, sdpa.headDim, j);
      var at := j * sdpa.headDim;
      var value := v[at..at + sdpa.headDim];
      assert value == Flat(valueRows)[at..at + sdpa.headDim];
      for c := 0 to sdpa.headDim
        invariant |out| == sdpa.headDim
        invariant forall e :: 0 <= e < c ==> out[e] == sdpa.Weighted(weights, valueRows, e, j + 1)
        invariant forall e :: c <= e < sdpa.headDim ==> out[e] == sdpa.Weighted(weights, valueRows, e, j)
      {
        out := out[c := out[c] + weights[j] * value[c]];
      }
    }
  }

  /** The answers of every query of one head. */
  ghost function OfHead(sdpa: Sdpa, q: seq<Row>, k: seq<Row>, v: seq<Row>, mask: seq<seq<Bias>>, queries: nat,
                        keys: nat): (out: seq<Row>)
    requires sdpa.Valid() && Matrix(q, queries, sdpa.headDim) && Matrix(mask, queries, keys)
    requires Matrix(k, keys, sdpa.headDim) && Matrix(v, keys, sdpa.headDim)
    ensures Matrix(out, queries, sdpa.headDim)
    ensures forall i :: 0 <= i < queries ==> out[i] == sdpa.Answer(q[i], k, v, mask[i])
  {
    seq(queries, i requires 0 <= i < queries => sdpa.Answer(q[i], k, v, mask[i]))
  }

  /** The answers of every query of every head. */
  ghost function Step(sdpa: Sdpa, q: seq<seq<Row>>, k: seq<seq<Row>>, v: seq<seq<Row>>, mask: seq<seq<seq<Bias>>>,
                      queries: nat, keys: nat): (out: seq<seq<Row>>)
    requires sdpa.Valid() && |q| == |mask| == sdpa.heads && |k| == |v| == sdpa.kvHeads
    requires Planes(q, queries, sdpa.headDim) && Planes(mask, queries, keys)
    requires Planes(k, keys, sdpa.headDim) && Planes(v, keys, sdpa.headDim)
    ensures |out| == sdpa.heads && Planes(out, queries, sdpa.headDim)
  {
    seq(sdpa.heads, h requires 0 <= h < sdpa.heads =>
      assert Matrix(q[h], queries, sdpa.headDim) && Matrix(mask[h], queries, keys);
      assert Matrix(k[sdpa.KvHead(h)], keys, sdpa.headDim) && Matrix(v[sdpa.KvHead(h)], keys, sdpa.headDim);
      OfHead(sdpa, q[h], k[sdpa.KvHead(h)], v[sdpa.KvHead(h)], mask[h], queries, keys))
  }

  lemma StepAt(sdpa: Sdpa, q: seq<seq<Row>>, k: seq<seq<Row>>, v: seq<seq<Row>>, mask: seq<seq<seq<Bias>>>,
               queries: nat, keys: nat, h: nat, i: nat)
    requires sdpa.Valid() && |q| == |mask| == sdpa.heads && |k| == |v| == sdpa.kvHeads
    requires Planes(q, queries, sdpa.headDim) && Planes(mask, queries, keys)
    requires Planes(k, keys, sdpa.headDim) && Planes(v, keys, sdpa.headDim)
    requires h < sdpa.heads && i < queries
    ensures Matrix(q[h], queries, sdpa.headDim) && Matrix(mask[h], queries, keys)
    ensures Matrix(k[sdpa.KvHead(h)], keys, sdpa.headDim) && Matrix(v[sdpa.KvHead(h)], keys, sdpa.headDim)
    ensures Matrix(Step(sdpa, q, k, v, mask, queries, keys)[h], queries, sdpa.headDim)
    ensures Step(sdpa, q, k, v, mask, queries, keys)[h][i]
         == sdpa.Answer(q[h][i], k[sdpa.KvHead(h)], v[sdpa.KvHead(h)], mask[h][i])
  {
    assert Matrix(Step(sdpa, q, k, v, mask, queries, keys)[h], queries, sdpa.headDim);
  }

  lemma HeadFits(planes: seq<seq<Row>>, p: nat, lines: nat, cells: nat, at: nat)
    requires Planes(planes, lines, cells) && p < |planes| && at == p * lines * cells
    ensures Matrix(planes[p], lines, cells)
    ensures at <= |Flat(Flat(planes))| && Flat(planes[p]) <= Flat(Flat(planes))[at..]
  {
    var front := planes[..p];
    assert planes == front + ([planes[p]] + planes[p + 1..]);
    FlatAppend(front, [planes[p]] + planes[p + 1..]);
    FlatAppend([planes[p]], planes[p + 1..]);
    FlatPush([], planes[p]);
    assert [] + [planes[p]] == [planes[p]];
    FlatAppend(Flat(front), planes[p] + Flat(planes[p + 1..]));
    FlatAppend(planes[p], Flat(planes[p + 1..]));
    FlatPlanes(front, lines, cells);
    FlatLength(Flat(front), cells);
  }

  /** Every query row's answer in every head, laid flat in head order, from queries, keys, values and biases
    * laid flat the same way. */
  method Forward(sdpa: Sdpa, q: seq<real>, k: seq<real>, v: seq<real>, mask: seq<Bias>, queries: nat, keys: nat,
                 ghost qs: seq<seq<Row>>, ghost ks: seq<seq<Row>>, ghost vs: seq<seq<Row>>,
                 ghost ms: seq<seq<seq<Bias>>>)
    returns (out: seq<real>)
    requires sdpa.Valid() && keys > 0 && |qs| == |ms| == sdpa.heads && |ks| == |vs| == sdpa.kvHeads
    requires Planes(qs, queries, sdpa.headDim) && Planes(ms, queries, keys)
    requires Planes(ks, keys, sdpa.headDim) && Planes(vs, keys, sdpa.headDim)
    requires q == Flat(Flat(qs)) && k == Flat(Flat(ks)) && v == Flat(Flat(vs)) && mask == Flat(Flat(ms))
    ensures out == Flat(Flat(Step(sdpa, qs, ks, vs, ms, queries, keys)))
  {
    ghost var answers := Step(sdpa, qs, ks, vs, ms, queries, keys);
    out := [];
    for head := 0 to sdpa.heads
      invariant out == Flat(Flat(answers[..head]))
    {
      var own := OwnStep(sdpa, q, k, v, mask, head, queries, keys, qs, ks, vs, ms);
      LayOneMore(answers, head);
      out := out + own;
    }
    assert answers[..sdpa.heads] == answers;
  }

  /** One head's step, over the keys and values of the head it shares. */
  method OwnStep(sdpa: Sdpa, q: seq<real>, k: seq<real>, v: seq<real>, mask: seq<Bias>, head: nat, queries: nat,
                 keys: nat, ghost qs: seq<seq<Row>>, ghost ks: seq<seq<Row>>, ghost vs: seq<seq<Row>>,
                 ghost ms: seq<seq<seq<Bias>>>)
    returns (own: seq<real>)
    requires sdpa.Valid() && keys > 0 && |qs| == |ms| == sdpa.heads && |ks| == |vs| == sdpa.kvHeads && head < sdpa.heads
    requires Planes(qs, queries, sdpa.headDim) && Planes(ms, queries, keys)
    requires Planes(ks, keys, sdpa.headDim) && Planes(vs, keys, sdpa.headDim)
    requires q == Flat(Flat(qs)) && k == Flat(Flat(ks)) && v == Flat(Flat(vs)) && mask == Flat(Flat(ms))
    ensures own == Flat(Step(sdpa, qs, ks, vs, ms, queries, keys)[head])
  {
    var kv := sdpa.KvHead(head);
    StepHead(sdpa, qs, ks, vs, ms, queries, keys, head, kv);
    var theirKeys := HeadOn(k, kv, keys, sdpa.headDim, ks);
    var theirValues := HeadOn(v, kv, keys, sdpa.headDim, vs);
    own := ForwardHead(sdpa, q, theirKeys, theirValues, mask, head, queries, keys, qs, ks[kv], vs[kv], ms);
  }

  /** A buffer of heads from the `p`th on. */
  method HeadOn(x: seq<real>, p: nat, lines: nat, cells: nat, ghost planes: seq<seq<Row>>) returns (rest: seq<real>)
    requires Planes(planes, lines, cells) && p < |planes| && x == Flat(Flat(planes))
    ensures Flat(planes[p]) <= rest
  {
    var at := p * lines * cells;
    HeadFits(planes, p, lines, cells, at);
    rest := x[at..];
  }

  lemma StepHead(sdpa: Sdpa, qs: seq<seq<Row>>, ks: seq<seq<Row>>, vs: seq<seq<Row>>, ms: seq<seq<seq<Bias>>>,
                 queries: nat, keys: nat, head: nat, kv: nat)
    requires sdpa.Valid() && keys > 0 && |qs| == |ms| == sdpa.heads && |ks| == |vs| == sdpa.kvHeads && head < sdpa.heads
    requires Planes(qs, queries, sdpa.headDim) && Planes(ms, queries, keys)
    requires Planes(ks, keys, sdpa.headDim) && Planes(vs, keys, sdpa.headDim)
    requires kv == sdpa.KvHead(head)
    ensures kv < sdpa.kvHeads && Matrix(qs[head], queries, sdpa.headDim) && Matrix(ms[head], queries, keys)
    ensures Matrix(ks[kv], keys, sdpa.headDim) && Matrix(vs[kv], keys, sdpa.headDim)
    ensures Step(sdpa, qs, ks, vs, ms, queries, keys)[head]
        == OfHead(sdpa, qs[head], ks[kv], vs[kv], ms[head], queries, keys)
  {
  }

  method ForwardHead(sdpa: Sdpa, q: seq<real>, k: seq<real>, v: seq<real>, mask: seq<Bias>, head: nat, queries: nat,
                     keys: nat, ghost qs: seq<seq<Row>>, ghost ks: seq<Row>, ghost vs: seq<Row>,
                     ghost ms: seq<seq<seq<Bias>>>)
    returns (out: seq<real>)
    requires sdpa.Valid() && keys > 0 && |qs| == |ms| == sdpa.heads && head < sdpa.heads
    requires Planes(qs, queries, sdpa.headDim) && Planes(ms, queries, keys)
    requires Matrix(ks, keys, sdpa.headDim) && Matrix(vs, keys, sdpa.headDim)
    requires q == Flat(Flat(qs)) && Flat(ks) <= k && Flat(vs) <= v && mask == Flat(Flat(ms))
    ensures Matrix(qs[head], queries, sdpa.headDim) && Matrix(ms[head], queries, keys)
    ensures out == Flat(OfHead(sdpa, qs[head], ks, vs, ms[head], queries, keys))
  {
    assert Matrix(qs[head], queries, sdpa.headDim) && Matrix(ms[head], queries, keys);
    ghost var answers := OfHead(sdpa, qs[head], ks, vs, ms[head], queries, keys);
    out := [];
    for i := 0 to queries
      invariant out == Flat(answers[..i])
    {
      PlaneRow(qs, head, i, queries, sdpa.headDim);
      PlaneRow(ms, head, i, queries, keys);
      var at, line := At(head, queries, i, sdpa.headDim), At(head, queries, i, keys);
      var query, biases := q[at..at + sdpa.headDim], mask[line..line + keys];
      var row := ForwardRow(sdpa, query, k, v, biases, keys, ks, vs);
      assert query == qs[head][i] && biases == ms[head][i];
      RunAt(answers, i);
      out := out + row;
    }
    assert answers[..queries] == answers;
  }

  /** One KV head for every query head, read out of the shared ones. */
  ghost function Gathered(sdpa: Sdpa, shared: seq<seq<Row>>, keys: nat): (own: seq<seq<Row>>)
    requires sdpa.Valid() && |shared| == sdpa.kvHeads && Planes(shared, keys, sdpa.headDim)
    ensures |own| == sdpa.heads && Planes(own, keys, sdpa.headDim)
    ensures forall h :: 0 <= h < sdpa.heads ==> own[h] == shared[sdpa.KvHead(h)]
  {
    assert forall kv :: 0 <= kv < |shared| ==> Matrix(shared[kv], keys, sdpa.headDim);
    seq(sdpa.heads, h requires 0 <= h < sdpa.heads => shared[sdpa.KvHead(h)])
  }

  /** Repeating every KV head once for each query head in its group, and giving every query head its own,
    * changes no answer. */
  lemma GroupedIsGathered(sdpa: Sdpa, q: seq<seq<Row>>, k: seq<seq<Row>>, v: seq<seq<Row>>, mask: seq<seq<seq<Bias>>>,
                          queries: nat, keys: nat)
    requires sdpa.Valid() && |q| == |mask| == sdpa.heads && |k| == |v| == sdpa.kvHeads
    requires Planes(q, queries, sdpa.headDim) && Planes(mask, queries, keys)
    requires Planes(k, keys, sdpa.headDim) && Planes(v, keys, sdpa.headDim)
    ensures sdpa.(kvHeads := sdpa.heads).Valid()
    ensures Step(sdpa, q, k, v, mask, queries, keys)
         == Step(sdpa.(kvHeads := sdpa.heads), q, Gathered(sdpa, k, keys), Gathered(sdpa, v, keys), mask, queries, keys)
  {
    var alone := sdpa.(kvHeads := sdpa.heads);
    DivisionIsUnique(sdpa.heads, sdpa.heads, 1, 0);
    var shared, own := Step(sdpa, q, k, v, mask, queries, keys),
                       Step(alone, q, Gathered(sdpa, k, keys), Gathered(sdpa, v, keys), mask, queries, keys);
    forall h | 0 <= h < sdpa.heads
      ensures shared[h] == own[h]
    {
      OwnHead(alone, h);
      assert Matrix(q[h], queries, sdpa.headDim) && Matrix(mask[h], queries, keys);
      assert Matrix(shared[h], queries, sdpa.headDim) && Matrix(own[h], queries, sdpa.headDim);
      forall i | 0 <= i < queries
        ensures shared[h][i] == own[h][i]
      {
        AnswersAlike(sdpa, q[h][i], k[sdpa.KvHead(h)], v[sdpa.KvHead(h)], mask[h][i]);
      }
    }
  }

  lemma OwnHead(alone: Sdpa, h: nat)
    requires alone.Valid() && alone.kvHeads == alone.heads && h < alone.heads
    ensures alone.KvHead(h) == h
  {
    DivisionIsUnique(alone.heads, alone.heads, 1, 0);
    DivisionIsUnique(h, 1, h, 0);
  }

  /** One query's answer does not know how the heads are shared. */
  lemma AnswersAlike(sdpa: Sdpa, q: Row, keys: seq<Row>, values: seq<Row>, mask: seq<Bias>)
    requires sdpa.Valid() && sdpa.(kvHeads := sdpa.heads).Valid() && |q| == sdpa.headDim
    requires Wide(keys, sdpa.headDim) && Wide(values, sdpa.headDim) && |keys| == |values| == |mask|
    ensures sdpa.Answer(q, keys, values, mask) == sdpa.(kvHeads := sdpa.heads).Answer(q, keys, values, mask)
  {
    var alone := sdpa.(kvHeads := sdpa.heads);
    LogitsAlike(sdpa, q, keys, mask);
    var weights := sdpa.Softmax(sdpa.Logits(q, keys, mask));
    SoftmaxAlike(sdpa, sdpa.Logits(q, keys, mask));
    var here, there := sdpa.Answer(q, keys, values, mask), alone.Answer(q, keys, values, mask);
    forall c | 0 <= c < sdpa.headDim
      ensures here[c] == there[c]
    {
      WeightedAlike(sdpa, weights, values, c, |values|);
    }
  }

  lemma LogitsAlike(sdpa: Sdpa, q: Row, keys: seq<Row>, mask: seq<Bias>)
    requires sdpa.Valid() && sdpa.(kvHeads := sdpa.heads).Valid() && |q| == sdpa.headDim
    requires Wide(keys, sdpa.headDim) && |keys| == |mask|
    ensures sdpa.Logits(q, keys, mask) == sdpa.(kvHeads := sdpa.heads).Logits(q, keys, mask)
  {
    var alone := sdpa.(kvHeads := sdpa.heads);
    assert sdpa.Scale() == alone.Scale();
    forall j | 0 <= j < |keys|
      ensures sdpa.Score(q, keys[j], mask[j]) == alone.Score(q, keys[j], mask[j])
    {
    }
  }

  lemma SoftmaxAlike(sdpa: Sdpa, row: seq<Bias>)
    ensures sdpa.Softmax(row) == sdpa.(kvHeads := sdpa.heads).Softmax(row)
  {
    TotalAlike(sdpa, row, Peak(row, |row|), |row|);
  }

  lemma {:induction false} TotalAlike(sdpa: Sdpa, row: seq<Bias>, peak: Bias, n: nat)
    requires n <= |row|
    ensures sdpa.Total(row, peak, n) == sdpa.(kvHeads := sdpa.heads).Total(row, peak, n)
  {
    if n > 0 { TotalAlike(sdpa, row, peak, n - 1); }
  }

  lemma {:induction false} WeightedAlike(sdpa: Sdpa, weights: seq<real>, values: seq<Row>, c: nat, n: nat)
    requires n <= |weights| && n <= |values| && Wide(values, sdpa.headDim) && c < sdpa.headDim
    ensures sdpa.Weighted(weights, values, c, n) == sdpa.(kvHeads := sdpa.heads).Weighted(weights, values, c, n)
  {
    if n > 0 { WeightedAlike(sdpa, weights, values, c, n - 1); }
  }
}
