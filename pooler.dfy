/**
 * The parameter-free `Pooler`: it turns the per-token hidden states of a batch into one vector
 * per sequence, by one of five strategies chosen when it is built.
 */
module Pooling {
  import opened Tensors
  import opened Outcomes

  datatype PoolerType = Cls | ClsBeforePooler | Avg | AvgTop2 | AvgFirstLast

  /** The names the constructor accepts, in the order it lists them. */
  const PoolerNames: seq<string> := ["cls", "cls_before_pooler", "avg", "avg_top2", "avg_first_last"]

  function PoolerName(t: PoolerType): string {
    match t
    case Cls => "cls"
    case ClsBeforePooler => "cls_before_pooler"
    case Avg => "avg"
    case AvgTop2 => "avg_top2"
    case AvgFirstLast => "avg_first_last"
  }

  /**
   * `Pooler(pooler_type)`: the type is checked when the pooler is built, and any name outside
   * the five listed ones fails the constructor's assertion.
   */
  function NewPooler(name: string): (r: Result<PoolerType>)
    ensures r.Ok? <==> name in PoolerNames
    ensures r.Ok? ==> PoolerName(r.value) == name
    ensures r.Err? ==> r.error == UnrecognizedPoolingType(name)
  {
    if name == "cls" then Ok(Cls)
    else if name == "cls_before_pooler" then Ok(ClsBeforePooler)
    else if name == "avg" then Ok(Avg)
    else if name == "avg_top2" then Ok(AvgTop2)
    else if name == "avg_first_last" then Ok(AvgFirstLast)
    else Err(UnrecognizedPoolingType(name))
  }

  lemma PoolerNameRoundTrip(t: PoolerType)
    ensures NewPooler(PoolerName(t)) == Ok(t)
  {
  }

  /** The strategies that read the per-layer hidden states, for which the backbone is asked for them. */
  predicate NeedsHiddenStates(t: PoolerType) {
    t == AvgTop2 || t == AvgFirstLast
  }

  /**
   * What the backbone returns for a batch: the last layer's token states, shape (bs, len, hidden),
   * and, when asked for, the token states of every layer (the embeddings first, the last layer last).
   */
  datatype EncoderOutput = EncoderOutput(lastHidden: seq<Matrix>, hiddenStates: Option<seq<seq<Matrix>>>)

  /** `t` has shape (bs, len, hidden). */
  predicate IsStates(t: seq<Matrix>, bs: nat, len: nat, hidden: nat) {
    |t| == bs && forall b :: 0 <= b < bs ==> IsMatrix(t[b], len, hidden)
  }

  /** The number of layers strategy `t` reads from the hidden states. */
  function LayersRead(t: PoolerType): nat {
    match t
    case AvgTop2 => 2
    case AvgFirstLast => 1
    case _ => 0
  }

  /** `out` holds everything pooler `t` reads, in shape (bs, len, hidden). */
  predicate Provides(out: EncoderOutput, t: PoolerType, bs: nat, len: nat, hidden: nat) {
    && IsStates(out.lastHidden, bs, len, hidden)
    && (NeedsHiddenStates(t) ==>
          && out.hiddenStates.Some?
          && |out.hiddenStates.value| >= LayersRead(t)
          && forall l :: 0 <= l < |out.hiddenStates.value| ==> IsStates(out.hiddenStates.value[l], bs, len, hidden))
  }

  /** Feature `h` of every token, each multiplied by that token's mask value. */
  function WeightedColumn(tokens: Matrix, mask: seq<int>, h: nat): (w: Vector)
    requires |tokens| == |mask| && forall t :: 0 <= t < |tokens| ==> h < |tokens[t]|
    ensures |w| == |mask|
  {
    seq(|mask|, t requires 0 <= t < |mask| => tokens[t][h] * (mask[t] as real))
  }

  /** Feature `h` of every token. */
  function Column(tokens: Matrix, h: nat): (c: Vector)
    requires forall t :: 0 <= t < |tokens| ==> h < |tokens[t]|
    ensures |c| == |tokens|
  {
    seq(|tokens|, t requires 0 <= t < |tokens| => tokens[t][h])
  }

  /** `(states * mask).sum(1) / mask.sum(-1)` for one sequence. */
  function MaskedMean(tokens: Matrix, mask: seq<int>, hidden: nat): (r: Vector)
    requires IsMatrix(tokens, |mask|, hidden) && Sum(RealsOf(mask)) != 0.0
    ensures |r| == hidden
  {
    seq(hidden, h requires 0 <= h < hidden => Sum(WeightedColumn(tokens, mask, h)) / Sum(RealsOf(mask)))
  }

  /** The elementwise average `(a + b) / 2.0` of two layers' token states. */
  function Midpoint(a: Matrix, b: Matrix, len: nat, hidden: nat): (m: Matrix)
    requires IsMatrix(a, len, hidden) && IsMatrix(b, len, hidden)
    ensures IsMatrix(m, len, hidden)
  {
    seq(len, t requires 0 <= t < len => seq(hidden, h requires 0 <= h < hidden => (a[t][h] + b[t][h]) / 2.0))
  }

  /**
   * What `Pooler.forward` needs: the backbone output it reads, a mask row of `len` entries per
   * sequence, a first token for the `cls` strategies, and a nonzero mask sum for the averages.
   */
  predicate PoolReady(t: PoolerType, mask: seq<seq<int>>, out: EncoderOutput, bs: nat, len: nat, hidden: nat) {
    && Provides(out, t, bs, len, hidden)
    && |mask| == bs && (forall b :: 0 <= b < bs ==> |mask[b]| == len)
    && ((t == Cls || t == ClsBeforePooler) ==> len >= 1)
    && (!(t == Cls || t == ClsBeforePooler) ==> forall b :: 0 <= b < bs ==> Sum(RealsOf(mask[b])) != 0.0)
  }

  /**
   * `Pooler.forward` on a batch of `bs` sequences: the first token's last-layer state for the two
   * `cls` strategies, otherwise a mask-weighted mean of the last layer, of the average of the
   * first and last layers, or of the average of the last two layers.
   */
  function Pool(t: PoolerType, mask: seq<seq<int>>, out: EncoderOutput, bs: nat, len: nat, hidden: nat): (r: Matrix)
    requires PoolReady(t, mask, out, bs, len, hidden)
    ensures IsMatrix(r, bs, hidden)
    ensures (t == Cls || t == ClsBeforePooler) ==> forall b :: 0 <= b < bs ==> r[b] == out.lastHidden[b][0]
  {
    match t
    case Cls => seq(bs, b requires 0 <= b < bs => out.lastHidden[b][0])
    case ClsBeforePooler => seq(bs, b requires 0 <= b < bs => out.lastHidden[b][0])
    case Avg => seq(bs, b requires 0 <= b < bs => MaskedMean(out.lastHidden[b], mask[b], hidden))
    case AvgFirstLast =>
      var layers := out.hiddenStates.value;
      var first, last := layers[0], layers[|layers| - 1];
      seq(bs, b requires 0 <= b < bs => MaskedMean(Midpoint(first[b], last[b], len, hidden), mask[b], hidden))
    case AvgTop2 =>
      var layers := out.hiddenStates.value;
      var last, secondLast := layers[|layers| - 1], layers[|layers| - 2];
      seq(bs, b requires 0 <= b < bs => MaskedMean(Midpoint(last[b], secondLast[b], len, hidden), mask[b], hidden))
  }

  /** With every mask value 1, the masked mean is the plain mean of the token states. */
  lemma AllOnesMaskIsPlainMean(tokens: Matrix, mask: seq<int>, hidden: nat)
    requires |mask| > 0 && IsMatrix(tokens, |mask|, hidden)
    requires forall t :: 0 <= t < |mask| ==> mask[t] == 1
    ensures Sum(RealsOf(mask)) == |mask| as real
    ensures forall h :: 0 <= h < hidden ==>
              MaskedMean(tokens, mask, hidden)[h] == Sum(Column(tokens, h)) / (|mask| as real)
  {
    var ones := RealsOf(mask);
    OnesSum(ones);
    forall h | 0 <= h < hidden
      ensures MaskedMean(tokens, mask, hidden)[h] == Sum(Column(tokens, h)) / (|mask| as real)
    {
      SumEqual(WeightedColumn(tokens, mask, h), Column(tokens, h));
    }
  }

  /** A row of ones sums to its length. */
  lemma {:induction false} OnesSum(v: Vector)
    requires forall j :: 0 <= j < |v| ==> v[j] == 1.0
    ensures Sum(v) == |v| as real
  {
    if v != [] {
      OnesSum(v[1..]);
    }
  }

  /** If every token carries the same state `v`, every masked mean is `v`. */
  lemma MaskedMeanOfConstant(tokens: Matrix, mask: seq<int>, v: Vector)
    requires IsMatrix(tokens, |mask|, |v|) && Sum(RealsOf(mask)) != 0.0
    requires forall t :: 0 <= t < |tokens| ==> tokens[t] == v
    ensures MaskedMean(tokens, mask, |v|) == v
  {
    var r := MaskedMean(tokens, mask, |v|);
    forall h | 0 <= h < |v|
      ensures r[h] == v[h]
    {
      ConstantColumnMean(tokens, mask, |v|, h, v[h]);
    }
  }

  lemma ConstantColumnMean(tokens: Matrix, mask: seq<int>, hidden: nat, h: nat, c: real)
    requires IsMatrix(tokens, |mask|, hidden) && Sum(RealsOf(mask)) != 0.0 && h < hidden
    requires forall t :: 0 <= t < |tokens| ==> tokens[t][h] == c
    ensures MaskedMean(tokens, mask, hidden)[h] == c
  {
    var weights := RealsOf(mask);
    var total := Sum(weights);
    var w := WeightedColumn(tokens, mask, h);
    forall t | 0 <= t < |mask|
      ensures w[t] == c * weights[t]
    {
      assert tokens[t][h] == c && weights[t] == mask[t] as real;
    }
    SumScale(weights, w, c);
    DivFromProduct(Sum(w), c, total);
    assert MaskedMean(tokens, mask, hidden)[h] == Sum(w) / total;
  }

  /** Averaging two layers first and then pooling equals pooling each and averaging the results. */
  lemma MaskedMeanOfMidpoint(a: Matrix, b: Matrix, mask: seq<int>, hidden: nat)
    requires IsMatrix(a, |mask|, hidden) && IsMatrix(b, |mask|, hidden) && Sum(RealsOf(mask)) != 0.0
    ensures var m := Midpoint(a, b, |mask|, hidden);
            forall h :: 0 <= h < hidden ==>
              MaskedMean(m, mask, hidden)[h]
                == (MaskedMean(a, mask, hidden)[h] + MaskedMean(b, mask, hidden)[h]) / 2.0
  {
    forall h | 0 <= h < hidden
      ensures MaskedMean(Midpoint(a, b, |mask|, hidden), mask, hidden)[h]
                == (MaskedMean(a, mask, hidden)[h] + MaskedMean(b, mask, hidden)[h]) / 2.0
    {
      MidpointColumn(a, b, mask, hidden, h);
    }
  }

  lemma MidpointColumn(a: Matrix, b: Matrix, mask: seq<int>, hidden: nat, h: nat)
    requires IsMatrix(a, |mask|, hidden) && IsMatrix(b, |mask|, hidden) && Sum(RealsOf(mask)) != 0.0
    requires h < hidden
    ensures MaskedMean(Midpoint(a, b, |mask|, hidden), mask, hidden)[h]
              == (MaskedMean(a, mask, hidden)[h] + MaskedMean(b, mask, hidden)[h]) / 2.0
  {
    var m := Midpoint(a, b, |mask|, hidden);
    var total := Sum(RealsOf(mask));
    MidpointSums(a, b, mask, hidden, h);
    var sa, sb, sm := Sum(WeightedColumn(a, mask, h)), Sum(WeightedColumn(b, mask, h)), Sum(WeightedColumn(m, mask, h));
    HalfOfQuotients(sm, sa, sb, total);
    assert MaskedMean(m, mask, hidden)[h] == sm / total;
    assert MaskedMean(a, mask, hidden)[h] == sa / total;
    assert MaskedMean(b, mask, hidden)[h] == sb / total;
  }

  /** The weighted column sum of the midpoint is the average of the two layers' sums. */
  lemma MidpointSums(a: Matrix, b: Matrix, mask: seq<int>, hidden: nat, h: nat)
    requires IsMatrix(a, |mask|, hidden) && IsMatrix(b, |mask|, hidden) && h < hidden
    ensures Sum(WeightedColumn(Midpoint(a, b, |mask|, hidden), mask, h))
              == 0.5 * (Sum(WeightedColumn(a, mask, h)) + Sum(WeightedColumn(b, mask, h)))
  {
    var m := Midpoint(a, b, |mask|, hidden);
    var wa, wb, wm := WeightedColumn(a, mask, h), WeightedColumn(b, mask, h), WeightedColumn(m, mask, h);
    var both := seq(|mask|, t requires 0 <= t < |mask| => wa[t] + wb[t]);
    MidpointWeights(a, b, mask, hidden, h);
    SumAdd(wa, wb, both);
    SumScale(both, wm, 0.5);
  }

  lemma MidpointWeights(a: Matrix, b: Matrix, mask: seq<int>, hidden: nat, h: nat)
    requires IsMatrix(a, |mask|, hidden) && IsMatrix(b, |mask|, hidden) && h < hidden
    ensures var wa, wb := WeightedColumn(a, mask, h), WeightedColumn(b, mask, h);
            var wm := WeightedColumn(Midpoint(a, b, |mask|, hidden), mask, h);
            forall t :: 0 <= t < |mask| ==> wm[t] == 0.5 * (wa[t] + wb[t])
  {
    var m := Midpoint(a, b, |mask|, hidden);
    forall t | 0 <= t < |mask|
      ensures WeightedColumn(m, mask, h)[t] == 0.5 * (WeightedColumn(a, mask, h)[t] + WeightedColumn(b, mask, h)[t])
    {
      HalfSumTimes(a[t][h], b[t][h], mask[t] as real);
    }
  }

  lemma HalfSumTimes(x: real, y: real, w: real)
    ensures (x + y) / 2.0 * w == 0.5 * (x * w + y * w)
  {
  }

  lemma HalfOfQuotients(z: real, x: real, y: real, total: real)
    requires total != 0.0 && z == 0.5 * (x + y)
    ensures z / total == (x / total + y / total) / 2.0
  {
    DivAdd(x, y, total);
  }

  /** `avg_first_last` is the average of the `avg` poolings of the first and the last layer. */
  lemma AvgFirstLastAveragesLayers(mask: seq<seq<int>>, out: EncoderOutput, bs: nat, len: nat, hidden: nat, b: nat, h: nat)
    requires PoolReady(AvgFirstLast, mask, out, bs, len, hidden)
    requires b < bs && h < hidden
    ensures var layers := out.hiddenStates.value;
            Pool(AvgFirstLast, mask, out, bs, len, hidden)[b][h]
              == (MaskedMean(layers[0][b], mask[b], hidden)[h]
                  + MaskedMean(layers[|layers| - 1][b], mask[b], hidden)[h]) / 2.0
  {
    var layers := out.hiddenStates.value;
    MaskedMeanOfMidpoint(layers[0][b], layers[|layers| - 1][b], mask[b], hidden);
  }
}
