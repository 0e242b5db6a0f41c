/**
 * The contrastive sentence-embedding model on a BERT or RoBERTa backbone: how it is built, the
 * training step with the rank-encoder loss, the embedding step, and the `forward` dispatch
 * between the two. The backbone, the MLP head, the cosine similarity, the cross-entropy losses,
 * `argsort` and the square root are collaborators passed in as functions.
 */
module ClModel {
  import opened Tensors
  import opened Outcomes
  import opened RankTransform
  import opened Spearman
  import opened Pooling
  import opened Contrastive

  /** The training options the model reads. */
  datatype ModelArgs = ModelArgs(
    poolerType: string,
    temp: real,
    hardNegativeWeight: real,
    doMlm: bool,
    mlmWeight: real,
    mlpOnlyTrain: bool,
    simf: string,
    lossType: string,
    baseELmb: real,
    threshLow: real,
    threshUpp: real)

  /** A built model: its options, its pooler, and which optional heads it owns. */
  datatype Model = Model(args: ModelArgs, pooler: PoolerType, hasMlp: bool, hasLmHead: bool)

  /**
   * The constructor followed by `cl_init`: the language-model head exists when masked language
   * modelling is on, the pooler type is validated, and the MLP head exists only for `cls`.
   */
  function NewModel(args: ModelArgs): (m: Result<Model>)
    ensures m.Ok? <==> args.poolerType in PoolerNames
    ensures m.Err? ==> m.error == UnrecognizedPoolingType(args.poolerType)
    ensures m.Ok? ==> m.value.args == args && PoolerName(m.value.pooler) == args.poolerType
    ensures m.Ok? ==> (m.value.hasMlp <==> args.poolerType == "cls") && (m.value.hasLmHead <==> args.doMlm)
  {
    var pooler := NewPooler(args.poolerType);
    if pooler.Err? then Err(pooler.error)
    else Ok(Model(args, pooler.value, args.poolerType == "cls", args.doMlm))
  }

  /** The training step applies the MLP head to the pooled embeddings exactly for `cls`. */
  predicate MlpInTraining(m: Model) {
    m.pooler == Cls
  }

  /** The embedding step applies it for `cls` unless the head is for training only. */
  predicate MlpAtInference(m: Model) {
    m.pooler == Cls && !m.args.mlpOnlyTrain
  }

  /** The model as the constructors leave it: `NewModel` of its own options. */
  predicate Built(m: Model) {
    NewModel(m.args) == Ok(m)
  }

  /**
   * A built model never applies an MLP head it does not own: on the same pooled rows, the
   * training step applies the head exactly when the model owns one, and the embedding step
   * exactly when it owns one that is not for training only.
   */
  lemma MlpUsedOnlyWhenBuilt(args: ModelArgs, c: Collaborators, pooled: Matrix, bs: nat, numSent: nat, b: nat, s: nat)
    requires NewModel(args).Ok? && |pooled| == Offset(bs, numSent) && b < bs && s < numSent
    ensures var m := NewModel(args).value;
            var k := Offset(b, numSent) + s;
            && k < |pooled|
            && TrainingViews(m, c, pooled, bs, numSent)[b][s] == (if m.hasMlp then c.mlp(pooled[k]) else pooled[k])
            && InferenceRows(m, c, pooled)[k]
                 == (if m.hasMlp && !args.mlpOnlyTrain then c.mlp(pooled[k]) else pooled[k])
  {
    var m := NewModel(args).value;
    PoolerNameRoundTrip(m.pooler);
    var views := TrainingViews(m, c, pooled, bs, numSent);
    assert Offset(b, numSent) + numSent <= Offset(bs, numSent);
  }

  /**
   * The collaborators: the backbone (token ids, attention mask, optional token types, whether the
   * per-layer states are wanted), the MLP head, the cosine similarity, the cross-entropy of logits
   * against class labels, the language-model head with its token cross-entropy, `argsort` along a
   * row, and the square root.
   */
  datatype Collaborators = Collaborators(
    encoder: (seq<seq<int>>, seq<seq<int>>, Option<seq<seq<int>>>, bool) -> EncoderOutput,
    mlp: Vector -> Vector,
    cos: (Vector, Vector) -> real,
    crossEntropy: (Matrix, seq<int>) -> real,
    mlmLoss: (seq<Matrix>, seq<seq<int>>) -> real,
    argsort: Vector -> seq<int>,
    sqrt: real -> real)

  /**
   * A training batch: token ids, attention mask and optional token types of shape
   * (bs, numSent, len); the optional masked-language-model inputs and labels; and the optional
   * rows (`distances1`) whose rank correlations are the rank-encoder targets.
   */
  datatype Batch = Batch(
    inputIds: seq<seq<seq<int>>>,
    attentionMask: seq<seq<seq<int>>>,
    tokenTypeIds: Option<seq<seq<seq<int>>>>,
    mlmInputIds: Option<seq<seq<seq<int>>>>,
    mlmLabels: Option<seq<seq<seq<int>>>>,
    distances: Option<Matrix>)

  /**
   * The distributed context of one process: whether a process group is up, this process's rank,
   * and the shards of `z1`, `z2` and `z3` that the collective delivers from every process.
   */
  datatype Dist = Dist(initialized: bool, rank: nat, z1Shards: seq<Matrix>, z2Shards: seq<Matrix>, z3Shards: seq<Matrix>)

  datatype ClOutput = ClOutput(loss: real, logits: Matrix)

  /** Embeddings are gathered across processes only in training mode with a process group up. */
  predicate Gathers(dist: Dist, training: bool) {
    dist.initialized && training
  }

  function FlatTokenTypes(batch: Batch): Option<seq<seq<int>>> {
    if batch.tokenTypeIds.Some? then Some(Concat(batch.tokenTypeIds.value)) else None
  }

  /** The backbone run on the flattened batch. */
  function MainOutput(m: Model, c: Collaborators, batch: Batch): EncoderOutput {
    c.encoder(Concat(batch.inputIds), Concat(batch.attentionMask), FlatTokenTypes(batch), NeedsHiddenStates(m.pooler))
  }

  /** Both masked-language-model inputs and labels are present. */
  predicate MlmRequested(batch: Batch) {
    batch.mlmInputIds.Some? && batch.mlmLabels.Some?
  }

  /** The weighted masked-language-model loss, or nothing when it is not requested. */
  function MlmTerm(m: Model, c: Collaborators, batch: Batch): real {
    if MlmRequested(batch) then
      var out := c.encoder(Concat(batch.mlmInputIds.value), Concat(batch.attentionMask), FlatTokenTypes(batch),
                           NeedsHiddenStates(m.pooler));
      m.args.mlmWeight * c.mlmLoss(out.lastHidden, Concat(batch.mlmLabels.value))
    else 0.0
  }

  /** `argsort` along every row. */
  function ArgsortRows(argsort: Vector -> seq<int>, x: Matrix): (order: seq<seq<int>>)
    ensures |order| == |x|
  {
    seq(|x|, i requires 0 <= i < |x| => argsort(x[i]))
  }

  /** What the training step needs of its inputs. */
  ghost predicate ClReady(m: Model, c: Collaborators, batch: Batch, numSent: nat, len: nat, hidden: nat,
                          d: nat, dist: Dist, training: bool) {
    var bs := |batch.inputIds|;
    && Built(m)
    && 2 <= numSent <= 3
    && m.args.temp != 0.0
    && (forall b :: 0 <= b < bs ==> |batch.inputIds[b]| == numSent)
    && PoolReady(m.pooler, Concat(batch.attentionMask), MainOutput(m, c, batch), Offset(bs, numSent), len, hidden)
    && (Gathers(dist, training) ==>
          && dist.rank < |dist.z1Shards| && |dist.z2Shards| == |dist.z1Shards|
          && (numSent == 3 ==> |dist.z3Shards| == |dist.z1Shards|)
          && forall r :: 0 <= r < |dist.z1Shards| ==>
               |dist.z1Shards[r]| == bs && |dist.z2Shards[r]| == bs && (numSent == 3 ==> |dist.z3Shards[r]| == bs))
    && (numSent == 2 && m.args.simf == "Spearmanr" && batch.distances.Some? ==>
          var x := batch.distances.value;
          d >= 2 && IsSqrt(c.sqrt) && IsRowArgsort(x, ArgsortRows(c.argsort, x), d))
  }

  /**
   * The pooled sentence embeddings viewed as (bs, numSent, hidden), passed through the MLP head
   * for `cls`.
   */
  function SentenceViews(m: Model, c: Collaborators, batch: Batch, numSent: nat, len: nat, hidden: nat)
    : (views: seq<seq<Vector>>)
    requires PoolReady(m.pooler, Concat(batch.attentionMask), MainOutput(m, c, batch),
                       Offset(|batch.inputIds|, numSent), len, hidden)
    ensures |views| == |batch.inputIds| && forall b :: 0 <= b < |views| ==> |views[b]| == numSent
    ensures var pooled := Pool(m.pooler, Concat(batch.attentionMask), MainOutput(m, c, batch),
                               Offset(|batch.inputIds|, numSent), len, hidden);
            forall b, s :: 0 <= b < |views| && 0 <= s < numSent ==>
              && Offset(b, numSent) + s < |pooled|
              && views[b][s] == if MlpInTraining(m) then c.mlp(pooled[Offset(b, numSent) + s]) else pooled[Offset(b, numSent) + s]
  {
    var bs := |batch.inputIds|;
    TrainingViews(m, c, Pool(m.pooler, Concat(batch.attentionMask), MainOutput(m, c, batch), Offset(bs, numSent), len, hidden),
                  bs, numSent)
  }

  /** `bs * numSent` pooled rows regrouped per instance, through the MLP head when training uses it. */
  function TrainingViews(m: Model, c: Collaborators, pooled: Matrix, bs: nat, numSent: nat): (views: seq<seq<Vector>>)
    requires |pooled| == Offset(bs, numSent)
    ensures |views| == bs && forall b :: 0 <= b < bs ==> |views[b]| == numSent
    ensures BlocksFit(bs, numSent)
    ensures forall b, s :: 0 <= b < bs && 0 <= s < numSent ==>
              views[b][s] == if MlpInTraining(m) then c.mlp(pooled[Offset(b, numSent) + s]) else pooled[Offset(b, numSent) + s]
  {
    var grouped := Split(pooled, bs, numSent);
    if MlpInTraining(m) then
      seq(bs, b requires 0 <= b < bs => seq(numSent, s requires 0 <= s < numSent => c.mlp(grouped[b][s])))
    else grouped
  }

  /** A view of the local embeddings, or the batch gathered from every process. */
  function GatheredView(local: Matrix, shards: seq<Matrix>, dist: Dist, training: bool): Matrix
    requires Gathers(dist, training) ==> dist.rank < |shards|
  {
    if Gathers(dist, training) then Concat(shards[dist.rank := local]) else local
  }

  /** The rank-correlation targets: the Spearman-style correlation of the rows with themselves. */
  function SelfSpearman(c: Collaborators, x: Matrix, d: nat): (corr: Matrix)
    requires d >= 2 && IsSqrt(c.sqrt) && IsRowArgsort(x, ArgsortRows(c.argsort, x), d)
    ensures IsMatrix(corr, |x|, |x|)
  {
    var order := ArgsortRows(c.argsort, x);
    CalSprCorr(x, order, x, order, d, c.sqrt)
  }

  /** What the loss computation needs once the embeddings are known. */
  ghost predicate LossReady(m: Model, c: Collaborators, batch: Batch, d: nat) {
    && m.args.temp != 0.0 && m.args.simf == "Spearmanr"
    && batch.distances.Some?
    && d >= 2 && IsSqrt(c.sqrt) && IsRowArgsort(batch.distances.value, ArgsortRows(c.argsort, batch.distances.value), d)
  }

  /** The rank-encoder loss between the rescaled logits of `z1`, `z2` and the rows' self-correlation. */
  function BaseELoss(m: Model, c: Collaborators, batch: Batch, z1: Matrix, z2: Matrix, d: nat): (lossB: Result<real>)
    requires LossReady(m, c, batch, d)
    ensures lossB.Ok? ==> lossB.value >= 0.0
  {
    var logits := SimMatrix(c.cos, z1, z2, m.args.temp);
    RankEncoderLoss(Rescale(logits, m.args.temp), |z1|, |z2|, SelfSpearman(c, batch.distances.value, d),
                    |batch.distances.value|, |batch.distances.value|, m.args.threshLow, m.args.threshUpp)
  }

  /**
   * The loss once the first and second views are known: the logits are their temperature-scaled
   * cosines, the rank-encoder loss compares the rescaled logits with the self-correlation of the
   * rows, and `LossFrom` joins them.
   */
  function TrainingLoss(m: Model, c: Collaborators, batch: Batch, z1: Matrix, z2: Matrix, d: nat): (r: Result<ClOutput>)
    requires LossReady(m, c, batch, d)
    ensures r.Ok? ==> && (m.args.lossType == "hinge" || m.args.lossType == "weighted_sum")
                      && (MlmRequested(batch) ==> m.hasLmHead)
                      && r.value.logits == SimMatrix(c.cos, z1, z2, m.args.temp)
    ensures r.Err? ==> r.error in {ShapeMismatch, LossTypeNotImplemented(m.args.lossType), MissingLmHead}
  {
    LossFrom(m, c, batch, SimMatrix(c.cos, z1, z2, m.args.temp), |z1|, BaseELoss(m, c, batch, z1, z2, d))
  }

  /**
   * The loss from the logits of `n` anchors and the rank-encoder loss: the combination policy
   * joins that loss with the contrastive cross-entropy against the identity labels, and the
   * weighted masked-language-model loss is added when requested.
   */
  function LossFrom(m: Model, c: Collaborators, batch: Batch, logits: Matrix, n: nat, lossB: Result<real>)
    : (r: Result<ClOutput>)
    ensures r.Ok? ==> && lossB.Ok? && (m.args.lossType == "hinge" || m.args.lossType == "weighted_sum")
                      && (MlmRequested(batch) ==> m.hasLmHead)
                      && r.value.logits == logits
    ensures r.Err? ==> || (lossB.Err? && r.error == lossB.error)
                       || r.error == LossTypeNotImplemented(m.args.lossType)
                       || r.error == MissingLmHead
  {
    if lossB.Err? then Err(lossB.error)
    else
      var combined := CombineLoss(m.args.lossType, c.crossEntropy(logits, Labels(n)), m.args.baseELmb, lossB.value);
      if combined.Err? then Err(combined.error)
      else if MlmRequested(batch) && !m.hasLmHead then Err(MissingLmHead)
      else Ok(ClOutput(combined.value + MlmTerm(m, c, batch), logits))
  }

  /**
   * The result of the training step: hard negatives and any similarity other than Spearman
   * correlation are not implemented, Spearman correlation fails without `distances1` (the code
   * calls `argsort` on `None`); otherwise the loss of the (gathered) first and second views.
   */
  function ClLoss(m: Model, c: Collaborators, batch: Batch, numSent: nat, len: nat, hidden: nat,
                  d: nat, dist: Dist, training: bool): (r: Result<ClOutput>)
    requires ClReady(m, c, batch, numSent, len, hidden, d, dist, training)
    ensures numSent == 3 ==> r == Err(HardNegativeNotImplemented)
    ensures numSent == 2 && m.args.simf != "Spearmanr" ==> r == Err(SimilarityNotImplemented(m.args.simf))
    ensures numSent == 2 && m.args.simf == "Spearmanr" && batch.distances.None? ==> r == Err(MissingDistances)
  {
    if numSent == 3 then Err(HardNegativeNotImplemented)
    else if m.args.simf != "Spearmanr" then Err(SimilarityNotImplemented(m.args.simf))
    else if batch.distances.None? then Err(MissingDistances)
    else
      var views := SentenceViews(m, c, batch, numSent, len, hidden);
      TrainingLoss(m, c, batch, GatheredView(View(views, 0), dist.z1Shards, dist, training),
                   GatheredView(View(views, 1), dist.z2Shards, dist, training), d)
  }

  /** The loss accumulation, with the masked-language-model term added in place. */
  method AccumulateLoss(m: Model, c: Collaborators, batch: Batch, z1: Matrix, z2: Matrix, d: nat)
    returns (r: Result<ClOutput>)
    requires LossReady(m, c, batch, d)
    ensures r == TrainingLoss(m, c, batch, z1, z2, d)
  {
    var logits := SimMatrix(c.cos, z1, z2, m.args.temp);
    var labels := Labels(|z1|);
    var target := SelfSpearman(c, batch.distances.value, d);
    var lossB := RankEncoderLoss(Rescale(logits, m.args.temp), |z1|, |z2|, target,
                                 |batch.distances.value|, |batch.distances.value|, m.args.threshLow, m.args.threshUpp);
    assert lossB == BaseELoss(m, c, batch, z1, z2, d);
    ghost var spec := LossFrom(m, c, batch, logits, |z1|, lossB);
    assert TrainingLoss(m, c, batch, z1, z2, d) == spec;
    if lossB.Err? {
      assert spec == Err(lossB.error);
      return Err(lossB.error);
    }
    var combined := CombineLoss(m.args.lossType, c.crossEntropy(logits, labels), m.args.baseELmb, lossB.value);
    if combined.Err? {
      assert spec == Err(combined.error);
      return Err(combined.error);
    }
    var loss := combined.value;
    if MlmRequested(batch) {
      if !m.hasLmHead {
        assert spec == Err(MissingLmHead);
        return Err(MissingLmHead);
      }
      loss := loss + MlmTerm(m, c, batch);
    }
    assert spec.Ok?;
    assert spec.value.logits == logits;
    assert spec.value.loss == loss;
    assert spec == Ok(ClOutput(loss, logits));
    return Ok(ClOutput(loss, logits));
  }

  /**
   * The gather step for every view in use: `z3` only with hard negatives, then `z1` and `z2`;
   * outside distributed training the local views are kept.
   */
  method GatherViews(views: seq<seq<Vector>>, numSent: nat, dist: Dist, training: bool)
    returns (z1: Matrix, z2: Matrix, z3: Matrix)
    requires 2 <= numSent <= 3 && forall b :: 0 <= b < |views| ==> |views[b]| == numSent
    requires Gathers(dist, training) ==>
               && dist.rank < |dist.z1Shards| && |dist.z2Shards| == |dist.z1Shards|
               && (numSent == 3 ==> |dist.z3Shards| == |dist.z1Shards|)
               && forall r :: 0 <= r < |dist.z1Shards| ==>
                    |dist.z1Shards[r]| == |views| && |dist.z2Shards[r]| == |views|
                    && (numSent == 3 ==> |dist.z3Shards[r]| == |views|)
    ensures z1 == GatheredView(View(views, 0), dist.z1Shards, dist, training)
    ensures z2 == GatheredView(View(views, 1), dist.z2Shards, dist, training)
    ensures numSent == 3 ==> z3 == GatheredView(View(views, 2), dist.z3Shards, dist, training)
    ensures numSent == 3 ==> |z3| == |z1| == |z2|
  {
    z1, z2 := View(views, 0), View(views, 1);
    z3 := if numSent == 3 then View(views, 2) else [];
    if Gathers(dist, training) {
      if numSent >= 3 {
        z3 := AllGatherConcat(dist.z3Shards, dist.rank, z3);
      }
      z1 := AllGatherConcat(dist.z1Shards, dist.rank, z1);
      z2 := AllGatherConcat(dist.z2Shards, dist.rank, z2);
    }
  }

  /**
   * `cl_forward`: encode the flattened batch, pool, view per sentence, gather across processes
   * when training distributed, build the logits (with hard-negative columns and weights for three
   * views, which then stop with an error), and accumulate the loss.
   */
  method ClForward(m: Model, c: Collaborators, batch: Batch, numSent: nat, len: nat, hidden: nat,
                   d: nat, dist: Dist, training: bool) returns (r: Result<ClOutput>)
    requires ClReady(m, c, batch, numSent, len, hidden, d, dist, training)
    ensures r == ClLoss(m, c, batch, numSent, len, hidden, d, dist, training)
  {
    var views := SentenceViews(m, c, batch, numSent, len, hidden);
    var z1, z2, z3 := GatherViews(views, numSent, dist, training);
    if numSent == 3 {
      var logits := AppendColumns(SimMatrix(c.cos, z1, z2, m.args.temp), SimMatrix(c.cos, z1, z3, m.args.temp));
      var cols := |z2| + |z3|;
      logits := AddMatrices(logits, HardNegativeWeights(|z3|, cols, m.args.hardNegativeWeight), |z1|, cols);
      return Err(HardNegativeNotImplemented);
    }
    if m.args.simf != "Spearmanr" {
      return Err(SimilarityNotImplemented(m.args.simf));
    }
    if batch.distances.None? {
      return Err(MissingDistances);
    }
    r := AccumulateLoss(m, c, batch, z1, z2, d);
  }

  /**
   * The masked-language-model term is added exactly when both its inputs and its labels are
   * present, and then it adds its weighted loss and nothing else; it fails only for a model
   * without a language-model head.
   */
  lemma MlmAddsItsWeightedLoss(m: Model, c: Collaborators, batch: Batch, z1: Matrix, z2: Matrix, d: nat)
    requires LossReady(m, c, batch, d)
    ensures var plain := batch.(mlmInputIds := None, mlmLabels := None);
            LossReady(m, c, plain, d)
            && var r, r0 := TrainingLoss(m, c, batch, z1, z2, d), TrainingLoss(m, c, plain, z1, z2, d);
               && (!MlmRequested(batch) ==> r == r0)
               && (r.Ok? ==> r0.Ok? && r.value.logits == r0.value.logits
                               && r.value.loss - r0.value.loss == MlmTerm(m, c, batch))
               && (MlmRequested(batch) && r0.Ok? ==> (r.Ok? <==> m.hasLmHead))
  {
    var plain := batch.(mlmInputIds := None, mlmLabels := None);
    assert BaseELoss(m, c, plain, z1, z2, d) == BaseELoss(m, c, batch, z1, z2, d);
  }

  /**
   * Without the masked-language-model term, `hinge` gives a loss at least the contrastive loss and
   * at least the weighted rank-encoder loss, and `weighted_sum` gives exactly their sum.
   */
  lemma LossCombination(m: Model, c: Collaborators, batch: Batch, logits: Matrix, n: nat, lossB: Result<real>)
    requires !MlmRequested(batch) && LossFrom(m, c, batch, logits, n, lossB).Ok?
    ensures lossB.Ok?
    ensures var r := LossFrom(m, c, batch, logits, n, lossB).value;
            var lossO := c.crossEntropy(r.logits, Labels(n));
            var weighted := m.args.baseELmb * lossB.value;
            && (m.args.lossType == "hinge" ==> r.loss >= lossO && r.loss >= weighted && (r.loss == lossO || r.loss == weighted))
            && (m.args.lossType == "weighted_sum" ==> r.loss == lossO + weighted)
  {
    var combined := CombineLoss(m.args.lossType, c.crossEntropy(logits, Labels(n)), m.args.baseELmb, lossB.value);
    assert MlmTerm(m, c, batch) == 0.0;
    assert LossFrom(m, c, batch, logits, n, lossB) == Ok(ClOutput(combined.value + 0.0, logits));
  }

  /**
   * Since every correlation lies in [-1, 1], thresholds that exclude that interval select no
   * target; the rank-encoder loss is then zero and `weighted_sum` leaves the contrastive loss alone.
   */
  lemma UnreachableThresholdsLeaveContrastiveLoss(m: Model, c: Collaborators, batch: Batch, z1: Matrix, z2: Matrix, d: nat)
    requires LossReady(m, c, batch, d) && !MlmRequested(batch)
    requires m.args.threshLow > 1.0 || m.args.threshUpp < -1.0 || m.args.threshLow > m.args.threshUpp
    requires m.args.lossType == "weighted_sum" && TrainingLoss(m, c, batch, z1, z2, d).Ok?
    ensures var r := TrainingLoss(m, c, batch, z1, z2, d).value;
            r.loss == c.crossEntropy(r.logits, Labels(|z1|))
  {
    var x := batch.distances.value;
    var order := ArgsortRows(c.argsort, x);
    CorrInRange(x, order, x, order, d, c.sqrt);
    var logits := SimMatrix(c.cos, z1, z2, m.args.temp);
    RankEncoderLossZeroWithoutQualifying(Rescale(logits, m.args.temp), |z1|, |z2|, SelfSpearman(c, x, d),
                                         |x|, |x|, m.args.threshLow, m.args.threshUpp);
  }

  /** The embedding step's output: the sentence embeddings and the backbone's last-layer states. */
  datatype SentEmbOutput = SentEmbOutput(pooled: Matrix, lastHidden: seq<Matrix>)

  /**
   * `sentemb_forward`: one backbone pass over (bs, len) inputs, the pooler, and the MLP head for
   * `cls` unless it is for training only.
   */
  function SentEmbForward(m: Model, c: Collaborators, ids: seq<seq<int>>, mask: seq<seq<int>>,
                          tokenTypes: Option<seq<seq<int>>>, len: nat, hidden: nat): (r: SentEmbOutput)
    requires PoolReady(m.pooler, mask, c.encoder(ids, mask, tokenTypes, NeedsHiddenStates(m.pooler)), |ids|, len, hidden)
    ensures |r.pooled| == |ids|
    ensures r.lastHidden == c.encoder(ids, mask, tokenTypes, NeedsHiddenStates(m.pooler)).lastHidden
    ensures !MlpAtInference(m) ==> IsMatrix(r.pooled, |ids|, hidden)
    ensures var pooled := Pool(m.pooler, mask, c.encoder(ids, mask, tokenTypes, NeedsHiddenStates(m.pooler)), |ids|, len, hidden);
            forall i :: 0 <= i < |ids| ==>
              r.pooled[i] == if MlpAtInference(m) then c.mlp(pooled[i]) else pooled[i]
  {
    var out := c.encoder(ids, mask, tokenTypes, NeedsHiddenStates(m.pooler));
    SentEmbOutput(InferenceRows(m, c, Pool(m.pooler, mask, out, |ids|, len, hidden)), out.lastHidden)
  }

  /** The pooled rows, through the MLP head when the embedding step uses it. */
  function InferenceRows(m: Model, c: Collaborators, pooled: Matrix): (rows: Matrix)
    ensures |rows| == |pooled|
    ensures forall i :: 0 <= i < |pooled| ==>
              rows[i] == if MlpAtInference(m) then c.mlp(pooled[i]) else pooled[i]
  {
    if MlpAtInference(m) then seq(|pooled|, i requires 0 <= i < |pooled| => c.mlp(pooled[i])) else pooled
  }

  /**
   * On the same pooled rows, the training view of sentence `s` of instance `b` is the embedding
   * step's row `b * numSent + s`, with the MLP head applied on top when it is for training only.
   */
  lemma {:induction false} ViewsMatchRows(m: Model, c: Collaborators, pooled: Matrix, bs: nat, numSent: nat, b: nat, s: nat)
    requires |pooled| == Offset(bs, numSent) && b < bs && s < numSent
    ensures BlocksFit(bs, numSent) && Offset(b, numSent) + s < |pooled|
    ensures TrainingViews(m, c, pooled, bs, numSent)[b][s]
              == if MlpInTraining(m) && !MlpAtInference(m) then c.mlp(InferenceRows(m, c, pooled)[Offset(b, numSent) + s])
                 else InferenceRows(m, c, pooled)[Offset(b, numSent) + s]
  {
    var k := Offset(b, numSent) + s;
    var grouped := Split(pooled, bs, numSent);
    assert grouped[b][s] == pooled[k];
  }

  /**
   * The embedding of sentence `s` of instance `b` in the training step is the embedding step's
   * output for the same flattened row, except for a `cls` model whose MLP head is for training
   * only: there training applies the head to the embedding the embedding step returns. The
   * backbone is one deterministic collaborator for both steps (its dropout and training mode are
   * not modelled), so this compares the two steps on equal backbone outputs.
   */
  lemma {:induction false} TrainingMatchesInference(m: Model, c: Collaborators, batch: Batch, numSent: nat, len: nat, hidden: nat,
                                 b: nat, s: nat)
    requires forall i :: 0 <= i < |batch.inputIds| ==> |batch.inputIds[i]| == numSent
    requires PoolReady(m.pooler, Concat(batch.attentionMask), MainOutput(m, c, batch),
                       Offset(|batch.inputIds|, numSent), len, hidden)
    requires b < |batch.inputIds| && s < numSent
    ensures |Concat(batch.inputIds)| == Offset(|batch.inputIds|, numSent) && BlocksFit(|batch.inputIds|, numSent)
    ensures MlpInTraining(m) && !MlpAtInference(m) ==>
              SentenceViews(m, c, batch, numSent, len, hidden)[b][s]
                == c.mlp(SentEmbForward(m, c, Concat(batch.inputIds), Concat(batch.attentionMask), FlatTokenTypes(batch),
                                        len, hidden).pooled[Offset(b, numSent) + s])
    ensures !(MlpInTraining(m) && !MlpAtInference(m)) ==>
              SentenceViews(m, c, batch, numSent, len, hidden)[b][s]
                == SentEmbForward(m, c, Concat(batch.inputIds), Concat(batch.attentionMask), FlatTokenTypes(batch),
                                  len, hidden).pooled[Offset(b, numSent) + s]
  {
    var bs, ids, mask := |batch.inputIds|, Concat(batch.inputIds), Concat(batch.attentionMask);
    ConcatUniform(batch.inputIds, numSent);
    var pooled := Pool(m.pooler, mask, MainOutput(m, c, batch), Offset(bs, numSent), len, hidden);
    assert SentenceViews(m, c, batch, numSent, len, hidden) == TrainingViews(m, c, pooled, bs, numSent);
    assert SentEmbForward(m, c, ids, mask, FlatTokenTypes(batch), len, hidden).pooled == InferenceRows(m, c, pooled);
    ViewsMatchRows(m, c, pooled, bs, numSent, b, s);
  }

  /** A call of `forward`: `sent_emb=True` with (bs, len) inputs, or a training call. */
  datatype Request =
    | SentEmbRequest(ids: seq<seq<int>>, mask: seq<seq<int>>, tokenTypes: Option<seq<seq<int>>>)
    | TrainRequest(batch: Batch, numSent: nat, d: nat, dist: Dist, training: bool)

  datatype ForwardOutput = Embeddings(emb: SentEmbOutput) | Training(out: ClOutput)

  ghost predicate ForwardReady(m: Model, c: Collaborators, req: Request, len: nat, hidden: nat) {
    match req
    case SentEmbRequest(ids, mask, tokenTypes) =>
      Built(m) && PoolReady(m.pooler, mask, c.encoder(ids, mask, tokenTypes, NeedsHiddenStates(m.pooler)), |ids|, len, hidden)
    case TrainRequest(batch, numSent, d, dist, training) =>
      ClReady(m, c, batch, numSent, len, hidden, d, dist, training)
  }

  /** `forward` of both backbone variants: the embedding step for `sent_emb`, the training step otherwise. */
  method Forward(m: Model, c: Collaborators, req: Request, len: nat, hidden: nat) returns (r: Result<ForwardOutput>)
    requires ForwardReady(m, c, req, len, hidden)
    ensures req.SentEmbRequest? ==>
              r == Ok(Embeddings(SentEmbForward(m, c, req.ids, req.mask, req.tokenTypes, len, hidden)))
    ensures req.TrainRequest? ==>
              var t := ClLoss(m, c, req.batch, req.numSent, len, hidden, req.d, req.dist, req.training);
              (t.Ok? ==> r == Ok(Training(t.value))) && (t.Err? ==> r == Err(t.error))
  {
    match req
    case SentEmbRequest(ids, mask, tokenTypes) =>
      r := Ok(Embeddings(SentEmbForward(m, c, ids, mask, tokenTypes, len, hidden)));
    case TrainRequest(batch, numSent, d, dist, training) =>
      var t := ClForward(m, c, batch, numSent, len, hidden, d, dist, training);
      r := if t.Ok? then Ok(Training(t.value)) else Err(t.error);
  }
}
