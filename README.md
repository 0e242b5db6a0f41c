# SimCSE with a rank-encoder loss, modelled in Dafny

This project models the training and embedding module of a contrastive sentence-embedding model
(SimCSE) extended with a rank-encoder loss. A BERT or RoBERTa backbone encodes the num_sent views
of every instance (two views of a sentence, and with hard negatives a third, different sentence)
in one call on the flattened batch. A parameter-free pooler turns token states into one vector
per sentence. The training step scores every anchor against every positive by temperature-scaled cosine
similarity, which gives a cross-entropy loss against the identity labels. It adds a second
loss: the squared error between those similarities and a Spearman-style rank correlation of
given distance rows, kept only where the correlation lies between two thresholds. The two losses
are joined by a `hinge` or `weighted_sum` policy. An optional masked-language-model term is added
to the result.

Modules, one per concern of the module's code:

- `Outcomes` (`outcomes.dfy`): `Option`, `Result`, and the error exits of the code (unknown
  pooler, hard negatives, other similarity functions, unknown loss type, incompatible shapes,
  missing language-model head, Spearman targets without `distances1`).
- `Tensors` (`tensors.dfy`): vectors and matrices as `seq<real>`, sums and dot products, and the
  algebra the proofs use.
- `RankTransform` (`ranks.dfy`): `_get_ranks`, as an imperative fill of a 2-D array, proved
  against the inverse permutation of each row's argsort.
- `Spearman` (`spearman.dfy`): `cal_spr_corr`, covering centring, normalising and the product of
  the normalised rank matrices.
- `Pooling` (`pooler.dfy`): `Pooler`, with its name validation and its five strategies.
- `Contrastive` (`contrastive.dfy`): the tensor bookkeeping of `cl_forward`:
  - flattening and regrouping, and the per-sentence views;
  - the gather of embeddings across processes (an imperative method over an array of buffers);
  - logits, hard-negative columns and weights, and labels;
  - the threshold mask, the broadcast masked squared error, and the loss combination.
- `ClModel` (`clmodel.dfy`): `cl_init` and the constructors, the training step `cl_forward`
  (a method proved equal to the pure `ClLoss`), `sentemb_forward`, and the `forward` dispatch.

The backbone, the MLP head, cosine similarity, the cross-entropy losses, the language-model head,
`torch.argsort` and `torch.sqrt` are passed in as functions. `argsort` is constrained only by
`IsArgsort`: its result may be any permutation that sorts the row, because `torch.argsort` is
not asked to be stable. `sqrt` is constrained by `IsSqrt`: a non-negative root whose square is
its argument. Arithmetic is over `real`. The training and embedding steps take a model in the
state its constructors leave it (`ClModel.Built`: the model is `NewModel` of its own options), so
a model never holds an MLP head its pooler type does not build.

## Model

| member | source | states |
|---|---|---|
| RankTransform.GetRanks | main-code/main/model/simcse_rank_encoder/models.py:87-94 | allocates an n×d buffer and fills it row by row by scattering 0..d-1 to the argsort positions; every entry equals the inverse permutation of that row's argsort |
| RankTransform.Inverse | main-code/main/model/simcse_rank_encoder/models.py:88-93 | the rank at position `x_rank[i][k]` is `k`, and every rank lies in 0..d-1 and points back to its position, so the ranks undo the argsort |
| RankTransform.RankMatrix | main-code/main/model/simcse_rank_encoder/models.py:87-94 | the rank matrix has one row per argsort row, each as long as that row |
| RankTransform.InverseIsPermutation | main-code/main/model/simcse_rank_encoder/models.py:88-93 | each rank row is a permutation of 0..d-1, and inverting it again gives the argsort back |
| RankTransform.RanksPreserveOrder | main-code/main/model/simcse_rank_encoder/models.py:88-93 | a smaller value gets a smaller rank, and a smaller rank never belongs to a larger value |
| RankTransform.RankCountsSmaller | main-code/main/model/simcse_rank_encoder/models.py:88-93 | in a row of distinct values, a rank is the number of entries smaller than it |
| RankTransform.RanksIndependentOfArgsort | main-code/main/model/simcse_rank_encoder/models.py:88 | in a row of distinct values, every sorting permutation `argsort` may return gives the same ranks |
| Spearman.PermutationSum | main-code/main/model/simcse_rank_encoder/models.py:100-101 | a permutation of 0..d-1 sums to the triangle number d(d-1)/2 |
| Spearman.TriangleClosedForm | main-code/main/model/simcse_rank_encoder/models.py:100-101 | the sum 0 + 1 + … + (d-1) equals d(d-1)/2 |
| Spearman.RankRowMean | main-code/main/model/simcse_rank_encoder/models.py:100-101 | every rank row has mean (d-1)/2 |
| Spearman.CentredRowSumsToZero | main-code/main/model/simcse_rank_encoder/models.py:102-103 | a row minus its mean sums to zero |
| Spearman.CentredRankNormPositiveIff | main-code/main/model/simcse_rank_encoder/models.py:104-107 | the centred rank row's squared norm is non-negative and is positive exactly when d ≥ 2, so the division is defined exactly then |
| Spearman.RankNormPositive | main-code/main/model/simcse_rank_encoder/models.py:104-107 | for d ≥ 2 the square root of that norm, the divisor, is positive |
| Spearman.NormalizedIsUnit | main-code/main/model/simcse_rank_encoder/models.py:104-107 | after the division each rank row has unit length |
| Spearman.NormalizedRanks | main-code/main/model/simcse_rank_encoder/models.py:98-107 | the normalised rank matrix keeps the shape (rows, d) |
| Spearman.CalSprCorr | main-code/main/model/simcse_rank_encoder/models.py:97-109 | the correlation matrix has shape rows(x) × rows(y) |
| Spearman.CorrIsPearsonOfRanks | main-code/main/model/simcse_rank_encoder/models.py:97-109 | both centred rank norms are positive, and entry (i, j) is `Pearson` of the two rank rows: the dot product of the centred rank rows over the product of their norms |
| Spearman.CorrInRange | main-code/main/model/simcse_rank_encoder/models.py:97-109 | every entry lies in [-1, 1] |
| Spearman.SelfCorrSymmetricUnitDiagonal | main-code/main/model/simcse_rank_encoder/models.py:270-273 | correlating the rows with themselves, as the training step does, gives a symmetric matrix with ones on the diagonal |
| Pooling.NewPooler | main-code/main/model/simcse_rank_encoder/models.py:58-61 | construction succeeds exactly for the five listed names, keeps the name, and otherwise fails with the unrecognised name |
| Pooling.PoolerNameRoundTrip | main-code/main/model/simcse_rank_encoder/models.py:58-61 | the name of every strategy is accepted and builds that strategy |
| Pooling.Pool | main-code/main/model/simcse_rank_encoder/models.py:63-83 | every strategy returns one hidden-size vector per sequence; `cls` and `cls_before_pooler` return the last layer's first token |
| Pooling.AllOnesMaskIsPlainMean | main-code/main/model/simcse_rank_encoder/models.py:70-71 | with an all-ones mask over L tokens the masked mean is the plain mean of the L token vectors |
| Pooling.MaskedMeanOfConstant | main-code/main/model/simcse_rank_encoder/models.py:70-71 | if every token carries the same vector, the masked mean is that vector, for any mask with nonzero sum |
| Pooling.MaskedMeanOfMidpoint | main-code/main/model/simcse_rank_encoder/models.py:72-81 | averaging two layers and then pooling equals pooling each layer and averaging the results |
| Pooling.AvgFirstLastAveragesLayers | main-code/main/model/simcse_rank_encoder/models.py:72-76 | `avg_first_last` is the average of the `avg` poolings of the first and the last layer |
| Contrastive.ConcatUniform | main-code/main/model/simcse_rank_encoder/models.py:153-156 | merging k groups of n rows gives k·n rows, and row r·n + j is row j of group r |
| Contrastive.OffsetIsProduct | main-code/main/model/simcse_rank_encoder/models.py:153-156 | the block offset used for indexing is the product b·n |
| Contrastive.Split | main-code/main/model/simcse_rank_encoder/models.py:188 | regrouping k·n rows into k groups of n makes group b rows b·n to (b+1)·n |
| Contrastive.SplitConcat | main-code/main/model/simcse_rank_encoder/models.py:153-188 | regrouping the flattened batch gives the groups back |
| Contrastive.ConcatSplit | main-code/main/model/simcse_rank_encoder/models.py:153-188 | flattening the regrouped rows gives the rows back |
| Contrastive.ViewOfFlattenedBatch | main-code/main/model/simcse_rank_encoder/models.py:153-200 | after flattening, a row-wise map and regrouping, view s of instance b is the image of sentence s of instance b |
| Contrastive.AllGatherConcat | main-code/main/model/simcse_rank_encoder/models.py:203-224 | the gathered batch is the rank-ordered concatenation of the shards with the caller's slot replaced: world·bs rows, the caller's block is its local tensor, every other block is that process's shard |
| Contrastive.FillSlots | main-code/main/model/simcse_rank_encoder/models.py:212-221 | after the collective and the slot replacement, the list holds every process's shard in rank order, except the caller's slot, which holds its local tensor |
| Contrastive.GatheredBlocks | main-code/main/model/simcse_rank_encoder/models.py:218-224 | the same block layout, stated for the concatenation itself |
| Contrastive.OwnSlotReplacementKeepsValues | main-code/main/model/simcse_rank_encoder/models.py:218-221 | when the collective delivered the caller's own tensor, replacing the slot leaves the values unchanged |
| Contrastive.SimMatrix | main-code/main/model/simcse_rank_encoder/models.py:226 | the logits form a |z1| × |z2| matrix, and each entry times the temperature is the cosine of the pair |
| Contrastive.RescaledLogitsAreCosines | main-code/main/model/simcse_rank_encoder/models.py:284 | multiplying the logits by the temperature gives back the plain cosine similarities |
| Contrastive.AppendColumns | main-code/main/model/simcse_rank_encoder/models.py:248-250 | each row of the result is the row of the first matrix followed by the row of the second |
| Contrastive.HardNegativeWeights | main-code/main/model/simcse_rank_encoder/models.py:255-262 | the weight matrix has shape k × cols; entry (i, j) is the weight when j is cols - k + i and zero otherwise |
| Contrastive.HardNegativeWeightsTouchOwnNegative | main-code/main/model/simcse_rank_encoder/models.py:247-262 | adding the weights leaves every anchor-positive logit, adds the weight to each anchor's own hard negative, and leaves the other hard-negative logits |
| Contrastive.LabelsSelectPositives | main-code/main/model/simcse_rank_encoder/models.py:252 | label i selects column i, which holds the logit of anchor i with its own positive |
| Contrastive.ThresholdMask | main-code/main/model/simcse_rank_encoder/models.py:280-283 | a mask entry is 1.0 exactly when the correlation lies in [low, upp], inclusive, and 0.0 otherwise |
| Contrastive.BroadcastDim | main-code/main/model/simcse_rank_encoder/models.py:284 | two axes broadcast exactly when they are equal or one of them is 1, and then to the other's size |
| Contrastive.ExpandSameShape | main-code/main/model/simcse_rank_encoder/models.py:284 | broadcasting a matrix to its own shape leaves it unchanged |
| Contrastive.RankEncoderLoss | main-code/main/model/simcse_rank_encoder/models.py:284-285 | the loss fails exactly when the shapes do not broadcast, and is otherwise non-negative |
| Contrastive.KeptErrorMean | main-code/main/model/simcse_rank_encoder/models.py:285 | the mean of the kept squared errors is non-negative and is zero exactly when every kept squared error is zero |
| Contrastive.RankEncoderLossZeroIff | main-code/main/model/simcse_rank_encoder/models.py:280-285 | for equal shapes, the loss is zero exactly when the rescaled logits equal the correlation at every entry whose correlation lies in [low, upp] |
| Contrastive.RankEncoderLossZeroWithoutQualifying | main-code/main/model/simcse_rank_encoder/models.py:280-285 | when no correlation lies in [low, upp], the loss is zero, for any broadcastable shapes |
| Contrastive.CombineLoss | main-code/main/model/simcse_rank_encoder/models.py:292-297 | `hinge` gives the larger of the two terms (at least both, equal to one); `weighted_sum` adds the weighted rank-encoder loss; any other name fails with that name |
| ClModel.NewModel | main-code/main/model/simcse_rank_encoder/models.py:365-372 | `BertForCL.__init__` and its `cl_init` call (models.py:111-120; `RobertaForCL.__init__` is the same): building succeeds exactly for a valid pooler name, the MLP head exists exactly for `cls`, and the language-model head exists exactly when masked language modelling is on |
| ClModel.MlpUsedOnlyWhenBuilt | main-code/main/model/simcse_rank_encoder/models.py:187-193 | for a model built by `NewModel`, training view s of instance b is the MLP head applied to pooled row b·numSent+s exactly when the model owns a head, and the embedding step's row is the head applied to it exactly when the model owns a head that is not for training only (models.py:349-350); otherwise the pooled row itself |
| ClModel.TrainingViews | main-code/main/model/simcse_rank_encoder/models.py:187-193 | the (bs, numSent) views of bs·numSent pooled rows: view s of instance b is pooled row b·numSent+s, through the MLP head exactly for `cls` |
| ClModel.InferenceRows | main-code/main/model/simcse_rank_encoder/models.py:348-350 | each output row is the pooled row through the MLP head exactly for `cls` without `mlp_only_train`, and the pooled row itself otherwise |
| ClModel.SentenceViews | main-code/main/model/simcse_rank_encoder/models.py:187-193 | the pooled embeddings of the flattened batch regroup into numSent views per instance, view s of instance b being pooled row b·numSent+s through the MLP head exactly for `cls` |
| ClModel.SelfSpearman | main-code/main/model/simcse_rank_encoder/models.py:270-273 | the targets are a square matrix over the distance rows |
| ClModel.BaseELoss | main-code/main/model/simcse_rank_encoder/models.py:276-285 | the rank-encoder loss of a step is non-negative |
| ClModel.TrainingLoss | main-code/main/model/simcse_rank_encoder/models.py:226-306 | a successful loss used a valid loss type, had a language-model head when the MLM term was requested, and its logits are the temperature-scaled cosine matrix of the two views; a failure is a shape mismatch, an unknown loss type or a missing head |
| ClModel.LossFrom | main-code/main/model/simcse_rank_encoder/models.py:288-306 | given the logits and the rank-encoder loss, a success needs a successful rank-encoder loss, a valid loss type and a language-model head when MLM is requested, and keeps the logits; a failure is the rank-encoder error, `LossTypeNotImplemented` or `MissingLmHead` |
| ClModel.ClLoss | main-code/main/model/simcse_rank_encoder/models.py:264-275 | three views always fail as not implemented; with two views any similarity other than Spearman fails, and Spearman without `distances1` fails where `cal_spr_corr` would be called on `None` |
| ClModel.AccumulateLoss | main-code/main/model/simcse_rank_encoder/models.py:276-306 | accumulating the loss in place, with the MLM term added last, gives `TrainingLoss` |
| ClModel.GatherViews | main-code/main/model/simcse_rank_encoder/models.py:196-224 | the views the loss sees are the local views, gathered across processes exactly in distributed training, with `z3` gathered only for three views |
| ClModel.ClForward | main-code/main/model/simcse_rank_encoder/models.py:122-316 | the training step returns `ClLoss` of its inputs |
| ClModel.MlmAddsItsWeightedLoss | main-code/main/model/simcse_rank_encoder/models.py:302-306 | the MLM term is added only when both its inputs and labels are present; it then adds exactly its weighted loss, and it fails only without a language-model head |
| ClModel.LossCombination | main-code/main/model/simcse_rank_encoder/models.py:288-297 | for any logits and rank-encoder loss, a successful loss without MLM comes from a successful rank-encoder loss; `hinge` then gives at least the contrastive loss and at least the weighted rank-encoder loss, equal to one of them, and `weighted_sum` gives their sum |
| ClModel.UnreachableThresholdsLeaveContrastiveLoss | main-code/main/model/simcse_rank_encoder/models.py:280-295 | thresholds outside [-1, 1] select no target, so `weighted_sum` leaves exactly the contrastive loss |
| ClModel.SentEmbForward | main-code/main/model/simcse_rank_encoder/models.py:319-359 | the embedding step returns one embedding per input sequence and the backbone's last-layer states; embedding i is the pooler output for sequence i, through the MLP head exactly for `cls` without `mlp_only_train` |
| ClModel.ViewsMatchRows | main-code/main/model/simcse_rank_encoder/models.py:187-193 | on the same pooled rows, training view `s` of instance `b` is embedding row `b * numSent + s`, passed through the MLP head once more when that head is for training only |
| ClModel.TrainingMatchesInference | main-code/main/model/simcse_rank_encoder/models.py:348-350 | given equal backbone outputs for the two steps (dropout is not modelled), a training embedding equals the embedding step's output for the same flattened row, except that a `cls` model with a training-only head applies the head to it in training |
| ClModel.Forward | main-code/main/model/simcse_rank_encoder/models.py:395-429 | `sent_emb` runs the embedding step and returns its output; otherwise the training step's result is returned; `RobertaForCL.forward` (models.py:466-498) dispatches the same way, the backbone being a collaborator |

## Left out

- Gradients and autograd are not modelled. The reason the gather puts the caller's own tensor back into its slot (so gradients flow through it) is therefore not captured; only the resulting values are.
- Floating point is not modelled: arithmetic is over `real`.
  - A zero temperature or d = 1 gives infinities or NaN in the code. The model requires a nonzero temperature and d ≥ 2 in the Spearman step.
  - A mask row with zero sum is likewise a precondition of the averaging poolers.
- The backbone, `MLPLayer` (linear layer and tanh), `Similarity`'s cosine, `CrossEntropyLoss`, and the BERT/RoBERTa language-model heads are collaborator functions without bodies of their own.
- `torch.argsort` and `torch.sqrt` are collaborator functions, constrained by `IsArgsort` and `IsSqrt`.
- The `torch.distributed` collective is not modelled: `is_initialized`, `get_rank`, `get_world_size` and `all_gather`. The shards it delivers are an input of the gather.
- The MLM branch:
  - The MLM backbone pass is made only when both MLM inputs and labels are present. The code also runs it when only the inputs are given, but then never uses its result.
  - The reshaping of the MLM labels is folded into the MLM loss collaborator.
- Device transfers, `contiguous()`, dtype casts, the tuple returned when `return_dict` is false, and the output records are not modelled.
- The backbone arguments `position_ids`, `head_mask`, `inputs_embeds` and `output_attentions` are only passed through by the code, and are not modelled.
- The training step accepts `labels`, `output_hidden_states`, `distances2`, `baseE_vecs1` and `baseE_vecs2` but never reads them; the model does not take them. The rank targets are the self-correlation of `distances1`, as in the code.
- The commented-out Gaussian-noise negatives are not modelled.
- `init_weights`, the pretrained-model base classes and `_keys_to_ignore_on_load_missing` are not modelled.
- `Pooler.forward` has a final `raise NotImplementedError` that no constructed pooler reaches. `PoolerType` has exactly the five accepted strategies.
- `ClModel.ClReady` requires the attention mask. The training step reshapes it (models.py:154) and fails when it is `None`.
- `ClModel.ForwardReady` also requires the attention mask for the embedding step, and `Pooling.PoolReady` requires a well-shaped mask even for the two `cls` strategies. In the code, the embedding step passes the mask to the backbone, which accepts `None`. `Pooler.forward` reads the mask only for the averaging strategies. So without a mask, the embedding step succeeds for `cls` and `cls_before_pooler` and fails for the averages. The model represents neither case.
- `ClModel.TrainingMatchesInference`: the backbone's dropout and its dependence on training mode are not modelled. The backbone is one deterministic collaborator for both steps, so the lemma compares the training step and the embedding step on equal backbone outputs. In the code, the training pass (models.py:159-169) runs with dropout and the embedding pass usually does not, so the two rows generally differ.
- `Pooling.PoolReady` requires sequences of at least one token for the two `cls` strategies. With zero-length sequences, taking token 0 fails in the code; that failure is not modelled.
- `ClModel.ClReady` requires two or three views. With one view the code fails indexing view 1, and with four or more `z3` is never bound; neither is modelled.
- `Spearman.CalSprCorr` is not proved invariant under a permutation of the input's columns.
- `RankTransform.RanksIndependentOfArgsort` and `RankTransform.RankCountsSmaller` hold only for rows of distinct values. With ties, any sorting permutation may be chosen and the ranks may differ.
