/**
 * The tensor bookkeeping of the contrastive training step: flattening the sentences of each
 * instance into one batch and splitting them back, the gather of embeddings across processes,
 * the similarity logits with their hard-negative columns and weights, the identity labels, and
 * the thresholded rank-encoder loss with its combination policy.
 */
module Contrastive {
  import opened Tensors
  import opened Outcomes

  // ---------------------------------------------------------------- reshaping

  /** `torch.cat(blocks, 0)`, which is also the `view` that merges the two leading axes. */
  function Concat<T>(blocks: seq<seq<T>>): (full: seq<T>)
  {
    if blocks == [] then [] else Concat(blocks[..|blocks| - 1]) + blocks[|blocks| - 1]
  }

  /** `b * n`, the first row of block `b`, written as repeated addition so that index arithmetic stays linear. */
  function Offset(b: nat, n: nat): nat {
    if b == 0 then 0 else Offset(b - 1, n) + n
  }

  lemma {:induction false} OffsetIsProduct(b: nat, n: nat)
    ensures Offset(b, n) == b * n
  {
    if b > 0 {
      OffsetIsProduct(b - 1, n);
    }
  }

  lemma {:induction false} OffsetMonotone(a: nat, b: nat, n: nat)
    requires a <= b
    ensures Offset(a, n) <= Offset(b, n)
  {
    if a < b {
      OffsetMonotone(a, b - 1, n);
    }
  }

  /** Each of the first `k` blocks of `n` rows ends at or before row `k * n`. */
  predicate BlocksFit(k: nat, n: nat) {
    forall b :: 0 <= b < k ==> Offset(b, n) + n <= Offset(k, n)
  }

  lemma AllBlocksFit(k: nat, n: nat)
    ensures BlocksFit(k, n)
  {
    forall b | 0 <= b < k
      ensures Offset(b, n) + n <= Offset(k, n)
    {
      OffsetMonotone(b + 1, k, n);
    }
  }

  /** Concatenating `k` blocks of `n` rows gives `k * n` rows; row `r * n + j` is row `j` of block `r`. */
  lemma {:induction false} ConcatUniform<T>(blocks: seq<seq<T>>, n: nat)
    requires forall r :: 0 <= r < |blocks| ==> |blocks[r]| == n
    ensures |Concat(blocks)| == Offset(|blocks|, n) && BlocksFit(|blocks|, n)
    ensures forall r, j :: 0 <= r < |blocks| && 0 <= j < n ==> Concat(blocks)[Offset(r, n) + j] == blocks[r][j]
  {
    AllBlocksFit(|blocks|, n);
    if blocks != [] {
      var k := |blocks| - 1;
      var front := blocks[..k];
      ConcatUniform(front, n);
      assert Concat(blocks) == Concat(front) + blocks[k];
      assert blocks == front + [blocks[k]];
      AppendBlock(Concat(front), front, blocks[k], n);
    }
  }

  /** Appending an `n`-row block to rows laid out as `n`-row blocks keeps that layout. */
  lemma {:induction false} AppendBlock<T>(rows: seq<T>, front: seq<seq<T>>, last: seq<T>, n: nat)
    requires forall r :: 0 <= r < |front| ==> |front[r]| == n
    requires |rows| == Offset(|front|, n) && |last| == n
    requires BlocksFit(|front|, n) && BlocksFit(|front| + 1, n)
    requires forall r, j :: 0 <= r < |front| && 0 <= j < n ==> rows[Offset(r, n) + j] == front[r][j]
    ensures forall r, j :: 0 <= r <= |front| && 0 <= j < n ==> (rows + last)[Offset(r, n) + j] == (front + [last])[r][j]
  {
    var blocks := front + [last];
    forall r, j | 0 <= r <= |front| && 0 <= j < n
      ensures (rows + last)[Offset(r, n) + j] == blocks[r][j]
    {
      if r < |front| {
        assert blocks[r] == front[r];
        assert (rows + last)[Offset(r, n) + j] == rows[Offset(r, n) + j];
      } else {
        assert (rows + last)[Offset(r, n) + j] == last[j];
      }
    }
  }

  /** The `view` that splits `k * n` rows into `k` groups of `n`: group `b` is rows `[b * n, (b + 1) * n)`. */
  function Split<T>(f: seq<T>, k: nat, n: nat): (groups: seq<seq<T>>)
    requires |f| == Offset(k, n)
    ensures |groups| == k && BlocksFit(k, n)
    ensures forall b :: 0 <= b < k ==> groups[b] == f[Offset(b, n) .. Offset(b, n) + n]
  {
    AllBlocksFit(k, n);
    seq(k, b requires 0 <= b < k => f[Offset(b, n) .. Offset(b, n) + n])
  }

  /** Splitting a concatenation of `n`-row blocks gives the blocks back. */
  lemma {:induction false} SplitConcat<T>(blocks: seq<seq<T>>, n: nat)
    requires forall r :: 0 <= r < |blocks| ==> |blocks[r]| == n
    ensures |Concat(blocks)| == Offset(|blocks|, n)
    ensures Split(Concat(blocks), |blocks|, n) == blocks
  {
    ConcatUniform(blocks, n);
    var groups := Split(Concat(blocks), |blocks|, n);
    forall b | 0 <= b < |blocks|
      ensures groups[b] == blocks[b]
    {
      SplitConcatAt(blocks, n, b);
    }
  }

  lemma {:induction false} SplitConcatAt<T>(blocks: seq<seq<T>>, n: nat, b: nat)
    requires forall r :: 0 <= r < |blocks| ==> |blocks[r]| == n
    requires b < |blocks|
    ensures |Concat(blocks)| == Offset(|blocks|, n)
    ensures Split(Concat(blocks), |blocks|, n)[b] == blocks[b]
  {
    ConcatUniform(blocks, n);
    var full := Concat(blocks);
    UniformBlock(full, blocks, n, b);
    assert Split(full, |blocks|, n)[b] == full[Offset(b, n)..Offset(b, n) + n];
  }

  /** In rows laid out as `n`-row blocks, block `b` occupies rows `[b * n, (b + 1) * n)`. */
  lemma {:induction false} UniformBlock<T>(full: seq<T>, blocks: seq<seq<T>>, n: nat, b: nat)
    requires |full| == Offset(|blocks|, n) && BlocksFit(|blocks|, n)
    requires forall r :: 0 <= r < |blocks| ==> |blocks[r]| == n
    requires b < |blocks|
    requires forall r, j :: 0 <= r < |blocks| && 0 <= j < n ==> full[Offset(r, n) + j] == blocks[r][j]
    ensures Offset(b, n) + n <= |full|
    ensures full[Offset(b, n)..Offset(b, n) + n] == blocks[b]
  {
    SliceIsBlock(full, Offset(b, n), blocks[b]);
  }

  /** A slice of `|block|` rows that agrees with `block` row by row is `block`. */
  lemma SliceIsBlock<T>(full: seq<T>, start: nat, block: seq<T>)
    requires start + |block| <= |full|
    requires forall j :: 0 <= j < |block| ==> full[start + j] == block[j]
    ensures full[start..start + |block|] == block
  {
    var slice := full[start..start + |block|];
    forall j | 0 <= j < |block|
      ensures slice[j] == block[j]
    {
      assert slice[j] == full[start + j];
    }
  }

  /** Concatenating the groups of a split gives the rows back. */
  lemma {:induction false} ConcatSplit<T>(f: seq<T>, k: nat, n: nat)
    requires |f| == Offset(k, n)
    ensures Concat(Split(f, k, n)) == f
    decreases k
  {
    if k > 0 {
      var front, last := f[..Offset(k - 1, n)], f[Offset(k - 1, n)..];
      var frontGroups := Split(front, k - 1, n);
      SplitLast(f, k, n);
      ConcatSplit(front, k - 1, n);
      ConcatSnoc(frontGroups, last);
      calc {
        Concat(Split(f, k, n));
        Concat(frontGroups + [last]);
        Concat(frontGroups) + last;
        front + last;
        f;
      }
    }
  }

  /** Appending one block to a list of blocks appends its rows to the concatenation. */
  lemma {:induction false} ConcatSnoc<T>(blocks: seq<seq<T>>, block: seq<T>)
    ensures Concat(blocks + [block]) == Concat(blocks) + block
  {
    assert (blocks + [block])[..|blocks|] == blocks;
  }

  /** Splitting `k` groups is splitting the first `k - 1` and adding the last `n` rows as one more group. */
  lemma SplitLast<T>(f: seq<T>, k: nat, n: nat)
    requires |f| == Offset(k, n) && k > 0
    ensures Offset(k - 1, n) <= |f|
    ensures Split(f, k, n) == Split(f[..Offset(k - 1, n)], k - 1, n) + [f[Offset(k - 1, n)..]]
  {
    var groups := Split(f, k, n);
    var start := Offset(k - 1, n);
    assert start + n == |f|;
    assert groups[k - 1] == f[start..start + n] == f[start..];
    SplitPrefix(f, k, n);
    assert groups == groups[..k - 1] + [groups[k - 1]];
  }

  /** All groups but the last are the split of the rows before the last group. */
  lemma SplitPrefix<T>(f: seq<T>, k: nat, n: nat)
    requires |f| == Offset(k, n) && k > 0
    ensures Offset(k - 1, n) <= |f|
    ensures Split(f, k, n)[..k - 1] == Split(f[..Offset(k - 1, n)], k - 1, n)
  {
    var front := f[..Offset(k - 1, n)];
    var groups := Split(f, k, n);
    var frontGroups := Split(front, k - 1, n);
    forall b | 0 <= b < k - 1
      ensures groups[b] == frontGroups[b]
    {
      SplitPrefixAt(f, k, n, b);
    }
  }

  lemma SplitPrefixAt<T>(f: seq<T>, k: nat, n: nat, b: nat)
    requires |f| == Offset(k, n) && b + 1 < k
    ensures Offset(k - 1, n) <= |f|
    ensures Split(f, k, n)[b] == Split(f[..Offset(k - 1, n)], k - 1, n)[b]
  {
    var start, end := Offset(b, n), Offset(k - 1, n);
    OffsetMonotone(b + 1, k - 1, n);
    SliceOfPrefix(f, end, start, start + n);
  }

  lemma SliceOfPrefix<T>(f: seq<T>, end: nat, lo: nat, hi: nat)
    requires lo <= hi <= end <= |f|
    ensures f[..end][lo..hi] == f[lo..hi]
  {
  }

  /** `pooler_output[:, s]`: sentence `s` of every instance. */
  function View(p: seq<seq<Vector>>, s: nat): (z: Matrix)
    requires forall b :: 0 <= b < |p| ==> s < |p[b]|
    ensures |z| == |p|
  {
    seq(|p|, b requires 0 <= b < |p| => p[b][s])
  }

  /**
   * Flattening the instances, encoding them row by row and viewing the result back: view `s` of
   * instance `b` is what the row-wise map made of sentence `s` of instance `b`.
   */
  lemma {:induction false} ViewOfFlattenedBatch<T>(x: seq<seq<T>>, n: nat, s: nat, f: T -> Vector, b: nat)
    requires forall r :: 0 <= r < |x| ==> |x[r]| == n
    requires s < n && b < |x|
    ensures |Concat(x)| == Offset(|x|, n) && BlocksFit(|x|, n)
    ensures var rows := Concat(x);
            var mapped := seq(|rows|, i requires 0 <= i < |rows| => f(rows[i]));
            View(Split(mapped, |x|, n), s)[b] == f(x[b][s])
  {
    ConcatUniform(x, n);
  }

  // ---------------------------------------------------------------- distributed gather

  /** `torch.zeros_like(z)`. */
  function ZerosLike(z: Matrix): (zeros: Matrix)
    ensures |zeros| == |z|
    ensures forall i :: 0 <= i < |z| ==> |zeros[i]| == |z[i]| && forall j :: 0 <= j < |z[i]| ==> zeros[i][j] == 0.0
  {
    seq(|z|, i requires 0 <= i < |z| => seq(|z[i]|, _ => 0.0))
  }

  /**
   * The gather step on the process numbered `rank`: a list of zero buffers, one per process, is
   * filled by the collective with every process's shard; the caller's own slot is then replaced by
   * its local tensor (the collective's copy carries no gradient) and the list is concatenated in
   * rank order.
   */
  method AllGatherConcat(shards: seq<Matrix>, rank: nat, local: Matrix) returns (full: Matrix)
    requires rank < |shards|
    requires forall r :: 0 <= r < |shards| ==> |shards[r]| == |local|
    ensures full == Concat(shards[rank := local])
    ensures |full| == Offset(|shards|, |local|) && BlocksFit(|shards|, |local|)
    ensures forall k :: 0 <= k < |local| ==> full[Offset(rank, |local|) + k] == local[k]
    ensures forall r, k :: 0 <= r < |shards| && r != rank && 0 <= k < |local| ==>
              full[Offset(r, |local|) + k] == shards[r][k]
  {
    var blocks := FillSlots(shards, rank, local);
    full := Concat(blocks);
    GatheredBlocks(shards, rank, local, full);
  }

  /**
   * The list the gather fills: one zero buffer per process, overwritten by the collective with
   * every process's shard, then the caller's own slot replaced by its local tensor.
   */
  method FillSlots(shards: seq<Matrix>, rank: nat, local: Matrix) returns (blocks: seq<Matrix>)
    requires rank < |shards|
    ensures blocks == shards[rank := local]
  {
    var zList := new Matrix[|shards|](_ => ZerosLike(local));
    forall r | 0 <= r < zList.Length {
      zList[r] := shards[r];
    }
    zList[rank] := local;
    blocks := zList[..];
  }

  /**
   * The gathered batch has one block of `|local|` rows per process, in rank order: the caller's
   * own block is its local tensor and every other block is that process's shard.
   */
  lemma {:induction false} GatheredBlocks(shards: seq<Matrix>, rank: nat, local: Matrix, full: Matrix)
    requires rank < |shards|
    requires forall r :: 0 <= r < |shards| ==> |shards[r]| == |local|
    requires full == Concat(shards[rank := local])
    ensures |full| == Offset(|shards|, |local|) && BlocksFit(|shards|, |local|)
    ensures forall k :: 0 <= k < |local| ==> full[Offset(rank, |local|) + k] == local[k]
    ensures forall r, k :: 0 <= r < |shards| && r != rank && 0 <= k < |local| ==>
              full[Offset(r, |local|) + k] == shards[r][k]
  {
    var blocks := shards[rank := local];
    ConcatUniform(blocks, |local|);
    ReplacedBlocks(shards, rank, local, blocks, full);
  }

  /** Rows laid out as the blocks of `shards` with block `rank` replaced by `local`. */
  lemma {:induction false} ReplacedBlocks(shards: seq<Matrix>, rank: nat, local: Matrix, blocks: seq<Matrix>, full: Matrix)
    requires rank < |shards| && blocks == shards[rank := local]
    requires forall r :: 0 <= r < |shards| ==> |shards[r]| == |local|
    requires |full| == Offset(|shards|, |local|) && BlocksFit(|shards|, |local|)
    requires forall r, j :: 0 <= r < |blocks| && 0 <= j < |local| ==> full[Offset(r, |local|) + j] == blocks[r][j]
    ensures forall k :: 0 <= k < |local| ==> full[Offset(rank, |local|) + k] == local[k]
    ensures forall r, k :: 0 <= r < |shards| && r != rank && 0 <= k < |local| ==>
              full[Offset(r, |local|) + k] == shards[r][k]
  {
    forall k | 0 <= k < |local|
      ensures full[Offset(rank, |local|) + k] == local[k]
    {
      assert blocks[rank] == local;
    }
    forall r, k | 0 <= r < |shards| && r != rank && 0 <= k < |local|
      ensures full[Offset(r, |local|) + k] == shards[r][k]
    {
      assert blocks[r] == shards[r];
    }
  }

  /** When the collective already delivered the caller's own tensor, the slot replacement changes nothing. */
  lemma OwnSlotReplacementKeepsValues(shards: seq<Matrix>, rank: nat, local: Matrix)
    requires rank < |shards| && shards[rank] == local
    ensures Concat(shards[rank := local]) == Concat(shards)
  {
    assert shards[rank := local] == shards;
  }

  // ---------------------------------------------------------------- logits and labels

  /** `Similarity(temp)` on every pair: the cosine of `z1[i]` and `z2[j]` divided by the temperature. */
  function SimMatrix(cos: (Vector, Vector) -> real, z1: Matrix, z2: Matrix, temp: real): (logits: Matrix)
    requires temp != 0.0
    ensures IsMatrix(logits, |z1|, |z2|)
    ensures forall i, j :: 0 <= i < |z1| && 0 <= j < |z2| ==> logits[i][j] * temp == cos(z1[i], z2[j])
  {
    seq(|z1|, i requires 0 <= i < |z1| =>
      seq(|z2|, j requires 0 <= j < |z2| => cos(z1[i], z2[j]) / temp))
  }

  /** `cos_sim * temp`. */
  function Rescale(logits: Matrix, temp: real): (r: Matrix)
    ensures |r| == |logits| && forall i :: 0 <= i < |r| ==> |r[i]| == |logits[i]|
  {
    seq(|logits|, i requires 0 <= i < |logits| =>
      seq(|logits[i]|, j requires 0 <= j < |logits[i]| => logits[i][j] * temp))
  }

  /** Multiplying the logits back by the temperature recovers the plain cosine similarities. */
  lemma RescaledLogitsAreCosines(cos: (Vector, Vector) -> real, z1: Matrix, z2: Matrix, temp: real)
    requires temp != 0.0
    ensures var r := Rescale(SimMatrix(cos, z1, z2, temp), temp);
            IsMatrix(r, |z1|, |z2|) && forall i, j :: 0 <= i < |z1| && 0 <= j < |z2| ==> r[i][j] == cos(z1[i], z2[j])
  {
  }

  /** `torch.cat([a, b], 1)`: the columns of `b` after those of `a`, row by row. */
  function AppendColumns(a: Matrix, b: Matrix): (r: Matrix)
    requires |a| == |b|
    ensures |r| == |a|
    ensures forall i :: 0 <= i < |a| ==> |r[i]| == |a[i]| + |b[i]| && r[i][..|a[i]|] == a[i] && r[i][|a[i]|..] == b[i]
  {
    seq(|a|, i requires 0 <= i < |a| => a[i] + b[i])
  }

  /** `[0.0] * n`. */
  function Zeros(n: nat): (z: Vector)
    ensures |z| == n && forall j :: 0 <= j < n ==> z[j] == 0.0
  {
    seq(n, _ => 0.0)
  }

  /**
   * The hard-negative weight matrix for `k` hard negatives and `cols` logit columns: row `i` is
   * `cols - k` zeros for the in-batch columns, then `i` zeros, the weight, and `k - i - 1` zeros.
   */
  function HardNegativeWeights(k: nat, cols: nat, w: real): (weights: Matrix)
    requires k <= cols
    ensures IsMatrix(weights, k, cols)
    ensures forall i, j :: 0 <= i < k && 0 <= j < cols ==>
              weights[i][j] == if j == cols - k + i then w else 0.0
  {
    seq(k, i requires 0 <= i < k => Zeros(cols - k) + Zeros(i) + [w] + Zeros(k - i - 1))
  }

  /** `a + b` for two matrices of one shape. */
  function AddMatrices(a: Matrix, b: Matrix, rows: nat, cols: nat): (r: Matrix)
    requires IsMatrix(a, rows, cols) && IsMatrix(b, rows, cols)
    ensures IsMatrix(r, rows, cols)
    ensures forall i, j :: 0 <= i < rows && 0 <= j < cols ==> r[i][j] == a[i][j] + b[i][j]
  {
    seq(rows, i requires 0 <= i < rows => seq(cols, j requires 0 <= j < cols => a[i][j] + b[i][j]))
  }

  /**
   * With hard negatives `z3` (one per anchor), the weighted logits keep every anchor-positive
   * logit, add the weight to the anchor's own hard negative only, and keep the other hard-negative
   * logits.
   */
  lemma HardNegativeWeightsTouchOwnNegative(cos: (Vector, Vector) -> real, z1: Matrix, z2: Matrix, z3: Matrix,
                                            temp: real, w: real)
    requires temp != 0.0 && |z3| == |z1|
    ensures var logits := AppendColumns(SimMatrix(cos, z1, z2, temp), SimMatrix(cos, z1, z3, temp));
            var cols := |z2| + |z3|;
            IsMatrix(logits, |z1|, cols)
            && var weighted := AddMatrices(logits, HardNegativeWeights(|z3|, cols, w), |z1|, cols);
               forall i :: 0 <= i < |z1| ==>
                 && (forall j :: 0 <= j < |z2| ==> weighted[i][j] * temp == cos(z1[i], z2[j]))
                 && weighted[i][|z2| + i] == cos(z1[i], z3[i]) / temp + w
                 && (forall j :: 0 <= j < |z3| && j != i ==> weighted[i][|z2| + j] == cos(z1[i], z3[j]) / temp)
  {
    var s12, s13 := SimMatrix(cos, z1, z2, temp), SimMatrix(cos, z1, z3, temp);
    var logits := AppendColumns(s12, s13);
    var cols := |z2| + |z3|;
    forall i, j | 0 <= i < |z1| && 0 <= j < cols
      ensures logits[i][j] == if j < |z2| then s12[i][j] else s13[i][j - |z2|]
    {
      assert logits[i] == s12[i] + s13[i];
    }
  }

  /** `torch.arange(n)`: the class of anchor `i` is column `i`. */
  function Labels(n: nat): (labels: seq<int>)
    ensures |labels| == n
  {
    seq(n, i requires 0 <= i < n => i)
  }

  /** Each anchor's label column holds the logit of its own positive. */
  lemma LabelsSelectPositives(cos: (Vector, Vector) -> real, z1: Matrix, z2: Matrix, temp: real)
    requires temp != 0.0 && |z1| == |z2|
    ensures var logits := SimMatrix(cos, z1, z2, temp);
            var labels := Labels(|logits|);
            forall i :: 0 <= i < |z1| ==> 0 <= labels[i] < |logits[i]| && logits[i][labels[i]] * temp == cos(z1[i], z2[i])
  {
  }

  // ---------------------------------------------------------------- rank-encoder loss

  /** `logical_and(c <= upp, c >= low)` as floats: 1.0 where the entry lies in `[low, upp]`, else 0.0. */
  function ThresholdMask(c: Matrix, low: real, upp: real): (mask: Matrix)
    ensures |mask| == |c| && forall i :: 0 <= i < |c| ==> |mask[i]| == |c[i]|
    ensures forall i, j :: 0 <= i < |c| && 0 <= j < |c[i]| ==>
              (mask[i][j] == 1.0 <==> low <= c[i][j] <= upp) && (mask[i][j] == 0.0 || mask[i][j] == 1.0)
  {
    seq(|c|, i requires 0 <= i < |c| =>
      seq(|c[i]|, j requires 0 <= j < |c[i]| => if low <= c[i][j] <= upp then 1.0 else 0.0))
  }

  /** The size broadcasting gives two axes of sizes `a` and `b`, when they are compatible. */
  function BroadcastDim(a: nat, b: nat): (r: Option<nat>)
    ensures r.Some? <==> a == b || a == 1 || b == 1
    ensures r.Some? ==> (a == r.value || a == 1) && (b == r.value || b == 1)
  {
    if a == b then Some(a) else if a == 1 then Some(b) else if b == 1 then Some(a) else None
  }

  /** The index along an axis of size `size` that position `i` of the broadcast axis reads. */
  function Along(i: nat, size: nat): (r: nat)
    ensures size == 1 ==> r == 0
    ensures size != 1 ==> r == i
  {
    if size == 1 then 0 else i
  }

  /** `m`, of shape (rows, cols), expanded to (n, k) by repeating along its axes of size 1. */
  function Expand(m: Matrix, rows: nat, cols: nat, n: nat, k: nat): (e: Matrix)
    requires IsMatrix(m, rows, cols) && (rows == n || rows == 1) && (cols == k || cols == 1)
    ensures IsMatrix(e, n, k)
    ensures forall i, j :: 0 <= i < n && 0 <= j < k ==> e[i][j] == m[Along(i, rows)][Along(j, cols)]
  {
    seq(n, i requires 0 <= i < n => seq(k, j requires 0 <= j < k => m[Along(i, rows)][Along(j, cols)]))
  }

  /** Expanding to the shape a matrix already has leaves it as it is. */
  lemma ExpandSameShape(m: Matrix, rows: nat, cols: nat)
    requires IsMatrix(m, rows, cols)
    ensures Expand(m, rows, cols, rows, cols) == m
  {
    var e := Expand(m, rows, cols, rows, cols);
    forall i | 0 <= i < rows
      ensures e[i] == m[i]
    {
    }
  }

  /** The epsilon in the denominator of the rank-encoder loss. */
  const Eps: real := 0.00000001

  /** `MSELoss(reduction='none')` times the mask, entry by entry, on a common shape (n, k). */
  function MaskedSquaredErrors(p: Matrix, t: Matrix, b: Matrix, n: nat, k: nat): (e: Matrix)
    requires IsMatrix(p, n, k) && IsMatrix(t, n, k) && IsMatrix(b, n, k)
    requires forall i, j :: 0 <= i < n && 0 <= j < k ==> b[i][j] == 0.0 || b[i][j] == 1.0
    ensures IsMatrix(e, n, k)
    ensures forall i, j :: 0 <= i < n && 0 <= j < k ==> e[i][j] >= 0.0
    ensures forall i, j :: 0 <= i < n && 0 <= j < k ==> (e[i][j] == 0.0 <==> b[i][j] == 0.0 || p[i][j] == t[i][j])
  {
    seq(n, i requires 0 <= i < n =>
      seq(k, j requires 0 <= j < k => MaskedSquare(p[i][j] - t[i][j], b[i][j])))
  }

  /** A squared difference times a 0/1 mask entry. */
  function MaskedSquare(x: real, b: real): (r: real)
    requires b == 0.0 || b == 1.0
    ensures r >= 0.0
    ensures r == 0.0 <==> b == 0.0 || x == 0.0
  {
    if x != 0.0 && b == 1.0 then SquarePlusPositive(x, 0.0); x * x * b else x * x * b
  }

  /**
   * `loss_baseE`: the squared error between the rescaled logits `pred` and the correlation
   * `target`, broadcast to a common shape, kept where the target lies in `[low, upp]`, summed,
   * and divided by the number of kept target entries plus `Eps`.
   */
  function RankEncoderLoss(pred: Matrix, pr: nat, pc: nat, target: Matrix, tr: nat, tc: nat,
                           low: real, upp: real): (loss: Result<real>)
    requires IsMatrix(pred, pr, pc) && IsMatrix(target, tr, tc)
    ensures loss.Err? <==> BroadcastDim(pr, tr).None? || BroadcastDim(pc, tc).None?
    ensures loss.Err? ==> loss.error == ShapeMismatch
    ensures loss.Ok? ==> loss.value >= 0.0
  {
    var rows, cols := BroadcastDim(pr, tr), BroadcastDim(pc, tc);
    if rows.None? || cols.None? then Err(ShapeMismatch)
    else
      var n, k := rows.value, cols.value;
      var bound := ThresholdMask(target, low, upp);
      var errors := MaskedSquaredErrors(Expand(pred, pr, pc, n, k), Expand(target, tr, tc, n, k),
                                        Expand(bound, tr, tc, n, k), n, k);
      Ok(KeptErrorMean(errors, bound))
  }

  /** The kept squared errors summed and divided by the number of kept target entries plus `Eps`. */
  function KeptErrorMean(errors: Matrix, bound: Matrix): (r: real)
    requires forall i, j :: 0 <= i < |errors| && 0 <= j < |errors[i]| ==> errors[i][j] >= 0.0
    requires forall i, j :: 0 <= i < |bound| && 0 <= j < |bound[i]| ==> bound[i][j] == 0.0 || bound[i][j] == 1.0
    ensures r >= 0.0
    ensures r == 0.0 <==> forall i, j :: 0 <= i < |errors| && 0 <= j < |errors[i]| ==> errors[i][j] == 0.0
  {
    MatrixSumZeroIff(errors);
    MatrixSumZeroIff(bound);
    QuotientNonNegative(MatrixSum(errors), MatrixSum(bound) + Eps);
    MatrixSum(errors) / (MatrixSum(bound) + Eps)
  }

  lemma QuotientNonNegative(x: real, d: real)
    requires x >= 0.0 && d > 0.0
    ensures x / d >= 0.0
    ensures x / d == 0.0 <==> x == 0.0
  {
  }

  /**
   * For prediction and target of one shape, the rank-encoder loss vanishes exactly when the
   * prediction agrees with the target at every entry whose target lies in `[low, upp]`.
   */
  lemma RankEncoderLossZeroIff(pred: Matrix, target: Matrix, n: nat, k: nat, low: real, upp: real)
    requires IsMatrix(pred, n, k) && IsMatrix(target, n, k)
    ensures RankEncoderLoss(pred, n, k, target, n, k, low, upp).Ok?
    ensures RankEncoderLoss(pred, n, k, target, n, k, low, upp).value == 0.0
            <==> forall i, j :: 0 <= i < n && 0 <= j < k && low <= target[i][j] <= upp ==> pred[i][j] == target[i][j]
  {
    var bound := ThresholdMask(target, low, upp);
    ExpandSameShape(pred, n, k);
    ExpandSameShape(target, n, k);
    ExpandSameShape(bound, n, k);
    var errors := MaskedSquaredErrors(pred, target, bound, n, k);
    assert RankEncoderLoss(pred, n, k, target, n, k, low, upp) == Ok(KeptErrorMean(errors, bound));
  }

  /** When no target entry lies in `[low, upp]`, the rank-encoder loss is zero, whatever the shapes. */
  lemma RankEncoderLossZeroWithoutQualifying(pred: Matrix, pr: nat, pc: nat, target: Matrix, tr: nat, tc: nat,
                                             low: real, upp: real)
    requires IsMatrix(pred, pr, pc) && IsMatrix(target, tr, tc)
    requires forall i, j :: 0 <= i < tr && 0 <= j < tc ==> !(low <= target[i][j] <= upp)
    ensures var loss := RankEncoderLoss(pred, pr, pc, target, tr, tc, low, upp);
            loss.Ok? ==> loss.value == 0.0
  {
    var rows, cols := BroadcastDim(pr, tr), BroadcastDim(pc, tc);
    if rows.Some? && cols.Some? {
      var n, k := rows.value, cols.value;
      var bound := ThresholdMask(target, low, upp);
      var b := Expand(bound, tr, tc, n, k);
      forall i, j | 0 <= i < n && 0 <= j < k
        ensures b[i][j] == 0.0
      {
        assert !(low <= target[Along(i, tr)][Along(j, tc)] <= upp);
      }
      var errors := MaskedSquaredErrors(Expand(pred, pr, pc, n, k), Expand(target, tr, tc, n, k), b, n, k);
      assert RankEncoderLoss(pred, pr, pc, target, tr, tc, low, upp) == Ok(KeptErrorMean(errors, bound));
    }
  }

  // ---------------------------------------------------------------- combination

  /**
   * The loss-combination policy: `hinge` takes the larger of the contrastive loss and the
   * weighted rank-encoder loss, `weighted_sum` adds them, and any other name is not implemented.
   */
  function CombineLoss(lossType: string, lossO: real, lmb: real, lossB: real): (loss: Result<real>)
    ensures loss.Ok? <==> lossType == "hinge" || lossType == "weighted_sum"
    ensures loss.Err? ==> loss.error == LossTypeNotImplemented(lossType)
    ensures lossType == "hinge" ==>
              && loss.value >= lossO && loss.value >= lmb * lossB
              && (loss.value == lossO || loss.value == lmb * lossB)
    ensures lossType == "weighted_sum" ==> loss.value - lossO == lmb * lossB
  {
    if lossType == "hinge" then Ok(if lossO >= lmb * lossB then lossO else lmb * lossB)
    else if lossType == "weighted_sum" then Ok(lossO + lmb * lossB)
    else Err(LossTypeNotImplemented(lossType))
  }
}
