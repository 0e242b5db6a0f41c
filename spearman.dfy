/**
 * The Spearman-style correlation `cal_spr_corr(x, y)`: rank every row, centre each rank row by
 * its mean, divide it by its L2 norm, and multiply the normalised rows of `x` with the
 * transposed normalised rows of `y`.
 */
module Spearman {
  import opened Tensors
  import opened RankTransform

  /**
   * `sqrt` returns the non-negative square root of every non-negative real. The model receives
   * the square root as a parameter, since real square roots cannot be computed in Dafny.
   */
  ghost predicate IsSqrt(sqrt: real -> real) {
    forall a :: a >= 0.0 ==> sqrt(a) >= 0.0 && sqrt(a) * sqrt(a) == a
  }

  function Mean(v: Vector): real
    requires |v| > 0
  {
    Sum(v) / (|v| as real)
  }

  /** The row minus its mean (`x_rank - x_rank_mean`). */
  function Centre(v: Vector): (c: Vector)
    requires |v| > 0
    ensures |c| == |v|
  {
    seq(|v|, j requires 0 <= j < |v| => v[j] - Mean(v))
  }

  /** The L2 norm of the centred row (`sqrt(sum(square(xn)))`). */
  function CentredNorm(v: Vector, sqrt: real -> real): real
    requires |v| > 0
  {
    sqrt(Dot(Centre(v), Centre(v)))
  }

  /** The centred row divided by its norm. */
  function Normalize(v: Vector, sqrt: real -> real): (u: Vector)
    requires |v| > 0 && CentredNorm(v, sqrt) != 0.0
    ensures |u| == |v|
  {
    var c := Centre(v);
    var s := CentredNorm(v, sqrt);
    seq(|c|, j requires 0 <= j < |c| => c[j] / s)
  }

  /** The normalised rank rows of a matrix whose argsorts are `order`, all of length `d`. */
  function NormalizedRanks(order: seq<seq<int>>, d: nat, sqrt: real -> real): (xn: Matrix)
    requires d >= 2 && IsSqrt(sqrt)
    requires forall i :: 0 <= i < |order| ==> |order[i]| == d && IsPermutation(order[i])
    ensures IsMatrix(xn, |order|, d)
  {
    seq(|order|, i requires 0 <= i < |order| =>
      RankNormPositive(order[i], sqrt);
      Normalize(RankMatrix(order)[i], sqrt))
  }

  /**
   * `cal_spr_corr(x, y)`, given the library's argsorts of the rows of `x` and `y`: entry `(i, j)`
   * is the dot product of the normalised rank rows `x[i]` and `y[j]` (`xn · ynᵀ`).
   */
  function CalSprCorr(x: Matrix, xOrder: seq<seq<int>>, y: Matrix, yOrder: seq<seq<int>>,
                      d: nat, sqrt: real -> real): (corr: Matrix)
    requires d >= 2 && IsSqrt(sqrt)
    requires IsRowArgsort(x, xOrder, d) && IsRowArgsort(y, yOrder, d)
    ensures IsMatrix(corr, |x|, |y|)
  {
    var xn := NormalizedRanks(xOrder, d, sqrt);
    var yn := NormalizedRanks(yOrder, d, sqrt);
    seq(|x|, i requires 0 <= i < |x| =>
      seq(|y|, j requires 0 <= j < |y| => Dot(xn[i], yn[j])))
  }

  /** Removing position `t` of a permutation that holds its largest value leaves a permutation. */
  lemma DropLargest(q: seq<int>, t: int)
    requires IsPermutation(q) && 0 <= t < |q| && q[t] == |q| - 1
    ensures IsPermutation(q[..t] + q[t + 1..])
  {
    var rest := q[..t] + q[t + 1..];
    forall k | 0 <= k < |rest|
      ensures 0 <= rest[k] < |rest|
    {
      var k' := Skipping(k, t);
      WithoutAt(q, t, k);
      assert k' != t;
      if k' < t {
        assert q[k'] != q[t];
      } else {
        assert q[t] != q[k'];
      }
    }
    forall a, b | 0 <= a < b < |rest|
      ensures rest[a] != rest[b]
    {
      WithoutAt(q, t, a);
      WithoutAt(q, t, b);
      assert Skipping(a, t) < Skipping(b, t);
    }
    forall v | 0 <= v < |rest|
      ensures v in rest
    {
      assert v in q;
      var i := IndexOf(q, v);
      if i < t {
        assert rest[i] == v;
      } else {
        assert i != t;
        assert rest[i - 1] == v;
      }
    }
  }

  /** The position in the full sequence of entry `k` once position `t` is removed. */
  function Skipping(k: int, t: int): (k': int)
    ensures k < t ==> k' == k
    ensures k >= t ==> k' == k + 1
  {
    if k < t then k else k + 1
  }

  /** Entry `k` of `q` without position `t` is entry `Skipping(k, t)` of `q`. */
  lemma WithoutAt(q: seq<int>, t: int, k: int)
    requires 0 <= t < |q| && 0 <= k < |q| - 1
    ensures (q[..t] + q[t + 1..])[k] == q[Skipping(k, t)]
  {
    if k >= t {
      assert (q[..t] + q[t + 1..])[k] == q[t + 1..][k - t];
    }
  }

  /** Removing position `t` takes its value off the sum. */
  lemma SumWithout(q: seq<int>, t: int)
    requires 0 <= t < |q|
    ensures Sum(RealsOf(q)) == Sum(RealsOf(q[..t] + q[t + 1..])) + q[t] as real
  {
    var front, back := RealsOf(q[..t]), RealsOf(q[t + 1..]);
    var mid: real := q[t] as real;
    assert RealsOf(q) == front + [mid] + back;
    assert RealsOf(q[..t] + q[t + 1..]) == front + back;
    SumAppend(front + [mid], back);
    SumAppend(front, [mid]);
    SumAppend(front, back);
    assert Sum([mid]) == mid;
  }

  /** The sum 0 + 1 + … + (n-1). */
  function Triangle(n: nat): real {
    if n == 0 then 0.0 else Triangle(n - 1) + (n - 1) as real
  }

  lemma {:induction false} TriangleClosedForm(n: nat)
    ensures Triangle(n) == (n as real) * (n as real - 1.0) / 2.0
  {
    if n > 0 {
      TriangleClosedForm(n - 1);
      var m: real := (n - 1) as real;
      assert n as real == m + 1.0;
      calc {
        Triangle(n);
        m * (m - 1.0) / 2.0 + m;
        (m + 1.0) * m / 2.0;
      }
    }
  }

  /** The values of a permutation of length n sum to 0 + 1 + … + (n-1). */
  lemma {:induction false} PermutationSum(q: seq<int>)
    requires IsPermutation(q)
    ensures Sum(RealsOf(q)) == Triangle(|q|)
  {
    var n := |q|;
    if n == 0 {
      assert RealsOf(q) == [];
    } else {
      assert n - 1 in q;
      var t := IndexOf(q, n - 1);
      var rest := q[..t] + q[t + 1..];
      DropLargest(q, t);
      PermutationSum(rest);
      SumWithout(q, t);
    }
  }

  /** Shifting every entry by `c` shifts the sum by `|v| * c`. */
  lemma {:induction false} SumShift(v: Vector, c: real, w: Vector)
    requires |w| == |v|
    requires forall j :: 0 <= j < |v| ==> w[j] == v[j] - c
    ensures Sum(w) == Sum(v) - (|v| as real) * c
  {
    if v != [] {
      SumShift(v[1..], c, w[1..]);
    }
  }

  /** Every centred row sums to zero. */
  lemma CentredRowSumsToZero(v: Vector)
    requires |v| > 0
    ensures Sum(Centre(v)) == 0.0
  {
    var n := |v| as real;
    SumShift(v, Mean(v), Centre(v));
    assert n * (Sum(v) / n) == Sum(v);
  }

  /** A row of ranks of length d has mean (d-1)/2. */
  lemma RankRowMean(p: seq<int>)
    requires IsPermutation(p) && |p| > 0
    ensures Mean(RealsOf(Inverse(p))) == (|p| as real - 1.0) / 2.0
  {
    var v := RealsOf(Inverse(p));
    assert |v| == |p|;
    InverseIsPermutation(p);
    PermutationSum(Inverse(p));
    MeanOfTriangle(v);
  }

  /** A row of length n summing to 0 + 1 + … + (n-1) has mean (n-1)/2. */
  lemma {:induction false} MeanOfTriangle(v: Vector)
    requires |v| > 0
    requires Sum(v) == Triangle(|v|)
    ensures Mean(v) == (|v| as real - 1.0) / 2.0
  {
    TriangleClosedForm(|v|);
    var n := |v| as real;
    assert n * (n - 1.0) / 2.0 == ((n - 1.0) / 2.0) * n;
    DivFromProduct(Sum(v), (n - 1.0) / 2.0, n);
  }

  /**
   * The centred rank row has a positive squared norm exactly when the row has at least two
   * entries, so the division in `cal_spr_corr` is defined exactly then.
   */
  lemma CentredRankNormPositiveIff(p: seq<int>)
    requires IsPermutation(p) && |p| > 0
    ensures var c := Centre(RealsOf(Inverse(p)));
            Dot(c, c) >= 0.0 && (Dot(c, c) > 0.0 <==> |p| >= 2)
  {
    var v := RealsOf(Inverse(p));
    var c := Centre(v);
    RankRowMean(p);
    DotSelfPositive(c);
    if |p| == 1 {
      assert p[0] == 0;
      assert Inverse(p)[p[0]] == 0;
      assert c == [0.0];
      assert Dot(c, c) == 0.0 * 0.0 + Dot([], []);
    } else {
      var j := p[0];
      assert Inverse(p)[j] == 0;
      assert c[j] == 0.0 - (|p| as real - 1.0) / 2.0;
      assert c[j] != 0.0;
    }
  }

  /** For rank rows of length at least two the norm is positive. */
  lemma RankNormPositive(p: seq<int>, sqrt: real -> real)
    requires IsPermutation(p) && |p| >= 2 && IsSqrt(sqrt)
    ensures CentredNorm(RealsOf(Inverse(p)), sqrt) > 0.0
  {
    var c := Centre(RealsOf(Inverse(p)));
    CentredRankNormPositiveIff(p);
    var s := sqrt(Dot(c, c));
    assert s >= 0.0 && s * s == Dot(c, c);
  }

  /** A row divided by the square root of its squared norm is a unit vector. */
  lemma NormalizedUnit(v: Vector, sqrt: real -> real)
    requires |v| > 0 && IsSqrt(sqrt) && CentredNorm(v, sqrt) > 0.0
    ensures var u := Normalize(v, sqrt); Dot(u, u) == 1.0
  {
    var c := Centre(v);
    var s := CentredNorm(v, sqrt);
    DotSelfPositive(c);
    assert s * s == Dot(c, c);
    var u := Normalize(v, sqrt);
    DotDivided(c, c, s, s, u, u);
    PositiveRoot(Dot(c, c), s);
    DivFromProduct(Dot(c, c), 1.0, s * s);
  }

  /** A normalised rank row is a unit vector. */
  lemma NormalizedIsUnit(p: seq<int>, sqrt: real -> real)
    requires IsPermutation(p) && |p| >= 2 && IsSqrt(sqrt)
    ensures CentredNorm(RealsOf(Inverse(p)), sqrt) > 0.0
    ensures var u := Normalize(RealsOf(Inverse(p)), sqrt); Dot(u, u) == 1.0
  {
    RankNormPositive(p, sqrt);
    NormalizedUnit(RealsOf(Inverse(p)), sqrt);
  }

  /**
   * Entry `(i, j)` is the Pearson correlation of the two rank rows: the dot product of the
   * centred rows divided by the product of their norms.
   */
  lemma CorrIsPearsonOfRanks(x: Matrix, xOrder: seq<seq<int>>, y: Matrix, yOrder: seq<seq<int>>,
                             d: nat, sqrt: real -> real, i: int, j: int)
    requires d >= 2 && IsSqrt(sqrt)
    requires IsRowArgsort(x, xOrder, d) && IsRowArgsort(y, yOrder, d)
    requires 0 <= i < |x| && 0 <= j < |y|
    ensures CentredNorm(RankMatrix(xOrder)[i], sqrt) > 0.0
    ensures CentredNorm(RankMatrix(yOrder)[j], sqrt) > 0.0
    ensures CalSprCorr(x, xOrder, y, yOrder, d, sqrt)[i][j] == Pearson(RankMatrix(xOrder)[i], RankMatrix(yOrder)[j], sqrt)
  {
    var rx, ry := RankMatrix(xOrder)[i], RankMatrix(yOrder)[j];
    RankNormPositive(xOrder[i], sqrt);
    RankNormPositive(yOrder[j], sqrt);
    NormalizedDot(rx, ry, sqrt);
    var xn, yn := NormalizedRanks(xOrder, d, sqrt), NormalizedRanks(yOrder, d, sqrt);
    assert xn[i] == Normalize(rx, sqrt);
    assert yn[j] == Normalize(ry, sqrt);
    assert CalSprCorr(x, xOrder, y, yOrder, d, sqrt)[i][j] == Dot(xn[i], yn[j]);
  }

  /** The Pearson correlation of two rows: the dot product of the centred rows over the product of their norms. */
  function Pearson(u: Vector, v: Vector, sqrt: real -> real): real
    requires |u| == |v| > 0
    requires CentredNorm(u, sqrt) > 0.0 && CentredNorm(v, sqrt) > 0.0
  {
    Dot(Centre(u), Centre(v)) / (CentredNorm(u, sqrt) * CentredNorm(v, sqrt))
  }

  /** The dot product of two normalised rows is that of the centred rows over both norms. */
  lemma NormalizedDot(u: Vector, v: Vector, sqrt: real -> real)
    requires |u| == |v| > 0
    requires CentredNorm(u, sqrt) > 0.0 && CentredNorm(v, sqrt) > 0.0
    ensures Dot(Normalize(u, sqrt), Normalize(v, sqrt)) == Pearson(u, v, sqrt)
  {
    DotDivided(Centre(u), Centre(v), CentredNorm(u, sqrt), CentredNorm(v, sqrt),
               Normalize(u, sqrt), Normalize(v, sqrt));
  }

  /** Every correlation lies in [-1, 1]. */
  lemma CorrInRange(x: Matrix, xOrder: seq<seq<int>>, y: Matrix, yOrder: seq<seq<int>>,
                    d: nat, sqrt: real -> real)
    requires d >= 2 && IsSqrt(sqrt)
    requires IsRowArgsort(x, xOrder, d) && IsRowArgsort(y, yOrder, d)
    ensures var corr := CalSprCorr(x, xOrder, y, yOrder, d, sqrt);
            forall i, j :: 0 <= i < |x| && 0 <= j < |y| ==> -1.0 <= corr[i][j] <= 1.0
  {
    var xn := NormalizedRanks(xOrder, d, sqrt);
    var yn := NormalizedRanks(yOrder, d, sqrt);
    forall i, j | 0 <= i < |x| && 0 <= j < |y|
      ensures -1.0 <= Dot(xn[i], yn[j]) <= 1.0
    {
      NormalizedIsUnit(xOrder[i], sqrt);
      NormalizedIsUnit(yOrder[j], sqrt);
      UnitDotInRange(xn[i], yn[j]);
    }
  }

  /**
   * The self-correlation `cal_spr_corr(x, x)` used by the training loss is symmetric and has
   * ones on its diagonal.
   */
  lemma SelfCorrSymmetricUnitDiagonal(x: Matrix, order: seq<seq<int>>, d: nat, sqrt: real -> real)
    requires d >= 2 && IsSqrt(sqrt)
    requires IsRowArgsort(x, order, d)
    ensures var corr := CalSprCorr(x, order, x, order, d, sqrt);
            && (forall i, j :: 0 <= i < |x| && 0 <= j < |x| ==> corr[i][j] == corr[j][i])
            && (forall i :: 0 <= i < |x| ==> corr[i][i] == 1.0)
  {
    var xn := NormalizedRanks(order, d, sqrt);
    forall i, j | 0 <= i < |x| && 0 <= j < |x|
      ensures Dot(xn[i], xn[j]) == Dot(xn[j], xn[i])
    {
      DotSymmetric(xn[i], xn[j]);
    }
    forall i | 0 <= i < |x|
      ensures Dot(xn[i], xn[i]) == 1.0
    {
      NormalizedIsUnit(order[i], sqrt);
    }
  }
}
