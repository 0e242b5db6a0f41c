/**
 * The rank transform `_get_ranks`: for each row, argsort it and write 0, 1, …, d-1 into a
 * zero buffer at the sorted positions, so that every entry receives its ascending rank.
 */
module RankTransform {
  import opened Tensors

  /** `p` lists each of 0, …, |p|-1 exactly once (a bijection of that range). */
  predicate IsPermutation(p: seq<int>) {
    && (forall k :: 0 <= k < |p| ==> 0 <= p[k] < |p|)
    && (forall a, b :: 0 <= a < b < |p| ==> p[a] != p[b])
    && (forall v :: 0 <= v < |p| ==> v in p)
  }

  /**
   * `p` is an ascending argsort of `row`: a permutation of its positions that visits the
   * values in non-decreasing order. Ties may come in any order, as `torch.argsort` does not
   * promise a stable sort.
   */
  predicate IsArgsort(row: Vector, p: seq<int>) {
    && |p| == |row|
    && IsPermutation(p)
    && forall a, b :: 0 <= a < b < |p| ==> row[p[a]] <= row[p[b]]
  }

  /** Every row of the (n, d) matrix `x` has length `d` and `order[i]` is an argsort of `x[i]`. */
  predicate IsRowArgsort(x: Matrix, order: seq<seq<int>>, d: nat) {
    && IsMatrix(x, |x|, d)
    && |order| == |x|
    && forall i :: 0 <= i < |x| ==> IsArgsort(x[i], order[i])
  }

  /** All values of `row` differ. */
  predicate Distinct(row: Vector) {
    forall j, k :: 0 <= j < k < |row| ==> row[j] != row[k]
  }

  /** The first position at which `v` occurs in `p`. */
  function IndexOf(p: seq<int>, v: int): (k: nat)
    requires v in p
    ensures k < |p| && p[k] == v
    ensures forall j :: 0 <= j < k ==> p[j] != v
  {
    if p[0] == v then 0 else 1 + IndexOf(p[1..], v)
  }

  /**
   * The ranks given by an argsort `p`: position `j` receives the place at which `j` occurs
   * in `p`, i.e. `r[p[k]] == k` for every `k`.
   */
  function Inverse(p: seq<int>): (r: seq<int>)
    requires IsPermutation(p)
    ensures |r| == |p|
    ensures forall k :: 0 <= k < |p| ==> r[p[k]] == k
    ensures forall j :: 0 <= j < |p| ==> 0 <= r[j] < |p| && p[r[j]] == j
  {
    var r := seq(|p|, j requires 0 <= j < |p| => IndexOf(p, j));
    assert forall k :: 0 <= k < |p| ==> r[p[k]] == k by {
      forall k | 0 <= k < |p|
        ensures r[p[k]] == k
      {
        var t := IndexOf(p, p[k]);
        assert p[t] == p[k];
      }
    }
    r
  }

  /** The rank buffer that `_get_ranks` returns, as floats: row `i` holds the ranks of row `i`. */
  function RankMatrix(order: seq<seq<int>>): (ranks: Matrix)
    requires forall i :: 0 <= i < |order| ==> IsPermutation(order[i])
    ensures |ranks| == |order|
    ensures forall i :: 0 <= i < |order| ==> |ranks[i]| == |order[i]|
  {
    seq(|order|, i requires 0 <= i < |order| => RealsOf(Inverse(order[i])))
  }

  /**
   * `_get_ranks(x)` given the library's argsort `xRank` of `x`: a fresh (n, d) buffer of zeros is
   * filled row by row, writing `k` at position `xRank[i][k]` for every `k` at once (the scatter
   * `ranks[i][x_rank[i]] = arange(d)`).
   */
  method GetRanks(x: Matrix, xRank: seq<seq<int>>, d: nat) returns (ranks: array2<real>)
    requires IsRowArgsort(x, xRank, d)
    ensures fresh(ranks)
    ensures ranks.Length0 == |x| && ranks.Length1 == d
    ensures forall i, j :: 0 <= i < |x| && 0 <= j < d ==> ranks[i, j] == RankMatrix(xRank)[i][j]
  {
    var n := |x|;
    ghost var target := RankMatrix(xRank);
    ranks := new real[n, d]((i, j) => 0.0);
    for i := 0 to n
      invariant forall i', j :: 0 <= i' < i && 0 <= j < d ==> ranks[i', j] == target[i'][j]
    {
      var p := xRank[i];
      ghost var r := Inverse(p);
      assert target[i] == RealsOf(r);
      forall k | 0 <= k < d {
        ranks[i, p[k]] := k as real;
      }
      forall j | 0 <= j < d
        ensures ranks[i, j] == target[i][j]
      {
        assert p[r[j]] == j;
      }
    }
  }

  /** The ranks of a row are themselves a permutation, and inverting them gives back the argsort. */
  lemma InverseIsPermutation(p: seq<int>)
    requires IsPermutation(p)
    ensures IsPermutation(Inverse(p))
    ensures Inverse(Inverse(p)) == p
  {
    var r := Inverse(p);
    forall a, b | 0 <= a < b < |r|
      ensures r[a] != r[b]
    {
      assert p[r[a]] == a && p[r[b]] == b;
    }
    forall v | 0 <= v < |r|
      ensures v in r
    {
      assert r[p[v]] == v;
    }
    var q := Inverse(r);
    forall k | 0 <= k < |p|
      ensures q[k] == p[k]
    {
      assert r[p[k]] == k;
      assert q[r[p[k]]] == p[k];
    }
  }

  /**
   * Ranks follow the order of the values: a strictly smaller value gets a strictly smaller
   * rank, and a smaller rank never belongs to a larger value.
   */
  lemma RanksPreserveOrder(row: Vector, p: seq<int>, j: int, k: int)
    requires IsArgsort(row, p)
    requires 0 <= j < |row| && 0 <= k < |row|
    ensures row[j] < row[k] ==> Inverse(p)[j] < Inverse(p)[k]
    ensures Inverse(p)[j] < Inverse(p)[k] ==> row[j] <= row[k]
  {
    var r := Inverse(p);
    assert p[r[j]] == j && p[r[k]] == k;
    if r[j] < r[k] {
      assert row[p[r[j]]] <= row[p[r[k]]];
    } else if r[k] < r[j] {
      assert row[p[r[k]]] <= row[p[r[j]]];
    }
  }

  /** The first `m` entries of an injective sequence are `m` different values. */
  lemma {:induction false} PrefixImageSize(p: seq<int>, m: nat)
    requires IsPermutation(p) && m <= |p|
    ensures |set t | 0 <= t < m :: p[t]| == m
  {
    if m > 0 {
      PrefixImageSize(p, m - 1);
      var before := set t | 0 <= t < m - 1 :: p[t];
      assert (set t | 0 <= t < m :: p[t]) == before + {p[m - 1]};
      assert p[m - 1] !in before;
    }
  }

  /**
   * With distinct values, the rank of position `j` is the number of values in the row that are
   * smaller than `row[j]`: the ascending rank, whatever argsort the library returned.
   */
  lemma RankCountsSmaller(row: Vector, p: seq<int>, j: int)
    requires IsArgsort(row, p) && Distinct(row)
    requires 0 <= j < |row|
    ensures Inverse(p)[j] == |set k | 0 <= k < |row| && row[k] < row[j]|
  {
    var r := Inverse(p);
    var smaller := set k | 0 <= k < |row| && row[k] < row[j];
    var firsts := set t | 0 <= t < r[j] :: p[t];
    forall k | k in smaller
      ensures k in firsts
    {
      RanksPreserveOrder(row, p, k, j);
      assert p[r[k]] == k;
    }
    forall k | k in firsts
      ensures k in smaller
    {
      var t :| 0 <= t < r[j] && p[t] == k;
      assert p[r[j]] == j;
      assert row[p[t]] <= row[p[r[j]]];
      assert k != j by {
        assert p[t] != p[r[j]];
      }
      if k < j {
        assert row[k] != row[j];
      } else {
        assert row[j] != row[k];
      }
    }
    assert smaller == firsts;
    PrefixImageSize(p, r[j]);
  }

  /** With distinct values, every argsort the library may return yields the same ranks. */
  lemma RanksIndependentOfArgsort(row: Vector, p: seq<int>, q: seq<int>)
    requires IsArgsort(row, p) && IsArgsort(row, q) && Distinct(row)
    ensures Inverse(p) == Inverse(q)
  {
    forall j | 0 <= j < |row|
      ensures Inverse(p)[j] == Inverse(q)[j]
    {
      RankCountsSmaller(row, p, j);
      RankCountsSmaller(row, q, j);
    }
  }
}
