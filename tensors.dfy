/** Real vectors and matrices as sequences, and the sums the model is built from. */
module Tensors {

  type Vector = seq<real>
  type Matrix = seq<Vector>

  /** `m` is a tensor of shape (rows, cols). */
  predicate IsMatrix(m: Matrix, rows: nat, cols: nat) {
    |m| == rows && forall i :: 0 <= i < rows ==> |m[i]| == cols
  }

  /** An integer sequence read as reals (a float cast). */
  function RealsOf(s: seq<int>): (r: Vector)
    ensures |r| == |s|
  {
    seq(|s|, j requires 0 <= j < |s| => s[j] as real)
  }

  function Sum(v: Vector): real {
    if v == [] then 0.0 else v[0] + Sum(v[1..])
  }

  function Dot(u: Vector, v: Vector): real
    requires |u| == |v|
  {
    if u == [] then 0.0 else u[0] * v[0] + Dot(u[1..], v[1..])
  }

  /** Sum of all entries of a matrix. */
  function MatrixSum(m: Matrix): real {
    if m == [] then 0.0 else Sum(m[0]) + MatrixSum(m[1..])
  }

  lemma {:induction false} SumAppend(a: Vector, b: Vector)
    ensures Sum(a + b) == Sum(a) + Sum(b)
  {
    if a == [] {
      assert a + b == b;
    } else {
      assert (a + b)[1..] == a[1..] + b;
      SumAppend(a[1..], b);
    }
  }

  lemma {:induction false} SumNonNegative(v: Vector)
    requires forall j :: 0 <= j < |v| ==> v[j] >= 0.0
    ensures Sum(v) >= 0.0
  {
    if v != [] {
      SumNonNegative(v[1..]);
    }
  }

  /** Scaling every entry scales the sum. */
  lemma {:induction false} SumScale(v: Vector, w: Vector, c: real)
    requires |w| == |v|
    requires forall j :: 0 <= j < |v| ==> w[j] == c * v[j]
    ensures Sum(w) == c * Sum(v)
  {
    if v != [] {
      SumScale(v[1..], w[1..], c);
    }
  }

  /** The sum of an entrywise sum is the sum of the sums. */
  lemma {:induction false} SumAdd(u: Vector, v: Vector, w: Vector)
    requires |u| == |v| == |w|
    requires forall j :: 0 <= j < |w| ==> w[j] == u[j] + v[j]
    ensures Sum(w) == Sum(u) + Sum(v)
  {
    if w != [] {
      SumAdd(u[1..], v[1..], w[1..]);
    }
  }

  /** Sequences that agree entrywise have the same sum. */
  lemma {:induction false} SumEqual(u: Vector, v: Vector)
    requires |u| == |v|
    requires forall j :: 0 <= j < |u| ==> u[j] == v[j]
    ensures Sum(u) == Sum(v)
  {
    assert u == v;
  }

  /** A sum of non-negative entries is zero exactly when every entry is. */
  lemma {:induction false} SumZeroIff(v: Vector)
    requires forall j :: 0 <= j < |v| ==> v[j] >= 0.0
    ensures Sum(v) >= 0.0
    ensures Sum(v) == 0.0 <==> forall j :: 0 <= j < |v| ==> v[j] == 0.0
  {
    if v != [] {
      SumZeroIff(v[1..]);
      assert forall j :: 1 <= j < |v| ==> v[j] == v[1..][j - 1];
    }
  }

  /** The matrix form of `SumZeroIff`. */
  lemma {:induction false} MatrixSumZeroIff(m: Matrix)
    requires forall i, j :: 0 <= i < |m| && 0 <= j < |m[i]| ==> m[i][j] >= 0.0
    ensures MatrixSum(m) >= 0.0
    ensures MatrixSum(m) == 0.0 <==> forall i, j :: 0 <= i < |m| && 0 <= j < |m[i]| ==> m[i][j] == 0.0
  {
    if m != [] {
      SumZeroIff(m[0]);
      MatrixSumZeroIff(m[1..]);
      assert forall i :: 1 <= i < |m| ==> m[i] == m[1..][i - 1];
    }
  }

  /** A non-zero square added to a non-negative number is positive. */
  lemma SquarePlusPositive(x: real, r: real)
    requires x != 0.0 && r >= 0.0
    ensures x * x + r > 0.0
  {
    calc {
      x * x + r;
    >= x * x;
    >  0.0;
    }
  }

  /** A squared norm is never negative, and is positive when some entry is not zero. */
  lemma {:induction false} DotSelfPositive(u: Vector)
    ensures Dot(u, u) >= 0.0
    ensures (exists k :: 0 <= k < |u| && u[k] != 0.0) ==> Dot(u, u) > 0.0
  {
    if u != [] {
      DotSelfPositive(u[1..]);
      var rest := Dot(u[1..], u[1..]);
      assert Dot(u, u) == u[0] * u[0] + rest;
      if u[0] != 0.0 {
        SquarePlusPositive(u[0], rest);
      } else {
        assert Dot(u, u) == rest;
        if exists k :: 0 <= k < |u| && u[k] != 0.0 {
          var k :| 0 <= k < |u| && u[k] != 0.0;
          assert u[1..][k - 1] != 0.0;
        }
      }
    }
  }

  lemma {:induction false} DotSymmetric(u: Vector, v: Vector)
    requires |u| == |v|
    ensures Dot(u, v) == Dot(v, u)
  {
    if u != [] {
      DotSymmetric(u[1..], v[1..]);
    }
  }

  /** Dividing both operands entrywise by `a` and `b` divides the dot product by `a * b`. */
  lemma {:induction false} DotDivided(u: Vector, v: Vector, a: real, b: real, us: Vector, vs: Vector)
    requires |u| == |v| == |us| == |vs| && a != 0.0 && b != 0.0
    requires forall j :: 0 <= j < |u| ==> us[j] == u[j] / a && vs[j] == v[j] / b
    ensures Dot(us, vs) == Dot(u, v) / (a * b)
  {
    DotDividedLeft(u, v, a, us);
    DotDividedLeft(v, us, b, vs);
    DotSymmetric(us, vs);
    DotSymmetric(v, us);
    DivTwice(Dot(u, v), a, b, Dot(us, v));
  }

  /** Dividing the left operand entrywise by `a` divides the dot product by `a`. */
  lemma {:induction false} DotDividedLeft(u: Vector, v: Vector, a: real, us: Vector)
    requires |u| == |v| == |us| && a != 0.0
    requires forall j :: 0 <= j < |u| ==> us[j] == u[j] / a
    ensures Dot(us, v) == Dot(u, v) / a
  {
    if u != [] {
      forall j | 0 <= j < |u| - 1
        ensures us[1..][j] == u[1..][j] / a
      {
        assert us[1..][j] == us[j + 1] && u[1..][j] == u[j + 1];
      }
      DotDividedLeft(u[1..], v[1..], a, us[1..]);
      DividedStep(u[0], v[0], a, us[0], Dot(u[1..], v[1..]), Dot(us[1..], v[1..]), Dot(u, v));
    }
  }

  /** The inductive step of `DotDividedLeft`, on the head entries and the sums of the tails. */
  lemma DividedStep(x: real, y: real, a: real, xs: real, rest: real, restS: real, total: real)
    requires a != 0.0 && xs == x / a && restS == rest / a && total == x * y + rest
    ensures xs * y + restS == total / a
  {
    assert xs * a == x;
    assert (xs * y + restS) * a == xs * a * y + restS * a;
  }

  /** Dividing by `a` and then by `b` divides by `a * b`. */
  lemma DivTwice(x: real, a: real, b: real, q: real)
    requires a != 0.0 && b != 0.0 && q == x / a
    ensures q / b == x / (a * b)
  {
    assert q * a == x;
    assert (q / b) * (a * b) == q * a;
  }

  lemma PositiveSquare(x: real)
    requires x > 0.0
    ensures x * x > 0.0
  {
  }

  /** A positive number whose square is `a` makes `a` positive. */
  lemma PositiveRoot(a: real, s: real)
    requires s > 0.0 && s * s == a
    ensures a > 0.0
  {
    calc {
      a;
      s * s;
    > { PositiveSquare(s); }
      0.0;
    }
  }

  /** Division undoes multiplication. */
  lemma DivFromProduct(x: real, y: real, n: real)
    requires n != 0.0 && x == y * n
    ensures x / n == y
  {
  }

  lemma DivAdd(x: real, y: real, q: real)
    requires q != 0.0
    ensures x / q + y / q == (x + y) / q
  {
  }

  /** The squared norm of `u + v`, expanded. */
  lemma {:induction false} DotOfSum(u: Vector, v: Vector, w: Vector)
    requires |u| == |v| == |w|
    requires forall j :: 0 <= j < |u| ==> w[j] == u[j] + v[j]
    ensures Dot(w, w) == Dot(u, u) + 2.0 * Dot(u, v) + Dot(v, v)
  {
    if u != [] {
      DotOfSum(u[1..], v[1..], w[1..]);
      SquareOfSum(u[0], v[0], w[0]);
    }
  }

  /** The squared norm of `u - v`, expanded. */
  lemma {:induction false} DotOfDifference(u: Vector, v: Vector, w: Vector)
    requires |u| == |v| == |w|
    requires forall j :: 0 <= j < |u| ==> w[j] == u[j] - v[j]
    ensures Dot(w, w) == Dot(u, u) - 2.0 * Dot(u, v) + Dot(v, v)
  {
    if u != [] {
      DotOfDifference(u[1..], v[1..], w[1..]);
      SquareOfSum(u[0], -v[0], w[0]);
    }
  }

  lemma SquareOfSum(a: real, b: real, c: real)
    requires c == a + b
    ensures c * c == a * a + 2.0 * (a * b) + b * b
    ensures (-b) * (-b) == b * b && a * (-b) == -(a * b)
  {
  }

  /** The dot product of two unit vectors lies in [-1, 1]. */
  lemma {:induction false} UnitDotInRange(u: Vector, v: Vector)
    requires |u| == |v| && Dot(u, u) == 1.0 && Dot(v, v) == 1.0
    ensures -1.0 <= Dot(u, v) <= 1.0
  {
    var plus := seq(|u|, j requires 0 <= j < |u| => u[j] + v[j]);
    var minus := seq(|u|, j requires 0 <= j < |u| => u[j] - v[j]);
    DotOfSum(u, v, plus);
    DotOfDifference(u, v, minus);
    DotSelfPositive(plus);
    DotSelfPositive(minus);
  }
}
