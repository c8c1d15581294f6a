/**
 * Cosine similarity of two embedding vectors, with its guards: vectors of
 * different length, empty vectors and zero vectors score 0.  Vectors are
 * sequences of reals; the square root is the runtime's `Math.sqrt`, passed in
 * as `sqrt` and assumed exact where a lemma says `IsSqrt(sqrt)`.
 */
module Vectors {

  function Square(x: real): real { x * x }

  /** `sqrt` is the square root on the non-negative reals. */
  ghost predicate IsSqrt(sqrt: real -> real) {
    forall x :: 0.0 <= x ==> 0.0 <= sqrt(x) && Square(sqrt(x)) == x
  }

  /** The left fold `sum + a[i] * b[i]` from 0 over the indices below `n`. */
  function DotPrefix(a: seq<real>, b: seq<real>, n: nat): real
    requires n <= |a| && n <= |b|
  {
    if n == 0 then 0.0 else DotPrefix(a, b, n - 1) + a[n - 1] * b[n - 1]
  }

  /** The dot product, a fold over all indices of two vectors of the same length. */
  function Dot(a: seq<real>, b: seq<real>): real
    requires |a| == |b|
  {
    DotPrefix(a, b, |a|)
  }

  /** The fold `sum + value * value`: the squared Euclidean norm. */
  function SumSquares(a: seq<real>): real
  {
    DotPrefix(a, a, |a|)
  }

  /**
   * `cosineSimilarity(a, b)`: 0 when a guard applies, and otherwise the number
   * that, multiplied by the product of the two norms, gives the dot product.
   */
  function CosineSimilarity(sqrt: real -> real, a: seq<real>, b: seq<real>): (r: real)
    ensures |a| != |b| || |a| == 0 ==> r == 0.0
    ensures |a| == |b| && (sqrt(SumSquares(a)) == 0.0 || sqrt(SumSquares(b)) == 0.0) ==> r == 0.0
    ensures |a| == |b| && |a| != 0 && sqrt(SumSquares(a)) != 0.0 && sqrt(SumSquares(b)) != 0.0 ==>
              r * (sqrt(SumSquares(a)) * sqrt(SumSquares(b))) == Dot(a, b)
  {
    if |a| != |b| || |a| == 0 then 0.0
    else
      var normA := sqrt(SumSquares(a));
      var normB := sqrt(SumSquares(b));
      if normA == 0.0 || normB == 0.0 then 0.0 else Dot(a, b) / (normA * normB)
  }

  lemma ProductNonNegative(x: real, y: real)
    requires 0.0 <= x && 0.0 <= y
    ensures 0.0 <= x * y
  {
  }

  lemma ProductPositive(x: real, y: real)
    requires 0.0 < x && 0.0 < y
    ensures 0.0 < x * y
  {
  }

  lemma SquareDivides(x: real)
    requires x != 0.0
    ensures Square(x) / x == x
  {
  }

  /** A square is non-negative, and positive unless its root is 0. */
  lemma SquarePositive(x: real)
    ensures 0.0 <= Square(x)
    ensures x != 0.0 ==> 0.0 < Square(x)
  {
    if x != 0.0 {
      SquareDivides(x);
    }
  }

  /** The dot fold pairs the same indices whichever vector comes first. */
  lemma {:induction false} DotPrefixSymmetric(a: seq<real>, b: seq<real>, n: nat)
    requires n <= |a| && n <= |b|
    ensures DotPrefix(a, b, n) == DotPrefix(b, a, n)
  {
    if n > 0 {
      DotPrefixSymmetric(a, b, n - 1);
    }
  }

  /** A sum of squares is never negative. */
  lemma {:induction false} SumSquaresPrefixNonNegative(a: seq<real>, n: nat)
    requires n <= |a|
    ensures 0.0 <= DotPrefix(a, a, n)
  {
    if n > 0 {
      SumSquaresPrefixNonNegative(a, n - 1);
    }
  }

  /** A prefix sum of squares is 0 exactly when the prefix is all zeros. */
  lemma {:induction false} SumSquaresPrefixZero(a: seq<real>, n: nat)
    requires n <= |a|
    ensures DotPrefix(a, a, n) == 0.0 <==> forall i :: 0 <= i < n ==> a[i] == 0.0
  {
    if n > 0 {
      SumSquaresPrefixZero(a, n - 1);
      SumSquaresPrefixNonNegative(a, n - 1);
      SquarePositive(a[n - 1]);
      if DotPrefix(a, a, n) == 0.0 {
        assert a[n - 1] == 0.0;
      }
    }
  }

  /** The squared norm is 0 exactly for the zero vector (and the empty one). */
  lemma SumSquaresZero(a: seq<real>)
    ensures 0.0 <= SumSquares(a)
    ensures SumSquares(a) == 0.0 <==> forall i :: 0 <= i < |a| ==> a[i] == 0.0
  {
    SumSquaresPrefixNonNegative(a, |a|);
    SumSquaresPrefixZero(a, |a|);
  }

  /** The cross term of one Cauchy-Schwarz step is bounded by the two mixed terms. */
  lemma CrossTermBound(sa: real, sb: real, d: real, x: real, y: real)
    requires 0.0 <= sa && 0.0 <= sb && Square(d) <= sa * sb
    ensures 2.0 * d * (x * y) <= sa * Square(y) + sb * Square(x)
  {
    var cross := sa * Square(y) + sb * Square(x) - 2.0 * d * (x * y);
    SquarePositive(x);
    if sa == 0.0 {
      SquarePositive(d);
      ProductNonNegative(sb, Square(x));
    } else {
      assert sa * cross == Square(sa * y - d * x) + (sa * sb - Square(d)) * Square(x);
      SquarePositive(sa * y - d * x);
      ProductNonNegative(sa * sb - Square(d), Square(x));
      if cross < 0.0 {
        ProductPositive(sa, -cross);
      }
    }
  }

  /** Adding one index to both folds keeps dot^2 <= sumsq(a) * sumsq(b). */
  lemma CauchySchwarzStep(sa: real, sb: real, d: real, x: real, y: real)
    requires 0.0 <= sa && 0.0 <= sb && Square(d) <= sa * sb
    ensures Square(d + x * y) <= (sa + Square(x)) * (sb + Square(y))
  {
    CrossTermBound(sa, sb, d, x, y);
    assert Square(d + x * y) == Square(d) + 2.0 * d * (x * y) + Square(x) * Square(y);
    assert (sa + Square(x)) * (sb + Square(y)) == sa * sb + sa * Square(y) + sb * Square(x) + Square(x) * Square(y);
  }

  /** A bound dot^2 <= p * q carries over to equal quantities. */
  lemma BoundTransfer(d: real, p: real, q: real, d': real, p': real, q': real)
    requires Square(d) <= p * q
    requires d == d' && p == p' && q == q'
    ensures Square(d') <= p' * q'
  {
  }

  /** Cauchy-Schwarz for the folds: dot^2 <= sumsq(a) * sumsq(b). */
  lemma {:induction false} CauchySchwarzPrefix(a: seq<real>, b: seq<real>, n: nat)
    requires n <= |a| && n <= |b|
    ensures Square(DotPrefix(a, b, n)) <= DotPrefix(a, a, n) * DotPrefix(b, b, n)
  {
    if n > 0 {
      CauchySchwarzPrefix(a, b, n - 1);
      SumSquaresPrefixNonNegative(a, n - 1);
      SumSquaresPrefixNonNegative(b, n - 1);
      var x, y := a[n - 1], b[n - 1];
      var sa, sb, d := DotPrefix(a, a, n - 1), DotPrefix(b, b, n - 1), DotPrefix(a, b, n - 1);
      CauchySchwarzStep(sa, sb, d, x, y);
      BoundTransfer(d + x * y, sa + Square(x), sb + Square(y), DotPrefix(a, b, n), DotPrefix(a, a, n), DotPrefix(b, b, n));
    }
  }

  lemma SquareStrictlyMonotone(u: real, v: real)
    requires 0.0 <= u < v
    ensures Square(u) < Square(v)
  {
    var w := v - u;
    assert Square(v) == Square(u + w) == Square(u) + 2.0 * u * w + w * w;
    ProductPositive(w, w);
  }

  /** From d^2 <= p^2 with p > 0 follows |d| <= p. */
  lemma BoundFromSquares(d: real, p: real)
    requires 0.0 < p && Square(d) <= Square(p)
    ensures -p <= d <= p
  {
    if p < d {
      SquareStrictlyMonotone(p, d);
    } else if d < -p {
      SquareStrictlyMonotone(p, -d);
    }
  }

  lemma SquareOfProduct(x: real, y: real)
    ensures Square(x * y) == Square(x) * Square(y)
  {
  }

  lemma QuotientInUnitRange(d: real, p: real)
    requires 0.0 < p && -p <= d <= p
    ensures -1.0 <= d / p <= 1.0
  {
  }

  /** Similarity does not depend on the order of its arguments. */
  lemma CosineSymmetric(sqrt: real -> real, a: seq<real>, b: seq<real>)
    ensures CosineSimilarity(sqrt, a, b) == CosineSimilarity(sqrt, b, a)
  {
    if |a| == |b| {
      DotPrefixSymmetric(a, b, |a|);
    }
  }

  /**
   * The guards: different lengths, an empty vector, or a vector whose sum of
   * squares is 0 all give a similarity of exactly 0.  Only `sqrt(0) == 0` is
   * needed, which `Math.sqrt` meets exactly.
   */
  lemma CosineDegenerate(sqrt: real -> real, a: seq<real>, b: seq<real>)
    requires sqrt(0.0) == 0.0
    requires |a| != |b| || |a| == 0 || SumSquares(a) == 0.0 || SumSquares(b) == 0.0
    ensures CosineSimilarity(sqrt, a, b) == 0.0
  {
  }

  /** For vectors of equal length the similarity lies in [-1, 1]. */
  lemma CosineInRange(sqrt: real -> real, a: seq<real>, b: seq<real>)
    requires IsSqrt(sqrt)
    ensures -1.0 <= CosineSimilarity(sqrt, a, b) <= 1.0
  {
    if |a| == |b| && |a| != 0 {
      var sa, sb := SumSquares(a), SumSquares(b);
      SumSquaresZero(a);
      SumSquaresZero(b);
      var na, nb := sqrt(sa), sqrt(sb);
      if na != 0.0 && nb != 0.0 {
        var d, p := Dot(a, b), na * nb;
        assert CosineSimilarity(sqrt, a, b) == d / p;
        CauchySchwarzPrefix(a, b, |a|);
        assert Square(d) <= sa * sb;
        assert Square(na) == sa && Square(nb) == sb;
        ProductPositive(na, nb);
        SquareOfProduct(na, nb);
        BoundFromSquares(d, p);
        QuotientInUnitRange(d, p);
      }
    }
  }

  lemma QuotientOfSquare(s: real, n: real)
    requires s != 0.0 && Square(n) == s
    ensures s / (n * n) == 1.0
  {
  }

  /** A non-zero vector is perfectly similar to itself. */
  lemma CosineSelf(sqrt: real -> real, a: seq<real>)
    requires IsSqrt(sqrt)
    requires exists i :: 0 <= i < |a| && a[i] != 0.0
    ensures CosineSimilarity(sqrt, a, a) == 1.0
  {
    SumSquaresZero(a);
    var s := SumSquares(a);
    var n := sqrt(s);
    assert Square(n) == s;
    QuotientOfSquare(s, n);
  }
}
