/** The similarity metric of the vector store: cosine similarity between two
    component sequences, with its two degenerate-case guards (mismatched
    lengths, zero norm) and its single left-to-right accumulation loop.

    Components are exact integers (a fixed-point reading of the stored
    floating-point components; cosine similarity does not change when every
    component of a vector is scaled by the same positive factor). The three
    accumulated sums are therefore exact. The final step of the metric,
    dot / (sqrt(normA) * sqrt(normB)), is replaced by the signed square of that
    cosine, dot * |dot| / (normA * normB), a real number: it needs no square
    root, it is a strictly increasing function of the cosine (so every
    comparison between scores, and therefore every ranking, is the same), and
    it has the same sign, the same zeros and the same range [-1, 1]. */
module Cosine {

  function Abs(x: int): int { if x < 0 then -x else x }

  function AbsReal(x: real): real { if x < 0.0 then -x else x }

  /** The dot product, accumulated left to right over indices 0 .. |a|-1. */
  function Dot(a: seq<int>, b: seq<int>): int
    requires |a| == |b|
  {
    if |a| == 0 then 0
    else Dot(a[..|a| - 1], b[..|b| - 1]) + a[|a| - 1] * b[|b| - 1]
  }

  /** The squared Euclidean norm, the sum of the squared components. */
  function SquaredNorm(a: seq<int>): (r: int)
    ensures r >= 0
  {
    SquaredNormNonNegative(a);
    Dot(a, a)
  }

  /** Every component is zero (this includes the empty sequence). */
  predicate IsZero(a: seq<int>) {
    forall i :: 0 <= i < |a| ==> a[i] == 0
  }

  /** The signed square of the cosine whose pre-division quantities are
      dot, normA and normB. */
  function Score(dot: int, normA: int, normB: int): real
    requires normA > 0 && normB > 0
  {
    (dot * Abs(dot)) as real / ((normA * normB) as real)
  }

  /** The metric: 0 for mismatched lengths, 0 when either squared norm is 0,
      otherwise the score of the accumulated sums. */
  function Similarity(a: seq<int>, b: seq<int>): real {
    if |a| != |b| then 0.0
    else if SquaredNorm(a) == 0 || SquaredNorm(b) == 0 then 0.0
    else Score(Dot(a, b), SquaredNorm(a), SquaredNorm(b))
  }

  /** The loop of the metric: it runs once over the common length, keeping the
      three running sums, then applies the two guards. */
  method CosineSimilarity(a: seq<int>, b: seq<int>) returns (r: real)
    ensures r == Similarity(a, b)
    ensures |a| != |b| ==> r == 0.0
    ensures IsZero(a) || IsZero(b) ==> r == 0.0
    ensures -1.0 <= r <= 1.0
  {
    SimilarityInRange(a, b);
    if |a| != |b| {
      return 0.0;
    }
    SquaredNormZeroIff(a);
    SquaredNormZeroIff(b);
    var dotProduct, normA, normB := 0, 0, 0;
    for i := 0 to |a|
      invariant dotProduct == Dot(a[..i], b[..i])
      invariant normA == Dot(a[..i], a[..i])
      invariant normB == Dot(b[..i], b[..i])
    {
      assert a[..i + 1][..i] == a[..i] && b[..i + 1][..i] == b[..i];
      dotProduct := dotProduct + a[i] * b[i];
      normA := normA + a[i] * a[i];
      normB := normB + b[i] * b[i];
    }
    assert a[..|a|] == a && b[..|b|] == b;
    if normA == 0 || normB == 0 {
      return 0.0;
    }
    return Score(dotProduct, normA, normB);
  }

  lemma {:induction false} SquaredNormNonNegative(a: seq<int>)
    ensures Dot(a, a) >= 0
  {
    if |a| > 0 {
      SquaredNormNonNegative(a[..|a| - 1]);
    }
  }

  /** A squared norm is zero exactly when every component is zero. */
  lemma {:induction false} SquaredNormZeroIff(a: seq<int>)
    ensures SquaredNorm(a) == 0 <==> IsZero(a)
  {
    if |a| > 0 {
      var init, x := a[..|a| - 1], a[|a| - 1];
      SquaredNormZeroIff(init);
      assert SquaredNorm(a) == SquaredNorm(init) + x * x;
      if SquaredNorm(a) == 0 {
        assert x == 0;
        forall i | 0 <= i < |a| ensures a[i] == 0 {
          if i < |a| - 1 { assert a[i] == init[i]; }
        }
      }
      if IsZero(a) {
        forall i | 0 <= i < |init| ensures init[i] == 0 {
          assert init[i] == a[i];
        }
        assert x == 0;
      }
    }
  }

  lemma {:induction false} DotSymmetric(a: seq<int>, b: seq<int>)
    requires |a| == |b|
    ensures Dot(a, b) == Dot(b, a)
  {
    if |a| > 0 {
      DotSymmetric(a[..|a| - 1], b[..|b| - 1]);
    }
  }

  /** One step of the Cauchy-Schwarz induction: if d^2 <= na*nb for
      non-negative na and nb, the same holds after adding x*y to d, x^2 to na
      and y^2 to nb. */
  lemma CauchySchwarzStep(d: int, na: int, nb: int, x: int, y: int)
    requires na >= 0 && nb >= 0 && d * d <= na * nb
    ensures (d + x * y) * (d + x * y) <= (na + x * x) * (nb + y * y)
  {
    CrossTermBound(d, na, nb, x, y);
    assert (d + x * y) * (d + x * y) == d * d + 2 * d * x * y + (x * x) * (y * y);
    assert (na + x * x) * (nb + y * y) == na * nb + na * y * y + nb * x * x + (x * x) * (y * y);
  }

  /** The cross term of one Cauchy-Schwarz step: 2*d*x*y <= na*y^2 + nb*x^2. */
  lemma CrossTermBound(d: int, na: int, nb: int, x: int, y: int)
    requires na >= 0 && nb >= 0 && d * d <= na * nb
    ensures 2 * d * x * y <= na * y * y + nb * x * x
  {
    if na == 0 {
      assert d * d <= 0;
      assert d == 0;
      NonNegativeProduct(nb, x * x);
    } else {
      var t := na * y - d * x;
      var e := na * y * y + nb * x * x - 2 * d * x * y;
      assert na * e == t * t + (na * nb - d * d) * (x * x);
      NonNegativeProduct(na * nb - d * d, x * x);
      PositiveFactor(na, e);
    }
  }

  lemma NonNegativeProduct(p: int, q: int)
    requires p >= 0 && q >= 0
    ensures p * q >= 0
  {
  }

  lemma PositiveFactor(p: int, e: int)
    requires p > 0 && p * e >= 0
    ensures e >= 0
  {
  }

  /** Cauchy-Schwarz: the square of the dot product is at most the product of
      the squared norms. This is what puts the metric in [-1, 1]. */
  lemma {:induction false} CauchySchwarz(a: seq<int>, b: seq<int>)
    requires |a| == |b|
    ensures Dot(a, b) * Dot(a, b) <= SquaredNorm(a) * SquaredNorm(b)
  {
    if |a| > 0 {
      var ia, ib := a[..|a| - 1], b[..|b| - 1];
      CauchySchwarz(ia, ib);
      CauchySchwarzStep(Dot(ia, ib), SquaredNorm(ia), SquaredNorm(ib), a[|a| - 1], b[|b| - 1]);
    }
  }

  /** The metric lies in [-1, 1] for all inputs, degenerate ones included. */
  lemma SimilarityInRange(a: seq<int>, b: seq<int>)
    ensures -1.0 <= Similarity(a, b) <= 1.0
  {
    if |a| == |b| && SquaredNorm(a) != 0 && SquaredNorm(b) != 0 {
      var d, product := Dot(a, b), SquaredNorm(a) * SquaredNorm(b);
      CauchySchwarz(a, b);
      NonNegativeProduct(SquaredNorm(a), SquaredNorm(b));
      SignedSquareBound(d, product);
      QuotientInUnitRange((d * Abs(d)) as real, product as real);
    }
  }

  lemma SignedSquareBound(d: int, m: int)
    requires d * d <= m
    ensures -m <= d * Abs(d) <= m
  {
  }

  lemma QuotientInUnitRange(u: real, p: real)
    requires p > 0.0 && -p <= u <= p
    ensures -1.0 <= u / p <= 1.0
  {
  }

  /** A zero (or empty) vector scores 0 against anything. */
  lemma SimilarityOfZero(a: seq<int>, b: seq<int>)
    requires IsZero(a) || IsZero(b)
    ensures Similarity(a, b) == 0.0 && Similarity(b, a) == 0.0
  {
    SquaredNormZeroIff(a);
    SquaredNormZeroIff(b);
  }

  /** The metric is symmetric. */
  lemma SimilaritySymmetric(a: seq<int>, b: seq<int>)
    ensures Similarity(a, b) == Similarity(b, a)
  {
    if |a| == |b| {
      DotSymmetric(a, b);
      if SquaredNorm(a) != 0 && SquaredNorm(b) != 0 {
        assert SquaredNorm(a) * SquaredNorm(b) == SquaredNorm(b) * SquaredNorm(a);
      }
    }
  }

  /** A non-zero vector is identical to itself: its score is exactly 1. */
  lemma SimilarityOfSelf(a: seq<int>)
    requires !IsZero(a)
    ensures Similarity(a, a) == 1.0
  {
    SquaredNormZeroIff(a);
    var n := SquaredNorm(a);
    assert Dot(a, a) * Abs(Dot(a, a)) == n * n;
    var p := (n * n) as real;
    assert p > 0.0;
    assert p / p == 1.0;
  }

  /** The score is the signed square of the real cosine: given the square
      roots sa of normA and sb of normB, the cosine c = dot / (sa * sb)
      satisfies c * |c| == Score(dot, normA, normB). */
  lemma ScoreIsSignedSquareOfCosine(dot: int, normA: int, normB: int, sa: real, sb: real)
    requires normA > 0 && normB > 0 && sa > 0.0 && sb > 0.0
    requires sa * sa == normA as real && sb * sb == normB as real
    ensures var c := dot as real / (sa * sb); Score(dot, normA, normB) == c * AbsReal(c)
  {
    var s := sa * sb;
    assert s > 0.0;
    assert s * s == (normA * normB) as real;
    var c := dot as real / s;
    var d := dot as real;
    assert c * s == d;
    if dot >= 0 {
      assert c >= 0.0;
      assert (dot * Abs(dot)) as real == d * d;
      assert c * c * (s * s) == d * d;
    } else {
      assert c < 0.0;
      assert (dot * Abs(dot)) as real == -(d * d);
      assert c * c * (s * s) == d * d;
    }
  }

  /** The metric itself is the signed square of the real cosine whenever
      neither guard fires: given the square roots sa and sb of the two
      squared norms, Similarity(a, b) == c * |c| for c = Dot(a, b) / (sa * sb). */
  lemma SimilarityIsSignedSquareOfCosine(a: seq<int>, b: seq<int>, sa: real, sb: real)
    requires |a| == |b| && !IsZero(a) && !IsZero(b) && sa > 0.0 && sb > 0.0
    requires sa * sa == SquaredNorm(a) as real && sb * sb == SquaredNorm(b) as real
    ensures var c := Dot(a, b) as real / (sa * sb); Similarity(a, b) == c * AbsReal(c)
  {
    SquaredNormZeroIff(a);
    SquaredNormZeroIff(b);
    ScoreIsSignedSquareOfCosine(Dot(a, b), SquaredNorm(a), SquaredNorm(b), sa, sb);
  }

  /** The metric is 0 exactly when the cosine is 0 or a guard fires: the
      lengths differ, a vector is all zeros, or the dot product is 0. */
  lemma SimilarityZeroIff(a: seq<int>, b: seq<int>)
    ensures Similarity(a, b) == 0.0 <==>
      |a| != |b| || IsZero(a) || IsZero(b) || Dot(a, b) == 0
  {
    if |a| == |b| {
      SquaredNormZeroIff(a);
      SquaredNormZeroIff(b);
      if !IsZero(a) && !IsZero(b) {
        var d := Dot(a, b);
        var q := (SquaredNorm(a) * SquaredNorm(b)) as real;
        assert q > 0.0;
        if d != 0 {
          assert d * Abs(d) != 0;
          var u := (d * Abs(d)) as real;
          assert u / q * q == u;
        }
      }
    }
  }

  lemma MulLeft(a: real, b: real, c: real)
    requires a <= b && c >= 0.0
    ensures a * c <= b * c
  {
    assert (b - a) * c >= 0.0;
  }

  lemma MulLeftNegative(a: real, b: real, c: real)
    requires a <= b && c <= 0.0
    ensures b * c <= a * c
  {
    assert (b - a) * (-c) >= 0.0;
  }

  lemma MulLeftStrict(a: real, b: real, c: real)
    requires a < b && c > 0.0
    ensures a * c < b * c
  {
    assert (b - a) * c > 0.0;
  }

  /** Taking the signed square keeps the order of any two cosines, so ranking by
      score and ranking by cosine agree. */
  lemma SignedSquareMonotone(x: real, y: real)
    ensures x <= y <==> x * AbsReal(x) <= y * AbsReal(y)
  {
    if x <= y {
      SignedSquareLe(x, y);
    } else {
      SignedSquareLt(y, x);
    }
  }

  lemma SignedSquareLe(x: real, y: real)
    requires x <= y
    ensures x * AbsReal(x) <= y * AbsReal(y)
  {
    if 0.0 <= x {
      SignedSquareLeNonNegative(x, y);
    } else if y < 0.0 {
      SignedSquareLeNegative(x, y);
    } else {
      SignedSquareAcrossZero(x, y);
    }
  }

  lemma SignedSquareLt(x: real, y: real)
    requires x < y
    ensures x * AbsReal(x) < y * AbsReal(y)
  {
    if 0.0 <= x {
      SignedSquareLtNonNegative(x, y);
    } else if y < 0.0 {
      SignedSquareLtNegative(x, y);
    } else {
      SignedSquareAcrossZero(x, y);
    }
  }

  lemma SignedSquareLeNonNegative(x: real, y: real)
    requires 0.0 <= x <= y
    ensures x * AbsReal(x) <= y * AbsReal(y)
  {
    var ax, ay := AbsReal(x), AbsReal(y);
    MulLeft(x, y, ax);
    MulLeft(ax, ay, y);
  }

  lemma SignedSquareLtNonNegative(x: real, y: real)
    requires 0.0 <= x < y
    ensures x * AbsReal(x) < y * AbsReal(y)
  {
    var ax, ay := AbsReal(x), AbsReal(y);
    MulLeft(x, y, ax);
    MulLeftStrict(ax, ay, y);
  }

  lemma SignedSquareLeNegative(x: real, y: real)
    requires x <= y < 0.0
    ensures x * AbsReal(x) <= y * AbsReal(y)
  {
    var ax, ay := AbsReal(x), AbsReal(y);
    MulLeft(x, y, ax);
    MulLeftNegative(ay, ax, y);
  }

  lemma SignedSquareLtNegative(x: real, y: real)
    requires x < y < 0.0
    ensures x * AbsReal(x) < y * AbsReal(y)
  {
    var ax, ay := AbsReal(x), AbsReal(y);
    MulLeftStrict(x, y, ax);
    MulLeftNegative(ay, ax, y);
  }

  lemma SignedSquareAcrossZero(x: real, y: real)
    requires x < 0.0 <= y
    ensures x * AbsReal(x) < y * AbsReal(y)
  {
    var ax, ay := AbsReal(x), AbsReal(y);
    MulLeftStrict(x, 0.0, ax);
    MulLeft(0.0, y, ay);
  }
}
