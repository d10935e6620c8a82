// Cosine similarity over real vectors, with the square root as a parameter.
module Cosine {

  type Vector = seq<real>

  ghost predicate IsSqrt(root: real -> real) {
    forall x: real :: x >= 0.0 ==> root(x) >= 0.0 && root(x) * root(x) == x
  }

  // A name for a product, so that facts about it are ones the solver keeps.
  function Times(x: real, y: real): real { x * y }

  function Dot(a: Vector, b: Vector): real
    requires |a| == |b|
  {
    if a == [] then 0.0 else Dot(a[..|a| - 1], b[..|b| - 1]) + Times(a[|a| - 1], b[|b| - 1])
  }

  lemma NormIsPositive(root: real -> real, a: Vector)
    requires IsSqrt(root) && Dot(a, a) != 0.0
    ensures Dot(a, a) > 0.0 && root(Dot(a, a)) > 0.0
  {
    NormNonNegative(a);
    var x := root(Dot(a, a));
    assert x >= 0.0 && x * x == Dot(a, a);
    SquareSign(x);
  }

  predicate Comparable(a: Vector, b: Vector) { |a| == |b| && Dot(a, a) != 0.0 && Dot(b, b) != 0.0 }

  // The product of the norms of two comparable vectors.
  function Norms(root: real -> real, a: Vector, b: Vector): (n: real)
    requires IsSqrt(root) && Comparable(a, b)
    ensures n > 0.0
  {
    NormIsPositive(root, a);
    NormIsPositive(root, b);
    TimesSign(root(Dot(a, a)), root(Dot(b, b)));
    Times(root(Dot(a, a)), root(Dot(b, b)))
  }

  function Similarity(root: real -> real, a: Vector, b: Vector): real
    requires IsSqrt(root)
  {
    if Comparable(a, b) then Dot(a, b) / Norms(root, a, b) else 0.0
  }

  method CosineSimilarity(root: real -> real, a: Vector, b: Vector) returns (sim: real)
    requires IsSqrt(root)
    ensures sim == Similarity(root, a, b)
  {
    if |a| != |b| || |a| == 0 { return 0.0; }
    var dot, normA, normB := 0.0, 0.0, 0.0;
    for i := 0 to |a|
      invariant dot == Dot(a[..i], b[..i]) && normA == Dot(a[..i], a[..i]) && normB == Dot(b[..i], b[..i])
    {
      assert a[..i + 1][..i] == a[..i] && b[..i + 1][..i] == b[..i];
      dot := dot + a[i] * b[i];
      normA := normA + a[i] * a[i];
      normB := normB + b[i] * b[i];
    }
    assert a[..|a|] == a && b[..|a|] == b;
    if normA == 0.0 || normB == 0.0 { return 0.0; }
    assert root(normA) * root(normB) == Norms(root, a, b);
    sim := dot / (root(normA) * root(normB));
  }

  // The sum of (s a_i - t b_i)^2, in terms of the three accumulators.
  function Form(p: real, q: real, r: real, s: real, t: real): real {
    s * s * p - 2.0 * s * t * q + t * t * r
  }

  lemma {:induction false} FormNonNegative(a: Vector, b: Vector, s: real, t: real)
    requires |a| == |b|
    ensures Form(Dot(a, a), Dot(a, b), Dot(b, b), s, t) >= 0.0
  {
    if a != [] {
      var n := |a| - 1;
      FormNonNegative(a[..n], b[..n], s, t);
      FormGrows(Dot(a[..n], a[..n]), Dot(a[..n], b[..n]), Dot(b[..n], b[..n]), a[n], b[n], s, t,
                Dot(a, a), Dot(a, b), Dot(b, b));
    }
  }

  // One more pair of coordinates adds one more square.
  lemma FormGrows(p: real, q: real, r: real, x: real, y: real, s: real, t: real, p': real, q': real, r': real)
    requires p' == p + x * x && q' == q + x * y && r' == r + y * y
    ensures Form(p', q', r', s, t) >= Form(p, q, r, s, t)
  {
    var u, v := s * x, t * y;
    Distributes(s * s, p, x * x);
    Distributes(2.0 * s * t, q, x * y);
    Distributes(t * t, r, y * y);
    assert s * s * (x * x) == u * u;
    assert 2.0 * s * t * (x * y) == 2.0 * (u * v);
    assert t * t * (y * y) == v * v;
    assert u * u - 2.0 * (u * v) + v * v == (u - v) * (u - v);
    SquareSign(u - v);
  }

  lemma Distributes(k: real, x: real, y: real)
    ensures k * (x + y) == k * x + k * y
  {}

  lemma {:induction false} NormNonNegative(a: Vector)
    ensures Dot(a, a) >= 0.0
  {
    if a != [] { NormNonNegative(a[..|a| - 1]); }
  }

  lemma {:induction false} ZeroNorm(a: Vector, b: Vector)
    requires |a| == |b| && Dot(a, a) == 0.0
    ensures Dot(a, b) == 0.0
  {
    if a != [] {
      var n := |a| - 1;
      NormNonNegative(a[..n]);
      ZeroSum(Dot(a[..n], a[..n]), a[n]);
      ZeroNorm(a[..n], b[..n]);
    }
  }

  lemma ZeroSum(p: real, x: real)
    requires p >= 0.0
    ensures p + Times(x, x) == 0.0 ==> p == 0.0 && x == 0.0
  {
    SquareSign(x);
  }

  lemma CauchySchwarz(a: Vector, b: Vector)
    requires |a| == |b|
    ensures Dot(a, b) * Dot(a, b) <= Dot(a, a) * Dot(b, b)
  {
    var p, q, r := Dot(a, a), Dot(a, b), Dot(b, b);
    NormNonNegative(a);
    if p == 0.0 {
      ZeroNorm(a, b);
    } else {
      FormNonNegative(a, b, q, p);
      FormAtItsLeast(p, q, r);
    }
  }

  // At its least, the form is p (p r - q^2).
  lemma FormAtItsLeast(p: real, q: real, r: real)
    requires p > 0.0 && Form(p, q, r, q, p) >= 0.0
    ensures q * q <= p * r
  {
    assert q * q * p == p * (q * q) && 2.0 * q * p * q == 2.0 * (p * (q * q)) && p * p * r == p * (p * r);
    assert Form(p, q, r, q, p) == p * (p * r - q * q);
    SignOfFactor(p, p * r - q * q);
  }

  lemma SquareSign(x: real)
    ensures x != 0.0 ==> Times(x, x) > 0.0
  {
    TimesSign(x, x);
  }

  lemma TimesSign(x: real, y: real)
    ensures (x > 0.0 && y > 0.0) || (x < 0.0 && y < 0.0) ==> Times(x, y) > 0.0
  {}

  lemma SignOfFactor(p: real, x: real)
    ensures p > 0.0 && x < 0.0 ==> p * x < 0.0
  {}

  lemma NormsSquare(root: real -> real, a: Vector, b: Vector)
    requires IsSqrt(root) && Comparable(a, b)
    ensures Norms(root, a, b) * Norms(root, a, b) == Dot(a, a) * Dot(b, b)
  {
    NormIsPositive(root, a);
    NormIsPositive(root, b);
    ProductOfSquares(root(Dot(a, a)), root(Dot(b, b)));
  }

  lemma ProductOfSquares(x: real, y: real)
    ensures Times(x, y) * Times(x, y) == (x * x) * (y * y)
  {
    assert (x * y) * (x * y) == (x * x) * (y * y);
  }

  // Cosine lies in [-1, 1], whatever the vectors.
  lemma SimilarityBounded(root: real -> real, a: Vector, b: Vector)
    requires IsSqrt(root)
    ensures -1.0 <= Similarity(root, a, b) <= 1.0
  {
    if Comparable(a, b) {
      CauchySchwarz(a, b);
      NormsSquare(root, a, b);
      QuotientBounds(Dot(a, b), Norms(root, a, b));
    }
  }

  // The square of the distance between two points.
  function SquaredDistance(a: Vector, b: Vector): real
    requires |a| == |b|
  {
    if a == [] then 0.0
    else SquaredDistance(a[1..], b[1..]) + Times(a[0] - b[0], a[0] - b[0])
  }

  // Some coordinate is not zero.
  predicate NonZero(a: Vector) { exists x <- a :: x != 0.0 }

  // The law of cosines: similarity is what relates the lengths of two vectors to the distance between them; it is 0
  // for vectors of different lengths, or one of which is zero.
  lemma LawOfCosines(root: real -> real, a: Vector, b: Vector)
    requires IsSqrt(root)
    ensures |a| != |b| || !NonZero(a) || !NonZero(b) ==> Similarity(root, a, b) == 0.0
    ensures |a| == |b| && NonZero(a) && NonZero(b) ==>
              SquaredDistance(a, b)
              == Dot(a, a) + Dot(b, b) - 2.0 * Times(Similarity(root, a, b), Times(root(Dot(a, a)), root(Dot(b, b))))
  {
    ZeroNormExactly(a);
    ZeroNormExactly(b);
    if Comparable(a, b) { CosinesOfComparable(root, a, b); }
  }

  lemma {:induction false} ZeroNormExactly(a: Vector)
    ensures Dot(a, a) != 0.0 <==> NonZero(a)
  {
    if a != [] {
      var n := |a| - 1;
      ZeroNormExactly(a[..n]);
      NormNonNegative(a[..n]);
      ZeroSum(Dot(a[..n], a[..n]), a[n]);
      SquareSign(a[n]);
      if x :| x in a && x != 0.0 { assert x in a[..n] || x == a[n]; }
      if x :| x in a[..n] && x != 0.0 { assert x in a; }
      assert a[n] in a;
    }
  }

  lemma CosinesOfComparable(root: real -> real, a: Vector, b: Vector)
    requires IsSqrt(root) && Comparable(a, b)
    ensures SquaredDistance(a, b)
         == Dot(a, a) + Dot(b, b) - 2.0 * Times(Similarity(root, a, b), Times(root(Dot(a, a)), root(Dot(b, b))))
  {
    DistanceIsDots(a, b);
    QuotientTimes(Dot(a, b), Norms(root, a, b));
  }

  lemma QuotientTimes(x: real, n: real)
    requires n != 0.0
    ensures Times(x / n, n) == x
  {}

  lemma {:induction false} DistanceIsDots(a: Vector, b: Vector)
    requires |a| == |b|
    ensures SquaredDistance(a, b) == Dot(a, a) - 2.0 * Dot(a, b) + Dot(b, b)
    decreases |a|
  {
    if a != [] {
      DistanceIsDots(a[1..], b[1..]);
      DotFromFront(a, a);
      DotFromFront(a, b);
      DotFromFront(b, b);
      SquareOfDifference(a[0], b[0]);
    }
  }

  lemma SquareOfDifference(x: real, y: real)
    ensures Times(x - y, x - y) == Times(x, x) - 2.0 * Times(x, y) + Times(y, y)
  {
    assert (x - y) * (x - y) == x * x - 2.0 * (x * y) + y * y;
  }

  lemma {:induction false} DotFromFront(a: Vector, b: Vector)
    requires |a| == |b| > 0
    ensures Dot(a, b) == Dot(a[1..], b[1..]) + Times(a[0], b[0])
    decreases |a|
  {
    var n := |a| - 1;
    if n > 0 {
      assert a[..n][1..] == a[1..][..n - 1] && b[..n][1..] == b[1..][..n - 1];
      DotFromFront(a[..n], b[..n]);
    }
  }

  lemma SquaresOrder(x: real, y: real)
    requires 0.0 <= x
    ensures x < y ==> x * x < y * y
  {
    assert y * y - x * x == (x + y) * (y - x);
    SignOfFactor(x + y, x - y);
  }

  lemma QuotientBounds(d: real, n: real)
    requires n > 0.0 && d * d <= n * n
    ensures -1.0 <= d / n <= 1.0
  {
    SquaresOrder(n, d);
    SquaresOrder(n, -d);
    assert (d / n) * n == d;
    SignOfFactor(n, 1.0 - d / n);
    SignOfFactor(n, 1.0 + d / n);
  }

  lemma {:induction false} DotCommutes(a: Vector, b: Vector)
    requires |a| == |b|
    ensures Dot(a, b) == Dot(b, a)
  {
    if a != [] { DotCommutes(a[..|a| - 1], b[..|a| - 1]); }
  }

  lemma SimilaritySymmetric(root: real -> real, a: Vector, b: Vector)
    requires IsSqrt(root)
    ensures Similarity(root, a, b) == Similarity(root, b, a)
  {
    if Comparable(a, b) {
      DotCommutes(a, b);
      assert Norms(root, a, b) == Norms(root, b, a);
    }
  }

  function By(k: real): real -> real { x => k * x }

  function Scaled(k: real, a: Vector): (r: Vector)
    ensures |r| == |a| && forall i :: 0 <= i < |a| ==> r[i] == By(k)(a[i])
  {
    seq(|a|, i requires 0 <= i < |a| => By(k)(a[i]))
  }

  // What scaling does to a sum and a product.
  predicate Scales(f: real -> real, x: real, y: real) {
    f(x + y) == f(x) + f(y) && f(Times(x, y)) == Times(f(x), y)
  }

  ghost predicate IsScaling(f: real -> real) { f(0.0) == 0.0 && forall x, y :: Scales(f, x, y) }

  // Scaling each coordinate of one vector scales the dot product.
  lemma {:induction false} DotIsLinear(f: real -> real, a: Vector, c: Vector, b: Vector)
    requires IsScaling(f) && |a| == |b| == |c| && forall i :: 0 <= i < |a| ==> c[i] == f(a[i])
    ensures Dot(c, b) == f(Dot(a, b))
    decreases |a|
  {
    if a != [] {
      var n := |a| - 1;
      DotIsLinear(f, a[..n], c[..n], b[..n]);
      assert Scales(f, a[n], b[n]);
      assert Scales(f, Dot(a[..n], b[..n]), Times(a[n], b[n]));
    }
  }

  lemma ByScales(k: real, x: real, y: real)
    ensures Scales(By(k), x, y)
  {
    Distributes(k, x, y);
    Regroups(k, x, y);
  }

  lemma ByIsScaling(k: real)
    ensures IsScaling(By(k))
  {
    forall x, y ensures Scales(By(k), x, y) { ByScales(k, x, y); }
  }

  lemma DotScales(k: real, a: Vector, b: Vector)
    requires |a| == |b|
    ensures Dot(Scaled(k, a), b) == By(k)(Dot(a, b))
  {
    ByIsScaling(k);
    DotIsLinear(By(k), a, Scaled(k, a), b);
  }

  lemma Regroups(k: real, x: real, y: real)
    ensures (k * x) * y == k * (x * y) == x * (k * y)
  {}

  lemma NormScales(k: real, a: Vector)
    ensures Dot(Scaled(k, a), Scaled(k, a)) == k * k * Dot(a, a)
  {
    DotScales(k, a, Scaled(k, a));
    DotCommutes(a, Scaled(k, a));
    DotScales(k, a, a);
    Regroups(k, k, Dot(a, a));
  }

  lemma ScaledIsComparable(k: real, a: Vector, b: Vector)
    requires k > 0.0
    ensures Comparable(Scaled(k, a), b) <==> Comparable(a, b)
  {
    NormScales(k, a);
    NormNonNegative(a);
    ScaledNorm(k, Dot(a, a));
  }

  // Only directions matter: scaling by a positive factor changes nothing.
  lemma SimilarityIgnoresScale(root: real -> real, k: real, a: Vector, b: Vector)
    requires IsSqrt(root) && k > 0.0
    ensures Similarity(root, Scaled(k, a), b) == Similarity(root, a, b)
  {
    ScaledIsComparable(k, a, b);
    if Comparable(a, b) {
      DotScales(k, a, b);
      NormsScale(root, k, a, b);
      CancelFactor(k, Dot(a, b), Norms(root, a, b), Dot(Scaled(k, a), b), Norms(root, Scaled(k, a), b));
    }
  }

  lemma NormsScale(root: real -> real, k: real, a: Vector, b: Vector)
    requires IsSqrt(root) && k > 0.0 && Comparable(a, b) && Comparable(Scaled(k, a), b)
    ensures Norms(root, Scaled(k, a), b) == k * Norms(root, a, b)
  {
    NormScales(k, a);
    NormNonNegative(a);
    NormNonNegative(Scaled(k, a));
    RootScales(root, k, Dot(a, a), Dot(Scaled(k, a), Scaled(k, a)));
    Regroups(k, root(Dot(a, a)), root(Dot(b, b)));
  }

  lemma ScaledNorm(k: real, p: real)
    requires k > 0.0 && p >= 0.0
    ensures k * k * p >= 0.0 && (k * k * p == 0.0 <==> p == 0.0)
  {
    SquareSign(k);
    var s := Times(k, k);
    SignOfFactor(s, -p);
    assert s * -p == -(s * p);
  }

  lemma RootScales(root: real -> real, k: real, p: real, p': real)
    requires IsSqrt(root) && k > 0.0 && p >= 0.0 && p' >= 0.0 && p' == k * k * p
    ensures root(p') == k * root(p)
  {
    var x, y := root(p'), k * root(p);
    assert y * y == k * k * (root(p) * root(p));
    SquaresOrder(x, y);
    SquaresOrder(y, x);
  }

  lemma CancelFactor(k: real, d: real, n: real, d': real, n': real)
    requires k > 0.0 && n > 0.0 && n' > 0.0 && d' == k * d && n' == k * n
    ensures d' / n' == d / n
  {
    var q := d / n;
    assert q * n == d;
    Regroups(k, q, n);
    assert q * n' == d';
  }

  lemma SimilarityToSelf(root: real -> real, a: Vector)
    requires IsSqrt(root)
    ensures Similarity(root, a, a) == if Dot(a, a) == 0.0 then 0.0 else 1.0
  {
    if Dot(a, a) != 0.0 {
      NormIsPositive(root, a);
      assert Norms(root, a, a) == Dot(a, a);
      QuotientOfEquals(Dot(a, a));
    }
  }

  lemma QuotientOfEquals(n: real)
    requires n > 0.0
    ensures n / n == 1.0
  {
    var q := n / n;
    assert q * n == n;
    SignOfFactor(n, q - 1.0);
    SignOfFactor(n, 1.0 - q);
  }
}
