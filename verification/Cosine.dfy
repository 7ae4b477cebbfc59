/** Cosine similarity over exact reals. The square root is a parameter, with IsSqrt as its hypothesis. */
module Cosine {
  import opened Events

  ghost predicate IsSqrt(sqrt: real -> real) {
    forall x: real | 0.0 <= x :: 0.0 <= sqrt(x) && sqrt(x) * sqrt(x) == x
  }

  function Dot(a: Vector, b: Vector): real
    requires |a| <= |b|
  {
    if a == [] then 0.0 else Dot(a[..|a| - 1], b) + a[|a| - 1] * b[|a| - 1]
  }

  function Norm2(a: Vector): real {
    Dot(a, a)
  }

  /** cosineSimilarity: zero when either vector is zero. */
  function Similarity(sqrt: real -> real, a: Vector, b: Vector): real
    requires |a| == |b|
  {
    var na, nb := Norm2(a), Norm2(b);
    if na == 0.0 || nb == 0.0 then 0.0
    else
      var d := sqrt(na) * sqrt(nb);
      if d == 0.0 then 0.0 else Dot(a, b) / d
  }

  lemma {:induction false} DotPrefix(a: Vector, b: Vector, c: Vector)
    requires |a| <= |b| && |a| <= |c|
    requires forall i | 0 <= i < |a| :: b[i] == c[i]
    ensures Dot(a, b) == Dot(a, c)
  {
    if a != [] { DotPrefix(a[..|a| - 1], b, c); }
  }

  lemma {:induction false} DotTake(a: Vector, b: Vector, n: nat)
    requires n <= |a| && n <= |b|
    ensures Dot(a[..n], b) == Dot(a[..n], b[..n])
  {
    DotPrefix(a[..n], b, b[..n]);
  }

  /** The three accumulations of the program's loop. */
  method CosineSimilarity(sqrt: real -> real, a: Vector, b: Vector) returns (score: real)
    requires |a| == |b| && IsSqrt(sqrt)
    ensures score == Similarity(sqrt, a, b)
  {
    var dot, na, nb := 0.0, 0.0, 0.0;
    for i := 0 to |a|
      invariant dot == Dot(a[..i], b) && na == Dot(a[..i], a) && nb == Dot(b[..i], b)
    {
      DotStep(a, b, i);
      DotStep(a, a, i);
      DotStep(b, b, i);
      dot := dot + a[i] * b[i];
      na := na + a[i] * a[i];
      nb := nb + b[i] * b[i];
    }
    assert a[..|a|] == a && b[..|b|] == b;
    if na == 0.0 || nb == 0.0 {
      return 0.0;
    }
    NormNonNegative(a);
    NormNonNegative(b);
    RootPositive(sqrt, na, nb);
    score := dot / (sqrt(na) * sqrt(nb));
  }

  lemma DotStep(a: Vector, b: Vector, i: nat)
    requires i < |a| <= |b|
    ensures Dot(a[..i + 1], b) == Dot(a[..i], b) + a[i] * b[i]
  {
    assert a[..i + 1][..i] == a[..i];
  }

  lemma {:induction false} NormNonNegative(a: Vector)
    ensures 0.0 <= Norm2(a)
  {
    if a != [] {
      var n := |a| - 1;
      DotTake(a, a, n);
      NormNonNegative(a[..n]);
      Square(a[n]);
    }
  }

  lemma Square(x: real)
    ensures 0.0 <= x * x
  {
  }

  lemma Product(a: real, b: real) returns (y: real)
    requires 0.0 < a && 0.0 < b
    ensures y == a * b && 0.0 < y
  {
    y := a * b;
  }

  lemma Negated(x: real, y: real)
    requires y == (-x) * (-x)
    ensures y == x * x
  {
  }

  lemma SquarePositive(x: real) returns (y: real)
    requires x != 0.0
    ensures y == x * x && 0.0 < y
  {
    if 0.0 < x {
      y := Product(x, x);
    } else {
      y := Product(-x, -x);
      Negated(x, y);
    }
  }

  /** Only the zero vector has norm zero. */
  lemma {:induction false} NonZeroNorm(a: Vector, i: nat)
    requires i < |a| && a[i] != 0.0
    ensures 0.0 < Norm2(a)
    decreases |a|
  {
    var n := |a| - 1;
    DotTake(a, a, n);
    NormNonNegative(a[..n]);
    if i < n {
      NonZeroNorm(a[..n], i);
      Square(a[n]);
    } else {
      var y := SquarePositive(a[n]);
    }
  }

  lemma RootPositive(sqrt: real -> real, x: real, y: real)
    requires IsSqrt(sqrt)
    ensures 0.0 < x ==> 0.0 < sqrt(x)
    ensures 0.0 < x && 0.0 < y ==> 0.0 < sqrt(x) * sqrt(y) && (sqrt(x) * sqrt(y)) * (sqrt(x) * sqrt(y)) == x * y
  {
    if 0.0 < x && 0.0 < y {
      var s, t := sqrt(x), sqrt(y);
      assert s * s == x && t * t == y;
      assert (s * t) * (s * t) == (s * s) * (t * t);
    }
  }

  lemma {:induction false} DotSymmetric(a: Vector, b: Vector)
    requires |a| == |b|
    ensures Dot(a, b) == Dot(b, a)
  {
    if a != [] {
      var n := |a| - 1;
      DotTake(a, b, n);
      DotTake(b, a, n);
      DotSymmetric(a[..n], b[..n]);
    }
  }

  lemma SquareMonotone(x: real, y: real)
    requires 0.0 <= y && x * x <= y * y
    ensures -y <= x <= y
  {
    SquareLess(y, x);
    SquareLess(y, -x);
    assert (-x) * (-x) == x * x;
  }

  lemma SquareLess(x: real, y: real)
    ensures 0.0 <= x < y ==> x * x < y * y
  {
    if 0.0 <= x < y {
      assert y * y - x * x == (y - x) * (y + x);
      Positive(y - x, y + x);
    }
  }

  lemma Positive(a: real, b: real)
    requires 0.0 < a && 0.0 < b
    ensures 0.0 < a * b
  {
  }

  /** One coordinate of Cauchy-Schwarz. */
  lemma CauchyStep(d: real, p: real, q: real, x: real, y: real)
    requires 0.0 <= p && 0.0 <= q && d * d <= p * q
    ensures (d + x * y) * (d + x * y) <= (p + x * x) * (q + y * y)
  {
    var u := p * (y * y) + q * (x * x);
    var v := 2.0 * d * (x * y);
    CrossTerm(d, p, q, x, y);
    SquareMonotone(v, u);
    assert (d + x * y) * (d + x * y) == d * d + v + (x * y) * (x * y);
    assert (p + x * x) * (q + y * y) == p * q + u + (x * x) * (y * y);
    assert (x * y) * (x * y) == (x * x) * (y * y);
  }

  lemma CrossTerm(d: real, p: real, q: real, x: real, y: real)
    requires 0.0 <= p && 0.0 <= q && d * d <= p * q
    ensures var u := p * (y * y) + q * (x * x); var v := 2.0 * d * (x * y);
            0.0 <= u && v * v <= u * u
  {
    var s, t := p * (y * y), q * (x * x);
    assert 0.0 <= y * y && 0.0 <= x * x;
    ProductNonNegative(p, y * y);
    ProductNonNegative(q, x * x);
    var w := (x * y) * (x * y);
    assert s * t == (p * q) * w by {
      assert w == (x * x) * (y * y);
      assert s * t == (p * q) * ((y * y) * (x * x));
    }
    assert (2.0 * d * (x * y)) * (2.0 * d * (x * y)) == 4.0 * ((d * d) * w);
    ProductNonNegative(p * q - d * d, w);
    assert (p * q - d * d) * w == (p * q) * w - (d * d) * w;
    assert (s + t) * (s + t) == (s - t) * (s - t) + 4.0 * (s * t);
  }

  lemma ProductNonNegative(a: real, b: real)
    requires 0.0 <= a && 0.0 <= b
    ensures 0.0 <= a * b
  {
  }

  /** Cauchy-Schwarz for vectors of any length. */
  lemma {:induction false} CauchySchwarz(a: Vector, b: Vector)
    requires |a| == |b|
    ensures Dot(a, b) * Dot(a, b) <= Norm2(a) * Norm2(b)
  {
    if a != [] {
      var n := |a| - 1;
      CauchySchwarz(a[..n], b[..n]);
      DotTake(a, b, n);
      DotTake(a, a, n);
      DotTake(b, b, n);
      NormNonNegative(a[..n]);
      NormNonNegative(b[..n]);
      CauchyStep(Dot(a[..n], b[..n]), Norm2(a[..n]), Norm2(b[..n]), a[n], b[n]);
    }
  }

  lemma QuotientBound(x: real, d: real)
    requires 0.0 < d && -d <= x <= d
    ensures -1.0 <= x / d <= 1.0
  {
  }

  /** The score is within [-1, 1]. */
  lemma SimilarityBounded(sqrt: real -> real, a: Vector, b: Vector)
    requires |a| == |b| && IsSqrt(sqrt)
    ensures -1.0 <= Similarity(sqrt, a, b) <= 1.0
  {
    var na, nb := Norm2(a), Norm2(b);
    NormNonNegative(a);
    NormNonNegative(b);
    if na != 0.0 && nb != 0.0 {
      CauchySchwarz(a, b);
      RootPositive(sqrt, na, nb);
      SquareMonotone(Dot(a, b), sqrt(na) * sqrt(nb));
      var x, d := Dot(a, b), sqrt(na) * sqrt(nb);
      assert Similarity(sqrt, a, b) == x / d;
      QuotientBound(x, d);
    }
  }

  /** The score can be negative. */
  lemma OppositeScores(sqrt: real -> real)
    requires IsSqrt(sqrt)
    ensures Similarity(sqrt, [1.0], [-1.0]) == -1.0
  {
    var a, b := [1.0], [-1.0];
    DotOne(1.0, -1.0);
    DotOne(1.0, 1.0);
    DotOne(-1.0, -1.0);
    assert sqrt(1.0) * sqrt(1.0) == 1.0;
  }

  lemma DotOne(x: real, y: real)
    ensures Dot([x], [y]) == x * y
  {
    assert [x][..0] == [];
  }

  lemma QuotientSign(x: real, d: real)
    requires 0.0 < d
    ensures 0.0 <= x / d <==> 0.0 <= x
  {
    var q := x / d;
    assert q * d == x;
    if 0.0 <= q {
      ProductNonNegative(q, d);
    } else {
      Positive(-q, d);
      assert (-q) * d == -x;
    }
  }

  lemma SquareZero(x: real)
    requires x * x <= 0.0
    ensures x == 0.0
  {
    if x != 0.0 {
      var y := SquarePositive(x);
    }
  }

  /** A score is negative exactly when the dot product is, for vectors of any length, zero vectors included. */
  lemma ScoreNonNegativeIff(sqrt: real -> real, a: Vector, b: Vector)
    requires |a| == |b| && IsSqrt(sqrt)
    ensures 0.0 <= Similarity(sqrt, a, b) <==> 0.0 <= Dot(a, b)
  {
    var na, nb := Norm2(a), Norm2(b);
    NormNonNegative(a);
    NormNonNegative(b);
    if na == 0.0 || nb == 0.0 {
      CauchySchwarz(a, b);
      SquareZero(Dot(a, b));
    } else {
      RootPositive(sqrt, na, nb);
      QuotientSign(Dot(a, b), sqrt(na) * sqrt(nb));
    }
  }

  lemma SimilaritySymmetric(sqrt: real -> real, a: Vector, b: Vector)
    requires |a| == |b|
    ensures Similarity(sqrt, a, b) == Similarity(sqrt, b, a)
  {
    DotSymmetric(a, b);
    assert sqrt(Norm2(a)) * sqrt(Norm2(b)) == sqrt(Norm2(b)) * sqrt(Norm2(a));
  }

  /** A non-zero vector scores exactly 1 against itself. */
  lemma SelfSimilarity(sqrt: real -> real, a: Vector)
    requires IsSqrt(sqrt) && Norm2(a) != 0.0
    ensures Similarity(sqrt, a, a) == 1.0
  {
    NormNonNegative(a);
    var n := Norm2(a);
    assert sqrt(n) * sqrt(n) == n;
    DivSelf(n);
  }

  lemma DivSelf(x: real)
    requires x != 0.0
    ensures x / x == 1.0
  {
  }

  function Scale(c: real, a: Vector): Vector {
    seq(|a|, i requires 0 <= i < |a| => c * a[i])
  }

  lemma ScaleTake(c: real, a: Vector, n: nat)
    requires n <= |a|
    ensures Scale(c, a)[..n] == Scale(c, a[..n])
  {
    var l, r := Scale(c, a)[..n], Scale(c, a[..n]);
    assert |l| == n && |r| == n;
    forall i | 0 <= i < n ensures l[i] == r[i] {
      assert a[..n][i] == a[i];
    }
  }

  lemma {:induction false} DotScale(c: real, a: Vector, b: Vector)
    requires |a| <= |b|
    ensures Dot(Scale(c, a), b) == c * Dot(a, b)
  {
    if a != [] {
      var n := |a| - 1;
      DotScale(c, a[..n], b);
      ScaleTake(c, a, n);
      assert (c * a[n]) * b[n] == c * (a[n] * b[n]);
      assert c * (Dot(a[..n], b) + a[n] * b[n]) == c * Dot(a[..n], b) + c * (a[n] * b[n]);
    }
  }

  lemma RootScale(sqrt: real -> real, c: real, x: real)
    requires IsSqrt(sqrt) && 0.0 < c && 0.0 <= x
    ensures 0.0 <= c * c * x && sqrt(c * c * x) == c * sqrt(x)
  {
    var s := sqrt(x);
    ProductNonNegative(c * c, x);
    ProductNonNegative(c, s);
    var t := sqrt(c * c * x);
    assert (c * s) * (c * s) == c * c * (s * s);
    SquareMonotone(t, c * s);
    SquareMonotone(c * s, t);
  }

  lemma Cancel(c: real, x: real, d: real)
    requires c != 0.0 && d != 0.0
    ensures c * d != 0.0 && (c * x) / (c * d) == x / d
  {
    var q := x / d;
    assert q * d == x;
    assert q * (c * d) == c * x;
  }

  /** Scaling a vector by a positive factor does not change its score against any other. */
  lemma SimilarityScaled(sqrt: real -> real, c: real, a: Vector, b: Vector)
    requires |a| == |b| && IsSqrt(sqrt) && 0.0 < c
    ensures Similarity(sqrt, Scale(c, a), b) == Similarity(sqrt, a, b)
  {
    var na, nb := Norm2(a), Norm2(b);
    var ca := Scale(c, a);
    NormNonNegative(a);
    NormNonNegative(b);
    DotScale(c, a, b);
    DotScale(c, a, ca);
    DotSymmetric(a, ca);
    DotScale(c, a, a);
    assert Norm2(ca) == c * (c * na) == c * c * na;
    if na != 0.0 && nb != 0.0 {
      assert 0.0 < c * c * na by { assert 0.0 < c * c; }
      RootScale(sqrt, c, na);
      RootPositive(sqrt, na, nb);
      var d := sqrt(na) * sqrt(nb);
      assert (c * sqrt(na)) * sqrt(nb) == c * d;
      Cancel(c, Dot(a, b), d);
    }
  }

  // What pins the dot product and the score.

  function Unit(n: nat, i: nat): Vector {
    seq(n, k => if k == i then 1.0 else 0.0)
  }

  function Plus(a: Vector, c: Vector): Vector
    requires |a| == |c|
  {
    seq(|a|, i requires 0 <= i < |a| => a[i] + c[i])
  }

  lemma {:induction false} DotZero(n: nat, m: nat, i: nat, b: Vector)
    requires n <= m && n <= i && n <= |b|
    ensures Dot(Unit(m, i)[..n], b) == 0.0
  {
    if n > 0 {
      assert Unit(m, i)[..n][..n - 1] == Unit(m, i)[..n - 1];
      DotZero(n - 1, m, i, b);
    }
  }

  lemma {:induction false} DotUnitUpTo(n: nat, i: nat, b: Vector)
    requires i < n <= |b|
    ensures Dot(Unit(|b|, i)[..n], b) == b[i]
    decreases n
  {
    assert Unit(|b|, i)[..n][..n - 1] == Unit(|b|, i)[..n - 1];
    if i == n - 1 {
      DotZero(i, |b|, i, b);
    } else {
      DotUnitUpTo(n - 1, i, b);
    }
  }

  /** The dot product with unit vector i picks coordinate i. */
  lemma DotUnit(i: nat, b: Vector)
    requires i < |b|
    ensures Dot(Unit(|b|, i), b) == b[i]
  {
    DotUnitUpTo(|b|, i, b);
    assert Unit(|b|, i)[..|b|] == Unit(|b|, i);
  }

  /** The dot product is additive; with DotScale and DotUnit that leaves no other. */
  lemma {:induction false} DotPlus(a: Vector, c: Vector, b: Vector)
    requires |a| == |c| <= |b|
    ensures Dot(Plus(a, c), b) == Dot(a, b) + Dot(c, b)
  {
    if a != [] {
      var n := |a| - 1;
      DotPlus(a[..n], c[..n], b);
      assert Plus(a, c)[..n] == Plus(a[..n], c[..n]);
      assert (a[n] + c[n]) * b[n] == a[n] * b[n] + c[n] * b[n];
    }
  }

  lemma SquaredQuotient(s: real, d: real, x: real, n: real)
    requires d != 0.0 && s == x / d && d * d == n
    ensures s * d == x && s * s * n == x * x
  {
    assert s * d == x;
    assert (s * d) * (s * d) == s * s * (d * d);
  }

  lemma SimilarityIsQuotient(sqrt: real -> real, a: Vector, b: Vector)
    requires |a| == |b| && IsSqrt(sqrt) && Norm2(a) != 0.0 && Norm2(b) != 0.0
    ensures 0.0 < sqrt(Norm2(a)) && 0.0 < sqrt(Norm2(b)) && 0.0 < sqrt(Norm2(a)) * sqrt(Norm2(b))
    ensures Similarity(sqrt, a, b) == Dot(a, b) / (sqrt(Norm2(a)) * sqrt(Norm2(b)))
  {
    NormNonNegative(a);
    NormNonNegative(b);
    RootPositive(sqrt, Norm2(a), Norm2(b));
    RootPositive(sqrt, Norm2(b), Norm2(a));
  }

  /** The cosine law. With the sign, it fixes the score of any two vectors that are not zero. */
  lemma ScoreSquared(sqrt: real -> real, a: Vector, b: Vector)
    requires |a| == |b| && IsSqrt(sqrt) && Norm2(a) != 0.0 && Norm2(b) != 0.0
    ensures Similarity(sqrt, a, b) * Similarity(sqrt, a, b) * (Norm2(a) * Norm2(b)) == Dot(a, b) * Dot(a, b)
    ensures Similarity(sqrt, a, b) * (sqrt(Norm2(a)) * sqrt(Norm2(b))) == Dot(a, b)
  {
    SimilarityIsQuotient(sqrt, a, b);
    NormNonNegative(a);
    NormNonNegative(b);
    RootPositive(sqrt, Norm2(a), Norm2(b));
    SquaredQuotient(Similarity(sqrt, a, b), sqrt(Norm2(a)) * sqrt(Norm2(b)), Dot(a, b), Norm2(a) * Norm2(b));
  }

  lemma ScoreTimesRoots(sqrt: real -> real, a: Vector, b: Vector)
    requires |a| == |b| && IsSqrt(sqrt) && Norm2(a) != 0.0 && Norm2(b) != 0.0
    ensures Similarity(sqrt, a, b) * (sqrt(Norm2(a)) * sqrt(Norm2(b))) == Dot(a, b)
  {
    ScoreSquared(sqrt, a, b);
  }

  /** u and v are the quotients of x by p a and of y by p b. */
  lemma QuotientOrder(u: real, v: real, x: real, y: real, p: real, a: real, b: real)
    requires 0.0 < p && 0.0 < a && 0.0 < b && u * (p * a) == x && v * (p * b) == y
    ensures u <= v <==> x * b <= y * a
  {
    Positive(a, b);
    Positive(p, a * b);
    var m := p * (a * b);
    Regroup(u, p, a, b);
    Regroup(v, p, b, a);
    assert a * b == b * a;
    TimesPositive(u, v, m);
  }

  lemma Regroup(u: real, p: real, a: real, b: real)
    ensures u * (p * a) * b == u * (p * (a * b))
  {
  }

  lemma TimesPositive(u: real, v: real, m: real)
    requires 0.0 < m
    ensures u <= v <==> u * m <= v * m
  {
    if u < v {
      Positive(v - u, m);
      assert (v - u) * m == v * m - u * m;
    } else if v < u {
      Positive(u - v, m);
      assert (u - v) * m == u * m - v * m;
    }
  }

  /** Of two vectors the one at the smaller angle to the query scores higher. */
  lemma ScoreOrder(sqrt: real -> real, q: Vector, a: Vector, b: Vector)
    requires |q| == |a| == |b| && IsSqrt(sqrt)
    requires Norm2(q) != 0.0 && Norm2(a) != 0.0 && Norm2(b) != 0.0
    ensures Similarity(sqrt, q, a) <= Similarity(sqrt, q, b) <==>
            Dot(q, a) * sqrt(Norm2(b)) <= Dot(q, b) * sqrt(Norm2(a))
  {
    RootsPositive(sqrt, q, a);
    RootsPositive(sqrt, q, b);
    ScoreTimesRoots(sqrt, q, a);
    ScoreTimesRoots(sqrt, q, b);
    QuotientOrder(Similarity(sqrt, q, a), Similarity(sqrt, q, b), Dot(q, a), Dot(q, b),
                  sqrt(Norm2(q)), sqrt(Norm2(a)), sqrt(Norm2(b)));
  }

  lemma RootsPositive(sqrt: real -> real, a: Vector, b: Vector)
    requires IsSqrt(sqrt) && Norm2(a) != 0.0 && Norm2(b) != 0.0
    ensures 0.0 < sqrt(Norm2(a)) && 0.0 < sqrt(Norm2(b))
  {
    NormNonNegative(a);
    NormNonNegative(b);
    RootPositive(sqrt, Norm2(a), Norm2(b));
    RootPositive(sqrt, Norm2(b), Norm2(a));
  }

  lemma ZeroDot(a: Vector, b: Vector)
    requires |a| == |b| && (Norm2(a) == 0.0 || Norm2(b) == 0.0)
    ensures Dot(a, b) == 0.0
  {
    CauchySchwarz(a, b);
    SquareZero(Dot(a, b));
  }

  /** Of two vectors of equal norm the one with the larger dot product scores higher, zero vectors included. */
  lemma ScoreOrderEqualNorms(sqrt: real -> real, q: Vector, a: Vector, b: Vector)
    requires |q| == |a| == |b| && IsSqrt(sqrt) && Norm2(a) == Norm2(b)
    ensures Similarity(sqrt, q, a) <= Similarity(sqrt, q, b) <==> Dot(q, a) <= Dot(q, b)
  {
    if Norm2(q) == 0.0 || Norm2(a) == 0.0 {
      ZeroDot(q, a);
      ZeroDot(q, b);
    } else {
      ScoreOrder(sqrt, q, a, b);
      RootsPositive(sqrt, q, a);
      TimesPositive(Dot(q, a), Dot(q, b), sqrt(Norm2(a)));
    }
  }

  /** Vector a is no closer to q than b: not by a smaller angle, nor, the norms being equal, by the dot product. */
  ghost predicate NoCloser(sqrt: real -> real, q: Vector, a: Vector, b: Vector) {
    && |q| == |a| == |b|
    && (Norm2(a) == Norm2(b) ==> Dot(q, a) <= Dot(q, b))
    && (Norm2(q) != 0.0 && Norm2(a) != 0.0 && Norm2(b) != 0.0 ==>
          Dot(q, a) * sqrt(Norm2(b)) <= Dot(q, b) * sqrt(Norm2(a)))
  }

  lemma ScoresNoHigher(sqrt: real -> real, q: Vector, a: Vector, b: Vector)
    requires |q| == |a| == |b| && IsSqrt(sqrt) && Similarity(sqrt, q, a) <= Similarity(sqrt, q, b)
    ensures NoCloser(sqrt, q, a, b)
  {
    if Norm2(a) == Norm2(b) {
      ScoreOrderEqualNorms(sqrt, q, a, b);
    }
    if Norm2(q) != 0.0 && Norm2(a) != 0.0 && Norm2(b) != 0.0 {
      ScoreOrder(sqrt, q, a, b);
    }
  }
}
