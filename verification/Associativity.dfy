/**
 Why the addition law is associative: both ways of adding three points have the
 same coordinates as fractions, up to multiples of the curve equation.

 Write s for x^2 and t for y^2. Each numerator is a combination of four products
 such as x1 y2 y3, and multiplying by a denominator permutes these products. So
 the cross products of the fractions can be compared coefficient by coefficient.
 All eight coefficients are one polynomial, because the curve equation
 t - s == 1 + d s t stays the same when (s, t) is replaced by (-t, -s).
 */
module Associativity {
  import opened Arith
  import opened ModP

  /** t - s == 1 + d s t: the squares of a curve point's coordinates. */
  ghost predicate Squares(d: int, s: int, t: int) {
    Cong(t - s, 1 + d * (s * t))
  }

  /** x^2 and y^2 may trade places, with their signs changed. */
  lemma Mirror(d: int, s: int, t: int)
    requires Squares(d, s, t)
    ensures Squares(d, -t, -s)
  {
    assert -t * -s == s * t;
  }

  // In the coefficients the middle point enters through a = d s2 and e = d t2.

  /** One coefficient of the first numerator times the second denominator. */
  function Alpha(a: int, e: int, s1: int, t1: int, s3: int, t3: int): int {
    (1 - a * t1) * (1 - a * (e * (s3 * t3))) + (a * t1) * ((s3 + t3) * (1 - e * s1)) + (a + e) * ((1 + a * s1) * (t1 * s3))
  }

  /** The same coefficient of the second numerator times the first denominator. */
  function Beta(a: int, e: int, s1: int, t1: int, s3: int, t3: int): int {
    (1 + a * s3) * (1 - a * (e * (s1 * t1))) + (a * s3) * ((s1 + t1) * (1 + e * t3)) + (a + e) * ((1 - a * t3) * (t1 * s3))
  }

  /** What the two coefficients differ by, divided by a. */
  function Gap6(a: int, e: int, s1: int, t1: int, s3: int, t3: int): int {
    (t1 * (t3 - 1)) * (1 - e * s1) - ((1 + s1) * s3) * (1 + e * t3) + ((a * (1 + e)) * (t1 * s3)) * (t3 + s1)
  }

  lemma OnesProduct(p: int, q: int)
    ensures (1 - p) * (1 - q) == 1 - p - q + p * q && (1 + p) * (1 - q) == 1 + p - q - p * q
  {
  }

  /** The first products of Alpha and Beta. */
  lemma FirstProducts(a: int, t: int, y: int, s: int, x: int)
    ensures (1 - a * t) * (1 - a * y) - (1 + a * s) * (1 - a * x) == a * (x - y - t - s + a * (t * y + s * x))
  {
    OnesProduct(a * t, a * y);
    OnesProduct(a * s, a * x);
    assert (a * t) * (a * y) == a * (a * (t * y)) && (a * s) * (a * x) == a * (a * (s * x));
  }

  /** The last products of Alpha and Beta. */
  lemma LastProducts(a: int, e: int, s: int, t: int, w: int)
    ensures (a + e) * ((1 + a * s) * w) - (a + e) * ((1 - a * t) * w) == a * ((a + e) * (w * (s + t)))
  {
    assert (1 + a * s) * w - (1 - a * t) * w == a * (w * (s + t));
    MulDistrib((1 + a * s) * w, (1 - a * t) * w, a + e);
  }

  /** A polynomial of degree one in e by its two coefficients. */
  lemma LinearIn(e: int, p: int, x: int, q: int, y: int)
    ensures p * (1 - e * x) - q * (1 + e * y) == (p - q) - e * (p * x + q * y)
  {
    assert p * (e * x) == e * (p * x) && q * (e * y) == e * (q * y);
  }

  /** The middle products: their coefficients without e and with e. */
  lemma MiddleProducts(s1: int, t1: int, s3: int, t3: int)
    ensures -t1 - s3 + t1 * (s3 + t3) - s3 * (s1 + t1) == t1 * (t3 - 1) - (1 + s1) * s3
    ensures s1 * t1 - s3 * t3 + (t1 * s3) * (s1 + t3) - ((t1 * (s3 + t3)) * s1 + (s3 * (s1 + t1)) * t3)
         == -((t1 * (t3 - 1)) * s1 + ((1 + s1) * s3) * t3)
  {
    var p, q, r := t1 * s3, t1 * t3, s1 * s3;
    assert t1 * (s3 + t3) == p + q && s3 * (s1 + t1) == r + p;
    assert t1 * (t3 - 1) == q - t1 && (1 + s1) * s3 == s3 + r;
    assert (p + q) * s1 == p * s1 + q * s1 && (r + p) * t3 == r * t3 + p * t3;
    assert (q - t1) * s1 == q * s1 - t1 * s1 && (s3 + r) * t3 == s3 * t3 + r * t3;
    assert p * (s1 + t3) == p * s1 + p * t3;
  }

  lemma Pull(a: int, t: int, u: int, v: int)
    ensures (a * t) * (u * v) == a * ((t * u) * v)
  {
  }

  lemma PullSum(a: int, f: int, g: int, h: int)
    ensures a * f + a * g + a * h == a * (f + g + h)
  {
  }

  /** The terms with e s1 s3 t1 or e s3 t1 t3, and those with a. */
  lemma CommonTerms(a: int, e: int, s1: int, t1: int, s3: int, t3: int)
    ensures t1 * (e * (s3 * t3)) + s3 * (e * (s1 * t1)) == e * ((t1 * s3) * (s1 + t3))
    ensures ((a * (1 + e)) * (t1 * s3)) * (t3 + s1) == a * ((t1 * s3) * (s1 + t3)) + a * (e * ((t1 * s3) * (s1 + t3)))
  {
    var w := t1 * s3;
    var v := w * (s1 + t3);
    assert t1 * (e * (s3 * t3)) == e * (w * t3) && s3 * (e * (s1 * t1)) == e * (w * s1);
    assert v == w * s1 + w * t3;
    assert ((a * (1 + e)) * w) * (t3 + s1) == (a * (1 + e)) * v;
    assert (a * (1 + e)) * v == a * v + a * (e * v);
  }

  /** The linear combination behind the gap. */
  lemma GapLinear(a: int, e: int, v: int, x: int, z: int, c: int, n: int, r: int, n': int, r': int)
    requires n - c == n' && x - z + v - r == -r'
    ensures (e * x - e * z - c + a * (e * v)) + (a + e) * v + (n - e * r) == (n' - e * r') + (a * v + a * (e * v))
  {
    assert e * (x - z + v - r) == e * x - e * z + e * v - e * r;
    assert e * -r' == -(e * r');
    MulDistrib(a, e, v);
  }

  /** The gap is the sum of what the three pairs of products differ by. */
  lemma GapSum(a: int, e: int, s1: int, t1: int, s3: int, t3: int)
    ensures Gap6(a, e, s1, t1, s3, t3)
         == (e * (s1 * t1) - e * (s3 * t3) - t1 - s3 + a * (t1 * (e * (s3 * t3)) + s3 * (e * (s1 * t1))))
            + ((t1 * (s3 + t3)) * (1 - e * s1) - (s3 * (s1 + t1)) * (1 + e * t3))
            + (a + e) * ((t1 * s3) * (s1 + t3))
  {
    var p, q, p', q' := t1 * (s3 + t3), s3 * (s1 + t1), t1 * (t3 - 1), (1 + s1) * s3;
    LinearIn(e, p, s1, q, t3);
    LinearIn(e, p', s1, q', t3);
    MiddleProducts(s1, t1, s3, t3);
    CommonTerms(a, e, s1, t1, s3, t3);
    GapLinear(a, e, (t1 * s3) * (s1 + t3), s1 * t1, s3 * t3, t1 + s3, p - q, p * s1 + q * t3, p' - q', p' * s1 + q' * t3);
  }

  /** The two coefficients differ by a multiple of the gap. */
  lemma CoefficientGap(a: int, e: int, s1: int, t1: int, s3: int, t3: int)
    ensures Alpha(a, e, s1, t1, s3, t3) - Beta(a, e, s1, t1, s3, t3) == a * Gap6(a, e, s1, t1, s3, t3)
  {
    GapSum(a, e, s1, t1, s3, t3);
    hide Gap6;
    var y, x, w := e * (s3 * t3), e * (s1 * t1), t1 * s3;
    FirstProducts(a, t1, y, s3, x);
    LastProducts(a, e, s1, t3, w);
    var u, v := 1 - e * s1, 1 + e * t3;
    Pull(a, t1, s3 + t3, u);
    Pull(a, s3, s1 + t1, v);
    var f1, f2, f3 := x - y - t1 - s3 + a * (t1 * y + s3 * x), (t1 * (s3 + t3)) * u - (s3 * (s1 + t1)) * v,
                      (a + e) * (w * (s1 + t3));
    assert a * ((t1 * (s3 + t3)) * u) - a * ((s3 * (s1 + t1)) * v) == a * f2;
    PullSum(a, f1, f2, f3);
  }

  /** What the curve equation says of each factor. */
  lemma Factors(d: int, s: int, t: int)
    requires Squares(d, s, t)
    ensures Cong(1 + s, t * (1 - d * s)) && Cong(t - 1, s * (1 + d * t)) && Cong(s * (1 + d * t), t - 1)
  {
    var w := d * (s * t);
    assert t * (1 - d * s) == t - w && s * (1 + d * t) == s + w;
    CongRefl(s);
    CongRefl(w);
    CongAdd(t - s, 1 + w, s, s);
    CongAdd(t, 1 + w + s, w, w);
    CongSym(t - w, 1 + s);
    CongRefl(1);
    CongAdd(t, 1 + w + s, 1, 1);
    CongSym(t - 1, s + w);
  }

  lemma ReplaceFactor(a: int, b: int, x: int, y: int)
    requires Cong(x, y)
    ensures Cong((x * a) * b, (y * a) * b)
  {
    CongRefl(a);
    CongRefl(b);
    CongMul(x, y, a, a);
    CongMul(x * a, y * a, b, b);
  }

  lemma GapFirst(d: int, s3: int, t3: int, t1: int, c: int)
    requires Squares(d, s3, t3)
    ensures Cong((t1 * (t3 - 1)) * c, ((t1 * s3) * (1 + d * t3)) * c)
  {
    Factors(d, s3, t3);
    ReplaceFactor(t1, c, t3 - 1, s3 * (1 + d * t3));
    assert (t3 - 1) * t1 == t1 * (t3 - 1) && (s3 * (1 + d * t3)) * t1 == (t1 * s3) * (1 + d * t3);
  }

  lemma GapSecond(d: int, s1: int, t1: int, s3: int, b: int)
    requires Squares(d, s1, t1)
    ensures Cong(((1 + s1) * s3) * b, ((t1 * s3) * (1 - d * s1)) * b)
  {
    Factors(d, s1, t1);
    ReplaceFactor(s3, b, 1 + s1, t1 * (1 - d * s1));
    assert (t1 * (1 - d * s1)) * s3 == (t1 * s3) * (1 - d * s1);
  }

  lemma GapThird(d: int, s2: int, t2: int, w: int, v: int)
    requires Squares(d, s2, t2)
    ensures Cong((((d * s2) * (1 + d * t2)) * w) * v, ((d * t2 - d) * w) * v)
  {
    Factors(d, s2, t2);
    CongScale(d, s2 * (1 + d * t2), t2 - 1);
    assert d * (s2 * (1 + d * t2)) == (d * s2) * (1 + d * t2) && d * (t2 - 1) == d * t2 - d;
    ReplaceFactor(w, v, (d * s2) * (1 + d * t2), d * t2 - d);
  }

  /** What is left of the gap once the curve equations are used is zero. */
  lemma Bracket(d: int, e: int, s: int, t: int, w: int)
    ensures (w * (1 + d * t)) * (1 - e * s) - (w * (1 - d * s)) * (1 + e * t) + ((e - d) * w) * (t + s) == 0
  {
    var p, q, r := (1 + d * t) * (1 - e * s), (1 - d * s) * (1 + e * t), (e - d) * (t + s);
    OnesProduct(-(d * t), e * s);
    OnesProduct(d * s, -(e * t));
    assert (d * t) * (e * s) == (d * s) * (e * t);
    assert r == e * t + e * s - d * t - d * s;
    Scaled3(w, 1 + d * t, 1 - e * s, 1 - d * s, 1 + e * t, e - d, t + s);
  }

  lemma Scaled3(w: int, p: int, q: int, r: int, s: int, u: int, v: int)
    ensures (w * p) * q - (w * r) * s + (u * w) * v == w * (p * q - r * s + u * v)
  {
    assert (w * p) * q == w * (p * q) && (w * r) * s == w * (r * s) && (u * w) * v == w * (u * v);
  }

  lemma ThreeTerms(f1: int, g1: int, f2: int, g2: int, f3: int, g3: int)
    requires Cong(f1, g1) && Cong(f2, g2) && Cong(f3, g3) && g1 - g2 + g3 == 0
    ensures Cong(f1 - f2 + f3, 0)
  {
    CongAdd(f1, g1, f2, g2);
    CongAdd(f1 - f2, g1 - g2, f3, g3);
  }

  lemma GapVanishes(d: int, s1: int, t1: int, s2: int, t2: int, s3: int, t3: int)
    requires Squares(d, s1, t1) && Squares(d, s2, t2) && Squares(d, s3, t3)
    ensures Cong(Gap6(d * s2, d * t2, s1, t1, s3, t3), 0)
  {
    hide Squares;
    var a, e, w := d * s2, d * t2, t1 * s3;
    GapFirst(d, s3, t3, t1, 1 - e * s1);
    GapSecond(d, s1, t1, s3, 1 + e * t3);
    GapThird(d, s2, t2, w, t3 + s1);
    Bracket(d, e, s1, t3, w);
    ThreeTerms((t1 * (t3 - 1)) * (1 - e * s1), (w * (1 + d * t3)) * (1 - e * s1),
               ((1 + s1) * s3) * (1 + e * t3), (w * (1 - d * s1)) * (1 + e * t3),
               ((a * (1 + e)) * w) * (t3 + s1), ((e - d) * w) * (t3 + s1));
  }

  /** A coefficient as it arises from multiplying out. */
  function Comb(n: int, q: int, u: int, n': int, c: int, v: int, n'': int, g: int): int {
    n * q + u * (n' * c) + v * (n'' * g)
  }

  lemma CombSigns(n: int, q: int, u: int, n': int, c: int, v: int, n'': int, g: int)
    ensures Comb(n, q, -u, n', -c, v, n'', g) == Comb(n, q, u, n', c, v, n'', g)
    ensures Comb(n, q, u, n', c, -v, n'', -g) == Comb(n, q, u, n', c, v, n'', g)
    ensures Comb(n, q, -u, n', -c, -v, n'', -g) == Comb(n, q, u, n', c, v, n'', g)
  {
    assert -u * (n' * -c) == u * (n' * c) && -v * (n'' * -g) == v * (n'' * g);
  }

  /** A coefficient of the first cross product. */
  function First(d: int, s1: int, t1: int, s2: int, t2: int, s3: int, t3: int): int {
    Comb(1 - d * (s2 * t1), 1 - (d * d) * ((s2 * t2) * (s3 * t3)), d * (s3 + t3), 1 - d * (s1 * t2), t1 * s2,
         d * (s2 + t2), 1 + d * (s1 * s2), t1 * s3)
  }

  /** The same coefficient of the second. */
  function Second(d: int, s1: int, t1: int, s2: int, t2: int, s3: int, t3: int): int {
    Comb(1 + d * (s2 * s3), 1 - (d * d) * ((s1 * t1) * (s2 * t2)), d * (s1 + t1), 1 + d * (t2 * t3), s2 * s3,
         d * (s2 + t2), 1 - d * (s2 * t3), t1 * s3)
  }

  lemma SquareOut(d: int, y: int, n: int, t: int, s: int)
    ensures (d * y) * (n * (t * s)) == ((d * s) * t) * (y * n)
  {
  }

  lemma FirstIsAlpha(d: int, s1: int, t1: int, s2: int, t2: int, s3: int, t3: int)
    ensures First(d, s1, t1, s2, t2, s3, t3) == Alpha(d * s2, d * t2, s1, t1, s3, t3)
  {
    var a, e := d * s2, d * t2;
    assert d * (s2 * t1) == a * t1 && d * (s1 * t2) == e * s1 && d * (s1 * s2) == a * s1;
    assert (d * d) * ((s2 * t2) * (s3 * t3)) == a * (e * (s3 * t3));
    SquareOut(d, s3 + t3, 1 - e * s1, t1, s2);
    assert d * (s2 + t2) == a + e;
  }

  lemma SecondIsBeta(d: int, s1: int, t1: int, s2: int, t2: int, s3: int, t3: int)
    ensures Second(d, s1, t1, s2, t2, s3, t3) == Beta(d * s2, d * t2, s1, t1, s3, t3)
  {
    var a, e := d * s2, d * t2;
    assert d * (s2 * s3) == a * s3 && d * (t2 * t3) == e * t3 && d * (s2 * t3) == a * t3;
    assert (d * d) * ((s1 * t1) * (s2 * t2)) == a * (e * (s1 * t1));
    SquareOut(d, s1 + t1, 1 + e * t3, s3, s2);
    assert s3 * s2 == s2 * s3;
    assert d * (s2 + t2) == a + e;
  }

  /** On the curve the coefficients agree. */
  lemma CoefficientsAgree(d: int, s1: int, t1: int, s2: int, t2: int, s3: int, t3: int)
    requires Squares(d, s1, t1) && Squares(d, s2, t2) && Squares(d, s3, t3)
    ensures Cong(First(d, s1, t1, s2, t2, s3, t3), Second(d, s1, t1, s2, t2, s3, t3))
  {
    var a, e := d * s2, d * t2;
    GapVanishes(d, s1, t1, s2, t2, s3, t3);
    CoefficientGap(a, e, s1, t1, s3, t3);
    FirstIsAlpha(d, s1, t1, s2, t2, s3, t3);
    SecondIsBeta(d, s1, t1, s2, t2, s3, t3);
    hide Squares, First, Second, Alpha, Beta, Gap6;
    CongScale(a, Gap6(a, e, s1, t1, s3, t3), 0);
    var f, g := First(d, s1, t1, s2, t2, s3, t3), Second(d, s1, t1, s2, t2, s3, t3);
    CongRefl(g);
    CongAdd(f - g, 0, g, g);
  }

  /** Multiplying by a denominator permutes the four products. */
  ghost predicate Permutes(p: int, r: int, m1: int, m2: int, m3: int, m4: int,
                           c1: int, c2: int, c3: int, c4: int, g1: int, g2: int, g3: int, g4: int) {
    && m1 * p == c1 * m2 && m2 * p == c2 * m1 && m3 * p == c3 * m4 && m4 * p == c4 * m3
    && m1 * r == g1 * m3 && m2 * r == g2 * m4 && m3 * r == g3 * m1 && m4 * r == g4 * m2
  }

  lemma Shift(n: int, m: int, u: int, p: int, c: int, m': int)
    requires m * p == c * m'
    ensures (n * m) * (u * p) == m' * (u * (n * c))
  {
    assert (n * m) * (u * p) == (u * n) * (m * p);
    assert (u * n) * (c * m') == m' * (u * (n * c));
  }

  lemma Distribute4(a: int, b: int, c: int, d: int, x: int)
    ensures (a + b + c + d) * x == a * x + b * x + c * x + d * x
  {
  }

  lemma CollectOne(m: int, a: int, b: int, c: int)
    ensures m * a + m * b + m * c == m * (a + b + c)
  {
  }

  /** The part of the product with q. */
  lemma PlainPart(n1: int, n2: int, n3: int, n4: int, m1: int, m2: int, m3: int, m4: int, q: int)
    ensures (n1 * m1 + n2 * m2 + n3 * m3 + n4 * m4) * q
         == m1 * (n1 * q) + m2 * (n2 * q) + m3 * (n3 * q) + m4 * (n4 * q)
  {
    Distribute4(n1 * m1, n2 * m2, n3 * m3, n4 * m4, q);
    assert (n1 * m1) * q == m1 * (n1 * q) && (n2 * m2) * q == m2 * (n2 * q);
    assert (n3 * m3) * q == m3 * (n3 * q) && (n4 * m4) * q == m4 * (n4 * q);
  }

  /** A part that exchanges the products in pairs. */
  lemma PairedPart(n1: int, n2: int, n3: int, n4: int, m1: int, m2: int, m3: int, m4: int, u: int, p: int,
                   c1: int, c2: int, c3: int, c4: int)
    requires m1 * p == c1 * m2 && m2 * p == c2 * m1 && m3 * p == c3 * m4 && m4 * p == c4 * m3
    ensures (n1 * m1 + n2 * m2 + n3 * m3 + n4 * m4) * (u * p)
         == m1 * (u * (n2 * c2)) + m2 * (u * (n1 * c1)) + m3 * (u * (n4 * c4)) + m4 * (u * (n3 * c3))
  {
    Shift(n1, m1, u, p, c1, m2);
    Shift(n2, m2, u, p, c2, m1);
    Shift(n3, m3, u, p, c3, m4);
    Shift(n4, m4, u, p, c4, m3);
    Distribute4(n1 * m1, n2 * m2, n3 * m3, n4 * m4, u * p);
  }

  lemma CollectAll(m1: int, m2: int, m3: int, m4: int, a1: int, a2: int, a3: int, a4: int,
                   b1: int, b2: int, b3: int, b4: int, c1: int, c2: int, c3: int, c4: int)
    ensures (m1 * a1 + m2 * a2 + m3 * a3 + m4 * a4) + (m1 * b1 + m2 * b2 + m3 * b3 + m4 * b4)
            + (m1 * c1 + m2 * c2 + m3 * c3 + m4 * c4)
         == m1 * (a1 + b1 + c1) + m2 * (a2 + b2 + c2) + m3 * (a3 + b3 + c3) + m4 * (a4 + b4 + c4)
  {
    CollectOne(m1, a1, b1, c1);
    CollectOne(m2, a2, b2, c2);
    CollectOne(m3, a3, b3, c3);
    CollectOne(m4, a4, b4, c4);
  }

  lemma Split(s: int, q: int, x: int, y: int)
    ensures s * (q + x + y) == s * q + s * x + s * y
  {
  }

  /** A numerator times a denominator, by the four products. */
  lemma Decompose(n1: int, n2: int, n3: int, n4: int, m1: int, m2: int, m3: int, m4: int,
                  q: int, u: int, p: int, v: int, r: int,
                  c1: int, c2: int, c3: int, c4: int, g1: int, g2: int, g3: int, g4: int)
    requires Permutes(p, r, m1, m2, m3, m4, c1, c2, c3, c4, g1, g2, g3, g4)
    ensures (n1 * m1 + n2 * m2 + n3 * m3 + n4 * m4) * (q + u * p + v * r)
         == m1 * (n1 * q + u * (n2 * c2) + v * (n3 * g3)) + m2 * (n2 * q + u * (n1 * c1) + v * (n4 * g4))
            + m3 * (n3 * q + u * (n4 * c4) + v * (n1 * g1)) + m4 * (n4 * q + u * (n3 * c3) + v * (n2 * g2))
  {
    PlainPart(n1, n2, n3, n4, m1, m2, m3, m4, q);
    PairedPart(n1, n2, n3, n4, m1, m2, m3, m4, u, p, c1, c2, c3, c4);
    PairedPart(n1, n3, n2, n4, m1, m3, m2, m4, v, r, g1, g3, g2, g4);
    Split(n1 * m1 + n2 * m2 + n3 * m3 + n4 * m4, q, u * p, v * r);
    CollectAll(m1, m2, m3, m4, n1 * q, n2 * q, n3 * q, n4 * q, u * (n2 * c2), u * (n1 * c1), u * (n4 * c4), u * (n3 * c3),
               v * (n3 * g3), v * (n4 * g4), v * (n1 * g1), v * (n2 * g2));
  }

  // The coefficients of the other three products: two points are mirrored at a time.

  lemma NegBoth(d: int, x: int, y: int)
    ensures -x * -y == y * x && d * (-x * -y) == d * (y * x) && d * (-x + -y) == -(d * (y + x))
  {
  }

  lemma NegOne(d: int, x: int, y: int)
    ensures -x * y == -(x * y) && y * -x == -(x * y) && d * (-x * y) == -(d * (x * y)) && d * (y * -x) == -(d * (x * y))
  {
  }

  lemma First12(d: int, s1: int, t1: int, s2: int, t2: int, s3: int, t3: int)
    ensures First(d, -t1, -s1, -t2, -s2, s3, t3)
         == Comb(1 - d * (s1 * t2), 1 - (d * d) * ((s2 * t2) * (s3 * t3)), d * (s3 + t3), 1 - d * (s2 * t1), s1 * t2,
                 d * (s2 + t2), 1 + d * (t1 * t2), s1 * s3)
  {
    hide Comb;
    NegBoth(d, t1, s1);
    NegBoth(d, t2, s2);
    NegBoth(d, t2, s1);
    NegBoth(d, t1, s2);
    NegBoth(d, s1, t2);
    NegBoth(d, t1, t2);
    NegOne(d, s1, s3);
    CombSigns(1 - d * (s1 * t2), 1 - (d * d) * ((s2 * t2) * (s3 * t3)), d * (s3 + t3), 1 - d * (s2 * t1), s1 * t2,
              d * (s2 + t2), 1 + d * (t1 * t2), s1 * s3);
  }

  lemma First13(d: int, s1: int, t1: int, s2: int, t2: int, s3: int, t3: int)
    ensures First(d, -t1, -s1, s2, t2, -t3, -s3)
         == Comb(1 + d * (s1 * s2), 1 - (d * d) * ((s2 * t2) * (s3 * t3)), d * (s3 + t3), 1 + d * (t1 * t2), s1 * s2,
                 d * (s2 + t2), 1 - d * (s2 * t1), s1 * t3)
  {
    hide Comb;
    NegBoth(d, t1, s1);
    NegBoth(d, t3, s3);
    NegOne(d, s1, s2);
    NegOne(d, t1, t2);
    NegOne(d, t1, s2);
    NegBoth(d, s1, t3);
    CombSigns(1 + d * (s1 * s2), 1 - (d * d) * ((s2 * t2) * (s3 * t3)), d * (s3 + t3), 1 + d * (t1 * t2), s1 * s2,
              d * (s2 + t2), 1 - d * (s2 * t1), s1 * t3);
  }

  lemma First23(d: int, s1: int, t1: int, s2: int, t2: int, s3: int, t3: int)
    ensures First(d, s1, t1, -t2, -s2, -t3, -s3)
         == Comb(1 + d * (t1 * t2), 1 - (d * d) * ((s2 * t2) * (s3 * t3)), d * (s3 + t3), 1 + d * (s1 * s2), t1 * t2,
                 d * (s2 + t2), 1 - d * (s1 * t2), t1 * t3)
  {
    hide Comb;
    NegBoth(d, t2, s2);
    NegBoth(d, t3, s3);
    NegOne(d, t2, t1);
    NegOne(d, s2, s1);
    NegOne(d, t2, s1);
    NegOne(d, t3, t1);
    CombSigns(1 + d * (t1 * t2), 1 - (d * d) * ((s2 * t2) * (s3 * t3)), d * (s3 + t3), 1 + d * (s1 * s2), t1 * t2,
              d * (s2 + t2), 1 - d * (s1 * t2), t1 * t3);
  }

  lemma Second12(d: int, s1: int, t1: int, s2: int, t2: int, s3: int, t3: int)
    ensures Second(d, -t1, -s1, -t2, -s2, s3, t3)
         == Comb(1 - d * (s3 * t2), 1 - (d * d) * ((s1 * t1) * (s2 * t2)), d * (s1 + t1), 1 - d * (s2 * t3), t2 * s3,
                 d * (s2 + t2), 1 + d * (t2 * t3), s1 * s3)
  {
    hide Comb;
    NegBoth(d, t1, s1);
    NegBoth(d, t2, s2);
    NegOne(d, t2, s3);
    NegOne(d, s2, t3);
    NegOne(d, t2, t3);
    NegOne(d, s1, s3);
    CombSigns(1 - d * (s3 * t2), 1 - (d * d) * ((s1 * t1) * (s2 * t2)), d * (s1 + t1), 1 - d * (s2 * t3), t2 * s3,
              d * (s2 + t2), 1 + d * (t2 * t3), s1 * s3);
  }

  lemma Second13(d: int, s1: int, t1: int, s2: int, t2: int, s3: int, t3: int)
    ensures Second(d, -t1, -s1, s2, t2, -t3, -s3)
         == Comb(1 - d * (s2 * t3), 1 - (d * d) * ((s1 * t1) * (s2 * t2)), d * (s1 + t1), 1 - d * (s3 * t2), s2 * t3,
                 d * (s2 + t2), 1 + d * (s2 * s3), s1 * t3)
  {
    hide Comb;
    NegBoth(d, t1, s1);
    NegBoth(d, t3, s3);
    NegOne(d, t3, s2);
    NegOne(d, s3, t2);
    NegOne(d, s3, s2);
    NegBoth(d, s1, t3);
    CombSigns(1 - d * (s2 * t3), 1 - (d * d) * ((s1 * t1) * (s2 * t2)), d * (s1 + t1), 1 - d * (s3 * t2), s2 * t3,
              d * (s2 + t2), 1 + d * (s2 * s3), s1 * t3);
  }

  lemma Second23(d: int, s1: int, t1: int, s2: int, t2: int, s3: int, t3: int)
    ensures Second(d, s1, t1, -t2, -s2, -t3, -s3)
         == Comb(1 + d * (t2 * t3), 1 - (d * d) * ((s1 * t1) * (s2 * t2)), d * (s1 + t1), 1 + d * (s2 * s3), t2 * t3,
                 d * (s2 + t2), 1 - d * (s3 * t2), t1 * t3)
  {
    hide Comb;
    NegBoth(d, t2, s2);
    NegBoth(d, t3, s3);
    NegBoth(d, t2, t3);
    NegBoth(d, s2, s3);
    NegBoth(d, t2, s3);
    NegOne(d, t3, t1);
    CombSigns(1 + d * (t2 * t3), 1 - (d * d) * ((s1 * t1) * (s2 * t2)), d * (s1 + t1), 1 + d * (s2 * s3), t2 * t3,
              d * (s2 + t2), 1 - d * (s3 * t2), t1 * t3);
  }

  /** A numerator by its four products. */
  function Top(d: int, s1: int, t1: int, s2: int, t2: int, m1: int, m2: int, m3: int, m4: int): int {
    Sum4(1 - d * (s2 * t1), 1 - d * (s1 * t2), 1 + d * (s1 * s2), 1 + d * (t1 * t2), m1, m2, m3, m4)
  }

  function Sum4(n1: int, n2: int, n3: int, n4: int, m1: int, m2: int, m3: int, m4: int): int {
    n1 * m1 + n2 * m2 + n3 * m3 + n4 * m4
  }

  /** A denominator by its three terms. */
  function Bottom(d: int, s1: int, t1: int, s2: int, t2: int, p: int, r: int): int {
    Sum3(1 - (d * d) * ((s1 * t1) * (s2 * t2)), d * (s2 + t2), p, d * (s1 + t1), r)
  }

  function Sum3(q: int, u: int, p: int, v: int, r: int): int {
    q + u * p + v * r
  }

  /** Four congruent coefficients make congruent sums. */
  lemma FourTerms(m1: int, m2: int, m3: int, m4: int, a1: int, b1: int, a2: int, b2: int, a3: int, b3: int, a4: int, b4: int)
    requires Cong(a1, b1) && Cong(a2, b2) && Cong(a3, b3) && Cong(a4, b4)
    ensures Cong(m1 * a1 + m2 * a2 + m3 * a3 + m4 * a4, m1 * b1 + m2 * b2 + m3 * b3 + m4 * b4)
  {
    CongScale(m1, a1, b1);
    CongScale(m2, a2, b2);
    CongScale(m3, a3, b3);
    CongScale(m4, a4, b4);
    CongAdd(m1 * a1, m1 * b1, m2 * a2, m2 * b2);
    CongAdd(m1 * a1 + m2 * a2, m1 * b1 + m2 * b2, m3 * a3, m3 * b3);
    CongAdd(m1 * a1 + m2 * a2 + m3 * a3, m1 * b1 + m2 * b2 + m3 * b3, m4 * a4, m4 * b4);
  }

  /** The first numerator times the second denominator. */
  lemma FirstCross(d: int, s1: int, t1: int, s2: int, t2: int, s3: int, t3: int,
                   m1: int, m2: int, m3: int, m4: int, p: int, r: int)
    requires Permutes(p, r, m1, m2, m3, m4, s1 * t2, t1 * s2, t1 * t2, s1 * s2, s1 * t3, t1 * t3, t1 * s3, s1 * s3)
    ensures Top(d, s1, t1, s2, t2, m1, m2, m3, m4) * Bottom(d, s2, t2, s3, t3, p, r)
         == m1 * First(d, s1, t1, s2, t2, s3, t3) + m2 * First(d, -t1, -s1, -t2, -s2, s3, t3)
            + m3 * First(d, -t1, -s1, s2, t2, -t3, -s3) + m4 * First(d, s1, t1, -t2, -s2, -t3, -s3)
  {
    First12(d, s1, t1, s2, t2, s3, t3);
    First13(d, s1, t1, s2, t2, s3, t3);
    First23(d, s1, t1, s2, t2, s3, t3);
    hide Permutes;
    Decompose(1 - d * (s2 * t1), 1 - d * (s1 * t2), 1 + d * (s1 * s2), 1 + d * (t1 * t2), m1, m2, m3, m4,
              1 - (d * d) * ((s2 * t2) * (s3 * t3)), d * (s3 + t3), p, d * (s2 + t2), r,
              s1 * t2, t1 * s2, t1 * t2, s1 * s2, s1 * t3, t1 * t3, t1 * s3, s1 * s3);
  }

  /** The second numerator times the first denominator. */
  lemma SecondCross(d: int, s1: int, t1: int, s2: int, t2: int, s3: int, t3: int,
                    m1: int, m2: int, m3: int, m4: int, p: int, r: int)
    requires Permutes(p, r, m1, m4, m3, m2, t2 * t3, s2 * s3, t2 * s3, s2 * t3, s1 * t3, s1 * s3, t1 * s3, t1 * t3)
    ensures Top(d, s2, t2, s3, t3, m2, m3, m1, m4) * Bottom(d, s1, t1, s2, t2, r, p)
         == m1 * Second(d, s1, t1, s2, t2, s3, t3) + m2 * Second(d, -t1, -s1, -t2, -s2, s3, t3)
            + m3 * Second(d, -t1, -s1, s2, t2, -t3, -s3) + m4 * Second(d, s1, t1, -t2, -s2, -t3, -s3)
  {
    Second12(d, s1, t1, s2, t2, s3, t3);
    Second13(d, s1, t1, s2, t2, s3, t3);
    Second23(d, s1, t1, s2, t2, s3, t3);
    hide Permutes;
    Decompose(1 + d * (s2 * s3), 1 + d * (t2 * t3), 1 - d * (s2 * t3), 1 - d * (s3 * t2), m1, m4, m3, m2,
              1 - (d * d) * ((s1 * t1) * (s2 * t2)), d * (s1 + t1), p, d * (s2 + t2), r,
              t2 * t3, s2 * s3, t2 * s3, s2 * t3, s1 * t3, s1 * s3, t1 * s3, t1 * t3);
  }

  /** The cross products agree. */
  lemma CrossProducts(d: int, s1: int, t1: int, s2: int, t2: int, s3: int, t3: int,
                      m1: int, m2: int, m3: int, m4: int, p: int, r: int, p': int)
    requires Squares(d, s1, t1) && Squares(d, s2, t2) && Squares(d, s3, t3)
    requires Permutes(p, r, m1, m2, m3, m4, s1 * t2, t1 * s2, t1 * t2, s1 * s2, s1 * t3, t1 * t3, t1 * s3, s1 * s3)
    requires Permutes(p', r, m1, m4, m3, m2, t2 * t3, s2 * s3, t2 * s3, s2 * t3, s1 * t3, s1 * s3, t1 * s3, t1 * t3)
    ensures Cong(Top(d, s1, t1, s2, t2, m1, m2, m3, m4) * Bottom(d, s2, t2, s3, t3, p, r),
                 Top(d, s2, t2, s3, t3, m2, m3, m1, m4) * Bottom(d, s1, t1, s2, t2, r, p'))
  {
    hide Permutes, Squares, First, Second, Top, Bottom;
    Mirror(d, s1, t1);
    Mirror(d, s2, t2);
    Mirror(d, s3, t3);
    CoefficientsAgree(d, s1, t1, s2, t2, s3, t3);
    CoefficientsAgree(d, -t1, -s1, -t2, -s2, s3, t3);
    CoefficientsAgree(d, -t1, -s1, s2, t2, -t3, -s3);
    CoefficientsAgree(d, s1, t1, -t2, -s2, -t3, -s3);
    FirstCross(d, s1, t1, s2, t2, s3, t3, m1, m2, m3, m4, p, r);
    SecondCross(d, s1, t1, s2, t2, s3, t3, m1, m2, m3, m4, p', r);
    FourTerms(m1, m2, m3, m4, First(d, s1, t1, s2, t2, s3, t3), Second(d, s1, t1, s2, t2, s3, t3),
              First(d, -t1, -s1, -t2, -s2, s3, t3), Second(d, -t1, -s1, -t2, -s2, s3, t3),
              First(d, -t1, -s1, s2, t2, -t3, -s3), Second(d, -t1, -s1, s2, t2, -t3, -s3),
              First(d, s1, t1, -t2, -s2, -t3, -s3), Second(d, s1, t1, -t2, -s2, -t3, -s3));
  }

  // The coordinates of (P1 + P2) + P3 as fractions, the denominators of P1 + P2 cleared.

  function NumX(d: int, x1: int, y1: int, x2: int, y2: int, x3: int, y3: int): int {
    var k := d * ((x1 * y1) * (x2 * y2));
    Blend((x1 * y2 + x2 * y1) * (1 - k), (y1 * y2 + x1 * x2) * (1 + k), x3, y3)
  }

  function Blend(a: int, b: int, x: int, y: int): int {
    a * y + b * x
  }

  function NumY(d: int, x1: int, y1: int, x2: int, y2: int, x3: int, y3: int): int {
    var k := d * ((x1 * y1) * (x2 * y2));
    Blend((y1 * y2 + x1 * x2) * (1 + k), (x1 * y2 + x2 * y1) * (1 - k), x3, y3)
  }

  function DenX(d: int, x1: int, y1: int, x2: int, y2: int, x3: int, y3: int): int {
    var k := d * ((x1 * y1) * (x2 * y2));
    1 - k * k + d * (((x1 * y2 + x2 * y1) * (y1 * y2 + x1 * x2)) * (x3 * y3))
  }

  function DenY(d: int, x1: int, y1: int, x2: int, y2: int, x3: int, y3: int): int {
    var k := d * ((x1 * y1) * (x2 * y2));
    1 - k * k - d * (((x1 * y2 + x2 * y1) * (y1 * y2 + x1 * x2)) * (x3 * y3))
  }

  lemma PairTimes(d: int, x1: int, y1: int, x2: int, y2: int)
    ensures (d * ((x1 * y1) * (x2 * y2))) * (x1 * y2) == (d * ((x1 * x1) * (y2 * y2))) * (y1 * x2)
  {
  }

  /** Multiplying by 1 - k or 1 + k, where k exchanges u and v. */
  lemma InnerPair(u: int, v: int, k: int, f: int, g: int)
    requires k * u == f * v && k * v == g * u
    ensures (u + v) * (1 - k) == (1 - g) * u + (1 - f) * v && (u + v) * (1 + k) == (1 + g) * u + (1 + f) * v
  {
    assert (u + v) * (1 - k) == u + v - k * u - k * v && (u + v) * (1 + k) == u + v + k * u + k * v;
  }

  /** The two numerators of P1 + P2, with the denominator of the other multiplied in. */
  lemma Inner(d: int, x1: int, y1: int, x2: int, y2: int)
    ensures var k := d * ((x1 * y1) * (x2 * y2));
      && (x1 * y2 + x2 * y1) * (1 - k)
         == (1 - d * ((x2 * x2) * (y1 * y1))) * (x1 * y2) + (1 - d * ((x1 * x1) * (y2 * y2))) * (y1 * x2)
      && (y1 * y2 + x1 * x2) * (1 + k)
         == (1 + d * ((x1 * x1) * (x2 * x2))) * (y1 * y2) + (1 + d * ((y1 * y1) * (y2 * y2))) * (x1 * x2)
  {
    PairTimes(d, x1, y1, x2, y2);
    PairTimes(d, y1, x1, y2, x2);
    PairTimes(d, y1, x1, x2, y2);
    PairTimes(d, x1, y1, y2, x2);
    InnerPair(x1 * y2, y1 * x2, d * ((x1 * y1) * (x2 * y2)), d * ((x1 * x1) * (y2 * y2)), d * ((x2 * x2) * (y1 * y1)));
    InnerPair(y1 * y2, x1 * x2, d * ((x1 * y1) * (x2 * y2)), d * ((y1 * y1) * (y2 * y2)), d * ((x1 * x1) * (x2 * x2)));
  }

  lemma NumParts(a: int, b: int, n1: int, u1: int, n2: int, u2: int, n3: int, u3: int, n4: int, u4: int, x: int, y: int)
    requires a == n1 * u1 + n2 * u2 && b == n3 * u3 + n4 * u4
    ensures Blend(a, b, x, y) == Sum4(n1, n2, n3, n4, u1 * y, u2 * y, u3 * x, u4 * x)
    ensures Blend(b, a, x, y) == Sum4(n1, n2, n3, n4, u1 * x, u2 * x, u3 * y, u4 * y)
  {
    TwoTerms(n1, u1, n2, u2, y);
    TwoTerms(n3, u3, n4, u4, x);
    TwoTerms(n1, u1, n2, u2, x);
    TwoTerms(n3, u3, n4, u4, y);
  }

  lemma TwoTerms(n: int, u: int, n': int, v: int, z: int)
    ensures (n * u + n' * v) * z == n * (u * z) + n' * (v * z)
  {
  }

  lemma NumXIs(d: int, x1: int, y1: int, x2: int, y2: int, x3: int, y3: int)
    ensures NumX(d, x1, y1, x2, y2, x3, y3)
         == Top(d, x1 * x1, y1 * y1, x2 * x2, y2 * y2, x1 * (y2 * y3), y1 * (x2 * y3), y1 * (y2 * x3), x1 * (x2 * x3))
  {
    hide Sum4, Blend;
    Inner(d, x1, y1, x2, y2);
    var k := d * ((x1 * y1) * (x2 * y2));
    NumParts((x1 * y2 + x2 * y1) * (1 - k), (y1 * y2 + x1 * x2) * (1 + k),
             1 - d * ((x2 * x2) * (y1 * y1)), x1 * y2, 1 - d * ((x1 * x1) * (y2 * y2)), y1 * x2,
             1 + d * ((x1 * x1) * (x2 * x2)), y1 * y2, 1 + d * ((y1 * y1) * (y2 * y2)), x1 * x2, x3, y3);
    Mul3(x1, y2, y3);
    Mul3(y1, x2, y3);
    Mul3(y1, y2, x3);
    Mul3(x1, x2, x3);
  }

  lemma NumYIs(d: int, x1: int, y1: int, x2: int, y2: int, x3: int, y3: int)
    ensures NumY(d, x1, y1, x2, y2, x3, y3)
         == Top(d, x1 * x1, y1 * y1, x2 * x2, y2 * y2, x1 * (y2 * x3), y1 * (x2 * x3), y1 * (y2 * y3), x1 * (x2 * y3))
  {
    hide Sum4, Blend;
    Inner(d, x1, y1, x2, y2);
    var k := d * ((x1 * y1) * (x2 * y2));
    NumParts((x1 * y2 + x2 * y1) * (1 - k), (y1 * y2 + x1 * x2) * (1 + k),
             1 - d * ((x2 * x2) * (y1 * y1)), x1 * y2, 1 - d * ((x1 * x1) * (y2 * y2)), y1 * x2,
             1 + d * ((x1 * x1) * (x2 * x2)), y1 * y2, 1 + d * ((y1 * y1) * (y2 * y2)), x1 * x2, x3, y3);
    Mul3(x1, y2, x3);
    Mul3(y1, x2, x3);
    Mul3(y1, y2, y3);
    Mul3(x1, x2, y3);
  }

  lemma DenParts(d: int, q: int, w: int, p1: int, p2: int, p3: int, u: int, v: int)
    requires w == p1 * u + p2 * v
    ensures q + d * (w * p3) == Sum3(q, d * u, p1 * p3, d * v, p2 * p3)
    ensures q - d * (w * p3) == Sum3(q, d * u, -(p1 * p3), d * v, -(p2 * p3))
  {
    TwoTerms(p1, u, p2, v, p3);
    assert d * (w * p3) == d * (p1 * (u * p3)) + d * (p2 * (v * p3));
    assert d * (p1 * (u * p3)) == (d * u) * (p1 * p3) && d * (p2 * (v * p3)) == (d * v) * (p2 * p3);
  }

  lemma KSquared(d: int, x1: int, y1: int, x2: int, y2: int)
    ensures (d * ((x1 * y1) * (x2 * y2))) * (d * ((x1 * y1) * (x2 * y2))) == (d * d) * (((x1 * x1) * (y1 * y1)) * ((x2 * x2) * (y2 * y2)))
  {
  }

  lemma DenIs(d: int, x1: int, y1: int, x2: int, y2: int, x3: int, y3: int)
    ensures DenX(d, x1, y1, x2, y2, x3, y3)
         == Bottom(d, x1 * x1, y1 * y1, x2 * x2, y2 * y2, (x1 * y1) * (x3 * y3), (x2 * y2) * (x3 * y3))
    ensures DenY(d, x1, y1, x2, y2, x3, y3)
         == Bottom(d, x1 * x1, y1 * y1, x2 * x2, y2 * y2, -((x1 * y1) * (x3 * y3)), -((x2 * y2) * (x3 * y3)))
  {
    KSquared(d, x1, y1, x2, y2);
    var k := d * ((x1 * y1) * (x2 * y2));
    ProductOfSums(x1, y1, x2, y2);
    hide Sum3;
    DenParts(d, 1 - k * k, (x1 * y2 + x2 * y1) * (y1 * y2 + x1 * x2), x1 * y1, x2 * y2, x3 * y3,
             x2 * x2 + y2 * y2, x1 * x1 + y1 * y1);
  }

  lemma Mul3(p: int, q: int, r: int)
    ensures p * (q * r) == (p * q) * r && p * (q * r) == q * (p * r)
  {
  }

  /** (pq)(rs) == (pr)(qs) */
  lemma Swap4(p: int, q: int, r: int, s: int)
    ensures (p * q) * (r * s) == (p * r) * (q * s)
  {
    Mul3(p, q, r * s);
    Mul3(q, r, s);
    Mul3(p, r, q * s);
  }

  lemma ProductOfSums(x1: int, y1: int, x2: int, y2: int)
    ensures (x1 * y2 + x2 * y1) * (y1 * y2 + x1 * x2) == (x1 * y1) * (x2 * x2 + y2 * y2) + (x2 * y2) * (x1 * x1 + y1 * y1)
  {
    FourProducts(x1 * y2, x2 * y1, y1 * y2, x1 * x2);
    Swap4(x1, y2, y1, y2);
    Swap4(y2, x1, x2, x1);
    Swap4(x2, y1, y2, y1);
    Swap4(y1, x2, x1, x2);
    MulDistrib(x2 * x2, y2 * y2, x1 * y1);
    MulDistrib(x1 * x1, y1 * y1, x2 * y2);
  }

  // How the products x1 y1 x2 y2, x1 y1 x3 y3 and x2 y2 x3 y3 act on three factors.

  lemma Act12(a: int, a': int, b: int, b': int, c: int)
    ensures (a * (b * c)) * ((a * a') * (b * b')) == ((a * a) * (b * b)) * (a' * (b' * c))
  {
    Swap4(a, b * c, a * a', b * b');
    Mul3(a, a, a');
    Swap4(b, c, b, b');
    Swap4(a * a, a', b * b, c * b');
  }

  lemma Act13(a: int, a': int, b: int, c: int, c': int)
    ensures (a * (b * c)) * ((a * a') * (c * c')) == ((a * a) * (c * c)) * (a' * (b * c'))
    ensures (a * (b * c)) * -((a * a') * (c * c')) == ((a * a) * -(c * c)) * (a' * (b * c'))
  {
    Swap4(a, b * c, a * a', c * c');
    Mul3(a, a, a');
    Swap4(c, b, c, c');
    Swap4(a * a, a', c * c, b * c');
    Signs(a * (b * c), (a * a') * (c * c'), a * a, c * c, a' * (b * c'));
  }

  lemma Act23(a: int, b: int, b': int, c: int, c': int)
    ensures (a * (b * c)) * ((b * b') * (c * c')) == ((b * b) * (c * c)) * (a * (b' * c'))
    ensures (a * (b * c)) * -((b * b') * (c * c')) == ((b * b) * -(c * c)) * (a * (b' * c'))
  {
    var q := (b * b) * (c * c);
    Mul3(a, b * c, (b * b') * (c * c'));
    Swap4(b, c, b * b', c * c');
    Mul3(b, b, b');
    Mul3(c, c, c');
    Swap4(b * b, b', c * c, c');
    Mul3(a, q, b' * c');
    Signs(a * (b * c), (b * b') * (c * c'), b * b, c * c, a * (b' * c'));
  }

  lemma Signs(p: int, q: int, r: int, s: int, m: int)
    requires p * q == (r * s) * m
    ensures p * -q == (r * -s) * m
  {
    assert p * -q == -(p * q) && r * -s == -(r * s);
    assert -(r * s) * m == -((r * s) * m);
  }

  lemma Commute3(x1: int, y1: int, x2: int, y2: int, x3: int, y3: int)
    ensures (y1 * x1) == (x1 * y1) && (y2 * x2) == (x2 * y2) && (y3 * x3) == (x3 * y3)
  {
  }

  lemma PermutesX(x1: int, y1: int, x2: int, y2: int, x3: int, y3: int)
    ensures var s1, t1, s2, t2, s3, t3 := x1 * x1, y1 * y1, x2 * x2, y2 * y2, x3 * x3, y3 * y3;
      var m1, m2, m3, m4 := x1 * (y2 * y3), y1 * (x2 * y3), y1 * (y2 * x3), x1 * (x2 * x3);
      var p, r, p' := (x1 * y1) * (x2 * y2), (x1 * y1) * (x3 * y3), (x2 * y2) * (x3 * y3);
      && Permutes(p, r, m1, m2, m3, m4, s1 * t2, t1 * s2, t1 * t2, s1 * s2, s1 * t3, t1 * t3, t1 * s3, s1 * s3)
      && Permutes(p', r, m1, m4, m3, m2, t2 * t3, s2 * s3, t2 * s3, s2 * t3, s1 * t3, s1 * s3, t1 * s3, t1 * t3)
  {
    Commute3(x1, y1, x2, y2, x3, y3);
    Act12(x1, y1, y2, x2, y3); Act12(y1, x1, x2, y2, y3); Act12(y1, x1, y2, x2, x3); Act12(x1, y1, x2, y2, x3);
    Act13(x1, y1, y2, y3, x3); Act13(y1, x1, x2, y3, x3); Act13(y1, x1, y2, x3, y3); Act13(x1, y1, x2, x3, y3);
    Act23(x1, y2, x2, y3, x3); Act23(y1, x2, y2, y3, x3); Act23(y1, y2, x2, x3, y3); Act23(x1, x2, y2, x3, y3);
  }

  lemma PermutesY(x1: int, y1: int, x2: int, y2: int, x3: int, y3: int)
    ensures var s1, t1, s2, t2, s3, t3 := x1 * x1, y1 * y1, x2 * x2, y2 * y2, -(y3 * y3), -(x3 * x3);
      var m1, m2, m3, m4 := x1 * (y2 * x3), y1 * (x2 * x3), y1 * (y2 * y3), x1 * (x2 * y3);
      var p, r, p' := (x1 * y1) * (x2 * y2), -((x1 * y1) * (x3 * y3)), -((x2 * y2) * (x3 * y3));
      && Permutes(p, r, m1, m2, m3, m4, s1 * t2, t1 * s2, t1 * t2, s1 * s2, s1 * t3, t1 * t3, t1 * s3, s1 * s3)
      && Permutes(p', r, m1, m4, m3, m2, t2 * t3, s2 * s3, t2 * s3, s2 * t3, s1 * t3, s1 * s3, t1 * s3, t1 * t3)
  {
    Commute3(x1, y1, x2, y2, x3, y3);
    Act12(x1, y1, y2, x2, x3); Act12(y1, x1, x2, y2, x3); Act12(y1, x1, y2, x2, y3); Act12(x1, y1, x2, y2, y3);
    Act13(x1, y1, y2, x3, y3); Act13(y1, x1, x2, x3, y3); Act13(y1, x1, y2, y3, x3); Act13(x1, y1, x2, y3, x3);
    Act23(x1, y2, x2, x3, y3); Act23(y1, x2, y2, x3, y3); Act23(y1, y2, x2, y3, x3); Act23(x1, x2, y2, y3, x3);
  }

  lemma Turned(x1: int, y1: int, x2: int, y2: int, x3: int, y3: int)
    ensures x2 * (y3 * y1) == y1 * (x2 * y3) && y2 * (x3 * y1) == y1 * (y2 * x3)
    ensures y2 * (y3 * x1) == x1 * (y2 * y3) && x2 * (x3 * x1) == x1 * (x2 * x3)
    ensures (x2 * y2) * (x1 * y1) == (x1 * y1) * (x2 * y2) && (x3 * y3) * (x1 * y1) == (x1 * y1) * (x3 * y3)
  {
  }

  /** The fractions for x agree. */
  lemma CrossX(d: int, x1: int, y1: int, x2: int, y2: int, x3: int, y3: int)
    requires Squares(d, x1 * x1, y1 * y1) && Squares(d, x2 * x2, y2 * y2) && Squares(d, x3 * x3, y3 * y3)
    ensures Cong(NumX(d, x1, y1, x2, y2, x3, y3) * DenX(d, x2, y2, x3, y3, x1, y1),
                 NumX(d, x2, y2, x3, y3, x1, y1) * DenX(d, x1, y1, x2, y2, x3, y3))
  {
    hide Squares, Permutes, Top, Bottom, NumX, DenX, DenY;
    NumXIs(d, x1, y1, x2, y2, x3, y3);
    NumXIs(d, x2, y2, x3, y3, x1, y1);
    DenIs(d, x1, y1, x2, y2, x3, y3);
    DenIs(d, x2, y2, x3, y3, x1, y1);
    PermutesX(x1, y1, x2, y2, x3, y3);
    Turned(x1, y1, x2, y2, x3, y3);
    CrossProducts(d, x1 * x1, y1 * y1, x2 * x2, y2 * y2, x3 * x3, y3 * y3,
                  x1 * (y2 * y3), y1 * (x2 * y3), y1 * (y2 * x3), x1 * (x2 * x3),
                  (x1 * y1) * (x2 * y2), (x1 * y1) * (x3 * y3), (x2 * y2) * (x3 * y3));
  }

  lemma TurnedY(x1: int, y1: int, x2: int, y2: int, x3: int, y3: int)
    ensures x2 * (y3 * x1) == x1 * (x2 * y3) && y2 * (x3 * x1) == x1 * (y2 * x3)
    ensures y2 * (y3 * y1) == y1 * (y2 * y3) && x2 * (x3 * y1) == y1 * (x2 * x3)
  {
  }

  /** The second numerator for y, with the third point mirrored. */
  lemma TopMirrored(d: int, s2: int, t2: int, s3: int, t3: int, m1: int, m2: int, m3: int, m4: int)
    ensures Top(d, s2, t2, -t3, -s3, m2, m3, m1, m4) == Top(d, s2, t2, s3, t3, m4, m1, m3, m2)
  {
    NegOne(d, t3, t2);
    NegOne(d, s3, s2);
    NegOne(d, t3, s2);
    NegOne(d, s3, t2);
    assert s3 * t2 == t2 * s3 && t3 * t2 == t2 * t3 && s3 * s2 == s2 * s3 && t3 * s2 == s2 * t3;
    Sum4Reversed(1 + d * (t2 * t3), 1 + d * (s2 * s3), 1 - d * (s2 * t3), 1 - d * (t2 * s3), m2, m3, m1, m4);
    hide Sum4;
  }

  lemma Sum4Reversed(a: int, b: int, c: int, e: int, x: int, y: int, z: int, w: int)
    ensures Sum4(a, b, c, e, x, y, z, w) == Sum4(e, c, b, a, w, z, y, x)
  {
  }

  lemma BottomMirrored(d: int, s2: int, t2: int, s3: int, t3: int, p: int, r: int)
    ensures Bottom(d, s2, t2, -t3, -s3, p, r) == Bottom(d, s2, t2, s3, t3, -p, r)
  {
    NegBoth(d, t3, s3);
    assert -(d * (s3 + t3)) * p == (d * (s3 + t3)) * -p;
  }

  /** The fractions for y agree. */
  lemma CrossY(d: int, x1: int, y1: int, x2: int, y2: int, x3: int, y3: int)
    requires Squares(d, x1 * x1, y1 * y1) && Squares(d, x2 * x2, y2 * y2) && Squares(d, x3 * x3, y3 * y3)
    ensures Cong(NumY(d, x1, y1, x2, y2, x3, y3) * DenY(d, x2, y2, x3, y3, x1, y1),
                 NumY(d, x2, y2, x3, y3, x1, y1) * DenY(d, x1, y1, x2, y2, x3, y3))
  {
    hide Squares, Permutes, NumY, DenX, DenY, Top, Bottom;
    NumYIs(d, x1, y1, x2, y2, x3, y3);
    NumYIs(d, x2, y2, x3, y3, x1, y1);
    DenIs(d, x1, y1, x2, y2, x3, y3);
    DenIs(d, x2, y2, x3, y3, x1, y1);
    PermutesY(x1, y1, x2, y2, x3, y3);
    Turned(x1, y1, x2, y2, x3, y3);
    TurnedY(x1, y1, x2, y2, x3, y3);
    Mirror(d, x3 * x3, y3 * y3);
    var m1, m2, m3, m4 := x1 * (y2 * x3), y1 * (x2 * x3), y1 * (y2 * y3), x1 * (x2 * y3);
    var p, r, p' := (x1 * y1) * (x2 * y2), (x1 * y1) * (x3 * y3), (x2 * y2) * (x3 * y3);
    TopMirrored(d, x2 * x2, y2 * y2, x3 * x3, y3 * y3, m1, m2, m3, m4);
    BottomMirrored(d, x2 * x2, y2 * y2, x3 * x3, y3 * y3, p, -r);
    CrossProducts(d, x1 * x1, y1 * y1, x2 * x2, y2 * y2, -(y3 * y3), -(x3 * x3), m1, m2, m3, m4, p, -r, -p');
  }
}
