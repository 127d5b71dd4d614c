/**
 The twisted Edwards curve -x^2 + y^2 = 1 + d x^2 y^2 over the integers modulo p
 (section 5.1 of RFC 8032), with its addition law.

 Closure, the neutral element, inverses, commutativity and the fact that the law
 never divides by zero are proved from `Fermat`, that is, from p being prime.
 */
module Edwards {
  import opened Arith
  import opened ModP
  import opened PrimeField
  import opened NonResidue

  datatype Point = Point(x: int, y: int)

  /** d x^2 y^2, with a = xy and b = xy; more generally d a b. */
  function DTimes(a: int, b: int): int {
    Prod(D, Prod(a, b))
  }

  predicate OnCurve(p: Point) {
    && Reduced(p.x) && Reduced(p.y)
    && Cong(Prod(p.y, p.y) - Prod(p.x, p.x), 1 + DTimes(Prod(p.x, p.y), Prod(p.x, p.y)))
  }

  lemma CurveEquation(p: Point)
    requires OnCurve(p)
    ensures Cong(p.y * p.y - p.x * p.x, 1 + D * ((p.x * p.y) * (p.x * p.y)))
  {
    hide Cong, Reduced;
    ProdIs(p.x, p.y);
    ProdIs(p.x, p.x);
    ProdIs(p.y, p.y);
    ProdIs(p.x * p.y, p.x * p.y);
    ProdIs(D, (p.x * p.y) * (p.x * p.y));
  }

  /** d x1 x2 y1 y2 */
  function K(p: Point, q: Point): int {
    DTimes(Prod(p.x, p.y), Prod(q.x, q.y))
  }

  lemma KIs(p: Point, q: Point)
    ensures K(p, q) == D * ((p.x * p.y) * (q.x * q.y))
  {
    ProdIs(p.x, p.y);
    ProdIs(q.x, q.y);
    ProdIs(p.x * p.y, q.x * q.y);
    ProdIs(D, (p.x * p.y) * (q.x * q.y));
  }

  const NEUTRAL: Point := Point(0, 1)

  /** The affine addition law (section 5.1.4 of RFC 8032). */
  function Plus(p: Point, q: Point): Point {
    Point(Prod(Prod(p.x, q.y) + Prod(q.x, p.y), Inv(1 + K(p, q))) % P,
          Prod(Prod(p.y, q.y) + Prod(p.x, q.x), Inv(1 - K(p, q))) % P)
  }

  function Negate(p: Point): Point {
    Point((-p.x) % P, p.y)
  }

  /** (i x + k y)^2, when i^2 is -1, k^2 is 1 and (x, y) satisfies the curve equation with e = d x^2 y^2. */
  lemma RootSquare(i: int, k: int, x: int, y: int, e: int)
    requires Cong(i * i, -1) && Cong(k * k, 1) && Cong(y * y - x * x, 1 + e)
    ensures Cong((i * x + k * y) * (i * x + k * y), 1 + e + 2 * ((i * k) * (x * y)))
  {
    hide Cong;
    var m := 2 * ((i * k) * (x * y));
    assert (i * x + k * y) * (i * x + k * y) == (x * x) * (i * i) + (y * y) * (k * k) + m;
    CongScale(x * x, i * i, -1);
    CongScale(y * y, k * k, 1);
    CongAdd((x * x) * (i * i), (x * x) * -1, (y * y) * (k * k), (y * y) * 1);
    CongTrans((x * x) * (i * i) + (y * y) * (k * k), y * y - x * x, 1 + e);
    CongRefl(m);
    CongAdd((x * x) * (i * i) + (y * y) * (k * k), 1 + e, m, m);
  }

  lemma SquareOut(d: int, a: int, u: int)
    ensures d * ((a * u) * (a * u)) == (d * (a * a)) * (u * u)
  {
    assert (a * u) * (a * u) == (a * a) * (u * u);
  }

  /** If k == d a b has square 1, then d (a (i x2 + y2))^2 is the square of i x1 + k y1. */
  lemma DIsRatio(d: int, i: int, x1: int, y1: int, x2: int, y2: int, a: int, b: int, k: int)
    requires a == x1 * y1 && b == x2 * y2 && k == d * (a * b)
    requires Cong(i * i, -1) && Cong(k * k, 1)
    requires Cong(y1 * y1 - x1 * x1, 1 + d * (a * a)) && Cong(y2 * y2 - x2 * x2, 1 + d * (b * b))
    ensures Cong(d * ((a * (i * x2 + y2)) * (a * (i * x2 + y2))), (i * x1 + k * y1) * (i * x1 + k * y1))
  {
    var v, u := i * x1 + k * y1, i * x2 + y2;
    var e, f, m := d * (a * a), 1 + d * (b * b) + 2 * ((i * 1) * b), 2 * ((i * k) * a);
    RootSquare(i, k, x1, y1, e);
    CongRefl(1 * 1);
    RootSquare(i, 1, x2, y2, d * (b * b));
    assert i * x2 + 1 * y2 == u;
    CongScale(e, u * u, f);
    SquareOut(d, a, u);
    Cross(d, i, a, b);
    Balance(k * k, e, m);
    CongTrans(e * (u * u), e * f, 1 + e + m);
    CongSym(v * v, 1 + e + m);
    CongTrans(e * (u * u), 1 + e + m, v * v);
  }

  lemma Balance(kk: int, e: int, m: int)
    requires Cong(kk, 1)
    ensures Cong(e + kk + m, 1 + e + m)
  {
    CongRefl(e + m);
    CongAdd(kk, 1, e + m, e + m);
  }

  lemma Cross(d: int, i: int, a: int, b: int)
    ensures (d * (a * a)) * (1 + d * (b * b) + 2 * ((i * 1) * b))
         == d * (a * a) + (d * (a * b)) * (d * (a * b)) + 2 * ((i * (d * (a * b))) * a)
  {
    var e := d * (a * a);
    assert e * (d * (b * b)) == (d * (a * b)) * (d * (a * b));
    assert e * (i * b) == (i * (d * (a * b))) * a;
    assert e * (1 + d * (b * b) + 2 * (i * b)) == e + e * (d * (b * b)) + 2 * (e * (i * b));
  }

  lemma RootVanishes(p: Point, q: Point, i: int)
    requires Fermat() && OnCurve(p) && OnCurve(q) && Cong(K(p, q) * K(p, q), 1) && Cong(i * i, -1)
    ensures Cong((p.x * p.y) * (i * q.x + q.y), 0)
  {
    hide Cong, OnCurve, K;
    KIs(p, q);
    CurveEquation(p);
    CurveEquation(q);
    var k := K(p, q);
    DIsRatio(D, i, p.x, p.y, q.x, q.y, p.x * p.y, q.x * q.y, k);
    var w, v := (p.x * p.y) * (i * q.x + q.y), i * p.x + k * p.y;
    if !Cong(w, 0) {
      NotRatio(w, v);
    }
  }

  lemma MinusRoot(i: int)
    requires Cong(i * i, -1)
    ensures Cong(-i * -i, -1)
  {
    assert -i * -i == i * i;
  }

  /** Both roots of -1 make the same factor vanish, so y2 does, if a does not. */
  lemma BothRoots(a: int, i: int, x: int, y: int)
    requires Fermat() && !Cong(a, 0)
    requires Cong(a * (i * x + y), 0) && Cong(a * (-i * x + y), 0)
    ensures Cong(y, 0)
  {
    var u, v := a * (i * x + y), a * (-i * x + y);
    assert u + v == (2 * a) * y by {
      assert u + v == a * ((i * x + y) + (-i * x + y));
      assert -i * x == -(i * x);
    }
    hide Cong, Fermat;
    CongAdd(u, 0, v, 0);
    TwoIsUnit();
    NoZeroDivisors(2, a);
    assert (2 * a) * 0 == 0;
    CongCancel(2 * a, y, 0);
  }

  /** The addition law is complete: K(p, q)^2 is never 1 on the curve. */
  lemma NeverOne(p: Point, q: Point)
    requires Fermat() && OnCurve(p) && OnCurve(q)
    ensures !Cong(K(p, q) * K(p, q), 1)
  {
    hide OnCurve, Cong, K;
    KIs(p, q);
    var a, b, k := p.x * p.y, q.x * q.y, K(p, q);
    var i := SQRT_M1;
    SqrtM1Is();
    MinusRoot(i);
    if Cong(k * k, 1) {
      RootVanishes(p, q, i);
      RootVanishes(p, q, -i);
      assert Cong(a * b, 0) by {
        if Cong(a, 0) {
          ZeroMul(a, b);
        } else {
          BothRoots(a, i, q.x, q.y);
          ZeroMul(q.y, q.x);
          ZeroMul(b, a);
        }
      }
      ZeroMul(a * b, D);
      ZeroMul(k, k);
      CongSym(k * k, 1);
      CongTrans(1, k * k, 0);
      TwoIsUnit();
    }
  }

  /** The denominators of the addition law are invertible. */
  lemma Complete(p: Point, q: Point)
    requires Fermat() && OnCurve(p) && OnCurve(q)
    ensures !Cong(1 + K(p, q), 0) && !Cong(1 - K(p, q), 0)
  {
    hide OnCurve, Cong, Fermat, K;
    var k := K(p, q);
    NeverOne(p, q);
    assert (1 + k) * (1 - k) == 1 - k * k;
    if Cong(1 + k, 0) || Cong(1 - k, 0) {
      assert Cong((1 + k) * (1 - k), 0) by {
        if Cong(1 + k, 0) {
          ZeroMul(1 + k, 1 - k);
        } else {
          ZeroMul(1 - k, 1 + k);
        }
      }
      CongRefl(k * k);
      CongAdd(1 - k * k, 0, k * k, k * k);
      CongSym(1, k * k);
    }
  }

  // Closure. With a = x1 y1, b = x2 y2, m = a b and k = d m, the numerators
  // N1 = x1 y2 + x2 y1 and N2 = y1 y2 + x1 x2 have squares S + 2m and T + 2m.

  lemma NumeratorSquare(s: int, t: int, u: int, v: int)
    ensures (s * t + u * v) * (s * t + u * v) == ((s * s) * (t * t) + (u * u) * (v * v)) + 2 * ((s * t) * (u * v))
  {
    SquareSum(s * t, u * v);
    assert (s * t) * (s * t) == (s * s) * (t * t);
    assert (u * v) * (u * v) == (u * u) * (v * v);
  }

  lemma Numerators(x1: int, y1: int, x2: int, y2: int)
    ensures (x1 * y2 + x2 * y1) * (x1 * y2 + x2 * y1)
         == ((x1 * x1) * (y2 * y2) + (x2 * x2) * (y1 * y1)) + 2 * ((x1 * y1) * (x2 * y2))
    ensures (y1 * y2 + x1 * x2) * (y1 * y2 + x1 * x2)
         == ((y1 * y1) * (y2 * y2) + (x1 * x1) * (x2 * x2)) + 2 * ((x1 * y1) * (x2 * y2))
  {
    NumeratorSquare(x1, y2, x2, y1);
    NumeratorSquare(y1, y2, x1, x2);
    Shuffle(x1, y1, x2, y2);
  }

  lemma Shuffle(x1: int, y1: int, x2: int, y2: int)
    ensures (x1 * y2) * (x2 * y1) == (x1 * y1) * (x2 * y2)
    ensures (y1 * y2) * (x1 * x2) == (x1 * y1) * (x2 * y2)
  {
  }

  lemma SquareSum(u: int, v: int)
    ensures (u + v) * (u + v) == u * u + v * v + 2 * (u * v)
  {
  }

  /** T - S and S T, for squares u1 = x1^2, v1 = y1^2, u2 = x2^2, v2 = y2^2. */
  lemma SumAndProduct(u1: int, v1: int, u2: int, v2: int)
    ensures (v1 * v2 + u1 * u2) - (u1 * v2 + u2 * v1) == (v1 - u1) * (v2 - u2)
    ensures (u1 * v2 + u2 * v1) * (v1 * v2 + u1 * u2)
         == (u1 * v1) * (2 * (u2 * v2) + (v2 - u2) * (v2 - u2)) + (u2 * v2) * (2 * (u1 * v1) + (v1 - u1) * (v1 - u1))
  {
    assert (u1 * v2) * (v1 * v2) == (u1 * v1) * (v2 * v2);
    assert (u1 * v2) * (u1 * u2) == (u2 * v2) * (u1 * u1);
    assert (u2 * v1) * (v1 * v2) == (u2 * v2) * (v1 * v1);
    assert (u2 * v1) * (u1 * u2) == (u1 * v1) * (u2 * u2);
    assert 2 * (u2 * v2) + (v2 - u2) * (v2 - u2) == u2 * u2 + v2 * v2;
    assert 2 * (u1 * v1) + (v1 - u1) * (v1 - u1) == u1 * u1 + v1 * v1;
    FourProducts(u1 * v2, u2 * v1, v1 * v2, u1 * u2);
    MulDistrib(u2 * u2, v2 * v2, u1 * v1);
    MulDistrib(u1 * u1, v1 * v1, u2 * v2);
  }

  /** The curve equations replace e1 = y1^2 - x1^2 by f1 = 1 + d p, and e2 by f2. */
  lemma CurveSums(p: int, q: int, e1: int, f1: int, e2: int, f2: int)
    requires Cong(e1, f1) && Cong(e2, f2)
    ensures Cong(e1 * e2, f1 * f2)
    ensures Cong(p * (2 * q + e2 * e2) + q * (2 * p + e1 * e1), p * (2 * q + f2 * f2) + q * (2 * p + f1 * f1))
  {
    CongMul(e1, f1, e2, f2);
    CongMul(e1, f1, e1, f1);
    CongMul(e2, f2, e2, f2);
    CongRefl(2 * q);
    CongRefl(2 * p);
    CongAdd(2 * q, 2 * q, e2 * e2, f2 * f2);
    CongAdd(2 * p, 2 * p, e1 * e1, f1 * f1);
    CongScale(p, 2 * q + e2 * e2, 2 * q + f2 * f2);
    CongScale(q, 2 * p + e1 * e1, 2 * p + f1 * f1);
    CongAdd(p * (2 * q + e2 * e2), p * (2 * q + f2 * f2), q * (2 * p + e1 * e1), q * (2 * p + f1 * f1));
  }

  /** What those expressions are, with m^2 = p q and k = d m. */
  lemma Simplify(d: int, p: int, q: int, m: int, k: int)
    requires p * q == m * m && k == d * m
    ensures (1 + d * p) * (1 + d * q) == 1 + d * (p + q) + k * k
    ensures p * (2 * q + (1 + d * q) * (1 + d * q)) + q * (2 * p + (1 + d * p) * (1 + d * p))
         == 4 * (m * m) + 4 * (d * (m * m)) + (p + q) * (1 + k * k)
  {
    var mm, kk := m * m, k * k;
    assert kk == d * (d * mm);
    assert (d * p) * (d * q) == d * (d * (p * q));
    FourProducts(1, d * p, 1, d * q);
    Third(d, p, q, mm, kk);
    Third(d, q, p, mm, kk);
    MulDistrib(p, q, kk);
    assert (p + q) * (1 + kk) == (p + q) + (p + q) * kk;
  }

  lemma Third(d: int, p: int, q: int, mm: int, kk: int)
    requires p * q == mm && kk == d * (d * mm)
    ensures p * (2 * q + (1 + d * q) * (1 + d * q)) == 2 * mm + p + 2 * (d * mm) + q * kk
  {
    var e := d * q;
    SquareSum(1, e);
    assert p * e == d * mm;
    assert p * (e * e) == (p * e) * e == (d * mm) * (d * q) == q * (d * (d * mm));
    assert p * (2 * q + (1 + 2 * e + e * e)) == 2 * (p * q) + p + 2 * (p * e) + p * (e * e);
  }

  /**
   The closure identity N2^2 (1+k)^2 - N1^2 (1-k)^2 == (1-k^2)^2 + d N1^2 N2^2, where ts = T - S and
   st = S T have been replaced by what they are congruent to.
   */
  lemma Balanced(d: int, s: int, t: int, m: int, k: int, e: int)
    requires k == d * m
    requires Cong(t - s, 1 + d * e + k * k)
    requires Cong(s * t, 4 * (m * m) + 4 * (d * (m * m)) + e * (1 + k * k))
    ensures Cong((t + 2 * m) * ((1 + k) * (1 + k)) - (s + 2 * m) * ((1 - k) * (1 - k)),
                 ((1 + k) * (1 + k)) * ((1 - k) * (1 - k)) + d * ((s + 2 * m) * (t + 2 * m)))
  {
    var kk, mm := k * k, m * m;
    var st := 4 * mm + 4 * (d * mm) + e * (1 + kk);
    // both sides, as far as they differ
    var l, r := (t - s) * (1 + kk) + 8 * (d * mm), (1 - kk) * (1 - kk) + d * (s * t) + 4 * (d * mm);
    var common := 2 * (k * (t + s));
    ClosureLeft(s, t, m, k, d);
    ClosureRight(s, t, m, k, d);
    CongRefl(1 + kk);
    CongMul(t - s, 1 + d * e + kk, 1 + kk, 1 + kk);
    CongScale(d, s * t, st);
    var l', r' := (1 + d * e + kk) * (1 + kk) + 8 * (d * mm), (1 - kk) * (1 - kk) + d * st + 4 * (d * mm);
    CongRefl(8 * (d * mm));
    CongAdd((t - s) * (1 + kk), (1 + d * e + kk) * (1 + kk), 8 * (d * mm), 8 * (d * mm));
    CongRefl((1 - kk) * (1 - kk) + 4 * (d * mm));
    CongAdd(d * (s * t), d * st, (1 - kk) * (1 - kk) + 4 * (d * mm), (1 - kk) * (1 - kk) + 4 * (d * mm));
    ClosureSides(d, e, mm, kk, k, m);
    CongSym(r, r');
    CongTrans(l, l', r);
    CongRefl(common);
    CongAdd(l, r, common, common);
  }

  lemma ClosureLeft(s: int, t: int, m: int, k: int, d: int)
    requires k == d * m
    ensures (t + 2 * m) * ((1 + k) * (1 + k)) - (s + 2 * m) * ((1 - k) * (1 - k))
         == (t - s) * (1 + k * k) + 8 * (d * (m * m)) + 2 * (k * (t + s))
  {
    SquareSum(1, k);
    assert (1 - k) * (1 - k) == 1 - 2 * k + k * k;
    assert m * k == d * (m * m);
  }

  lemma ClosureRight(s: int, t: int, m: int, k: int, d: int)
    requires k == d * m
    ensures ((1 + k) * (1 + k)) * ((1 - k) * (1 - k)) + d * ((s + 2 * m) * (t + 2 * m))
         == (1 - k * k) * (1 - k * k) + d * (s * t) + 4 * (d * (m * m)) + 2 * (k * (t + s))
  {
    assert (1 + k) * (1 - k) == 1 - k * k;
    assert ((1 + k) * (1 + k)) * ((1 - k) * (1 - k)) == ((1 + k) * (1 - k)) * ((1 + k) * (1 - k));
    FourProducts(s, 2 * m, t, 2 * m);
    assert d * (s * (2 * m)) == 2 * (k * s);
    assert d * ((2 * m) * t) == 2 * (k * t);
    assert k * (t + s) == k * t + k * s;
    var e := s * t + s * (2 * m) + (2 * m) * t + (2 * m) * (2 * m);
    assert d * e == d * (s * t) + d * (s * (2 * m)) + d * ((2 * m) * t) + d * ((2 * m) * (2 * m));
  }

  lemma ClosureSides(d: int, e: int, mm: int, kk: int, k: int, m: int)
    requires k == d * m && mm == m * m && kk == k * k
    ensures (1 + d * e + kk) * (1 + kk) + 8 * (d * mm)
         == (1 - kk) * (1 - kk) + d * (4 * mm + 4 * (d * mm) + e * (1 + kk)) + 4 * (d * mm)
  {
    assert kk == d * (d * mm);
    var f := e * (1 + kk);
    assert (1 + d * e + kk) * (1 + kk) == (1 + kk) * (1 + kk) + d * f;
    assert d * (4 * mm + 4 * (d * mm) + f) == 4 * (d * mm) + 4 * (d * (d * mm)) + d * f;
    SquareSum(1, kk);
    assert (1 - kk) * (1 - kk) == 1 - 2 * kk + kk * kk;
  }

  lemma ClosureIdentity(p: Point, q: Point)
    requires OnCurve(p) && OnCurve(q)
    ensures var k, n1, n2 := K(p, q), p.x * q.y + q.x * p.y, p.y * q.y + p.x * q.x;
      Cong((n2 * n2) * ((1 + k) * (1 + k)) - (n1 * n1) * ((1 - k) * (1 - k)),
           ((1 + k) * (1 + k)) * ((1 - k) * (1 - k)) + D * ((n1 * n1) * (n2 * n2)))
  {
    hide OnCurve, K;
    CurveEquation(p);
    CurveEquation(q);
    KIs(p, q);
    var x1, y1, x2, y2, a, b, k := p.x, p.y, q.x, q.y, p.x * p.y, q.x * q.y, K(p, q);
    var u1, v1, u2, v2 := x1 * x1, y1 * y1, x2 * x2, y2 * y2;
    var s, t := u1 * v2 + u2 * v1, v1 * v2 + u1 * u2;
    Numerators(x1, y1, x2, y2);
    SquareOfProduct(x1, y1);
    SquareOfProduct(x2, y2);
    SquareOfProduct(a, b);
    SumAndProduct(u1, v1, u2, v2);
    var e1, f1, e2, f2 := v1 - u1, 1 + D * (a * a), v2 - u2, 1 + D * (b * b);
    CurveSums(a * a, b * b, e1, f1, e2, f2);
    Simplify(D, a * a, b * b, a * b, k);
    Balanced(D, s, t, a * b, k, a * a + b * b);
  }

  lemma SquareOfProduct(x: int, y: int)
    ensures (x * x) * (y * y) == (x * y) * (x * y)
  {
  }

  /** The sum's coordinates, cleared of denominators. */
  lemma PlusIs(p: Point, q: Point)
    requires Fermat() && OnCurve(p) && OnCurve(q)
    ensures var r, k := Plus(p, q), K(p, q);
      && Reduced(r.x) && Reduced(r.y)
      && Cong(r.x * (1 + k), p.x * q.y + q.x * p.y) && Cong(r.y * (1 - k), p.y * q.y + p.x * q.x)
  {
    Complete(p, q);
    hide OnCurve, K, Inv;
    var k := K(p, q);
    ProdIs(p.x, q.y);
    ProdIs(q.x, p.y);
    ProdIs(p.y, q.y);
    ProdIs(p.x, q.x);
    QuotientCong(p.x * q.y + q.x * p.y, 1 + k);
    QuotientCong(p.y * q.y + p.x * q.x, 1 - k);
  }

  /** n / f modulo p. */
  lemma QuotientCong(n: int, f: int)
    requires Fermat() && !Cong(f, 0)
    ensures var r := Prod(n, Inv(f)) % P; Reduced(r) && Cong(r * f, n)
  {
    hide Inv;
    var i := Inv(f);
    var r := Prod(n, i) % P;
    ProdIs(n, i);
    ReducedMod(n * i);
    CongRefl(f);
    CongMul(r, n * i, f, f);
    InvIs(f);
    CongScale(n, f * i, 1);
    assert (n * i) * f == n * (f * i);
    CongTrans(r * f, n * (f * i), n * 1);
  }

  /** A reduced solution of x f == n is the quotient. */
  lemma QuotientUnique(n: int, f: int, x: int)
    requires Fermat() && !Cong(f, 0) && Reduced(x) && Cong(x * f, n)
    ensures x == Prod(n, Inv(f)) % P
  {
    hide Inv;
    QuotientCong(n, f);
    var r := Prod(n, Inv(f)) % P;
    CongSym(r * f, n);
    CongTrans(x * f, n, r * f);
    assert x * f == f * x && r * f == f * r;
    CongCancel(f, x, r);
    ReducedUnique(x, r);
  }

  /** (f g)^2 (y^2 - x^2) in terms of the numerators x f and y g, and likewise the other side. */
  lemma Cleared(x: int, y: int, f: int, g: int)
    ensures ((f * f) * (g * g)) * (y * y - x * x) == ((y * g) * (y * g)) * (f * f) - ((x * f) * (x * f)) * (g * g)
    ensures ((f * f) * (g * g)) * (1 + D * ((x * y) * (x * y)))
         == (f * f) * (g * g) + D * (((x * f) * (x * f)) * ((y * g) * (y * g)))
  {
    SquareOfProduct(x, f);
    SquareOfProduct(y, g);
    SquareOfProduct(x, y);
    Clear2(x * x, y * y, f * f, g * g);
  }

  lemma Clear2(x: int, y: int, f: int, g: int)
    ensures (f * g) * (y - x) == (y * g) * f - (x * f) * g
    ensures (f * g) * (1 + D * (x * y)) == f * g + D * ((x * f) * (y * g))
  {
    assert (f * g) * (x * y) == (x * f) * (y * g);
  }

  /** The sum of two curve points is a curve point. */
  lemma Closed(p: Point, q: Point)
    requires Fermat() && OnCurve(p) && OnCurve(q)
    ensures OnCurve(Plus(p, q))
  {
    PlusIs(p, q);
    Complete(p, q);
    ClosureIdentity(p, q);
    hide K, Inv, Plus;
    var r, k, n1, n2 := Plus(p, q), K(p, q), p.x * q.y + q.x * p.y, p.y * q.y + p.x * q.x;
    var f, g := 1 + k, 1 - k;
    ReplaceSquare(r.x * f, n1, r.y * g, n2, f * f, g * g);
    Cleared(r.x, r.y, f, g);
    var w, lhs, rhs := (f * f) * (g * g), r.y * r.y - r.x * r.x, 1 + D * ((r.x * r.y) * (r.x * r.y));
    NoZeroDivisors(f, f);
    NoZeroDivisors(g, g);
    NoZeroDivisors(f * f, g * g);
    CongCancel(w, lhs, rhs);
    FromEquation(r);
  }

  lemma FromEquation(p: Point)
    requires Reduced(p.x) && Reduced(p.y)
    requires Cong(p.y * p.y - p.x * p.x, 1 + D * ((p.x * p.y) * (p.x * p.y)))
    ensures OnCurve(p)
  {
    ProdIs(p.x, p.y);
    ProdIs(p.x, p.x);
    ProdIs(p.y, p.y);
    ProdIs(p.x * p.y, p.x * p.y);
    ProdIs(D, (p.x * p.y) * (p.x * p.y));
  }

  /** Numerators may be replaced by what they are congruent to in the closure identity. */
  lemma ReplaceSquare(a: int, n1: int, b: int, n2: int, ff: int, gg: int)
    requires Cong(a, n1) && Cong(b, n2)
    requires Cong((n2 * n2) * ff - (n1 * n1) * gg, ff * gg + D * ((n1 * n1) * (n2 * n2)))
    ensures Cong((b * b) * ff - (a * a) * gg, ff * gg + D * ((a * a) * (b * b)))
  {
    CongMul(a, n1, a, n1);
    CongMul(b, n2, b, n2);
    CongRefl(ff);
    CongRefl(gg);
    CongRefl(ff * gg);
    CongMul(b * b, n2 * n2, ff, ff);
    CongMul(a * a, n1 * n1, gg, gg);
    CongAdd((b * b) * ff, (n2 * n2) * ff, (a * a) * gg, (n1 * n1) * gg);
    CongMul(a * a, n1 * n1, b * b, n2 * n2);
    CongScale(D, (a * a) * (b * b), (n1 * n1) * (n2 * n2));
    CongAdd(ff * gg, ff * gg, D * ((a * a) * (b * b)), D * ((n1 * n1) * (n2 * n2)));
    var l, l', r, r' := (b * b) * ff - (a * a) * gg, (n2 * n2) * ff - (n1 * n1) * gg,
      ff * gg + D * ((a * a) * (b * b)), ff * gg + D * ((n1 * n1) * (n2 * n2));
    CongTrans(l, l', r');
    CongSym(r, r');
    CongTrans(l, r', r);
  }

  /** The addition law determines the sum. */
  lemma PlusUnique(p: Point, q: Point, r: Point)
    requires Fermat() && OnCurve(p) && OnCurve(q) && Reduced(r.x) && Reduced(r.y)
    requires Cong(r.x * (1 + K(p, q)), p.x * q.y + q.x * p.y)
    requires Cong(r.y * (1 - K(p, q)), p.y * q.y + p.x * q.x)
    ensures r == Plus(p, q)
  {
    Complete(p, q);
    hide OnCurve, K, Inv;
    ProdIs(p.x, q.y);
    ProdIs(q.x, p.y);
    ProdIs(p.y, q.y);
    ProdIs(p.x, q.x);
    QuotientUnique(p.x * q.y + q.x * p.y, 1 + K(p, q), r.x);
    QuotientUnique(p.y * q.y + p.x * q.x, 1 - K(p, q), r.y);
  }

  lemma PlusComm(p: Point, q: Point)
    ensures Plus(p, q) == Plus(q, p)
  {
    KIs(p, q);
    KIs(q, p);
    assert (p.x * p.y) * (q.x * q.y) == (q.x * q.y) * (p.x * p.y);
    hide K, Inv;
    ProdIs(p.x, q.y);
    ProdIs(q.x, p.y);
    ProdIs(p.y, q.y);
    ProdIs(p.x, q.x);
    ProdIs(q.y, p.y);
    ProdIs(q.x, p.x);
  }

  lemma NeutralOnCurve()
    ensures OnCurve(NEUTRAL)
  {
    ReducedIs(0);
    ReducedIs(1);
    assert D * ((0 * 1) * (0 * 1)) == 0;
    CongRefl(1);
    FromEquation(NEUTRAL);
  }

  lemma PlusNeutral(p: Point)
    requires Fermat() && OnCurve(p)
    ensures Plus(p, NEUTRAL) == p
  {
    NeutralOnCurve();
    KIs(p, NEUTRAL);
    assert (p.x * p.y) * (0 * 1) == 0;
    hide OnCurve, K;
    assert p.x * (1 + K(p, NEUTRAL)) == p.x * 1 + 0 * p.y;
    assert p.y * (1 - K(p, NEUTRAL)) == p.y * 1 + p.x * 0;
    CongRefl(p.x * 1 + 0 * p.y);
    CongRefl(p.y * 1 + p.x * 0);
    OnCurveReduced(p);
    PlusUnique(p, NEUTRAL, p);
  }

  lemma OnCurveReduced(p: Point)
    requires OnCurve(p)
    ensures Reduced(p.x) && Reduced(p.y)
  {
  }

  /** Reflection in the y axis stays on the curve and gives the inverse. */
  lemma NegateIs(p: Point)
    requires Fermat() && OnCurve(p)
    ensures OnCurve(Negate(p)) && Plus(p, Negate(p)) == NEUTRAL
  {
    var n, x, y := Negate(p), p.x, p.y;
    CurveEquation(p);
    OnCurveReduced(p);
    hide OnCurve, K, Plus;
    ReducedMod(-x);
    CongMul(n.x, -x, n.x, -x);
    assert -x * -x == x * x;
    NegatedEquation(n.x, x, y);
    FromEquation(n);
    // the sum
    KIs(p, n);
    NegatedSum(x, y, n.x, K(p, n));
    ReducedIs(0);
    ReducedIs(1);
    PlusUnique(p, n, NEUTRAL);
  }

  lemma NegatedEquation(z: int, x: int, y: int)
    requires Cong(z * z, x * x) && Cong(y * y - x * x, 1 + D * ((x * y) * (x * y)))
    ensures Cong(y * y - z * z, 1 + D * ((z * y) * (z * y)))
  {
    CongRefl(y * y);
    CongAdd(y * y, y * y, z * z, x * x);
    CongMul(z * z, x * x, y * y, y * y);
    SquareOfProduct(z, y);
    SquareOfProduct(x, y);
    CongScale(D, (z * y) * (z * y), (x * y) * (x * y));
    CongRefl(1);
    CongAdd(1, 1, D * ((z * y) * (z * y)), D * ((x * y) * (x * y)));
    CongTrans(y * y - z * z, y * y - x * x, 1 + D * ((x * y) * (x * y)));
    CongSym(1 + D * ((z * y) * (z * y)), 1 + D * ((x * y) * (x * y)));
    CongTrans(y * y - z * z, 1 + D * ((x * y) * (x * y)), 1 + D * ((z * y) * (z * y)));
  }

  lemma NegatedSum(x: int, y: int, z: int, k: int)
    requires Cong(z, -x) && k == D * ((x * y) * (z * y))
    requires Cong(y * y - x * x, 1 + D * ((x * y) * (x * y)))
    ensures Cong(0 * (1 + k), x * y + z * y) && Cong(1 * (1 - k), y * y + x * z)
  {
    var a := x * y;
    // z y == -a, so the first numerator vanishes
    CongRefl(y);
    CongMul(z, -x, y, y);
    assert -x * y == -a && 0 * (1 + k) == 0;
    CongRefl(a);
    CongAdd(a, a, z * y, -a);
    CongSym(a + z * y, 0);
    // k == -d a^2 and x z == -x^2
    CongScale(a, z * y, -a);
    CongScale(D, a * (z * y), a * -a);
    assert D * (a * -a) == -(D * (a * a));
    CongRefl(1);
    CongAdd(1, 1, k, -(D * (a * a)));
    CongSym(y * y - x * x, 1 + D * (a * a));
    CongTrans(1 - k, 1 + D * (a * a), y * y - x * x);
    CongScale(x, z, -x);
    assert x * -x == -(x * x);
    CongRefl(y * y);
    CongAdd(y * y, y * y, x * z, -(x * x));
    CongSym(y * y + x * z, y * y - x * x);
    CongTrans(1 - k, y * y - x * x, y * y + x * z);
  }
}
