/**
 The map from the Edwards curve to Curve25519, v^2 = u^3 + 486662 u^2 + u (section 4.1 of
 RFC 7748), in one coordinate: u = (1 + y) / (1 - y).
 */
module Montgomery {
  import opened Arith
  import opened ModP
  import opened PrimeField
  import opened Edwards

  /** u = (1 + y) / (1 - y), and 0 for the neutral element. */
  ghost predicate IsU(u: int, p: Point) {
    Reduced(u) && if p == NEUTRAL then u == 0 else Cong(u * (1 - p.y), 1 + p.y)
  }

  /** A square root of -486664. */
  const SCALE: int := 0xf26edf460a006bbd27b08dc03fc4f7ec5a1d3d14b7d1a82cc6e04aaff457e06

  lemma ScaleIs()
    ensures Cong(SCALE * SCALE, -486664) && Cong(486664 * D, -486660)
  {
    CongBy(SCALE * SCALE, -486664, 0x1cb2b9c4a1ba8f948d3d4cd77137638805ae97cb5e641a3935f34d8fe3f4c5c);
    CongBy(486664 * D, -486660, 0x4c20c);
  }

  /** u^3 + 486662 u^2 + u */
  function Cubic(u: int): int {
    u * (u * u + 486662 * u + 1)
  }

  /** u^2 + 486662 u + 1 times w^2, with z = u w. */
  lemma ClearedFactor(u: int, w: int, z: int)
    requires z == u * w
    ensures (w * w) * (u * u + 486662 * u + 1) == z * z + 486662 * (z * w) + w * w
  {
    SquareOfProduct(u, w);
    var a, b := u * u, w * w;
    assert b * (486662 * u) == 486662 * (z * w);
    MulDistrib(a + 486662 * u, 1, b);
    MulDistrib(a, 486662 * u, b);
  }

  /** The right side, cleared of the denominator w = 1 - y. */
  lemma ClearedCubic(u: int, w: int, n: int)
    requires Cong(u * w, n)
    ensures Cong((w * (w * w)) * Cubic(u), n * (n * n + 486662 * (n * w) + w * w))
  {
    var z, f := u * w, u * u + 486662 * u + 1;
    ClearedFactor(u, w, z);
    Regrouped(u, w, w * w, f);
    CongRefl(w);
    CongRefl(w * w);
    CongMul(z, n, z, n);
    CongMul(z, n, w, w);
    CongScale(486662, z * w, n * w);
    CongAdd(z * z, n * n, 486662 * (z * w), 486662 * (n * w));
    CongAdd(z * z + 486662 * (z * w), n * n + 486662 * (n * w), w * w, w * w);
    CongMul(z, n, z * z + 486662 * (z * w) + w * w, n * n + 486662 * (n * w) + w * w);
  }

  lemma Regrouped(u: int, w: int, b: int, f: int)
    ensures (w * b) * (u * f) == (u * w) * (b * f)
  {
    assert (w * b) * (u * f) == (w * u) * (b * f);
  }

  /** With n = 1 + y and w = 1 - y, what is left of the right side. */
  lemma Quadratic(y: int)
    ensures var n, w := 1 + y, 1 - y;
      n * n + 486662 * (n * w) + w * w == 486664 - 486660 * (y * y)
  {
    var n, w := 1 + y, 1 - y;
    assert n * n == 1 + 2 * y + y * y && w * w == 1 - 2 * y + y * y && n * w == 1 - y * y;
  }

  /** The curve equation, as an equation between the two sides cleared of denominators. */
  lemma SidesAgree(x: int, y: int)
    requires Cong(y * y - x * x, 1 + D * ((x * y) * (x * y)))
    ensures Cong(-486664 * ((1 + y) * (1 - y)), (x * x) * (486664 - 486660 * (y * y)))
  {
    ScaleIs();
    var a, b := x * x, y * y;
    assert (1 + y) * (1 - y) == 1 - b;
    SquareOfProduct(x, y);
    // 1 - y^2 == -x^2 (1 + d y^2)
    CongRefl(a - 1);
    CongAdd(b - a, 1 + D * (a * b), a - 1, a - 1);
    CongScale(486664, b - 1, a + D * (a * b));
    assert 486664 * (b - 1) == -486664 * (1 - b);
    // 486664 d == -486660
    CongRefl(a * b);
    CongMul(486664 * D, -486660, a * b, a * b);
    CongRefl(486664 * a);
    CongAdd(486664 * a, 486664 * a, (486664 * D) * (a * b), -486660 * (a * b));
    assert 486664 * (a + D * (a * b)) == 486664 * a + (486664 * D) * (a * b);
    assert a * (486664 - 486660 * b) == 486664 * a - 486660 * (a * b);
    CongTrans(-486664 * (1 - b), 486664 * (a + D * (a * b)), a * (486664 - 486660 * b));
  }

  /** v = SCALE u / x */
  function VOf(u: int, x: int): int {
    (SCALE * u) * Inv(x)
  }

  /** The left side, cleared of its denominator. */
  lemma ClearedSquare(u: int, x: int)
    requires Fermat() && !Cong(x, 0)
    ensures Cong((x * x) * (VOf(u, x) * VOf(u, x)), -486664 * (u * u))
  {
    ScaleIs();
    InvIs(x);
    hide Fermat, Inv;
    var i, s := Inv(x), SCALE * u;
    var e := x * i;
    assert (x * x) * ((s * i) * (s * i)) == (e * e) * (s * s) by {
      Squares4(x, s, i);
    }
    CongMul(e, 1, e, 1);
    CongRefl(s * s);
    CongMul(e * e, 1 * 1, s * s, s * s);
    SquareOfProduct(SCALE, u);
    CongRefl(u * u);
    CongMul(SCALE * SCALE, -486664, u * u, u * u);
    CongTrans((e * e) * (s * s), s * s, -486664 * (u * u));
  }

  lemma Squares4(x: int, s: int, i: int)
    ensures (x * x) * ((s * i) * (s * i)) == ((x * i) * (x * i)) * (s * s)
  {
    SquareOfProduct(s, i);
    SquareOfProduct(x, i);
    var a, b, c := x * x, s * s, i * i;
    assert a * (b * c) == (a * c) * b;
  }

  /** The left side times w^3: w^3 (-486664 u^2) == n (-486664 n w). */
  lemma LeftCleared(u: int, w: int, n: int, t: int)
    requires Cong(u * w, n) && Cong(t, -486664 * (u * u))
    ensures Cong((w * (w * w)) * t, n * (-486664 * (n * w)))
  {
    var w3, z := w * (w * w), u * w;
    SquareOfProduct(u, w);
    MappedLeft(u, w);
    CongScale(w3, t, -486664 * (u * u));
    CongMul(z, n, z, n);
    CongScale(-486664 * w, z * z, n * n);
    LeftShape(n, w);
    CongTrans(w3 * t, (-486664 * w) * (z * z), n * (-486664 * (n * w)));
  }

  lemma LeftShape(n: int, w: int)
    ensures (-486664 * w) * (n * n) == n * (-486664 * (n * w))
  {
    assert w * (n * n) == n * (n * w);
  }

  lemma RightShape(n: int, a: int, q: int)
    ensures n * (a * q) == a * (n * q)
  {
  }

  lemma MappedSides(x: int, y: int, u: int)
    requires Fermat() && !Cong(x, 0) && Cong(u * (1 - y), 1 + y)
    requires Cong(y * y - x * x, 1 + D * ((x * y) * (x * y)))
    ensures var w := 1 - y; var k := (x * x) * (w * (w * w)); Cong(k * (VOf(u, x) * VOf(u, x)), k * Cubic(u))
  {
    var w, n, v := 1 - y, 1 + y, VOf(u, x);
    ClearedSquare(u, x);
    LeftCleared(u, w, n, (x * x) * (v * v));
    ClearedCubic(u, w, n);
    Quadratic(y);
    SidesAgree(x, y);
    Combined(x * x, w * (w * w), v * v, Cubic(u), n, -486664 * (n * w), 486664 - 486660 * (y * y));
  }

  lemma Combined(a: int, w3: int, v: int, c: int, n: int, l: int, q: int)
    requires Cong(w3 * (a * v), n * l) && Cong(w3 * c, n * q) && Cong(l, a * q)
    ensures Cong((a * w3) * v, (a * w3) * c)
  {
    CongScale(n, l, a * q);
    RightShape(n, a, q);
    CongScale(a, w3 * c, n * q);
    Chain(w3, a, v, c, n * l, a * (n * q));
  }

  lemma MappedLeft(u: int, w: int)
    requires (u * w) * (u * w) == (u * u) * (w * w)
    ensures (w * (w * w)) * (-486664 * (u * u)) == (-486664 * w) * ((u * w) * (u * w))
  {
    var a, b := u * u, w * w;
    assert (w * b) * (-486664 * a) == (-486664 * w) * (a * b);
  }

  lemma Chain(w3: int, a: int, v: int, c: int, l: int, r: int)
    requires Cong(w3 * (a * v), l) && Cong(l, r) && Cong(a * (w3 * c), r)
    ensures Cong((a * w3) * v, (a * w3) * c)
  {
    assert w3 * (a * v) == (a * w3) * v && a * (w3 * c) == (a * w3) * c;
    CongTrans(w3 * (a * v), l, r);
    CongSym(a * (w3 * c), r);
    CongTrans(w3 * (a * v), r, a * (w3 * c));
  }

  /** u is the coordinate of a point of Curve25519. */
  ghost predicate OnMontgomery(u: int) {
    exists v: int {:trigger Cong(v * v, Cubic(u))} :: Cong(v * v, Cubic(u))
  }

  lemma ZeroOnMontgomery()
    ensures OnMontgomery(0)
  {
    CongRefl(0);
    assert Cong(0 * 0, Cubic(0));
  }

  /** The map takes every point of the Edwards curve to Curve25519. */
  lemma MapsToMontgomery(p: Point, u: int)
    requires Fermat() && OnCurve(p) && IsU(u, p)
    ensures OnMontgomery(u)
  {
    CurveEquation(p);
    OnCurveReduced(p);
    var x, y := p.x, p.y;
    var w := 1 - y;
    hide OnCurve, Fermat;
    if p == NEUTRAL {
      ZeroOnMontgomery();
    } else if x == 0 {
      AxisPoint(p, u);
      ZeroOnMontgomery();
    } else {
      NotAxis(p);
      MappedSides(x, y, u);
      NoZeroDivisors(x, x);
      NoZeroDivisors(w, w);
      NoZeroDivisors(w, w * w);
      NoZeroDivisors(x * x, w * (w * w));
      var k, v := (x * x) * (w * (w * w)), VOf(u, x);
      CongCancel(k, v * v, Cubic(u));
    }
  }

  /** x = 0 leaves y = -1 beside the neutral element, and u = 0. */
  lemma AxisPoint(p: Point, u: int)
    requires Fermat() && OnCurve(p) && p.x == 0 && p != NEUTRAL && IsU(u, p)
    ensures u == 0
  {
    CurveEquation(p);
    OnCurveReduced(p);
    hide OnCurve, Fermat;
    var y := p.y;
    assert D * ((0 * y) * (0 * y)) == 0;
    CongRefl(1);
    CongAdd(y * y, 1, 1, 1);
    assert (1 - y) * (1 + y) == -(y * y - 1);
    CongScale(-1, y * y - 1, 0);
    ReducedIs(1);
    if Cong(1 - y, 0) {
      CongRefl(y);
      CongAdd(1 - y, 0, y, y);
      ReducedUnique(1, y);
    }
    if !Cong(1 + y, 0) {
      NoZeroDivisors(1 - y, 1 + y);
    }
    CongTrans(u * (1 - y), 1 + y, 0);
    ReducedIs(0);
    if !Cong(u, 0) {
      NoZeroDivisors(u, 1 - y);
    } else {
      ReducedUnique(u, 0);
    }
  }

  /** Off the axis, x and 1 - y do not vanish. */
  lemma NotAxis(p: Point)
    requires Fermat() && OnCurve(p) && p.x != 0
    ensures !Cong(p.x, 0) && !Cong(1 - p.y, 0)
  {
    OnCurveReduced(p);
    ReducedIs(0);
    ReducedIs(1);
    var x, y := p.x, p.y;
    if Cong(x, 0) {
      ReducedUnique(x, 0);
    }
    if Cong(1 - y, 0) {
      CongRefl(y);
      CongAdd(1 - y, 0, y, y);
      ReducedUnique(1, y);
      CurveEquation(p);
      OneOnCurve(x);
      TwoIsUnit();
      hide OnCurve, Fermat;
      NoZeroDivisors(x, x);
      DPlusOne();
      NoZeroDivisors(x * x, 1 + D);
    }
  }

  /** y = 1 makes x^2 (1 + d) vanish. */
  lemma OneOnCurve(x: int)
    requires Cong(1 * 1 - x * x, 1 + D * ((x * 1) * (x * 1)))
    ensures Cong((x * x) * (1 + D), 0)
  {
    var a := x * x;
    CongRefl(a - 1);
    CongAdd(1 - a, 1 + D * a, a - 1, a - 1);
    assert (1 + D) * a == a + D * a;
    CongSym(0, a + D * a);
  }

  lemma DPlusOne()
    ensures !Cong(1 + D, 0)
  {
    CongMod(1 + D, 0);
  }

  /** z + y over z - y, from any coordinates of the point. */
  lemma RatioIsU(p: Point, y: int, z: int, i: int, out: int)
    requires Fermat() && OnCurve(p) && !Cong(z, 0) && Cong(y, Prod(p.y, z))
    requires Cong(i, Pow(z - y, P - 2)) && Cong(out, (y + z) * i)
    ensures IsU(out % P, p)
  {
    ReducedMod(out);
    OnCurveReduced(p);
    ProdIs(p.y, z);
    hide OnCurve;
    var w, n := z - y, y + z;
    CongRefl(z);
    CongAdd(z, z, y, p.y * z);
    assert z - p.y * z == z * (1 - p.y) && z + p.y * z == z * (1 + p.y);
    if p == NEUTRAL {
      ZeroInverse(w, i, n, out);
    } else {
      OnlyNeutral(p);
      hide Fermat;
      NoZeroDivisors(z, 1 - p.y);
      if Cong(w, 0) {
        CongSym(w, z * (1 - p.y));
        CongTrans(z * (1 - p.y), w, 0);
      }
      InvIs(w);
      Divided(z, 1 - p.y, 1 + p.y, w, n, i, out);
    }
  }

  /** The neutral element is the only point with y = 1. */
  lemma OnlyNeutral(p: Point)
    requires Fermat() && OnCurve(p) && p != NEUTRAL
    ensures !Cong(1 - p.y, 0)
  {
    OnCurveReduced(p);
    if p.x != 0 {
      NotAxis(p);
    } else if Cong(1 - p.y, 0) {
      ReducedIs(1);
      CongRefl(p.y);
      CongAdd(1 - p.y, 0, p.y, p.y);
      ReducedUnique(1, p.y);
    }
  }

  /** A vanishing denominator gives zero. */
  lemma ZeroInverse(w: int, i: int, n: int, out: int)
    requires Cong(w, 0) && Cong(i, Pow(w, P - 2)) && Cong(out, n * i)
    ensures out % P == 0
  {
    CongPow(w, 0, P - 2);
    assert Pow(0, P - 2) == 0 * Pow(0, P - 3);
    CongTrans(i, Pow(w, P - 2), 0);
    ZeroMul(i, n);
    CongTrans(out, n * i, 0);
    CongMod(out, 0);
  }

  lemma Divided(z: int, c: int, e: int, w: int, n: int, i: int, out: int)
    requires Fermat() && !Cong(z, 0) && Cong(w, z * c) && Cong(n, z * e)
    requires Cong(i, Inv(w)) && Cong(w * Inv(w), 1) && Cong(out, n * i)
    ensures Cong((out % P) * c, e)
  {
    hide Fermat, Inv;
    CongOfMod(out);
    CongTrans(out % P, out, n * i);
    // out w == n
    CongScale(w, i, Inv(w));
    CongTrans(w * i, w * Inv(w), 1);
    CongRefl(w);
    CongMul(out % P, n * i, w, w);
    CongScale(n, w * i, 1);
    assert (n * i) * w == n * (w * i) && n * 1 == n;
    CongTrans((out % P) * w, n * (w * i), n);
    CongTrans((out % P) * w, n, z * e);
    // z out c == z e
    CongScale(out % P, w, z * c);
    CongSym((out % P) * w, (out % P) * (z * c));
    CongTrans((out % P) * (z * c), (out % P) * w, z * e);
    assert (out % P) * (z * c) == z * ((out % P) * c);
    CongCancel(z, (out % P) * c, e);
  }
}
