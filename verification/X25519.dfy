/**
 The function X25519 of section 5 of RFC 7748, a ladder on u coordinates, and what it
 computes: the u coordinate of a multiple of a point of the Edwards curve.
 */
module X25519 {
  import opened Arith
  import opened ModP
  import opened PrimeField
  import opened Edwards
  import opened Compression
  import opened ScalarMult
  import opened Montgomery

  /** (486662 - 2) / 4 */
  const A24: int := 121665

  // Field elements are kept unreduced; only the result is reduced.
  datatype Rungs = Rungs(x2: int, z2: int, x3: int, z3: int)

  function Crossed(s: Rungs): Rungs {
    Rungs(s.x3, s.z3, s.x2, s.z2)
  }

  /** (x2 : z2) doubled. */
  function DoubleX(x: int, z: int): int {
    ((x + z) * (x + z)) * ((x - z) * (x - z))
  }

  function DoubleZ(x: int, z: int): int {
    var aa, bb := (x + z) * (x + z), (x - z) * (x - z);
    var e := aa - bb;
    e * (aa + A24 * e)
  }

  /** (x2 : z2) and (x3 : z3) added, given that their difference has coordinate u. */
  function AddX(s: Rungs): int {
    var da, cb := (s.x3 - s.z3) * (s.x2 + s.z2), (s.x3 + s.z3) * (s.x2 - s.z2);
    (da + cb) * (da + cb)
  }

  function AddZ(u: int, s: Rungs): int {
    var da, cb := (s.x3 - s.z3) * (s.x2 + s.z2), (s.x3 + s.z3) * (s.x2 - s.z2);
    u * ((da - cb) * (da - cb))
  }

  function Rung(u: int, s: Rungs): Rungs {
    Rungs(DoubleX(s.x2, s.z2), DoubleZ(s.x2, s.z2), AddX(s), AddZ(u, s))
  }

  /** k shifted right by t bits. */
  function From(k: nat, t: nat): nat {
    if t == 0 then k else From(k, t - 1) / 2
  }

  /** The loop over the low t bits of k, with the delayed swap. */
  function Climb(k: nat, t: nat, u: int, s: Rungs, swap: int): Rungs {
    if t == 0 then if swap == 1 then Crossed(s) else s
    else
      var bit := From(k, t - 1) % 2;
      Climb(k, t - 1, u, Rung(u, if swap != bit then Crossed(s) else s), bit)
  }

  function Evaluate(k: nat, u: int): int {
    var s := Climb(k, 255, u, Rungs(1, 0, u, 1), 0);
    (s.x2 * Pow(s.z2, P - 2)) % P
  }

  /** (x : z) is (1 + y : 1 - y). */
  ghost predicate Rep(x: int, z: int, y: int) {
    Cong(x - z, y * (x + z)) && !Cong(x + z, 0)
  }

  /** 121666 (d + 1) == 1 */
  lemma DConstant()
    ensures Cong(121666 * D, -121665) && !Cong(121666, 0)
  {
    CongMod(121666 * D, -121665);
    CongMod(121666, 0);
  }

  // Doubling, with w = y^2 and a = x^2.

  /** (1 + d w) a == w - 1 */
  lemma Curved(d: int, x: int, y: int)
    requires Cong(y * y - x * x, 1 + d * ((x * y) * (x * y)))
    ensures Cong((1 + d * (y * y)) * (x * x), y * y - 1)
  {
    var a, w := x * x, y * y;
    SquareOfProduct(x, y);
    CongRefl(a - 1);
    CongAdd(w - a, 1 + d * (a * w), a - 1, a - 1);
    MulDistrib(1, d * w, a);
    assert (d * w) * a == d * (a * w);
    CongSym(w - 1, a + d * (a * w));
  }

  /** The denominator and the numerator of 2P, times 1 + d w. */
  lemma DoubledParts(d: int, a: int, w: int)
    requires Cong((1 + d * w) * a, w - 1)
    ensures Cong((1 + d * w) * (1 - d * (a * w)), 1 + 2 * (d * w) - (d * w) * w)
    ensures Cong((1 + d * w) * (w + a), 2 * w - 1 + (d * w) * w)
  {
    var e := d * w;
    var f := 1 + e;
    CongScale(e, f * a, w - 1);
    assert e * (f * a) == f * (d * (a * w));
    assert e * (w - 1) == e * w - e;
    CongRefl(f);
    CongAdd(f, f, f * (d * (a * w)), e * w - e);
    assert f * (1 - d * (a * w)) == f - f * (d * (a * w));
    CongRefl(f * w);
    CongAdd(f * w, f * w, f * a, w - 1);
    assert f * (w + a) == f * w + f * a && f * w == w + e * w;
  }

  /** 1 + 121665 (1 - w) == 121666 (1 + d w) */
  lemma A24Is(d: int, w: int)
    requires Cong(121666 * d, -121665)
    ensures Cong(1 + A24 * (1 - w), 121666 * (1 + d * w))
  {
    CongRefl(w);
    CongMul(121666 * d, -121665, w, w);
    CongRefl(121666);
    CongAdd(121666, 121666, (121666 * d) * w, -121665 * w);
    assert 121666 * (1 + d * w) == 121666 + (121666 * d) * w;
    CongSym(121666 * (1 + d * w), 121666 - 121665 * w);
  }

  /** x' == 121666 (d + 1) w q and z' == 121666 (1 - w)(1 + d w) q, with q = (x + z)^4. */
  lemma DoubledIs(d: int, x: int, z: int, y: int)
    requires Cong(121666 * d, -121665)
    requires Cong(x - z, y * (x + z))
    ensures var w, aa := y * y, (x + z) * (x + z);
      && Cong(DoubleX(x, z), (121666 * ((d + 1) * w)) * (aa * aa))
      && Cong(DoubleZ(x, z), (121666 * ((1 - w) * (1 + d * w))) * (aa * aa))
  {
    var a, b, w := x + z, x - z, y * y;
    var aa, bb := a * a, b * b;
    CongMul(b, y * a, b, y * a);
    SquareOfProduct(y, a);
    DoubledX(d, w, aa, bb);
    DoubledZ(d, w, aa, bb);
  }

  lemma DoubledX(d: int, w: int, aa: int, bb: int)
    requires Cong(121666 * d, -121665)
    requires Cong(bb, w * aa)
    ensures Cong(aa * bb, (121666 * ((d + 1) * w)) * (aa * aa))
  {
    CongScale(aa, bb, w * aa);
    var q := aa * aa;
    assert aa * (w * aa) == w * q;
    // 121666 (d + 1) == 1
    CongRefl(121666);
    CongAdd(121666 * d, -121665, 121666, 121666);
    CongRefl(w * q);
    CongMul(121666 * d + 121666, 1, w * q, w * q);
    assert (121666 * d + 121666) * (w * q) == (121666 * ((d + 1) * w)) * q by {
      assert 121666 * d + 121666 == 121666 * (d + 1);
      Assoc4(121666, d + 1, w, q);
    }
    CongSym((121666 * ((d + 1) * w)) * q, w * q);
    CongTrans(aa * bb, w * q, (121666 * ((d + 1) * w)) * q);
  }

  lemma Assoc4(p: int, q: int, r: int, s: int)
    ensures (p * q) * (r * s) == (p * (q * r)) * s
  {
    assert (p * q) * r == p * (q * r);
  }

  lemma DoubledZ(d: int, w: int, aa: int, bb: int)
    requires Cong(121666 * d, -121665)
    requires Cong(bb, w * aa)
    ensures var e := aa - bb; Cong(e * (aa + A24 * e), (121666 * ((1 - w) * (1 + d * w))) * (aa * aa))
  {
    var e, f := aa - bb, 121666 * (1 + d * w);
    CongRefl(aa);
    CongAdd(aa, aa, bb, w * aa);
    MulDistrib(1, w, aa);
    assert Cong(e, (1 - w) * aa);
    CongScale(A24, e, (1 - w) * aa);
    CongAdd(aa, aa, A24 * e, A24 * ((1 - w) * aa));
    assert aa + A24 * ((1 - w) * aa) == (1 + A24 * (1 - w)) * aa;
    A24Is(d, w);
    CongMul(1 + A24 * (1 - w), f, aa, aa);
    CongTrans(aa + A24 * e, (1 + A24 * (1 - w)) * aa, f * aa);
    CongMul(e, (1 - w) * aa, aa + A24 * e, f * aa);
    Squared4(1 - w, 1 + d * w, aa);
  }

  lemma Squared4(g: int, h: int, aa: int)
    ensures (g * aa) * ((121666 * h) * aa) == (121666 * (g * h)) * (aa * aa)
  {
    assert (g * aa) * ((121666 * h) * aa) == (g * (121666 * h)) * (aa * aa);
    assert g * (121666 * h) == 121666 * (g * h);
  }

  /** What the two brackets add up to. */
  lemma Brackets(d: int, w: int)
    ensures (d + 1) * w + (1 - w) * (1 + d * w) == 1 + 2 * (d * w) - (d * w) * w
    ensures (d + 1) * w - (1 - w) * (1 + d * w) == 2 * w - 1 + (d * w) * w
  {
    var e := d * w;
    assert (d + 1) * w == e + w;
    assert (1 - w) * (1 + e) == 1 + e - w - e * w;
  }

  lemma Factored(f: int, q: int, b1: int, b2: int)
    ensures (f * b1) * q + (f * b2) * q == (f * q) * (b1 + b2) && (f * b1) * q - (f * b2) * q == (f * q) * (b1 - b2)
  {
    assert (f * b1) * q == (f * q) * b1 && (f * b2) * q == (f * q) * b2;
    MulDistrib(b1, b2, f * q);
  }

  /** If sum == f m and diff == f n with y2 m == n, then diff == y2 sum. */
  lemma SameRatio(sum: int, diff: int, f: int, m: int, n: int, y2: int)
    requires Cong(sum, f * m) && Cong(diff, f * n) && Cong(y2 * m, n)
    ensures Cong(diff, y2 * sum)
  {
    CongScale(y2, sum, f * m);
    assert y2 * (f * m) == f * (y2 * m);
    CongScale(f, y2 * m, n);
    CongTrans(y2 * sum, f * (y2 * m), f * n);
    CongSym(y2 * sum, f * n);
    CongTrans(diff, f * n, y2 * sum);
  }

  /** The sum and the difference of the doubled coordinates. */
  lemma DoubledSums(d: int, x: int, z: int, y: int, a: int)
    requires Cong(121666 * d, -121665)
    requires Cong(x - z, y * (x + z)) && Cong((1 + d * (y * y)) * a, y * y - 1)
    ensures var w, aa := y * y, (x + z) * (x + z); var f := (121666 * (aa * aa)) * (1 + d * w);
      && Cong(DoubleX(x, z) + DoubleZ(x, z), f * (1 - d * (a * w)))
      && Cong(DoubleX(x, z) - DoubleZ(x, z), f * (w + a))
  {
    var w, aa := y * y, (x + z) * (x + z);
    var q, g, h := aa * aa, (d + 1) * w, (1 - w) * (1 + d * w);
    DoubledIs(d, x, z, y);
    var dx, dz := DoubleX(x, z), DoubleZ(x, z);
    hide DoubleX, DoubleZ;
    CongAdd(dx, (121666 * g) * q, dz, (121666 * h) * q);
    Factored(121666, q, g, h);
    Brackets(d, w);
    DoubledParts(d, a, w);
    var c, u := 121666 * q, 1 + d * w;
    Pushed(dx + dz, c, g + h, u, 1 - d * (a * w));
    Pushed(dx - dz, c, g - h, u, w + a);
  }

  lemma Pushed(s: int, c: int, b: int, u: int, m: int)
    requires Cong(s, c * b) && Cong(u * m, b)
    ensures Cong(s, (c * u) * m)
  {
    CongSym(u * m, b);
    CongScale(c, b, u * m);
    assert c * (u * m) == (c * u) * m;
    CongTrans(s, c * b, (c * u) * m);
  }

  lemma DoubleCore(d: int, x: int, z: int, y: int, a: int, y2: int)
    requires Fermat() && Rep(x, z, y) && Cong(121666 * d, -121665) && !Cong(121666, 0)
    requires var w := y * y; Cong((1 + d * w) * a, w - 1) && Cong(y2 * (1 - d * (a * w)), w + a)
    requires var w := y * y; !Cong(1 + d * w, 0) && !Cong(1 - d * (a * w), 0)
    ensures Rep(DoubleX(x, z), DoubleZ(x, z), y2)
  {
    hide Fermat;
    var w, aa := y * y, (x + z) * (x + z);
    var m, h := 1 - d * (a * w), 1 + d * w;
    var f := (121666 * (aa * aa)) * h;
    DoubledSums(d, x, z, y, a);
    var dx, dz := DoubleX(x, z), DoubleZ(x, z);
    hide DoubleX, DoubleZ;
    SameRatio(dx + dz, dx - dz, f, m, w + a, y2);
    NoZeroDivisors(x + z, x + z);
    NoZeroDivisors(aa, aa);
    NoZeroDivisors(121666, aa * aa);
    NoZeroDivisors(121666 * (aa * aa), h);
    NoZeroDivisors(f, m);
    NonzeroCong(dx + dz, f * m);
  }

  /** The doubling of the ladder is the doubling of the curve. */
  lemma DoubleRep(x: int, z: int, p: Point)
    requires Fermat() && OnCurve(p) && Rep(x, z, p.y)
    ensures Rep(DoubleX(x, z), DoubleZ(x, z), Plus(p, p).y)
  {
    CurveEquation(p);
    PlusIs(p, p);
    Complete(p, p);
    KIs(p, p);
    OneUnit(p.y);
    DConstant();
    SquareOfProduct(p.x, p.y);
    hide OnCurve, Plus, K, Fermat, DoubleX, DoubleZ, Rep;
    Curved(D, p.x, p.y);
    DoubleCore(D, x, z, p.y, p.x * p.x, Plus(p, p).y);
  }

  lemma OneUnit(y: int)
    requires Fermat()
    ensures !Cong(1 + D * (y * y), 0)
  {
    DenNonzero(y);
    ProdIs(y, y);
    ProdIs(y * y, D);
  }

  lemma NonzeroCong(a: int, b: int)
    requires Cong(a, b) && !Cong(b, 0)
    ensures !Cong(a, 0)
  {
    CongSym(a, b);
    if Cong(a, 0) {
      CongTrans(b, a, 0);
    }
  }

  // Differential addition, with s = (y1 + y2)^2, t = (y1 - y2)^2, m = y1 y2 and n = x1 x2.

  /** The product of the two curve equations, in two ways. */
  lemma ProductOfCurves(d: int, y1: int, y2: int, a1: int, a2: int)
    requires Cong((1 + d * (y1 * y1)) * a1, y1 * y1 - 1) && Cong((1 + d * (y2 * y2)) * a2, y2 * y2 - 1)
    ensures var m, s, t := y1 * y2, (y1 + y2) * (y1 + y2), (y1 - y2) * (y1 - y2);
      && Cong((a1 * a2) * ((1 + d * m) * (1 + d * m) + d * t), (1 - m) * (1 - m) - t)
      && Cong((a1 * a2) * ((1 - d * m) * (1 - d * m) + d * s), (1 + m) * (1 + m) - s)
  {
    var w1, w2, m := y1 * y1, y2 * y2, y1 * y2;
    SquareOfProduct(y1, y2);
    Expanded(y1, y2);
    CongMul((1 + d * w1) * a1, w1 - 1, (1 + d * w2) * a2, w2 - 1);
    assert ((1 + d * w1) * a1) * ((1 + d * w2) * a2) == (a1 * a2) * ((1 + d * w1) * (1 + d * w2)) by {
      Exchange(1 + d * w1, a1, 1 + d * w2, a2);
    }
    Denominators(d, w1, w2, m);
    assert (w1 - 1) * (w2 - 1) == m * m - w1 - w2 + 1;
    assert (1 - m) * (1 - m) == 1 - 2 * m + m * m && (1 + m) * (1 + m) == 1 + 2 * m + m * m;
  }

  lemma Exchange(a: int, b: int, c: int, e: int)
    ensures (a * b) * (c * e) == (b * e) * (a * c)
  {
    assert (a * b) * (c * e) == (a * c) * (b * e);
  }

  lemma Expanded(y1: int, y2: int)
    ensures (y1 + y2) * (y1 + y2) == y1 * y1 + y2 * y2 + 2 * (y1 * y2)
    ensures (y1 - y2) * (y1 - y2) == y1 * y1 + y2 * y2 - 2 * (y1 * y2)
  {
  }

  lemma Denominators(d: int, w1: int, w2: int, m: int)
    requires w1 * w2 == m * m
    ensures (1 + d * w1) * (1 + d * w2) == (1 + d * m) * (1 + d * m) + d * (w1 + w2 - 2 * m)
    ensures (1 + d * w1) * (1 + d * w2) == (1 - d * m) * (1 - d * m) + d * (w1 + w2 + 2 * m)
  {
    var e := d * m;
    assert (1 + d * w1) * (1 + d * w2) == 1 + d * w1 + d * w2 + (d * w1) * (d * w2);
    assert (d * w1) * (d * w2) == (d * d) * (w1 * w2) && e * e == (d * d) * (m * m) by {
      SquareOfProduct(d, m);
      SquareFactor(d, w1, w2);
    }
    assert (1 + e) * (1 + e) == 1 + 2 * e + e * e && (1 - e) * (1 - e) == 1 - 2 * e + e * e;
    assert d * (w1 + w2 - 2 * m) == d * w1 + d * w2 - 2 * e && d * (w1 + w2 + 2 * m) == d * w1 + d * w2 + 2 * e;
  }

  lemma SquareFactor(d: int, w1: int, w2: int)
    ensures (d * w1) * (d * w2) == (d * d) * (w1 * w2)
  {
    assert (d * w1) * (d * w2) == d * (w1 * (d * w2));
  }

  /** From n2 (p + d t) == u - t, that u - n2 p == t (1 + n2 d). */
  lemma Transposed(d: int, n2: int, p: int, t: int, u: int)
    requires Cong(n2 * (p + d * t), u - t)
    ensures Cong(u - n2 * p, t * (1 + n2 * d))
  {
    CongSym(n2 * (p + d * t), u - t);
    CongRefl(t - n2 * p);
    CongAdd(u - t, n2 * (p + d * t), t - n2 * p, t - n2 * p);
    assert n2 * (p + d * t) == n2 * p + n2 * (d * t);
    assert t * (1 + n2 * d) == t + n2 * (d * t);
  }

  /** The products of the cleared denominators and numerators, with k = n e. */
  lemma ClearedProducts(n: int, m: int, e: int)
    ensures var k := n * e;
      && (1 - k - m - n) * (1 + k - m + n) == (1 - m) * (1 - m) - (n * n) * ((1 + e) * (1 + e))
      && (1 - k + m + n) * (1 + k + m - n) == (1 + m) * (1 + m) - (n * n) * ((1 - e) * (1 - e))
  {
    var k := n * e;
    MulDistrib(1, e, n);
    Conjugates(1 - m, n * (1 + e));
    Conjugates(1 + m, n * (1 - e));
    SquareOfProduct(n, 1 + e);
    SquareOfProduct(n, 1 - e);
    var f, g := n * (1 + e), n * (1 - e);
    assert f == k + n && g == n - k;
    assert (1 - m) - f == 1 - k - m - n && (1 - m) + f == 1 + k - m + n;
    assert (1 + m) + g == 1 - k + m + n && (1 + m) - g == 1 + k + m - n;
  }

  /** s (1 - yS)(1 - yD) == t (1 + yS)(1 + yD), both times 1 - k^2. */
  lemma Differential(d: int, n: int, m: int, s: int, t: int)
    requires Cong((n * n) * ((1 + d * m) * (1 + d * m) + d * t), (1 - m) * (1 - m) - t)
    requires Cong((n * n) * ((1 - d * m) * (1 - d * m) + d * s), (1 + m) * (1 + m) - s)
    ensures var k := d * (n * m);
      Cong(s * ((1 - k - m - n) * (1 + k - m + n)), t * ((1 - k + m + n) * (1 + k + m - n)))
  {
    var n2, e := n * n, d * m;
    assert d * (n * m) == n * e;
    ClearedProducts(n, m, e);
    var p, q, u, v := (1 + e) * (1 + e), (1 - e) * (1 - e), (1 - m) * (1 - m), (1 + m) * (1 + m);
    Transposed(d, n2, p, t, u);
    Transposed(d, n2, q, s, v);
    BothScaled(s, t, u - n2 * p, v - n2 * q, 1 + n2 * d);
  }

  lemma BothScaled(s: int, t: int, a: int, b: int, c: int)
    requires Cong(a, t * c) && Cong(b, s * c)
    ensures Cong(s * a, t * b)
  {
    CongScale(s, a, t * c);
    CongScale(t, b, s * c);
    assert s * (t * c) == t * (s * c);
    CongSym(t * b, t * (s * c));
    CongTrans(s * a, s * (t * c), t * b);
  }

  lemma Conjugates(a: int, b: int)
    ensures (a - b) * (a + b) == a * a - b * b
  {
  }

  /** 1 - y and 1 + y from y g == h. */
  lemma OneMinus(y: int, g: int, h: int)
    requires Cong(y * g, h)
    ensures Cong(g * (1 - y), g - h) && Cong(g * (1 + y), g + h)
  {
    CongRefl(g);
    CongAdd(g, g, y * g, h);
    assert g * (1 - y) == g - y * g && g * (1 + y) == g + y * g;
  }

  /** s (1 - yS) == u t (1 + yS), when u is the coordinate of the difference. */
  lemma SumCoordinate(d: int, n: int, m: int, s: int, t: int, yS: int, yD: int, u: int)
    requires Fermat()
    requires Cong((n * n) * ((1 + d * m) * (1 + d * m) + d * t), (1 - m) * (1 - m) - t)
    requires Cong((n * n) * ((1 - d * m) * (1 - d * m) + d * s), (1 + m) * (1 + m) - s)
    requires var k := d * (n * m);
      Cong(yS * (1 - k), m + n) && Cong(yD * (1 + k), m - n) && !Cong(1 - k, 0) && !Cong(1 + k, 0)
    requires Cong(u * (1 - yD), 1 + yD) && !Cong(1 - yD, 0)
    ensures Cong(s * (1 - yS), (u * t) * (1 + yS))
  {
    hide Fermat;
    var k := d * (n * m);
    var g, h := 1 - k, 1 + k;
    Differential(d, n, m, s, t);
    OneMinus(yS, g, m + n);
    OneMinus(yD, h, m - n);
    Gather(s, g, 1 - yS, g - (m + n), h, 1 - yD, h - (m - n));
    Gather(t, g, 1 + yS, g + (m + n), h, 1 + yD, h + (m - n));
    var x, y := s * ((1 - yS) * (1 - yD)), t * ((1 + yS) * (1 + yD));
    CongTrans((g * h) * x, s * ((g - (m + n)) * (h - (m - n))), t * ((g + (m + n)) * (h + (m - n))));
    CongSym((g * h) * y, t * ((g + (m + n)) * (h + (m - n))));
    CongTrans((g * h) * x, t * ((g + (m + n)) * (h + (m - n))), (g * h) * y);
    NoZeroDivisors(g, h);
    CongCancel(g * h, x, y);
    DivideByDifference(s, t, yS, yD, u);
  }

  lemma Gather(s: int, g: int, a: int, c: int, h: int, b: int, e: int)
    requires Cong(g * a, c) && Cong(h * b, e)
    ensures Cong((g * h) * (s * (a * b)), s * (c * e))
  {
    CongMul(g * a, c, h * b, e);
    CongScale(s, (g * a) * (h * b), c * e);
    assert (g * a) * (h * b) == (g * h) * (a * b);
    assert s * ((g * h) * (a * b)) == (g * h) * (s * (a * b));
  }

  lemma DivideByDifference(s: int, t: int, yS: int, yD: int, u: int)
    requires Fermat() && Cong(s * ((1 - yS) * (1 - yD)), t * ((1 + yS) * (1 + yD)))
    requires Cong(u * (1 - yD), 1 + yD) && !Cong(1 - yD, 0)
    ensures Cong(s * (1 - yS), (u * t) * (1 + yS))
  {
    hide Fermat;
    var w, a, b := 1 - yD, 1 - yS, 1 + yS;
    CongSym(u * w, 1 + yD);
    CongScale(t * b, 1 + yD, u * w);
    assert (t * b) * (1 + yD) == t * (b * (1 + yD)) && (t * b) * (u * w) == w * ((u * t) * b);
    assert s * (a * w) == w * (s * a);
    CongTrans(w * (s * a), t * (b * (1 + yD)), w * ((u * t) * b));
    CongCancel(w, s * a, (u * t) * b);
  }

  /** AddX == s g and AddZ == u t g, with g = ((x2 + z2)(x3 + z3))^2. */
  lemma AddedIs(u: int, r: Rungs, y1: int, y2: int)
    requires Cong(r.x2 - r.z2, y1 * (r.x2 + r.z2)) && Cong(r.x3 - r.z3, y2 * (r.x3 + r.z3))
    ensures var g0 := (r.x3 + r.z3) * (r.x2 + r.z2);
      && Cong(AddX(r), ((y1 + y2) * (y1 + y2)) * (g0 * g0))
      && Cong(AddZ(u, r), (u * ((y1 - y2) * (y1 - y2))) * (g0 * g0))
  {
    var a, c, g0 := r.x2 + r.z2, r.x3 + r.z3, (r.x3 + r.z3) * (r.x2 + r.z2);
    var da, cb := (r.x3 - r.z3) * a, c * (r.x2 - r.z2);
    CrossTerms(r.x2 - r.z2, a, r.x3 - r.z3, c, y1, y2);
    CongAdd(da, y2 * g0, cb, y1 * g0);
    MulDistrib(y2, y1, g0);
    SquareCong(da + cb, y2 + y1, g0);
    SquareCong(da - cb, y2 - y1, g0);
    NegatedSquare(y1, y2);
    CongScale(u, (da - cb) * (da - cb), ((y1 - y2) * (y1 - y2)) * (g0 * g0));
    MulAssoc3(u, (y1 - y2) * (y1 - y2), g0 * g0);
  }

  lemma CrossTerms(b: int, a: int, e: int, c: int, y1: int, y2: int)
    requires Cong(b, y1 * a) && Cong(e, y2 * c)
    ensures Cong(e * a, y2 * (c * a)) && Cong(c * b, y1 * (c * a))
  {
    CongRefl(a);
    CongMul(e, y2 * c, a, a);
    CongScale(c, b, y1 * a);
    assert (y2 * c) * a == y2 * (c * a);
    assert c * (y1 * a) == y1 * (c * a);
  }

  lemma SquareCong(a: int, y: int, g: int)
    requires Cong(a, y * g)
    ensures Cong(a * a, (y * y) * (g * g))
  {
    CongMul(a, y * g, a, y * g);
    SquareOfProduct(y, g);
  }

  lemma NegatedSquare(a: int, b: int)
    ensures (b - a) * (b - a) == (a - b) * (a - b)
  {
  }

  lemma MulAssoc3(a: int, b: int, c: int)
    ensures a * (b * c) == (a * b) * c
  {
  }

  /** The shape of the result: from s (1 - y) == v (1 + y), that s g - v g == y (s g + v g). */
  lemma FromCross(x: int, z: int, s: int, v: int, g: int, y: int)
    requires Cong(x, s * g) && Cong(z, v * g) && Cong(s * (1 - y), v * (1 + y))
    ensures Cong(x - z, y * (x + z)) && Cong(x + z, (s + v) * g) && Cong(s - v, y * (s + v))
  {
    CongAdd(x, s * g, z, v * g);
    MulDistrib(s, v, g);
    CongRefl(y * s - v);
    CongAdd(s * (1 - y), v * (1 + y), y * s - v, y * s - v);
    assert s * (1 - y) + (y * s - v) == s - v && v * (1 + y) + (y * s - v) == y * (s + v);
    CongRefl(g);
    CongMul(s - v, y * (s + v), g, g);
    CongScale(y, x + z, (s + v) * g);
    assert (y * (s + v)) * g == y * ((s + v) * g);
    CongSym(y * (x + z), y * ((s + v) * g));
    CongTrans(x - z, (s - v) * g, y * ((s + v) * g));
    CongTrans(x - z, y * ((s + v) * g), y * (x + z));
  }

  /** Two points with y = 0 differ by one with y^2 = 1. */
  lemma DifferenceOfRoots(d: int, y1: int, y2: int, a1: int, a2: int, n: int, yD: int)
    requires Cong(y1, 0) && Cong(y2, 0) && n * n == a1 * a2
    requires Cong((1 + d * (y1 * y1)) * a1, y1 * y1 - 1) && Cong((1 + d * (y2 * y2)) * a2, y2 * y2 - 1)
    requires Cong(yD * (1 + d * (n * (y1 * y2))), y1 * y2 - n)
    ensures Cong(yD * yD, 1)
  {
    MinusOneSquare(d, y1, a1);
    MinusOneSquare(d, y2, a2);
    CongMul(a1, -1, a2, -1);
    ZeroMul(y1, y2);
    var m := y1 * y2;
    var k := d * (n * m);
    ZeroMul(m, d * n);
    assert (d * n) * m == k;
    CongRefl(1);
    CongAdd(1, 1, k, 0);
    CongScale(yD, 1 + k, 1);
    CongRefl(n);
    CongAdd(m, 0, n, n);
    CongSym(yD * (1 + k), yD);
    CongTrans(yD, yD * (1 + k), m - n);
    CongTrans(yD, m - n, -n);
    CongMul(yD, -n, yD, -n);
    assert -n * -n == n * n;
    CongTrans(yD * yD, n * n, 1);
  }

  /** y = 0 makes x^2 == -1. */
  lemma MinusOneSquare(d: int, y: int, a: int)
    requires Cong(y, 0) && Cong((1 + d * (y * y)) * a, y * y - 1)
    ensures Cong(a, -1)
  {
    var w := y * y;
    ZeroMul(y, y);
    ZeroMul(w, d);
    CongRefl(1);
    CongRefl(a);
    CongAdd(1, 1, d * w, 0);
    CongMul(1 + d * w, 1, a, a);
    CongSym((1 + d * w) * a, a);
    CongAdd(w, 0, 1, 1);
    CongTrans(a, (1 + d * w) * a, w - 1);
    CongTrans(a, w - 1, -1);
  }

  lemma SquareZero(a: int)
    requires Fermat() && Cong(a * a, 0)
    ensures Cong(a, 0)
  {
    if !Cong(a, 0) {
      NoZeroDivisors(a, a);
    }
  }

  /** y1 + y2 == 0 and y1 - y2 == 0 leave only zeros. */
  lemma BothZero(y1: int, y2: int)
    requires Fermat() && Cong(y1 + y2, 0) && Cong(y1 - y2, 0)
    ensures Cong(y1, 0) && Cong(y2, 0)
  {
    TwoIsUnit();
    CongAdd(y1 + y2, 0, y1 - y2, 0);
    assert 2 * 0 == 0;
    CongCancel(2, y1, 0);
    CongCancel(2, y2, 0);
  }

  /** The new coordinates do not both vanish. */
  lemma SumNonzero(s: int, v: int, y: int)
    requires Fermat() && Cong(s - v, y * (s + v)) && Cong(s + v, 0)
    ensures Cong(s, 0) && Cong(v, 0)
  {
    TwoIsUnit();
    ZeroMul(s + v, y);
    CongTrans(s - v, y * (s + v), 0);
    CongAdd(s + v, 0, s - v, 0);
    assert 2 * 0 == 0;
    CongCancel(2, s, 0);
    CongCancel(2, v, 0);
  }

  /** u is the coordinate of a point with this y, which is neither 1 nor -1. */
  ghost predicate Proper(u: int, y: int) {
    Cong(u * (1 - y), 1 + y) && !Cong(1 - y, 0) && !Cong(u, 0)
  }

  lemma ProperSquare(u: int, y: int)
    requires Fermat() && Proper(u, y)
    ensures !Cong(y * y, 1)
  {
    hide Fermat;
    NoZeroDivisors(u, 1 - y);
    if Cong(y * y, 1) {
      CongRefl(1);
      CongAdd(1, 1, y * y, 1);
      assert (1 - y) * (1 + y) == 1 - y * y;
      if !Cong(1 + y, 0) {
        NoZeroDivisors(1 - y, 1 + y);
      }
      CongTrans(u * (1 - y), 1 + y, 0);
    }
  }

  lemma AddCore(d: int, u: int, r: Rungs, y1: int, y2: int, a1: int, a2: int, n: int, yS: int, yD: int)
    requires Fermat() && Rep(r.x2, r.z2, y1) && Rep(r.x3, r.z3, y2) && Proper(u, yD) && n * n == a1 * a2
    requires Cong((1 + d * (y1 * y1)) * a1, y1 * y1 - 1) && Cong((1 + d * (y2 * y2)) * a2, y2 * y2 - 1)
    requires var k := d * (n * (y1 * y2));
      && Cong(yS * (1 - k), y1 * y2 + n) && Cong(yD * (1 + k), y1 * y2 - n) && !Cong(1 - k, 0) && !Cong(1 + k, 0)
    ensures Rep(AddX(r), AddZ(u, r), yS)
  {
    var s, t, g0 := (y1 + y2) * (y1 + y2), (y1 - y2) * (y1 - y2), (r.x3 + r.z3) * (r.x2 + r.z2);
    var x, z := AddX(r), AddZ(u, r);
    AddedIs(u, r, y1, y2);
    hide AddX, AddZ, Fermat;
    ProductOfCurves(d, y1, y2, a1, a2);
    SumCoordinate(d, n, y1 * y2, s, t, yS, yD, u);
    FromCross(x, z, s, u * t, g0 * g0, yS);
    if Cong(s + u * t, 0) {
      SumNonzero(s, u * t, yS);
      if !Cong(t, 0) {
        NoZeroDivisors(u, t);
      }
      SquareZero(y1 + y2);
      SquareZero(y1 - y2);
      BothZero(y1, y2);
      DifferenceOfRoots(d, y1, y2, a1, a2, n, yD);
      ProperSquare(u, yD);
    }
    NoZeroDivisors(r.x3 + r.z3, r.x2 + r.z2);
    NoZeroDivisors(g0, g0);
    NoZeroDivisors(s + u * t, g0 * g0);
    NonzeroCong(x + z, (s + u * t) * (g0 * g0));
  }

  /** Products with the inverse point. */
  lemma WithInverse(p: Point, q: Point)
    requires Fermat() && OnCurve(p) && OnCurve(q)
    ensures var k := D * ((p.x * q.x) * (p.y * q.y));
      && K(p, q) == k && OnCurve(Negate(q))
      && Cong(Plus(p, q).y * (1 - k), p.y * q.y + p.x * q.x)
      && Cong(Plus(p, Negate(q)).y * (1 + k), p.y * q.y - p.x * q.x)
  {
    NegateIs(q);
    PlusIs(p, q);
    PlusIs(p, Negate(q));
    KIs(p, q);
    KIs(p, Negate(q));
    var x', yD := Negate(q).x, Plus(p, Negate(q)).y;
    ReducedMod(-q.x);
    hide OnCurve, Plus, K, Fermat;
    InverseParts(p.x, p.y, q.x, q.y, x', D);
    var k', k := D * ((p.x * p.y) * (x' * q.y)), D * ((p.x * q.x) * (p.y * q.y));
    CongRefl(1);
    CongAdd(1, 1, k', -k);
    CongScale(yD, 1 - k', 1 + k);
    CongRefl(p.y * q.y);
    CongAdd(p.y * q.y, p.y * q.y, p.x * x', -(p.x * q.x));
    CongSym(yD * (1 - k'), yD * (1 + k));
    CongTrans(yD * (1 + k), yD * (1 - k'), p.y * q.y + p.x * x');
    CongTrans(yD * (1 + k), p.y * q.y + p.x * x', p.y * q.y - p.x * q.x);
  }

  lemma InverseParts(x1: int, y1: int, x2: int, y2: int, x': int, d: int)
    requires Cong(x', -x2)
    ensures d * ((x1 * y1) * (x2 * y2)) == d * ((x1 * x2) * (y1 * y2))
    ensures Cong(d * ((x1 * y1) * (x' * y2)), -(d * ((x1 * x2) * (y1 * y2))))
    ensures Cong(x1 * x', -(x1 * x2))
  {
    CongScale(x1, x', -x2);
    assert x1 * -x2 == -(x1 * x2);
    Exchange2(x1, y1, x2, y2);
    Exchange2(x1, y1, x', y2);
    CongRefl(y1 * y2);
    CongMul(x1 * x', -(x1 * x2), y1 * y2, y1 * y2);
    CongScale(d, (x1 * x') * (y1 * y2), -(x1 * x2) * (y1 * y2));
    assert d * (-(x1 * x2) * (y1 * y2)) == -(d * ((x1 * x2) * (y1 * y2)));
  }

  lemma Exchange2(a: int, b: int, c: int, e: int)
    ensures (a * b) * (c * e) == (a * c) * (b * e)
  {
    assert (a * b) * (c * e) == a * (b * (c * e));
    assert b * (c * e) == c * (b * e);
  }

  /** The differential addition of the ladder is the addition of the curve. */
  lemma AddRep(u: int, r: Rungs, p: Point, q: Point)
    requires Fermat() && OnCurve(p) && OnCurve(q) && Rep(r.x2, r.z2, p.y) && Rep(r.x3, r.z3, q.y)
    requires Proper(u, Plus(p, Negate(q)).y)
    ensures Rep(AddX(r), AddZ(u, r), Plus(p, q).y)
  {
    CurveEquation(p);
    CurveEquation(q);
    Complete(p, q);
    WithInverse(p, q);
    hide OnCurve, Plus, K, Fermat, AddX, AddZ, Rep, Proper;
    Curved(D, p.x, p.y);
    Curved(D, q.x, q.y);
    SquareOfProduct(p.x, q.x);
    AddCore(D, u, r, p.y, q.y, p.x * p.x, q.x * q.x, p.x * q.x, Plus(p, q).y, Plus(p, Negate(q)).y);
  }

  // The ladder.

  /** The rungs hold [n]B and [n + 1]B. */
  ghost predicate OnRungs(s: Rungs, n: nat, base: Point) {
    Rep(s.x2, s.z2, Mult(n, base).y) && Rep(s.x3, s.z3, Mult(n + 1, base).y)
  }

  /** One rung from [a]B and [b]B, which differ by B either way. */
  lemma RungIs(u: int, s: Rungs, a: nat, b: nat, base: Point)
    requires Fermat() && OnCurve(base) && Proper(u, base.y) && (b == a + 1 || a == b + 1)
    requires Rep(s.x2, s.z2, Mult(a, base).y) && Rep(s.x3, s.z3, Mult(b, base).y)
    ensures var r := Rung(u, s); Rep(r.x2, r.z2, Mult(2 * a, base).y) && Rep(r.x3, r.z3, Mult(a + b, base).y)
  {
    var ia: int, ib: int := a, b;
    var p, q := Mult(a, base), Mult(b, base);
    hide OnCurve, Fermat, Rep, Proper, Mult, Plus, DoubleX, DoubleZ, AddX, AddZ;
    MultIn(a, base);
    MultIn(b, base);
    MultIn(1, base);
    MultAdd(ia, ia, base);
    MultAdd(ia, ib, base);
    MultNegate(ib, base);
    MultAdd(ia, -ib, base);
    MultNegate(1, base);
    DoubleRep(s.x2, s.z2, p);
    AddRep(u, s, p, q);
  }

  /** A number of n bits has nothing beyond them. */
  lemma {:induction false} NoMoreBits(k: nat, t: nat, n: nat)
    requires k < Exp2(t + n)
    ensures From(k, t) < Exp2(n)
  {
    if t > 0 {
      NoMoreBits(k, t - 1, n + 1);
    }
  }

  /** One turn of the loop: the next bit of the scalar is taken in. */
  lemma NextRung(u: int, s: Rungs, n: nat, bit: nat, base: Point)
    requires Fermat() && OnCurve(base) && Proper(u, base.y) && bit <= 1 && OnRungs(s, n, base)
    ensures var r := Rung(u, if bit == 1 then Crossed(s) else s);
      OnRungs(if bit == 1 then Crossed(r) else r, 2 * n + bit, base)
  {
    hide OnCurve, Fermat, Rep, Proper, Mult, Rung;
    if bit == 0 {
      RungIs(u, s, n, n + 1, base);
    } else {
      RungIs(u, Crossed(s), n + 1, n, base);
    }
  }

  lemma {:induction false} ClimbIs(k: nat, t: nat, u: int, s: Rungs, swap: int, base: Point)
    requires Fermat() && OnCurve(base) && Proper(u, base.y) && 0 <= swap <= 1
    requires OnRungs(if swap == 1 then Crossed(s) else s, From(k, t), base)
    ensures OnRungs(Climb(k, t, u, s, swap), k, base)
    decreases t
  {
    hide OnCurve, Fermat, Proper, OnRungs, Rung;
    if t == 0 {
      assert From(k, 0) == k;
    } else {
      var bit := From(k, t - 1) % 2;
      assert From(k, t - 1) == 2 * From(k, t) + bit;
      hide From;
      NextRung(u, if swap == 1 then Crossed(s) else s, From(k, t), bit, base);
      ClimbIs(k, t - 1, u, Rung(u, if swap != bit then Crossed(s) else s), bit, base);
    }
  }

  /** The first rungs: the neutral element and the base point. */
  lemma StartHolds(u: int, base: Point)
    requires Fermat() && OnCurve(base) && Proper(u, base.y)
    ensures OnRungs(Rungs(1, 0, u, 1), 0, base)
  {
    hide OnCurve, Fermat, Mult;
    MultIn(1, base);
    TwoIsUnit();
    CongRefl(1);
    var y := base.y;
    // u - 1 == y (u + 1)
    CongRefl(y * u - 1);
    CongAdd(u * (1 - y), 1 + y, y * u - 1, y * u - 1);
    assert u * (1 - y) + (y * u - 1) == u - 1 && 1 + y + (y * u - 1) == y * (u + 1);
    UnitCoordinate(u, y);
  }

  /** u == -1 would make 2 vanish. */
  lemma UnitCoordinate(u: int, y: int)
    requires Cong(u - 1, y * (u + 1))
    ensures !Cong(u + 1, 0)
  {
    TwoIsUnit();
    if Cong(u + 1, 0) {
      ZeroMul(u + 1, y);
      CongTrans(u - 1, y * (u + 1), 0);
      CongAdd(u + 1, 0, u - 1, 0);
    }
  }

  /** X25519 gives the u coordinate of [k]B, for every k below 2^255. */
  lemma LadderIs(k: nat, u: int, base: Point)
    requires Fermat() && OnCurve(base) && Proper(u, base.y) && k < W255
    ensures IsU(Evaluate(k, u), Mult(k, base))
  {
    StartHolds(u, base);
    Exp2Of255();
    NoMoreBits(k, 255, 0);
    var s := Climb(k, 255, u, Rungs(1, 0, u, 1), 0);
    ClimbIs(k, 255, u, Rungs(1, 0, u, 1), 0, base);
    MultIn(k, base);
    hide OnCurve, Fermat, Mult, Climb, Exp2;
    RatioOf(s.x2, s.z2, Mult(k, base));
  }

  lemma Exp2Of255()
    ensures Exp2(255) == W255
  {
    assert Exp2(8) == 0x100 && Exp2(7) == 0x80;
    Exp2Step(8, 8, 0x100, 0x100);
    Exp2Step(16, 16, 0x10000, 0x10000);
    Exp2Step(32, 32, W32, W32);
    Exp2Step(64, 64, W64, W64);
    Exp2Step(128, 64, W128, W64);
    Exp2Step(192, 32, W128 * W64, W32);
    Exp2Step(224, 16, W128 * W64 * W32, 0x10000);
    Exp2Step(240, 8, W128 * W64 * W32 * 0x10000, 0x100);
    Exp2Step(248, 7, W128 * W64 * W32 * 0x1000000, 0x80);
  }

  /** The final division. */
  lemma RatioOf(x: int, z: int, p: Point)
    requires Fermat() && OnCurve(p) && Rep(x, z, p.y)
    ensures IsU((x * Pow(z, P - 2)) % P, p)
  {
    var i := Pow(z, P - 2);
    var out := x * i;
    CongRefl(i);
    CongRefl(out);
    ReducedMod(out);
    if p == NEUTRAL {
      CongRefl(x + z);
      CongRefl(x);
      CongAdd(x - z, x + z, x, x);
      DoubledZero(x, z);
      ZeroInverse(z, i, x, out);
    } else {
      OnlyNeutral(p);
      hide OnCurve, Fermat;
      CrossRatio(x, z, p.y);
      InvIs(z);
      QuotientOf(x, z, 1 - p.y, 1 + p.y, i);
    }
  }

  lemma DoubledZero(x: int, z: int)
    requires Fermat() && Cong(x - z, 1 * (x + z))
    ensures Cong(z, 0)
  {
    TwoIsUnit();
    CongRefl(x - z);
    CongAdd(x - z, x + z, x - z, x - z);
    assert 2 * 0 == 0;
    CongSym(0, 2 * z);
    CongCancel(2, z, 0);
  }

  /** x (1 - y) == z (1 + y), and z does not vanish unless y is 1. */
  lemma CrossRatio(x: int, z: int, y: int)
    requires Fermat() && Rep(x, z, y) && !Cong(1 - y, 0)
    ensures Cong(x * (1 - y), z * (1 + y)) && !Cong(z, 0)
  {
    CongRefl(z - y * x);
    CongAdd(x - z, y * (x + z), z - y * x, z - y * x);
    assert x - z + (z - y * x) == x * (1 - y) && y * (x + z) + (z - y * x) == z * (1 + y);
    if Cong(z, 0) {
      ZeroMul(z, 1 + y);
      CongTrans(x * (1 - y), z * (1 + y), 0);
      if !Cong(x, 0) {
        NoZeroDivisors(x, 1 - y);
      }
      CongAdd(x, 0, z, 0);
    }
  }

  lemma QuotientOf(x: int, z: int, c: int, e: int, i: int)
    requires Cong(x * c, z * e) && Cong(z * i, 1)
    ensures Cong(((x * i) % P) * c, e)
  {
    CongOfMod(x * i);
    CongRefl(c);
    CongMul((x * i) % P, x * i, c, c);
    CongScale(i, x * c, z * e);
    assert i * (x * c) == (x * i) * c && i * (z * e) == (z * i) * e;
    CongRefl(e);
    CongMul(z * i, 1, e, e);
    CongTrans(((x * i) % P) * c, (x * i) * c, (z * i) * e);
    CongTrans(((x * i) % P) * c, (z * i) * e, e);
  }

  /** A point has one u coordinate. */
  lemma UUnique(u: int, v: int, p: Point)
    requires Fermat() && OnCurve(p) && IsU(u, p) && IsU(v, p)
    ensures u == v
  {
    if p != NEUTRAL {
      OnlyNeutral(p);
      hide OnCurve, Fermat;
      var w := 1 - p.y;
      CongSym(v * w, 1 + p.y);
      CongTrans(u * w, 1 + p.y, v * w);
      assert u * w == w * u && v * w == w * v;
      CongCancel(w, u, v);
      ReducedUnique(u, v);
    }
  }
}
