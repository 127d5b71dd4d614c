/**
 Projective and extended coordinates of curve points, as numbers modulo p, and
 what the addition and doubling formulas compute with them
 (ed25519-donna-impl-base.h).
 */
module Projective {
  import opened Arith
  import opened ModP
  import opened PrimeField
  import opened Edwards

  /** (X : Y : Z) stands for p. */
  ghost predicate Stands(p: Point, x: int, y: int, z: int) {
    && OnCurve(p) && !Cong(z, 0)
    && Cong(x, Prod(p.x, z)) && Cong(y, Prod(p.y, z))
  }

  /** T is the fourth extended coordinate: T == xyZ. */
  ghost predicate Extends(p: Point, z: int, t: int) {
    Cong(t, Prod(Prod(p.x, p.y), z))
  }

  /** A completed point (ge25519_p1p1): ((X : Z), (Y : T)). */
  ghost predicate Completed(p: Point, x: int, y: int, z: int, t: int) {
    && OnCurve(p) && !Cong(z, 0) && !Cong(t, 0)
    && Cong(x, Prod(p.x, z)) && Cong(y, Prod(p.y, t))
  }

  /** A point prepared for addition: (y - x)Z, (y + x)Z, 2dxyZ and Z. */
  ghost predicate Prepared(q: Point, m: int, s: int, c: int, z: int) {
    && OnCurve(q) && !Cong(z, 0)
    && Cong(m, Prod(q.y - q.x, z)) && Cong(s, Prod(q.y + q.x, z))
    && Cong(c, Prod(2, Prod(D, Prod(Prod(q.x, q.y), z))))
  }

  /** u == a Z1 and v == b Z2 give u v == (a b)(Z1 Z2). */
  lemma Scaled(u: int, a: int, z1: int, v: int, b: int, z2: int)
    requires Cong(u, a * z1) && Cong(v, b * z2)
    ensures Cong(u * v, (a * b) * (z1 * z2))
  {
    CongMul(u, a * z1, v, b * z2);
    assert (a * z1) * (b * z2) == (a * b) * (z1 * z2);
  }

  /** If the four values are w N1, w N2, w (1 + k) and w (1 - k), they are the completed sum. */
  lemma SumOf(p: Point, q: Point, w: int, e: int, h: int, g: int, f: int)
    requires Fermat() && OnCurve(p) && OnCurve(q) && !Cong(w, 0)
    requires Cong(e, w * (p.x * q.y + q.x * p.y)) && Cong(h, w * (p.y * q.y + p.x * q.x))
    requires Cong(g, w * (1 + K(p, q))) && Cong(f, w * (1 - K(p, q)))
    ensures Completed(Plus(p, q), e, h, g, f)
  {
    PlusIs(p, q);
    Complete(p, q);
    Closed(p, q);
    hide OnCurve, Plus, K;
    var r, k := Plus(p, q), K(p, q);
    Ratio(w, e, g, p.x * q.y + q.x * p.y, 1 + k, r.x);
    Ratio(w, h, f, p.y * q.y + p.x * q.x, 1 - k, r.y);
  }

  /** e == w n, g == w f and x f == n give e == x g, and g is not zero. */
  lemma Ratio(w: int, e: int, g: int, n: int, f: int, x: int)
    requires Fermat() && !Cong(w, 0) && !Cong(f, 0)
    requires Cong(e, w * n) && Cong(g, w * f) && Cong(x * f, n)
    ensures !Cong(g, 0) && Cong(e, Prod(x, g))
  {
    NoZeroDivisors(w, f);
    if Cong(g, 0) {
      CongSym(g, w * f);
      CongTrans(w * f, g, 0);
    }
    ProdIs(x, g);
    CongScale(x, g, w * f);
    CongScale(w, x * f, n);
    assert x * (w * f) == w * (x * f);
    CongTrans(x * g, w * (x * f), w * n);
    CongSym(x * g, w * n);
    CongTrans(e, w * n, x * g);
  }

  /** The sum formulas: B = (Y1 + X1) s, A = (Y1 - X1) m, C = T1 c and 2 Z1 Z2. */
  lemma SumFormulas(p: Point, q: Point, x1: int, y1: int, z1: int, t1: int, m: int, s: int, c: int, z2: int)
    requires Fermat() && Stands(p, x1, y1, z1) && Extends(p, z1, t1) && Prepared(q, m, s, c, z2)
    ensures Completed(Plus(p, q), (y1 + x1) * s - (y1 - x1) * m, (y1 + x1) * s + (y1 - x1) * m,
                      2 * (z1 * z2) + t1 * c, 2 * (z1 * z2) - t1 * c)
  {
    hide Fermat, OnCurve, Plus, K, Cong, Stands, Extends, Prepared, Completed;
    StandsIs(p, x1, y1, z1);
    ExtendsIs(p, z1, t1);
    PreparedIs(q, m, s, c, z2);
    WeightNonzero(z1, z2);
    CrossPart(p.x, p.y, q.x, q.y, x1, y1, z1, m, s, z2);
    KIs(p, q);
    KPart(p.x * p.y, q.x * q.y, t1, z1, c, z2, K(p, q));
    SumOf(p, q, 2 * (z1 * z2), (y1 + x1) * s - (y1 - x1) * m, (y1 + x1) * s + (y1 - x1) * m,
          2 * (z1 * z2) + t1 * c, 2 * (z1 * z2) - t1 * c);
  }

  lemma StandsIs(p: Point, x: int, y: int, z: int)
    requires Stands(p, x, y, z)
    ensures OnCurve(p) && !Cong(z, 0) && Cong(x, p.x * z) && Cong(y, p.y * z)
  {
    ProdIs(p.x, z);
    ProdIs(p.y, z);
  }

  lemma ExtendsIs(p: Point, z: int, t: int)
    requires Extends(p, z, t)
    ensures Cong(t, (p.x * p.y) * z)
  {
    ProdIs(p.x, p.y);
    ProdIs(p.x * p.y, z);
  }

  lemma PreparedIs(q: Point, m: int, s: int, c: int, z: int)
    requires Prepared(q, m, s, c, z)
    ensures OnCurve(q) && !Cong(z, 0) && Cong(m, (q.y - q.x) * z) && Cong(s, (q.y + q.x) * z)
    ensures Cong(c, 2 * (D * ((q.x * q.y) * z)))
  {
    ProdIs(q.y - q.x, z);
    ProdIs(q.y + q.x, z);
    ProdIs(q.x, q.y);
    ProdIs(q.x * q.y, z);
    ProdIs(D, (q.x * q.y) * z);
    ProdIs(2, D * ((q.x * q.y) * z));
  }

  lemma WeightNonzero(z1: int, z2: int)
    requires Fermat() && !Cong(z1, 0) && !Cong(z2, 0)
    ensures !Cong(2 * (z1 * z2), 0)
  {
    TwoIsUnit();
    NoZeroDivisors(z1, z2);
    NoZeroDivisors(2, z1 * z2);
  }

  /** B - A and B + A are the two numerators, times 2 Z1 Z2. */
  lemma CrossPart(a: int, b: int, c: int, d: int, x1: int, y1: int, z1: int, m: int, s: int, z2: int)
    requires Cong(x1, a * z1) && Cong(y1, b * z1) && Cong(m, (d - c) * z2) && Cong(s, (d + c) * z2)
    ensures Cong((y1 + x1) * s - (y1 - x1) * m, (2 * (z1 * z2)) * (a * d + c * b))
    ensures Cong((y1 + x1) * s + (y1 - x1) * m, (2 * (z1 * z2)) * (b * d + a * c))
  {
    CongAdd(y1, b * z1, x1, a * z1);
    MulDistrib(b, a, z1);
    Scaled(y1 + x1, b + a, z1, s, d + c, z2);
    Scaled(y1 - x1, b - a, z1, m, d - c, z2);
    CrossSums(a, b, c, d, z1 * z2);
    CongAdd((y1 + x1) * s, ((b + a) * (d + c)) * (z1 * z2), (y1 - x1) * m, ((b - a) * (d - c)) * (z1 * z2));
  }

  /** C is k times 2 Z1 Z2. */
  lemma KPart(a: int, b: int, t1: int, z1: int, c: int, z2: int, k: int)
    requires Cong(t1, a * z1) && Cong(c, 2 * (D * (b * z2))) && k == D * (a * b)
    ensures var w := 2 * (z1 * z2); Cong(w + t1 * c, w * (1 + k)) && Cong(w - t1 * c, w * (1 - k))
  {
    var w := 2 * (z1 * z2);
    assert 2 * (D * (b * z2)) == (2 * (D * b)) * z2;
    Scaled(t1, a, z1, c, 2 * (D * b), z2);
    KTimes(a, b, z1 * z2);
    CongRefl(w);
    CongAdd(w, w, t1 * c, w * k);
    assert w + w * k == w * (1 + k) && w - w * k == w * (1 - k);
  }

  lemma CrossSums(x1: int, y1: int, x2: int, y2: int, zz: int)
    ensures ((y1 + x1) * (y2 + x2)) * zz - ((y1 - x1) * (y2 - x2)) * zz == (2 * zz) * (x1 * y2 + x2 * y1)
    ensures ((y1 + x1) * (y2 + x2)) * zz + ((y1 - x1) * (y2 - x2)) * zz == (2 * zz) * (y1 * y2 + x1 * x2)
  {
    var u, v := (y1 + x1) * (y2 + x2), (y1 - x1) * (y2 - x2);
    assert u - v == 2 * (x1 * y2 + x2 * y1);
    assert u + v == 2 * (y1 * y2 + x1 * x2);
    MulDistrib(u, v, zz);
  }

  lemma KTimes(a: int, b: int, zz: int)
    ensures (a * (2 * (D * b))) * zz == (2 * zz) * (D * (a * b))
  {
    assert a * (2 * (D * b)) == 2 * (D * (a * b));
  }

  /** The doubling formulas, which do not use the fourth coordinate. */
  lemma DoubleFormulas(p: Point, x: int, y: int, z: int)
    requires Fermat() && Stands(p, x, y, z)
    ensures Completed(Plus(p, p), (x + y) * (x + y) - (y * y + x * x), y * y + x * x, y * y - x * x,
                      2 * (z * z) - (y * y - x * x))
  {
    CurveEquation(p);
    KIs(p, p);
    StandsIs(p, x, y, z);
    NoZeroDivisors(z, z);
    hide Fermat, OnCurve, Plus, K, Cong, Stands, Completed;
    DoubleParts(p.x, p.y, x, y, z, K(p, p));
    SumOf(p, p, z * z, (x + y) * (x + y) - (y * y + x * x), y * y + x * x, y * y - x * x, 2 * (z * z) - (y * y - x * x));
  }

  /** 2XY and the sums of squares are the numerators and denominators, times Z^2. */
  lemma DoubleParts(a: int, b: int, x: int, y: int, z: int, k: int)
    requires Cong(x, a * z) && Cong(y, b * z) && Cong(b * b - a * a, 1 + k)
    ensures var w := z * z;
      && Cong((x + y) * (x + y) - (y * y + x * x), w * (a * b + a * b)) && Cong(y * y + x * x, w * (b * b + a * a))
      && Cong(y * y - x * x, w * (1 + k)) && Cong(2 * w - (y * y - x * x), w * (1 - k))
  {
    var w := z * z;
    Scaled(x, a, z, x, a, z);
    Scaled(y, b, z, y, b, z);
    Scaled(x, a, z, y, b, z);
    SquareSum(x, y);
    CongScale(2, x * y, (a * b) * w);
    assert 2 * ((a * b) * w) == w * (a * b + a * b);
    CongAdd(y * y, (b * b) * w, x * x, (a * a) * w);
    MulDistrib(b * b, a * a, w);
    assert w * (b * b + a * a) == (b * b + a * a) * w;
    // on the curve, y^2 - x^2 is 1 + k
    CongScale(w, b * b - a * a, 1 + k);
    CongTrans(y * y - x * x, w * (b * b - a * a), w * (1 + k));
    CongRefl(2 * w);
    CongAdd(2 * w, 2 * w, y * y - x * x, w * (1 + k));
    assert 2 * w - w * (1 + k) == w * (1 - k);
  }

  /** Products of the completed coordinates are extended coordinates. */
  lemma FromCompleted(p: Point, x: int, y: int, z: int, t: int)
    requires Fermat() && Completed(p, x, y, z, t)
    ensures Stands(p, x * t, y * z, z * t) && Extends(p, z * t, x * y)
  {
    hide OnCurve;
    NoZeroDivisors(z, t);
    ProdIs(p.x, z);
    ProdIs(p.y, t);
    ProdIs(p.x, z * t);
    ProdIs(p.y, z * t);
    ProdIs(p.x, p.y);
    ProdIs(p.x * p.y, z * t);
    CongRefl(t);
    CongRefl(z);
    CongMul(x, p.x * z, t, t);
    CongMul(y, p.y * t, z, z);
    Scaled(x, p.x, z, y, p.y, t);
    assert (p.x * z) * t == p.x * (z * t) && (p.y * t) * z == p.y * (z * t);
  }

  /** The curve point in the form used as second operand. */
  lemma Prepare(p: Point, x: int, y: int, z: int, t: int, d2: int)
    requires Stands(p, x, y, z) && Extends(p, z, t) && Cong(d2, 2 * D)
    ensures Prepared(p, y - x, y + x, t * d2, z)
  {
    hide OnCurve;
    ProdIs(p.x, z);
    ProdIs(p.y, z);
    ProdIs(p.y - p.x, z);
    ProdIs(p.y + p.x, z);
    ProdIs(p.x, p.y);
    var a := (p.x * p.y) * z;
    ProdIs(p.x * p.y, z);
    ProdIs(D, a);
    ProdIs(2, D * a);
    CongAdd(y, p.y * z, x, p.x * z);
    MulDistrib(p.y, p.x, z);
    CongMul(t, a, d2, 2 * D);
    assert a * (2 * D) == 2 * (D * a);
  }

  /** Subtracting is adding with two operands exchanged and one negated. */
  lemma NegatePrepared(q: Point, m: int, s: int, c: int, z: int)
    requires Fermat() && Prepared(q, m, s, c, z)
    ensures Prepared(Negate(q), s, m, -c, z)
  {
    NegateIs(q);
    hide OnCurve;
    var n, x, y := Negate(q), q.x, q.y;
    ReducedMod(-x);
    assert Cong(n.x, -x);
    ProdIs(y - x, z);
    ProdIs(y + x, z);
    ProdIs(n.y - n.x, z);
    ProdIs(n.y + n.x, z);
    CongRefl(y);
    CongRefl(z);
    CongAdd(y, y, n.x, -x);
    CongMul(y - n.x, y + x, z, z);
    CongMul(y + n.x, y - x, z, z);
    CongSym((y - n.x) * z, (y + x) * z);
    CongSym((y + n.x) * z, (y - x) * z);
    CongTrans(s, (y + x) * z, (y - n.x) * z);
    CongTrans(m, (y - x) * z, (y + n.x) * z);
    NegateC(x, y, n.x, z, c);
  }

  lemma NegateC(x: int, y: int, n: int, z: int, c: int)
    requires Cong(n, -x) && Cong(c, Prod(2, Prod(D, Prod(Prod(x, y), z))))
    ensures Cong(-c, Prod(2, Prod(D, Prod(Prod(n, y), z))))
  {
    ProdIs(x, y);
    ProdIs(x * y, z);
    ProdIs(D, (x * y) * z);
    ProdIs(2, D * ((x * y) * z));
    ProdIs(n, y);
    ProdIs(n * y, z);
    ProdIs(D, (n * y) * z);
    ProdIs(2, D * ((n * y) * z));
    var u, v := 2 * (D * ((x * y) * z)), 2 * (D * ((n * y) * z));
    CongScale(-1, c, u);
    CongRefl(y);
    CongRefl(z);
    CongMul(n, -x, y, y);
    CongMul(n * y, -x * y, z, z);
    CongScale(D, (n * y) * z, (-x * y) * z);
    CongScale(2, D * ((n * y) * z), D * ((-x * y) * z));
    assert (-x * y) * z == -((x * y) * z);
    assert 2 * (D * ((-x * y) * z)) == -u;
    CongSym(v, -u);
    CongTrans(-c, -u, v);
  }

  /** Coordinates may be replaced by congruent ones. */
  lemma StandsCong(p: Point, x: int, y: int, z: int, x': int, y': int, z': int)
    requires Stands(p, x, y, z) && Cong(x', x) && Cong(y', y) && Cong(z', z)
    ensures Stands(p, x', y', z')
  {
    hide OnCurve;
    ScaleCong(p.x, x, z, x', z');
    ScaleCong(p.y, y, z, y', z');
    if Cong(z', 0) {
      CongSym(z', z);
      CongTrans(z, z', 0);
    }
  }

  lemma ScaleCong(a: int, x: int, z: int, x': int, z': int)
    requires Cong(x, Prod(a, z)) && Cong(x', x) && Cong(z', z)
    ensures Cong(x', Prod(a, z'))
  {
    ProdIs(a, z);
    ProdIs(a, z');
    CongTrans(x', x, a * z);
    CongSym(z', z);
    CongScale(a, z, z');
    CongTrans(x', a * z, a * z');
  }

  lemma CompletedCong(p: Point, x: int, y: int, z: int, t: int, x': int, y': int, z': int, t': int)
    requires Completed(p, x, y, z, t) && Cong(x', x) && Cong(y', y) && Cong(z', z) && Cong(t', t)
    ensures Completed(p, x', y', z', t')
  {
    hide OnCurve;
    ScaleCong(p.x, x, z, x', z');
    ScaleCong(p.y, y, t, y', t');
    if Cong(z', 0) {
      CongSym(z', z);
      CongTrans(z, z', 0);
    }
    if Cong(t', 0) {
      CongSym(t', t);
      CongTrans(t, t', 0);
    }
  }

  lemma PreparedCong(q: Point, m: int, s: int, c: int, z: int, m': int, s': int, c': int, z': int)
    requires Prepared(q, m, s, c, z) && Cong(m', m) && Cong(s', s) && Cong(c', c) && Cong(z', z)
    ensures Prepared(q, m', s', c', z')
  {
    hide OnCurve;
    ScaleCong(q.y - q.x, m, z, m', z');
    ScaleCong(q.y + q.x, s, z, s', z');
    if Cong(z', 0) {
      CongSym(z', z);
      CongTrans(z, z', 0);
    }
    var a := Prod(q.x, q.y);
    ProdIs(a, z);
    ProdIs(a, z');
    ProdIs(D, a * z);
    ProdIs(D, a * z');
    ProdIs(2, D * (a * z));
    ProdIs(2, D * (a * z'));
    CongSym(z', z);
    CongScale(a, z, z');
    CongScale(D, a * z, a * z');
    CongScale(2, D * (a * z), D * (a * z'));
    CongTrans(c', c, 2 * (D * (a * z)));
    CongTrans(c', 2 * (D * (a * z)), 2 * (D * (a * z')));
  }

  /** The fourth coordinate is the right one exactly when XY == ZT. */
  lemma ExtendedRelation(p: Point, x: int, y: int, z: int, t: int)
    requires Fermat() && Stands(p, x, y, z)
    ensures Extends(p, z, t) <==> Cong(x * y, z * t)
  {
    hide OnCurve;
    ProdIs(p.x, z);
    ProdIs(p.y, z);
    ProdIs(p.x, p.y);
    var a := p.x * p.y;
    ProdIs(a, z);
    Scaled(x, p.x, z, y, p.y, z);
    assert z * (a * z) == a * (z * z);
    if Extends(p, z, t) {
      CongScale(z, t, a * z);
      CongSym(z * t, a * (z * z));
      CongTrans(x * y, a * (z * z), z * t);
    }
    if Cong(x * y, z * t) {
      CongSym(x * y, z * t);
      CongTrans(z * t, x * y, a * (z * z));
      CongCancel(z, t, a * z);
    }
  }
}
