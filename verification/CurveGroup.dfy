/** The points of the curve under the addition law, as an abelian group. */
module CurveGroup {
  import opened Arith
  import opened Groups
  import opened ModP
  import opened PrimeField
  import opened Edwards
  import opened Associativity

  /** The curve's points with their addition law. */
  function Curve(): Group<Point> {
    Group(p => OnCurve(p), NEUTRAL, (p, q) => Plus(p, q), p => Negate(p))
  }

  /** The inner denominators cleared: c a == u and e b == v. */
  lemma ClearProduct(c: int, e: int, a: int, b: int, u: int, v: int, d: int, w: int)
    requires Cong(a * c, u) && Cong(b * e, v)
    ensures Cong((c * e) * (1 + d * ((a * b) * w)), c * e + d * ((u * v) * w))
    ensures Cong((c * e) * (1 - d * ((a * b) * w)), c * e - d * ((u * v) * w))
  {
    CongMul(a * c, u, b * e, v);
    CongScale(d * w, (a * c) * (b * e), u * v);
    var g, h := d * ((a * b) * w), d * ((u * v) * w);
    assert (c * e) * g == (d * w) * ((a * c) * (b * e)) && (d * w) * (u * v) == h;
    CongRefl(c * e);
    CongAdd(c * e, c * e, (c * e) * g, h);
    MulDistrib(1, g, c * e);
    assert (1 + g) * (c * e) == (c * e) * (1 + g) && (1 - g) * (c * e) == (c * e) * (1 - g);
  }

  /** The outer numerator, with the inner denominators multiplied in. */
  lemma ClearSum(c: int, e: int, a: int, b: int, u: int, v: int, x: int, y: int)
    requires Cong(a * c, u) && Cong(b * e, v)
    ensures Cong((c * e) * (a * y + x * b), Blend(u * e, v * c, x, y))
    ensures Cong((c * e) * (b * y + a * x), Blend(v * c, u * e, x, y))
  {
    OneTerm(c, e, a, u, y);
    OneTerm(e, c, b, v, x);
    OneTerm(c, e, a, u, x);
    OneTerm(e, c, b, v, y);
    CongAdd((c * e) * (a * y), (u * e) * y, (e * c) * (b * x), (v * c) * x);
    CongAdd((e * c) * (b * y), (v * c) * y, (c * e) * (a * x), (u * e) * x);
    assert (e * c) == (c * e) && x * b == b * x;
    MulDistrib(a * y, b * x, c * e);
    MulDistrib(b * y, a * x, c * e);
    assert (a * y + x * b) * (c * e) == (c * e) * (a * y + x * b) && (b * y + a * x) * (c * e) == (c * e) * (b * y + a * x);
    assert (a * y) * (c * e) == (c * e) * (a * y) && (b * x) * (c * e) == (c * e) * (b * x);
    assert (b * y) * (c * e) == (c * e) * (b * y) && (a * x) * (c * e) == (c * e) * (a * x);
  }

  lemma OneTerm(c: int, e: int, a: int, u: int, y: int)
    requires Cong(a * c, u)
    ensures Cong((c * e) * (a * y), (u * e) * y)
  {
    CongScale(e * y, a * c, u);
    assert (e * y) * (a * c) == (c * e) * (a * y) && (e * y) * u == (u * e) * y;
  }

  /** l g == n gives l (w g) == w n, with w g and w n replaced by what they are congruent to. */
  lemma Lift(l: int, g: int, n: int, w: int, g': int, n': int)
    requires Cong(l * g, n) && Cong(w * g, g') && Cong(w * n, n')
    ensures Cong(l * g', n')
  {
    CongScale(w, l * g, n);
    CongScale(l, w * g, g');
    assert w * (l * g) == l * (w * g);
    CongSym(l * (w * g), l * g');
    CongTrans(l * g', l * (w * g), w * n);
    CongTrans(l * g', w * n, n');
  }

  /** (p + q) + r as fractions of polynomials in the coordinates. */
  lemma Fractions(p: Point, q: Point, r: Point)
    requires Fermat() && OnCurve(p) && OnCurve(q) && OnCurve(r)
    ensures var l := Plus(Plus(p, q), r);
      && Reduced(l.x) && Reduced(l.y)
      && Cong(l.x * DenX(D, p.x, p.y, q.x, q.y, r.x, r.y), NumX(D, p.x, p.y, q.x, q.y, r.x, r.y))
      && Cong(l.y * DenY(D, p.x, p.y, q.x, q.y, r.x, r.y), NumY(D, p.x, p.y, q.x, q.y, r.x, r.y))
      && !Cong(DenX(D, p.x, p.y, q.x, q.y, r.x, r.y), 0) && !Cong(DenY(D, p.x, p.y, q.x, q.y, r.x, r.y), 0)
  {
    hide Fermat, OnCurve, Plus, K, Blend, Cong;
    var m := Plus(p, q);
    Closed(p, q);
    PlusIs(p, q);
    PlusIs(m, r);
    Complete(p, q);
    Complete(m, r);
    KIs(p, q);
    KIs(m, r);
    FractionsOf(p.x, p.y, q.x, q.y, r.x, r.y, m.x, m.y, Plus(m, r).x, Plus(m, r).y);
  }

  /** The same, on numbers: (a, b) is the inner sum and (lx, ly) the outer. */
  lemma FractionsOf(x1: int, y1: int, x2: int, y2: int, x: int, y: int, a: int, b: int, lx: int, ly: int)
    requires Fermat()
    requires var k := D * ((x1 * y1) * (x2 * y2)); var g := D * ((a * b) * (x * y));
      && Cong(a * (1 + k), x1 * y2 + x2 * y1) && Cong(b * (1 - k), y1 * y2 + x1 * x2)
      && Cong(lx * (1 + g), a * y + x * b) && Cong(ly * (1 - g), b * y + a * x)
      && !Cong(1 + k, 0) && !Cong(1 - k, 0) && !Cong(1 + g, 0) && !Cong(1 - g, 0)
    ensures Cong(lx * DenX(D, x1, y1, x2, y2, x, y), NumX(D, x1, y1, x2, y2, x, y))
    ensures Cong(ly * DenY(D, x1, y1, x2, y2, x, y), NumY(D, x1, y1, x2, y2, x, y))
    ensures !Cong(DenX(D, x1, y1, x2, y2, x, y), 0) && !Cong(DenY(D, x1, y1, x2, y2, x, y), 0)
  {
    hide Blend, Cong, Fermat;
    var k, g := D * ((x1 * y1) * (x2 * y2)), D * ((a * b) * (x * y));
    var c, e, u, v := 1 + k, 1 - k, x1 * y2 + x2 * y1, y1 * y2 + x1 * x2;
    assert c * e == 1 - k * k;
    ClearProduct(c, e, a, b, u, v, D, x * y);
    ClearSum(c, e, a, b, u, v, x, y);
    Lift(lx, 1 + g, a * y + x * b, c * e, c * e + D * ((u * v) * (x * y)), Blend(u * e, v * c, x, y));
    Lift(ly, 1 - g, b * y + a * x, c * e, c * e - D * ((u * v) * (x * y)), Blend(v * c, u * e, x, y));
    NoZeroDivisors(c, e);
    NoZeroDivisors(c * e, 1 + g);
    NoZeroDivisors(c * e, 1 - g);
    StaysNonzero((c * e) * (1 + g), c * e + D * ((u * v) * (x * y)));
    StaysNonzero((c * e) * (1 - g), c * e - D * ((u * v) * (x * y)));
  }

  lemma StaysNonzero(a: int, b: int)
    requires Cong(a, b) && !Cong(a, 0)
    ensures !Cong(b, 0)
  {
    if Cong(b, 0) {
      CongTrans(a, b, 0);
    }
  }

  /** Equal fractions: l d == n, r f == m and n f == m d give l == r. */
  lemma SameFraction(l: int, d: int, n: int, r: int, f: int, m: int)
    requires Fermat() && Reduced(l) && Reduced(r) && !Cong(d, 0) && !Cong(f, 0)
    requires Cong(l * d, n) && Cong(r * f, m) && Cong(n * f, m * d)
    ensures l == r
  {
    CongRefl(f);
    CongRefl(d);
    CongMul(l * d, n, f, f);
    CongMul(r * f, m, d, d);
    CongTrans((l * d) * f, n * f, m * d);
    CongSym((r * f) * d, m * d);
    CongTrans((l * d) * f, m * d, (r * f) * d);
    assert (l * d) * f == (d * f) * l && (r * f) * d == (d * f) * r;
    NoZeroDivisors(d, f);
    CongCancel(d * f, l, r);
    ReducedUnique(l, r);
  }

  lemma SquaresOf(p: Point)
    requires OnCurve(p)
    ensures Squares(D, p.x * p.x, p.y * p.y)
  {
    CurveEquation(p);
    SquareOfProduct(p.x, p.y);
  }

  /** The addition law is associative. */
  lemma PlusAssoc(p: Point, q: Point, r: Point)
    requires Fermat() && OnCurve(p) && OnCurve(q) && OnCurve(r)
    ensures Plus(Plus(p, q), r) == Plus(p, Plus(q, r))
  {
    hide Fermat, OnCurve, Plus, NumX, NumY, DenX, DenY, Squares, Cong, Reduced;
    Fractions(p, q, r);
    Fractions(q, r, p);
    SquaresOf(p);
    SquaresOf(q);
    SquaresOf(r);
    CrossX(D, p.x, p.y, q.x, q.y, r.x, r.y);
    CrossY(D, p.x, p.y, q.x, q.y, r.x, r.y);
    var l, m := Plus(Plus(p, q), r), Plus(Plus(q, r), p);
    SameFraction(l.x, DenX(D, p.x, p.y, q.x, q.y, r.x, r.y), NumX(D, p.x, p.y, q.x, q.y, r.x, r.y),
                 m.x, DenX(D, q.x, q.y, r.x, r.y, p.x, p.y), NumX(D, q.x, q.y, r.x, r.y, p.x, p.y));
    SameFraction(l.y, DenY(D, p.x, p.y, q.x, q.y, r.x, r.y), NumY(D, p.x, p.y, q.x, q.y, r.x, r.y),
                 m.y, DenY(D, q.x, q.y, r.x, r.y, p.x, p.y), NumY(D, q.x, q.y, r.x, r.y, p.x, p.y));
    PlusComm(p, Plus(q, r));
  }

  lemma CurveIsAbelian()
    requires Fermat()
    ensures Abelian(Curve())
  {
    hide OnCurve, Plus, Negate, Fermat;
    var g := Curve();
    NeutralOnCurve();
    forall x | g.carrier(x)
      ensures g.carrier(g.neg(x)) && g.add(x, g.zero) == x && g.add(x, g.neg(x)) == g.zero
    {
      NegateIs(x);
      PlusNeutral(x);
    }
    forall x, y | g.carrier(x) && g.carrier(y)
      ensures g.carrier(g.add(x, y)) && g.add(x, y) == g.add(y, x)
    {
      Closed(x, y);
      PlusComm(x, y);
    }
    forall x, y, z | g.carrier(x) && g.carrier(y) && g.carrier(z)
      ensures g.add(g.add(x, y), z) == g.add(x, g.add(y, z))
    {
      PlusAssoc(x, y, z);
    }
  }
}
