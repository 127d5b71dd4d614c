/**
 Point arithmetic on limbs (ed25519-donna-impl-base.h). Each routine is given the
 curve points its arguments stand for, meets the limb bounds of every field
 operation it calls, and returns limbs that stand for the result.
 */
module Points {
  import opened ModP
  import opened PrimeField
  import opened Field
  import opened Edwards
  import opened Projective

  /** ge25519 */
  datatype Ge = Ge(x: Fe, y: Fe, z: Fe, t: Fe)
  /** ge25519_p1p1 */
  datatype P1p1 = P1p1(x: Fe, y: Fe, z: Fe, t: Fe)
  /** ge25519_niels */
  datatype Niels = Niels(ysubx: Fe, xaddy: Fe, t2d: Fe)
  /** ge25519_pniels */
  datatype Pniels = Pniels(ysubx: Fe, xaddy: Fe, z: Fe, t2d: Fe)

  const EC2D: Fe := Fe(0x69b9426b2f159, 0x35050762add7a, 0x3cf44c0038052, 0x6738cc7407977, 0x2406d9dc56dff)
  const ECD: Fe := Fe(0x34dca135978a3, 0x1a8283b156ebd, 0x5e7a26001c029, 0x739c663a03cbb, 0x52036cee2b6ff)

  lemma Constants()
    ensures Tight(EC2D) && Tight(ECD) && Cong(FeVal(EC2D), 2 * D) && FeVal(ECD) == D
  {
    CongBy(FeVal(EC2D), 2 * D, -1);
  }

  /** r stands for p in its first three coordinates. */
  ghost predicate IsPartial(r: Ge, p: Point) {
    Tight(r.x) && Tight(r.y) && Tight(r.z) && Stands(p, FeVal(r.x), FeVal(r.y), FeVal(r.z))
  }

  /** r stands for p in all four coordinates. */
  ghost predicate IsFull(r: Ge, p: Point) {
    IsPartial(r, p) && Tight(r.t) && Extends(p, FeVal(r.z), FeVal(r.t))
  }

  ghost predicate IsCompleted(r: P1p1, p: Point) {
    && Loose(r.x) && Loose(r.y) && Loose(r.z) && Loose(r.t)
    && Completed(p, FeVal(r.x), FeVal(r.y), FeVal(r.z), FeVal(r.t))
  }

  ghost predicate IsNiels(n: Niels, q: Point) {
    && Loose(n.ysubx) && Loose(n.xaddy) && Loose(n.t2d)
    && Prepared(q, FeVal(n.ysubx), FeVal(n.xaddy), FeVal(n.t2d), 1)
  }

  ghost predicate IsPniels(n: Pniels, q: Point) {
    && Loose(n.ysubx) && Loose(n.xaddy) && Loose(n.t2d) && Loose(n.z)
    && Prepared(q, FeVal(n.ysubx), FeVal(n.xaddy), FeVal(n.t2d), FeVal(n.z))
  }

  /** ge25519_p1p1_to_partial: the fourth coordinate of the destination keeps its old value. */
  method ToPartial(r0: Ge, c: P1p1, ghost p: Point) returns (r: Ge)
    requires Fermat() && IsCompleted(c, p)
    ensures IsPartial(r, p) && r.t == r0.t
  {
    hide Stands, Completed, Tight, Loose, FeVal;
    var x := Mul(c.x, c.t);
    var y := Mul(c.y, c.z);
    var z := Mul(c.z, c.t);
    r := Ge(x, y, z, r0.t);
    FromCompleted(p, FeVal(c.x), FeVal(c.y), FeVal(c.z), FeVal(c.t));
    StandsCong(p, FeVal(c.x) * FeVal(c.t), FeVal(c.y) * FeVal(c.z), FeVal(c.z) * FeVal(c.t), FeVal(x), FeVal(y), FeVal(z));
  }

  /** ge25519_p1p1_to_full */
  method ToFull(c: P1p1, ghost p: Point) returns (r: Ge)
    requires Fermat() && IsCompleted(c, p)
    ensures IsFull(r, p)
  {
    hide Stands, Completed, Tight, Loose, FeVal;
    var x := Mul(c.x, c.t);
    var y := Mul(c.y, c.z);
    var z := Mul(c.z, c.t);
    var t := Mul(c.x, c.y);
    r := Ge(x, y, z, t);
    FromCompleted(p, FeVal(c.x), FeVal(c.y), FeVal(c.z), FeVal(c.t));
    StandsCong(p, FeVal(c.x) * FeVal(c.t), FeVal(c.y) * FeVal(c.z), FeVal(c.z) * FeVal(c.t), FeVal(x), FeVal(y), FeVal(z));
    ScaleCong(Prod(p.x, p.y), FeVal(c.x) * FeVal(c.y), FeVal(c.z) * FeVal(c.t), FeVal(t), FeVal(z));
  }

  /** Replacing equals by equals through the addition formulas. */
  lemma AddSteps(x1: int, y1: int, z1: int, t1: int, m: int, s: int, c: int, z2: int,
                 a: int, b: int, a2: int, b2: int, c2: int, d: int, rx: int, ry: int, rz: int, rt: int)
    requires Cong(a, y1 - x1) && Cong(b, y1 + x1) && Cong(a2, a * m) && Cong(b2, b * s) && Cong(c2, t1 * c) && Cong(d, z1 * z2)
    requires Cong(rx, b2 - a2) && Cong(ry, b2 + a2) && Cong(rz, 2 * d + c2) && Cong(rt, 2 * d - c2)
    ensures Cong(rx, (y1 + x1) * s - (y1 - x1) * m) && Cong(ry, (y1 + x1) * s + (y1 - x1) * m)
    ensures Cong(rz, 2 * (z1 * z2) + t1 * c) && Cong(rt, 2 * (z1 * z2) - t1 * c)
  {
    CongRefl(m);
    CongRefl(s);
    CongMul(a, y1 - x1, m, m);
    CongMul(b, y1 + x1, s, s);
    CongTrans(a2, a * m, (y1 - x1) * m);
    CongTrans(b2, b * s, (y1 + x1) * s);
    CongAdd(b2, (y1 + x1) * s, a2, (y1 - x1) * m);
    CongScale(2, d, z1 * z2);
    CongAdd(2 * d, 2 * (z1 * z2), c2, t1 * c);
    CongTrans(rx, b2 - a2, (y1 + x1) * s - (y1 - x1) * m);
    CongTrans(ry, b2 + a2, (y1 + x1) * s + (y1 - x1) * m);
    CongTrans(rz, 2 * d + c2, 2 * (z1 * z2) + t1 * c);
    CongTrans(rt, 2 * d - c2, 2 * (z1 * z2) - t1 * c);
  }

  lemma CongAssoc(c: int, c0: int, t1: int, t2: int, e: int)
    requires Cong(c0, t1 * t2) && Cong(c, c0 * e)
    ensures Cong(c, t1 * (t2 * e))
  {
    CongRefl(e);
    CongMul(c0, t1 * t2, e, e);
    assert (t1 * t2) * e == t1 * (t2 * e);
    CongTrans(c, c0 * e, t1 * (t2 * e));
  }

  /** ge25519_add_p1p1 */
  method AddP1p1(p: Ge, q: Ge, ghost p1: Point, ghost p2: Point) returns (r: P1p1)
    requires Fermat() && IsFull(p, p1) && IsFull(q, p2)
    ensures IsCompleted(r, Plus(p1, p2))
  {
    hide Fermat, Stands, Extends, Completed, Prepared, FeVal, Plus;
    Constants();
    var a, b, c, d, t, u: Fe;
    var rx, ry, rz, rt: Fe;
    a := Sub(p.y, p.x);
    b := Add(p.y, p.x);
    t := Sub(q.y, q.x);
    u := Add(q.y, q.x);
    ghost var a0, b0 := FeVal(a), FeVal(b);
    a := Mul(a, t);
    b := Mul(b, u);
    c := Mul(p.t, q.t);
    ghost var c0 := FeVal(c);
    c := Mul(c, EC2D);
    d := Mul(p.z, q.z);
    ghost var d0 := FeVal(d);
    d := Add(d, d);
    rx := Sub(b, a);
    ry := Add(b, a);
    rz := Add(d, c);
    rt := SubAfterBasic(d, c);
    r := P1p1(rx, ry, rz, rt);
    AddCompleted(p, q, p1, p2, FeVal(t), FeVal(u), a0, b0, FeVal(a), FeVal(b), c0, FeVal(c), d0, r);
  }

  /** The values in ge25519_add_p1p1 are the completed sum. */
  lemma AddCompleted(p: Ge, q: Ge, p1: Point, p2: Point, t: int, u: int, a0: int, b0: int, a: int, b: int,
                     c0: int, c: int, d: int, r: P1p1)
    requires Fermat() && IsFull(p, p1) && IsFull(q, p2)
    requires Cong(t, FeVal(q.y) - FeVal(q.x)) && Cong(u, FeVal(q.y) + FeVal(q.x))
    requires Cong(a0, FeVal(p.y) - FeVal(p.x)) && Cong(b0, FeVal(p.y) + FeVal(p.x))
    requires Cong(a, a0 * t) && Cong(b, b0 * u)
    requires Cong(c0, FeVal(p.t) * FeVal(q.t)) && Cong(c, c0 * FeVal(EC2D)) && Cong(d, FeVal(p.z) * FeVal(q.z))
    requires Cong(FeVal(r.x), b - a) && Cong(FeVal(r.y), b + a)
    requires Cong(FeVal(r.z), d + d + c) && Cong(FeVal(r.t), d + d - c)
    ensures Completed(Plus(p1, p2), FeVal(r.x), FeVal(r.y), FeVal(r.z), FeVal(r.t))
  {
    hide Fermat, Stands, Extends, Completed, Prepared, FeVal, Plus;
    Constants();
    var x1, y1, z1, t1 := FeVal(p.x), FeVal(p.y), FeVal(p.z), FeVal(p.t);
    var x2, y2, z2, t2, e := FeVal(q.x), FeVal(q.y), FeVal(q.z), FeVal(q.t), FeVal(EC2D);
    Prepare(p2, x2, y2, z2, t2, e);
    CongRefl(t2 * e);
    CongRefl(z2);
    PreparedCong(p2, y2 - x2, y2 + x2, t2 * e, z2, t, u, t2 * e, z2);
    SumFormulas(p1, p2, x1, y1, z1, t1, t, u, t2 * e, z2);
    CongAssoc(c, c0, t1, t2, e);
    AddSteps(x1, y1, z1, t1, t, u, t2 * e, z2, a0, b0, a, b, c, d, FeVal(r.x), FeVal(r.y), FeVal(r.z), FeVal(r.t));
    CompletedCong(Plus(p1, p2), (y1 + x1) * u - (y1 - x1) * t, (y1 + x1) * u + (y1 - x1) * t,
                  2 * (z1 * z2) + t1 * (t2 * e), 2 * (z1 * z2) - t1 * (t2 * e),
                  FeVal(r.x), FeVal(r.y), FeVal(r.z), FeVal(r.t));
  }

  /** ge25519_double_p1p1 */
  method DoubleP1p1(p: Ge, ghost p1: Point) returns (r: P1p1)
    requires Fermat() && IsPartial(p, p1)
    ensures IsCompleted(r, Plus(p1, p1))
  {
    hide Fermat, Stands, Completed, FeVal, Plus;
    var a, b, c: Fe;
    var rx, ry, rz, rt: Fe;
    a := Square(p.x);
    b := Square(p.y);
    c := Square(p.z);
    ghost var c0 := FeVal(c);
    c := AddReduce(c, c);
    rx := Add(p.x, p.y);
    ghost var x0 := FeVal(rx);
    rx := Square(rx);
    ghost var x1 := FeVal(rx);
    ry := Add(b, a);
    rz := Sub(b, a);
    rx := SubAfterBasic(rx, ry);
    rt := SubAfterBasic(c, rz);
    r := P1p1(rx, ry, rz, rt);
    DoubleSteps(FeVal(p.x), FeVal(p.y), FeVal(p.z), FeVal(a), FeVal(b), c0, FeVal(c), x0, x1,
                FeVal(rx), FeVal(ry), FeVal(rz), FeVal(rt));
    DoubleFormulas(p1, FeVal(p.x), FeVal(p.y), FeVal(p.z));
    ghost var x, y, z := FeVal(p.x), FeVal(p.y), FeVal(p.z);
    CompletedCong(Plus(p1, p1), (x + y) * (x + y) - (y * y + x * x), y * y + x * x, y * y - x * x,
                  2 * (z * z) - (y * y - x * x), FeVal(rx), FeVal(ry), FeVal(rz), FeVal(rt));
  }

  lemma DoubleSteps(x: int, y: int, z: int, a: int, b: int, c0: int, c: int, x0: int, x1: int,
                    rx: int, ry: int, rz: int, rt: int)
    requires Cong(a, x * x) && Cong(b, y * y) && Cong(c0, z * z) && Cong(c, c0 + c0)
    requires Cong(x0, x + y) && Cong(x1, x0 * x0)
    requires Cong(ry, b + a) && Cong(rz, b - a) && Cong(rx, x1 - ry) && Cong(rt, c - rz)
    ensures Cong(rx, (x + y) * (x + y) - (y * y + x * x)) && Cong(ry, y * y + x * x)
    ensures Cong(rz, y * y - x * x) && Cong(rt, 2 * (z * z) - (y * y - x * x))
  {
    CongAdd(b, y * y, a, x * x);
    CongTrans(ry, b + a, y * y + x * x);
    CongTrans(rz, b - a, y * y - x * x);
    CongMul(x0, x + y, x0, x + y);
    CongTrans(x1, x0 * x0, (x + y) * (x + y));
    CongAdd(x1, (x + y) * (x + y), ry, y * y + x * x);
    CongTrans(rx, x1 - ry, (x + y) * (x + y) - (y * y + x * x));
    CongAdd(c0, z * z, c0, z * z);
    CongTrans(c, c0 + c0, z * z + z * z);
    CongAdd(c, z * z + z * z, rz, y * y - x * x);
    CongTrans(rt, c - rz, 2 * (z * z) - (y * y - x * x));
  }

  /** The value side of every mixed addition: second operand prepared, z2z = 2 Z1 Z2. */
  lemma MixedCompleted(p: Ge, p1: Point, q: Point, m: int, s: int, c: int, z2: int,
                       a0: int, b0: int, a: int, b: int, c1: int, zz: int, rx: int, ry: int, rz: int, rt: int)
    requires Fermat() && IsFull(p, p1) && Prepared(q, m, s, c, z2)
    requires Cong(a0, FeVal(p.y) - FeVal(p.x)) && Cong(b0, FeVal(p.y) + FeVal(p.x))
    requires Cong(a, a0 * m) && Cong(b, b0 * s) && Cong(c1, FeVal(p.t) * c) && Cong(zz, 2 * (FeVal(p.z) * z2))
    requires Cong(rx, b - a) && Cong(ry, b + a) && Cong(rz, zz + c1) && Cong(rt, zz - c1)
    ensures Completed(Plus(p1, q), rx, ry, rz, rt)
  {
    hide Fermat, Stands, Extends, Completed, Prepared, FeVal, Plus;
    var x1, y1, z1, t1 := FeVal(p.x), FeVal(p.y), FeVal(p.z), FeVal(p.t);
    var d := z1 * z2;
    CongRefl(c1);
    CongAdd(zz, 2 * d, c1, c1);
    CongTrans(rz, zz + c1, 2 * d + c1);
    CongTrans(rt, zz - c1, 2 * d - c1);
    CongRefl(d);
    AddSteps(x1, y1, z1, t1, m, s, c, z2, a0, b0, a, b, c1, d, rx, ry, rz, rt);
    SumFormulas(p1, q, x1, y1, z1, t1, m, s, c, z2);
    CompletedCong(Plus(p1, q), (y1 + x1) * s - (y1 - x1) * m, (y1 + x1) * s + (y1 - x1) * m,
                  2 * d + t1 * c, 2 * d - t1 * c, rx, ry, rz, rt);
  }

  /** q, or its inverse when the sign bit is set. */
  function Signed(q: Point, signbit: bool): Point {
    if signbit then Negate(q) else q
  }

  lemma SignedPrepared(q: Point, m: int, s: int, c: int, z: int, signbit: bool)
    requires Fermat() && Prepared(q, m, s, c, z)
    ensures Prepared(Signed(q, signbit), if signbit then s else m, if signbit then m else s, if signbit then -c else c, z)
  {
    if signbit {
      NegatePrepared(q, m, s, c, z);
    }
  }

  lemma SignedProduct(c1: int, t1: int, c: int)
    requires Cong(c1, t1 * c)
    ensures Cong(-c1, t1 * -c)
  {
    CongScale(-1, c1, t1 * c);
    assert t1 * -c == -(t1 * c);
  }

  /**
   What ge25519_nielsadd2_p1p1 and ge25519_pnielsadd_p1p1 have in common: the sign bit
   exchanges the first two fields of the second operand and the last two of the result.
   */
  method SignedAdd(p: Ge, qsub: Fe, qadd: Fe, q2d: Fe, zz: Fe, signbit: bool, ghost p1: Point, ghost q: Point, ghost z2: int)
    returns (r: P1p1)
    requires Fermat() && IsFull(p, p1) && Loose(qsub) && Loose(qadd) && Loose(q2d) && Tight(zz)
    requires Prepared(q, FeVal(qsub), FeVal(qadd), FeVal(q2d), z2) && Cong(FeVal(zz), 2 * (FeVal(p.z) * z2))
    ensures IsCompleted(r, Plus(p1, Signed(q, signbit)))
  {
    hide Fermat, Stands, Extends, Completed, Prepared, FeVal, Plus, Signed;
    var a, b, c: Fe;
    var rx, ry, rz, rt: Fe;
    a := Sub(p.y, p.x);
    b := Add(p.y, p.x);
    ghost var a0, b0 := FeVal(a), FeVal(b);
    a := Mul(a, if signbit then qadd else qsub);
    rx := Mul(b, if signbit then qsub else qadd);
    ghost var b1 := FeVal(rx);
    ry := Add(rx, a);
    rx := Sub(rx, a);
    c := Mul(p.t, q2d);
    if signbit {
      rt := Add(zz, c);
      rz := Sub(zz, c);
    } else {
      rz := Add(zz, c);
      rt := Sub(zz, c);
    }
    r := P1p1(rx, ry, rz, rt);
    SignedPrepared(q, FeVal(qsub), FeVal(qadd), FeVal(q2d), z2, signbit);
    ghost var c0, c1 := FeVal(q2d), FeVal(c);
    SignedProduct(c1, FeVal(p.t), c0);
    MixedCompleted(p, p1, Signed(q, signbit), FeVal(if signbit then qadd else qsub), FeVal(if signbit then qsub else qadd),
                   if signbit then -c0 else c0, z2, a0, b0, FeVal(a), b1, if signbit then -c1 else c1, FeVal(zz),
                   FeVal(rx), FeVal(ry), FeVal(rz), FeVal(rt));
  }

  /** ge25519_nielsadd2_p1p1 */
  method NielsAdd2P1p1(p: Ge, q: Niels, signbit: bool, ghost p1: Point, ghost p2: Point) returns (r: P1p1)
    requires Fermat() && IsFull(p, p1) && IsNiels(q, p2)
    ensures IsCompleted(r, Plus(p1, Signed(p2, signbit)))
  {
    hide Fermat, Stands, Extends, Prepared, FeVal, IsCompleted, Plus, Signed;
    var zz := AddReduce(p.z, p.z);
    r := SignedAdd(p, q.ysubx, q.xaddy, q.t2d, zz, signbit, p1, p2, 1);
  }

  /** ge25519_pnielsadd_p1p1 */
  method PnielsAddP1p1(p: Ge, q: Pniels, signbit: bool, ghost p1: Point, ghost p2: Point) returns (r: P1p1)
    requires Fermat() && IsFull(p, p1) && IsPniels(q, p2)
    ensures IsCompleted(r, Plus(p1, Signed(p2, signbit)))
  {
    hide Fermat, Stands, Extends, Prepared, FeVal, IsCompleted, Plus, Signed;
    var zz := Mul(p.z, q.z);
    ghost var d := FeVal(zz);
    zz := AddReduce(zz, zz);
    CongScale(2, d, FeVal(p.z) * FeVal(q.z));
    CongTrans(FeVal(zz), 2 * d, 2 * (FeVal(p.z) * FeVal(q.z)));
    r := SignedAdd(p, q.ysubx, q.xaddy, q.t2d, zz, signbit, p1, p2, FeVal(q.z));
  }

  /** The unsigned mixed addition of ge25519_nielsadd2 and ge25519_pnielsadd, up to the completed point. */
  method MixedAdd(p: Ge, qsub: Fe, qadd: Fe, q2d: Fe, zz: Fe, ghost p1: Point, ghost q: Point, ghost z2: int) returns (r: P1p1)
    requires Fermat() && IsFull(p, p1) && Loose(qsub) && Loose(qadd) && Loose(q2d) && Below(zz, 0x10000000080000)
    requires Prepared(q, FeVal(qsub), FeVal(qadd), FeVal(q2d), z2) && Cong(FeVal(zz), 2 * (FeVal(p.z) * z2))
    ensures IsCompleted(r, Plus(p1, q))
  {
    hide Fermat, Stands, Extends, Completed, Prepared, FeVal, Plus;
    var a, b, c, e, f, g, h: Fe;
    a := Sub(p.y, p.x);
    b := Add(p.y, p.x);
    ghost var a0, b0 := FeVal(a), FeVal(b);
    a := Mul(a, qsub);
    e := Mul(b, qadd);
    ghost var b1 := FeVal(e);
    h := Add(e, a);
    e := Sub(e, a);
    c := Mul(p.t, q2d);
    g := Add(zz, c);
    f := SubAfterBasic(zz, c);
    r := P1p1(e, h, g, f);
    MixedCompleted(p, p1, q, FeVal(qsub), FeVal(qadd), FeVal(q2d), z2, a0, b0, FeVal(a), b1, FeVal(c), FeVal(zz),
                   FeVal(e), FeVal(h), FeVal(g), FeVal(f));
  }

  /** ge25519_nielsadd2 */
  method NielsAdd2(r0: Ge, q: Niels, ghost p1: Point, ghost p2: Point) returns (r: Ge)
    requires Fermat() && IsFull(r0, p1) && IsNiels(q, p2)
    ensures IsFull(r, Plus(p1, p2))
  {
    hide Stands, Extends, Prepared, FeVal, IsCompleted, Plus;
    var f := Add(r0.z, r0.z);
    CongRefl(2 * FeVal(r0.z));
    var c := MixedAdd(r0, q.ysubx, q.xaddy, q.t2d, f, p1, p2, 1);
    r := ToFull(c, Plus(p1, p2));
  }

  /** ge25519_full_to_pniels */
  method FullToPniels(r: Ge, ghost p: Point) returns (n: Pniels)
    requires Fermat() && IsFull(r, p)
    ensures IsPniels(n, p)
  {
    hide Fermat, Stands, Extends, Prepared, FeVal;
    Constants();
    var ysubx := Sub(r.y, r.x);
    var xaddy := Add(r.y, r.x);
    var t2d := Mul(r.t, EC2D);
    n := Pniels(ysubx, xaddy, r.z, t2d);
    ghost var x, y, z, t, e := FeVal(r.x), FeVal(r.y), FeVal(r.z), FeVal(r.t), FeVal(EC2D);
    Prepare(p, x, y, z, t, e);
    CongRefl(z);
    PreparedCong(p, y - x, y + x, t * e, z, FeVal(ysubx), FeVal(xaddy), FeVal(t2d), z);
  }

  /** ge25519_pnielsadd */
  method PnielsAdd(p: Ge, q: Pniels, ghost p1: Point, ghost p2: Point) returns (r: Pniels)
    requires Fermat() && IsFull(p, p1) && IsPniels(q, p2)
    ensures IsPniels(r, Plus(p1, p2))
  {
    hide Stands, Extends, Prepared, FeVal, IsCompleted, Plus;
    var t := Mul(p.z, q.z);
    ghost var d := FeVal(t);
    t := Add(t, t);
    CongScale(2, d, FeVal(p.z) * FeVal(q.z));
    var c := MixedAdd(p, q.ysubx, q.xaddy, q.t2d, t, p1, p2, FeVal(q.z));
    var s := ToFull(c, Plus(p1, p2));
    r := FullToPniels(s, Plus(p1, p2));
  }

  /** ge25519_double */
  method Double(p: Ge, ghost p1: Point) returns (r: Ge)
    requires Fermat() && IsPartial(p, p1)
    ensures IsFull(r, Plus(p1, p1))
  {
    var t := DoubleP1p1(p, p1);
    r := ToFull(t, Plus(p1, p1));
  }

  /** ge25519_double_partial */
  method DoublePartial(r0: Ge, p: Ge, ghost p1: Point) returns (r: Ge)
    requires Fermat() && IsPartial(p, p1)
    ensures IsPartial(r, Plus(p1, p1)) && r.t == r0.t
  {
    var t := DoubleP1p1(p, p1);
    r := ToPartial(r0, t, Plus(p1, p1));
  }

  /** ge25519_add */
  method AddFull(p: Ge, q: Ge, ghost p1: Point, ghost p2: Point) returns (r: Ge)
    requires Fermat() && IsFull(p, p1) && IsFull(q, p2)
    ensures IsFull(r, Plus(p1, p2))
  {
    var t := AddP1p1(p, q, p1, p2);
    r := ToFull(t, Plus(p1, p2));
  }
}
