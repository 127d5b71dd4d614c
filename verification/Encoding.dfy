/**
 Packing and unpacking curve points on limbs (ge25519_pack and
 ge25519_unpack_negative_vartime), the constant-time comparison of byte strings
 and the neutral test of batch verification.
 */
module Encoding {
  import opened Arith
  import opened Bytes
  import opened Bits
  import opened ModP
  import opened PrimeField
  import opened Field
  import opened FieldBytes
  import opened Chains
  import opened Edwards
  import opened Projective
  import opened Points
  import opened Compression

  const SQRTNEG1: Fe := Fe(0x61b274a0ea0b0, 0x0d5a5fc8f189d, 0x7ef5e9cbd0c60, 0x78595a6804c9e, 0x2b8324804fc1d)

  lemma RootConstant()
    ensures FeVal(SQRTNEG1) == SQRT_M1 && FeVal(ONE) == 1
  {
  }

  /** ed25519_verify: collects the differing bits of all bytes. */
  method Verify(x: seq<byte>, y: seq<byte>) returns (same: bool)
    requires |x| == |y|
    ensures same <==> x == y
  {
    var differentbits: nat := 0;
    for i := 0 to |x|
      invariant differentbits < 256 && (differentbits == 0 <==> x[..i] == y[..i])
    {
      assert x[..i + 1] == x[..i] + [x[i]] && y[..i + 1] == y[..i] + [y[i]];
      assert Exp2(8) == 256;
      BitsBelow(x[i], y[i], 8);
      BitsBelow(differentbits, Xor(x[i], y[i]), 8);
      differentbits := Or(differentbits, Xor(x[i], y[i]));
    }
    assert x[..|x|] == x && y[..|y|] == y;
    // the borrow of (differentbits - 1) out of the low byte
    same := ((differentbits - 1) % W64) / 0x100 % 2 == 1;
  }

  /** The field element is v modulo p, and multiplications accept its limbs. */
  ghost predicate Has(a: Fe, v: int) {
    Loose(a) && Cong(FeVal(a), v)
  }

  method MulOf(a: Fe, b: Fe, ghost u: int, ghost v: int) returns (out: Fe)
    requires Has(a, u) && Has(b, v)
    ensures Tight(out) && Has(out, Prod(u, v))
  {
    hide FeVal;
    out := Mul(a, b);
    CongMul(FeVal(a), u, FeVal(b), v);
    ProdIs(u, v);
    CongTrans(FeVal(out), FeVal(a) * FeVal(b), u * v);
  }

  method SquareOf(a: Fe, ghost u: int) returns (out: Fe)
    requires Has(a, u)
    ensures Tight(out) && Has(out, Prod(u, u))
  {
    hide FeVal;
    out := Square(a);
    CongMul(FeVal(a), u, FeVal(a), u);
    ProdIs(u, u);
    CongTrans(FeVal(out), FeVal(a) * FeVal(a), u * u);
  }

  /** z times its (p-2)-nd power is one, so X z^(p-2) recovers the affine coordinate. */
  lemma Divide(x: int, a: int, z: int, i: int, out: int)
    requires Fermat() && !Cong(z, 0) && Reduced(a)
    requires Cong(x, Prod(a, z)) && Cong(i, Pow(z, P - 2)) && Cong(out, x * i)
    ensures out % P == a
  {
    ProdIs(a, z);
    InvIs(z);
    CongMul(x, a * z, i, Inv(z));
    CongTrans(out, x * i, (a * z) * Inv(z));
    assert (a * z) * Inv(z) == a * (z * Inv(z));
    CongScale(a, z * Inv(z), 1);
    CongTrans(out, a * (z * Inv(z)), a);
    ReducedMod(out);
    CongTrans(out % P, out, a);
    ReducedUnique(out % P, a);
  }

  /** The affine coordinates of a projective point, as pack works them out. */
  method Affine(p: Ge, ghost q: Point) returns (tx: Fe, ty: Fe)
    requires Fermat() && IsPartial(p, q)
    ensures Tight(tx) && Tight(ty) && FeVal(tx) % P == q.x && FeVal(ty) % P == q.y
  {
    OnCurveReduced(q);
    hide FeVal, OnCurve;
    var zi := Recip(p.z);
    tx := Mul(p.x, zi);
    ty := Mul(p.y, zi);
    Divide(FeVal(p.x), q.x, FeVal(p.z), FeVal(zi), FeVal(tx));
    Divide(FeVal(p.y), q.y, FeVal(p.z), FeVal(zi), FeVal(ty));
  }

  /** ge25519_pack: the point's encoding, whatever coordinates stand for it. */
  method Pack(p: Ge, ghost q: Point) returns (r: seq<byte>)
    requires Fermat() && IsPartial(p, q)
    ensures r == Encode(q)
  {
    OnCurveReduced(q);
    ReducedIs(q.y);
    hide FeVal, OnCurve, Encode, Le;
    var tx, ty := Affine(p, q);
    r := Contract(ty);
    var parity := Contract(tx);
    ParityByte(parity);
    ghost var r0 := r;
    SignByte(r[31], parity[0]);
    r := r[31 := Xor(r[31], And(parity[0], 1) * 128)];
    PackedBytes(q, r0);
  }

  lemma LowBit(x: nat)
    ensures And(x, 1) == x % 2
  {
    assert Exp2(1) == 2;
    AndOnes(x, 1);
  }

  lemma TurnBit7(x: nat)
    requires x < 256
    ensures Xor(x, 128) == (x + 128) % 256
  {
    hide Xor;
    assert Exp2(7) == 128;
    TurnTop(x, 7, 128);
  }

  /** r[31] ^= (parity & 1) << 7 */
  lemma SignByte(x: nat, parity: nat)
    requires x < 256
    ensures Xor(x, And(parity, 1) * 128) == if parity % 2 == 1 then (x + 128) % 256 else x
  {
    hide Xor, And;
    LowBit(parity);
    TurnBit7(x);
    WithZero(x);
  }

  lemma ParityByte(s: seq<byte>)
    requires |s| == 32
    ensures Le(s) % 2 == At(s, 0) % 2
  {
    assert Le(s) == At(s, 0) + 256 * Le(s[1..]);
  }

  /** The 32 bytes of y with the parity of x in the top bit. */
  lemma PackedBytes(q: Point, r: seq<byte>)
    requires Reduced(q.x) && Reduced(q.y) && |r| == 32 && Le(r) == q.y
    ensures Encode(q) == if q.x % 2 == 1 then FlipTop(r) else r
  {
    EncodeIs(q);
    FlipTopIs(r);
    SmallHigh(q.y);
    hide Encode, Le, FlipTop;
    LeInjective(if q.x % 2 == 1 then FlipTop(r) else r, Encode(q));
  }

  lemma SmallHigh(y: int)
    requires Reduced(y)
    ensures y / W255 == 0 && y % W255 == y
  {
    ReducedIs(y);
  }

  /** The candidate root, with num and den. */
  method CandidateRoot(y: Fe, ghost v: int) returns (num: Fe, den: Fe, x: Fe)
    requires Tight(y) && Cong(FeVal(y), v)
    ensures Tight(num) && Has(num, Num(v)) && Has(den, Den(v)) && Tight(x) && Has(x, Candidate(v))
  {
    Constants();
    RootConstant();
    CongRefl(D);
    hide FeVal, Cong;
    var t, d3: Fe;
    num := SquareOf(y, v);
    den := MulOf(num, ECD, Prod(v, v), D);
    ghost var yy, dyy := FeVal(num), FeVal(den);
    num := SubReduce(num, ONE);
    den := Add(den, ONE);
    assert Has(num, Num(v)) && Has(den, Den(v)) by {
      assert Below(ONE, 2);
      CongRefl(1);
      CongAdd(yy, Prod(v, v), 1, 1);
      CongTrans(FeVal(num), yy - 1, Num(v));
      CongAdd(dyy, Prod(Prod(v, v), D), 1, 1);
      CongTrans(FeVal(den), dyy + 1, Den(v));
    }
    hide Num, Den;
    ghost var n, d := Num(v), Den(v);
    t := SquareOf(den, d);
    d3 := MulOf(t, den, Prod(d, d), d);
    ghost var e := Prod(Prod(d, d), d);
    x := SquareOf(d3, e);
    x := MulOf(x, den, Prod(e, e), d);
    x := MulOf(x, num, Prod(Prod(e, e), d), n);
    ghost var w, fw := Prod(Prod(Prod(e, e), d), n), FeVal(x);
    x := PowTwo252m3(x);
    CongPow(fw, w, (P - 5) / 8);
    CongTrans(FeVal(x), Pow(fw, (P - 5) / 8), Pow(w, (P - 5) / 8));
    x := MulOf(x, d3, Pow(w, (P - 5) / 8), e);
    x := MulOf(x, num, Prod(Pow(w, (P - 5) / 8), e), n);
  }

  /** Contracting and comparing with zero bytes tests for zero modulo p. */
  method IsZeroMod(a: Fe) returns (zero: bool)
    requires Tight(a)
    ensures zero <==> Cong(FeVal(a), 0)
  {
    var check := Contract(a);
    CongMod(FeVal(a), 0);
    hide FeVal;
    var zeros := Zeros(32);
    LeZeros(zeros);
    if Le(check) == 0 {
      LeInjective(check, zeros);
    }
    zero := Verify(check, zeros);
  }

  lemma ZeroDifference(d: int, t: int, u: int, n: int, v: int)
    requires Cong(t, u) && Cong(n, v) && Cong(d, t - n)
    ensures Cong(d, 0) <==> Cong(u, v)
  {
    CongAdd(t, u, n, v);
    CongTrans(d, t - n, u - v);
    CongRefl(v);
    if Cong(d, 0) {
      CongSym(d, u - v);
      CongTrans(u - v, d, 0);
      CongAdd(u - v, 0, v, v);
    }
    if Cong(u, v) {
      CongAdd(u, v, v, v);
      CongTrans(d, u - v, 0);
    }
  }

  /** The root check of unpacking: one of the two roots, if either works. */
  method ChooseRoot(num: Fe, den: Fe, x0: Fe, ghost v: int) returns (ok: bool, x: Fe)
    requires Tight(num) && Has(num, Num(v)) && Has(den, Den(v)) && Tight(x0) && Has(x0, Candidate(v))
    ensures ok <==> Root(v).Some?
    ensures ok ==> Tight(x) && FeVal(x) % P == Root(v).value
  {
    hide FeVal, Cong, Num, Den, Candidate, Prod;
    ghost var c, d := Candidate(v), Den(v);
    x := x0;
    var t := SquareOf(x, c);
    t := MulOf(t, den, Prod(c, c), d);
    var root := SubReduce(t, num);
    ZeroDifference(FeVal(root), FeVal(t), Prod(Prod(c, c), d), FeVal(num), Num(v));
    CongMod(FeVal(x), c);
    ok := IsZeroMod(root);
    if !ok {
      ghost var ft := FeVal(t);
      t := AddReduce(t, num);
      CongScale(-1, FeVal(num), Num(v));
      ZeroDifference(FeVal(t), ft, Prod(Prod(c, c), d), -FeVal(num), -Num(v));
      ok := IsZeroMod(t);
      if ok {
        RootConstant();
        CongRefl(SQRT_M1);
        x := MulOf(x, SQRTNEG1, c, SQRT_M1);
        CongMod(FeVal(x), Prod(c, SQRT_M1));
      }
    }
  }

  /** Negates the root when its parity is the sign bit. */
  method FixSign(x0: Fe, sign: int) returns (x: Fe)
    requires Tight(x0)
    ensures Tight(x) && FeVal(x) % P == Flip(FeVal(x0) % P, sign)
  {
    hide FeVal, Le;
    x := x0;
    var check := Contract(x);
    ParityByte(check);
    if check[0] % 2 == sign {
      x := Neg(x0);
      NegatedResidue(FeVal(x), FeVal(x0));
    }
  }

  lemma NegatedResidue(a: int, b: int)
    requires Cong(a, -b)
    ensures a % P == (-(b % P)) % P
  {
    CongOfMod(b);
    CongScale(-1, b % P, b);
    CongSym(-(b % P), -b);
    CongTrans(a, -b, -(b % P));
    CongMod(a, -(b % P));
  }

  /** ge25519_unpack_negative_vartime: succeeds exactly on the strings that decompress, with Z = 1. */
  method UnpackNegative(s: seq<byte>) returns (ok: bool, r: Ge)
    requires |s| == 32
    ensures ok <==> DecompressNegative(s).Some?
    ensures ok ==> r.z == ONE && IsFull(r, DecompressNegative(s).value)
  {
    FlipTopIs(s);
    var parity := s[31] / 128;
    var y := Expand(s);
    ghost var v := YOf(s);
    CongOfMod(FeVal(y));
    CongSym(v, FeVal(y));
    var num, den, x := CandidateRoot(y, v);
    ok, x := ChooseRoot(num, den, x, v);
    r := Ge(x, y, ONE, y);
    if ok {
      DecompressSound(s);
      hide FeVal, Root, OnCurve, Le;
      x := FixSign(x, parity);
      var t := Mul(x, y);
      r := Ge(x, y, ONE, t);
      StandsAffine(DecompressNegative(s).value, FeVal(x), FeVal(y), FeVal(t));
      RootConstant();
    }
  }

  lemma StandsAffine(p: Point, x: int, y: int, t: int)
    requires OnCurve(p) && x % P == p.x && y % P == p.y && Cong(t, x * y)
    ensures Stands(p, x, y, 1) && Extends(p, 1, t)
  {
    hide OnCurve;
    CongOfMod(x);
    CongOfMod(y);
    CongSym(p.x, x);
    CongSym(p.y, y);
    ProdIs(p.x, 1);
    ProdIs(p.y, 1);
    ProdIs(p.x, p.y);
    ProdIs(p.x * p.y, 1);
    CongMul(x, p.x, y, p.y);
    CongTrans(t, x * y, p.x * p.y);
    CongMod(1, 0);
  }

  /** ge25519_is_neutral_vartime */
  method IsNeutral(p: Ge, ghost q: Point) returns (neutral: bool)
    requires Fermat() && IsPartial(p, q)
    ensures neutral <==> q == NEUTRAL
  {
    var x := Contract(p.x);
    var y := Contract(p.y);
    var z := Contract(p.z);
    var zeros := Zeros(32);
    LeZeros(zeros);
    hide FeVal, OnCurve;
    if Le(x) == 0 {
      LeInjective(x, zeros);
    }
    if Le(y) == Le(z) {
      LeInjective(y, z);
    }
    CongMod(FeVal(p.x), 0);
    CongMod(FeVal(p.y), FeVal(p.z));
    NeutralIs(q, FeVal(p.x), FeVal(p.y), FeVal(p.z));
    neutral := x == zeros && y == z;
  }

  /** X == 0 and Y == Z say that the point is neutral. */
  lemma NeutralIs(q: Point, x: int, y: int, z: int)
    requires Fermat() && Stands(q, x, y, z)
    ensures Cong(x, 0) && Cong(y, z) <==> q == NEUTRAL
  {
    OnCurveReduced(q);
    hide OnCurve, Cong;
    ProdIs(q.x, z);
    ProdIs(q.y, z);
    ReducedIs(0);
    ReducedIs(1);
    if Cong(x, 0) && Cong(y, z) {
      CongSym(x, q.x * z);
      CongTrans(q.x * z, x, 0);
      assert z * q.x == q.x * z && z * 0 == 0 && z * q.y == q.y * z && z * 1 == z;
      CongCancel(z, q.x, 0);
      CongSym(y, q.y * z);
      CongTrans(q.y * z, y, z);
      CongCancel(z, q.y, 1);
      ReducedUnique(q.x, 0);
      ReducedUnique(q.y, 1);
    }
  }
}
