/**
 Verification as section 5.1.7 of RFC 8032 has it, compared with what ed25519_sign_open tests.
 The code does not reject S of m or more, unpacks more key strings, and does not multiply by eight.
 */
module StandardVerification {
  import opened Arith
  import opened Groups
  import opened Bytes
  import opened ModM
  import opened PrimeField
  import opened Edwards
  import opened CurveGroup
  import opened Compression
  import opened ScalarMult
  import opened Sha512Standard
  import opened Signature
  import opened Batch

  /** The key and the first half of the signature decode to a and q, and S is in range. */
  ghost predicate Decoded(pk: seq<byte>, rs: seq<byte>, a: Point, q: Point) {
    && |rs| == 64 && Le(rs[32..]) < M
    && OnCurve(a) && Encode(a) == pk && OnCurve(q) && Encode(q) == rs[..32]
  }

  /** The hash as an integer, not reduced. */
  function HashOf(m: seq<byte>, pk: seq<byte>, rs: seq<byte>): nat
    requires |rs| == 64
  {
    Le(Sha512(rs[..32] + pk + m))
  }

  /** [8][S]B == [8]R + [8][k]A */
  ghost predicate Standard(m: seq<byte>, pk: seq<byte>, rs: seq<byte>, base: Point) {
    exists a: Point, q: Point :: Decoded(pk, rs, a, q) &&
      Mult(8, Mult(Le(rs[32..]), base)) == Plus(Mult(8, q), Mult(8, Mult(HashOf(m, pk, rs), a)))
  }

  /** [S]B == R + [h]A, which the section allows to test instead, with the hash reduced. */
  ghost predicate Plain(m: seq<byte>, pk: seq<byte>, rs: seq<byte>, base: Point) {
    exists a: Point, q: Point :: Decoded(pk, rs, a, q) &&
      Mult(Le(rs[32..]), base) == Plus(q, Mult(Challenge(rs[..32], pk, m), a))
  }

  /** y == -z + (x + z) turned round: x == -z + w just when w == x + z. */
  lemma Transpose<T(!new)>(g: Group<T>, x: T, z: T, w: T)
    requires Abelian(g) && g.carrier(x) && g.carrier(z) && g.carrier(w)
    ensures g.add(g.neg(z), w) == x <==> w == g.add(x, z)
  {
    hide Abelian;
    Unit(g, z);
    Unit(g, x);
    Unit(g, w);
    Comm(g, x, z);
    Comm(g, z, g.neg(z));
    Assoc(g, g.neg(z), z, x);
    Assoc(g, z, g.neg(z), w);
  }

  /** The verifier's point is R just when the equation holds. */
  lemma EquationTurned(h: int, a: Point, s: int, base: Point, q: Point)
    requires Fermat() && OnCurve(a) && OnCurve(base) && OnCurve(q)
    ensures OnCurve(Negate(a)) && OnCurve(Mult2(h, Negate(a), s, base))
    ensures Mult2(h, Negate(a), s, base) == q <==> Mult(s, base) == Plus(q, Mult(h, a))
  {
    NegateIs(a);
    hide Fermat, OnCurve, Plus, Negate, Mult, Abelian;
    Mult2Step(h, Negate(a), s, base, 0);
    NegatedMultiple(h, a);
    MultIn(h, a);
    MultIn(s, base);
    CurveIsAbelian();
    Transpose(Curve(), q, Mult(h, a), Mult(s, base));
  }

  lemma NegatedMultiple(h: int, a: Point)
    requires Fermat() && OnCurve(a)
    ensures Mult(h, Negate(a)) == Negate(Mult(h, a))
  {
    hide Fermat, OnCurve, Plus, Abelian, Negate;
    CurveIsAbelian();
    Unit(Curve(), a);
    TimesSum(Curve(), h, a, Negate(a));
    TimesZero(Curve(), h);
    NegUnique(Curve(), Mult(h, a), Mult(h, Negate(a)));
  }

  /** S below m has its top bits clear. */
  lemma InRange(s: seq<byte>)
    requires |s| == 32
    ensures At(s, 31) < 32 <==> Le(s) < W255 / 4
  {
    LeLast(s);
    Exp256Of31();
    hide Le, Exp256;
    var e, b, low := Exp256(31), At(s, 31), Le(s[..31]);
    if b < 32 {
      MulLe(b + 1, 32, e);
      assert (b + 1) * e == e * b + e;
    } else {
      MulLe(32, b, e);
    }
  }

  /** Whatever is accepted has S below 2^253. */
  lemma AcceptedRange(m: seq<byte>, pk: seq<byte>, rs: seq<byte>, base: Point)
    requires Accepts(m, pk, rs, base)
    ensures |rs| == 64 && Le(rs[32..]) < W255 / 4
  {
    assert At(rs, 63) == At(rs[32..], 31);
    InRange(rs[32..]);
  }

  /** Below 2^253 only S modulo m matters. */
  lemma ResponseReduced(m: seq<byte>, pk: seq<byte>, rs: seq<byte>, base: Point)
    requires |rs| == 64 && Le(rs[32..]) < W255 / 4
    ensures Accepts(m, pk, rs, base) <==> Accepts(m, pk, rs[..32] + LeBytes(Le(rs[32..]) % M, 32), base)
  {
    var v := Le(rs[32..]) % M;
    var reduced := rs[..32] + LeBytes(v, 32);
    assert reduced[..32] == rs[..32] && reduced[32..] == LeBytes(v, 32);
    Exp256Of31();
    LeOfBytes(v, 32);
    InRange(rs[32..]);
    InRange(reduced[32..]);
    assert At(rs, 63) == At(rs[32..], 31) && At(reduced, 63) == At(reduced[32..], 31);
    hide Mult2, Encode, DecompressNegative, Challenge, Le, LeBytes;
    ModSmall(v, M);
  }

  /** What the code tests, for S in range and a key string that encodes a. */
  lemma AcceptsIs(m: seq<byte>, pk: seq<byte>, rs: seq<byte>, a: Point, base: Point)
    requires Domain(base) && |rs| == 64 && Le(rs[32..]) < M && OnCurve(a) && Encode(a) == pk
    ensures OnCurve(Negate(a)) && OnCurve(Mult2(Challenge(rs[..32], pk, m), Negate(a), Le(rs[32..]), base))
    ensures Accepts(m, pk, rs, base)
       <==> Encode(Mult2(Challenge(rs[..32], pk, m), Negate(a), Le(rs[32..]), base)) == rs[..32]
  {
    DecompressEncode(a);
    NegateIs(a);
    InRange(rs[32..]);
    assert At(rs, 63) == At(rs[32..], 31);
    hide Fermat, OnCurve, Plus, Negate, Mult, Mult2, Encode, DecompressNegative, Challenge, Le;
    ModSmall(Le(rs[32..]), M);
    Mult2Step(Challenge(rs[..32], pk, m), Negate(a), Le(rs[32..]), base, 0);
  }

  /**
   For S below m and keys that the standard decodes, the code makes the test without the
   factor eight; it accepts nothing else of such signatures and keys.
   */
  lemma PlainExact(m: seq<byte>, pk: seq<byte>, rs: seq<byte>, base: Point)
    requires Domain(base) && |rs| == 64
    ensures Plain(m, pk, rs, base) <==> Accepts(m, pk, rs, base) && Le(rs[32..]) < M && IsEncoding(pk)
  {
    var h, s := Challenge(rs[..32], pk, m), Le(rs[32..]);
    hide Fermat, OnCurve, Plus, Negate, Mult, Mult2, Encode, Challenge, Le, Accepts;
    if a: Point, q: Point :| Decoded(pk, rs, a, q) && Mult(s, base) == Plus(q, Mult(h, a)) {
      AcceptsIs(m, pk, rs, a, base);
      EquationTurned(h, a, s, base, q);
    }
    if Accepts(m, pk, rs, base) && s < M && IsEncoding(pk) {
      var a: Point :| OnCurve(a) && Encode(a) == pk;
      AcceptsIs(m, pk, rs, a, base);
      var q := Mult2(h, Negate(a), s, base);
      EquationTurned(h, a, s, base, q);
      assert Decoded(pk, rs, a, q) && Mult(s, base) == Plus(q, Mult(h, a));
    }
  }

  /** By how much [S]B exceeds R + [h]A. */
  function Defect(s: int, h: int, a: Point, q: Point, base: Point): Point {
    Plus(Mult(s, base), Negate(Plus(q, Mult(h, a))))
  }

  /** x - w vanishes, or vanishes times n, just when x and w or their multiples agree. */
  lemma Difference<T(!new)>(g: Group<T>, n: int, x: T, w: T)
    requires Abelian(g) && g.carrier(x) && g.carrier(w)
    ensures g.add(x, g.neg(w)) == g.zero <==> x == w
    ensures Times(g, n, g.add(x, g.neg(w))) == g.zero <==> Times(g, n, x) == Times(g, n, w)
  {
    hide Abelian, Times;
    Unit(g, w);
    Unit(g, x);
    Vanishes(g, x, w);
    TimesSum(g, n, x, g.neg(w));
    TimesSum(g, n, w, g.neg(w));
    TimesZero(g, n);
    NegUnique(g, Times(g, n, w), Times(g, n, g.neg(w)));
    Vanishes(g, Times(g, n, x), Times(g, n, w));
  }

  lemma Vanishes<T(!new)>(g: Group<T>, x: T, w: T)
    requires Abelian(g) && g.carrier(x) && g.carrier(w)
    ensures g.add(x, g.neg(w)) == g.zero <==> x == w
  {
    hide Abelian;
    Unit(g, w);
    Unit(g, x);
    Assoc(g, x, g.neg(w), w);
    Comm(g, w, g.neg(w));
    Unit(g, g.neg(w));
  }

  /** With the factor eight it does not matter whether the hash is reduced. */
  lemma ReducedHash(k: nat, a: Point, base: Point)
    requires BatchDomain(base) && OnCurve(a)
    ensures Mult(8, Mult(k, a)) == Mult(8, Mult(k % M, a))
  {
    assert Mult(8 * M, a) == NEUTRAL;
    hide Fermat, OnCurve, Plus, Mult;
    var j, r: int := k / M, k % M;
    MultTimes(8, k, a);
    MultTimes(8, r, a);
    MultTimes(j, 8 * M, a);
    assert j * (8 * M) + 8 * r == 8 * k;
    MultAdd(8 * r, j * (8 * M), a);
    MultIn(8 * r, a);
    PlusNeutral(Mult(8 * r, a));
  }

  /** The two equations, in terms of the defect. */
  lemma DefectIs(s: int, k: nat, a: Point, q: Point, base: Point)
    requires BatchDomain(base) && OnCurve(a) && OnCurve(q)
    ensures var t := Defect(s, k % M, a, q, base);
      && (t == NEUTRAL <==> Mult(s, base) == Plus(q, Mult(k % M, a)))
      && (Mult(8, t) == NEUTRAL <==> Mult(8, Mult(s, base)) == Plus(Mult(8, q), Mult(8, Mult(k, a))))
  {
    ReducedHash(k, a, base);
    hide Fermat, OnCurve, Plus, Negate, Times, Abelian;
    var h: int := k % M;
    MultIn(s, base);
    MultIn(h, a);
    CurveIsAbelian();
    Comm(Curve(), q, Mult(h, a));
    Difference(Curve(), 8, Mult(s, base), Plus(q, Mult(h, a)));
    TimesSum(Curve(), 8, q, Mult(h, a));
  }

  /**
   Verification by the standard and by the code, exactly: on decoded signatures the one asks that
   eight times the defect vanish, and the other that the defect vanish.
   */
  lemma StandardExact(m: seq<byte>, pk: seq<byte>, rs: seq<byte>, a: Point, q: Point, base: Point)
    requires BatchDomain(base) && Decoded(pk, rs, a, q)
    ensures var t := Defect(Le(rs[32..]), Challenge(rs[..32], pk, m), a, q, base);
      && (Standard(m, pk, rs, base) <==> Mult(8, t) == NEUTRAL)
      && (Accepts(m, pk, rs, base) <==> t == NEUTRAL)
  {
    var s, k := Le(rs[32..]), HashOf(m, pk, rs);
    DefectIs(s, k, a, q, base);
    PlainExact(m, pk, rs, base);
    assert Challenge(rs[..32], pk, m) == k % M;
    hide Fermat, OnCurve, Plus, Negate, Mult, Encode, Challenge, HashOf, Le, Accepts, Defect, BatchDomain;
    assert IsEncoding(pk);
    forall b: Point, r: Point | Decoded(pk, rs, b, r)
      ensures b == a && r == q
    {
      SameDecoded(pk, rs, a, q, b, r, base);
    }
  }

  lemma SameDecoded(pk: seq<byte>, rs: seq<byte>, a: Point, q: Point, b: Point, r: Point, base: Point)
    requires BatchDomain(base) && Decoded(pk, rs, a, q) && Decoded(pk, rs, b, r)
    ensures b == a && r == q
  {
    EncodeInjective(a, b);
    EncodeInjective(q, r);
  }

  /** What the code accepts, with S in range and a key that the standard decodes, the standard accepts. */
  lemma AcceptedIsStandard(m: seq<byte>, pk: seq<byte>, rs: seq<byte>, base: Point)
    requires BatchDomain(base) && Accepts(m, pk, rs, base) && Le(rs[32..]) < M && IsEncoding(pk)
    ensures Standard(m, pk, rs, base)
  {
    PlainExact(m, pk, rs, base);
    var a: Point, q: Point :| Decoded(pk, rs, a, q) &&
      Mult(Le(rs[32..]), base) == Plus(q, Mult(Challenge(rs[..32], pk, m), a));
    hide Fermat, OnCurve, Plus, Negate, Mult, Encode, Challenge, Le, Accepts, Defect, Standard;
    StandardExact(m, pk, rs, a, q, base);
    EightNeutral(base);
  }

  lemma EightNeutral(base: Point)
    requires Domain(base)
    ensures Mult(8, NEUTRAL) == NEUTRAL
  {
    hide Fermat, OnCurve, Mult;
    MultTimes(8, 0, base);
  }

  /** S + m in place of S, where the top bits stay clear, is accepted as well, and the standard rejects it. */
  lemma LargerResponse(m: seq<byte>, pk: seq<byte>, rs: seq<byte>, base: Point)
    requires |rs| == 64 && Accepts(m, pk, rs, base) && Le(rs[32..]) + M < W255 / 4
    ensures var larger := rs[..32] + LeBytes(Le(rs[32..]) + M, 32);
      Accepts(m, pk, larger, base) && !Standard(m, pk, larger, base)
  {
    var v := Le(rs[32..]) + M;
    var larger := rs[..32] + LeBytes(v, 32);
    assert larger[..32] == rs[..32] && larger[32..] == LeBytes(v, 32);
    Exp256Of31();
    LeOfBytes(v, 32);
    InRange(larger[32..]);
    assert At(larger, 63) == At(larger[32..], 31);
    ModShift(Le(rs[32..]), 1, M);
    hide Mult2, Encode, DecompressNegative, Challenge, Le, LeBytes;
  }
}
