/**
 d is not a square modulo p.

 Because p is 5 modulo 8, (p - 1)/4 is odd, so a square root of SQRT_M1 would have
 -1 for its (p - 1)st power and not 1. And d is SQRT_M1 times a square.
 */
module NonResidue {
  import opened Arith
  import opened ModP
  import opened PrimeField

  /** d is SQRT_M1 times the square of this. */
  const ROOT: int := 0x60387df186b22085ff955fa43624cda972e90eb0abcb57d177a4e6db9eb46b

  lemma RootConstantIs()
    ensures Cong(SQRT_M1 * (ROOT * ROOT), D) && !Cong(ROOT, 0)
  {
    CongMod(SQRT_M1 * (ROOT * ROOT), D);
    CongMod(ROOT, 0);
  }

  lemma PowTwo(a: int)
    ensures Pow(a, 2) == a * a
  {
    assert Pow(a, 1) == a * Pow(a, 0);
  }

  lemma {:induction false} OddPower(a: int, n: nat)
    requires Cong(a, -1)
    ensures Cong(Pow(a, 2 * n + 1), -1)
  {
    if n == 0 {
      assert Pow(a, 1) == a * Pow(a, 0);
    } else {
      OddPower(a, n - 1);
      var x := Pow(a, 2 * n - 1);
      assert Pow(a, 2 * n + 1) == a * (a * x);
      CongMul(a, -1, x, -1);
      CongMul(a, -1, a * x, 1);
    }
  }

  lemma MinusOne()
    ensures !Cong(1, -1)
  {
    CongMod(1, -1);
  }

  /** The square root of -1 is not itself a square. */
  lemma RootOfMinusOne(b: int)
    requires Fermat()
    ensures !Cong(b * b, SQRT_M1)
  {
    hide Pow, Cong;
    if Cong(b * b, SQRT_M1) {
      CongMul(b * b, SQRT_M1, b * b, SQRT_M1);
      SqrtM1Is();
      CongTrans((b * b) * (b * b), SQRT_M1 * SQRT_M1, -1);
      PowTwo(b);
      PowTwo(b * b);
      PowMul(b, 2, 2);
      var n: nat := (P - 5) / 8;
      OddPower(Pow(b, 4), n);
      PowMul(b, 4, 2 * n + 1);
      assert 4 * (2 * n + 1) == P - 1;
      Nonzero(b);
      CongSym(Pow(b, P - 1), 1);
      CongTrans(1, Pow(b, P - 1), -1);
      MinusOne();
    }
  }

  lemma Nonzero(b: int)
    requires Cong(b * b, SQRT_M1)
    ensures !Cong(b, 0)
  {
    hide Cong;
    if Cong(b, 0) {
      CongMul(b, 0, b, 0);
      CongSym(b * b, SQRT_M1);
      CongTrans(SQRT_M1, b * b, 0);
      CongMod(SQRT_M1, 0);
      assert false;
    }
  }

  /** d is not the ratio of two squares. */
  lemma NotRatio(w: int, v: int)
    requires Fermat() && !Cong(w, 0)
    ensures !Cong(D * (w * w), v * v)
  {
    hide Inv, Cong, Fermat;
    if Cong(D * (w * w), v * v) {
      RootConstantIs();
      var u := ROOT * w;
      NoZeroDivisors(ROOT, w);
      CongRefl(w * w);
      CongMul(SQRT_M1 * (ROOT * ROOT), D, w * w, w * w);
      assert (SQRT_M1 * (ROOT * ROOT)) * (w * w) == SQRT_M1 * (u * u);
      CongTrans(SQRT_M1 * (u * u), D * (w * w), v * v);
      SquareQuotient(SQRT_M1, u, v);
      RootOfMinusOne(v * Inv(u));
    }
  }

  lemma SquareQuotient(e: int, w: int, v: int)
    requires Fermat() && !Cong(w, 0) && Cong(e * (w * w), v * v)
    ensures Cong((v * Inv(w)) * (v * Inv(w)), e)
  {
    hide Inv, Cong, Fermat;
    InvIs(w);
    var i, t := Inv(w), v * Inv(w);
    CongScale(i * i, e * (w * w), v * v);
    assert (i * i) * (v * v) == t * t;
    assert (i * i) * (e * (w * w)) == e * ((w * i) * (w * i));
    CongMul(w * i, 1, w * i, 1);
    CongScale(e, (w * i) * (w * i), 1 * 1);
    assert e * (1 * 1) == e;
    CongSym(e * ((w * i) * (w * i)), t * t);
    CongTrans(t * t, e * ((w * i) * (w * i)), e);
  }
}
