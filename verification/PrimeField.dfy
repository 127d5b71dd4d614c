/**
 The integers modulo p as a field. The one thing taken as known is `Fermat`,
 Fermat's little theorem for p, which holds because p is prime.
 */
module PrimeField {
  import opened Arith
  import opened ModP

  const D: int := 0x52036cee2b6ffe738cc740797779e89800700a4d4141d8ab75eb4dca135978a3
  /** A square root of -1. */
  const SQRT_M1: int := 0x2b8324804fc1df0b2b4d00993dfbd7a72f431806ad2fe478c4ee1b274a0ea0b0

  ghost predicate Fermat() {
    forall a {:trigger Pow(a, P - 1)} :: !Cong(a, 0) ==> Cong(Pow(a, P - 1), 1)
  }

  /** Inverse modulo p of a nonzero number. */
  function Inv(a: int): int {
    Pow(a, P - 2)
  }

  /** Modulo p, every nonzero number has an inverse. */
  lemma InvIs(a: int)
    requires Fermat() && !Cong(a, 0)
    ensures Cong(a * Inv(a), 1)
  {
    assert Pow(a, P - 1) == a * Pow(a, P - 2);
  }

  /** Modulo p, a nonzero factor can be cancelled. */
  lemma CongCancel(a: int, b: int, c: int)
    requires Fermat() && !Cong(a, 0) && Cong(a * b, a * c)
    ensures Cong(b, c)
  {
    hide Inv, Cong;
    var i := Inv(a);
    InvIs(a);
    CongScale(i, a * b, a * c);
    CongRefl(b);
    CongRefl(c);
    CongMul(a * i, 1, b, b);
    CongMul(a * i, 1, c, c);
    assert i * (a * b) == (a * i) * b && i * (a * c) == (a * i) * c;
    CongSym((a * i) * b, 1 * b);
    CongTrans(1 * b, (a * i) * b, (a * i) * c);
    CongTrans(1 * b, (a * i) * c, 1 * c);
  }

  lemma NoZeroDivisors(a: int, b: int)
    requires Fermat() && !Cong(a, 0) && !Cong(b, 0)
    ensures !Cong(a * b, 0)
  {
    hide Cong, Fermat;
    assert a * 0 == 0;
    if Cong(a * b, 0) {
      CongCancel(a, b, 0);
    }
  }

  lemma SqrtM1Is()
    ensures Cong(SQRT_M1 * SQRT_M1, -1)
  {
    CongMod(SQRT_M1 * SQRT_M1, -1);
  }

  lemma ZeroMul(a: int, b: int)
    requires Cong(a, 0)
    ensures Cong(a * b, 0) && Cong(b * a, 0)
  {
    CongRefl(b);
    CongMul(a, 0, b, b);
    assert 0 * b == 0 && b * a == a * b;
  }

  lemma TwoIsUnit()
    ensures !Cong(2, 0) && !Cong(1, 0) && !Cong(-1, 0)
  {
    CongMod(2, 0);
    CongMod(1, 0);
    CongMod(-1, 0);
  }
}
