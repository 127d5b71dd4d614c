/** The addition chains for inversion and square roots (curve25519-donna-helpers.h). */
module Chains {
  import opened Arith
  import opened Field
  import opened ModP

  /** a is z^n modulo p. */
  ghost predicate IsPow(a: Fe, z: Fe, n: nat) {
    Loose(a) && Cong(FeVal(a), Pow(FeVal(z), n))
  }

  /** One squaring run multiplies the exponent by 2^count. */
  method Squares(a: Fe, count: nat, ghost z: Fe, ghost n: nat) returns (out: Fe)
    requires IsPow(a, z, n) && 1 <= count
    ensures Tight(out) && IsPow(out, z, n * Exp2(count))
  {
    hide FeVal, Cong;
    out := SquareTimes(a, count);
    CongPow(FeVal(a), Pow(FeVal(z), n), Exp2(count));
    PowMul(FeVal(z), n, Exp2(count));
    CongTrans(FeVal(out), Pow(FeVal(a), Exp2(count)), Pow(FeVal(z), n * Exp2(count)));
  }

  /** One multiplication adds the exponents. */
  method Product(a: Fe, b: Fe, ghost z: Fe, ghost m: nat, ghost n: nat) returns (out: Fe)
    requires IsPow(a, z, m) && IsPow(b, z, n)
    ensures Tight(out) && IsPow(out, z, m + n)
  {
    hide FeVal, Cong;
    out := Mul(a, b);
    CongMul(FeVal(a), Pow(FeVal(z), m), FeVal(b), Pow(FeVal(z), n));
    PowAdd(FeVal(z), m, n);
    CongTrans(FeVal(out), FeVal(a) * FeVal(b), Pow(FeVal(z), m + n));
  }

  /** a is z^(2^m - 1) modulo p. */
  ghost predicate IsRun(a: Fe, z: Fe, m: nat) {
    IsPow(a, z, Exp2(m) - 1)
  }

  /** n squarings and a multiplication lengthen a run of ones by n: (2^m - 1) 2^n + (2^n - 1) == 2^(m + n) - 1. */
  method Lengthen(a: Fe, b: Fe, n: nat, ghost z: Fe, ghost m: nat) returns (out: Fe)
    requires IsRun(a, z, m) && IsRun(b, z, n) && 1 <= n
    ensures IsRun(out, z, m + n)
  {
    hide IsPow, Exp2;
    Exp2Add(m, n);
    ghost var e: int, f: int := Exp2(m), Exp2(n);
    MulNat(e - 1, f);
    var t0 := Squares(a, n, z, Exp2(m) - 1);
    out := Product(t0, b, z, (Exp2(m) - 1) * Exp2(n), Exp2(n) - 1);
    MulDistrib(Exp2(m), 1, Exp2(n));
  }

  /** curve25519_pow_two5mtwo0_two250mtwo0: from z^(2^5 - 1) to z^(2^250 - 1). */
  method PowTwo250(b0: Fe, ghost z: Fe) returns (b: Fe)
    requires IsRun(b0, z, 5)
    ensures IsRun(b, z, 250)
  {
    hide IsRun;
    var t0, c: Fe;
    b := Lengthen(b0, b0, 5, z, 5);
    c := Lengthen(b, b, 10, z, 10);
    t0 := Lengthen(c, c, 20, z, 20);
    b := Lengthen(t0, b, 10, z, 40);
    c := Lengthen(b, b, 50, z, 50);
    t0 := Lengthen(c, c, 100, z, 100);
    b := Lengthen(t0, b, 50, z, 200);
  }

  lemma Exp2Of250()
    ensures Exp2(250) * Exp2(5) == W255 && Exp2(250) * Exp2(2) == W255 / 8
  {
    assert Exp2(10) == 0x400 && Exp2(5) == 0x20 && Exp2(2) == 4;
    Exp2Step(10, 10, 0x400, 0x400);
    Exp2Step(20, 20, 0x100000, 0x100000);
    Exp2Step(40, 10, 0x10000000000, 0x400);
    Exp2Step(50, 50, 0x4000000000000, 0x4000000000000);
    Exp2Step(100, 100, 0x10000000000000000000000000, 0x10000000000000000000000000);
    Exp2Step(200, 50, 0x100000000000000000000000000000000000000000000000000, 0x4000000000000);
  }

  /** The common start of both chains: z^11 and z^31. */
  method Eleven(z: Fe) returns (a: Fe, b: Fe)
    requires Loose(z)
    ensures IsPow(a, z, 11) && IsRun(b, z, 5)
  {
    assert IsPow(z, z, 1) by {
      assert Pow(FeVal(z), 1) == FeVal(z);
      CongBy(FeVal(z), FeVal(z), 0);
    }
    hide IsPow;
    var t0: Fe;
    assert Exp2(1) == 2 && Exp2(2) == 4 && Exp2(5) == 32;
    a := Squares(z, 1, z, 1);
    t0 := Squares(a, 2, z, 2);
    b := Product(t0, z, z, 8, 1);
    a := Product(b, a, z, 9, 2);
    t0 := Squares(a, 1, z, 11);
    b := Product(t0, b, z, 22, 9);
  }

  /** curve25519_recip: z^(p - 2), where p - 2 == 2^255 - 21. */
  method Recip(z: Fe) returns (out: Fe)
    requires Loose(z)
    ensures Tight(out) && IsPow(out, z, P - 2)
  {
    hide IsPow;
    var a, b := Eleven(z);
    b := PowTwo250(b, z);
    Exp2Of250();
    b := Squares(b, 5, z, Exp2(250) - 1);
    out := Product(b, a, z, (Exp2(250) - 1) * Exp2(5), 11);
    assert (Exp2(250) - 1) * Exp2(5) + 11 == P - 2;
  }

  /** curve25519_pow_two252m3: z^((p - 5) / 8), where (p - 5) / 8 == 2^252 - 3. */
  method PowTwo252m3(z: Fe) returns (out: Fe)
    requires Loose(z)
    ensures Tight(out) && IsPow(out, z, (P - 5) / 8)
  {
    assert IsPow(z, z, 1) by {
      assert Pow(FeVal(z), 1) == FeVal(z);
      CongBy(FeVal(z), FeVal(z), 0);
    }
    hide IsPow;
    var c, b := Eleven(z);
    b := PowTwo250(b, z);
    Exp2Of250();
    b := Squares(b, 2, z, Exp2(250) - 1);
    out := Product(b, z, z, (Exp2(250) - 1) * Exp2(2), 1);
    assert (Exp2(250) - 1) * Exp2(2) + 1 == (P - 5) / 8;
  }
}
