/**
 The last step of multi-scalar multiplication: one scalar and one point remain
 (ge25519_multi_scalarmult_vartime_final in ed25519-donna-batchverify.h).
 */
module FinalScalar {
  import opened Arith
  import opened Groups
  import opened Options
  import opened Scalars

  lemma Exp2Of56()
    ensures Exp2(56) == W56 && Exp2(55) == W56 / 2
  {
    assert Exp2(7) == 0x80 && Exp2(8) == 0x100;
    Exp2Step(8, 8, 0x100, 0x100);
    Exp2Step(16, 16, 0x10000, 0x10000);
    Exp2Step(32, 16, 0x100000000, 0x10000);
    Exp2Step(48, 7, 0x1000000000000, 0x80);
  }

  lemma {:induction false} RadixExp2(n: nat)
    ensures Radix(n) == Exp2(56 * n)
  {
    if n > 0 {
      RadixExp2(n - 1);
      Exp2Of56();
      Exp2Add(56, 56 * (n - 1));
    }
  }

  /** 2^n with n the bit length of x: the least power of two above x. */
  function TopWeight(x: nat): (r: nat)
    ensures r > x
  {
    if x == 0 then 1 else 2 * TopWeight(x / 2)
  }

  lemma {:induction false} TopWeightIs(x: nat, n: nat)
    requires x < Exp2(n) && (n == 0 || Exp2(n - 1) <= x)
    ensures TopWeight(x) == Exp2(n)
  {
    if n > 0 {
      TopWeightIs(x / 2, n - 1);
    }
  }

  /**
   What the final step returns for scalar s and point p. The doubling loop starts
   from p itself and also processes the leading set bit, so a scalar of at least
   two comes out with 2^(bit length) added. Limb 4 is never looked at, and if
   limbs 0..3 are zero the search for a set bit runs off the array (None).
   */
  function FinalOf<T(!new)>(g: Group<T>, s: nat, p: T): Option<T> {
    if s == 1 then Some(p)
    else if s == 0 then Some(g.zero)
    else if s % W224 == 0 then None
    else Some(Times(g, TopWeight(s % W224) + s % W224, p))
  }

  /** Bits at and below weight f/2 in limb `limb`, with all lower limbs. */
  ghost function Below(s: Scalar, limb: nat, f: nat): nat
    requires limb < |s| && 0 < f
  {
    Low(s, limb) + (s[limb] % f) * Radix(limb)
  }

  /** Multiple m so far, with the bits below weight f of limb `limb` still to come. */
  ghost function Pending(s: Scalar, limb: nat, f: nat, m: nat): nat
    requires limb < |s| && 0 < f
  {
    m * (f * Radix(limb)) + Below(s, limb, f)
  }

  /** Splitting off the digit at `flag`. */
  lemma SplitBit(x: nat, flag: nat)
    requires 0 < flag
    ensures x % (2 * flag) == (x / flag % 2) * flag + x % flag
  {
    var q, r := x / flag, x % flag;
    assert x == flag * q + r;
    assert q == 2 * (q / 2) + q % 2;
    assert x == (q / 2) * (2 * flag) + ((q % 2) * flag + r);
    DivModUnique(x, 2 * flag, q / 2, (q % 2) * flag + r);
  }

  lemma BitWeights(m: int, b: int, x: int, f: int, r: int)
    ensures m * (2 * f * r) + (b * f + x) * r == (2 * m + b) * (f * r) + x * r
  {
    var w := f * r;
    MulDistrib(b * f, x, r);
    assert (b * f) * r == b * w;
    MulDistrib(2 * m, b, w);
    assert 2 * f * r == 2 * w;
    assert m * (2 * w) == (2 * m) * w;
  }

  lemma StepWeight(s: Scalar, limb: nat, flag: nat, m: nat)
    requires limb < |s| && 0 < flag
    ensures Pending(s, limb, 2 * flag, m) == Pending(s, limb, flag, 2 * m + s[limb] / flag % 2)
  {
    SplitBit(s[limb], flag);
    BitWeights(m, s[limb] / flag % 2, s[limb] % flag, flag, Radix(limb));
  }

  /** The lowest weight of one limb is the highest weight of the limb below. */
  lemma NextLimb(s: Scalar, limb: nat, m: nat)
    requires 0 < limb < |s| && Canonical(s)
    ensures Pending(s, limb, 1, m) == Pending(s, limb - 1, W56, m)
  {
    ModSmall(s[limb - 1], W56);
  }

  lemma PendingDone(s: Scalar, m: nat)
    ensures Pending(s, 0, 1, m) == m
  {
  }

  lemma LowMod(s: Scalar)
    requires Canonical(s)
    ensures Low(s, 4) == Val(s) % W224
  {
    RadixValues();
    LowBound(s, 4);
    assert Val(s) == Low(s, 4) + s[4] * Radix(4);
    DivModUnique(Val(s), W224, s[4], Low(s, 4));
  }

  /** Index of the highest nonzero limb among 3..0, if there is one. */
  method TopLimb(s: Scalar) returns (limb: Option<nat>)
    requires Canonical(s)
    ensures limb.None? <==> Low(s, 4) == 0
    ensures limb.Some? ==> limb.value < 4 && s[limb.value] != 0 && Low(s, 4) == Low(s, limb.value + 1)
  {
    var i: nat := 3;
    while s[i] == 0
      invariant i < 4 && Low(s, 4) == Low(s, i + 1)
      decreases i
    {
      assert Low(s, i + 1) == Low(s, i);
      if i == 0 {
        return None;
      }
      i := i - 1;
    }
    LimbBelow(s, i, i + 1);
    MulLe(1, s[i], Radix(i));
    return Some(i);
  }

  /** The highest set bit of a nonzero word, as a power of two. */
  method TopFlag(x: nat) returns (flag: nat, ghost k: nat)
    requires 0 < x < W56
    ensures k < 56 && flag == Exp2(k) && flag <= x < 2 * flag
  {
    Exp2Of56();
    flag, k := W56 / 2, 55;
    while x / flag % 2 == 0
      invariant k < 56 && flag == Exp2(k) && x < 2 * flag
      decreases k
    {
      SplitBit(x, flag);
      ModSmall(x, 2 * flag);
      assert x < flag;
      if k == 0 {
        assert false;
      }
      flag, k := flag / 2, k - 1;
    }
    if x < flag {
      DivModUnique(x, flag, 0, x);
      assert false;
    }
  }

  lemma TopOfSum(k: nat, j: nat, x: nat, lo: nat)
    requires Exp2(k) <= x < 2 * Exp2(k) && lo < Exp2(j)
    ensures TopWeight(lo + x * Exp2(j)) == 2 * Exp2(k) * Exp2(j)
  {
    var e, r := Exp2(k), Exp2(j);
    Exp2Add(k, j);
    Exp2Add(k + 1, j);
    assert Exp2(k + 1) == 2 * e;
    hide Exp2;
    MulLe(e, x, r);
    MulLt(x, 2 * e, r);
    TopWeightIs(lo + x * r, k + 1 + j);
  }

  /** From the top bit of the top limb, everything is still to come. */
  lemma LeadingBit(s: Scalar, limb: nat, k: nat)
    requires Canonical(s) && limb < 4 && k < 56 && Low(s, 4) == Low(s, limb + 1)
    requires Exp2(k) <= s[limb] < 2 * Exp2(k)
    ensures Pending(s, limb, 2 * Exp2(k), 1) == TopWeight(Low(s, 4)) + Low(s, 4)
  {
    assert Low(s, limb + 1) == Low(s, limb) + s[limb] * Radix(limb);
    hide Exp2, Radix, Low;
    RadixExp2(limb);
    ModSmall(s[limb], 2 * Exp2(k));
    LowBound(s, limb);
    TopOfSum(k, 56 * limb, s[limb], Low(s, limb));
  }

  /** A multiple of a multiple that vanishes vanishes. */
  lemma VanishMul<T(!new)>(g: Group<T>, a: int, b: int, p: T)
    requires Abelian(g) && g.carrier(p) && Times(g, b, p) == g.zero
    ensures Times(g, a * b, p) == g.zero
  {
    TimesTimes(g, a, b, p);
    TimesZero(g, a);
  }

  lemma VanishSub<T(!new)>(g: Group<T>, a: int, b: int, p: T)
    requires Abelian(g) && g.carrier(p) && Times(g, b, p) == g.zero
    ensures Times(g, a - b, p) == Times(g, a, p)
  {
    TimesAdd(g, a - b, b, p);
    TimesIn(g, a - b, p);
    Unit(g, Times(g, a - b, p));
  }

  /** An element of prime order l is killed by no smaller positive multiple. */
  lemma {:induction false} SmallOrder<T(!new)>(g: Group<T>, l: nat, k: nat, q: T)
    requires Abelian(g) && g.carrier(q) && Prime(l) && 0 < k < l
    requires Times(g, l, q) == g.zero && Times(g, k, q) == g.zero
    ensures q == g.zero
    decreases k
  {
    if k == 1 {
      TimesOne(g, q);
    } else {
      var r := l % k;
      assert r != 0 && l == (l / k) * k + r;
      VanishMul(g, l / k, k, q);
      VanishSub(g, l, (l / k) * k, q);
      SmallOrder(g, l, r, q);
    }
  }

  /** With 8 l p == 0 and l prime, a multiple below l vanishes only if 8p does. */
  lemma OnlyTorsion<T(!new)>(g: Group<T>, l: nat, k: nat, p: T)
    requires Abelian(g) && g.carrier(p) && Prime(l) && 0 < k < l
    requires Times(g, 8 * l, p) == g.zero && Times(g, k, p) == g.zero
    ensures Times(g, 8, p) == g.zero
  {
    var q := Times(g, 8, p);
    TimesTimes(g, l, 8, p);
    VanishMul(g, 8, k, p);
    assert 8 * k == k * 8;
    TimesTimes(g, k, 8, p);
    SmallOrder(g, l, k, q);
  }

  /** The power added by the final step is 4, or a multiple of 8. */
  lemma TopWeightMod(s: nat)
    requires s >= 2
    ensures TopWeight(s) <= 2 * s
    ensures s < 4 ==> TopWeight(s) == 4
    ensures s >= 4 ==> TopWeight(s) % 8 == 0
  {
    TopWeightLe(s);
    if s < 4 {
      assert s / 2 == 1 && TopWeight(1) == 2 * TopWeight(0);
    } else {
      var h := s / 2;
      var w := TopWeight(h / 2);
      assert TopWeight(h) == 2 * w && TopWeight(s) == 2 * TopWeight(h);
      TopWeightEven(h / 2);
      hide TopWeight;
      assert w == 2 * (w / 2);
      DivModUnique(TopWeight(s), 8, w / 2, 0);
    }
  }

  lemma {:induction false} TopWeightLe(s: nat)
    requires s >= 1
    ensures TopWeight(s) <= 2 * s
  {
    if s >= 2 {
      TopWeightLe(s / 2);
    }
  }

  lemma TopWeightEven(s: nat)
    requires s >= 1
    ensures TopWeight(s) % 2 == 0
  {
  }

  /** If 8p == 0, adding the top weight does not change whether a multiple vanishes. */
  lemma TorsionAgrees<T(!new)>(g: Group<T>, s: nat, p: T)
    requires Abelian(g) && g.carrier(p) && s >= 2 && Times(g, 8, p) == g.zero
    ensures Times(g, TopWeight(s) + s, p) == g.zero <==> Times(g, s, p) == g.zero
  {
    var w := TopWeight(s);
    TopWeightMod(s);
    if s >= 4 {
      VanishMul(g, w / 8, 8, p);
      assert w == w / 8 * 8;
      VanishSub(g, w + s, w, p);
    } else if s == 2 {
      // 6p is the inverse of 2p
      TimesNeg(g, 2, p);
      TimesNeg(g, -2, p);
      TimesZeroNeg(g);
      VanishSub(g, 6, 8, p);
    } else {
      // 7p is the inverse of p, and 9p == p
      TimesOne(g, p);
      TimesNeg(g, 1, p);
      TimesNeg(g, -1, p);
      TimesZeroNeg(g);
      VanishSub(g, 7, 8, p);
      if Times(g, 3, p) == g.zero {
        VanishMul(g, 3, 3, p);
        VanishSub(g, 9, 8, p);
      }
      if p == g.zero {
        TimesZero(g, 3);
      }
    }
  }

  lemma TimesZeroNeg<T(!new)>(g: Group<T>)
    requires Abelian(g)
    ensures g.neg(g.zero) == g.zero
  {
    Unit(g, g.zero);
    NegUnique(g, g.zero, g.zero);
  }

  /** In a group of exponent 8l, the added weight does not change whether a multiple below l/4 vanishes. */
  lemma WeightAgrees<T(!new)>(g: Group<T>, l: nat, s: nat, p: T)
    requires Abelian(g) && g.carrier(p) && Prime(l) && 4 * s <= l && 2 <= s
    requires Times(g, 8 * l, p) == g.zero
    ensures Times(g, TopWeight(s) + s, p) == g.zero <==> Times(g, s, p) == g.zero
  {
    TopWeightMod(s);
    hide Times, TopWeight, Abelian, Prime;
    var k := TopWeight(s) + s;
    if Times(g, s, p) == g.zero {
      OnlyTorsion(g, l, s, p);
      TorsionAgrees(g, s, p);
    } else if Times(g, k, p) == g.zero {
      OnlyTorsion(g, l, k, p);
      TorsionAgrees(g, s, p);
    }
  }

  /**
   Although the final step does not return [s]p, testing its result for the
   neutral element tests [s]p, for every point of a group of exponent 8l.
   */
  lemma NeutralAgrees<T(!new)>(g: Group<T>, l: nat, s: nat, p: T)
    requires Abelian(g) && g.carrier(p) && Prime(l) && 4 * W224 <= l
    requires Times(g, 8 * l, p) == g.zero && s < W224
    ensures FinalOf(g, s, p).Some?
    ensures FinalOf(g, s, p).value == g.zero <==> Times(g, s, p) == g.zero
  {
    ModSmall(s, W224);
    TimesOne(g, p);
    assert Times(g, 0, p) == g.zero;
    if s >= 2 {
      WeightAgrees(g, l, s, p);
    }
    hide Times, TopWeight, Abelian, Prime;
  }

  /**
   The final step returns [s]p exactly for scalars below two, and for others exactly when
   limbs 0..3 are not all zero and what was added (2^(bit length) of those limbs) less what
   was dropped (limb 4) annihilates p.
   */
  lemma FinalExact<T(!new)>(g: Group<T>, s: nat, p: T)
    requires Abelian(g) && g.carrier(p)
    ensures FinalOf(g, s, p) == Some(Times(g, s, p)) <==>
            s < 2 || (s % W224 != 0 && Times(g, TopWeight(s % W224) - s / W224 * W224, p) == g.zero)
  {
    TimesOne(g, p);
    if s >= 2 && s % W224 != 0 {
      var low := s % W224;
      var k := TopWeight(low) + low;
      var d := TopWeight(low) - s / W224 * W224;
      assert k == d + s;
      TimesAdd(g, d, s, p);
      var x, y := Times(g, d, p), Times(g, s, p);
      Unit(g, y);
      if g.add(x, y) == y {
        Comm(g, x, y);
        Cancel(g, y, x, g.zero);
      }
    }
  }
}
