/**
 Bitwise operations on nonnegative integers, and the branch-free selections that
 the code builds from them: a mask made from a flag chooses between two words.
 */
module Bits {
  import opened Arith

  /** Bitwise exclusive or. */
  function Xor(a: nat, b: nat): (r: nat)
    ensures r == 0 <==> a == b
  {
    if a == 0 && b == 0 then 0 else (if a % 2 == b % 2 then 0 else 1) + 2 * Xor(a / 2, b / 2)
  }

  /** Bitwise or. */
  function Or(a: nat, b: nat): (r: nat)
    ensures r == 0 <==> a == 0 && b == 0
  {
    if a == 0 && b == 0 then 0 else (if a % 2 == 1 || b % 2 == 1 then 1 else 0) + 2 * Or(a / 2, b / 2)
  }

  /** Bitwise and. */
  function And(a: nat, b: nat): (r: nat)
    ensures r <= a && r <= b
  {
    if a == 0 || b == 0 then 0 else (if a % 2 == 1 && b % 2 == 1 then 1 else 0) + 2 * And(a / 2, b / 2)
  }

  /** No bit is set that the operands do not have room for. */
  lemma {:induction false} BitsBelow(a: nat, b: nat, n: nat)
    requires a < Exp2(n) && b < Exp2(n)
    ensures Xor(a, b) < Exp2(n) && Or(a, b) < Exp2(n)
  {
    if n > 0 {
      BitsBelow(a / 2, b / 2, n - 1);
    }
  }

  lemma {:induction false} WithZero(x: nat)
    ensures Xor(x, 0) == x && Xor(0, x) == x && Or(x, 0) == x && Or(0, x) == x
  {
    if x > 0 {
      WithZero(x / 2);
    }
  }

  lemma {:induction false} XorComm(a: nat, b: nat)
    ensures Xor(a, b) == Xor(b, a)
  {
    if a != 0 || b != 0 {
      XorComm(a / 2, b / 2);
    }
  }

  /** Exclusive or undoes itself. */
  lemma {:induction false} XorTwice(r: nat, t: nat)
    ensures Xor(r, Xor(r, t)) == t
  {
    if r != 0 || t != 0 {
      XorTwice(r / 2, t / 2);
      var x := Xor(r, t);
      assert x / 2 == Xor(r / 2, t / 2);
    }
  }

  lemma DivHalf(x: nat, e: nat)
    requires 0 < e
    ensures x % (2 * e) == x % 2 + 2 * ((x / 2) % e)
  {
    var q, r := (x / 2) / e, (x / 2) % e;
    assert x / 2 == e * q + r;
    assert x == 2 * (e * q + r) + x % 2;
    assert 2 * (e * q) == q * (2 * e);
    DivModUnique(x, 2 * e, q, x % 2 + 2 * r);
  }

  lemma {:induction false} AndComm(a: nat, b: nat)
    ensures And(a, b) == And(b, a)
  {
    if a != 0 && b != 0 {
      AndComm(a / 2, b / 2);
    }
  }

  lemma AndOdd(x: nat, m: nat)
    ensures And(x, 2 * m + 1) == x % 2 + 2 * And(x / 2, m)
  {
    var odd := 2 * m + 1;
    assert odd % 2 == 1 && odd / 2 == m;
  }

  /** A mask of n ones keeps the low n bits. */
  lemma {:induction false} AndOnes(x: nat, n: nat)
    ensures And(x, Exp2(n) - 1) == x % Exp2(n)
  {
    if n > 0 {
      var e := Exp2(n - 1);
      var low := And(x / 2, e - 1);
      assert low == (x / 2) % e by {
        AndOnes(x / 2, n - 1);
      }
      DivHalf(x, e);
      AndOdd(x, e - 1);
      hide And;
    }
  }

  /** Exclusive or with n ones is the complement. */
  lemma {:induction false} XorOnes(x: nat, n: nat)
    requires x < Exp2(n)
    ensures Xor(x, Exp2(n) - 1) == Exp2(n) - 1 - x
  {
    if n > 0 {
      var e := Exp2(n - 1);
      XorOnes(x / 2, n - 1);
      assert (2 * e - 1) % 2 == 1 && (2 * e - 1) / 2 == e - 1;
    }
  }

  /** A mask whose low bit is clear. */
  lemma AndEven(x: nat, m: nat)
    ensures And(x, 2 * m) == 2 * And(x / 2, m)
  {
  }

  /** Setting bit n. */
  lemma {:induction false} SetTop(x: nat, n: nat, e: nat)
    requires e == Exp2(n) && x < 2 * e
    ensures Or(x, e) == x % e + e
  {
    if n > 0 {
      var e' := Exp2(n - 1);
      SetTop(x / 2, n - 1, e');
      DivHalf(x, e');
      assert Or(x, 2 * e') == x % 2 + 2 * Or(x / 2, e');
    } else {
      WithZero(x);
    }
  }

  /** Exchanging bit n. */
  lemma {:induction false} TurnTop(x: nat, n: nat, e: nat)
    requires e == Exp2(n) && x < 2 * e
    ensures Xor(x, e) == if x < e then x + e else x - e
  {
    if n > 0 {
      var e' := Exp2(n - 1);
      TurnTop(x / 2, n - 1, e');
      assert Xor(x, 2 * e') == x % 2 + 2 * Xor(x / 2, e');
    } else {
      WithZero(x);
    }
  }

  lemma Exp2Words()
    ensures Exp2(32) == W32 && Exp2(31) == 0x80000000 && Exp2(64) == W64
  {
    assert Exp2(8) == 0x100;
    Exp2Step(8, 8, 0x100, 0x100);
    Exp2Step(16, 8, 0x10000, 0x100);
    assert Exp2(7) == 0x80;
    Exp2Step(24, 7, 0x1000000, 0x80);
    Exp2Step(24, 8, 0x1000000, 0x100);
    Exp2Step(32, 32, W32, W32);
  }

  /** mask & x, for a mask of sixty-four ones and for none. */
  lemma FullMask(x: u64)
    ensures And(W64 - 1, x) == x == And(x, W64 - 1) && And(0, x) == 0 == And(x, 0)
  {
    Exp2Words();
    AndOnes(x, 64);
    AndComm(x, W64 - 1);
    hide Exp2, And;
    ModSmall(x, W64);
  }

  /** The masks made from a flag. */
  lemma MaskOf(flag: int)
    requires 0 <= flag <= 1
    ensures (flag - 1) % W64 == (if flag == 1 then 0 else W64 - 1)
    ensures (-flag) % W64 == (if flag == 1 then W64 - 1 else 0)
  {
  }

  /** reduce256_modm: r ^= mask & (r ^ t) with mask = b - 1 copies t over r just when b is 0. */
  lemma Copied(b: u64, mask: u64, r: u64, t: u64)
    requires b <= 1 && mask == if b == 1 then 0 else W64 - 1
    ensures Xor(r, And(mask, Xor(r, t))) == if b == 0 then t else r
  {
    Exp2Words();
    BitsBelow(r, t, 64);
    hide Exp2;
    XorTwice(r, t);
    WithZero(r);
    hide Xor;
    FullMask(Xor(r, t));
    hide And;
  }

  /** curve25519_move_conditional_bytes, for one word, with nb = flag - 1. */
  lemma Moved(flag: u64, nb: u64, out: u64, input: u64)
    requires flag <= 1 && nb == if flag == 1 then 0 else W64 - 1
    ensures Or(And(out, nb), And(input, W64 - 1 - nb)) == if flag == 1 then input else out
  {
    FullMask(out);
    FullMask(input);
    WithZero(out);
    WithZero(input);
    hide And, Or;
  }

  /** curve25519_swap_conditional, for one pair of words, with swap = -iswap. */
  lemma Swapped(iswap: u64, swap: u64, a: u64, b: u64)
    requires iswap <= 1 && swap == if iswap == 1 then W64 - 1 else 0
    ensures Xor(a, And(swap, Xor(a, b))) == if iswap == 1 then b else a
    ensures Xor(b, And(swap, Xor(a, b))) == if iswap == 1 then a else b
  {
    Exp2Words();
    BitsBelow(a, b, 64);
    hide Exp2;
    XorTwice(a, b);
    XorTwice(b, a);
    XorComm(a, b);
    WithZero(a);
    WithZero(b);
    hide Xor;
    FullMask(Xor(a, b));
    hide And;
  }

  /** ge25519_windowb_equal */
  function WindowEqual(b: nat, c: nat): int {
    (Xor(b, c) - 1) % W32 / 0x80000000
  }

  lemma WindowEqualIs(b: nat, c: nat)
    requires b < 0x80000000 && c < 0x80000000
    ensures WindowEqual(b, c) == if b == c then 1 else 0
  {
    Exp2Words();
    BitsBelow(b, c, 31);
    hide Exp2;
  }

  /** The absolute value of a signed byte: (b + mask) ^ mask with mask = ~(sign - 1), in 32 bits. */
  function AbsoluteOf(b: int, sign: int): nat {
    var mask := W32 - 1 - (sign - 1) % W32;
    Xor((b + mask) % W32, mask)
  }

  lemma Absolute(b: int)
    requires -128 < b < 128
    ensures b % 256 / 128 == if b < 0 then 1 else 0
    ensures AbsoluteOf(b, b % 256 / 128) == if b < 0 then -b else b
  {
    if b < 0 {
      Complement(b);
    } else {
      WithZero(b);
      hide Xor;
      ModSmall(b, W32);
    }
  }

  lemma Complement(b: int)
    requires -128 < b < 0
    ensures AbsoluteOf(b, 1) == -b
  {
    Exp2Words();
    XorOnes(b + W32 - 1, 32);
    hide Exp2, Xor;
    ModSmall(b + W32 - 1, W32);
    ModSmall(0, W32);
  }

  /** Clamping: the bytes of ed25519_extsk. */
  lemma ClampLow(x: nat)
    requires x < 256
    ensures And(x, 248) == x - x % 8
  {
    hide And;
    AndEven(x, 124);
    AndEven(x / 2, 62);
    AndEven(x / 4, 31);
    assert Exp2(5) == 32;
    AndOnes(x / 8, 5);
  }

  lemma ClampHigh(x: nat)
    requires x < 256
    ensures Or(And(x, 127), 64) == x % 64 + 64
  {
    LowSeven(x);
    hide And, Or;
    SetBit6(x % 128);
  }

  lemma LowSeven(x: nat)
    ensures And(x, 127) == x % 128
  {
    assert Exp2(7) == 128;
    hide And;
    AndOnes(x, 7);
  }

  lemma SetBit6(x: nat)
    requires x < 128
    ensures Or(x, 64) == x % 64 + 64
  {
    hide Or;
    assert Exp2(6) == 64;
    SetTop(x, 6, 64);
  }

  lemma LowThree(x: nat)
    requires x < 8
    ensures And(x, 7) == x
  {
    assert Exp2(3) == 8;
    hide And;
    AndOnes(x, 3);
  }

  /** The test on the last byte of a signature. */
  lemma TopThreeBits(x: nat)
    requires x < 256
    ensures And(x, 224) == 0 <==> x < 32
  {
    hide And;
    var x1 := x / 2;
    var x2 := x1 / 2;
    var x3 := x2 / 2;
    var x4 := x3 / 2;
    AndEven(x, 112);
    AndEven(x1, 56);
    AndEven(x2, 28);
    AndEven(x3, 14);
    AndEven(x4, 7);
    LowThree(x4 / 2);
  }
}
