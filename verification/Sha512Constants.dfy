/**
 Where the constants of SHA-512 come from (sections 4.2.3 and 5.3.5 of FIPS 180-4): the first sixty-four
 bits of the fractional parts of the cube roots and the square roots of the first primes.
 */
module Sha512Constants {
  import opened Arith
  import opened Sha512Standard
  import opened Sha512Words

  /** x is the first 64 bits of the fractional part of the square root of p. */
  ghost predicate FromSquareRoot(x: bv64, p: nat) {
    exists n: nat :: n * n <= p * W128 < (n + 1) * (n + 1) && x as nat == n % W64
  }

  /** The same for the cube root. */
  ghost predicate FromCubeRoot(x: bv64, p: nat) {
    exists n: nat :: n * (n * n) <= p * (W128 * W64) < (n + 1) * ((n + 1) * (n + 1)) && x as nat == n % W64
  }

  lemma SquareRoot(x: bv64, p: nat, whole: nat, f: nat)
    requires x as nat == f < W64
    requires var n := whole * W64 + f; n * n <= p * W128 < (n + 1) * (n + 1)
    ensures FromSquareRoot(x, p)
  {
    var n := whole * W64 + f;
    DivModUnique(n, W64, whole, f);
    assert n * n <= p * W128 < (n + 1) * (n + 1) && x as nat == n % W64;
  }

  lemma CubeRoot(x: bv64, p: nat, whole: nat, f: nat)
    requires x as nat == f < W64
    requires var n := whole * W64 + f; n * (n * n) <= p * (W128 * W64) < (n + 1) * ((n + 1) * (n + 1))
    ensures FromCubeRoot(x, p)
  {
    var n := whole * W64 + f;
    DivModUnique(n, W64, whole, f);
    assert n * (n * n) <= p * (W128 * W64) < (n + 1) * ((n + 1) * (n + 1)) && x as nat == n % W64;
  }

  /** Divisible by no prime up to 19 but itself. */
  predicate Survives(n: nat) {
    && (n == 2 || n % 2 != 0) && (n == 3 || n % 3 != 0) && (n == 5 || n % 5 != 0) && (n == 7 || n % 7 != 0)
    && (n == 11 || n % 11 != 0) && (n == 13 || n % 13 != 0) && (n == 17 || n % 17 != 0) && (n == 19 || n % 19 != 0)
  }

  lemma Divides(q: nat, s: nat, n: nat)
    requires 0 < q && 0 < s && s % q == 0 && n % s == 0
    ensures n % q == 0
  {
    var a, b := s / q, n / s;
    assert n == s * b && s == q * a;
    assert n == (a * b) * q;
    ModShift(0, a * b, q);
  }

  /** A composite number below 441 has a divisor of at most 20. */
  lemma SmallDivisor(n: nat, d: nat)
    requires 1 < d < n < 441 && n % d == 0
    ensures exists s :: 1 < s <= 20 && s < n && n % s == 0
  {
    var e := n / d;
    assert n == d * e;
    if d > 20 {
      if e > 20 {
        MulLe(21, d, e);
        assert false;
      }
      if e <= 1 {
        MulLe(e, 1, d);
        assert false;
      }
      ModShift(0, d, e);
      assert n % e == 0;
    }
  }

  lemma SieveOne(s: nat, n: nat)
    requires 1 < s <= 20 && s < n && n % s == 0
    ensures !Survives(n)
  {
    if s % 2 == 0 {
      Divides(2, s, n);
    } else if s % 3 == 0 {
      Divides(3, s, n);
    } else if s % 5 == 0 {
      Divides(5, s, n);
    }
  }

  /** Below 441 that decides primality. */
  lemma Sieve(n: nat)
    requires 1 < n < 441
    ensures Prime(n) <==> Survives(n)
  {
    if Survives(n) && !Prime(n) {
      var d :| 1 < d < n && n % d == 0;
      SmallDivisor(n, d);
      var s :| 1 < s <= 20 && s < n && n % s == 0;
      SieveOne(s, n);
    }
  }

  /** Prime n, counted from 0. */
  ghost predicate NthPrime(n: nat, p: nat) {
    if n == 0 then p == 2 else exists q :: NthPrime(n - 1, q) && NextPrime(q, p)
  }

  ghost predicate NextPrime(q: nat, p: nat) {
    q < p && Prime(p) && forall n :: q < n < p ==> !Prime(n)
  }

  /** The numbers between q and p are sieved out. */
  predicate NoneBetween(q: nat, p: nat)
    decreases p - q
  {
    q + 1 >= p || (!Survives(q + 1) && NoneBetween(q + 1, p))
  }

  lemma {:induction false} NoneIs(q: nat, p: nat, n: nat)
    requires 1 < q < n < p < 441 && NoneBetween(q, p)
    ensures !Prime(n)
    decreases p - q
  {
    if n == q + 1 {
      Sieve(n);
    } else {
      NoneIs(q + 1, p, n);
    }
  }

  lemma Next(i: nat, q: nat, p: nat)
    requires NthPrime(i, q) && 1 < q < p < 441 && Survives(p) && NoneBetween(q, p)
    ensures NthPrime(i + 1, p)
  {
    Sieve(p);
    forall n | q < n < p
      ensures !Prime(n)
    {
      NoneIs(q, p, n);
    }
    assert NthPrime(i, q) && NextPrime(q, p);
  }

  /** Round constant t comes from the cube root of prime t. */
  ghost predicate Rooted(t: nat) {
    t < 80 && exists p :: NthPrime(t, p) && FromCubeRoot(ROUND_CONSTANTS[t], p)
  }

  lemma RootedBy(t: nat, k: bv64, p: nat, whole: nat, f: nat)
    requires t < 80 && ROUND_CONSTANTS[t] == k && NthPrime(t, p) && k as nat == f < W64
    requires var n := whole * W64 + f; n * (n * n) <= p * (W128 * W64) < (n + 1) * ((n + 1) * (n + 1))
    ensures Rooted(t)
  {
    CubeRoot(k, p, whole, f);
  }

  lemma Constants0()
    ensures HasConstants(0, 0x428a2f98d728ae22, 0x7137449123ef65cd, 0xb5c0fbcfec4d3b2f, 0xe9b5dba58189dbbc,
                         0x3956c25bf348b538, 0x59f111f1b605d019, 0x923f82a4af194f9b, 0xab1c5ed5da6d8118)
  {
  }

  lemma Primes0()
    ensures NthPrime(0, 2)
    ensures NthPrime(1, 3)
    ensures NthPrime(2, 5)
    ensures NthPrime(3, 7)
    ensures NthPrime(4, 11)
    ensures NthPrime(5, 13)
    ensures NthPrime(6, 17)
    ensures NthPrime(7, 19)
  {
    assert NthPrime(0, 2);
    hide NthPrime;
    Next(0, 2, 3);
    Next(1, 3, 5);
    Next(2, 5, 7);
    Next(3, 7, 11);
    Next(4, 11, 13);
    Next(5, 13, 17);
    Next(6, 17, 19);
  }

  lemma Roots0()
    ensures forall t :: 0 <= t < 8 ==> Rooted(t)
  {
    Constants0();
    Primes0();
    hide NthPrime, Rooted, ROUND_CONSTANTS;
    RootedBy(0, 0x428a2f98d728ae22, 2, 1, 0x428a2f98d728ae22);
    RootedBy(1, 0x7137449123ef65cd, 3, 1, 0x7137449123ef65cd);
    RootedBy(2, 0xb5c0fbcfec4d3b2f, 5, 1, 0xb5c0fbcfec4d3b2f);
    RootedBy(3, 0xe9b5dba58189dbbc, 7, 1, 0xe9b5dba58189dbbc);
    RootedBy(4, 0x3956c25bf348b538, 11, 2, 0x3956c25bf348b538);
    RootedBy(5, 0x59f111f1b605d019, 13, 2, 0x59f111f1b605d019);
    RootedBy(6, 0x923f82a4af194f9b, 17, 2, 0x923f82a4af194f9b);
    RootedBy(7, 0xab1c5ed5da6d8118, 19, 2, 0xab1c5ed5da6d8118);
  }

  lemma Constants8()
    ensures HasConstants(8, 0xd807aa98a3030242, 0x12835b0145706fbe, 0x243185be4ee4b28c, 0x550c7dc3d5ffb4e2,
                         0x72be5d74f27b896f, 0x80deb1fe3b1696b1, 0x9bdc06a725c71235, 0xc19bf174cf692694)
  {
  }

  lemma Primes8()
    ensures NthPrime(8, 23)
    ensures NthPrime(9, 29)
    ensures NthPrime(10, 31)
    ensures NthPrime(11, 37)
    ensures NthPrime(12, 41)
    ensures NthPrime(13, 43)
    ensures NthPrime(14, 47)
    ensures NthPrime(15, 53)
  {
    Primes0();
    hide NthPrime;
    Next(7, 19, 23);
    Next(8, 23, 29);
    Next(9, 29, 31);
    Next(10, 31, 37);
    Next(11, 37, 41);
    Next(12, 41, 43);
    Next(13, 43, 47);
    Next(14, 47, 53);
  }

  lemma Roots8()
    ensures forall t :: 8 <= t < 16 ==> Rooted(t)
  {
    Constants8();
    Primes8();
    hide NthPrime, Rooted, ROUND_CONSTANTS;
    RootedBy(8, 0xd807aa98a3030242, 23, 2, 0xd807aa98a3030242);
    RootedBy(9, 0x12835b0145706fbe, 29, 3, 0x12835b0145706fbe);
    RootedBy(10, 0x243185be4ee4b28c, 31, 3, 0x243185be4ee4b28c);
    RootedBy(11, 0x550c7dc3d5ffb4e2, 37, 3, 0x550c7dc3d5ffb4e2);
    RootedBy(12, 0x72be5d74f27b896f, 41, 3, 0x72be5d74f27b896f);
    RootedBy(13, 0x80deb1fe3b1696b1, 43, 3, 0x80deb1fe3b1696b1);
    RootedBy(14, 0x9bdc06a725c71235, 47, 3, 0x9bdc06a725c71235);
    RootedBy(15, 0xc19bf174cf692694, 53, 3, 0xc19bf174cf692694);
  }

  lemma Constants16()
    ensures HasConstants(16, 0xe49b69c19ef14ad2, 0xefbe4786384f25e3, 0x0fc19dc68b8cd5b5, 0x240ca1cc77ac9c65,
                         0x2de92c6f592b0275, 0x4a7484aa6ea6e483, 0x5cb0a9dcbd41fbd4, 0x76f988da831153b5)
  {
  }

  lemma Primes16()
    ensures NthPrime(16, 59)
    ensures NthPrime(17, 61)
    ensures NthPrime(18, 67)
    ensures NthPrime(19, 71)
    ensures NthPrime(20, 73)
    ensures NthPrime(21, 79)
    ensures NthPrime(22, 83)
    ensures NthPrime(23, 89)
  {
    Primes8();
    hide NthPrime;
    Next(15, 53, 59);
    Next(16, 59, 61);
    Next(17, 61, 67);
    Next(18, 67, 71);
    Next(19, 71, 73);
    Next(20, 73, 79);
    Next(21, 79, 83);
    Next(22, 83, 89);
  }

  lemma Roots16()
    ensures forall t :: 16 <= t < 24 ==> Rooted(t)
  {
    Constants16();
    Primes16();
    hide NthPrime, Rooted, ROUND_CONSTANTS;
    RootedBy(16, 0xe49b69c19ef14ad2, 59, 3, 0xe49b69c19ef14ad2);
    RootedBy(17, 0xefbe4786384f25e3, 61, 3, 0xefbe4786384f25e3);
    RootedBy(18, 0x0fc19dc68b8cd5b5, 67, 4, 0x0fc19dc68b8cd5b5);
    RootedBy(19, 0x240ca1cc77ac9c65, 71, 4, 0x240ca1cc77ac9c65);
    RootedBy(20, 0x2de92c6f592b0275, 73, 4, 0x2de92c6f592b0275);
    RootedBy(21, 0x4a7484aa6ea6e483, 79, 4, 0x4a7484aa6ea6e483);
    RootedBy(22, 0x5cb0a9dcbd41fbd4, 83, 4, 0x5cb0a9dcbd41fbd4);
    RootedBy(23, 0x76f988da831153b5, 89, 4, 0x76f988da831153b5);
  }

  lemma Constants24()
    ensures HasConstants(24, 0x983e5152ee66dfab, 0xa831c66d2db43210, 0xb00327c898fb213f, 0xbf597fc7beef0ee4,
                         0xc6e00bf33da88fc2, 0xd5a79147930aa725, 0x06ca6351e003826f, 0x142929670a0e6e70)
  {
  }

  lemma Primes24()
    ensures NthPrime(24, 97)
    ensures NthPrime(25, 101)
    ensures NthPrime(26, 103)
    ensures NthPrime(27, 107)
    ensures NthPrime(28, 109)
    ensures NthPrime(29, 113)
    ensures NthPrime(30, 127)
    ensures NthPrime(31, 131)
  {
    Primes16();
    hide NthPrime;
    Next(23, 89, 97);
    Next(24, 97, 101);
    Next(25, 101, 103);
    Next(26, 103, 107);
    Next(27, 107, 109);
    Next(28, 109, 113);
    Next(29, 113, 127);
    Next(30, 127, 131);
  }

  lemma Roots24()
    ensures forall t :: 24 <= t < 32 ==> Rooted(t)
  {
    Constants24();
    Primes24();
    hide NthPrime, Rooted, ROUND_CONSTANTS;
    RootedBy(24, 0x983e5152ee66dfab, 97, 4, 0x983e5152ee66dfab);
    RootedBy(25, 0xa831c66d2db43210, 101, 4, 0xa831c66d2db43210);
    RootedBy(26, 0xb00327c898fb213f, 103, 4, 0xb00327c898fb213f);
    RootedBy(27, 0xbf597fc7beef0ee4, 107, 4, 0xbf597fc7beef0ee4);
    RootedBy(28, 0xc6e00bf33da88fc2, 109, 4, 0xc6e00bf33da88fc2);
    RootedBy(29, 0xd5a79147930aa725, 113, 4, 0xd5a79147930aa725);
    RootedBy(30, 0x06ca6351e003826f, 127, 5, 0x06ca6351e003826f);
    RootedBy(31, 0x142929670a0e6e70, 131, 5, 0x142929670a0e6e70);
  }

  lemma Constants32()
    ensures HasConstants(32, 0x27b70a8546d22ffc, 0x2e1b21385c26c926, 0x4d2c6dfc5ac42aed, 0x53380d139d95b3df,
                         0x650a73548baf63de, 0x766a0abb3c77b2a8, 0x81c2c92e47edaee6, 0x92722c851482353b)
  {
  }

  lemma Primes32()
    ensures NthPrime(32, 137)
    ensures NthPrime(33, 139)
    ensures NthPrime(34, 149)
    ensures NthPrime(35, 151)
    ensures NthPrime(36, 157)
    ensures NthPrime(37, 163)
    ensures NthPrime(38, 167)
    ensures NthPrime(39, 173)
  {
    Primes24();
    hide NthPrime;
    Next(31, 131, 137);
    Next(32, 137, 139);
    Next(33, 139, 149);
    Next(34, 149, 151);
    Next(35, 151, 157);
    Next(36, 157, 163);
    Next(37, 163, 167);
    Next(38, 167, 173);
  }

  lemma Roots32()
    ensures forall t :: 32 <= t < 40 ==> Rooted(t)
  {
    Constants32();
    Primes32();
    hide NthPrime, Rooted, ROUND_CONSTANTS;
    RootedBy(32, 0x27b70a8546d22ffc, 137, 5, 0x27b70a8546d22ffc);
    RootedBy(33, 0x2e1b21385c26c926, 139, 5, 0x2e1b21385c26c926);
    RootedBy(34, 0x4d2c6dfc5ac42aed, 149, 5, 0x4d2c6dfc5ac42aed);
    RootedBy(35, 0x53380d139d95b3df, 151, 5, 0x53380d139d95b3df);
    RootedBy(36, 0x650a73548baf63de, 157, 5, 0x650a73548baf63de);
    RootedBy(37, 0x766a0abb3c77b2a8, 163, 5, 0x766a0abb3c77b2a8);
    RootedBy(38, 0x81c2c92e47edaee6, 167, 5, 0x81c2c92e47edaee6);
    RootedBy(39, 0x92722c851482353b, 173, 5, 0x92722c851482353b);
  }

  lemma Constants40()
    ensures HasConstants(40, 0xa2bfe8a14cf10364, 0xa81a664bbc423001, 0xc24b8b70d0f89791, 0xc76c51a30654be30,
                         0xd192e819d6ef5218, 0xd69906245565a910, 0xf40e35855771202a, 0x106aa07032bbd1b8)
  {
  }

  lemma Primes40()
    ensures NthPrime(40, 179)
    ensures NthPrime(41, 181)
    ensures NthPrime(42, 191)
    ensures NthPrime(43, 193)
    ensures NthPrime(44, 197)
    ensures NthPrime(45, 199)
    ensures NthPrime(46, 211)
    ensures NthPrime(47, 223)
  {
    Primes32();
    hide NthPrime;
    Next(39, 173, 179);
    Next(40, 179, 181);
    Next(41, 181, 191);
    Next(42, 191, 193);
    Next(43, 193, 197);
    Next(44, 197, 199);
    Next(45, 199, 211);
    Next(46, 211, 223);
  }

  lemma Roots40()
    ensures forall t :: 40 <= t < 48 ==> Rooted(t)
  {
    Constants40();
    Primes40();
    hide NthPrime, Rooted, ROUND_CONSTANTS;
    RootedBy(40, 0xa2bfe8a14cf10364, 179, 5, 0xa2bfe8a14cf10364);
    RootedBy(41, 0xa81a664bbc423001, 181, 5, 0xa81a664bbc423001);
    RootedBy(42, 0xc24b8b70d0f89791, 191, 5, 0xc24b8b70d0f89791);
    RootedBy(43, 0xc76c51a30654be30, 193, 5, 0xc76c51a30654be30);
    RootedBy(44, 0xd192e819d6ef5218, 197, 5, 0xd192e819d6ef5218);
    RootedBy(45, 0xd69906245565a910, 199, 5, 0xd69906245565a910);
    RootedBy(46, 0xf40e35855771202a, 211, 5, 0xf40e35855771202a);
    RootedBy(47, 0x106aa07032bbd1b8, 223, 6, 0x106aa07032bbd1b8);
  }

  lemma Constants48()
    ensures HasConstants(48, 0x19a4c116b8d2d0c8, 0x1e376c085141ab53, 0x2748774cdf8eeb99, 0x34b0bcb5e19b48a8,
                         0x391c0cb3c5c95a63, 0x4ed8aa4ae3418acb, 0x5b9cca4f7763e373, 0x682e6ff3d6b2b8a3)
  {
  }

  lemma Primes48()
    ensures NthPrime(48, 227)
    ensures NthPrime(49, 229)
    ensures NthPrime(50, 233)
    ensures NthPrime(51, 239)
    ensures NthPrime(52, 241)
    ensures NthPrime(53, 251)
    ensures NthPrime(54, 257)
    ensures NthPrime(55, 263)
  {
    Primes40();
    hide NthPrime;
    Next(47, 223, 227);
    Next(48, 227, 229);
    Next(49, 229, 233);
    Next(50, 233, 239);
    Next(51, 239, 241);
    Next(52, 241, 251);
    Next(53, 251, 257);
    Next(54, 257, 263);
  }

  lemma Roots48()
    ensures forall t :: 48 <= t < 56 ==> Rooted(t)
  {
    Constants48();
    Primes48();
    hide NthPrime, Rooted, ROUND_CONSTANTS;
    RootedBy(48, 0x19a4c116b8d2d0c8, 227, 6, 0x19a4c116b8d2d0c8);
    RootedBy(49, 0x1e376c085141ab53, 229, 6, 0x1e376c085141ab53);
    RootedBy(50, 0x2748774cdf8eeb99, 233, 6, 0x2748774cdf8eeb99);
    RootedBy(51, 0x34b0bcb5e19b48a8, 239, 6, 0x34b0bcb5e19b48a8);
    RootedBy(52, 0x391c0cb3c5c95a63, 241, 6, 0x391c0cb3c5c95a63);
    RootedBy(53, 0x4ed8aa4ae3418acb, 251, 6, 0x4ed8aa4ae3418acb);
    RootedBy(54, 0x5b9cca4f7763e373, 257, 6, 0x5b9cca4f7763e373);
    RootedBy(55, 0x682e6ff3d6b2b8a3, 263, 6, 0x682e6ff3d6b2b8a3);
  }

  lemma Constants56()
    ensures HasConstants(56, 0x748f82ee5defb2fc, 0x78a5636f43172f60, 0x84c87814a1f0ab72, 0x8cc702081a6439ec,
                         0x90befffa23631e28, 0xa4506cebde82bde9, 0xbef9a3f7b2c67915, 0xc67178f2e372532b)
  {
  }

  lemma Primes56()
    ensures NthPrime(56, 269)
    ensures NthPrime(57, 271)
    ensures NthPrime(58, 277)
    ensures NthPrime(59, 281)
    ensures NthPrime(60, 283)
    ensures NthPrime(61, 293)
    ensures NthPrime(62, 307)
    ensures NthPrime(63, 311)
  {
    Primes48();
    hide NthPrime;
    Next(55, 263, 269);
    Next(56, 269, 271);
    Next(57, 271, 277);
    Next(58, 277, 281);
    Next(59, 281, 283);
    Next(60, 283, 293);
    Next(61, 293, 307);
    Next(62, 307, 311);
  }

  lemma Roots56()
    ensures forall t :: 56 <= t < 64 ==> Rooted(t)
  {
    Constants56();
    Primes56();
    hide NthPrime, Rooted, ROUND_CONSTANTS;
    RootedBy(56, 0x748f82ee5defb2fc, 269, 6, 0x748f82ee5defb2fc);
    RootedBy(57, 0x78a5636f43172f60, 271, 6, 0x78a5636f43172f60);
    RootedBy(58, 0x84c87814a1f0ab72, 277, 6, 0x84c87814a1f0ab72);
    RootedBy(59, 0x8cc702081a6439ec, 281, 6, 0x8cc702081a6439ec);
    RootedBy(60, 0x90befffa23631e28, 283, 6, 0x90befffa23631e28);
    RootedBy(61, 0xa4506cebde82bde9, 293, 6, 0xa4506cebde82bde9);
    RootedBy(62, 0xbef9a3f7b2c67915, 307, 6, 0xbef9a3f7b2c67915);
    RootedBy(63, 0xc67178f2e372532b, 311, 6, 0xc67178f2e372532b);
  }

  lemma Constants64()
    ensures HasConstants(64, 0xca273eceea26619c, 0xd186b8c721c0c207, 0xeada7dd6cde0eb1e, 0xf57d4f7fee6ed178,
                         0x06f067aa72176fba, 0x0a637dc5a2c898a6, 0x113f9804bef90dae, 0x1b710b35131c471b)
  {
  }

  lemma Primes64()
    ensures NthPrime(64, 313)
    ensures NthPrime(65, 317)
    ensures NthPrime(66, 331)
    ensures NthPrime(67, 337)
    ensures NthPrime(68, 347)
    ensures NthPrime(69, 349)
    ensures NthPrime(70, 353)
    ensures NthPrime(71, 359)
  {
    Primes56();
    hide NthPrime;
    Next(63, 311, 313);
    Next(64, 313, 317);
    Next(65, 317, 331);
    Next(66, 331, 337);
    Next(67, 337, 347);
    Next(68, 347, 349);
    Next(69, 349, 353);
    Next(70, 353, 359);
  }

  lemma Roots64()
    ensures forall t :: 64 <= t < 72 ==> Rooted(t)
  {
    Constants64();
    Primes64();
    hide NthPrime, Rooted, ROUND_CONSTANTS;
    RootedBy(64, 0xca273eceea26619c, 313, 6, 0xca273eceea26619c);
    RootedBy(65, 0xd186b8c721c0c207, 317, 6, 0xd186b8c721c0c207);
    RootedBy(66, 0xeada7dd6cde0eb1e, 331, 6, 0xeada7dd6cde0eb1e);
    RootedBy(67, 0xf57d4f7fee6ed178, 337, 6, 0xf57d4f7fee6ed178);
    RootedBy(68, 0x06f067aa72176fba, 347, 7, 0x06f067aa72176fba);
    RootedBy(69, 0x0a637dc5a2c898a6, 349, 7, 0x0a637dc5a2c898a6);
    RootedBy(70, 0x113f9804bef90dae, 353, 7, 0x113f9804bef90dae);
    RootedBy(71, 0x1b710b35131c471b, 359, 7, 0x1b710b35131c471b);
  }

  lemma Constants72()
    ensures HasConstants(72, 0x28db77f523047d84, 0x32caab7b40c72493, 0x3c9ebe0a15c9bebc, 0x431d67c49c100d4c,
                         0x4cc5d4becb3e42b6, 0x597f299cfc657e2a, 0x5fcb6fab3ad6faec, 0x6c44198c4a475817)
  {
  }

  lemma Primes72()
    ensures NthPrime(72, 367)
    ensures NthPrime(73, 373)
    ensures NthPrime(74, 379)
    ensures NthPrime(75, 383)
    ensures NthPrime(76, 389)
    ensures NthPrime(77, 397)
    ensures NthPrime(78, 401)
    ensures NthPrime(79, 409)
  {
    Primes64();
    hide NthPrime;
    Next(71, 359, 367);
    Next(72, 367, 373);
    Next(73, 373, 379);
    Next(74, 379, 383);
    Next(75, 383, 389);
    Next(76, 389, 397);
    Next(77, 397, 401);
    Next(78, 401, 409);
  }

  lemma Roots72()
    ensures forall t :: 72 <= t < 80 ==> Rooted(t)
  {
    Constants72();
    Primes72();
    hide NthPrime, Rooted, ROUND_CONSTANTS;
    RootedBy(72, 0x28db77f523047d84, 367, 7, 0x28db77f523047d84);
    RootedBy(73, 0x32caab7b40c72493, 373, 7, 0x32caab7b40c72493);
    RootedBy(74, 0x3c9ebe0a15c9bebc, 379, 7, 0x3c9ebe0a15c9bebc);
    RootedBy(75, 0x431d67c49c100d4c, 383, 7, 0x431d67c49c100d4c);
    RootedBy(76, 0x4cc5d4becb3e42b6, 389, 7, 0x4cc5d4becb3e42b6);
    RootedBy(77, 0x597f299cfc657e2a, 397, 7, 0x597f299cfc657e2a);
    RootedBy(78, 0x5fcb6fab3ad6faec, 401, 7, 0x5fcb6fab3ad6faec);
    RootedBy(79, 0x6c44198c4a475817, 409, 7, 0x6c44198c4a475817);
  }

  /** All round constants. */
  lemma AllRooted()
    ensures |ROUND_CONSTANTS| == ROUNDS && forall t :: 0 <= t < ROUNDS ==> Rooted(t)
  {
    hide Rooted;
    Roots0();
    Roots8();
    Roots16();
    Roots24();
    Roots32();
    Roots40();
    Roots48();
    Roots56();
    Roots64();
    Roots72();
  }

  /** The initial hash value comes from the square roots of the first eight primes. */
  lemma InitialRoots()
    ensures forall i :: 0 <= i < 8 ==> exists p :: NthPrime(i, p) && FromSquareRoot(INITIAL[i], p)
  {
    Primes0();
    hide NthPrime, FromSquareRoot;
    SquareRoot(INITIAL[0], 2, 1, 0x6a09e667f3bcc908);
    SquareRoot(INITIAL[1], 3, 1, 0xbb67ae8584caa73b);
    SquareRoot(INITIAL[2], 5, 2, 0x3c6ef372fe94f82b);
    SquareRoot(INITIAL[3], 7, 2, 0xa54ff53a5f1d36f1);
    SquareRoot(INITIAL[4], 11, 3, 0x510e527fade682d1);
    SquareRoot(INITIAL[5], 13, 3, 0x9b05688c2b3e6c1f);
    SquareRoot(INITIAL[6], 17, 4, 0x1f83d9abfb41bd6b);
    SquareRoot(INITIAL[7], 19, 4, 0x5be0cd19137e2179);
  }
}
