/** Scalars and byte strings (expand256_modm, expand_raw256_modm and contract256_modm). */
module ScalarBytes {
  import opened Arith
  import opened Bytes
  import opened Scalars
  import opened ModM

  /** ((a >> s) | (b << (64 - s))) & (2^56 - 1), with A = 2^s and B = 2^(64 - s). */
  function Straddle(a: u64, b: u64, A: int, B: int): int
    requires 0 < A
  {
    (a / A + (b * B) % W64) % W56
  }

  lemma StraddleIs(a: u64, b: u64, A: int, B: int, C: int)
    requires 0 < C && 0 < B && A == 256 * C && A * B == W64 && C * B == W56
    ensures Straddle(a, b, A, B) == a / A + (b % C) * B && 0 <= a / A < B && 0 <= b % C < C
    ensures 0 <= Straddle(a, b, A, B) < W56
  {
    var q, u := b / C, b % C;
    // b B mod 2^64
    var q0, q1 := q / 256, q % 256;
    assert b == q * C + u && q == q0 * 256 + q1;
    BitsAbove(q0, q1, u, C, B);
    DivModUnique(b * B, W64, q0, q1 * W56 + u * B) by {
      MulLt(u, C, B);
      MulNat(u, B);
    }
    HighBits(a, A, B);
    MulLt(u, C, B);
    MulNat(u, B);
    DivModUnique(a / A + (b * B) % W64, W56, q1, a / A + u * B);
  }

  lemma BitsAbove(q0: int, q1: int, u: int, C: int, B: int)
    requires C * B == W56
    ensures ((q0 * 256 + q1) * C + u) * B == q0 * W64 + (q1 * W56 + u * B)
  {
    assert ((q0 * 256 + q1) * C) * B == (q0 * 256 + q1) * (C * B);
  }

  lemma HighBits(a: int, A: int, B: int)
    requires 0 < A && 0 <= a < A * B
    ensures 0 <= a / A < B
  {
    assert a == a / A * A + a % A;
    if a / A >= B {
      MulLe(B, a / A, A);
    }
  }

  /** Four 64-bit words. */
  function Four(x0: int, x1: int, x2: int, x3: int): int {
    x0 + x1 * W64 + x2 * W128 + x3 * W192
  }

  const W8: int := 0x100
  const W48: int := 0x1000000000000
  const W256: int := 0x1_0000000000000000000000000000000000000000000000000000000000000000

  /** The low four limbs of the words, and what is left of the fourth word. */
  lemma LowLimbs(x0: u64, x1: u64, x2: u64, x3: u64)
    ensures Four(x0, x1, x2, x3)
         == Five(x0 % W56, Straddle(x0, x1, W56, W8), Straddle(x1, x2, W48, W16), Straddle(x2, x3, W40, W24), x3 / W32)
    ensures 0 <= Straddle(x0, x1, W56, W8) < W56 && 0 <= Straddle(x1, x2, W48, W16) < W56
    ensures 0 <= Straddle(x2, x3, W40, W24) < W56
  {
    StraddleIs(x0, x1, W56, W8, W48);
    StraddleIs(x1, x2, W48, W16, W40);
    StraddleIs(x2, x3, W40, W24, W32);
    hide Straddle;
    assert x0 == x0 % W56 + x0 / W56 * W56;
    assert x1 == x1 % W48 + x1 / W48 * W48;
    assert x2 == x2 % W40 + x2 / W40 * W40;
    assert x3 == x3 % W32 + x3 / W32 * W32;
  }

  /** expand_raw256_modm: the number the 32 bytes encode. */
  method ExpandRaw(input: seq<byte>) returns (out: Scalar)
    requires |input| == 32
    ensures Canonical(out) && out[4] < W32 && Val(out) == Le(input)
  {
    hide Load64, Le, Val;
    LeWords(input);
    out := RawLimbs(Load64(input, 0), Load64(input, 8), Load64(input, 16), Load64(input, 24));
  }

  method RawLimbs(x0: u64, x1: u64, x2: u64, x3: u64) returns (out: Scalar)
    ensures Canonical(out) && out[4] < W32 && Val(out) == Four(x0, x1, x2, x3)
  {
    LowLimbs(x0, x1, x2, x3);
    hide Straddle, Val, Four;
    out := [x0 % W56, Straddle(x0, x1, W56, W8), Straddle(x1, x2, W48, W16), Straddle(x2, x3, W40, W24), (x3 / W32) % W32];
    ValLimbs(out);
  }

  /** The fifth limb of the low part keeps 40 bits. */
  lemma FifthLimb(x3: u64, x4: u64)
    ensures (x3 / W32 + (x4 * W32) % W64) % W40 == x3 / W32 + (x4 % W8) * W32
  {
    assert x4 == x4 / W8 * W8 + x4 % W8;
    var q, u := x4 / W8, x4 % W8;
    assert x4 * W32 == (q / W24) * W64 + ((q % W24) * W40 + u * W32);
    DivModUnique(x4 * W32, W64, q / W24, (q % W24) * W40 + u * W32);
    DivModUnique(x3 / W32 + (x4 * W32) % W64, W40, q % W24, x3 / W32 + u * W32);
  }

  /** The words modulo 2^264. */
  lemma LowWords(x0: u64, x1: u64, x2: u64, x3: u64, x4: u64, high: nat)
    ensures (Four(x0, x1, x2, x3) + W256 * (x4 + W64 * high)) % W264
         == Five(x0 % W56, Straddle(x0, x1, W56, W8), Straddle(x1, x2, W48, W16), Straddle(x2, x3, W40, W24),
                 (x3 / W32 + (x4 * W32) % W64) % W40)
  {
    LowLimbs(x0, x1, x2, x3);
    FifthLimb(x3, x4);
    hide Straddle;
    var low := Five(x0 % W56, Straddle(x0, x1, W56, W8), Straddle(x1, x2, W48, W16), Straddle(x2, x3, W40, W24),
                    x3 / W32 + (x4 % W8) * W32);
    assert x4 == x4 / W8 * W8 + x4 % W8;
    DivModUnique(Four(x0, x1, x2, x3) + W256 * (x4 + W64 * high), W264, x4 / W8 + 0x100000000000000 * high, low);
  }

  /** The words shifted down by 248 bits. */
  lemma HighWords(low: int, x3: u64, x4: u64, x5: u64, x6: u64, x7: u64)
    requires 0 <= low < W192
    ensures (low + x3 * W192 + W256 * Four(x4, x5, x6, x7)) / W248
         == Five(Straddle(x3, x4, W56, W8), Straddle(x4, x5, W48, W16), Straddle(x5, x6, W40, W24),
                 Straddle(x6, x7, W32, W32), x7 / W24)
    ensures 0 <= Straddle(x3, x4, W56, W8) < W56 && 0 <= Straddle(x4, x5, W48, W16) < W56
    ensures 0 <= Straddle(x5, x6, W40, W24) < W56 && 0 <= Straddle(x6, x7, W32, W32) < W56
  {
    StraddleIs(x3, x4, W56, W8, W48);
    StraddleIs(x4, x5, W48, W16, W40);
    StraddleIs(x5, x6, W40, W24, W32);
    StraddleIs(x6, x7, W32, W32, W24);
    var q := Five(Straddle(x3, x4, W56, W8), Straddle(x4, x5, W48, W16), Straddle(x5, x6, W40, W24),
                  Straddle(x6, x7, W32, W32), x7 / W24);
    hide Straddle;
    assert x3 == x3 % W56 + x3 / W56 * W56;
    assert x4 == x4 % W48 + x4 / W48 * W48;
    assert x5 == x5 % W40 + x5 / W40 * W40;
    assert x6 == x6 % W32 + x6 / W32 * W32;
    assert x7 == x7 % W24 + x7 / W24 * W24;
    DivModUnique(low + x3 * W192 + W256 * Four(x4, x5, x6, x7), W248, q, low + (x3 % W56) * W192);
  }

  ghost predicate IsWords(x: seq<nat>, v: int) {
    |x| == 8 && (forall i :: 0 <= i < 8 ==> x[i] < W64)
    && v == Four(x[0], x[1], x[2], x[3]) + W256 * Four(x[4], x[5], x[6], x[7])
  }

  lemma Load64Slice(s: seq<byte>, base: nat, at: nat)
    requires base + 32 <= |s| && at + 8 <= 32
    ensures Load64(s[base..base + 32], at) == Load64(s, base + at)
  {
  }

  lemma HalfWords(s: seq<byte>, base: nat)
    requires base + 32 <= |s|
    ensures Le(s[base..base + 32])
         == Four(Load64(s, base), Load64(s, base + 8), Load64(s, base + 16), Load64(s, base + 24))
    ensures Load64(s, base) < W64 && Load64(s, base + 8) < W64 && Load64(s, base + 16) < W64 && Load64(s, base + 24) < W64
  {
    Load64Slice(s, base, 0);
    Load64Slice(s, base, 8);
    Load64Slice(s, base, 16);
    Load64Slice(s, base, 24);
    hide Load64, Le;
    LeWords(s[base..base + 32]);
  }

  function WordsOf(s: seq<byte>): (x: seq<nat>)
    requires |s| == 64
  {
    [Load64(s, 0), Load64(s, 8), Load64(s, 16), Load64(s, 24), Load64(s, 32), Load64(s, 40), Load64(s, 48), Load64(s, 56)]
  }

  /** Sixty-four bytes as eight words. */
  lemma LeEight(s: seq<byte>)
    requires |s| == 64
    ensures IsWords(WordsOf(s), Le(s)) && Le(s) < W512
  {
    hide Load64, Le, Exp256;
    HalfWords(s, 0);
    HalfWords(s, 32);
    LeSplit(s, 32);
    assert s[..32] == s[0..32] && s[32..] == s[32..64];
    Exp256Values();
    Exp256Add(16, 16);
  }

  /** The string in the work buffer, the rest of which is zero. */
  lemma LePadded(input: seq<byte>, work: seq<byte>)
    requires |input| <= |work| && work[..|input|] == input
    requires forall i :: |input| <= i < |work| ==> work[i] == 0
    ensures Le(work) == Le(input)
  {
    LeSplit(work, |input|);
    LeZeros(work[|input|..]);
  }

  /** expand256_modm: the little-endian value modulo m, for every length up to 64. */
  method Expand(input: seq<byte>) returns (out: Scalar)
    requires |input| <= 64
    ensures Canonical(out) && Val(out) < M && Val(out) == Le(input) % M
  {
    hide Le, Val, Short, Canonical, IsWords;
    var x := Work(input);
    ghost var v := Le(input);
    out := LowWord(x, v);
    ShortIsCanonical(out);
    if |input| < 32 {
      ShortString(input);
      return;
    }
    var q1 := HighWord(x, v);
    out := Barrett(q1, out, v);
    ShortIsCanonical(out);
    ModBound(v);
  }

  /** The words of the string in the zeroed work buffer. */
  method Work(input: seq<byte>) returns (x: seq<nat>)
    requires |input| <= 64
    ensures IsWords(x, Le(input)) && Le(input) < W512
  {
    hide Le, IsWords, WordsOf;
    var work := input + Zeros(64 - |input|);
    LePadded(input, work);
    LeEight(work);
    x := WordsOf(work);
  }

  lemma ShortIsCanonical(r: Scalar)
    requires Short(r)
    ensures Canonical(r)
  {
  }

  lemma ModBound(v: int)
    ensures 0 <= v % M < M
  {
  }

  /** Fewer than 32 bytes encode a number below m. */
  lemma ShortString(input: seq<byte>)
    requires |input| < 32
    ensures Le(input) < M && Le(input) % W264 == Le(input) % M == Le(input)
  {
    LeBound(input);
    hide Le;
    Exp256Below(|input|);
    ModSmall(Le(input), W264);
    ModSmall(Le(input), M);
  }

  lemma Exp256Below(n: nat)
    requires n < 32
    ensures Exp256(n) <= W248
  {
    Exp256Values();
    assert Exp256(7) == 0x100000000000000;
    hide Exp256;
    Exp256Add(24, 7);
    Exp256Add(n, 31 - n);
    MulLe(1, Exp256(31 - n), Exp256(n));
  }

  /** r1 in expand256_modm */
  method LowWord(x: seq<nat>, ghost v: int) returns (r1: Scalar)
    requires IsWords(x, v)
    ensures Short(r1) && Val(r1) == v % W264
  {
    LowLimbs(x[0], x[1], x[2], x[3]);
    LowWords(x[0], x[1], x[2], x[3], x[4], x[5] + x[6] * W64 + x[7] * W128);
    hide Straddle, Val;
    r1 := [x[0] % W56, Straddle(x[0], x[1], W56, W8), Straddle(x[1], x[2], W48, W16), Straddle(x[2], x[3], W40, W24),
           (x[3] / W32 + (x[4] * W32) % W64) % W40];
    ValLimbs(r1);
  }

  /** q1 in expand256_modm */
  method HighWord(x: seq<nat>, ghost v: int) returns (q1: Scalar)
    requires IsWords(x, v)
    ensures Short(q1) && Val(q1) == v / W248
  {
    HighWords(x[0] + x[1] * W64 + x[2] * W128, x[3], x[4], x[5], x[6], x[7]);
    hide Straddle, Val;
    q1 := [Straddle(x[3], x[4], W56, W8), Straddle(x[4], x[5], W48, W16), Straddle(x[5], x[6], W40, W24),
           Straddle(x[6], x[7], W32, W32), x[7] / W24];
    ValLimbs(q1);
  }

  /** contract256_modm: the 32 bytes of the number. */
  method Contract(a: Scalar) returns (out: seq<byte>)
    requires Canonical(a) && Val(a) < W256
    ensures |out| == 32 && Le(out) == Val(a)
  {
    ValLimbs(a);
    hide Val, Le, LeBytes;
    PackLimbs(a[0], a[1], a[2], a[3], a[4]);
    var w0: nat := a[0] + (a[1] * W56) % W64;
    var w1: nat := a[1] / W8 + (a[2] * W48) % W64;
    var w2: nat := a[2] / W16 + (a[3] * W40) % W64;
    var w3: nat := a[3] / W24 + (a[4] * W32) % W64;
    hide Five;
    out := LeBytes(w0, 8) + LeBytes(w1, 8) + LeBytes(w2, 8) + LeBytes(w3, 8);
    BytesOfWord(w0);
    BytesOfWord(w1);
    BytesOfWord(w2);
    BytesOfWord(w3);
    LeOfWords(LeBytes(w0, 8), LeBytes(w1, 8), LeBytes(w2, 8), LeBytes(w3, 8));
  }

  /** U64TO8_LE writes the word's eight bytes. */
  lemma BytesOfWord(w: u64)
    ensures Le(LeBytes(w, 8)) == w
  {
    Exp256Values();
    LeOfBytes(w, 8);
  }

  lemma PackLimbs(a0: int, a1: int, a2: int, a3: int, a4: int)
    requires 0 <= a0 < W56 && 0 <= a1 < W56 && 0 <= a2 < W56 && 0 <= a3 < W56 && 0 <= a4 < W32
    ensures Four(a0 + (a1 * W56) % W64, a1 / W8 + (a2 * W48) % W64, a2 / W16 + (a3 * W40) % W64, a3 / W24 + (a4 * W32) % W64)
         == Five(a0, a1, a2, a3, a4)
    ensures 0 <= a0 + (a1 * W56) % W64 < W64 && 0 <= a1 / W8 + (a2 * W48) % W64 < W64
    ensures 0 <= a2 / W16 + (a3 * W40) % W64 < W64 && 0 <= a3 / W24 + (a4 * W32) % W64 < W64
  {
    assert a1 == a1 / W8 * W8 + a1 % W8 && a2 == a2 / W16 * W16 + a2 % W16 && a3 == a3 / W24 * W24 + a3 % W24;
    DivModUnique(a1 * W56, W64, a1 / W8, (a1 % W8) * W56);
    DivModUnique(a2 * W48, W64, a2 / W16, (a2 % W16) * W48);
    DivModUnique(a3 * W40, W64, a3 / W24, (a3 % W24) * W40);
  }
}
