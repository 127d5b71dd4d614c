/** Little-endian byte strings. */
module Bytes {
  import opened Arith

  type byte = x: int | 0 <= x < 256

  /** The number a byte string encodes, least significant byte first. */
  function Le(s: seq<byte>): (v: nat)
  {
    if |s| == 0 then 0 else s[0] + 256 * Le(s[1..])
  }

  /** 256^n */
  function Exp256(n: nat): (r: nat)
    ensures r > 0
  {
    if n == 0 then 1 else 256 * Exp256(n - 1)
  }

  lemma {:induction false} LeBound(s: seq<byte>)
    ensures Le(s) < Exp256(|s|)
  {
    if |s| > 0 {
      LeBound(s[1..]);
    }
  }

  lemma {:induction false} LeConcat(s: seq<byte>, t: seq<byte>)
    ensures Le(s + t) == Le(s) + Exp256(|s|) * Le(t)
  {
    if |s| == 0 {
      assert s + t == t;
    } else {
      LeConcat(s[1..], t);
      assert (s + t)[1..] == s[1..] + t;
      assert 256 * (Exp256(|s| - 1) * Le(t)) == Exp256(|s|) * Le(t);
    }
  }

  function Zeros(n: nat): (s: seq<byte>)
    ensures |s| == n && (forall i :: 0 <= i < n ==> s[i] == 0)
  {
    seq(n, i => 0)
  }

  lemma {:induction false} LeZeros(s: seq<byte>)
    requires forall i :: 0 <= i < |s| ==> s[i] == 0
    ensures Le(s) == 0
  {
    if |s| > 0 {
      LeZeros(s[1..]);
    }
  }

  /** Strings of one length encode different numbers. */
  lemma {:induction false} LeInjective(s: seq<byte>, t: seq<byte>)
    requires |s| == |t| && Le(s) == Le(t)
    ensures s == t
  {
    if |s| > 0 {
      LeInjective(s[1..], t[1..]);
      assert s == [s[0]] + s[1..] && t == [t[0]] + t[1..];
    }
  }

  /** The n-byte encoding of v mod 256^n. */
  function LeBytes(v: nat, n: nat): (s: seq<byte>)
    ensures |s| == n
  {
    if n == 0 then [] else [v % 256] + LeBytes(v / 256, n - 1)
  }

  lemma {:induction false} LeOfBytes(v: nat, n: nat)
    requires v < Exp256(n)
    ensures Le(LeBytes(v, n)) == v
  {
    if n > 0 {
      LeOfBytes(v / 256, n - 1);
      assert LeBytes(v, n)[1..] == LeBytes(v / 256, n - 1);
    }
  }

  const W192: int := 0x1_000000000000000000000000000000000000000000000000

  lemma Exp256Values()
    ensures Exp256(8) == W64 && Exp256(16) == W128 && Exp256(24) == W192
  {
    assert Exp256(4) == 0x1_00000000;
    Exp256Add(4, 4);
    Exp256Add(8, 8);
    Exp256Add(16, 8);
  }

  lemma {:induction false} Exp256Add(m: nat, n: nat)
    ensures Exp256(m + n) == Exp256(m) * Exp256(n)
  {
    if m > 0 {
      Exp256Add(m - 1, n);
      assert 256 * (Exp256(m - 1) * Exp256(n)) == Exp256(m) * Exp256(n);
    }
  }

  function At(s: seq<byte>, i: nat): (x: int)
    requires i < |s|
  {
    s[i]
  }

  /** U8TO64_LE */
  function Load64(s: seq<byte>, at: nat): (x: nat)
    requires at + 8 <= |s|
  {
    At(s, at) + At(s, at + 1) * 0x100 + At(s, at + 2) * 0x10000 + At(s, at + 3) * 0x1000000
    + At(s, at + 4) * 0x100000000 + At(s, at + 5) * 0x10000000000 + At(s, at + 6) * 0x1000000000000
    + At(s, at + 7) * 0x100000000000000
  }

  lemma LeStep(t: seq<byte>, i: nat)
    requires i < |t|
    ensures Le(t[i..]) == At(t, i) + 256 * Le(t[i + 1..])
  {
    assert t[i..][1..] == t[i + 1..];
  }

  lemma Load64Is(s: seq<byte>, at: nat)
    requires at + 8 <= |s|
    ensures Load64(s, at) == Le(s[at..at + 8]) < W64
  {
    var t := s[at..at + 8];
    assert t[0..] == t;
    assert Le(t[8..]) == 0;
    hide Le;
    LeStep(t, 0);
    LeStep(t, 1);
    LeStep(t, 2);
    LeStep(t, 3);
    LeStep(t, 4);
    LeStep(t, 5);
    LeStep(t, 6);
    LeStep(t, 7);
  }

  /** A byte string is its first n bytes and the rest. */
  lemma LeSplit(s: seq<byte>, n: nat)
    requires n <= |s|
    ensures Le(s) == Le(s[..n]) + Exp256(n) * Le(s[n..])
  {
    hide Le, Exp256;
    LeConcat(s[..n], s[n..]);
    assert s[..n] + s[n..] == s;
  }

  lemma LeTwoWords(s: seq<byte>, at: nat)
    requires at + 16 <= |s|
    ensures Le(s[at..at + 16]) == Load64(s, at) + Load64(s, at + 8) * W64
    ensures Load64(s, at) < W64 && Load64(s, at + 8) < W64
  {
    Load64Is(s, at);
    Load64Is(s, at + 8);
    hide Load64, Le, Exp256;
    Exp256Values();
    var t := s[at..at + 16];
    LeSplit(t, 8);
    assert t[..8] == s[at..at + 8];
    assert t[8..] == s[at + 8..at + 16];
  }

  /** Thirty-two bytes as four words. */
  lemma LeWords(s: seq<byte>)
    requires |s| == 32
    ensures Le(s) == Load64(s, 0) + Load64(s, 8) * W64 + Load64(s, 16) * W128 + Load64(s, 24) * W192
    ensures Load64(s, 0) < W64 && Load64(s, 8) < W64 && Load64(s, 16) < W64 && Load64(s, 24) < W64
  {
    LeTwoWords(s, 0);
    LeTwoWords(s, 16);
    hide Load64, Le, Exp256;
    Exp256Values();
    LeSplit(s, 16);
    assert s[..16] == s[0..16];
    assert s[16..] == s[16..32];
  }

  /** Four words written out one after the other. */
  lemma LeOfWords(a: seq<byte>, b: seq<byte>, c: seq<byte>, d: seq<byte>)
    requires |a| == 8 && |b| == 8 && |c| == 8 && |d| == 8
    ensures Le(a + b + c + d) == Le(a) + Le(b) * W64 + Le(c) * W128 + Le(d) * W192
  {
    hide Le, Exp256;
    Exp256Values();
    LeConcat(a, b);
    LeConcat(a + b, c);
    LeConcat(a + b + c, d);
  }
}
