/**
 Working out SHA-512 on given words: strings as sequences of 64-bit words, and the
 schedule and the rounds eight at a time.
 */
module Sha512Words {
  import opened Arith
  import opened Bytes
  import opened Sha512Standard

  /** Words written out one after the other, most significant byte first. */
  function FromWords(ws: seq<nat>): (s: seq<byte>)
    ensures |s| == 8 * |ws|
  {
    if |ws| == 0 then [] else FromWords(ws[..|ws| - 1]) + BeBytes(ws[|ws| - 1], 8)
  }

  lemma {:induction false} FromConcat(u: seq<nat>, v: seq<nat>)
    ensures FromWords(u + v) == FromWords(u) + FromWords(v)
    decreases |v|
  {
    hide BeBytes;
    if |v| == 0 {
      assert u + v == u;
    } else {
      var n := |v| - 1;
      FromConcat(u, v[..n]);
      assert (u + v)[..|u| + n] == u + v[..n];
    }
  }

  lemma {:induction false} WordAt(ws: seq<nat>, i: nat)
    requires i < |ws|
    ensures FromWords(ws)[8 * i..8 * i + 8] == BeBytes(ws[i], 8)
  {
    hide BeBytes;
    var n := |ws| - 1;
    var front := FromWords(ws[..n]);
    if i < n {
      WordAt(ws[..n], i);
      assert FromWords(ws)[8 * i..8 * i + 8] == front[8 * i..8 * i + 8];
    }
  }

  lemma {:induction false} ZeroBytes(n: nat)
    ensures BeBytes(0, n) == Zeros(n)
  {
    if n > 0 {
      ZeroBytes(n - 1);
    }
  }

  function Blank(n: nat): (ws: seq<nat>)
    ensures |ws| == n && forall i :: 0 <= i < n ==> ws[i] == 0
  {
    if n == 0 then [] else Blank(n - 1) + [0]
  }

  lemma {:induction false} BlankWords(n: nat)
    ensures FromWords(Blank(n)) == Zeros(8 * n)
  {
    if n > 0 {
      BlankWords(n - 1);
      assert Blank(n)[..n - 1] == Blank(n - 1);
      ZeroBytes(8);
    }
  }

  /** One byte at the top, and zeros. */
  lemma {:induction false} TopByte(b: byte, n: nat)
    ensures 0 <= b * Exp256(n) && BeBytes(b * Exp256(n), n + 1) == [b] + Zeros(n)
  {
    MulNat(b, Exp256(n));
    if n == 0 {
      assert BeBytes(b / 256, 0) == [];
    } else {
      TopByte(b, n - 1);
      var v := b * Exp256(n - 1);
      assert b * Exp256(n) == 256 * v;
      assert 256 * v / 256 == v && 256 * v % 256 == 0;
      assert Zeros(n) == Zeros(n - 1) + [0];
    }
  }

  /** A number of n bytes written in eight more. */
  lemma {:induction false} WideBytes(v: nat, n: nat)
    requires v < Exp256(n)
    ensures BeBytes(v, 8 + n) == Zeros(8) + BeBytes(v, n)
  {
    if n == 0 {
      ZeroBytes(8);
    } else {
      WideBytes(v / 256, n - 1);
    }
  }

  lemma OneWord(w: nat)
    ensures FromWords([w]) == BeBytes(w, 8)
  {
    hide BeBytes;
    assert FromWords([w][..0]) == [];
  }

  lemma LengthWords(v: nat)
    requires v < W64
    ensures FromWords([0, v]) == BeBytes(v, 16)
  {
    FromConcat([0], [v]);
    assert [0] + [v] == [0, v];
    OneWord(0);
    OneWord(v);
    hide FromWords;
    Exp256Values();
    WideBytes(v, 8);
    ZeroBytes(8);
  }

  /** The padding of a message of whole words is whole words. */
  function PaddedWords(ws: seq<nat>): seq<nat> {
    ws + [0x8000000000000000] + Blank((13 - |ws|) % 16) + [0, 64 * |ws|]
  }

  lemma TopBitWord()
    ensures FromWords([0x8000000000000000]) == [0x80] + Zeros(7)
  {
    OneWord(0x8000000000000000);
    Exp256Values();
    assert Exp256(8) == 256 * Exp256(7);
    TopByte(0x80, 7);
  }

  lemma PadOfWords(ws: seq<nat>)
    requires 64 * |ws| < W64
    ensures Pad(FromWords(ws)) == FromWords(PaddedWords(ws))
  {
    hide *;
    var n := (13 - |ws|) % 16;
    WordParts(ws, n);
    BlankWords(n);
    TopBitWord();
    LengthWords(64 * |ws|);
    ZeroCount(|ws|);
    PadParts(FromWords(ws), 8 * n);
    SplitZeros(7, 8 * n);
    Joined(FromWords(ws), [0x80], Zeros(7), Zeros(8 * n), BeBytes(64 * |ws|, 16));
  }

  lemma PadParts(m: seq<byte>, n: nat)
    requires (111 - |m|) % 128 == n + 7
    ensures Pad(m) == m + [0x80] + Zeros(7 + n) + BeBytes(8 * |m|, 16)
  {
  }

  lemma WordParts(ws: seq<nat>, n: nat)
    requires n == (13 - |ws|) % 16
    ensures FromWords(PaddedWords(ws))
         == FromWords(ws) + FromWords([0x8000000000000000]) + FromWords(Blank(n)) + FromWords([0, 64 * |ws|])
  {
    hide FromWords;
    var one, len: seq<nat> := [0x8000000000000000], [0, 64 * |ws|];
    FromConcat(ws + one + Blank(n), len);
    FromConcat(ws + one, Blank(n));
    FromConcat(ws, one);
  }

  lemma ZeroCount(n: nat)
    ensures (111 - 8 * n) % 128 == 8 * ((13 - n) % 16) + 7
  {
  }

  lemma SplitZeros(m: nat, n: nat)
    ensures Zeros(m + n) == Zeros(m) + Zeros(n)
  {
  }

  lemma Joined(a: seq<byte>, b: seq<byte>, c: seq<byte>, d: seq<byte>, e: seq<byte>)
    ensures a + (b + c) + d + e == a + b + (c + d) + e
  {
    assert a + (b + c) + d == a + b + (c + d);
  }

  lemma AppendByte(v: nat, b: byte, n: nat)
    ensures BeBytes(v * 256 + b, n + 1) == BeBytes(v, n) + [b]
  {
    DivModUnique(v * 256 + b, 256, v, b);
  }

  lemma EightBytes(b0: byte, b1: byte, b2: byte, b3: byte, b4: byte, b5: byte, b6: byte, b7: byte)
    ensures BeBytes(((((((b0 * 256 + b1) * 256 + b2) * 256 + b3) * 256 + b4) * 256 + b5) * 256 + b6) * 256 + b7, 8)
         == [b0, b1, b2, b3, b4, b5, b6, b7]
  {
    var v1 := b0 * 256 + b1;
    var v2 := v1 * 256 + b2;
    var v3 := v2 * 256 + b3;
    var v4 := v3 * 256 + b4;
    var v5 := v4 * 256 + b5;
    var v6 := v5 * 256 + b6;
    assert BeBytes(b0 / 256, 0) == [];
    assert BeBytes(b0, 1) == [b0];
    hide BeBytes;
    AppendByte(b0, b1, 1);
    AppendByte(v1, b2, 2);
    AppendByte(v2, b3, 3);
    AppendByte(v3, b4, 4);
    AppendByte(v4, b5, 5);
    AppendByte(v5, b6, 6);
    AppendByte(v6, b7, 7);
  }

  /** Eight bytes that write out w are loaded as x. */
  ghost predicate Loads(w: nat, x: bv64) {
    LoadBe(BeBytes(w, 8), 0) == x
  }

  /** The word with the given bytes. */
  lemma Word(w: nat, b0: byte, b1: byte, b2: byte, b3: byte, b4: byte, b5: byte, b6: byte, b7: byte, x: bv64)
    requires w == ((((((b0 * 256 + b1) * 256 + b2) * 256 + b3) * 256 + b4) * 256 + b5) * 256 + b6) * 256 + b7
    requires x == (Wide(b0) << 56) | (Wide(b1) << 48) | (Wide(b2) << 40) | (Wide(b3) << 32)
                  | (Wide(b4) << 24) | (Wide(b5) << 16) | (Wide(b6) << 8) | Wide(b7)
    ensures Loads(w, x)
  {
    hide Wide, BeBytes;
    EightBytes(b0, b1, b2, b3, b4, b5, b6, b7);
  }

  /** The first words of the schedule are those of the block. */
  lemma FirstWord(ws: seq<nat>, t: nat, x: bv64)
    requires |ws| == 16 && t < 16 && Loads(ws[t], x)
    ensures HasWord(FromWords(ws), t, x)
  {
    hide FromWords, BeBytes, Wide;
    WordAt(ws, t);
    var p, b := FromWords(ws), BeBytes(ws[t], 8);
    assert p[8 * t..8 * t + 8] == b;
    SameLoad(p, 8 * t, b);
  }

  lemma SameLoad(p: seq<byte>, at: nat, b: seq<byte>)
    requires at + 8 <= |p| && p[at..at + 8] == b
    ensures LoadBe(p, at) == LoadBe(b, 0)
  {
    hide Wide;
    assert p[at] == b[0] && p[at + 1] == b[1] && p[at + 2] == b[2] && p[at + 3] == b[3];
    assert p[at + 4] == b[4] && p[at + 5] == b[5] && p[at + 6] == b[6] && p[at + 7] == b[7];
  }

  /** A word of the schedule, and eight of them. */
  ghost predicate HasWord(block: seq<byte>, t: nat, w: bv64) {
    |block| == 128 && t < 80 && Schedule(block, t) == w
  }

  ghost predicate HasWords(block: seq<byte>, t: nat,
                           w0: bv64, w1: bv64, w2: bv64, w3: bv64, w4: bv64, w5: bv64, w6: bv64, w7: bv64) {
    && HasWord(block, t, w0) && HasWord(block, t + 1, w1) && HasWord(block, t + 2, w2) && HasWord(block, t + 3, w3)
    && HasWord(block, t + 4, w4) && HasWord(block, t + 5, w5) && HasWord(block, t + 6, w6) && HasWord(block, t + 7, w7)
  }

  lemma NextWord(block: seq<byte>, t: nat, p: bv64, q: bv64, r: bv64, s: bv64, v: bv64)
    requires 16 <= t < 80
    requires HasWord(block, t - 2, p) && HasWord(block, t - 7, q) && HasWord(block, t - 15, r) && HasWord(block, t - 16, s)
    requires v == Add(Add(Add(Sigma1(p), q), Sigma0(r)), s)
    ensures HasWord(block, t, v)
  {
    hide Add, Sigma0, Sigma1, LoadBe;
  }

  /** The next eight words, from the sixteen before them. */
  lemma NextWords(block: seq<byte>, t: nat,
                  w0: bv64, w1: bv64, w2: bv64, w3: bv64, w4: bv64, w5: bv64, w6: bv64, w7: bv64,
                  w8: bv64, w9: bv64, w10: bv64, w11: bv64, w12: bv64, w13: bv64, w14: bv64, w15: bv64,
                  v0: bv64, v1: bv64, v2: bv64, v3: bv64, v4: bv64, v5: bv64, v6: bv64, v7: bv64)
    requires HasWords(block, t, w0, w1, w2, w3, w4, w5, w6, w7) && t + 24 <= 80
    requires HasWords(block, t + 8, w8, w9, w10, w11, w12, w13, w14, w15)
    requires v0 == Add(Add(Add(Sigma1(w14), w9), Sigma0(w1)), w0)
    requires v1 == Add(Add(Add(Sigma1(w15), w10), Sigma0(w2)), w1)
    requires v2 == Add(Add(Add(Sigma1(v0), w11), Sigma0(w3)), w2)
    requires v3 == Add(Add(Add(Sigma1(v1), w12), Sigma0(w4)), w3)
    requires v4 == Add(Add(Add(Sigma1(v2), w13), Sigma0(w5)), w4)
    requires v5 == Add(Add(Add(Sigma1(v3), w14), Sigma0(w6)), w5)
    requires v6 == Add(Add(Add(Sigma1(v4), w15), Sigma0(w7)), w6)
    requires v7 == Add(Add(Add(Sigma1(v5), v0), Sigma0(w8)), w7)
    ensures HasWords(block, t + 16, v0, v1, v2, v3, v4, v5, v6, v7)
  {
    hide Add, Sigma0, Sigma1, HasWord;
    NextWord(block, t + 16, w14, w9, w1, w0, v0);
    NextWord(block, t + 17, w15, w10, w2, w1, v1);
    NextWord(block, t + 18, v0, w11, w3, w2, v2);
    NextWord(block, t + 19, v1, w12, w4, w3, v3);
    NextWord(block, t + 20, v2, w13, w5, w4, v4);
    NextWord(block, t + 21, v3, w14, w6, w5, v5);
    NextWord(block, t + 22, v4, w15, w7, w6, v6);
    NextWord(block, t + 23, v5, v0, w8, w7, v7);
  }

  /** The working variables before round t. */
  ghost predicate HasState(start: seq<bv64>, block: seq<byte>, t: nat,
                           a: bv64, b: bv64, c: bv64, d: bv64, e: bv64, f: bv64, g: bv64, h: bv64) {
    |start| == 8 && |block| == 128 && t <= 80 && Rounds(start, block, t) == [a, b, c, d, e, f, g, h]
  }

  /** Before the first round they are the hash value. */
  lemma FirstState(start: seq<bv64>, block: seq<byte>)
    requires |start| == 8 && |block| == 128
    ensures HasState(start, block, 0, start[0], start[1], start[2], start[3], start[4], start[5], start[6], start[7])
  {
  }

  lemma OneRound(start: seq<bv64>, block: seq<byte>, t: nat,
                 a: bv64, b: bv64, c: bv64, d: bv64, e: bv64, f: bv64, g: bv64, h: bv64,
                 k: bv64, w: bv64, a1: bv64, e1: bv64)
    requires HasState(start, block, t, a, b, c, d, e, f, g, h) && t < 80
    requires Schedule(block, t) == w && ROUND_CONSTANTS[t] == k
    requires a1 == Add(T1(e, f, g, h, k, w), T2(a, b, c)) && e1 == Add(d, T1(e, f, g, h, k, w))
    ensures HasState(start, block, t + 1, a1, a, b, c, e1, e, f, g)
  {
    hide T1, T2, Add, Schedule;
  }

  /** Eight of the round constants. */
  ghost predicate HasConstants(t: nat, k0: bv64, k1: bv64, k2: bv64, k3: bv64, k4: bv64, k5: bv64, k6: bv64, k7: bv64) {
    && t + 8 <= 80
    && ROUND_CONSTANTS[t] == k0 && ROUND_CONSTANTS[t + 1] == k1 && ROUND_CONSTANTS[t + 2] == k2
    && ROUND_CONSTANTS[t + 3] == k3 && ROUND_CONSTANTS[t + 4] == k4 && ROUND_CONSTANTS[t + 5] == k5
    && ROUND_CONSTANTS[t + 6] == k6 && ROUND_CONSTANTS[t + 7] == k7
  }

  /** Eight rounds. */
  lemma NextRounds(start: seq<bv64>, block: seq<byte>, t: nat,
                   a: bv64, b: bv64, c: bv64, d: bv64, e: bv64, f: bv64, g: bv64, h: bv64,
                   k0: bv64, k1: bv64, k2: bv64, k3: bv64, k4: bv64, k5: bv64, k6: bv64, k7: bv64,
                   w0: bv64, w1: bv64, w2: bv64, w3: bv64, w4: bv64, w5: bv64, w6: bv64, w7: bv64,
                   a1: bv64, e1: bv64, a2: bv64, e2: bv64, a3: bv64, e3: bv64, a4: bv64, e4: bv64,
                   a5: bv64, e5: bv64, a6: bv64, e6: bv64, a7: bv64, e7: bv64, a8: bv64, e8: bv64)
    requires HasState(start, block, t, a, b, c, d, e, f, g, h) && t + 8 <= 80
    requires HasWords(block, t, w0, w1, w2, w3, w4, w5, w6, w7) && HasConstants(t, k0, k1, k2, k3, k4, k5, k6, k7)
    requires a1 == Add(T1(e, f, g, h, k0, w0), T2(a, b, c)) && e1 == Add(d, T1(e, f, g, h, k0, w0))
    requires a2 == Add(T1(e1, e, f, g, k1, w1), T2(a1, a, b)) && e2 == Add(c, T1(e1, e, f, g, k1, w1))
    requires a3 == Add(T1(e2, e1, e, f, k2, w2), T2(a2, a1, a)) && e3 == Add(b, T1(e2, e1, e, f, k2, w2))
    requires a4 == Add(T1(e3, e2, e1, e, k3, w3), T2(a3, a2, a1)) && e4 == Add(a, T1(e3, e2, e1, e, k3, w3))
    requires a5 == Add(T1(e4, e3, e2, e1, k4, w4), T2(a4, a3, a2)) && e5 == Add(a1, T1(e4, e3, e2, e1, k4, w4))
    requires a6 == Add(T1(e5, e4, e3, e2, k5, w5), T2(a5, a4, a3)) && e6 == Add(a2, T1(e5, e4, e3, e2, k5, w5))
    requires a7 == Add(T1(e6, e5, e4, e3, k6, w6), T2(a6, a5, a4)) && e7 == Add(a3, T1(e6, e5, e4, e3, k6, w6))
    requires a8 == Add(T1(e7, e6, e5, e4, k7, w7), T2(a7, a6, a5)) && e8 == Add(a4, T1(e7, e6, e5, e4, k7, w7))
    ensures HasState(start, block, t + 8, a8, a7, a6, a5, e8, e7, e6, e5)
  {
    hide T1, T2, Add, Schedule, HasState;
    OneRound(start, block, t, a, b, c, d, e, f, g, h, k0, w0, a1, e1);
    OneRound(start, block, t + 1, a1, a, b, c, e1, e, f, g, k1, w1, a2, e2);
    OneRound(start, block, t + 2, a2, a1, a, b, e2, e1, e, f, k2, w2, a3, e3);
    OneRound(start, block, t + 3, a3, a2, a1, a, e3, e2, e1, e, k3, w3, a4, e4);
    OneRound(start, block, t + 4, a4, a3, a2, a1, e4, e3, e2, e1, k4, w4, a5, e5);
    OneRound(start, block, t + 5, a5, a4, a3, a2, e5, e4, e3, e2, k5, w5, a6, e6);
    OneRound(start, block, t + 6, a6, a5, a4, a3, e6, e5, e4, e3, k6, w6, a7, e7);
    OneRound(start, block, t + 7, a7, a6, a5, a4, e7, e6, e5, e4, k7, w7, a8, e8);
  }

  /** The hash value after a block, from the working variables after all rounds. */
  lemma Compressed(start: seq<bv64>, block: seq<byte>,
                   a: bv64, b: bv64, c: bv64, d: bv64, e: bv64, f: bv64, g: bv64, h: bv64, end: seq<bv64>)
    requires HasState(start, block, 80, a, b, c, d, e, f, g, h) && |end| == 8
    requires end[0] == Add(a, start[0]) && end[1] == Add(b, start[1]) && end[2] == Add(c, start[2])
    requires end[3] == Add(d, start[3]) && end[4] == Add(e, start[4]) && end[5] == Add(f, start[5])
    requires end[6] == Add(g, start[6]) && end[7] == Add(h, start[7])
    ensures Compress(start, block) == end
  {
    hide Add, Rounds;
  }

  /** The same words, as numbers. */
  ghost predicate SameWords(h: seq<bv64>, ws: seq<nat>) {
    && |h| == |ws| == 8
    && h[0] as nat == ws[0] && h[1] as nat == ws[1] && h[2] as nat == ws[2] && h[3] as nat == ws[3]
    && h[4] as nat == ws[4] && h[5] as nat == ws[5] && h[6] as nat == ws[6] && h[7] as nat == ws[7]
  }

  /** The digest, in words. */
  lemma DigestWords(h: seq<bv64>, ws: seq<nat>)
    requires SameWords(h, ws)
    ensures Digest(h) == FromWords(ws)
  {
    EightWords(ws);
    hide FromWords, BeBytes;
  }

  lemma EightWords(ws: seq<nat>)
    requires |ws| == 8
    ensures FromWords(ws) == BeBytes(ws[0], 8) + BeBytes(ws[1], 8) + BeBytes(ws[2], 8) + BeBytes(ws[3], 8)
                             + BeBytes(ws[4], 8) + BeBytes(ws[5], 8) + BeBytes(ws[6], 8) + BeBytes(ws[7], 8)
  {
    hide *;
    FourWords(ws);
    WordStep(ws, 4);
    WordStep(ws, 5);
    WordStep(ws, 6);
    WordStep(ws, 7);
    Whole(ws, 8);
    Chained(FromWords(ws[..4]), FromWords(ws[..5]), FromWords(ws[..6]), FromWords(ws[..7]), FromWords(ws),
            BeBytes(ws[4], 8), BeBytes(ws[5], 8), BeBytes(ws[6], 8), BeBytes(ws[7], 8));
  }

  lemma Whole(ws: seq<nat>, n: nat)
    requires |ws| == n
    ensures ws[..n] == ws
  {
  }

  lemma Chained(s: seq<byte>, s1: seq<byte>, s2: seq<byte>, s3: seq<byte>, s4: seq<byte>,
                a: seq<byte>, b: seq<byte>, c: seq<byte>, d: seq<byte>)
    requires s1 == s + a && s2 == s1 + b && s3 == s2 + c && s4 == s3 + d
    ensures s4 == s + a + b + c + d
  {
  }

  lemma FourWords(ws: seq<nat>)
    requires 4 <= |ws|
    ensures FromWords(ws[..4]) == BeBytes(ws[0], 8) + BeBytes(ws[1], 8) + BeBytes(ws[2], 8) + BeBytes(ws[3], 8)
  {
    hide *;
    WordStep(ws, 0);
    WordStep(ws, 1);
    WordStep(ws, 2);
    WordStep(ws, 3);
    NoWords(ws[..0]);
    assert [] + BeBytes(ws[0], 8) == BeBytes(ws[0], 8);
  }

  lemma NoWords(ws: seq<nat>)
    requires |ws| == 0
    ensures FromWords(ws) == []
  {
  }

  lemma WordStep(ws: seq<nat>, i: nat)
    requires i < |ws|
    ensures FromWords(ws[..i + 1]) == FromWords(ws[..i]) + BeBytes(ws[i], 8)
  {
    hide BeBytes;
    assert ws[..i + 1][..i] == ws[..i];
  }

  /** A message whose padding is one block. */
  lemma OneBlock(m: seq<byte>, ws: seq<nat>, end: seq<bv64>, digest: seq<nat>)
    requires |ws| == 16 && Pad(m) == FromWords(ws) && Compress(INITIAL, FromWords(ws)) == end
    requires SameWords(end, digest)
    ensures Sha512(m) == FromWords(digest)
  {
    hide Compress, FromWords, Pad, Digest, SameWords;
    FoldBlock(INITIAL, FromWords(ws));
    DigestWords(end, digest);
  }

  lemma FoldBlock(h: seq<bv64>, block: seq<byte>)
    requires |h| == 8 && |block| == 128
    ensures Fold(h, block) == Compress(h, block)
  {
    hide Compress;
    assert block[..128] == block && block[128..] == [];
  }

  /** A message whose padding is two blocks. */
  lemma TwoBlocks(m: seq<byte>, us: seq<nat>, vs: seq<nat>, middle: seq<bv64>, end: seq<bv64>, digest: seq<nat>)
    requires |us| == |vs| == 16 && Pad(m) == FromWords(us + vs)
    requires Compress(INITIAL, FromWords(us)) == middle && |middle| == 8 && Compress(middle, FromWords(vs)) == end
    requires SameWords(end, digest)
    ensures Sha512(m) == FromWords(digest)
  {
    FromConcat(us, vs);
    hide Compress, FromWords, Pad, Digest, SameWords, Fold;
    FoldConcat(INITIAL, FromWords(us), FromWords(vs));
    FoldBlock(INITIAL, FromWords(us));
    FoldBlock(middle, FromWords(vs));
    DigestWords(end, digest);
  }

  /** Messages of whole words. */
  lemma HashOfWords(ws: seq<nat>, block: seq<nat>, end: seq<bv64>, digest: seq<nat>)
    requires 64 * |ws| < W64 && PaddedWords(ws) == block && |block| == 16
    requires Compress(INITIAL, FromWords(block)) == end && SameWords(end, digest)
    ensures Sha512(FromWords(ws)) == FromWords(digest)
  {
    hide *;
    PadOfWords(ws);
    OneBlock(FromWords(ws), block, end, digest);
  }

  lemma HashOfMoreWords(ws: seq<nat>, us: seq<nat>, vs: seq<nat>, middle: seq<bv64>, end: seq<bv64>, digest: seq<nat>)
    requires 64 * |ws| < W64 && PaddedWords(ws) == us + vs && |us| == |vs| == 16
    requires Compress(INITIAL, FromWords(us)) == middle && |middle| == 8 && Compress(middle, FromWords(vs)) == end
    requires SameWords(end, digest)
    ensures Sha512(FromWords(ws)) == FromWords(digest)
  {
    hide *;
    PadOfWords(ws);
    TwoBlocks(FromWords(ws), us, vs, middle, end, digest);
  }
}
