/**
 The streaming SHA-512 of ed25519-hash.h: bytes are collected in a 128-byte buffer,
 whole blocks are folded in as they come, and the length is counted in two words.
 */
module StreamingSha512 {
  import opened Arith
  import opened Bytes
  import opened Sha512Standard

  // Ch and Maj as the code writes them, with fewer operations.
  function FastCh(x: bv64, y: bv64, z: bv64): bv64 { z ^ (x & (y ^ z)) }
  function FastMaj(x: bv64, y: bv64, z: bv64): bv64 { ((x | y) & z) | (x & y) }

  lemma ChBits(x: bv64, y: bv64, z: bv64)
    ensures z ^ (x & (y ^ z)) == (x & y) ^ (!x & z)
  {
  }

  lemma MajBits(x: bv64, y: bv64, z: bv64)
    ensures ((x | y) & z) | (x & y) == (x & y) ^ (x & z) ^ (y & z)
  {
  }

  lemma FastForms(x: bv64, y: bv64, z: bv64)
    ensures FastCh(x, y, z) == Ch(x, y, z) && FastMaj(x, y, z) == Maj(x, y, z)
  {
    ChBits(x, y, z);
    MajBits(x, y, z);
  }

  /** The eight assignments of STEP. */
  method MoveUp<T>(r: array<T>, fifth: T, first: T)
    requires r.Length == 8
    modifies r
    ensures var v := old(r[..]); r[..] == [first, v[0], v[1], v[2], fifth, v[4], v[5], v[6]]
  {
    r[7] := r[6];
    r[6] := r[5];
    r[5] := r[4];
    r[4] := fifth;
    r[3] := r[2];
    r[2] := r[1];
    r[1] := r[0];
    r[0] := first;
  }

  /** STEP: the working variables move up one place in the array. */
  method Step(r: array<bv64>, k: bv64, w: bv64)
    requires r.Length == 8
    modifies r
    ensures r[..] == Round(old(r[..]), k, w)
  {
    hide Add, Ch, Maj, FastCh, FastMaj, BigSigma0, BigSigma1, Round;
    ghost var v := r[..];
    var t1 := Add(BigSigma0(r[0]), FastMaj(r[0], r[1], r[2]));
    var t0 := Add(Add(Add(Add(r[7], BigSigma1(r[4])), FastCh(r[4], r[5], r[6])), k), w);
    MoveUp(r, Add(r[3], t0), Add(t0, t1));
    RoundIs(v, k, w, t0, t1);
  }

  lemma RoundIs(v: seq<bv64>, k: bv64, w: bv64, t0: bv64, t1: bv64)
    requires |v| == 8 && t1 == Add(BigSigma0(v[0]), FastMaj(v[0], v[1], v[2]))
    requires t0 == Add(Add(Add(Add(v[7], BigSigma1(v[4])), FastCh(v[4], v[5], v[6])), k), w)
    ensures [Add(t0, t1), v[0], v[1], v[2], Add(v[3], t0), v[4], v[5], v[6]] == Round(v, k, w)
  {
    hide Add, Ch, Maj, FastCh, FastMaj, BigSigma0, BigSigma1;
    FastForms(v[4], v[5], v[6]);
    FastForms(v[0], v[1], v[2]);
  }

  /** The two loops that fill w. */
  method Expand(w: array<bv64>, block: seq<byte>)
    requires w.Length == ROUNDS && |block| == 128
    modifies w
    ensures forall t :: 0 <= t < ROUNDS ==> w[t] == Schedule(block, t)
  {
    hide Add, Sigma0, Sigma1, LoadBe;
    for i := 0 to 16
      invariant forall t :: 0 <= t < i ==> w[t] == Schedule(block, t)
    {
      w[i] := LoadBe(block, 8 * i);
    }
    for i := 16 to ROUNDS
      invariant forall t :: 0 <= t < i ==> w[t] == Schedule(block, t)
    {
      w[i] := Add(Add(Add(Sigma1(w[i - 2]), w[i - 7]), Sigma0(w[i - 15])), w[i - 16]);
    }
  }

  /** The round loop. */
  method AllRounds(r: array<bv64>, w: array<bv64>, ghost block: seq<byte>)
    requires r.Length == 8 && w.Length == ROUNDS && |block| == 128 && r != w
    requires forall t :: 0 <= t < ROUNDS ==> w[t] == Schedule(block, t)
    modifies r
    ensures r[..] == Rounds(old(r[..]), block, ROUNDS)
  {
    hide Add, Round, Schedule;
    ghost var r0 := r[..];
    for i := 0 to ROUNDS
      invariant r[..] == Rounds(r0, block, i)
    {
      Step(r, ROUND_CONSTANTS[i], w[i]);
    }
  }

  /** One turn of the block loop in sha512_blocks: the chaining value takes in one block. */
  method CompressBlock(h: array<bv64>, block: seq<byte>)
    requires h.Length == 8 && |block| == 128
    modifies h
    ensures h[..] == Compress(old(h[..]), block)
  {
    hide Add, Round, Rounds, Schedule;
    ghost var h0 := h[..];
    var w := new bv64[ROUNDS];
    Expand(w, block);
    var r := new bv64[8];
    forall i | 0 <= i < 8 {
      r[i] := h[i];
    }
    assert r[..] == h0;
    AllRounds(r, w, block);
    AddAll(r, h);
  }

  /** The loop that adds the working variables to the chaining value. */
  method AddAll(r: array<bv64>, h: array<bv64>)
    requires r.Length == 8 && h.Length == 8 && r != h
    modifies r, h
    ensures forall i :: 0 <= i < 8 ==> h[i] == Add(old(r[i]), old(h[i])) && r[i] == h[i]
  {
    hide Add;
    for i := 0 to 8
      invariant forall k :: 0 <= k < i ==> h[k] == Add(old(r[k]), old(h[k])) && r[k] == h[k]
      invariant forall k :: i <= k < 8 ==> h[k] == old(h[k]) && r[k] == old(r[k])
    {
      r[i] := Add(r[i], h[i]);
      h[i] := r[i];
    }
  }

  lemma CopiedPrefix(b: seq<byte>, b0: seq<byte>, at: nat, input: seq<byte>)
    requires |b| == |b0| && at + |input| <= |b|
    requires forall i :: 0 <= i < |b| ==> b[i] == if at <= i < at + |input| then input[i - at] else b0[i]
    ensures b[..at + |input|] == b0[..at] + input
  {
  }

  lemma DropOfJoin(s: seq<byte>, t: seq<byte>, n: nat)
    requires n <= |s|
    ensures (s + t)[n..] == s[n..] + t
  {
  }

  /** The bit counter after n bytes in whole blocks: two words, modulo 2^128. */
  ghost predicate Counts(t0: nat, t1: nat, n: nat) {
    n % 128 == 0 && t0 < W64 && t1 < W64 && t0 % 1024 == 0 && t0 + t1 * W64 == (8 * n) % W128
  }

  /** Adding 1024 carries exactly when the low word becomes zero. */
  lemma CountBlock(t0: nat, t1: nat, n: nat)
    requires Counts(t0, t1, n)
    ensures var u0 := (t0 + 1024) % W64; Counts(u0, (t1 + (if u0 == 0 then 1 else 0)) % W64, n + 128)
  {
    var q := 8 * n / W128;
    assert 8 * n == q * W128 + (t0 + t1 * W64);
    if t0 + 1024 < W64 {
      DivModUnique(8 * (n + 128), W128, q, t0 + 1024 + t1 * W64);
    } else {
      assert t0 + 1024 == W64;
      if t1 + 1 < W64 {
        DivModUnique(8 * (n + 128), W128, q, (t1 + 1) * W64);
      } else {
        DivModUnique(8 * (n + 128), W128, q + 1, 0);
      }
    }
  }

  lemma {:induction false} FoldOne(h: seq<bv64>, m: seq<byte>, block: seq<byte>)
    requires |h| == 8 && |m| % 128 == 0 && |block| == 128
    ensures Fold(h, m + block) == Compress(Fold(h, m), block)
  {
    FoldConcat(h, m, block);
    hide Compress;
    assert block[..128] == block;
    assert Fold(Compress(Fold(h, m), block), block[128..]) == Compress(Fold(h, m), block);
  }

  class Sha512State {
    const H: array<bv64>
    var T0: nat
    var T1: nat
    var leftover: nat
    const buffer: array<byte>

    /** Everything given to the hash so far. */
    ghost var fed: seq<byte>

    ghost predicate Shape() { H.Length == 8 && buffer.Length == 128 }

    /** H and T stand for m, which is whole blocks. */
    ghost predicate Absorbed(m: seq<byte>)
      requires Shape()
      reads this, H
    {
      |m| % 128 == 0 && H[..] == Fold(INITIAL, m) && Counts(T0, T1, |m|)
    }

    ghost predicate Valid()
      reads this, H, buffer
    {
      && Shape() && leftover < 128 && leftover <= |fed|
      && Absorbed(fed[..|fed| - leftover]) && buffer[..leftover] == fed[|fed| - leftover..]
    }

    /** ed25519_hash_init */
    constructor ()
      ensures Valid() && fed == [] && fresh(H) && fresh(buffer)
    {
      H := new bv64[8](i requires 0 <= i < 8 => INITIAL[i]);
      buffer := new byte[128];
      T0, T1, leftover := 0, 0, 0;
      fed := [];
      new;
      assert H[..] == INITIAL;
    }

    /** sha512_blocks */
    method Blocks(input: seq<byte>, ghost m: seq<byte>)
      requires Shape() && Absorbed(m) && |input| % 128 == 0
      modifies H, `T0, `T1
      ensures Absorbed(m + input)
    {
      hide Fold, Compress, Counts;
      var i := 0;
      assert m + input[..0] == m;
      while i < |input|
        invariant 0 <= i <= |input| && i % 128 == 0 && Absorbed(m + input[..i])
      {
        FoldOne(INITIAL, m + input[..i], input[i..i + 128]);
        assert m + input[..i] + input[i..i + 128] == m + input[..i + 128];
        CountBlock(T0, T1, |m| + i);
        CompressBlock(H, input[i..i + 128]);
        T0 := (T0 + 1024) % W64;
        T1 := (T1 + if T0 == 0 then 1 else 0) % W64;
        i := i + 128;
      }
      assert input[..i] == input;
    }

    /** memcpy into the buffer */
    method Copy(at: nat, input: seq<byte>)
      requires Shape() && at + |input| <= 128
      modifies buffer
      ensures forall i :: 0 <= i < 128 ==> buffer[i] == if at <= i < at + |input| then input[i - at] else old(buffer[i])
    {
      forall i | 0 <= i < |input| {
        buffer[at + i] := input[i];
      }
    }

    /** ed25519_hash_update: the state after it does not depend on how the input was cut. */
    method Update(input: seq<byte>)
      requires Valid()
      modifies this, H, buffer
      ensures Valid() && fed == old(fed) + input
    {
      hide Fold, Counts;
      var rest := input;
      ghost var whole := fed[..|fed| - leftover];
      fed := fed + input;
      if leftover != 0 {
        var want := 128 - leftover;
        want := if want < |rest| then want else |rest|;
        Copy(leftover, rest[..want]);
        CopiedPrefix(buffer[..], old(buffer[..]), leftover, input[..want]);
        leftover := leftover + want;
        DropOfJoin(old(fed), input[..want], |whole|);
        assert buffer[..leftover] == (old(fed) + input[..want])[|whole|..];
        if leftover < 128 {
          assert input[..want] == input;
          assert fed[..|fed| - leftover] == whole;
          return;
        }
        rest := rest[want..];
        assert whole + buffer[..] == old(fed) + input[..want];
        Blocks(buffer[..], whole);
        whole := old(fed) + input[..want];
      }
      assert whole + rest == fed && Absorbed(whole);
      Tail(rest, whole);
    }

    /** The second half of ed25519_hash_update: whole blocks, then what is left over. */
    method Tail(input: seq<byte>, ghost whole: seq<byte>)
      requires Shape() && Absorbed(whole) && fed == whole + input
      modifies H, buffer, `T0, `T1, `leftover
      ensures Valid()
    {
      hide Fold, Counts;
      var blocks := |input| / 128 * 128;
      leftover := |input| - blocks;
      if blocks != 0 {
        Blocks(input[..blocks], whole);
      } else {
        assert whole + input[..blocks] == whole;
      }
      if leftover != 0 {
        Copy(0, input[blocks..]);
      }
      assert fed[..|fed| - leftover] == whole + input[..blocks];
      assert buffer[..leftover] == input[blocks..] == fed[|fed| - leftover..];
    }

    /** The padding for at most 111 bytes left over, and the length. */
    method Finish(t0: nat, t1: nat)
      requires Shape() && leftover < 112
      modifies buffer
      ensures buffer[..] == old(buffer[..leftover]) + [0x80] + Zeros(111 - leftover) + BeBytes(t1, 8) + BeBytes(t0, 8)
    {
      ghost var rest := buffer[..leftover];
      buffer[leftover] := 0x80;
      Copy(leftover + 1, Zeros(111 - leftover));
      Copy(112, BeBytes(t1, 8));
      Copy(120, BeBytes(t0, 8));
      assert buffer[..leftover] == rest;
    }

    /** ed25519_hash_final: the SHA-512 digest of everything fed in. */
    method Final() returns (hash: seq<byte>)
      requires Valid()
      modifies this, H, buffer
      ensures hash == Sha512(old(fed))
    {
      hide Fold, Counts, Digest, Pad, BeBytes;
      ghost var whole := fed[..|fed| - leftover];
      ghost var rest := buffer[..leftover];
      assert fed == whole + rest;
      ghost var n := leftover;
      var t0, t1 := T0 + leftover * 8, T1;
      LengthBytes(T0, T1, |whole|, leftover);
      if leftover <= 111 {
        Finish(t0, t1);
        PadOne(whole, rest);
        assert whole + buffer[..] == Pad(fed);
        Blocks(buffer[..], whole);
      } else {
        buffer[leftover] := 0x80;
        Copy(leftover + 1, Zeros(127 - leftover));
        assert buffer[..] == rest + [0x80] + Zeros(127 - n);
        Blocks(buffer[..], whole);
        Copy(0, Zeros(112));
        Copy(112, BeBytes(t1, 8));
        Copy(120, BeBytes(t0, 8));
        assert buffer[..] == Zeros(112) + BeBytes(t1, 8) + BeBytes(t0, 8);
        PadTwo(whole, rest);
        assert whole + (rest + [0x80] + Zeros(127 - n)) + buffer[..] == Pad(fed);
        Blocks(buffer[..], whole + (rest + [0x80] + Zeros(127 - n)));
      }
      hash := Digest(H[..]);
    }
  }

  /** The low bytes of a number: the last one and the others. */
  lemma LowBytes(v: nat, e: nat)
    requires 0 < e
    ensures (v % (256 * e)) / 256 == (v / 256) % e && (v % (256 * e)) % 256 == v % 256
  {
    var u := v / 256;
    var q, r, b := u / e, u % e, v % 256;
    assert v == 256 * u + b;
    assert u == q * e + r by {
      assert u == e * q + r;
    }
    Weights(q, e);
    DivModUnique(v, 256 * e, q, 256 * r + b);
    DivModUnique(256 * r + b, 256, r, b);
  }

  lemma Weights(q: int, e: int)
    ensures 256 * (q * e) == q * (256 * e)
  {
  }

  lemma {:induction false} BeMod(v: nat, n: nat)
    ensures BeBytes(v % Exp256(n), n) == BeBytes(v, n)
  {
    if n > 0 {
      BeMod(v / 256, n - 1);
      LowBytes(v, Exp256(n - 1));
    }
  }

  lemma {:induction false} BeSplit(hi: nat, lo: nat, a: nat, b: nat)
    requires lo < Exp256(b)
    ensures 0 <= hi * Exp256(b) && BeBytes(hi * Exp256(b) + lo, a + b) == BeBytes(hi, a) + BeBytes(lo, b)
  {
    MulNat(hi, Exp256(b));
    if b > 0 {
      BeSplit(hi, lo / 256, a, b - 1);
      var e := Exp256(b - 1);
      assert hi * (256 * e) == 256 * (hi * e);
      DivModUnique(hi * (256 * e) + lo, 256, hi * e + lo / 256, lo % 256);
    }
  }

  /** The two counter words, with the bytes left over added, are the length in bits. */
  lemma LengthBytes(t0: nat, t1: nat, n: nat, leftover: nat)
    requires Counts(t0, t1, n) && leftover < 128
    ensures BeBytes(t1, 8) + BeBytes(t0 + leftover * 8, 8) == BeBytes(8 * (n + leftover), 16)
    ensures t0 + leftover * 8 < W64
  {
    var v, low := 8 * (n + leftover), t0 + leftover * 8;
    Exp256Values();
    var q := 8 * n / W128;
    assert 8 * n == q * W128 + (t0 + t1 * W64);
    BeSplit(q * W64 + t1, low, 8, 8);
    BeMod(q * W64 + t1, 8);
    hide BeBytes;
    assert (q * W64 + t1) * W64 + low == v;
    DivModUnique(q * W64 + t1, W64, q, t1);
  }

  lemma PadOne(whole: seq<byte>, rest: seq<byte>)
    requires |whole| % 128 == 0 && |rest| <= 111
    ensures Pad(whole + rest) == whole + (rest + [0x80] + Zeros(111 - |rest|) + BeBytes(8 * (|whole| + |rest|), 16))
  {
    assert (111 - |whole + rest|) % 128 == 111 - |rest|;
    hide BeBytes, Zeros;
  }

  lemma PadTwo(whole: seq<byte>, rest: seq<byte>)
    requires |whole| % 128 == 0 && 111 < |rest| < 128
    ensures Pad(whole + rest)
         == whole + (rest + [0x80] + Zeros(127 - |rest|)) + (Zeros(112) + BeBytes(8 * (|whole| + |rest|), 16))
  {
    assert (111 - |whole + rest|) % 128 == (127 - |rest|) + 112;
    assert Zeros((127 - |rest|) + 112) == Zeros(127 - |rest|) + Zeros(112);
    hide BeBytes, Zeros;
  }
}
