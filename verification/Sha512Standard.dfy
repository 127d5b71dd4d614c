/**
 SHA-512 as FIPS 180-4 defines it (sections 4.1.3, 5.1.2, 5.3.5 and 6.4), the
 reference that the streaming code in ed25519-hash.h is proved against.
 */
module Sha512Standard {
  import opened Bytes

  // Section 4.2.3, twenty words at a time.
  const CONSTANTS_0: seq<bv64> := [
    0x428a2f98d728ae22, 0x7137449123ef65cd, 0xb5c0fbcfec4d3b2f, 0xe9b5dba58189dbbc,
    0x3956c25bf348b538, 0x59f111f1b605d019, 0x923f82a4af194f9b, 0xab1c5ed5da6d8118,
    0xd807aa98a3030242, 0x12835b0145706fbe, 0x243185be4ee4b28c, 0x550c7dc3d5ffb4e2,
    0x72be5d74f27b896f, 0x80deb1fe3b1696b1, 0x9bdc06a725c71235, 0xc19bf174cf692694,
    0xe49b69c19ef14ad2, 0xefbe4786384f25e3, 0x0fc19dc68b8cd5b5, 0x240ca1cc77ac9c65
  ]

  const CONSTANTS_20: seq<bv64> := [
    0x2de92c6f592b0275, 0x4a7484aa6ea6e483, 0x5cb0a9dcbd41fbd4, 0x76f988da831153b5,
    0x983e5152ee66dfab, 0xa831c66d2db43210, 0xb00327c898fb213f, 0xbf597fc7beef0ee4,
    0xc6e00bf33da88fc2, 0xd5a79147930aa725, 0x06ca6351e003826f, 0x142929670a0e6e70,
    0x27b70a8546d22ffc, 0x2e1b21385c26c926, 0x4d2c6dfc5ac42aed, 0x53380d139d95b3df,
    0x650a73548baf63de, 0x766a0abb3c77b2a8, 0x81c2c92e47edaee6, 0x92722c851482353b
  ]

  const CONSTANTS_40: seq<bv64> := [
    0xa2bfe8a14cf10364, 0xa81a664bbc423001, 0xc24b8b70d0f89791, 0xc76c51a30654be30,
    0xd192e819d6ef5218, 0xd69906245565a910, 0xf40e35855771202a, 0x106aa07032bbd1b8,
    0x19a4c116b8d2d0c8, 0x1e376c085141ab53, 0x2748774cdf8eeb99, 0x34b0bcb5e19b48a8,
    0x391c0cb3c5c95a63, 0x4ed8aa4ae3418acb, 0x5b9cca4f7763e373, 0x682e6ff3d6b2b8a3,
    0x748f82ee5defb2fc, 0x78a5636f43172f60, 0x84c87814a1f0ab72, 0x8cc702081a6439ec
  ]

  const CONSTANTS_60: seq<bv64> := [
    0x90befffa23631e28, 0xa4506cebde82bde9, 0xbef9a3f7b2c67915, 0xc67178f2e372532b,
    0xca273eceea26619c, 0xd186b8c721c0c207, 0xeada7dd6cde0eb1e, 0xf57d4f7fee6ed178,
    0x06f067aa72176fba, 0x0a637dc5a2c898a6, 0x113f9804bef90dae, 0x1b710b35131c471b,
    0x28db77f523047d84, 0x32caab7b40c72493, 0x3c9ebe0a15c9bebc, 0x431d67c49c100d4c,
    0x4cc5d4becb3e42b6, 0x597f299cfc657e2a, 0x5fcb6fab3ad6faec, 0x6c44198c4a475817
  ]

  const ROUND_CONSTANTS: seq<bv64> := CONSTANTS_0 + CONSTANTS_20 + CONSTANTS_40 + CONSTANTS_60

  const ROUNDS: nat := 80

  const INITIAL: seq<bv64> := [
    0x6a09e667f3bcc908, 0xbb67ae8584caa73b, 0x3c6ef372fe94f82b, 0xa54ff53a5f1d36f1,
    0x510e527fade682d1, 0x9b05688c2b3e6c1f, 0x1f83d9abfb41bd6b, 0x5be0cd19137e2179
  ]

  /** Addition modulo 2^64. */
  function Add(x: bv64, y: bv64): bv64 { x + y }

  // Section 4.1.3.
  function Ch(x: bv64, y: bv64, z: bv64): bv64 { (x & y) ^ (!x & z) }
  function Maj(x: bv64, y: bv64, z: bv64): bv64 { (x & y) ^ (x & z) ^ (y & z) }

  // The rotations to the right are written out: by 28, 34 and 39, and so on.
  function BigSigma0(x: bv64): bv64 {
    ((x >> 28) | (x << 36)) ^ ((x >> 34) | (x << 30)) ^ ((x >> 39) | (x << 25))
  }

  function BigSigma1(x: bv64): bv64 {
    ((x >> 14) | (x << 50)) ^ ((x >> 18) | (x << 46)) ^ ((x >> 41) | (x << 23))
  }

  function Sigma0(x: bv64): bv64 {
    ((x >> 1) | (x << 63)) ^ ((x >> 8) | (x << 56)) ^ (x >> 7)
  }

  function Sigma1(x: bv64): bv64 {
    ((x >> 19) | (x << 45)) ^ ((x >> 61) | (x << 3)) ^ (x >> 6)
  }

  function Wide(b: byte): bv64 { b as bv64 }

  /** The big-endian word at a place in a block. */
  function LoadBe(p: seq<byte>, at: nat): bv64
    requires at + 8 <= |p|
  {
    (Wide(p[at]) << 56) | (Wide(p[at + 1]) << 48) | (Wide(p[at + 2]) << 40) | (Wide(p[at + 3]) << 32)
    | (Wide(p[at + 4]) << 24) | (Wide(p[at + 5]) << 16) | (Wide(p[at + 6]) << 8) | Wide(p[at + 7])
  }

  /** The message schedule (section 6.4.2, step 1). */
  function Schedule(block: seq<byte>, t: nat): bv64
    requires |block| == 128 && t < 80
  {
    if t < 16 then LoadBe(block, 8 * t)
    else
      Add(Add(Add(Sigma1(Schedule(block, t - 2)), Schedule(block, t - 7)), Sigma0(Schedule(block, t - 15))),
          Schedule(block, t - 16))
  }

  /** T1 and T2 of a round (step 3), from the working variables they need. */
  function T1(e: bv64, f: bv64, g: bv64, h: bv64, k: bv64, w: bv64): bv64 {
    Add(Add(Add(Add(h, BigSigma1(e)), Ch(e, f, g)), k), w)
  }

  function T2(a: bv64, b: bv64, c: bv64): bv64 {
    Add(BigSigma0(a), Maj(a, b, c))
  }

  /** One round on the working variables a..h (step 3). */
  function Round(v: seq<bv64>, k: bv64, w: bv64): (r: seq<bv64>)
    requires |v| == 8
    ensures |r| == 8
  {
    var t1 := T1(v[4], v[5], v[6], v[7], k, w);
    [Add(t1, T2(v[0], v[1], v[2])), v[0], v[1], v[2], Add(v[3], t1), v[4], v[5], v[6]]
  }

  function Rounds(h: seq<bv64>, block: seq<byte>, t: nat): (r: seq<bv64>)
    requires |h| == 8 && |block| == 128 && t <= 80
    ensures |r| == 8
  {
    if t == 0 then h else Round(Rounds(h, block, t - 1), ROUND_CONSTANTS[t - 1], Schedule(block, t - 1))
  }

  /** The hash value after one more block (steps 2 to 4). */
  function Compress(h: seq<bv64>, block: seq<byte>): (r: seq<bv64>)
    requires |h| == 8 && |block| == 128
    ensures |r| == 8
  {
    var v := Rounds(h, block, ROUNDS);
    [Add(v[0], h[0]), Add(v[1], h[1]), Add(v[2], h[2]), Add(v[3], h[3]),
     Add(v[4], h[4]), Add(v[5], h[5]), Add(v[6], h[6]), Add(v[7], h[7])]
  }

  /** The hash value after all whole blocks of a message. */
  function Fold(h: seq<bv64>, m: seq<byte>): (r: seq<bv64>)
    requires |h| == 8
    ensures |r| == 8
    decreases |m|
  {
    if |m| < 128 then h else Fold(Compress(h, m[..128]), m[128..])
  }

  /** Big-endian bytes of v. */
  function BeBytes(v: nat, n: nat): (s: seq<byte>)
    ensures |s| == n
  {
    if n == 0 then [] else BeBytes(v / 256, n - 1) + [v % 256]
  }

  /** Section 5.1.2: a one bit, zeros, and the length in bits as a 128-bit number. */
  function Pad(m: seq<byte>): (p: seq<byte>)
  {
    m + [0x80] + Zeros((111 - |m|) % 128) + BeBytes(8 * |m|, 16)
  }

  function Digest(h: seq<bv64>): (d: seq<byte>)
    requires |h| == 8
    ensures |d| == 64
  {
    BeBytes(h[0] as nat, 8) + BeBytes(h[1] as nat, 8) + BeBytes(h[2] as nat, 8) + BeBytes(h[3] as nat, 8)
    + BeBytes(h[4] as nat, 8) + BeBytes(h[5] as nat, 8) + BeBytes(h[6] as nat, 8) + BeBytes(h[7] as nat, 8)
  }

  function Sha512(m: seq<byte>): (d: seq<byte>)
    ensures |d| == 64
  {
    Digest(Fold(INITIAL, Pad(m)))
  }

  /** Whole blocks first, then the rest. */
  lemma {:induction false} FoldConcat(h: seq<bv64>, a: seq<byte>, b: seq<byte>)
    requires |h| == 8 && |a| % 128 == 0
    ensures Fold(h, a + b) == Fold(Fold(h, a), b)
    decreases |a|
  {
    hide Compress;
    if |a| == 0 {
      assert a + b == b;
    } else {
      assert (a + b)[..128] == a[..128] && (a + b)[128..] == a[128..] + b;
      FoldConcat(Compress(h, a[..128]), a[128..], b);
    }
  }
}
