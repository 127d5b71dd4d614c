/** The steps of key generation and signing, from numbers to strings. */
module SigningSteps {
  import opened Arith
  import opened Bytes
  import opened PrimeField
  import opened Edwards
  import opened Compression
  import opened ScalarMult
  import opened BasePoint
  import opened BasePowers
  import opened GroupOrder
  import opened ModM
  import opened Signature
  import opened Sha512Standard

  /** Clamping, on a number with known quotients. */
  lemma ClampsTo(h: seq<byte>, v: nat, q: nat, r: nat, e: nat, f: nat)
    requires 32 <= |h| && Le(h[..32]) == v
    requires v == q * (W255 / 2) + r && r < W255 / 2
    requires v == e * 8 + f && f < 8
    ensures Le(Clamped(h)[..32]) == r - f + W255 / 2
  {
    ClampedValue(h);
    DivModUnique(v, W255 / 2, q, r);
    DivModUnique(v, 8, e, f);
  }

  /** [n]B, encoded: n is k modulo m, and p is [k]B. */
  lemma EncodesTo(n: nat, q: nat, k: nat, p: Point, h: int, b: int, s: seq<byte>)
    requires Fermat() && n == q * M + k && k < M && IsMultiple(k, p)
    requires p.x == 2 * h + b && 0 <= b < 2
    requires |s| == 32 && Le(s) == p.y + b * W255
    ensures Encode(Mult(n, BASE)) == s
  {
    MultipleOnCurve(k, p);
    hide *;
    ReducedMultiple(n, q, k, p);
    DivModUnique(p.x, 2, h, b);
    EncodedPoint(p, s);
  }

  lemma ReducedMultiple(n: nat, q: nat, k: nat, p: Point)
    requires Fermat() && n == q * M + k && k < M && IsMultiple(k, p)
    ensures Mult(n, BASE) == p
  {
    BaseDomain();
    hide Fermat, Domain, Mult;
    MultMod(n, BASE);
    DivModUnique(n, M, q, k);
  }

  lemma EncodedPoint(p: Point, s: seq<byte>)
    requires OnCurve(p) && |s| == 32 && Le(s) == p.y + (p.x % 2) * W255
    ensures Encode(p) == s
  {
    OnCurveReduced(p);
    hide OnCurve, Encode, Le;
    EncodeIs(p);
    LeInjective(Encode(p), s);
  }

  /** Both halves of a signature. */
  lemma SignsTo(m: seq<byte>, sk: seq<byte>, pk: seq<byte>, a: nat, n: nat, r: seq<byte>,
                c: nat, q: nat, k: nat, t: nat, v: nat, s: seq<byte>)
    requires SecretScalar(sk) == a && Nonce(m, sk) == n && Encode(Mult(n, BASE)) == r
    requires Le(Sha512(r + pk + m)) == c && c == q * M + k && k < M
    requires n + k * a == t * M + v && v < M && |s| == 32 && Le(s) == v
    ensures SignatureOf(m, sk, pk, BASE) == r + s
  {
    hide SecretScalar, Nonce, Mult, Encode, Le, Sha512, LeBytes;
    DivModUnique(c, M, q, k);
    DivModUnique(n + k * a, M, t, v);
    ScalarBytesAre(s, v);
  }
}
