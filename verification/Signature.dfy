/**
 Key generation and signing (sections 5.1.5 and 5.1.6 of RFC 8032) and verification, as ed25519.c
 does them. How its verification compares with section 5.1.7 is in StandardVerification.
 */
module Signature {
  import opened Arith
  import opened Bytes
  import opened Bits
  import opened Scalars
  import opened ModM
  import opened ScalarBytes
  import opened PrimeField
  import opened Edwards
  import opened Points
  import opened Compression
  import opened Encoding
  import opened ScalarMult
  import opened BaseMult
  import opened Sha512Standard
  import opened StreamingSha512

  /** What signing and checking are proved under: m times the base point is neutral. GroupOrder shows it of the one in use. */
  ghost predicate Domain(base: Point) {
    Fermat() && OnCurve(base) && Mult(M, base) == NEUTRAL
  }

  /** ed25519_hash */
  method Hash(input: seq<byte>) returns (hash: seq<byte>)
    ensures hash == Sha512(input)
  {
    hide *;
    var ctx := new Sha512State();
    ctx.Update(input);
    hash := ctx.Final();
    assert [] + input == input;
  }

  /** A string of at least 32 bytes with the first 32 clamped. */
  function Clamped(h: seq<byte>): (e: seq<byte>)
    requires 32 <= |h|
    ensures |e| == |h|
  {
    h[0 := At(h, 0) - At(h, 0) % 8][31 := At(h, 31) % 64 + 64]
  }

  /** The secret scalar of a key. */
  function SecretScalar(sk: seq<byte>): nat {
    Le(Clamped(Sha512(sk))[..32])
  }

  /** Clamping replaces the bits above 253 by one set bit, 254, and clears the low three. */
  lemma ClampedValue(h: seq<byte>)
    requires 32 <= |h|
    ensures var v := Le(h[..32]);
      Le(Clamped(h)[..32]) == v % (W255 / 2) - v % 8 + W255 / 2 && 0 <= v % (W255 / 2) - v % 8
  {
    var a, c := h[..32], Clamped(h)[..32];
    assert c[..31] == a[..31][0 := At(a, 0) - At(a, 0) % 8] && At(c, 31) == At(a, 31) % 64 + 64;
    FirstByte(a[..31], c[..31]);
    LeLast(a);
    LeLast(c);
    Exp256Of31();
    hide Le, Exp256, Clamped;
    ClampedBits(Le(a[..31]), Exp256(31), At(a, 31), At(a, 0) % 8);
  }

  /** What follows the first 32 bytes is left as it is. */
  lemma ClampedRest(h: seq<byte>)
    requires 32 <= |h|
    ensures Clamped(h)[32..] == h[32..]
  {
  }

  lemma FirstByte(s: seq<byte>, t: seq<byte>)
    requires 1 <= |s| && t == s[0 := At(s, 0) - At(s, 0) % 8]
    ensures Le(t) == Le(s) - At(s, 0) % 8 && Le(s) % 8 == At(s, 0) % 8
  {
    assert s[0..] == s && t[0..] == t && s[1..] == t[1..];
    var b, rest := At(s, 0), Le(s[1..]);
    assert At(t, 0) == b - b % 8;
    LeStep(s, 0);
    LeStep(t, 0);
    hide *;
    LowThreeBits(b, rest);
  }

  lemma LowThreeBits(b: int, rest: int)
    ensures (b + 256 * rest) % 8 == b % 8
  {
    ModShift(b, 32 * rest, 8);
  }

  lemma ClampedBits(low: int, e: int, b: int, r: int)
    requires 0 <= low < e && e * 128 == W255 && 0 <= b < 256 && low % 8 == r
    ensures var v := low + e * b;
      (low - r) + e * (b % 64 + 64) == v % (W255 / 2) - v % 8 + W255 / 2 && 0 <= v % (W255 / 2) - v % 8
  {
    var q, c := b / 64, b % 64;
    assert e * b == q * (e * 64) + e * c;
    MulLe(c + 1, 64, e);
    assert (c + 1) * e == e * c + e;
    MulNat(e, c);
    DivModUnique(low + e * b, W255 / 2, q, low + e * c);
    assert e == 8 * (e / 8);
    ModShift(low, (e / 8) * b, 8);
    assert (e / 8) * b * 8 == e * b;
  }

  /** The secret scalar is a multiple of eight with bit 254 set, as section 5.1.5 of RFC 8032 asks. */
  lemma SecretScalarRange(sk: seq<byte>)
    ensures SecretScalar(sk) % 8 == 0 && W255 / 2 <= SecretScalar(sk) < W255
  {
    hide Sha512, Le, Clamped;
    ClampedValue(Sha512(sk));
    MultipleOfEight(Le(Sha512(sk)[..32]));
  }

  lemma MultipleOfEight(v: nat)
    ensures (v % (W255 / 2) - v % 8) % 8 == 0
  {
    var m := W255 / 2;
    assert v == (v / m) * m + v % m && m == (m / 8) * 8;
    assert (v / m) * m == ((v / m) * (m / 8)) * 8;
    ModShift(v % m, (v / m) * (m / 8), 8);
  }

  /** The second half of the expanded key, hashed with the message for the nonce. */
  function Prefix(sk: seq<byte>): seq<byte> {
    Sha512(sk)[32..]
  }

  function PublicKeyOf(sk: seq<byte>, base: Point): seq<byte> {
    Encode(Mult(SecretScalar(sk), base))
  }

  /** ed25519_extsk */
  method ExtSk(sk: seq<byte>) returns (extsk: seq<byte>)
    ensures extsk == Clamped(Sha512(sk)) && extsk[32..] == Sha512(sk)[32..] == Prefix(sk)
  {
    hide Sha512;
    ClampedRest(Sha512(sk));
    extsk := Hash(sk);
    ClampLow(extsk[0]);
    ClampHigh(extsk[31]);
    hide And, Or;
    extsk := extsk[0 := And(extsk[0], 248)];
    extsk := extsk[31 := And(extsk[31], 127)];
    extsk := extsk[31 := Or(extsk[31], 64)];
  }

  /** The nonce of a message, before reduction. */
  function Nonce(m: seq<byte>, sk: seq<byte>): nat {
    Le(Sha512(Prefix(sk) + m))
  }

  /** H(R, A, m), reduced. */
  function Challenge(r: seq<byte>, pk: seq<byte>, m: seq<byte>): nat {
    Le(Sha512(r + pk + m)) % M
  }

  /** R and S as section 5.1.6 of RFC 8032 defines them. */
  function SignatureOf(m: seq<byte>, sk: seq<byte>, pk: seq<byte>, base: Point): (rs: seq<byte>)
    ensures |rs| == 64
  {
    var r := Encode(Mult(Nonce(m, sk), base));
    r + LeBytes((Nonce(m, sk) + Challenge(r, pk, m) * SecretScalar(sk)) % M, 32)
  }

  /** What ed25519_sign_open tests: S modulo m, any key string that unpacks, and no factor eight. */
  ghost predicate Accepts(m: seq<byte>, pk: seq<byte>, rs: seq<byte>, base: Point) {
    |rs| == 64
    && At(rs, 63) < 32
    && DecompressNegative(pk).Some?
    && Encode(Mult2(Challenge(rs[..32], pk, m), DecompressNegative(pk).value, Le(rs[32..]) % M, base)) == rs[..32]
  }

  /** ed25519_hram */
  method Hram(r: seq<byte>, pk: seq<byte>, m: seq<byte>) returns (hram: seq<byte>)
    ensures |hram| == 64 && hram == Sha512(r + pk + m)
  {
    hide *;
    var ctx := new Sha512State();
    ctx.Update(r);
    ctx.Update(pk);
    ctx.Update(m);
    hram := ctx.Final();
    assert [] + r + pk + m == r + pk + m;
  }

  /** Multiples of the base point depend on the scalar modulo m only. */
  lemma MultMod(n: nat, base: Point)
    requires Domain(base)
    ensures Mult(n % M, base) == Mult(n, base)
  {
    hide Fermat, OnCurve, Plus, Mult;
    var q := n / M;
    assert n == q * M + n % M;
    MultTimes(q, M, base);
    MultAdd(n % M, q * M, base);
    MultIn(n % M, base);
    PlusNeutral(Mult(n % M, base));
  }

  /** ed25519_publickey: the secret scalar times the base point. */
  method PublicKey(sk: seq<byte>, table: seq<seq<byte>>, ghost base: Point) returns (pk: seq<byte>)
    requires Domain(base) && IsBaseTable(table, base)
    ensures pk == PublicKeyOf(sk, base)
  {
    hide Fermat, OnCurve, IsBaseTable, Mult, Encode, IsPartial, Val;
    var extsk := ExtSk(sk);
    var a := ScalarBytes.Expand(extsk[..32]);
    pk := PackMultiple(a, table, base);
    MultMod(SecretScalar(sk), base);
  }

  /** Fixed-base multiplication and packing, as key generation and signing both do. */
  method PackMultiple(s: Scalar, table: seq<seq<byte>>, ghost base: Point) returns (r: seq<byte>)
    requires Domain(base) && IsBaseTable(table, base) && Canonical(s) && Val(s) < M
    ensures |r| == 32 && r == Encode(Mult(Val(s), base))
  {
    hide Fermat, OnCurve, IsBaseTable, Mult, Encode, IsPartial, Val;
    var p := ScalarmultBase(table, s, base);
    r := Pack(p, Mult(Val(s), base));
  }

  /** S as the code works it out, step by step modulo m. */
  lemma ReducedSum(r: nat, h: nat, a: nat)
    ensures ((h * (a % M)) % M + r % M) % M == (r + h * a) % M
  {
    var qa, qr := a / M, r / M;
    var ha := h * (a % M);
    var qh := ha / M;
    assert a == qa * M + a % M && r == qr * M + r % M && ha == qh * M + ha % M;
    assert h * a == h * (qa * M) + ha && h * (qa * M) == (h * qa) * M;
    var x := ha % M + r % M;
    assert r + h * a == x + (qr + h * qa + qh) * M;
    ModShift(x, qr + h * qa + qh, M);
  }

  lemma ScalarProductBound(x: nat, y: nat)
    requires x < M && y < M
    ensures x * y < W512
  {
    MulLe(x, M, y);
  }

  /** The 32 bytes of a scalar below m. */
  lemma ScalarBytesAre(out: seq<byte>, v: nat)
    requires |out| == 32 && Le(out) == v < M
    ensures out == LeBytes(v, 32)
  {
    Exp256Of31();
    LeOfBytes(v, 32);
    LeInjective(out, LeBytes(v, 32));
  }

  /** S = r + H(R, A, m) a modulo m, in 32 bytes. */
  method Response(r: Scalar, hram: seq<byte>, extsk: seq<byte>, ghost nonce: nat, ghost a: nat) returns (out: seq<byte>)
    requires |hram| == 64 && |extsk| == 64 && Canonical(r) && Val(r) == nonce % M && Val(r) < M && a == Le(extsk[..32])
    ensures out == LeBytes((nonce + (Le(hram) % M) * a) % M, 32)
  {
    hide Val, Le, LeBytes, Canonical;
    var s := ScalarBytes.Expand(hram);
    var x := ScalarBytes.Expand(extsk[..32]);
    ScalarProductBound(Val(s), Val(x));
    ghost var h := Val(s);
    s := ModM.Mul(s, x);
    ShortIsCanonical(s);
    s := ModM.Add(s, r);
    ShortIsCanonical(s);
    ReducedSum(nonce, h, a);
    out := ScalarBytes.Contract(s);
    ScalarBytesAre(out, Val(s));
  }

  /** H(prefix, m): two updates. */
  method NonceHash(prefix: seq<byte>, m: seq<byte>) returns (hash: seq<byte>)
    ensures hash == Sha512(prefix + m)
  {
    hide *;
    var ctx := new Sha512State();
    ctx.Update(prefix);
    ctx.Update(m);
    hash := ctx.Final();
    assert [] + prefix + m == prefix + m;
  }

  /** ed25519_sign */
  method Sign(m: seq<byte>, sk: seq<byte>, pk: seq<byte>, table: seq<seq<byte>>, ghost base: Point) returns (rs: seq<byte>)
    requires Domain(base) && IsBaseTable(table, base)
    ensures rs == SignatureOf(m, sk, pk, base)
  {
    hide *;
    var extsk := ExtSk(sk);
    var hashr := NonceHash(extsk[32..], m);
    var r := ScalarBytes.Expand(hashr);
    var packed := PackMultiple(r, table, base);
    var hram := Hram(packed, pk, m);
    var s := Response(r, hram, extsk, Le(hashr), Le(extsk[..32]));
    rs := packed + s;
    SignatureParts(m, sk, pk, base, Val(r));
  }

  /** The two halves of a signature, by what the code has at hand. */
  lemma SignatureParts(m: seq<byte>, sk: seq<byte>, pk: seq<byte>, base: Point, r: nat)
    requires Domain(base) && r == Le(Sha512(Prefix(sk) + m)) % M
    ensures var R := Encode(Mult(r, base));
      SignatureOf(m, sk, pk, base)
      == R + LeBytes((Le(Sha512(Prefix(sk) + m)) + (Le(Sha512(R + pk + m)) % M) * Le(Clamped(Sha512(sk))[..32])) % M, 32)
  {
    hide Fermat, OnCurve, Mult, Encode, Le, Sha512, Clamped, LeBytes, Prefix;
    MultMod(Nonce(m, sk), base);
  }

  /** The point that the verifier compares with R, packed. */
  method Recompute(a: Ge, hram: seq<byte>, s: seq<byte>, table: seq<Niels>, ghost p: Point, ghost base: Point)
    returns (checkR: seq<byte>)
    requires Fermat() && OnCurve(base) && IsTable2(table, base) && IsFull(a, p) && |hram| == 64 && |s| == 32
    ensures checkR == Encode(Mult2(Le(hram) % M, p, Le(s) % M, base))
  {
    hide Fermat, OnCurve, IsTable2, Mult2, IsFull, IsPartial, Encode, Val, Le, Canonical;
    var h := ScalarBytes.Expand(hram);
    var x := ScalarBytes.Expand(s);
    var r := DoubleScalarmult(a, h, x, table, p, base);
    checkR := Pack(r, Mult2(Val(h), p, Val(x), base));
  }

  /** ed25519_sign_open: 0 for a good signature, -1 otherwise. */
  method SignOpen(m: seq<byte>, pk: seq<byte>, rs: seq<byte>, table: seq<Niels>, ghost base: Point) returns (result: int)
    requires Fermat() && OnCurve(base) && IsTable2(table, base) && |pk| == 32 && |rs| == 64
    ensures result == if Accepts(m, pk, rs, base) then 0 else -1
  {
    hide Fermat, OnCurve, IsTable2, Mult2, IsFull, Encode, Le, Sha512, DecompressNegative;
    var ok, a := UnpackNegative(pk);
    TopThreeBits(rs[63]);
    if And(rs[63], 224) != 0 || !ok {
      return -1;
    }
    var hash := Hram(rs[..32], pk, m);
    var checkR := Recompute(a, hash, rs[32..], table, DecompressNegative(pk).value, base);
    var same := Verify(rs[..32], checkR);
    result := if same then 0 else -1;
  }

  /** [S]B - [h]A == [r]B when A = [a]B and S = r + h a. */
  lemma EquationHolds(r: nat, h: nat, a: nat, base: Point)
    requires Domain(base)
    ensures OnCurve(Mult(a, base))
    ensures Mult2(h, Negate(Mult(a, base)), (r + h * a) % M, base) == Mult(r, base)
  {
    hide OnCurve, Fermat, Plus, Mult, Negate;
    var b: int := a;
    var k: int := h * b;
    MulNat(h, a);
    MultMod(r + k, base);
    MultIn(a, base);
    MultNegate(a, base);
    MultTimes(h, -b, base);
    assert h * -b == -k;
    MultAdd(-k, r + k, base);
  }

  /** Every signature made with a key is accepted under the matching public key. */
  lemma SignThenOpen(m: seq<byte>, sk: seq<byte>, base: Point)
    requires Domain(base)
    ensures var pk := PublicKeyOf(sk, base); Accepts(m, pk, SignatureOf(m, sk, pk, base), base)
  {
    hide Fermat, OnCurve, Mult, Mult2, Encode, Sha512, Le, Clamped, Prefix, DecompressNegative, LeBytes;
    var pk := PublicKeyOf(sk, base);
    var rs := SignatureOf(m, sk, pk, base);
    var a, r := SecretScalar(sk), Nonce(m, sk);
    var R := Encode(Mult(r, base));
    var h := Challenge(R, pk, m);
    var s := (r + h * a) % M;
    assert rs[..32] == R && rs[32..] == LeBytes(s, 32);
    EquationHolds(r, h, a, base);
    DecompressEncode(Mult(a, base));
    SmallScalar(s);
    ModSmall(s, M);
    assert At(rs, 63) == At(rs[32..], 31);
  }

  /** A scalar below m leaves the top three bits of its 32 bytes clear. */
  lemma SmallScalar(v: nat)
    requires v < M
    ensures Le(LeBytes(v, 32)) == v && At(LeBytes(v, 32), 31) < 32
  {
    Exp256Of31();
    LeOfBytes(v, 32);
    LeLast(LeBytes(v, 32));
    hide Le, LeBytes, Exp256;
    var b := At(LeBytes(v, 32), 31);
    if b >= 32 {
      MulLe(32, b, Exp256(31));
    }
  }
}
