/**
 What keys of small order show. Good signatures that a batch does not balance: one key of order two, of
 whose weighted hash an odd multiple of m was dropped, leaves itself behind, and the list gives result 2 with all
 its flags set. And signatures on which the single check and section 5.1.7 of RFC 8032 differ.
 */
module SmallOrderKeys {
  import opened Arith
  import opened Groups
  import opened Options
  import opened Bytes
  import opened ModM
  import opened ModP
  import opened PrimeField
  import opened Edwards
  import opened CurveGroup
  import opened Compression
  import opened ScalarMult
  import opened Sha512Standard
  import opened Signature
  import opened Batch
  import opened BatchEquation
  import opened UnreducedResponses
  import opened StandardVerification

  /** All entries but one are sincere, and that one is good. */
  ghost predicate SincereBut(es: seq<Entry>, j: nat, base: Point) {
    && j < |es| && Formed(es[j]) && Good(es[j], base)
    && forall i :: 0 <= i < |es| && i != j ==> Sincere(es[i], base)
  }

  lemma SincereButParts(es: seq<Entry>, j: nat, base: Point)
    requires SincereBut(es, j, base)
    ensures AllFormed(es) && AllGood(es, base)
  {
    hide Good;
    forall i | 0 <= i < |es|
      ensures Formed(es[i]) && Good(es[i], base)
    {
      assert i != j ==> Sincere(es[i], base);
    }
  }

  /** What is dropped in such a batch is what that one entry drops. */
  lemma {:induction false} ExcessOfOne(es: seq<Entry>, j: nat, base: Point)
    requires Domain(base) && SincereBut(es, j, base) && AllFormed(es) && AllDecode(es)
    ensures Decodes(es[j]) && ExcessSum(es) == ExcessTerm(es[j])
  {
    hide Fermat, OnCurve, Plus, Mult, ExcessTerm, ExcessSum, Sincere, Good, AllDecode, AllFormed, KeySum, CommitmentSum, Responses;
    var n := |es| - 1;
    LastTerms(es);
    var f := es[..n];
    if j == n {
      assert AllSincere(f, base);
      NoExcess(f, base);
      TermsIn(es[n]);
      NeutralPlus(ExcessTerm(es[n]));
    } else {
      assert f[j] == es[j];
      ExcessOfOne(f, j, base);
      assert Sincere(es[n], base);
      NothingDropped(es[n], base);
      TermsIn(es[j]);
      PlusNeutral(ExcessTerm(es[j]));
    }
  }

  /** The entry's key has order two, and the multiple of m dropped from its weighted hash is odd. */
  ghost predicate LeavesKey(e: Entry) {
    && Formed(e) && Decodes(e)
    && DecompressNegative(e.pk).value != NEUTRAL && Mult(2, DecompressNegative(e.pk).value) == NEUTRAL
    && (H(e) * Z(e) / M) % 2 == 1
  }

  /** The key is all that is left of the equation. */
  lemma KeyLeft(es: seq<Entry>, j: nat, base: Point)
    requires Domain(base) && SincereBut(es, j, base) && LeavesKey(es[j])
    ensures AllFormed(es) && AllDecode(es) && ExcessSum(es) == DecompressNegative(es[j].pk).value
    ensures !BatchHolds(es, base)
  {
    SincereButParts(es, j, base);
    hide Fermat, OnCurve, Mult, ExcessTerm, ExcessSum, Good, AllDecode, AllFormed, AllGood, BatchHolds, DecompressNegative,
         SincereBut, H, Z;
    GoodBatchHolds(es, base);
    ExcessOfOne(es, j, base);
    HalfDropped(es[j]);
  }

  /** A covered list of good signatures with one such batch in it gives 2, with all flags set. */
  lemma KeyLeftList(es: seq<Entry>, k: int, j: nat, flags: seq<int>, ret: int, base: Point)
    requires BatchDomain(base) && AllCovered(es) && AllGood(es, base) && Verdict(es, flags, ret, base)
    requires Starts(es, k) && 4 <= |BatchAt(es, k)| && SincereBut(BatchAt(es, k), j, base) && LeavesKey(BatchAt(es, k)[j])
    ensures ret == 2 && forall i :: 0 <= i < |es| ==> flags[i] == 1
  {
    assert Domain(base);
    hide BatchDomain, Domain, AllCovered, AllGood, Verdict, SincereBut, ExcessSum, AllFormed, AllDecode, BatchAt, Mult,
         DecompressNegative, H, Z;
    GoodList(es, flags, ret, base);
    KeyLeft(BatchAt(es, k), j, base);
    assert Unbalanced(BatchAt(es, k));
  }

  // Such a list.

  /** The point of order two. */
  const HALF_TURN: Point := Point(0, P - 1)

  lemma HalfTurnIs()
    requires Fermat()
    ensures OnCurve(HALF_TURN) && Negate(HALF_TURN) == HALF_TURN && Mult(2, HALF_TURN) == NEUTRAL
  {
    var y := P - 1;
    ReducedIs(0);
    ReducedIs(1);
    ReducedIs(y);
    CongBy(y * y, 1, P - 2);
    assert D * ((0 * y) * (0 * y)) == 0;
    FromEquation(HALF_TURN);
    KIs(HALF_TURN, HALF_TURN);
    CongRefl(0);
    CongSym(y * y, 1);
    hide OnCurve, Fermat, K, Plus, Abelian;
    PlusUnique(HALF_TURN, HALF_TURN, NEUTRAL);
    CurveIsAbelian();
    TimesOne(Curve(), HALF_TURN);
  }

  /** S = 0 and R neutral, under the point of order two as key. */
  function HalfTurn(m: seq<byte>, z: seq<byte>): Entry {
    Entry(m, Encode(HALF_TURN), Encode(NEUTRAL) + LeBytes(0, 32), z)
  }

  /** The hash of that signature of m. */
  function HalfTurnHash(m: seq<byte>): (h: nat)
    ensures h < M
  {
    Challenge(Encode(NEUTRAL), Encode(HALF_TURN), m)
  }

  lemma HalfTurnParts(m: seq<byte>, z: seq<byte>)
    requires |z| == 16
    ensures var e := HalfTurn(m, z);
      && Formed(e) && e.rs[..32] == Encode(NEUTRAL) && e.rs[32..] == LeBytes(0, 32) && At(e.rs, 63) < 32
      && S(e) == 0 && Z(e) == Le(z) && H(e) == HalfTurnHash(m)
  {
    ZeroInBytes();
    hide Encode, LeBytes, Le, Challenge;
    var e := HalfTurn(m, z);
    assert e.rs[..32] == Encode(NEUTRAL) && e.rs[32..] == LeBytes(0, 32);
    assert At(e.rs, 63) == At(LeBytes(0, 32), 31);
  }

  lemma ZeroInBytes()
    ensures Le(LeBytes(0, 32)) == 0 && At(LeBytes(0, 32), 31) < 32 && 0 % M == 0
  {
    Exp256Of31();
    LeOfBytes(0, 32);
    LeLast(LeBytes(0, 32));
    hide Le, LeBytes, Exp256;
    var b := At(LeBytes(0, 32), 31);
    if b >= 1 {
      MulLe(1, b, Exp256(31));
    }
  }

  /** It is good just when its hash is even. */
  lemma HalfTurnGood(m: seq<byte>, z: seq<byte>, base: Point)
    requires Domain(base) && |z| == 16
    ensures var e := HalfTurn(m, z);
      && Formed(e) && DecompressNegative(e.pk) == Some(HALF_TURN)
      && (Good(e, base) <==> HalfTurnHash(m) % 2 == 0)
  {
    var e, h := HalfTurn(m, z), HalfTurnHash(m);
    HalfTurnParts(m, z);
    HalfTurnIs();
    DecompressEncode(HALF_TURN);
    HalfTurnEquation(h, base);
    NeutralOnCurve();
    if Encode(HALF_TURN) == Encode(NEUTRAL) {
      EncodeInjective(HALF_TURN, NEUTRAL);
    }
    hide Domain, Mult, Mult2, Encode, DecompressNegative, Sha512, Le, LeBytes, HalfTurnHash, OnCurve;
  }

  lemma HalfTurnEquation(h: nat, base: Point)
    requires Domain(base)
    ensures Mult2(h, HALF_TURN, 0, base) == if h % 2 == 0 then NEUTRAL else HALF_TURN
  {
    HalfTurnIs();
    hide Fermat, OnCurve, Mult, Plus;
    var q: int, r: int := h / 2, h % 2;
    MultTimes(q, 2, HALF_TURN);
    MultAdd(q * 2, r, HALF_TURN);
    MultIn(r, HALF_TURN);
    MultIn(0, base);
    NeutralPlus(Mult(r, HALF_TURN));
    PlusNeutral(Mult(r, HALF_TURN));
  }

  /** The least random value that makes the weighted hash reach m. */
  function ReachingWeight(h: nat): nat
    requires 0 < h
  {
    (M + h - 1) / h
  }

  lemma ReachingWeightIs(h: nat)
    requires W128 / 4 <= h < M
    ensures ReachingWeight(h) < W128 && 0 <= h * ReachingWeight(h) && h * ReachingWeight(h) / M == 1
  {
    var w := ReachingWeight(h);
    assert M + h - 1 == h * w + (M + h - 1) % h;
    MulNat(h, w);
    DivModUnique(h * w, M, 1, h * w - M);
    if W128 <= w {
      MulLe(W128, w, h);
      assert false;
    }
  }

  /** Five entries: one of weight one under the neutral key, the one above, and three of weight none. */
  function UnbalancedBatch(m: seq<byte>, base: Point): (es: seq<Entry>)
    requires 0 < HalfTurnHash(m)
    ensures |es| == 5
  {
    var e, f := Trivial(LeBytes(1, 16), base), Trivial(LeBytes(0, 16), base);
    [e, HalfTurn(m, LeBytes(ReachingWeight(HalfTurnHash(m)), 16)), f, f, f]
  }

  lemma HalfTurnLeaves(m: seq<byte>, base: Point)
    requires Domain(base) && W128 / 4 <= HalfTurnHash(m)
    ensures LeavesKey(HalfTurn(m, LeBytes(ReachingWeight(HalfTurnHash(m)), 16)))
  {
    var h := HalfTurnHash(m);
    var w := ReachingWeight(h);
    ReachingWeightIs(h);
    var z := LeBytes(w, 16);
    Exp256Values();
    LeOfBytes(w, 16);
    HalfTurnParts(m, z);
    HalfTurnGood(m, z, base);
    HalfTurnIs();
    NeutralKey(base, 0);
    hide Domain, Mult, Encode, DecompressNegative, Le, LeBytes, HalfTurnHash, ReachingWeight, H, Z, Good;
  }

  lemma UnbalancedEntries(es: seq<Entry>, e: Entry, t: Entry, f: Entry, base: Point)
    requires es == [e, t, f, f, f] && Sincere(e, base) && Sincere(f, base) && Formed(t) && Good(t, base)
    requires Formed(e) && Formed(f) && S(e) == S(f) == 1 && S(t) == 0 && Z(e) == 1 && Z(f) == 0
    ensures SincereBut(es, 1, base) && AllFormed(es) && Responses(es) == 1 && Z(es[0]) == 1
  {
    hide Sincere, S, Z, Formed, Good;
    assert forall i :: 0 <= i < 5 ==> es[i] == e || es[i] == t || es[i] == f;
    FiveResponses(es);
  }

  lemma FiveResponses(es: seq<Entry>)
    requires |es| == 5 && AllFormed(es) && S(es[0]) == Z(es[0]) == 1 && S(es[1]) == 0
    requires forall i :: 2 <= i < 5 ==> Z(es[i]) == 0
    ensures Responses(es) == 1
  {
    hide S, Z;
    assert Responses(es[..0]) == 0;
    assert es[..1][..0] == es[..0] && Responses(es[..1]) == 1;
    assert es[..2][..1] == es[..1] && Responses(es[..2]) == 1;
    assert es[..3][..2] == es[..2] && Responses(es[..3]) == 1;
    assert es[..4][..3] == es[..3] && Responses(es[..4]) == 1;
  }

  lemma UnbalancedBatchIs(m: seq<byte>, base: Point)
    requires Domain(base) && W128 / 4 <= HalfTurnHash(m) && HalfTurnHash(m) % 2 == 0
    ensures var es := UnbalancedBatch(m, base);
      SincereBut(es, 1, base) && LeavesKey(es[1]) && AllFormed(es) && Covers(es)
  {
    hide Domain, Sincere, S, Z, H, Le, LeBytes, Encode, Trivial, HalfTurn, Good, HalfTurnHash, LeavesKey, ReachingWeight;
    var x, y, w := LeBytes(1, 16), LeBytes(0, 16), LeBytes(ReachingWeight(HalfTurnHash(m)), 16);
    OneInBytes();
    TrivialSincere(x, base);
    TrivialSincere(y, base);
    TrivialParts(x, base);
    TrivialParts(y, base);
    HalfTurnParts(m, w);
    HalfTurnGood(m, w, base);
    HalfTurnLeaves(m, base);
    UnbalancedEntries(UnbalancedBatch(m, base), Trivial(x, base), HalfTurn(m, w), Trivial(y, base), base);
    hide SincereBut;
    OneCovers(UnbalancedBatch(m, base));
  }

  lemma OnlyStart(es: seq<Entry>, k: int)
    requires |es| == 5 && Starts(es, k)
    ensures k == 0
  {
  }

  /** A batch of five that the loop covers is a covered list. */
  lemma CoveredFive(es: seq<Entry>)
    requires |es| == 5 && AllFormed(es) && Covers(es)
    ensures AllCovered(es) && Starts(es, 0) && BatchAt(es, 0) == es
  {
    hide AllFormed, Covers;
    assert BatchAt(es, 0) == es && CoversAt(es, 0);
    hide BatchAt, CoversAt, Starts;
    forall k | Starts(es, k) && 4 <= |BatchAt(es, k)|
      ensures CoversAt(es, k)
    {
      OnlyStart(es, k);
    }
    FirstStart(es);
  }

  lemma FirstStart(es: seq<Entry>)
    requires |es| == 5
    ensures Starts(es, 0)
  {
  }

  /** For every message with an even hash of at least 2^126: five good signatures, all flags set, and result 2. */
  lemma UnbalancedExample(m: seq<byte>, flags: seq<int>, ret: int, base: Point)
    requires BatchDomain(base) && W128 / 4 <= HalfTurnHash(m) && HalfTurnHash(m) % 2 == 0
    requires Verdict(UnbalancedBatch(m, base), flags, ret, base)
    ensures ret == 2 && flags == [1, 1, 1, 1, 1] && AllGood(UnbalancedBatch(m, base), base)
  {
    hide HalfTurnHash, UnbalancedBatch, Verdict, BatchDomain, AllGood;
    var es := UnbalancedBatch(m, base);
    hide *;
    OneFlagEach(es, flags, ret, base);
    FromBatchDomain(base);
    UnbalancedBatchIs(m, base);
    SincereButParts(es, 1, base);
    CoveredFive(es);
    KeyLeftList(es, 0, 1, flags, ret, base);
  }

  lemma OneFlagEach(es: seq<Entry>, flags: seq<int>, ret: int, base: Point)
    requires Verdict(es, flags, ret, base)
    ensures |flags| == |es|
  {
    hide Fails, SettledAt, Starts, BatchAt;
  }

  lemma FromBatchDomain(base: Point)
    requires BatchDomain(base)
    ensures Domain(base)
  {
  }

  // The single check and the standard.

  /** For a message with an odd hash that signature has a defect of order two: only the standard accepts it. */
  lemma CofactorExample(m: seq<byte>, z: seq<byte>, base: Point)
    requires BatchDomain(base) && |z| == 16 && HalfTurnHash(m) % 2 == 1
    ensures var e := HalfTurn(m, z); Standard(e.m, e.pk, e.rs, base) && !Accepts(e.m, e.pk, e.rs, base)
  {
    var e := HalfTurn(m, z);
    HalfTurnParts(m, z);
    ZeroInBytes();
    HalfTurnGood(m, z, base);
    HalfTurnIs();
    NeutralOnCurve();
    assert Decoded(e.pk, e.rs, HALF_TURN, NEUTRAL);
    HalfTurnDefect(HalfTurnHash(m), base);
    hide Domain, Mult, Encode, DecompressNegative, Le, LeBytes, HalfTurnHash, Accepts, Standard, OnCurve, Defect, Plus;
    StandardExact(e.m, e.pk, e.rs, HALF_TURN, NEUTRAL, base);
  }

  lemma HalfTurnDefect(h: nat, base: Point)
    requires Domain(base)
    ensures Mult(8, Defect(0, h, HALF_TURN, NEUTRAL, base)) == NEUTRAL
  {
    HalfTurnIs();
    NeutralOnCurve();
    hide Fermat, OnCurve, Mult, Plus, Negate;
    var k: int := h;
    MultIn(k, HALF_TURN);
    MultIn(0, base);
    NeutralPlus(Mult(k, HALF_TURN));
    MultNegate(k, HALF_TURN);
    MultIn(-k, HALF_TURN);
    NeutralPlus(Mult(-k, HALF_TURN));
    MultTimes(8, -k, HALF_TURN);
    MultTimes(-4 * k, 2, HALF_TURN);
    assert 8 * -k == (-4 * k) * 2;
  }

  /** A key that no point encodes, y = p + 1, under which the code accepts S = 1 and R = B for every message. */
  lemma LooseKeyExample(m: seq<byte>, base: Point)
    requires Domain(base)
    ensures var pk, rs := LeBytes(P + 1, 32), Encode(base) + LeBytes(1, 32);
      Accepts(m, pk, rs, base) && !Standard(m, pk, rs, base)
  {
    var pk, rs := LeBytes(P + 1, 32), Encode(base) + LeBytes(1, 32);
    UnreducedY();
    OneInBytes();
    assert rs[..32] == Encode(base) && rs[32..] == LeBytes(1, 32);
    assert At(rs, 63) == At(LeBytes(1, 32), 31);
    NeutralKey(base, Challenge(rs[..32], pk, m));
    hide Domain, Mult, Mult2, Encode, DecompressNegative, Le, LeBytes, Challenge, OnCurve, HashOf;
  }
}
