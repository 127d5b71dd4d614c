/**
 Where the batch test and the single check part: the equation takes S modulo m, and the
 single check also asks that its top bits be clear. A signature with S + 2m is not good, and
 a batch that it is in can pass.
 */
module UnreducedResponses {
  import opened Arith
  import opened Options
  import opened Bytes
  import opened ModM
  import opened PrimeField
  import opened Edwards
  import opened Compression
  import opened ScalarMult
  import opened Gcds
  import opened Sums
  import opened BosCarter
  import opened Sha512Standard
  import opened Signature
  import opened Batch
  import opened BatchEquation

  /** The entry with S + 2m in place of S. */
  function Unreduced(e: Entry): (f: Entry)
    requires Formed(e)
    ensures Formed(f)
  {
    e.(rs := e.rs[..32] + LeBytes(Le(e.rs[32..]) + 2 * M, 32))
  }

  /** With S + 2m in place of S an entry has the same part in the equation and is not good. */
  lemma UnreducedResponse(e: Entry, base: Point)
    requires Formed(e) && Le(e.rs[32..]) < M
    ensures var f := Unreduced(e);
      && !Good(f, base)
      && S(f) == S(e) && H(f) == H(e) && Z(f) == Z(e) && f.pk == e.pk && f.rs[..32] == e.rs[..32]
  {
    hide Sha512;
    var v, f := Le(e.rs[32..]), Unreduced(e);
    assert f.rs[..32] == e.rs[..32] && f.rs[32..] == LeBytes(v + 2 * M, 32);
    HighByte(v);
    ModShift(v, 2, M);
    assert At(f.rs, 63) == At(f.rs[32..], 31);
  }

  lemma HighByte(v: nat)
    requires v < M
    ensures Le(LeBytes(v + 2 * M, 32)) == v + 2 * M && At(LeBytes(v + 2 * M, 32), 31) >= 32
  {
    Exp256Of31();
    LeOfBytes(v + 2 * M, 32);
    LeLast(LeBytes(v + 2 * M, 32));
    hide Le, LeBytes, Exp256;
    var b := At(LeBytes(v + 2 * M, 32), 31);
    if b < 32 {
      MulLe(b, 31, Exp256(31));
    }
  }

  lemma {:induction false} ResponsesSame(es: seq<Entry>, i: nat, f: Entry)
    requires AllFormed(es) && i < |es| && Formed(f) && S(f) == S(es[i]) && Z(f) == Z(es[i])
    ensures AllFormed(es[i := f]) && Responses(es[i := f]) == Responses(es)
  {
    hide S, Z;
    var n := |es| - 1;
    var fs := es[i := f];
    if i == n {
      assert fs[..n] == es[..n];
    } else {
      ResponsesSame(es[..n], i, f);
      assert fs[..n] == es[..n][i := f];
    }
  }

  lemma SameScalars(es: seq<Entry>, i: nat, f: Entry)
    requires AllFormed(es) && i < |es| && Formed(f) && S(f) == S(es[i]) && H(f) == H(es[i]) && Z(f) == Z(es[i])
    ensures AllFormed(es[i := f]) && BatchScalars(es[i := f]) == BatchScalars(es)
  {
    ResponsesSame(es, i, f);
    assert HashWeight(f) == HashWeight(es[i]);
    hide S, H, Z, Responses, HashWeight;
    WeightsSame(es, i, f);
  }

  lemma WeightsSame(es: seq<Entry>, i: nat, f: Entry)
    requires AllFormed(es) && i < |es| && Formed(f) && AllFormed(es[i := f]) && HashWeight(f) == HashWeight(es[i]) && Z(f) == Z(es[i])
    ensures HashWeights(es[i := f]) == HashWeights(es) && Randoms(es[i := f]) == Randoms(es)
  {
    hide HashWeight, Z;
  }

  lemma SamePoints(es: seq<Entry>, i: nat, f: Entry, base: Point)
    requires AllFormed(es) && AllDecode(es) && i < |es| && Formed(f) && f.pk == es[i].pk && f.rs[..32] == es[i].rs[..32]
    ensures var fs := es[i := f]; AllFormed(fs) && AllDecode(fs) && BatchPoints(fs, base) == BatchPoints(es, base)
  {
    hide DecompressNegative;
    var fs := es[i := f];
    forall k | 0 <= k < |es|
      ensures Formed(fs[k]) && Decodes(fs[k])
    {
      assert Formed(es[k]) && Decodes(es[k]);
    }
    assert Keys(fs) == Keys(es);
    assert Commitments(fs) == Commitments(es);
  }

  /** Batches with the same scalars and points have the same equation. */
  lemma SameEquation(es: seq<Entry>, fs: seq<Entry>, base: Point)
    requires |fs| == |es| && 4 <= |es| && AllFormed(es) && AllDecode(es) && AllFormed(fs) && AllDecode(fs)
    requires BatchScalars(fs) == BatchScalars(es) && BatchPoints(fs, base) == BatchPoints(es, base)
    ensures (Covers(fs) <==> Covers(es)) && (BatchHolds(fs, base) <==> BatchHolds(es, base))
  {
    hide BatchScalars, BatchPoints, Sum, ReachesShort, HeapStart, AllFormed, AllDecode;
  }

  /**
   A signature that is not good passes in a batch: whatever batch of good signatures under keys
   of order dividing m the loop covers, it still passes with S + 2m in place of one S.
   */
  lemma UnreducedPasses(es: seq<Entry>, i: nat, base: Point)
    requires BatchDomain(base) && AllSincere(es, base) && AllFormed(es) && 4 <= |es| && Covers(es)
    requires i < |es| && Le(es[i].rs[32..]) < M
    ensures var fs := es[i := Unreduced(es[i])];
      && AllFormed(fs) && AllDecode(fs) && Covers(fs) && BatchHolds(fs, base) && Passes(fs, base)
      && !Good(fs[i], base)
  {
    var f := Unreduced(es[i]);
    var fs := es[i := f];
    UnreducedResponse(es[i], base);
    SameScalars(es, i, f);
    hide Good, Unreduced, S, H, Z, Le, BatchScalars, Covers;
    SincereBatchHolds(es, base);
    SamePoints(es, i, f, base);
    hide AllSincere, AllGood, AllFormed, AllDecode, BatchPoints, BatchHolds, BatchNeutral, Formed;
    SameEquation(es, fs, base);
    CoveredNeutral(fs, base);
  }

  /** A signature by the base point itself, under the neutral element as key: S = 1 and R = B. */
  function Trivial(z: seq<byte>, base: Point): Entry {
    Entry([], Encode(NEUTRAL), Encode(base) + LeBytes(1, 32), z)
  }

  /** Five of them, of which the first has weight one and the others none. */
  function TrivialBatch(base: Point): (es: seq<Entry>)
    ensures |es| == 5 && Formed(es[0])
  {
    var e, f := Trivial(LeBytes(1, 16), base), Trivial(LeBytes(0, 16), base);
    [e, f, f, f, f]
  }

  lemma TrivialParts(z: seq<byte>, base: Point)
    requires |z| == 16
    ensures var e := Trivial(z, base);
      && Formed(e) && e.rs[..32] == Encode(base) && e.rs[32..] == LeBytes(1, 32) && At(e.rs, 63) < 32
      && S(e) == 1 && Z(e) == Le(z)
  {
    OneInBytes();
    hide Encode, LeBytes, Le;
    var e := Trivial(z, base);
    assert e.rs[..32] == Encode(base) && e.rs[32..] == LeBytes(1, 32);
    assert At(e.rs, 63) == At(LeBytes(1, 32), 31);
  }

  /** The neutral element as key. */
  lemma NeutralKey(base: Point, h: nat)
    requires Domain(base)
    ensures DecompressNegative(Encode(NEUTRAL)) == Some(NEUTRAL) && Mult(M, NEUTRAL) == NEUTRAL
    ensures Mult2(h, NEUTRAL, 1, base) == base
  {
    NeutralOnCurve();
    DecompressEncode(NEUTRAL);
    NegatedNeutral();
    hide Fermat, OnCurve, Mult, Encode, DecompressNegative, Plus, Negate;
    MultTimes(h, 0, base);
    MultTimes(M, 0, base);
    MultIn(1, base);
    NeutralPlus(base);
  }

  lemma TrivialSincere(z: seq<byte>, base: Point)
    requires Domain(base) && |z| == 16
    ensures Sincere(Trivial(z, base), base)
  {
    var e := Trivial(z, base);
    TrivialParts(z, base);
    NeutralKey(base, H(e));
    hide Domain, Mult, Mult2, Encode, DecompressNegative, Sha512, Le, LeBytes;
  }

  lemma NegatedNeutral()
    ensures Negate(NEUTRAL) == NEUTRAL
  {
  }

  lemma OneInBytes()
    ensures Le(LeBytes(1, 32)) == 1 && At(LeBytes(1, 32), 31) < 32 && Le(LeBytes(1, 16)) == 1 && Le(LeBytes(0, 16)) == 0
    ensures 1 % M == 1
  {
    Exp256Of31();
    Exp256Values();
    LeOfBytes(1, 32);
    LeOfBytes(1, 16);
    LeOfBytes(0, 16);
    LeLast(LeBytes(1, 32));
    hide Le, LeBytes, Exp256;
    var b := At(LeBytes(1, 32), 31);
    if b >= 1 {
      MulLe(1, b, Exp256(31));
    }
  }

  lemma TrivialBatchIs(base: Point)
    requires Domain(base)
    ensures var es := TrivialBatch(base);
      && AllSincere(es, base) && AllFormed(es) && (forall i :: 0 <= i < 5 ==> S(es[i]) == 1)
      && Z(es[0]) == 1 && (forall i :: 1 <= i < 5 ==> Z(es[i]) == 0) && Le(es[0].rs[32..]) == 1
  {
    hide Domain, Sincere, S, Z, Le, LeBytes, Encode, Trivial;
    var x, y := LeBytes(1, 16), LeBytes(0, 16);
    OneInBytes();
    TrivialSincere(x, base);
    TrivialSincere(y, base);
    TrivialParts(x, base);
    TrivialParts(y, base);
    FiveEntries(TrivialBatch(base), Trivial(x, base), Trivial(y, base), base);
  }

  lemma FiveEntries(es: seq<Entry>, e: Entry, f: Entry, base: Point)
    requires es == [e, f, f, f, f] && Sincere(e, base) && Sincere(f, base)
    requires Formed(e) && Formed(f) && S(e) == S(f) == 1 && Z(e) == 1 && Z(f) == 0
    ensures AllSincere(es, base) && AllFormed(es) && (forall i :: 0 <= i < 5 ==> S(es[i]) == 1)
    ensures Z(es[0]) == 1 && (forall i :: 1 <= i < 5 ==> Z(es[i]) == 0)
  {
    hide Sincere, S, Z, Formed;
    assert forall i :: 0 <= i < 5 ==> es[i] == e || es[i] == f;
  }

  /** Whatever their hashes are, the loop covers the batch: its scalars start and end with a one. */
  lemma TrivialCovered(base: Point)
    requires Domain(base)
    ensures AllFormed(TrivialBatch(base)) && Covers(TrivialBatch(base))
  {
    var es := TrivialBatch(base);
    TrivialBatchIs(base);
    hide TrivialBatch, AllSincere, S, Z;
    TrivialResponses(es);
    OneCovers(es);
  }

  lemma OneCovers(es: seq<Entry>)
    requires |es| == 5 && AllFormed(es) && Responses(es) == 1 && Z(es[0]) == 1
    ensures Covers(es)
  {
    hide Z, Responses, HashWeight, GcdAll;
    var v := BatchScalars(es);
    assert HeapStart(11) == 7;
    ModSmall(1, M);
    assert v[0] == 1 && v[6] == Randoms(es)[0] == 1;
    var u := v[..7];
    assert u[0] != 0 && u[6] != 0;
    GcdOne(u, 0);
  }

  lemma TrivialResponses(es: seq<Entry>)
    requires |es| == 5 && AllFormed(es) && (forall i :: 0 <= i < 5 ==> S(es[i]) == 1)
    requires Z(es[0]) == 1 && forall i :: 1 <= i < 5 ==> Z(es[i]) == 0
    ensures Responses(es) == 1
  {
    hide S, Z;
    assert Responses(es[..0]) == 0;
    assert es[..1][..0] == es[..0] && Responses(es[..1]) == 1;
    assert es[..2][..1] == es[..1] && Responses(es[..2]) == 1;
    assert es[..3][..2] == es[..2] && Responses(es[..3]) == 1;
    assert es[..4][..3] == es[..3] && Responses(es[..4]) == 1;
  }

  lemma GcdOne(v: seq<nat>, i: nat)
    requires i < |v| && v[i] == 1
    ensures GcdAll(v) <= 1
  {
    var d := GcdAll(v);
    hide GcdAll;
    if d > 0 {
      SelfDivides(d);
      GcdAllIs(v, d);
      DivisorSmall(1, d);
    }
  }

  /** The five with S + 2m in the first. */
  function UnreducedBatch(base: Point): (es: seq<Entry>)
    ensures |es| == 5
  {
    TrivialBatch(base)[0 := Unreduced(TrivialBatch(base)[0])]
  }

  lemma UnreducedBatchPasses(base: Point)
    requires BatchDomain(base)
    ensures Passes(UnreducedBatch(base), base) && !Good(UnreducedBatch(base)[0], base)
  {
    var es := TrivialBatch(base);
    assert Domain(base);
    hide BatchDomain, Domain, TrivialBatch, AllSincere, S, Z, Le, Good, Covers, Unreduced, AllFormed, AllDecode, BatchHolds, Passes;
    TrivialCovered(base);
    TrivialBatchIs(base);
    UnreducedPasses(es, 0, base);
  }

  /** A list of five, one of whose signatures is not good, that is accepted with result 0. */
  lemma UnreducedExample(flags: seq<int>, ret: int, base: Point)
    requires BatchDomain(base) && Verdict(UnreducedBatch(base), flags, ret, base)
    ensures ret == 0 && flags == [1, 1, 1, 1, 1] && !Good(UnreducedBatch(base)[0], base)
  {
    hide BatchDomain, UnreducedBatch, Good, Passes, Verdict;
    UnreducedBatchPasses(base);
    OneBatch(UnreducedBatch(base), flags, ret, base);
  }

  /** A list of at most 64 is one batch. */
  lemma OneBatch(es: seq<Entry>, flags: seq<int>, ret: int, base: Point)
    requires 4 <= |es| <= 64 && Passes(es, base) && Verdict(es, flags, ret, base)
    ensures ret == 0 && |flags| == |es| && forall i :: 0 <= i < |es| ==> flags[i] == 1
  {
    hide Good, AllDecode, AllFormed, BatchNeutral;
    assert Starts(es, 0) && BatchAt(es, 0) == es && flags[0..|es|] == flags;
    assert SettledAt(es, flags, 0, base);
    assert forall k :: Starts(es, k) ==> k == 0;
  }
}
