/**
 Inputs on which the multi-scalar multiplication does not return the sum: the final step for
 scalar 2, and a batch that the loop leaves before it takes in the random scalars. The batch passes
 its test, although its equation does not hold and none of its signatures is good.
 */
module EarlyEnd {
  import opened Arith
  import opened Groups
  import opened Options
  import opened Bytes
  import opened Scalars
  import opened ModM
  import opened PrimeField
  import opened Edwards
  import opened CurveGroup
  import opened Compression
  import opened ScalarMult
  import opened Gcds
  import opened Sums
  import opened FinalScalar
  import opened BosCarter
  import opened Sha512Standard
  import opened Signature
  import opened Batch
  import opened BatchEquation
  import opened UnreducedResponses

  /** For scalar 2 and the base point the final step returns [6]B, which is not [2]B. */
  lemma FinalExample(base: Point)
    requires Domain(base) && base != NEUTRAL
    ensures FinalOf(Curve(), 2, base) == Some(Mult(6, base)) && Mult(6, base) != Mult(2, base)
  {
    assert TopWeight(2) == 4 by {
      assert TopWeight(1) == 2 * TopWeight(0);
    }
    ModSmall(2, W224);
    hide Fermat, OnCurve, Plus, Times, TopWeight;
    CurveIsAbelian();
    FinalExact(Curve(), 2, base);
    if Mult(4, base) == NEUTRAL {
      FourBase(base);
    }
  }

  /** m is 1 modulo 4, so four times the base point is not neutral unless the base point is. */
  lemma FourBase(base: Point)
    requires Domain(base) && Mult(4, base) == NEUTRAL
    ensures base == NEUTRAL
  {
    hide Fermat, OnCurve, Plus, Mult;
    var q := M / 4;
    assert M == q * 4 + 1;
    MultTimes(q, 4, base);
    MultAdd(q * 4, 1, base);
    MultIn(1, base);
    NeutralPlus(base);
  }

  // A batch whose keys are all neutral.

  ghost predicate NeutralKeys(es: seq<Entry>)
    requires AllFormed(es)
  {
    forall i :: 0 <= i < |es| ==> DecompressNegative(es[i].pk) == Some(NEUTRAL)
  }

  /** A sum of multiples of the neutral element, and of a point with scalar 0. */
  lemma {:induction false} NeutralSum<T(!new)>(g: Group<T>, v: seq<nat>, p: seq<T>)
    requires Abelian(g) && |v| == |p|
    requires forall i :: 0 <= i < |v| ==> v[i] == 0 || p[i] == g.zero
    ensures Sum(g, v, p) == g.zero
  {
    if |v| > 0 {
      var n := |v| - 1;
      NeutralSum(g, v[..n], p[..n]);
      TimesZero(g, v[n]);
      Unit(g, g.zero);
    }
  }

  /** What the final step makes of the neutral element. */
  lemma FinalOfNeutral(d: nat, base: Point)
    requires Fermat() && (d < 2 || d % W224 != 0)
    ensures FinalOf(Curve(), d, NEUTRAL) == Some(NEUTRAL)
  {
    hide Fermat, OnCurve, Plus, Abelian, Times, TopWeight;
    CurveIsAbelian();
    if d >= 2 {
      TimesZero(Curve(), TopWeight(d % W224) + d % W224);
    }
  }

  /** The scalars that the heap of an even batch is built with, when all but two of them vanish. */
  lemma StartingScalars(es: seq<Entry>)
    requires AllFormed(es) && 4 <= |es| && |es| % 2 == 0 && Responses(es) % M == 0
    requires forall i :: 1 <= i < |es| ==> HashWeight(es[i]) == 0
    ensures var v := BatchScalars(es)[..HeapStart(2 * |es| + 1)];
      |v| == |es| + 1 && v[0] == 0 && v[1] == HashWeight(es[0]) && forall i :: 2 <= i < |v| ==> v[i] == 0
  {
    hide Responses, HashWeight, HashWeights, Randoms, BatchScalars;
    var w, n := BatchScalars(es), |es|;
    EvenStart(n);
    forall i | 0 <= i <= n
      ensures w[i] == if i == 0 then 0 else HashWeight(es[i - 1])
    {
      BatchScalarsAt(es, i);
      if i > 0 {
        WeightAt(es, i - 1);
      }
    }
  }

  lemma EvenStart(n: nat)
    requires n % 2 == 0
    ensures HeapStart(2 * n + 1) == n + 1
  {
  }

  lemma OneNonzero(v: seq<nat>)
    requires 2 <= |v| && v[0] == 0 && forall i :: 2 <= i < |v| ==> v[i] == 0
    ensures !TwoNonzero(v) && GcdAll(v) == v[1]
  {
    GcdSole(v, 1);
  }

  /** The points that go with them. */
  lemma StartingPoints(es: seq<Entry>, base: Point, n: nat)
    requires AllFormed(es) && AllDecode(es) && NeutralKeys(es) && n <= |es| + 1
    ensures forall i :: 1 <= i < n ==> BatchPoints(es, base)[..n][i] == NEUTRAL
  {
    hide DecompressNegative;
    forall i | 1 <= i < n
      ensures BatchPoints(es, base)[..n][i] == NEUTRAL
    {
      assert Keys(es)[i - 1] == DecompressNegative(es[i - 1].pk).value;
    }
  }

  /**
   A batch of even size with neutral keys, responses that cancel and all hash weights zero but
   the first: the loop leaves the random scalars out, and the batch passes unless the final step's search
   runs off the scalar.
   */
  lemma NeutralKeysPass(es: seq<Entry>, base: Point)
    requires Fermat() && AllFormed(es) && AllDecode(es) && NeutralKeys(es) && 4 <= |es| && |es| % 2 == 0
    requires Responses(es) % M == 0 && forall i :: 1 <= i < |es| ==> HashWeight(es[i]) == 0
    requires HashWeight(es[0]) < 2 || HashWeight(es[0]) % W224 != 0
    ensures !Covers(es) && Passes(es, base)
  {
    hide BatchScalars, BatchPoints, HashWeight, Responses, AllFormed, AllDecode, NeutralKeys, HeapStart, Fermat,
         GcdAll, TwoNonzero, Outcome, Curve;
    StartingOutcome(es, base);
  }

  lemma StartingOutcome(es: seq<Entry>, base: Point)
    requires Fermat() && AllFormed(es) && AllDecode(es) && NeutralKeys(es) && 4 <= |es| && |es| % 2 == 0
    requires Responses(es) % M == 0 && forall i :: 1 <= i < |es| ==> HashWeight(es[i]) == 0
    requires HashWeight(es[0]) < 2 || HashWeight(es[0]) % W224 != 0
    ensures var n := HeapStart(2 * |es| + 1);
      && n == |es| + 1
      && !TwoNonzero(BatchScalars(es)[..n])
      && Outcome(Curve(), BatchScalars(es)[..n], BatchPoints(es, base)[..n]) == Some(NEUTRAL)
  {
    hide HashWeight, Responses, AllFormed, AllDecode, NeutralKeys, Fermat, BatchScalars, BatchPoints, GcdAll, Outcome, Curve;
    var n := |es| + 1;
    EvenStart(|es|);
    hide HeapStart;
    StartingScalars(es);
    StartingPoints(es, base, n);
    var v, p := BatchScalars(es)[..n], BatchPoints(es, base)[..n];
    OneNonzero(v);
    hide TwoNonzero;
    OutcomeOfNeutral(v, p, base);
  }

  lemma OutcomeOfNeutral(v: seq<nat>, p: seq<Point>, base: Point)
    requires Fermat() && 2 <= |v| == |p| && v[0] == 0 && (forall i :: 1 <= i < |v| ==> p[i] == NEUTRAL)
    requires GcdAll(v) < 2 || GcdAll(v) % W224 != 0
    ensures Outcome(Curve(), v, p) == Some(NEUTRAL)
  {
    var d := GcdAll(v);
    FinalOfNeutral(d, base);
    hide Fermat, OnCurve, Plus, Abelian, FinalOf, GcdAll, Negate;
    CurveIsAbelian();
    if d > 0 {
      DivModUnique(0, d, 0, 0);
      NeutralSum(Curve(), Quotients(v, d), p);
    }
  }

  // The list.

  /** S = 0 and R = B under the neutral element as key. */
  function Early(z: seq<byte>, base: Point): Entry {
    Entry([], Encode(NEUTRAL), Encode(base) + LeBytes(0, 32), z)
  }

  lemma EarlyParts(z: seq<byte>, base: Point)
    requires |z| == 16
    ensures var e := Early(z, base);
      && Formed(e) && e.rs[..32] == Encode(base) && e.rs[32..] == LeBytes(0, 32) && S(e) == 0 && Z(e) == Le(z)
      && H(e) == Challenge(Encode(base), Encode(NEUTRAL), [])
  {
    Exp256Of31();
    LeOfBytes(0, 32);
    ModSmall(0, M);
    hide Encode, LeBytes, Le, Challenge;
    var e := Early(z, base);
    assert e.rs[..32] == Encode(base) && e.rs[32..] == LeBytes(0, 32);
  }

  /** Such a signature decodes and is not good. */
  lemma EarlyNotGood(z: seq<byte>, base: Point)
    requires Domain(base) && base != NEUTRAL && |z| == 16
    ensures var e := Early(z, base);
      && Formed(e) && Decodes(e) && DecompressNegative(e.pk) == Some(NEUTRAL)
      && DecompressNegative(e.rs[..32]) == Some(Negate(base)) && !Good(e, base)
  {
    var e := Early(z, base);
    EarlyParts(z, base);
    NeutralKey(base, 0);
    DecompressEncode(base);
    NeutralOnCurve();
    if Encode(NEUTRAL) == Encode(base) {
      EncodeInjective(NEUTRAL, base);
    }
    ZeroEquation(H(e), base);
    hide Domain, Mult, Mult2, Encode, DecompressNegative, Sha512, Le, LeBytes, Challenge, Negate;
  }

  lemma ZeroEquation(h: nat, base: Point)
    requires Domain(base)
    ensures Mult2(h, NEUTRAL, 0, base) == NEUTRAL
  {
    hide Fermat, OnCurve, Mult, Plus;
    MultTimes(h, 0, base);
    MultIn(0, base);
    NeutralOnCurve();
    PlusNeutral(NEUTRAL);
  }

  /** A random value for which the first hash weight does not defeat the final step's search. */
  function EarlyWeight(h: nat): nat {
    if 2 <= h && h % W224 == 0 then 0x20000000 else 1
  }

  lemma EarlyWeightIs(h: nat)
    requires h < M
    ensures var w := (h * EarlyWeight(h)) % M; w < 2 || w % W224 != 0
  {
    if 2 <= h && h % W224 == 0 {
      // h = 2^224 c, and 2^29 h is 2 c m less 2 c times what m exceeds 2^252 by
      var c := h / W224;
      var x := 2 * c * (M - 0x10000000 * W224);
      assert h == c * W224 && 1 <= c < 0x10000001;
      assert h * 0x20000000 == (2 * c - 1) * M + (M - x);
      DivModUnique(h * 0x20000000, M, 2 * c - 1, M - x);
      NotMultiple(c);
    } else {
      ModSmall(h, M);
    }
  }

  lemma NotMultiple(c: nat)
    requires 1 <= c < 0x10000001
    ensures (M - 2 * c * (M - 0x10000000 * W224)) % W224 != 0
  {
    var b := M - 0x10000000 * W224;
    var y := (2 * c - 1) * b;
    assert M - 2 * c * b == 0x10000000 * W224 - y;
    assert 0 < y < W224;
    DivModUnique(M - 2 * c * b, W224, 0xfffffff, W224 - y);
  }

  /** Four entries, the first with that weight and the others with none. */
  function EarlyBatch(base: Point): (es: seq<Entry>)
    ensures |es| == 4
  {
    var h := Challenge(Encode(base), Encode(NEUTRAL), []);
    var e, f := Early(LeBytes(EarlyWeight(h), 16), base), Early(LeBytes(0, 16), base);
    [e, f, f, f]
  }

  lemma {:induction false} ZeroResponses(es: seq<Entry>)
    requires AllFormed(es) && forall i :: 0 <= i < |es| ==> S(es[i]) == 0
    ensures Responses(es) == 0
  {
    hide S, Z;
    if |es| > 0 {
      ZeroResponses(es[..|es| - 1]);
    }
  }

  lemma NoWeight(e: Entry)
    requires Formed(e) && Z(e) == 0
    ensures HashWeight(e) == 0
  {
    hide H, Z;
    assert H(e) * Z(e) == 0;
    ModSmall(0, M);
  }

  /** What the four entries have in common, and their weights. */
  ghost predicate EarlyEntries(es: seq<Entry>, w: nat, base: Point) {
    && |es| == 4 && AllFormed(es) && AllDecode(es) && NeutralKeys(es)
    && (forall i :: 0 <= i < 4 ==> S(es[i]) == 0 && DecompressNegative(es[i].rs[..32]) == Some(Negate(base)))
    && (forall i :: 0 <= i < 4 ==> !Good(es[i], base))
    && Z(es[0]) == w && (forall i :: 1 <= i < 4 ==> Z(es[i]) == 0)
  }

  lemma EarlyBatchIs(base: Point)
    requires Domain(base) && base != NEUTRAL
    ensures var h := Challenge(Encode(base), Encode(NEUTRAL), []);
      EarlyEntries(EarlyBatch(base), EarlyWeight(h), base) && H(EarlyBatch(base)[0]) == h
  {
    var h := Challenge(Encode(base), Encode(NEUTRAL), []);
    var x, y := LeBytes(EarlyWeight(h), 16), LeBytes(0, 16);
    Exp256Values();
    LeOfBytes(EarlyWeight(h), 16);
    LeOfBytes(0, 16);
    hide Domain, S, Z, H, Le, LeBytes, Encode, Early, Good, DecompressNegative, Challenge, EarlyWeight;
    EarlyParts(x, base);
    EarlyParts(y, base);
    EarlyNotGood(x, base);
    EarlyNotGood(y, base);
    FourEntries(EarlyBatch(base), Early(x, base), Early(y, base), EarlyWeight(h), base);
  }

  lemma FourEntries(es: seq<Entry>, e: Entry, f: Entry, w: nat, base: Point)
    requires es == [e, f, f, f] && Formed(e) && Formed(f) && Decodes(e) && Decodes(f) && S(e) == S(f) == 0
    requires DecompressNegative(e.pk) == DecompressNegative(f.pk) == Some(NEUTRAL)
    requires DecompressNegative(e.rs[..32]) == DecompressNegative(f.rs[..32]) == Some(Negate(base))
    requires !Good(e, base) && !Good(f, base) && Z(e) == w && Z(f) == 0
    ensures EarlyEntries(es, w, base)
  {
    hide S, Z, Good, Formed, DecompressNegative, Decodes;
    assert forall i :: 0 <= i < 4 ==> es[i] == e || es[i] == f;
  }

  lemma EarlyPasses(es: seq<Entry>, w: nat, base: Point)
    requires Fermat() && EarlyEntries(es, w, base)
    requires 0 <= H(es[0]) * w && ((H(es[0]) * w) % M < 2 || (H(es[0]) * w) % M % W224 != 0)
    ensures !Covers(es) && Passes(es, base)
  {
    hide S, H, Good, DecompressNegative, NeutralKeys, AllDecode, Fermat;
    ZeroResponses(es);
    ModSmall(0, M);
    forall i | 1 <= i < 4
      ensures HashWeight(es[i]) == 0
    {
      NoWeight(es[i]);
    }
    hide Responses, AllFormed, Covers, Passes;
    NeutralKeysPass(es, base);
  }

  /** [w]B is not neutral for a positive w below m. */
  lemma SmallMultiple(w: nat, base: Point)
    requires BatchDomain(base) && base != NEUTRAL && 0 < w < M
    ensures Mult(w, Negate(base)) != NEUTRAL
  {
    NegateIs(base);
    hide Fermat, OnCurve, Plus, Abelian, Negate, Prime;
    CurveIsAbelian();
    Unit(Curve(), base);
    var iw: int, im: int := w, M;
    TimesOfNeg(Curve(), im, base);
    TimesZeroNeg(Curve());
    if Mult(w, Negate(base)) == NEUTRAL {
      SmallOrder(Curve(), M, w, Negate(base));
      Unit(Curve(), base);
    }
  }

  /** The equation does not hold: the sum of its terms is [w](-B). */
  lemma EarlyFails(es: seq<Entry>, w: nat, base: Point)
    requires BatchDomain(base) && base != NEUTRAL && EarlyEntries(es, w, base) && 0 < w < M
    ensures !BatchHolds(es, base)
  {
    SmallMultiple(w, base);
    EarlySums(es, w, base);
    PartsIn(es);
    ZeroResponses(es);
    ModSmall(0, M);
    hide S, H, Z, Good, DecompressNegative, NeutralKeys, AllDecode, AllFormed, Fermat, OnCurve, Plus, Abelian, Times, Sum,
         HashWeights, Randoms, Keys, Commitments, Responses, Negate;
    CurveIsAbelian();
    SplitSum(Curve(), 0, base, HashWeights(es), Keys(es), Randoms(es), Commitments(es));
    MultIn(0, base);
    MultIn(w, Negate(base));
    Unit(Curve(), Mult(w, Negate(base)));
  }

  lemma EarlySums(es: seq<Entry>, w: nat, base: Point)
    requires Domain(base) && EarlyEntries(es, w, base)
    ensures OnCurve(Negate(base)) && KeySum(es) == NEUTRAL && CommitmentSum(es) == Mult(w, Negate(base))
  {
    NegateIs(base);
    PartsIn(es);
    hide S, H, Z, Good, DecompressNegative, HashWeight, Fermat, OnCurve, Plus, Abelian, Negate, Times, Sum;
    CurveIsAbelian();
    NeutralSum(Curve(), HashWeights(es), Keys(es));
    SumSingle(Curve(), Randoms(es), Commitments(es), 0);
  }

  /** The four entries together: not covered, passing, and not balanced. */
  lemma EarlyBatchPasses(base: Point)
    requires BatchDomain(base) && base != NEUTRAL
    ensures var es := EarlyBatch(base);
      && AllFormed(es) && AllDecode(es) && !Covers(es) && Passes(es, base) && !BatchHolds(es, base)
      && forall i :: 0 <= i < 4 ==> !Good(es[i], base)
  {
    var es, h := EarlyBatch(base), Challenge(Encode(base), Encode(NEUTRAL), []);
    var w := EarlyWeight(h);
    EarlyWeightIs(h);
    MulNat(h, w);
    EarlyBatchIs(base);
    assert 0 < w < M;
    hide EarlyBatch, EarlyWeight, BatchHolds, Covers, Passes, Good, Challenge, Encode, H, S, Z, DecompressNegative, AllDecode,
         AllFormed, NeutralKeys, Fermat, OnCurve, Mult;
    EarlyPasses(es, w, base);
    EarlyFails(es, w, base);
  }

  /**
   A list of four that the loop does not cover: its equation does not hold and no signature is
   good, and it is accepted with result 0.
   */
  lemma EarlyExample(flags: seq<int>, ret: int, base: Point)
    requires BatchDomain(base) && base != NEUTRAL && Verdict(EarlyBatch(base), flags, ret, base)
    ensures ret == 0 && flags == [1, 1, 1, 1] && forall i :: 0 <= i < 4 ==> !Good(EarlyBatch(base)[i], base)
    ensures var es := EarlyBatch(base); AllFormed(es) && AllDecode(es) && !Covers(es) && !BatchHolds(es, base)
  {
    hide BatchDomain, EarlyBatch, BatchHolds, Covers, Passes, Good, Verdict, AllDecode, AllFormed;
    EarlyBatchPasses(base);
    OneBatch(EarlyBatch(base), flags, ret, base);
  }
}
