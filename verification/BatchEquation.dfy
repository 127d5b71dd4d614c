/**
 What the batch equation says of good signatures. Reducing h z modulo m drops a multiple of m,
 which matters for a key whose order does not divide m: a batch of good signatures balances
 the equation exactly when the dropped multiples of its keys cancel. They vanish for keys of
 order dividing m, so a list of such signatures is accepted without the fallback if the loop
 covers its batches.
 */
module BatchEquation {
  import opened Arith
  import opened Groups
  import opened Bytes
  import opened ModM
  import opened PrimeField
  import opened Edwards
  import opened CurveGroup
  import opened Compression
  import opened ScalarMult
  import opened Sums
  import opened Signature
  import opened Batch

  /** A good signature whose key has order dividing m. */
  ghost predicate Sincere(e: Entry, base: Point) {
    Formed(e) && Good(e, base) && Mult(M, DecompressNegative(e.pk).value) == NEUTRAL
  }

  ghost predicate AllSincere(es: seq<Entry>, base: Point) {
    forall i :: 0 <= i < |es| ==> Sincere(es[i], base)
  }

  /** R of a good signature decodes to the inverse of what the verifier computed. */
  lemma GoodDecodes(e: Entry, base: Point)
    requires Domain(base) && Formed(e) && Good(e, base)
    ensures Decodes(e) && OnCurve(DecompressNegative(e.pk).value)
    ensures var q := Mult2(H(e), DecompressNegative(e.pk).value, S(e), base);
      OnCurve(q) && DecompressNegative(e.rs[..32]).value == Negate(q)
  {
    hide Fermat, OnCurve, Mult, Mult2, Encode, DecompressNegative, Challenge;
    var a := DecompressNegative(e.pk).value;
    DecompressSound(e.pk);
    Mult2Step(H(e), a, S(e), base, 0);
    DecompressEncode(Mult2(H(e), a, S(e), base));
  }

  /** [zh]a - [z]([h]a + [s]b) == -[sz]b */
  lemma TermCancels<T(!new)>(g: Group<T>, a: T, b: T, z: nat, h: nat, s: nat)
    requires Abelian(g) && g.carrier(a) && g.carrier(b)
    ensures g.add(Times(g, h * z, a), Times(g, z, g.neg(g.add(Times(g, h, a), Times(g, s, b)))))
         == g.neg(Times(g, s * z, b))
  {
    var x, y := Times(g, h, a), Times(g, s, b);
    TimesIn(g, h, a);
    TimesIn(g, s, b);
    Comm(g, x, y);
    // [z](-(x + y)) == -[z](x + y)
    var c := g.add(x, y);
    TimesOfNeg(g, z, c);
    TimesSum(g, z, x, y);
    assert z * h == h * z && z * s == s * z;
    TimesTimes(g, z, h, a);
    TimesTimes(g, z, s, b);
    CancelFirst(g, Times(g, h * z, a), Times(g, s * z, b));
  }

  lemma TimesOfNeg<T(!new)>(g: Group<T>, z: int, c: T)
    requires Abelian(g) && g.carrier(c)
    ensures Times(g, z, g.neg(c)) == g.neg(Times(g, z, c))
  {
    Unit(g, c);
    TimesSum(g, z, c, g.neg(c));
    TimesZero(g, z);
    NegUnique(g, Times(g, z, c), Times(g, z, g.neg(c)));
  }

  /** u - (u + v) == -v */
  lemma CancelFirst<T(!new)>(g: Group<T>, u: T, v: T)
    requires Abelian(g) && g.carrier(u) && g.carrier(v)
    ensures g.add(u, g.neg(g.add(u, v))) == g.neg(v)
  {
    var c := g.add(u, v);
    Comm(g, u, v);
    Unit(g, c);
    Comm(g, u, g.neg(c));
    Assoc(g, v, u, g.neg(c));
    NegUnique(g, v, g.add(u, g.neg(c)));
  }

  /** The multiple of m that reducing the weighted hash drops. */
  function Dropped(e: Entry): (v: nat)
    requires Formed(e)
    ensures HashWeight(e) + v == H(e) * Z(e)
  {
    MulNat(H(e), Z(e));
    assert H(e) * Z(e) / M >= 0;
    M * (H(e) * Z(e) / M)
  }

  function Droppeds(es: seq<Entry>): (v: seq<nat>)
    requires AllFormed(es)
    ensures |v| == |es|
  {
    seq(|es|, i requires 0 <= i < |es| => Dropped(es[i]))
  }

  lemma PartsIn(es: seq<Entry>)
    requires AllFormed(es) && AllDecode(es)
    ensures AllIn(Curve(), Keys(es)) && AllIn(Curve(), Commitments(es))
  {
    hide DecompressNegative, OnCurve;
    forall i | 0 <= i < |es|
      ensures OnCurve(Keys(es)[i]) && OnCurve(Commitments(es)[i])
    {
      assert Decodes(es[i]);
      DecompressSound(es[i].pk);
      DecompressSound(es[i].rs[..32]);
    }
  }

  function KeySum(es: seq<Entry>): Point
    requires AllFormed(es) && AllDecode(es)
  {
    Sum(Curve(), HashWeights(es), Keys(es))
  }

  function CommitmentSum(es: seq<Entry>): Point
    requires AllFormed(es) && AllDecode(es)
  {
    Sum(Curve(), Randoms(es), Commitments(es))
  }

  function KeyTerm(e: Entry): Point
    requires Formed(e) && Decodes(e)
  {
    Mult(HashWeight(e), DecompressNegative(e.pk).value)
  }

  function CommitmentTerm(e: Entry): Point
    requires Formed(e) && Decodes(e)
  {
    Mult(Z(e), DecompressNegative(e.rs[..32]).value)
  }

  /** The dropped multiples of the keys. */
  function ExcessSum(es: seq<Entry>): Point
    requires AllFormed(es) && AllDecode(es)
  {
    Sum(Curve(), Droppeds(es), Keys(es))
  }

  function ExcessTerm(e: Entry): Point
    requires Formed(e) && Decodes(e)
  {
    Mult(Dropped(e), DecompressNegative(e.pk).value)
  }

  lemma SumsIn(es: seq<Entry>)
    requires Fermat() && AllFormed(es) && AllDecode(es)
    ensures OnCurve(KeySum(es)) && OnCurve(CommitmentSum(es)) && OnCurve(ExcessSum(es))
  {
    hide Fermat, OnCurve, Abelian, Sum;
    CurveIsAbelian();
    PartsIn(es);
    SumIn(Curve(), HashWeights(es), Keys(es));
    SumIn(Curve(), Randoms(es), Commitments(es));
    SumIn(Curve(), Droppeds(es), Keys(es));
  }

  lemma TermsIn(e: Entry)
    requires Fermat() && Formed(e) && Decodes(e)
    ensures OnCurve(KeyTerm(e)) && OnCurve(CommitmentTerm(e)) && OnCurve(ExcessTerm(e))
  {
    hide Fermat, OnCurve, Mult, DecompressNegative;
    DecompressSound(e.pk);
    DecompressSound(e.rs[..32]);
    MultIn(HashWeight(e), DecompressNegative(e.pk).value);
    MultIn(Dropped(e), DecompressNegative(e.pk).value);
    MultIn(Z(e), DecompressNegative(e.rs[..32]).value);
  }

  /** The points of one entry, with what was dropped, cancel its share of the base point. */
  lemma EntryBalances(e: Entry, base: Point)
    requires Domain(base) && Formed(e) && Good(e, base)
    ensures Decodes(e) && 0 <= S(e) * Z(e)
    ensures Plus(Plus(KeyTerm(e), CommitmentTerm(e)), ExcessTerm(e)) == Negate(Mult(S(e) * Z(e), base))
  {
    hide Fermat, OnCurve, Plus, Negate, Mult, DecompressNegative, S, H, Z, Good, HashWeight, Dropped;
    GoodDecodes(e, base);
    TermsIn(e);
    MulNat(S(e), Z(e));
    MultAdd(HashWeight(e), Dropped(e), DecompressNegative(e.pk).value);
    Rearrange(KeyTerm(e), CommitmentTerm(e), ExcessTerm(e));
    CommitmentCancels(DecompressNegative(e.pk).value, base, Z(e), H(e), S(e));
  }

  lemma Rearrange(a: Point, b: Point, c: Point)
    requires Fermat() && OnCurve(a) && OnCurve(b) && OnCurve(c)
    ensures Plus(Plus(a, b), c) == Plus(Plus(a, c), b)
  {
    hide Fermat, OnCurve, Plus, Abelian;
    CurveIsAbelian();
    SwapLast(Curve(), a, b, c);
  }

  lemma CommitmentCancels(a: Point, base: Point, z: nat, h: nat, s: nat)
    requires Fermat() && OnCurve(a) && OnCurve(base)
    ensures Plus(Mult(h * z, a), Mult(z, Negate(Mult2(h, a, s, base)))) == Negate(Mult(s * z, base))
  {
    hide Fermat, OnCurve, Plus, Abelian, Negate, Times;
    CurveIsAbelian();
    TermCancels(Curve(), a, base, z, h, s);
  }

  lemma GoodDecode(es: seq<Entry>, base: Point)
    requires Domain(base) && AllFormed(es) && AllGood(es, base)
    ensures AllDecode(es)
  {
    hide Domain, Good, Decodes;
    forall i | 0 <= i < |es|
      ensures Decodes(es[i])
    {
      assert Good(es[i], base);
      GoodDecodes(es[i], base);
    }
  }

  /** Two balanced triples add up to one. */
  lemma Accumulate<T(!new)>(g: Group<T>, x: T, y: T, e: T, u: T, v: T, f: T, a: int, b: int, p: T)
    requires Abelian(g) && g.carrier(x) && g.carrier(y) && g.carrier(e) && g.carrier(u) && g.carrier(v) && g.carrier(f)
    requires g.carrier(p)
    requires g.add(g.add(x, y), e) == g.neg(Times(g, a, p)) && g.add(g.add(u, v), f) == g.neg(Times(g, b, p))
    ensures g.add(g.add(g.add(x, u), g.add(y, v)), g.add(e, f)) == g.neg(Times(g, a + b, p))
  {
    hide Abelian, Times;
    Interchange(g, x, u, y, v);
    Interchange(g, g.add(x, y), g.add(u, v), e, f);
    TimesNeg(g, a, p);
    TimesNeg(g, b, p);
    TimesNeg(g, a + b, p);
    TimesAdd(g, -a, -b, p);
  }

  /** The sums of all entries, by the last one. */
  lemma LastTerms(es: seq<Entry>)
    requires AllFormed(es) && AllDecode(es) && 1 <= |es|
    ensures var n := |es| - 1; var e, f := es[n], es[..n];
      && AllFormed(f) && AllDecode(f) && Formed(e) && Decodes(e)
      && KeySum(es) == Plus(KeySum(f), KeyTerm(e))
      && CommitmentSum(es) == Plus(CommitmentSum(f), CommitmentTerm(e))
      && ExcessSum(es) == Plus(ExcessSum(f), ExcessTerm(e))
      && Responses(es) == Responses(f) + S(e) * Z(e)
  {
    hide DecompressNegative, HashWeight, Dropped, Z, S, Times, Plus, OnCurve;
    var n := |es| - 1;
    var f := es[..n];
    assert HashWeights(es)[..n] == HashWeights(f) && Keys(es)[..n] == Keys(f);
    assert Randoms(es)[..n] == Randoms(f) && Commitments(es)[..n] == Commitments(f);
    assert Droppeds(es)[..n] == Droppeds(f);
  }

  lemma EmptySums(es: seq<Entry>, base: Point)
    requires Fermat() && OnCurve(base) && |es| == 0 && AllFormed(es) && AllDecode(es)
    ensures Plus(Plus(KeySum(es), CommitmentSum(es)), ExcessSum(es)) == Negate(Mult(Responses(es), base))
  {
    hide Fermat, OnCurve, Plus;
    NeutralOnCurve();
    PlusNeutral(NEUTRAL);
    MultIn(0, base);
  }

  /** The parts of the equation, with what was dropped, undo the responses. */
  lemma {:induction false} PartsBalance(es: seq<Entry>, base: Point)
    requires Domain(base) && AllGood(es, base) && AllFormed(es) && AllDecode(es)
    ensures Plus(Plus(KeySum(es), CommitmentSum(es)), ExcessSum(es)) == Negate(Mult(Responses(es), base))
  {
    hide Fermat, OnCurve, Plus, Negate, Mult, KeySum, CommitmentSum, ExcessSum, KeyTerm, CommitmentTerm, ExcessTerm,
         Responses, Good, AllDecode, AllFormed;
    if |es| == 0 {
      EmptySums(es, base);
    } else {
      var n := |es| - 1;
      LastTerms(es);
      PartsBalance(es[..n], base);
      assert Good(es[n], base);
      AddEntry(es[..n], es[n], base);
    }
  }

  lemma AddEntry(f: seq<Entry>, e: Entry, base: Point)
    requires Domain(base) && AllFormed(f) && AllDecode(f) && Formed(e) && Good(e, base) && Decodes(e)
    requires Plus(Plus(KeySum(f), CommitmentSum(f)), ExcessSum(f)) == Negate(Mult(Responses(f), base))
    ensures Plus(Plus(Plus(KeySum(f), KeyTerm(e)), Plus(CommitmentSum(f), CommitmentTerm(e))),
                 Plus(ExcessSum(f), ExcessTerm(e)))
         == Negate(Mult(Responses(f) + S(e) * Z(e), base))
  {
    hide Fermat, OnCurve, Plus, Negate, Abelian, Times, KeySum, CommitmentSum, ExcessSum, KeyTerm, CommitmentTerm, ExcessTerm,
         Good, Decodes, AllFormed, AllDecode, Responses, HashWeight, S, Z, DecompressNegative;
    CurveIsAbelian();
    SumsIn(f);
    TermsIn(e);
    EntryBalances(e, base);
    Accumulate(Curve(), KeySum(f), CommitmentSum(f), ExcessSum(f), KeyTerm(e), CommitmentTerm(e), ExcessTerm(e),
               Responses(f), S(e) * Z(e), base);
  }

  /** If x + e == -t, then t + x vanishes just when e does. */
  lemma Remainder<T(!new)>(g: Group<T>, t: T, x: T, e: T)
    requires Abelian(g) && g.carrier(t) && g.carrier(x) && g.carrier(e) && g.add(x, e) == g.neg(t)
    ensures g.add(t, x) == g.zero <==> e == g.zero
  {
    hide Abelian;
    Assoc(g, t, x, e);
    Unit(g, t);
    Unit(g, e);
    Unit(g, g.add(t, x));
  }

  /** Good signatures balance the equation, for any random values, just when what was dropped cancels. */
  lemma GoodBatchHolds(es: seq<Entry>, base: Point)
    requires Domain(base) && AllFormed(es) && AllGood(es, base)
    ensures AllDecode(es) && (BatchHolds(es, base) <==> ExcessSum(es) == NEUTRAL)
  {
    GoodDecode(es, base);
    hide Fermat, OnCurve, Plus, Negate, Abelian, AllGood, AllFormed, AllDecode, HashWeights, ExcessSum,
         Randoms, Keys, Commitments, Responses, Times, Sum;
    PartsBalance(es, base);
    PartsIn(es);
    SumsIn(es);
    CurveIsAbelian();
    MultMod(Responses(es), base);
    SplitSum(Curve(), Responses(es) % M, base, HashWeights(es), Keys(es), Randoms(es), Commitments(es));
    MultIn(Responses(es), base);
    Comm(Curve(), KeySum(es), CommitmentSum(es));
    Remainder(Curve(), Mult(Responses(es), base), Plus(KeySum(es), CommitmentSum(es)), ExcessSum(es));
  }

  /** A key of order dividing m makes what was dropped vanish. */
  lemma NothingDropped(e: Entry, base: Point)
    requires Domain(base) && Sincere(e, base)
    ensures Decodes(e) && ExcessTerm(e) == NEUTRAL
  {
    GoodDecodes(e, base);
    hide Fermat, OnCurve, Mult, DecompressNegative, H, Z, Good, HashWeight;
    var a, q := DecompressNegative(e.pk).value, H(e) * Z(e) / M;
    assert Dropped(e) == q * M;
    MultTimes(q, M, a);
  }

  /** A key of order two leaves itself behind when an odd multiple of m is dropped. */
  lemma HalfDropped(e: Entry)
    requires Fermat() && Formed(e) && Decodes(e) && Mult(2, DecompressNegative(e.pk).value) == NEUTRAL
    ensures ExcessTerm(e) == if (H(e) * Z(e) / M) % 2 == 1 then DecompressNegative(e.pk).value else NEUTRAL
  {
    DecompressSound(e.pk);
    hide Fermat, OnCurve, Mult, DecompressNegative, H, Z, HashWeight;
    OfOrderTwo(H(e) * Z(e) / M, DecompressNegative(e.pk).value);
  }

  /** m is odd, so its multiples of an element of order two alternate. */
  lemma OfOrderTwo(q: int, a: Point)
    requires Fermat() && OnCurve(a) && Mult(2, a) == NEUTRAL
    ensures Mult(M * q, a) == if q % 2 == 1 then a else NEUTRAL
  {
    hide Fermat, OnCurve, Mult, Plus;
    var k, r := M / 2 * q + q / 2, q % 2;
    OddMultiple(q);
    MultTimes(k, 2, a);
    MultAdd(k * 2, r, a);
    MultIn(r, a);
    NeutralPlus(Mult(r, a));
  }

  lemma NeutralPlus(p: Point)
    requires Fermat() && OnCurve(p)
    ensures Plus(NEUTRAL, p) == p
  {
    hide Fermat, OnCurve, Plus, Abelian;
    CurveIsAbelian();
    Unit(Curve(), p);
  }

  lemma OddMultiple(q: int)
    ensures (M / 2 * q + q / 2) * 2 + q % 2 == M * q
  {
    assert M == 2 * (M / 2) + 1;
    assert M * q == 2 * (M / 2 * q) + q;
    assert q == 2 * (q / 2) + q % 2;
  }

  lemma {:induction false} NoExcess(es: seq<Entry>, base: Point)
    requires Domain(base) && AllSincere(es, base) && AllFormed(es) && AllDecode(es)
    ensures ExcessSum(es) == NEUTRAL
  {
    hide Fermat, OnCurve, Plus, Mult, ExcessTerm, Sincere, AllDecode, AllFormed, KeySum, CommitmentSum, Responses;
    if |es| == 0 {
    } else {
      hide ExcessSum;
      var n := |es| - 1;
      LastTerms(es);
      NoExcess(es[..n], base);
      assert Sincere(es[n], base);
      NothingDropped(es[n], base);
      NeutralOnCurve();
      PlusNeutral(NEUTRAL);
    }
  }

  lemma SincereParts(es: seq<Entry>, base: Point)
    requires AllSincere(es, base)
    ensures AllFormed(es) && AllGood(es, base)
  {
    hide Good;
    forall i | 0 <= i < |es|
      ensures Formed(es[i]) && Good(es[i], base)
    {
      assert Sincere(es[i], base);
    }
  }

  /** Good signatures under keys of order dividing m balance the equation for all random values. */
  lemma SincereBatchHolds(es: seq<Entry>, base: Point)
    requires Domain(base) && AllSincere(es, base)
    ensures AllFormed(es) && AllGood(es, base) && AllDecode(es) && BatchHolds(es, base)
  {
    SincereParts(es, base);
    hide Domain, AllSincere, AllGood, AllFormed, AllDecode, BatchHolds, ExcessSum;
    GoodBatchHolds(es, base);
    NoExcess(es, base);
  }

  /** What result 0 takes of one batch: it passes or, if it has fewer than four entries, all are good. */
  ghost predicate Accepted(es: seq<Entry>, base: Point) {
    if |es| < 4 then AllGood(es, base) else Passes(es, base)
  }

  lemma AcceptedIs(es: seq<Entry>, flags: seq<int>, base: Point)
    requires Domain(base) && AllFormed(es) && Settled(es, flags, base)
    ensures Accepted(es, base) <==> !Fails(es, base) && forall i :: 0 <= i < |es| ==> flags[i] == 1
  {
    SettledExact(es, flags, base);
    hide Domain, BatchNeutral, Good, AllDecode, AllFormed;
    if !Fails(es, base) && (forall i :: 0 <= i < |es| ==> flags[i] == 1) && !Passes(es, base) {
      assert AllGood(es, base);
      GoodDecode(es, base);
    }
  }

  lemma PartFormed(es: seq<Entry>, k: int)
    requires AllFormed(es) && Starts(es, k)
    ensures AllFormed(BatchAt(es, k))
  {
    hide Formed;
    var block := BatchAt(es, k);
    assert forall j :: 0 <= j < |block| ==> block[j] == es[k + j];
  }

  lemma Binary(es: seq<Entry>, flags: seq<int>, ret: int, base: Point)
    requires Verdict(es, flags, ret, base)
    ensures forall i :: 0 <= i < |es| ==> flags[i] == 0 || flags[i] == 1
  {
    hide Good, Passes, Fails, BatchAt;
    forall i | 0 <= i < |es|
      ensures flags[i] == 0 || flags[i] == 1
    {
      BatchOf(es, flags, i);
      assert SettledAt(es, flags, i - i % 64, base);
    }
  }

  /** The result is 0 exactly when every batch is accepted. */
  lemma ZeroResult(es: seq<Entry>, flags: seq<int>, ret: int, base: Point)
    requires Domain(base) && AllFormed(es) && Verdict(es, flags, ret, base)
    ensures ret == 0 <==> forall k :: Starts(es, k) ==> Accepted(BatchAt(es, k), base)
  {
    Binary(es, flags, ret, base);
    hide Domain, AllFormed, Settled, Fails, Accepted, BatchAt;
    forall k | Starts(es, k)
      ensures Accepted(BatchAt(es, k), base) <==>
              !Fails(BatchAt(es, k), base) && forall i :: k <= i < EndOf(|es|, k) ==> flags[i] == 1
    {
      PartFormed(es, k);
      assert SettledAt(es, flags, k, base);
      AcceptedIs(BatchAt(es, k), flags[k..EndOf(|es|, k)], base);
      PartFlags(es, flags, k);
    }
    if forall k :: Starts(es, k) ==> Accepted(BatchAt(es, k), base) {
      forall i | 0 <= i < |es|
        ensures flags[i] == 1
      {
        OwnBatch(es, i);
      }
    }
  }

  lemma OwnBatch(es: seq<Entry>, i: nat)
    requires i < |es|
    ensures var k := i - i % 64; Starts(es, k) && k <= i < EndOf(|es|, k)
  {
  }

  lemma PartFlags(es: seq<Entry>, flags: seq<int>, k: int)
    requires |flags| == |es| && Starts(es, k)
    ensures var part := flags[k..EndOf(|es|, k)];
      && |part| == |BatchAt(es, k)|
      && ((forall j :: 0 <= j < |part| ==> part[j] == 1) <==> forall i :: k <= i < EndOf(|es|, k) ==> flags[i] == 1)
  {
    var end := EndOf(|es|, k);
    var part := flags[k..end];
    if forall j :: 0 <= j < |part| ==> part[j] == 1 {
      forall i | k <= i < end
        ensures flags[i] == 1
      {
        assert part[i - k] == flags[i];
      }
    }
  }

  /** Of a batch that the loop covers, failing is failing the equation. */
  ghost predicate FailsEquation(es: seq<Entry>, base: Point) {
    AllFormed(es) && 4 <= |es| && AllDecode(es) && !BatchHolds(es, base)
  }

  /** Good signatures whose dropped multiples do not cancel. */
  ghost predicate Unbalanced(es: seq<Entry>) {
    AllFormed(es) && 4 <= |es| && AllDecode(es) && ExcessSum(es) != NEUTRAL
  }

  /** The loop covers every batch of the list. */
  ghost predicate AllCovered(es: seq<Entry>) {
    AllFormed(es) && forall k :: Starts(es, k) && 4 <= |BatchAt(es, k)| ==> CoversAt(es, k)
  }

  ghost predicate CoversAt(es: seq<Entry>, k: int)
    requires 0 <= k <= |es| && 4 <= |BatchAt(es, k)|
  {
    AllFormed(BatchAt(es, k)) && Covers(BatchAt(es, k))
  }

  lemma CoveredFails(es: seq<Entry>, k: int, base: Point)
    requires BatchDomain(base) && AllCovered(es) && Starts(es, k)
    ensures Fails(BatchAt(es, k), base) <==> FailsEquation(BatchAt(es, k), base)
  {
    hide BatchDomain, AllDecode, BatchHolds, BatchNeutral, Covers, AllFormed;
    var block := BatchAt(es, k);
    if 4 <= |block| {
      assert CoversAt(es, k);
      if AllDecode(block) {
        CoveredNeutral(block, base);
      }
    }
  }

  /** Bit 1 of the result, when the loop covers all batches: some batch decodes and fails the equation. */
  lemma CoveredVerdict(es: seq<Entry>, flags: seq<int>, ret: int, base: Point)
    requires BatchDomain(base) && AllCovered(es) && Verdict(es, flags, ret, base)
    ensures ret / 2 == 1 <==> exists k :: Starts(es, k) && FailsEquation(BatchAt(es, k), base)
  {
    hide BatchDomain, AllCovered, Fails, FailsEquation, BatchAt, Settled;
    forall k | Starts(es, k)
      ensures Fails(BatchAt(es, k), base) <==> FailsEquation(BatchAt(es, k), base)
    {
      CoveredFails(es, k, base);
    }
  }

  /** A batch whose points decode and whose equation holds. */
  ghost predicate MeetsEquation(es: seq<Entry>, base: Point) {
    AllFormed(es) && 4 <= |es| && AllDecode(es) && BatchHolds(es, base)
  }

  lemma CoveredPasses(es: seq<Entry>, k: int, base: Point)
    requires BatchDomain(base) && AllCovered(es) && Starts(es, k)
    ensures Passes(BatchAt(es, k), base) <==> MeetsEquation(BatchAt(es, k), base)
  {
    hide BatchDomain, AllDecode, BatchHolds, BatchNeutral, Covers, AllFormed;
    var block := BatchAt(es, k);
    if 4 <= |block| {
      assert CoversAt(es, k);
      if AllDecode(block) {
        CoveredNeutral(block, base);
      }
    }
  }

  /** A signature that is not good, in a batch that is checked one by one. */
  ghost predicate Caught(es: seq<Entry>, k: int, i: int, base: Point) {
    Starts(es, k) && k <= i < EndOf(|es|, k) && !MeetsEquation(BatchAt(es, k), base) && !Good(es[i], base)
  }

  /**
   When the loop covers all batches: bit 0 says whether a signature is caught, and the result is 3
   exactly when one is caught and some batch, that one or another, decodes and fails the equation.
   */
  lemma CoveredResult(es: seq<Entry>, flags: seq<int>, ret: int, base: Point)
    requires BatchDomain(base) && AllCovered(es) && Verdict(es, flags, ret, base)
    ensures ret % 2 == 1 <==> exists k, i :: Caught(es, k, i, base)
    ensures ret == 3 <==>
            (exists k, i :: Caught(es, k, i, base)) && (exists k :: Starts(es, k) && FailsEquation(BatchAt(es, k), base))
  {
    BitZero(es, flags, ret, base);
    CoveredVerdict(es, flags, ret, base);
    hide BatchDomain, AllCovered, Fails, FailsEquation, Passes, MeetsEquation, BatchAt, Settled, Good;
    forall k | Starts(es, k)
      ensures Passes(BatchAt(es, k), base) <==> MeetsEquation(BatchAt(es, k), base)
    {
      CoveredPasses(es, k, base);
    }
    if ret % 2 == 1 {
      var k, i :| Starts(es, k) && k <= i < EndOf(|es|, k) && !Passes(BatchAt(es, k), base) && !Good(es[i], base);
      assert Caught(es, k, i, base);
    }
  }

  /** Every batch has an entry whose key or R does not unpack. */
  ghost predicate NoneDecodes(es: seq<Entry>) {
    AllFormed(es) && forall k :: Starts(es, k) ==> Undecoded(BatchAt(es, k))
  }

  ghost predicate Undecoded(es: seq<Entry>) {
    AllFormed(es) && !AllDecode(es)
  }

  /** Such a list is checked one by one throughout, which does not set bit 1. */
  lemma UndecodedList(es: seq<Entry>, flags: seq<int>, ret: int, base: Point)
    requires Domain(base) && NoneDecodes(es) && |es| > 0 && Verdict(es, flags, ret, base)
    ensures Exact(es, flags, base) && ret == 1
  {
    hide Domain, Good, AllFormed, AllDecode, BatchNeutral, Settled;
    forall k | Starts(es, k)
      ensures !Passes(BatchAt(es, k), base) && !Fails(BatchAt(es, k), base)
    {
      assert Undecoded(BatchAt(es, k));
    }
    VerdictExact(es, flags, ret, base);
    assert Starts(es, 0) && Undecoded(BatchAt(es, 0));
    BadInBatch(es, base);
    var i :| 0 <= i < |es| && !Good(es[i], base);
    assert flags[i] == 0;
  }

  lemma BadInBatch(es: seq<Entry>, base: Point)
    requires Domain(base) && Starts(es, 0) && Undecoded(BatchAt(es, 0))
    ensures exists i :: 0 <= i < |es| && !Good(es[i], base)
  {
    hide Domain, Good, AllDecode, Formed;
    var block := BatchAt(es, 0);
    if AllGood(block, base) {
      GoodDecode(block, base);
    }
    var j :| 0 <= j < |block| && !Good(block[j], base);
    assert block[j] == es[j];
  }

  lemma GoodAt(es: seq<Entry>, k: int, base: Point)
    requires BatchDomain(base) && AllFormed(es) && AllGood(es, base) && Starts(es, k)
    ensures FailsEquation(BatchAt(es, k), base) <==> Unbalanced(BatchAt(es, k))
  {
    hide BatchHolds, ExcessSum, Good, AllDecode, Formed, Fermat, OnCurve, Mult;
    var block := BatchAt(es, k);
    assert AllFormed(block) && AllGood(block, base) by {
      assert forall j :: 0 <= j < |block| ==> block[j] == es[k + j];
    }
    GoodBatchHolds(block, base);
  }

  /**
   A covered list of good signatures has all flags set, and the result is 2 or 0: it is 2
   exactly when in some batch the dropped multiples of the keys do not cancel.
   */
  lemma GoodList(es: seq<Entry>, flags: seq<int>, ret: int, base: Point)
    requires BatchDomain(base) && AllCovered(es) && AllGood(es, base) && Verdict(es, flags, ret, base)
    ensures forall i :: 0 <= i < |es| ==> flags[i] == 1
    ensures ret == if exists k :: Starts(es, k) && Unbalanced(BatchAt(es, k)) then 2 else 0
  {
    GoodFlags(es, flags, ret, base);
    assert AllFormed(es);
    hide BatchDomain, AllCovered, AllGood, AllFormed, Verdict, Fails, FailsEquation, Unbalanced, BatchAt;
    forall k | Starts(es, k)
      ensures Fails(BatchAt(es, k), base) <==> Unbalanced(BatchAt(es, k))
    {
      CoveredFails(es, k, base);
      GoodAt(es, k, base);
    }
  }

  lemma SincereAt(es: seq<Entry>, k: int, base: Point)
    requires Domain(base) && AllSincere(es, base) && Starts(es, k)
    ensures !Unbalanced(BatchAt(es, k))
  {
    hide ExcessSum, AllDecode, Domain, Sincere;
    var block := BatchAt(es, k);
    assert AllSincere(block, base) by {
      assert forall j :: 0 <= j < |block| ==> block[j] == es[k + j];
    }
    if AllFormed(block) && AllDecode(block) {
      NoExcess(block, base);
    }
  }

  /** A covered list of good signatures under keys of order dividing m is accepted with result 0. */
  lemma SincereList(es: seq<Entry>, flags: seq<int>, ret: int, base: Point)
    requires BatchDomain(base) && AllCovered(es) && AllSincere(es, base) && Verdict(es, flags, ret, base)
    ensures ret == 0 && forall i :: 0 <= i < |es| ==> flags[i] == 1
  {
    SincereParts(es, base);
    GoodList(es, flags, ret, base);
    hide Domain, AllCovered, AllGood, AllFormed, AllSincere, Verdict, Unbalanced, BatchAt;
    forall k | Starts(es, k)
      ensures !Unbalanced(BatchAt(es, k))
    {
      SincereAt(es, k, base);
    }
  }

  /** A sum of one term and two runs of terms. */
  lemma SplitSum<T(!new)>(g: Group<T>, x: nat, b: T, u: seq<nat>, p: seq<T>, v: seq<nat>, q: seq<T>)
    requires Abelian(g) && g.carrier(b) && |u| == |p| && |v| == |q| && AllIn(g, p) && AllIn(g, q)
    ensures Sum(g, [x] + u + v, [b] + p + q) == g.add(Times(g, x, b), g.add(Sum(g, u, p), Sum(g, v, q)))
  {
    AllInJoined(g, b, p, q);
    hide *;
    SumConcat(g, u, p, v, q);
    SumConcat(g, [x], [b], u + v, p + q);
    SumOne(g, x, b);
    Join([x], u, v);
    Join([b], p, q);
  }

  lemma Join<T>(s: seq<T>, t: seq<T>, u: seq<T>)
    ensures s + t + u == s + (t + u)
  {
  }

  lemma AllInJoined<T(!new)>(g: Group<T>, b: T, p: seq<T>, q: seq<T>)
    requires g.carrier(b) && AllIn(g, p) && AllIn(g, q)
    ensures AllIn(g, [b]) && AllIn(g, p + q)
  {
  }

  lemma SumOne<T(!new)>(g: Group<T>, x: nat, p: T)
    requires Abelian(g) && g.carrier(p)
    ensures Sum(g, [x], [p]) == Times(g, x, p)
  {
    TimesIn(g, x, p);
    Unit(g, Times(g, x, p));
    assert Sum(g, [x][..0], [p][..0]) == g.zero;
  }

  /** Signatures that ed25519_sign makes are sincere. */
  lemma SignedIsSincere(m: seq<byte>, sk: seq<byte>, z: seq<byte>, base: Point)
    requires Domain(base) && |z| == 16
    ensures var pk := PublicKeyOf(sk, base); Sincere(Entry(m, pk, SignatureOf(m, sk, pk, base), z), base)
  {
    SignThenOpen(m, sk, base);
    hide Fermat, OnCurve, Mult, Accepts, SignatureOf, Encode, DecompressNegative, Negate;
    var a: int := SecretScalar(sk);
    MultIn(a, base);
    DecompressEncode(Mult(a, base));
    MultNegate(a, base);
    MultTimes(M, -a, base);
    MultTimes(-a, M, base);
    assert M * -a == -a * M;
  }
}
