/** Batch verification (ed25519_sign_open_batch). */
module Batch {
  import opened Arith
  import opened Options
  import opened Groups
  import opened Bytes
  import opened Scalars
  import opened ModM
  import opened ScalarBytes
  import opened PrimeField
  import opened Edwards
  import opened CurveGroup
  import opened Compression
  import opened ScalarMult
  import opened Points
  import opened Encoding
  import opened BatchHeaps
  import opened Sums
  import opened BosCarter
  import opened MultiScalars
  import opened Sha512Standard
  import opened Signature

  /** A message with its public key and signature, and the random 16 bytes drawn for it. */
  datatype Entry = Entry(m: seq<byte>, pk: seq<byte>, rs: seq<byte>, z: seq<byte>)

  predicate Formed(e: Entry) {
    |e.pk| == 32 && |e.rs| == 64 && |e.z| == 16
  }

  predicate AllFormed(es: seq<Entry>) {
    forall i :: 0 <= i < |es| ==> Formed(es[i])
  }

  function Z(e: Entry): nat { Le(e.z) }

  function S(e: Entry): nat
    requires Formed(e)
  {
    Le(e.rs[32..]) % M
  }

  function H(e: Entry): nat
    requires Formed(e)
  {
    Challenge(e.rs[..32], e.pk, e.m)
  }

  /** z1 S1 + z2 S2 + ... */
  function Responses(es: seq<Entry>): (v: nat)
    requires AllFormed(es)
  {
    if |es| == 0 then 0 else
      var e := es[|es| - 1];
      MulNat(S(e), Z(e));
      Responses(es[..|es| - 1]) + S(e) * Z(e)
  }

  function HashWeight(e: Entry): (v: nat)
    requires Formed(e)
  {
    MulNat(H(e), Z(e));
    (H(e) * Z(e)) % M
  }

  /** The scalars of the batch equation, in the order of the code. */
  function BatchScalars(es: seq<Entry>): (v: seq<nat>)
    requires AllFormed(es)
    ensures |v| == 2 * |es| + 1
  {
    [Responses(es) % M] + HashWeights(es) + Randoms(es)
  }

  function HashWeights(es: seq<Entry>): (v: seq<nat>)
    requires AllFormed(es)
    ensures |v| == |es|
  {
    seq(|es|, i requires 0 <= i < |es| => HashWeight(es[i]))
  }

  function Randoms(es: seq<Entry>): (v: seq<nat>)
    ensures |v| == |es|
  {
    seq(|es|, i requires 0 <= i < |es| => Z(es[i]))
  }

  /** expand256_modm on the random bytes: 128 bits need no reduction. */
  lemma RandomSmall(e: Entry)
    requires Formed(e)
    ensures Z(e) < W128 && Z(e) % M == Z(e)
  {
    LeBound(e.z);
    Exp256Values();
    ModSmall(Z(e), M);
  }

  /** The first loop: the random scalars go to the upper half. */
  method DrawScalars(s: array<Scalar>, es: seq<Entry>)
    requires AllFormed(es) && 2 * |es| + 1 <= s.Length
    modifies s
    ensures forall i :: |es| < i <= 2 * |es| ==> Canonical(s[i]) && Val(s[i]) == Z(es[i - |es| - 1])
    ensures forall i :: 0 <= i < s.Length && !(|es| < i <= 2 * |es|) ==> s[i] == old(s[i])
  {
    hide Z, Canonical, Val;
    var n := |es|;
    for i := 0 to n
      invariant forall k :: n < k <= n + i ==> Canonical(s[k]) && Val(s[k]) == Z(es[k - n - 1])
      invariant forall k :: 0 <= k < s.Length && !(n < k <= n + i) ==> s[k] == old(s[k])
    {
      s[n + 1 + i] := ExpandZ(es[i]);
    }
  }

  method ExpandZ(e: Entry) returns (r: Scalar)
    requires Formed(e)
    ensures Canonical(r) && Val(r) == Z(e)
  {
    hide Canonical, Val;
    RandomSmall(e);
    r := ScalarBytes.Expand(e.z);
  }

  /** x z mod m, for a 128-bit z. */
  method Weigh(input: seq<byte>, z: Scalar) returns (r: Scalar)
    requires |input| <= 64 && Canonical(z) && Val(z) < W128
    ensures Canonical(r) && Val(r) < M && 0 <= (Le(input) % M) * Val(z) && Val(r) == ((Le(input) % M) * Val(z)) % M
  {
    hide Canonical, Val, Le;
    var x := ScalarBytes.Expand(input);
    ProductBelow(Val(x), Val(z));
    r := ModM.Mul(x, z);
    ShortIsCanonical(r);
    ModBound(Val(x) * Val(z));
  }

  lemma ProductBelow(x: nat, z: nat)
    requires x < M && z < W128
    ensures 0 <= x * z < W512
  {
    MulNat(x, z);
    MulLe(x, M, z);
  }

  ghost predicate UpperHalf(s: seq<Scalar>, es: seq<Entry>) {
    2 * |es| + 1 <= |s| && forall i :: |es| < i <= 2 * |es| ==> Canonical(s[i]) && Val(s[i]) == Z(es[i - |es| - 1])
  }

  function ResponseWeight(e: Entry): (v: nat)
    requires Formed(e)
  {
    MulNat(S(e), Z(e));
    (S(e) * Z(e)) % M
  }

  /** The second loop: the weighted responses, one by one. */
  method WeighResponses(s: array<Scalar>, es: seq<Entry>)
    requires AllFormed(es) && UpperHalf(s[..], es)
    modifies s
    ensures forall i :: 0 <= i < |es| ==> Canonical(s[i]) && Val(s[i]) < M && Val(s[i]) == ResponseWeight(es[i])
    ensures forall i :: |es| <= i < s.Length ==> s[i] == old(s[i])
  {
    hide Canonical, Val, Z, ResponseWeight;
    var n := |es|;
    for i := 0 to n
      invariant forall k :: 0 <= k < i ==> Canonical(s[k]) && Val(s[k]) < M && Val(s[k]) == ResponseWeight(es[k])
      invariant forall k :: n <= k < s.Length ==> s[k] == old(s[k])
    {
      s[i] := WeighResponse(es[i], s[n + 1 + i]);
    }
  }

  method WeighResponse(e: Entry, z: Scalar) returns (r: Scalar)
    requires Formed(e) && Canonical(z) && Val(z) == Z(e)
    ensures Canonical(r) && Val(r) < M && Val(r) == ResponseWeight(e)
  {
    hide Canonical, Val, Le;
    RandomSmall(e);
    r := Weigh(e.rs[32..], z);
  }

  /** The third loop: their sum in scalar 0. */
  method SumResponses(s: array<Scalar>, es: seq<Entry>)
    requires AllFormed(es) && 1 <= |es| <= s.Length
    requires forall i :: 0 <= i < |es| ==> Canonical(s[i]) && Val(s[i]) < M && Val(s[i]) == ResponseWeight(es[i])
    modifies s
    ensures Canonical(s[0]) && Val(s[0]) == Responses(es) % M
    ensures forall i :: 1 <= i < s.Length ==> s[i] == old(s[i])
  {
    hide Canonical, Val, ResponseWeight, Responses;
    FirstResponse(es);
    for i := 1 to |es|
      invariant Canonical(s[0]) && Val(s[0]) < M && Val(s[0]) == Responses(es[..i]) % M
      invariant forall k :: 1 <= k < s.Length ==> s[k] == old(s[k])
    {
      NextResponse(es, i);
      var t := ModM.Add(s[0], s[i]);
      ShortIsCanonical(t);
      s[0] := t;
    }
    assert es[..|es|] == es;
  }

  lemma FirstResponse(es: seq<Entry>)
    requires AllFormed(es) && 1 <= |es|
    ensures Responses(es[..1]) % M == ResponseWeight(es[0])
  {
    var f := es[..1];
    assert f[..0] == [] && Responses(f[..0]) == 0;
  }

  lemma NextResponse(es: seq<Entry>, i: nat)
    requires AllFormed(es) && i < |es|
    ensures (Responses(es[..i]) % M + ResponseWeight(es[i])) % M == Responses(es[..i + 1]) % M
  {
    var f := es[..i + 1];
    assert f[..i] == es[..i];
    AddMod(Responses(es[..i]), S(es[i]) * Z(es[i]));
  }

  lemma AddMod(x: int, y: int)
    ensures (x % M + y % M) % M == (x + y) % M
  {
    assert x == x / M * M + x % M && y == y / M * M + y % M;
    assert x + y == (x % M + y % M) + (x / M + y / M) * M;
    ModShift(x % M + y % M, x / M + y / M, M);
  }

  /** The fourth loop: the weighted hashes go to scalars 1 to n. */
  method WeighHashes(s: array<Scalar>, es: seq<Entry>)
    requires AllFormed(es) && UpperHalf(s[..], es)
    modifies s
    ensures forall i :: 1 <= i <= |es| ==> Canonical(s[i]) && Val(s[i]) == HashWeight(es[i - 1])
    ensures s[0] == old(s[0]) && forall i :: |es| < i < s.Length ==> s[i] == old(s[i])
  {
    hide Canonical, Val, Z, HashWeight;
    var n := |es|;
    for i := 0 to n
      invariant forall k :: 1 <= k <= i ==> Canonical(s[k]) && Val(s[k]) == HashWeight(es[k - 1])
      invariant s[0] == old(s[0]) && forall k :: n < k < s.Length ==> s[k] == old(s[k])
    {
      s[i + 1] := WeighHash(es[i], s[n + 1 + i]);
    }
  }

  method WeighHash(e: Entry, z: Scalar) returns (r: Scalar)
    requires Formed(e) && Canonical(z) && Val(z) == Z(e)
    ensures Canonical(r) && Val(r) == HashWeight(e)
  {
    hide Canonical, Val, Le, Sha512;
    RandomSmall(e);
    var hram := Hram(e.rs[..32], e.pk, e.m);
    r := Weigh(hram, z);
  }

  ghost predicate AllCanonical(s: seq<Scalar>) {
    forall i :: 0 <= i < |s| ==> Canonical(s[i])
  }

  lemma WeightAt(es: seq<Entry>, i: nat)
    requires AllFormed(es) && i < |es|
    ensures Formed(es[i]) && HashWeights(es)[i] == HashWeight(es[i]) && Randoms(es)[i] == Z(es[i])
  {
    hide Formed, HashWeight, Z;
  }

  lemma BatchScalarsAt(es: seq<Entry>, i: nat)
    requires AllFormed(es) && i <= 2 * |es|
    ensures i == 0 ==> BatchScalars(es)[i] == Responses(es) % M
    ensures 1 <= i <= |es| ==> BatchScalars(es)[i] == HashWeights(es)[i - 1]
    ensures |es| < i ==> BatchScalars(es)[i] == Randoms(es)[i - |es| - 1]
  {
    hide HashWeights, Randoms, Responses, AllFormed;
    Joined(Responses(es) % M, HashWeights(es), Randoms(es), i);
  }

  lemma Joined(x: nat, u: seq<nat>, v: seq<nat>, i: nat)
    requires i <= |u| + |v|
    ensures ([x] + u + v)[i] == if i == 0 then x else if i <= |u| then u[i - 1] else v[i - |u| - 1]
  {
  }

  /** All four loops: the scalars of the batch equation. */
  method FillScalars(s: array<Scalar>, es: seq<Entry>)
    requires AllFormed(es) && 1 <= |es| && 2 * |es| + 1 <= s.Length && AllCanonical(s[..])
    modifies s
    ensures AllCanonical(s[..]) && forall i :: 0 <= i < 2 * |es| + 1 ==> Val(s[i]) == BatchScalars(es)[i]
  {
    hide Canonical, Val, Z, HashWeight, HashWeights, Randoms, ResponseWeight, Responses, BatchScalars, Formed;
    DrawScalars(s, es);
    WeighResponses(s, es);
    SumResponses(s, es);
    WeighHashes(s, es);
    forall i | 0 <= i < 2 * |es| + 1
      ensures Val(s[i]) == BatchScalars(es)[i]
    {
      BatchScalarsAt(es, i);
      if 1 <= i <= |es| {
        WeightAt(es, i - 1);
      } else if |es| < i {
        WeightAt(es, i - |es| - 1);
      }
    }
  }

  predicate Decodes(e: Entry)
    requires Formed(e)
  {
    DecompressNegative(e.pk).Some? && DecompressNegative(e.rs[..32]).Some?
  }

  predicate AllDecode(es: seq<Entry>)
    requires AllFormed(es)
  {
    forall i :: 0 <= i < |es| ==> Decodes(es[i])
  }

  /** The base point, the negated keys and the negated points R. */
  function BatchPoints(es: seq<Entry>, base: Point): (p: seq<Point>)
    requires AllFormed(es) && AllDecode(es)
    ensures |p| == 2 * |es| + 1
  {
    [base] + Keys(es) + Commitments(es)
  }

  function Keys(es: seq<Entry>): (p: seq<Point>)
    requires AllFormed(es) && AllDecode(es)
    ensures |p| == |es|
  {
    seq(|es|, i requires 0 <= i < |es| => DecompressNegative(es[i].pk).value)
  }

  function Commitments(es: seq<Entry>): (p: seq<Point>)
    requires AllFormed(es) && AllDecode(es)
    ensures |p| == |es|
  {
    seq(|es|, i requires 0 <= i < |es| => DecompressNegative(es[i].rs[..32]).value)
  }

  lemma BatchPointsIn(es: seq<Entry>, base: Point)
    requires OnCurve(base) && AllFormed(es) && AllDecode(es)
    ensures AllIn(Curve(), BatchPoints(es, base))
  {
    hide DecompressNegative, OnCurve;
    var p, n := BatchPoints(es, base), |es|;
    forall i | 0 <= i < |p|
      ensures OnCurve(p[i])
    {
      if 1 <= i <= n {
        assert Decodes(es[i - 1]);
        DecompressSound(es[i - 1].pk);
      } else if n < i {
        assert Decodes(es[i - n - 1]);
        DecompressSound(es[i - n - 1].rs[..32]);
      }
    }
  }

  /** The two unpacking loops; the first string that does not decode stops them. */
  method FillPoints(points: array<Ge>, es: seq<Entry>, basepoint: Ge, ghost base: Point) returns (ok: bool)
    requires AllFormed(es) && 2 * |es| + 1 <= points.Length && IsFull(basepoint, base)
    modifies points
    ensures ok <==> AllDecode(es)
    ensures ok ==> forall i :: 0 <= i < 2 * |es| + 1 ==> IsFull(points[i], BatchPoints(es, base)[i])
  {
    hide DecompressNegative, IsFull;
    var n := |es|;
    points[0] := basepoint;
    for i := 0 to n
      invariant points[0] == basepoint
      invariant forall k :: 0 <= k < i ==> Unpacked(es[k].pk, points[1 + k])
    {
      var decodes, p := UnpackNegative(es[i].pk);
      if !decodes {
        assert !Decodes(es[i]);
        return false;
      }
      points[1 + i] := p;
    }
    for i := 0 to n
      invariant points[0] == basepoint
      invariant forall k :: 0 <= k < n ==> Unpacked(es[k].pk, points[1 + k])
      invariant forall k :: 0 <= k < i ==> Unpacked(es[k].rs[..32], points[1 + n + k])
    {
      var decodes, p := UnpackNegative(es[i].rs[..32]);
      if !decodes {
        assert !Decodes(es[i]);
        return false;
      }
      points[1 + n + i] := p;
    }
    ok := true;
    PointsFilled(points[..], es, base);
  }

  ghost predicate Unpacked(s: seq<byte>, r: Ge) {
    DecompressNegative(s).Some? && IsFull(r, DecompressNegative(s).value)
  }

  lemma PointsFilled(points: seq<Ge>, es: seq<Entry>, base: Point)
    requires AllFormed(es) && 2 * |es| + 1 <= |points| && IsFull(points[0], base)
    requires forall k :: 0 <= k < |es| ==> Unpacked(es[k].pk, points[1 + k])
    requires forall k :: 0 <= k < |es| ==> Unpacked(es[k].rs[..32], points[1 + |es| + k])
    ensures AllDecode(es) && forall i :: 0 <= i < 2 * |es| + 1 ==> IsFull(points[i], BatchPoints(es, base)[i])
  {
    hide DecompressNegative, IsFull;
    var n := |es|;
    forall i | 0 <= i < n
      ensures Decodes(es[i])
    {
      assert Unpacked(es[i].pk, points[1 + i]) && Unpacked(es[i].rs[..32], points[1 + n + i]);
    }
    forall i | 0 <= i < 2 * n + 1
      ensures IsFull(points[i], BatchPoints(es, base)[i])
    {
      if 1 <= i <= n {
        assert Unpacked(es[i - 1].pk, points[1 + (i - 1)]);
      } else if n < i {
        assert Unpacked(es[i - n - 1].rs[..32], points[1 + n + (i - n - 1)]);
      }
    }
  }

  /** Beyond the signature domain: m is prime, and 8m times any point is neutral. */
  ghost predicate BatchDomain(base: Point) {
    Domain(base) && Prime(M) && forall p {:trigger Mult(8 * M, p)} :: OnCurve(p) ==> Mult(8 * M, p) == NEUTRAL
  }

  /** The loop takes in all scalars of the batch. */
  ghost predicate Covers(es: seq<Entry>)
    requires AllFormed(es) && 4 <= |es|
  {
    ReachesShort(BatchScalars(es)[..HeapStart(2 * |es| + 1)])
  }

  /** The batch equation: z1 (S1 B - h1 A1 - R1) + z2 (...) + ... is neutral. */
  ghost predicate BatchHolds(es: seq<Entry>, base: Point)
    requires AllFormed(es) && AllDecode(es)
  {
    Sum(Curve(), BatchScalars(es), BatchPoints(es, base)) == NEUTRAL
  }

  /** The outcome that the code tests: of all terms, or of those it gets as far as. */
  ghost predicate BatchNeutral(es: seq<Entry>, base: Point)
    requires AllFormed(es) && AllDecode(es) && 4 <= |es|
  {
    var v, p, n := BatchScalars(es), BatchPoints(es, base), HeapStart(2 * |es| + 1);
    (if Covers(es) then Outcome(Curve(), v, p) else Outcome(Curve(), v[..n], p[..n])) == Some(NEUTRAL)
  }

  lemma BatchBegins(es: seq<Entry>, base: Point)
    requires Fermat() && 4 <= |es| && AllFormed(es) && AllDecode(es)
    ensures Begins(Curve(), BatchScalars(es), BatchPoints(es, base), HeapStart(2 * |es| + 1))
  {
    hide Fermat, Abelian, Curve, BatchScalars, BatchPoints, AllFormed, AllDecode, HeapStart;
    CurveIsAbelian();
    HighScalars(es);
    StartOf(|es|);
  }

  /** The heap starts with an odd number of scalars, the random ones left out. */
  lemma StartOf(n: nat)
    requires 4 <= n
    ensures HeapStart(2 * n + 1) % 2 == 1 && n < HeapStart(2 * n + 1) <= n + 2 && 3 <= HeapStart(2 * n + 1) <= 2 * n + 1
  {
  }

  /** The scalars that join the heap later are the random ones. */
  lemma HighScalars(es: seq<Entry>)
    requires AllFormed(es)
    ensures forall k :: |es| < k <= 2 * |es| ==> BatchScalars(es)[k] < W128
  {
    hide Z, HashWeight, Responses;
    var v := BatchScalars(es);
    forall k | |es| < k <= 2 * |es|
      ensures v[k] < W128
    {
      RandomSmall(es[k - |es| - 1]);
    }
  }

  /** Where the loop takes in all scalars, the code tests the batch equation. */
  lemma CoveredNeutral(es: seq<Entry>, base: Point)
    requires BatchDomain(base) && AllFormed(es) && AllDecode(es) && 4 <= |es| && Covers(es)
    ensures BatchNeutral(es, base) <==> BatchHolds(es, base)
  {
    CurveIsAbelian();
    BatchPointsIn(es, base);
    StartOf(|es|);
    forall q {:trigger Times(Curve(), 8 * M, q)} | Curve().carrier(q)
      ensures Times(Curve(), 8 * M, q) == NEUTRAL
    {
      assert Mult(8 * M, q) == NEUTRAL;
    }
    hide Abelian, OnCurve, Fermat, Plus, Negate, Outcome, Sum, Times, Prime, BatchScalars, BatchPoints, HeapStart, ReachesShort,
         AllDecode, AllFormed, AllIn;
    OutcomeNeutral(Curve(), M, BatchScalars(es), BatchPoints(es, base), HeapStart(2 * |es| + 1));
  }

  /** One batch, up to the neutral test. */
  method CheckBatch(es: seq<Entry>, basepoint: Ge, ghost base: Point) returns (ok: bool, neutral: bool)
    requires Fermat() && IsFull(basepoint, base) && AllFormed(es) && 4 <= |es| <= 64
    ensures ok <==> AllDecode(es)
    ensures ok ==> (neutral <==> BatchNeutral(es, base))
  {
    hide Fermat, BatchScalars, BatchPoints, AllFormed, AllDecode, BatchNeutral, Val, IsFull;
    var b := new BatchHeap(129, [0, 0, 0, 0, 0], NEUTRAL_GE);
    FillScalars(b.scalars, es);
    ok := FillPoints(b.points, es, basepoint, base);
    neutral := false;
    if ok {
      OnCurveFull(basepoint, base);
      neutral := RunBatch(b, es, base);
    }
  }

  method RunBatch(b: BatchHeap, es: seq<Entry>, ghost base: Point) returns (neutral: bool)
    requires Fermat() && OnCurve(base) && AllFormed(es) && 4 <= |es| && AllDecode(es)
    requires b.Shape() && Holds(b, BatchScalars(es), BatchPoints(es, base)) && AllCanonical(b.scalars[..])
    modifies b.heap, b.scalars, b.points, b`size, b`pos
    ensures neutral <==> BatchNeutral(es, base)
  {
    BatchBegins(es, base);
    BatchPointsIn(es, base);
    hide Fermat, OnCurve, BatchScalars, BatchPoints, Sum, ReachesShort, Outcome, AllDecode, AllFormed, HeapStart, Begins,
         Canonical, IsFull;
    ghost var v0, p0, n := BatchScalars(es), BatchPoints(es, base), HeapStart(2 * |es| + 1);
    var out := MultiScalarmult(b, 2 * |es| + 1, v0, p0);
    ghost var q := if Covers(es) then Outcome(Curve(), v0, p0) else Outcome(Curve(), v0[..n], p0[..n]);
    // a search that runs off the scalar leaves nothing to test
    neutral := false;
    if out.Some? {
      neutral := TestNeutral(out.value, q.value);
    }
  }

  method TestNeutral(p: Ge, ghost q: Point) returns (neutral: bool)
    requires Fermat() && IsFull(p, q)
    ensures neutral <==> q == NEUTRAL
  {
    neutral := IsNeutral(p, q);
  }

  ghost predicate Good(e: Entry, base: Point) {
    Accepts(e.m, e.pk, e.rs, base)
  }

  /** Where the entries begin that are too few for a batch. */
  function TailStart(num: nat): nat {
    if num % 64 <= 3 then num - num % 64 else num
  }

  /** A batch whose points decode and whose outcome is neutral, so that no signature of it is looked at. */
  ghost predicate Passes(es: seq<Entry>, base: Point) {
    AllFormed(es) && 4 <= |es| && AllDecode(es) && BatchNeutral(es, base)
  }

  /** A batch whose points decode, but whose outcome is not neutral. */
  ghost predicate Fails(es: seq<Entry>, base: Point) {
    AllFormed(es) && 4 <= |es| && AllDecode(es) && !BatchNeutral(es, base)
  }

  /** How a batch is settled: all flags are set if it passes, and each says whether that signature is good if not. */
  ghost predicate Settled(es: seq<Entry>, flags: seq<int>, base: Point) {
    && |flags| == |es|
    && forall i :: 0 <= i < |es| ==> flags[i] == if Passes(es, base) || Good(es[i], base) then 1 else 0
  }

  ghost predicate AllGood(es: seq<Entry>, base: Point) {
    forall i :: 0 <= i < |es| ==> Good(es[i], base)
  }

  /** Every flag says whether that signature is good. */
  ghost predicate Exact(es: seq<Entry>, flags: seq<int>, base: Point)
    requires |flags| == |es|
  {
    forall i :: 0 <= i < |es| ==> flags[i] == if Good(es[i], base) then 1 else 0
  }

  /** The flags of a batch are exact just when all its signatures are good or it does not pass. */
  lemma SettledExact(es: seq<Entry>, flags: seq<int>, base: Point)
    requires Settled(es, flags, base)
    ensures Exact(es, flags, base) <==> AllGood(es, base) || !Passes(es, base)
    ensures Passes(es, base) ==> forall i :: 0 <= i < |es| ==> flags[i] == 1
  {
    hide Passes, Good;
    if Exact(es, flags, base) && Passes(es, base) {
      forall i | 0 <= i < |es|
        ensures Good(es[i], base)
      {
        assert flags[i] == 1;
      }
    }
  }

  /** The same of a batch that the loop covers, in terms of the batch equation. */
  lemma CoveredExact(es: seq<Entry>, flags: seq<int>, base: Point)
    requires BatchDomain(base) && AllFormed(es) && 4 <= |es| && Covers(es) && Settled(es, flags, base)
    ensures Exact(es, flags, base) <==> AllGood(es, base) || !AllDecode(es) || !BatchHolds(es, base)
    ensures AllDecode(es) && BatchHolds(es, base) ==> forall i :: 0 <= i < |es| ==> flags[i] == 1
  {
    SettledExact(es, flags, base);
    hide BatchDomain, AllGood, AllDecode, BatchHolds, BatchNeutral, Exact, AllFormed, Covers;
    if AllDecode(es) {
      CoveredNeutral(es, base);
    }
  }

  /** The loop that checks signatures one by one, from entry `off` on. */
  method OneByOne(es: seq<Entry>, off: nat, n: nat, valid: array<int>, table: seq<Niels>, ghost base: Point)
    returns (bad: bool)
    requires Domain(base) && IsTable2(table, base) && AllFormed(es) && off + n <= |es| == valid.Length
    modifies valid
    ensures forall i :: 0 <= i < off || off + n <= i < |es| ==> valid[i] == old(valid[i])
    ensures forall i :: off <= i < off + n ==> valid[i] == if Good(es[i], base) then 1 else 0
    ensures bad <==> exists i :: off <= i < off + n && valid[i] == 0
  {
    hide Fermat, OnCurve, IsTable2, Accepts;
    bad := false;
    for i := 0 to n
      invariant forall k :: 0 <= k < off || off + i <= k < |es| ==> valid[k] == old(valid[k])
      invariant forall k :: off <= k < off + i ==> valid[k] == if Good(es[k], base) then 1 else 0
      invariant bad <==> exists k :: off <= k < off + i && valid[k] == 0
    {
      var e := es[off + i];
      var result := SignOpen(e.m, e.pk, e.rs, table, base);
      valid[off + i] := if result != 0 then 0 else 1;
      bad := bad || valid[off + i] == 0;
    }
  }

  /** One batch: the equation, or the fallback. */
  method SettleBatch(es: seq<Entry>, off: nat, n: nat, valid: array<int>, table: seq<Niels>, basepoint: Ge, ghost base: Point)
    returns (bad: bool, failed: bool)
    requires Domain(base) && IsTable2(table, base) && IsFull(basepoint, base)
    requires AllFormed(es) && off + n <= |es| == valid.Length && 4 <= n <= 64
    requires forall i :: off <= i < |es| ==> valid[i] == 1
    modifies valid
    ensures forall i :: 0 <= i < off || off + n <= i < |es| ==> valid[i] == old(valid[i])
    ensures Settled(es[off..off + n], valid[off..off + n], base)
    ensures Exact(es[off..off + n], valid[off..off + n], base)
       <==> AllGood(es[off..off + n], base) || !Passes(es[off..off + n], base)
    ensures bad <==> exists i :: off <= i < off + n && valid[i] == 0
    ensures failed <==> Fails(es[off..off + n], base)
  {
    hide Fermat, OnCurve, Mult, AllDecode, BatchNeutral, Good, IsTable2, IsFull, Exact, AllGood;
    var block := es[off..off + n];
    var ok, neutral := CheckBatch(block, basepoint, base);
    bad, failed := false, false;
    if ok && neutral {
      ghost var flags := valid[off..off + n];
      assert forall i :: 0 <= i < n ==> flags[i] == 1;
    } else {
      failed := ok;
      bad := OneByOne(es, off, n, valid, table, base);
      ghost var flags := valid[off..off + n];
      assert forall i :: 0 <= i < n ==> block[i] == es[off + i] && flags[i] == valid[off + i];
    }
    SettledExact(block, valid[off..off + n], base);
  }

  /** Where the batch that starts at entry k ends. */
  function EndOf(num: nat, k: nat): nat {
    if k + 64 <= num then k + 64 else num
  }

  /** A batch starts at entry k, or the few signatures after the last batch. */
  ghost predicate Starts(es: seq<Entry>, k: int) {
    0 <= k < |es| && k % 64 == 0
  }

  /** The entries from k on that are settled together. */
  function BatchAt(es: seq<Entry>, k: int): seq<Entry>
    requires 0 <= k <= |es|
  {
    es[k..EndOf(|es|, k)]
  }

  ghost predicate SettledAt(es: seq<Entry>, flags: seq<int>, k: int, base: Point)
    requires |flags| == |es| && 0 <= k <= |es|
  {
    Settled(BatchAt(es, k), flags[k..EndOf(|es|, k)], base)
  }

  /** What one flag says. */
  ghost predicate Sound(e: Entry, flag: int, base: Point) {
    flag == 1 || (flag == 0 && !Good(e, base))
  }

  lemma SettledSound(es: seq<Entry>, flags: seq<int>, off: nat, n: nat, base: Point)
    requires |flags| == |es| && off + n <= |es| && Settled(es[off..off + n], flags[off..off + n], base)
    ensures forall i :: off <= i < off + n ==> Sound(es[i], flags[i], base)
  {
    hide Accepts, Passes;
    forall i | off <= i < off + n
      ensures Sound(es[i], flags[i], base)
    {
      var j := i - off;
      assert es[off..off + n][j] == es[i] && flags[off..off + n][j] == flags[i];
    }
  }

  lemma SamePart(s: seq<int>, t: seq<int>, n: nat, a: nat, b: nat)
    requires a <= b <= n <= |s| == |t| && s[..n] == t[..n]
    ensures s[a..b] == t[a..b]
  {
    assert s[a..b] == s[..n][a..b];
    assert t[a..b] == t[..n][a..b];
  }

  /** Later batches leave the settled ones alone. */
  lemma SettledStays(es: seq<Entry>, old_: seq<int>, flags: seq<int>, off: nat, base: Point)
    requires |old_| == |flags| == |es| && off <= |es| && (off % 64 == 0 || off == |es|) && old_[..off] == flags[..off]
    requires forall k :: Starts(es, k) && k < off ==> SettledAt(es, old_, k, base)
    ensures forall k :: Starts(es, k) && k < off ==> SettledAt(es, flags, k, base)
  {
    hide Settled;
    forall k | Starts(es, k) && k < off
      ensures SettledAt(es, flags, k, base)
    {
      var end := EndOf(|es|, k);
      assert end <= off;
      SamePart(flags, old_, off, k, end);
      assert SettledAt(es, old_, k, base);
    }
  }

  /** What holds once the entries before `off` are settled. */
  ghost predicate Progress(es: seq<Entry>, flags: seq<int>, off: nat, bad: bool, failed: bool, base: Point) {
    && |flags| == |es| && off <= |es| && (off % 64 == 0 || off == |es|)
    && (forall i :: 0 <= i < off ==> Sound(es[i], flags[i], base))
    && (forall i :: off <= i < |es| ==> flags[i] == 1)
    && (forall k :: Starts(es, k) && k < off ==> SettledAt(es, flags, k, base))
    && (bad <==> exists i :: 0 <= i < off && flags[i] == 0)
    && (failed <==> exists k :: Starts(es, k) && k < off && Fails(BatchAt(es, k), base))
  }

  lemma ProgressStep(es: seq<Entry>, f: seq<int>, g: seq<int>, off: nat, n: nat,
                     bad: bool, b: bool, failed: bool, c: bool, base: Point)
    requires Progress(es, f, off, bad, failed, base) && |g| == |es| && 1 <= n <= 64 && off + n <= |es|
    requires n == 64 || off + n == |es|
    requires forall i :: 0 <= i < off || off + n <= i < |es| ==> g[i] == f[i]
    requires off % 64 == 0 && Settled(es[off..off + n], g[off..off + n], base)
    requires (b <==> exists i :: off <= i < off + n && g[i] == 0) && (c <==> Fails(es[off..off + n], base))
    ensures Progress(es, g, off + n, bad || b, failed || c, base)
  {
    hide Settled, Sound, Fails;
    SettledSound(es, g, off, n, base);
    assert Starts(es, off) && EndOf(|es|, off) == off + n;
    ProgressSettled(es, f, g, off, n, base);
    ProgressFails(es, off, n, failed, c, base);
    ProgressFlags(f, g, off, n, bad, b);
    hide SettledAt, BatchAt, Starts;
  }

  lemma ProgressSettled(es: seq<Entry>, f: seq<int>, g: seq<int>, off: nat, n: nat, base: Point)
    requires |f| == |g| == |es| && Starts(es, off) && 1 <= n <= 64 && EndOf(|es|, off) == off + n
    requires forall i :: 0 <= i < off ==> g[i] == f[i]
    requires forall k :: Starts(es, k) && k < off ==> SettledAt(es, f, k, base)
    requires Settled(es[off..off + n], g[off..off + n], base)
    ensures forall k :: Starts(es, k) && k < off + n ==> SettledAt(es, g, k, base)
  {
    assert SettledAt(es, g, off, base);
    hide Settled, SettledAt, BatchAt;
    assert f[..off] == g[..off];
    SettledStays(es, f, g, off, base);
    forall k | Starts(es, k) && k < off + n
      ensures SettledAt(es, g, k, base)
    {
      SameStart(k, off, n);
    }
  }

  lemma SameStart(k: int, off: int, n: int)
    requires k % 64 == 0 && off % 64 == 0 && k < off + n && n <= 64
    ensures k <= off
  {
  }

  lemma ProgressFails(es: seq<Entry>, off: nat, n: nat, failed: bool, c: bool, base: Point)
    requires Starts(es, off) && 1 <= n <= 64 && EndOf(|es|, off) == off + n
    requires failed <==> exists k :: Starts(es, k) && k < off && Fails(BatchAt(es, k), base)
    requires c <==> Fails(BatchAt(es, off), base)
    ensures failed || c <==> exists k :: Starts(es, k) && k < off + n && Fails(BatchAt(es, k), base)
  {
    hide Fails;
    hide BatchAt;
    if failed {
      var k :| Starts(es, k) && k < off && Fails(BatchAt(es, k), base);
      assert k < off + n;
    }
    if c {
      assert Starts(es, off) && Fails(BatchAt(es, off), base);
    }
    if k :| Starts(es, k) && k < off + n && Fails(BatchAt(es, k), base) {
      SameStart(k, off, n);
      hide Starts;
    }
  }

  lemma ProgressFlags(f: seq<int>, g: seq<int>, off: nat, n: nat, bad: bool, b: bool)
    requires |f| == |g| && off + n <= |g| && (forall i :: 0 <= i < off ==> g[i] == f[i])
    requires (bad <==> exists i :: 0 <= i < off && f[i] == 0) && (b <==> exists i :: off <= i < off + n && g[i] == 0)
    ensures bad || b <==> exists i :: 0 <= i < off + n && g[i] == 0
  {
    if bad {
      var i :| 0 <= i < off && f[i] == 0;
      assert g[i] == 0;
    }
  }

  /**
   What ed25519_sign_open_batch leaves: every batch settled, a result whose bit 0 says whether
   any flag is cleared, and whose bit 1 says whether any batch fails its test. The entries after
   the last full batch form one of their own; if they are fewer than four it neither passes nor fails.
   */
  ghost predicate Verdict(es: seq<Entry>, flags: seq<int>, ret: int, base: Point) {
    && |flags| == |es| && 0 <= ret <= 3
    && (forall k :: Starts(es, k) ==> SettledAt(es, flags, k, base))
    && (ret % 2 == 1 <==> exists i :: 0 <= i < |es| && flags[i] == 0)
    && (ret / 2 == 1 <==> exists k :: Starts(es, k) && Fails(BatchAt(es, k), base))
  }

  /** ed25519_sign_open_batch */
  method SignOpenBatch(es: seq<Entry>, valid: array<int>, table: seq<Niels>, basepoint: Ge, ghost base: Point) returns (ret: int)
    requires Domain(base) && IsTable2(table, base) && IsFull(basepoint, base) && AllFormed(es) && valid.Length == |es|
    modifies valid
    ensures Verdict(es, valid[..], ret, base)
    ensures ret % 2 == 1 <==> exists i :: 0 <= i < |es| && valid[i] == 0
    ensures ret % 2 == 1 <==>
            exists k, i :: Starts(es, k) && k <= i < EndOf(|es|, k) && !Passes(BatchAt(es, k), base) && !Good(es[i], base)
    ensures ret / 2 == 1 <==> exists k :: Starts(es, k) && Fails(BatchAt(es, k), base)
    ensures forall i :: 0 <= i < |es| ==> Sound(es[i], valid[i], base)
    ensures forall i :: TailStart(|es|) <= i < |es| ==> valid[i] == if Good(es[i], base) then 1 else 0
  {
    hide Domain, Settled, SettledAt, Fails, Good, IsTable2, AllFormed, IsFull;
    forall i | 0 <= i < |es| {
      valid[i] := 1;
    }
    var num, off: nat := |es|, 0;
    var bad, failed := false, false;
    while num > 3
      invariant off + num == |es| && Progress(es, valid[..], off, bad, failed, base) && Between(off, num)
    {
      var batchsize := if num > 64 then 64 else num;
      ghost var f := valid[..];
      var b, c := SettleBatch(es, off, batchsize, valid, table, basepoint, base);
      ProgressStep(es, f, valid[..], off, batchsize, bad, b, failed, c, base);
      bad, failed := bad || b, failed || c;
      off, num := off + batchsize, num - batchsize;
    }
    var last := LastFew(es, off, num, valid, table, base, bad, failed);
    bad := bad || last;
    ret := (if bad then 1 else 0) + (if failed then 2 else 0);
    BitZero(es, valid[..], ret, base);
  }

  /** Between batches, `num` entries are left from entry `off` on. */
  ghost predicate Between(off: nat, num: nat) {
    off % 64 == 0 || (num == 0 && off % 64 > 3)
  }

  lemma TailIs(off: nat, num: nat)
    requires Between(off, num) && num <= 3
    ensures TailStart(off + num) == off
  {
  }

  /** The signatures after the last batch. */
  method LastFew(es: seq<Entry>, off: nat, num: nat, valid: array<int>, table: seq<Niels>, ghost base: Point,
                 ghost bad: bool, ghost failed: bool) returns (last: bool)
    requires Domain(base) && IsTable2(table, base) && AllFormed(es) && valid.Length == |es| == off + num && num <= 3
    requires Progress(es, valid[..], off, bad, failed, base) && Between(off, num)
    modifies valid
    ensures Progress(es, valid[..], |es|, bad || last, failed, base)
    ensures forall i :: TailStart(|es|) <= i < |es| ==> valid[i] == if Good(es[i], base) then 1 else 0
  {
    TailIs(off, num);
    hide Domain, IsTable2, Good, Progress, TailStart;
    ghost var f := valid[..];
    last := OneByOne(es, off, num, valid, table, base);
    ghost var g := valid[..];
    if num > 0 {
      FewSettled(es, g, off, num, base);
      ProgressStep(es, f, g, off, num, bad, last, failed, false, base);
    } else {
      assert g == f;
    }
  }

  lemma FewSettled(es: seq<Entry>, g: seq<int>, off: nat, num: nat, base: Point)
    requires |g| == |es| == off + num && num <= 3
    requires forall i :: off <= i < |es| ==> g[i] == if Good(es[i], base) then 1 else 0
    ensures Settled(es[off..off + num], g[off..off + num], base) && !Fails(es[off..off + num], base)
  {
    hide Good;
    var flags, block := g[off..off + num], es[off..off + num];
    assert forall i :: 0 <= i < num ==> block[i] == es[off + i] && flags[i] == g[off + i];
  }

  /** Every entry belongs to one batch. */
  lemma BatchOf(es: seq<Entry>, flags: seq<int>, i: nat)
    requires |flags| == |es| && i < |es|
    ensures var k, j := i - i % 64, i % 64;
      && Starts(es, k) && j < |BatchAt(es, k)|
      && BatchAt(es, k)[j] == es[i] && flags[k..EndOf(|es|, k)][j] == flags[i]
  {
  }

  /** All flags are exact just when in every batch all signatures are good or the batch does not pass. */
  lemma VerdictExact(es: seq<Entry>, flags: seq<int>, ret: int, base: Point)
    requires Verdict(es, flags, ret, base)
    ensures Exact(es, flags, base) <==>
            forall k :: Starts(es, k) ==> AllGood(BatchAt(es, k), base) || !Passes(BatchAt(es, k), base)
  {
    hide Good, Passes, Settled, AllGood, BatchAt;
    if Exact(es, flags, base) {
      forall k | Starts(es, k)
        ensures AllGood(BatchAt(es, k), base) || !Passes(BatchAt(es, k), base)
      {
        assert SettledAt(es, flags, k, base);
        ExactPart(es, flags, k, base);
        SettledExact(BatchAt(es, k), flags[k..EndOf(|es|, k)], base);
      }
    }
    if forall k :: Starts(es, k) ==> AllGood(BatchAt(es, k), base) || !Passes(BatchAt(es, k), base) {
      forall i | 0 <= i < |es|
        ensures flags[i] == if Good(es[i], base) then 1 else 0
      {
        var k := i - i % 64;
        BatchOf(es, flags, i);
        assert SettledAt(es, flags, k, base);
        SettledExact(BatchAt(es, k), flags[k..EndOf(|es|, k)], base);
      }
    }
  }

  lemma ExactPart(es: seq<Entry>, flags: seq<int>, k: nat, base: Point)
    requires |flags| == |es| && Starts(es, k) && Exact(es, flags, base)
    ensures Exact(BatchAt(es, k), flags[k..EndOf(|es|, k)], base)
  {
    hide Good;
    var block, part := BatchAt(es, k), flags[k..EndOf(|es|, k)];
    assert forall j :: 0 <= j < |block| ==> block[j] == es[k + j] && part[j] == flags[k + j];
  }

  /** Good signatures have their flags set, whatever batches they are in. */
  lemma GoodFlags(es: seq<Entry>, flags: seq<int>, ret: int, base: Point)
    requires Verdict(es, flags, ret, base) && AllGood(es, base)
    ensures forall i :: 0 <= i < |es| ==> flags[i] == 1
    ensures ret == if exists k :: Starts(es, k) && Fails(BatchAt(es, k), base) then 2 else 0
  {
    hide Good, Passes, Fails, BatchAt;
    forall i | 0 <= i < |es|
      ensures flags[i] == 1
    {
      BatchOf(es, flags, i);
      assert SettledAt(es, flags, i - i % 64, base);
    }
  }

  /** The flag of entry i, by the batch it is in. */
  lemma FlagOf(es: seq<Entry>, flags: seq<int>, ret: int, i: nat, base: Point)
    requires Verdict(es, flags, ret, base) && i < |es|
    ensures var k := i - i % 64;
      Starts(es, k) && k <= i < EndOf(|es|, k) &&
      flags[i] == if Passes(BatchAt(es, k), base) || Good(es[i], base) then 1 else 0
  {
    hide Good, Passes, Fails;
    BatchOf(es, flags, i);
    assert SettledAt(es, flags, i - i % 64, base);
  }

  lemma StartOfEntry(es: seq<Entry>, k: int, i: int)
    requires Starts(es, k) && k <= i < EndOf(|es|, k)
    ensures 0 <= i < |es| && k == i - i % 64
  {
  }

  /** Bit 0: some batch does not pass and has a signature that is not good. */
  lemma BitZero(es: seq<Entry>, flags: seq<int>, ret: int, base: Point)
    requires Verdict(es, flags, ret, base)
    ensures ret % 2 == 1 <==>
            exists k, i :: Starts(es, k) && k <= i < EndOf(|es|, k) && !Passes(BatchAt(es, k), base) && !Good(es[i], base)
  {
    hide Good, Passes, Fails, Settled;
    if ret % 2 == 1 {
      var i :| 0 <= i < |es| && flags[i] == 0;
      FlagOf(es, flags, ret, i, base);
      var k := i - i % 64;
      assert Starts(es, k) && k <= i < EndOf(|es|, k) && !Passes(BatchAt(es, k), base) && !Good(es[i], base);
    }
    if k, i :| Starts(es, k) && k <= i < EndOf(|es|, k) && !Passes(BatchAt(es, k), base) && !Good(es[i], base) {
      StartOfEntry(es, k, i);
      FlagOf(es, flags, ret, i, base);
    }
  }

  /** A list of at most three is decided one by one. */
  lemma SmallList(es: seq<Entry>, flags: seq<int>, ret: int, base: Point)
    requires |es| <= 3 && Verdict(es, flags, ret, base)
    ensures Exact(es, flags, base) && ret == if AllGood(es, base) then 0 else 1
  {
    hide Good;
    forall i | 0 <= i < |es|
      ensures flags[i] == if Good(es[i], base) then 1 else 0
    {
      FlagOf(es, flags, ret, i, base);
    }
    if !AllGood(es, base) {
      var i :| 0 <= i < |es| && !Good(es[i], base);
      assert flags[i] == 0;
    }
  }

  /** And so are up to three signatures that follow whole batches of 64. */
  lemma TailExact(es: seq<Entry>, flags: seq<int>, ret: int, i: nat, base: Point)
    requires Verdict(es, flags, ret, base) && |es| % 64 <= 3 && |es| - |es| % 64 <= i < |es|
    ensures flags[i] == if Good(es[i], base) then 1 else 0
  {
    hide Good, Verdict, BatchNeutral, AllDecode, AllFormed;
    FlagOf(es, flags, ret, i, base);
    TailSize(|es|, i);
  }

  lemma TailSize(num: nat, i: nat)
    requires num % 64 <= 3 && num - num % 64 <= i < num
    ensures EndOf(num, i - i % 64) - (i - i % 64) <= 3
  {
  }
}
