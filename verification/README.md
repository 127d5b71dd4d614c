# A Dafny model of ed25519-donna

This project models the 64-bit Ed25519 implementation in `src/ed25519-donna`: the
51-bit field arithmetic, the point formulas, point compression, scalar arithmetic
modulo the group order, the two signed-digit recodings, both scalar
multiplications, the streaming SHA-512, signing and verification, the base-point
multiplication for Curve25519, and batch verification by Bos-Carter multi-scalar
multiplication. Each routine is proved
against an independent specification: integers modulo p or m, the affine
twisted Edwards group, SHA-512 as FIPS 180-4 writes it, keys and signatures as RFC 8032
makes them, X25519 as RFC 7748 writes it. Verification is compared with RFC 8032, from
which it differs, exactly. The layers compose, so that the contract of `Signature.SignOpen`, for
example, rests on the limb-level code all the way down. `Ed25519` puts them together with the
constants and tables that the library carries. The standards' own definitions are tied to what they
publish: SHA-512 to its constants' definition and its example, keys and signatures to a test vector.

`dafny verify dfyconfig.toml` checks everything.

## How the proof is laid out

| file | contents |
|---|---|
| `Arith`, `Options`, `Bytes`, `Bits`, `Gcd` | integer facts, little-endian strings, bitwise operations and masked selections, greatest common divisors |
| `Group`, `ModP`, `PrimeField`, `NonResidue` | abelian groups and multiples, congruence mod p, the field of integers mod p, and why d is not a square in it |
| `Edwards`, `Associativity`, `CurveGroup`, `Projective` | the affine curve and its addition law, the polynomial identity behind associativity, the group, projective formulas |
| `Field`, `FieldBytes`, `Chain` | curve25519-donna-64bit.h and curve25519-donna-helpers.h |
| `Points`, `BasePoint`, `Compression`, `Encoding`, `ScalarMult`, `BaseMult` | ed25519-donna-impl-base.h |
| `Scalars`, `ModM`, `ScalarBytes`, `Recoding`, `SlidingWindow` | modm-donna-64bit.h |
| `Sha512Standard`, `Sha512` | FIPS 180-4, and ed25519-hash.h against it |
| `Sha512Words`, `Sha512Constants`, `Sha512Examples` | the definition of FIPS 180-4 evaluated: word by word and round by round, where its constants come from, and its one-block example |
| `Signature`, `StandardVerification` | ed25519.c, and its verification compared with section 5.1.7 of RFC 8032 |
| `BasePowers`, `GroupOrder` | multiples of the base point, worked out, and its order |
| `TableSteps`, `SlidingTable`, `BaseTable` | the two tables of ed25519-donna-64bit-tables.h and ed25519-donna-basepoint-table.h, entry by entry |
| `WordValues`, `SigningSteps`, `SigningHashes`, `SigningMultiples`, `SigningExample` | a test vector of section 7.1 of RFC 8032, derived from the definitions |
| `Montgomery`, `X25519`, `Curve25519` | the map to Curve25519, the ladder of RFC 7748, and the last function of ed25519.c |
| `BatchHeap`, `FinalScalar`, `MultiScalar`, `MultiScalarmult`, `Batch` | ed25519-donna-batchverify.h: heap and final step, what the loop keeps, the loop on limbs, the whole call |
| `BatchEquation`, `BatchLists` | what the batch test says of good signatures, and how the result of a list comes from its batches |
| `UnreducedResponses`, `EarlyEnd`, `SmallOrderKeys` | inputs: where the batch test parts from the single check, where the loop ends early, and what keys of small order show |
| `Ed25519` | the functions of ed25519.h, with the constants filled in |
| `generate.py` | writes the modules that consist of long literal computations (`Sha512Constants`, `Sha512Examples`, `BasePowers`, `GroupOrder`, `SlidingTable`, `BaseTable`, `SigningHashes`, `SigningMultiples`, `SigningExample`); Dafny checks every number in them |

Machine words are integers with their range in the type (`u64`, `u128`): an
assignment that could wrap does not verify. Where the code relies on wrap-around
or truncation, it is written out (`% W64`).

### What is assumed

The hypotheses are predicates in `requires` clauses, never axioms.

- `PrimeField.Fermat`: a^(p-1) == 1 modulo p for a that p does not divide (p is prime).
  From this alone follow that d is not a square (`NonResidue.NotRatio`), that the
  addition law is complete, closed and associative, that the curve is an abelian
  group, all point formulas, and compression in both directions.
- `Batch.BatchDomain`, for what the batch equation says: m is prime and 8m annihilates the curve.

The routines are proved for any base point of order dividing m (`Signature.Domain`) and any tables of its
multiples (`ScalarMult.IsTable2`, `BaseMult.IsBaseTable`; the first eight rows of the latter hold 2xy where the
others hold 2dxy, as the code uses them). For the base point and the tables of the library these follow from
`Fermat` (`GroupOrder.BaseDomain`, `SlidingTable.MultiplesAre`, `BaseTable.BaseTableIs`), so `Fermat` is all that
the methods of `Ed25519` require.

### Where the code differs from what is said about it

- `curve25519_square_times` raises to the power 2^count; its comment says 2 * count.
- The final step of multi-scalar multiplication starts from the point itself and
  also processes the leading bit, so it returns [2^n + s]P with n the bit
  length of s. `FinalScalar.FinalExact` says exactly when that is [s]P; for s = 2 and the
  base point it is not (`EarlyEnd.FinalExample`). The neutral test that follows agrees
  with the one on [s]P for s below 2^224 (`FinalScalar.NeutralAgrees`).
  It looks at limbs 0 to 3 only, and if those are zero and limb 4 is not, its
  search leaves the array; the model returns `None` there.
- The multi-scalar loop can end before it takes in the 128-bit scalars. It
  gets to them exactly when at least two of the scalars it starts with are nonzero
  and their greatest common divisor is below 2^128. What it returns is determined
  either way: the final step for the greatest common divisor of the scalars it got to and
  the sum of their quotients by it (`MultiScalars.MultiScalarmult`, `BosCarter.KeptExit`).
  When all are taken in, the neutral test is a test of the whole sum
  (`BosCarter.OutcomeNeutral`). When they are not, a batch can pass whose equation does not
  hold: `EarlyEnd.EarlyExample` is a list of four.
- The repository's README promises `valid[i]` = 1 exactly for valid signatures. Cleared
  flags are right. All flags are right exactly when in every batch all signatures are good
  or the batch does not pass its test (`Batch.VerdictExact`; `Batch.CoveredExact` in terms of
  the batch equation). Two ways to a wrong flag are shown. The equation takes S modulo m, and the single check also
  rejects S of 2^253 or more: a covered batch of good signatures under keys of order
  dividing m still passes with S + 2m in place of one S below m
  (`UnreducedResponses.UnreducedPasses`; `UnreducedResponses.UnreducedExample`
  is a list of five that is accepted with one signature that is not good). And a batch that the loop
  leaves early, for certain random values, is tested in part: under neutral keys it passes when the responses cancel and all hash
  weights but the first vanish (`EarlyEnd.NeutralKeysPass`; `EarlyEnd.EarlyExample` is accepted with no good signature).
- The same README takes result 0 to mean that all are valid. The result is 0 exactly when every batch
  passes its test, the last few entries being good if they are fewer than four
  (`BatchEquation.ZeroResult`). A covered list of good signatures gives 2, with all flags set, exactly when in some
  batch the multiples of m dropped from the weighted hashes do not cancel on the keys
  (`BatchEquation.GoodList`), and 0 if the keys have order dividing m (`BatchEquation.SincereList`). One
  key of order two is enough for 2 if an odd multiple was dropped (`SmallOrderKeys.KeyLeftList`;
  `SmallOrderKeys.UnbalancedExample` is a list of five, for every message with an even hash of at least 2^126).
- Section 5.1.7 of RFC 8032 rejects S of m or more and keys that it does not decode, and multiplies its equation
  by eight or, as it allows, does not. For S below m and keys that it decodes, the code makes the test without the
  factor (`StandardVerification.PlainExact`); with the factor, the standard also accepts
  signatures whose defect eight annihilates (`StandardVerification.StandardExact`). The code takes S
  modulo m below 2^253 and nothing above (`StandardVerification.ResponseReduced`, `StandardVerification.AcceptedRange`), so S + m is
  accepted too (`StandardVerification.LargerResponse`), and it takes every key that unpacks
  (`SmallOrderKeys.LooseKeyExample`). `SmallOrderKeys.CofactorExample` is accepted by the standard only.
- Unpacking accepts y in p..2^255-1 and x = 0 with the sign bit set, which
  section 5.1.3 of RFC 8032 rejects, and differs from it in nothing else
  (`Compression.StandardDecoding`; `Compression.UnreducedY` and `Compression.SignedZero` are inputs).

## Model

| member | source | states |
|---|---|---|
| `Field.Mul` | src/ed25519-donna/curve25519-donna-64bit.h:106-171 | for all limbs below 2^54 nothing wraps, the result is congruent to the product mod p, and its limbs are below 2^51, limb 1 below 2^51 + 2^13 |
| `Field.MulColumns` | src/ed25519-donna/curve25519-donna-64bit.h:114-155 | the five 128-bit sums are the columns of the product, the high ones folded in times 19 |
| `Field.CarryChain` | src/ed25519-donna/curve25519-donna-64bit.h:158-170 | carrying keeps the residue mod p and leaves limbs below 2^51, limb 1 below 2^51 + 2^13 |
| `Field.Fold` | src/ed25519-donna/curve25519-donna-64bit.h:140-155 | folding the columns above 2^255 times 19 keeps the residue mod p |
| `Field.Square` | src/ed25519-donna/curve25519-donna-64bit.h:236-284 | as Mul, for in^2 with its shared products |
| `Field.SquareRound` | src/ed25519-donna/curve25519-donna-64bit.h:194-227 | one squaring with parallel carries, no bit lost in the 13-bit shift |
| `Field.SquareTimes` | src/ed25519-donna/curve25519-donna-64bit.h:178-234 | in^(2^count) mod p for every count of at least 1, limbs bounded again |
| `Field.Add` | src/ed25519-donna/curve25519-donna-64bit.h:26-43 | the exact sum, and the bound of its limbs from those of the operands |
| `Field.AddReduce` | src/ed25519-donna/curve25519-donna-64bit.h:45-54 | the sum mod p with limbs bounded as after a multiplication |
| `Field.Sub` | src/ed25519-donna/curve25519-donna-64bit.h:62-70 | no limb borrows when the subtrahend is under 2p limb by limb; the difference mod p |
| `Field.SubAfterBasic` | src/ed25519-donna/curve25519-donna-64bit.h:72-80 | the same with 4p |
| `Field.SubReduce` | src/ed25519-donna/curve25519-donna-64bit.h:82-91 | the difference mod p with limbs bounded as after a multiplication |
| `Field.Neg` | src/ed25519-donna/curve25519-donna-64bit.h:93-103 | the negative mod p, limbs bounded |
| `FieldBytes.Expand` | src/ed25519-donna/curve25519-donna-64bit.h:286-319 | the low 255 bits of the string, in limbs below 2^51 |
| `FieldBytes.Contract` | src/ed25519-donna/curve25519-donna-64bit.h:321-373 | for all limbs below 2^63, the 32 bytes of the residue below p |
| `FieldBytes.Freeze` | src/ed25519-donna/curve25519-donna-64bit.h:329-363 | two carries, an offset of 19 and a masked offset leave exactly the value mod p |
| `FieldBytes.ExpandContract` | src/ed25519-donna/curve25519-donna-64bit.h:286-373 | contracting an expanded string gives it back if and only if it encodes a number below p |
| `Chains.PowTwo250` | src/ed25519-donna/curve25519-donna-helpers.h:8-31 | from z^(2^5-1) to z^(2^250-1) |
| `Chains.Recip` | src/ed25519-donna/curve25519-donna-helpers.h:33-49 | z^(p-2), for all limbs that multiplications accept, with limbs bounded as after one |
| `Chains.PowTwo252m3` | src/ed25519-donna/curve25519-donna-helpers.h:51-67 | z^((p-5)/8), for all limbs that multiplications accept, with limbs bounded as after one |
| `NonResidue.NotRatio` | src/ed25519-donna/ed25519-donna-64bit-tables.h:8-10 | d is not a ratio of two squares modulo p, which completeness and unpacking rely on |
| `Edwards.Complete` | src/ed25519-donna/ed25519-donna.h:75-79 | neither denominator of the addition law vanishes on the curve |
| `Edwards.Closed` | src/ed25519-donna/ed25519-donna.h:75-79 | the sum of two curve points is a curve point |
| `Associativity.CrossX` | src/ed25519-donna/ed25519-donna.h:75-79 | cross-multiplied, the two ways to add three points have the same x, whenever the points satisfy the curve equation |
| `Associativity.CrossY` | src/ed25519-donna/ed25519-donna.h:75-79 | the same for y |
| `CurveGroup.PlusAssoc` | src/ed25519-donna/ed25519-donna.h:75-79 | the affine law is associative on the curve |
| `CurveGroup.CurveIsAbelian` | src/ed25519-donna/ed25519-donna.h:75-79 | the points form an abelian group under the affine law |
| `Projective.SumFormulas` | src/ed25519-donna/ed25519-donna-impl-base.h:32-51 | the extended addition formulas are the affine sum, as a completed point with nonzero denominators |
| `Projective.DoubleFormulas` | src/ed25519-donna/ed25519-donna-impl-base.h:53-67 | the doubling formulas are the affine double, for points on the curve |
| `Projective.FromCompleted` | src/ed25519-donna/ed25519-donna-impl-base.h:5-18 | the products of completed coordinates stand for the same point, with T = xyZ |
| `Projective.ExtendedRelation` | src/ed25519-donna/ed25519-donna-impl-base.h:12-18 | the fourth coordinate is right if and only if XY = ZT |
| `Points.Constants` | src/ed25519-donna/ed25519-donna-64bit-tables.h:8-14 | the limbs of d and 2d |
| `BasePoint.BaseOnCurve` | src/ed25519-donna/ed25519-donna-64bit-tables.h:1-6 | the base point is on the curve, with y = 4/5 and even x |
| `BasePoint.BasepointIs` | src/ed25519-donna/ed25519-donna-64bit-tables.h:1-6 | the limbs of the constant stand for it in all four coordinates |
| `BasePowers.Doubled` | src/ed25519-donna/ed25519-donna-64bit-tables.h:1-6 | a point that meets the cleared doubling equations is twice the multiple |
| `BasePowers.Added` | src/ed25519-donna/ed25519-donna-64bit-tables.h:1-6 | a point that meets the cleared addition equations is the sum of two multiples |
| `SlidingTable.MultiplesAre` | src/ed25519-donna/ed25519-donna-64bit-tables.h:20-53 | the 32 entries, in limbs, are y - x, y + x and 2dxy of the odd multiples 1 to 63 of the base point |
| `BaseTable.BaseTableIs` | src/ed25519-donna/ed25519-donna-basepoint-table.h:1-259 | row 8 i + j of the 256, in bytes, is y - x, y + x and 2dxy (2xy in the first eight) of (j + 1) 256^i times the base point |
| `Points.ToPartial` | src/ed25519-donna/ed25519-donna-impl-base.h:5-10 | the same point in three coordinates; the fourth is left as it was |
| `Points.ToFull` | src/ed25519-donna/ed25519-donna-impl-base.h:12-18 | the same point in four coordinates |
| `Points.FullToPniels` | src/ed25519-donna/ed25519-donna-impl-base.h:20-26 | the point prepared as a second operand |
| `Points.AddP1p1` | src/ed25519-donna/ed25519-donna-impl-base.h:32-51 | limbs in bounds at every call, and the result stands for the affine sum |
| `Points.DoubleP1p1` | src/ed25519-donna/ed25519-donna-impl-base.h:53-67 | limbs in bounds at every call, and the result stands for the affine double |
| `Points.NielsAdd2P1p1` | src/ed25519-donna/ed25519-donna-impl-base.h:69-86 | adds the prepared point or, with the sign bit, its inverse |
| `Points.PnielsAddP1p1` | src/ed25519-donna/ed25519-donna-impl-base.h:88-106 | the same for a projective second operand |
| `Points.DoublePartial` | src/ed25519-donna/ed25519-donna-impl-base.h:108-113 | the double in three coordinates |
| `Points.Double` | src/ed25519-donna/ed25519-donna-impl-base.h:115-120 | the double in four coordinates, from three |
| `Points.AddFull` | src/ed25519-donna/ed25519-donna-impl-base.h:122-127 | the sum in four coordinates |
| `Points.NielsAdd2` | src/ed25519-donna/ed25519-donna-impl-base.h:129-147 | the sum with a prepared affine point |
| `Points.PnielsAdd` | src/ed25519-donna/ed25519-donna-impl-base.h:149-172 | the sum with a prepared point, prepared again |
| `Compression.DecompressSound` | src/ed25519-donna/ed25519-donna-impl-base.h:191-239 | whatever unpacks is a curve point with y the low 255 bits mod p, and x of the opposite parity to the sign bit unless zero |
| `Compression.RootComplete` | src/ed25519-donna/ed25519-donna-impl-base.h:206-230 | for the y of any curve point a root is found, and it is x or -x |
| `Compression.CandidateWorks` | src/ed25519-donna/ed25519-donna-impl-base.h:206-217 | the candidate's square times den is num or -num whenever num/den is a square |
| `Compression.DecompressEncode` | src/ed25519-donna/ed25519-donna-impl-base.h:179-239 | unpacking a packed point gives its inverse, for every curve point |
| `Compression.EncodeDecompress` | src/ed25519-donna/ed25519-donna-impl-base.h:179-239 | packing an unpacked string gives it back with bit 255 exchanged if and only if y < p and the sign bit is set in case y^2 = 1 |
| `Compression.StandardDecoding` | src/ed25519-donna/ed25519-donna-impl-base.h:191-239 | some curve point has the string as its encoding if and only if it unpacks, y < p and the sign bit is clear in case y^2 = 1 |
| `Compression.DecompressDomain` | src/ed25519-donna/ed25519-donna-impl-base.h:191-239 | unpacking succeeds if and only if some curve point has that y modulo p |
| `Compression.UnreducedY` | src/ed25519-donna/ed25519-donna-impl-base.h:191-239 | y = p + 1 unpacks and encodes no point |
| `Compression.SignedZero` | src/ed25519-donna/ed25519-donna-impl-base.h:191-239 | y = 1 with the sign bit unpacks and encodes no point |
| `Compression.EncodeInjective` | src/ed25519-donna/ed25519-donna-impl-base.h:179-189 | different curve points have different encodings |
| `Compression.RootZero` | src/ed25519-donna/ed25519-donna-impl-base.h:232-236 | the root is zero if and only if y^2 = 1 |
| `Encoding.Verify` | src/ed25519-donna/ed25519-donna.h:63-72 | collecting the differing bits decides equality |
| `Encoding.Pack` | src/ed25519-donna/ed25519-donna-impl-base.h:179-189 | the encoding of the point, whatever coordinates stand for it |
| `Encoding.SignByte` | src/ed25519-donna/ed25519-donna-impl-base.h:188-188 | the masked exclusive or exchanges bit 7 just when the parity is odd |
| `Encoding.CandidateRoot` | src/ed25519-donna/ed25519-donna-impl-base.h:199-217 | num, den and the candidate root as field elements, limbs in bounds |
| `Encoding.ChooseRoot` | src/ed25519-donna/ed25519-donna-impl-base.h:219-230 | succeeds if and only if a root exists, and returns it |
| `Encoding.IsZeroMod` | src/ed25519-donna/ed25519-donna-impl-base.h:222-224 | contracting and comparing with zero bytes tests for zero mod p |
| `Encoding.FixSign` | src/ed25519-donna/ed25519-donna-impl-base.h:232-236 | the root of the parity opposite to the sign bit, or zero |
| `Encoding.UnpackNegative` | src/ed25519-donna/ed25519-donna-impl-base.h:191-239 | succeeds if and only if the string decompresses; then Z = 1 and the limbs stand for that point, T included |
| `Encoding.IsNeutral` | src/ed25519-donna/ed25519-donna-batchverify.h:193-202 | true if and only if the point is neutral |
| `Bits.Copied` | src/ed25519-donna/modm-donna-64bit.h:55-62 | the masked exclusive or copies one word just when the borrow is clear |
| `Bits.Moved` | src/ed25519-donna/curve25519-donna-64bit.h:377-395 | the masked and-or copies one word just when the flag is set |
| `Bits.Swapped` | src/ed25519-donna/curve25519-donna-64bit.h:397-408 | the masked exclusive ors exchange two words just when the flag is set |
| `Bits.WindowEqualIs` | src/ed25519-donna/ed25519-donna-impl-base.h:298-301 | the borrow bit decides equality |
| `Bits.Absolute` | src/ed25519-donna/ed25519-donna-impl-base.h:306-308 | the sign bit and the masked form give sign and absolute value of a signed byte |
| `Bits.ClampLow` | src/ed25519-donna/ed25519.c:29-29 | the first clamping mask, as arithmetic on the byte |
| `Bits.ClampHigh` | src/ed25519-donna/ed25519.c:30-31 | the other two clamping masks, as arithmetic on the byte |
| `Bits.TopThreeBits` | src/ed25519-donna/ed25519.c:100-100 | the test on the last byte of S, as a comparison |
| `ModM.Constants` | src/ed25519-donna/modm-donna-64bit.h:11-35 | the limbs of m and mu, m = 2^252 + 27742317777372353535851937790883648493 as RFC 8032 has it, and mu = floor(2^512 / m) |
| `GroupOrder.BaseOrder` | src/ed25519-donna/modm-donna-64bit.h:11-27 | m times the base point of the tables is the neutral element, by a chain of doublings and additions |
| `GroupOrder.BaseDomain` | src/ed25519-donna/modm-donna-64bit.h:11-27 | what signing and checking are proved under holds for the base point |
| `ModM.Lt` | src/ed25519-donna/modm-donna-64bit.h:37-40 | the sign bit of the wrapped difference compares words below 2^63 |
| `ModM.SubLimbs` | src/ed25519-donna/modm-donna-64bit.h:47-53 | the borrow chain compares and subtracts |
| `ModM.Replace` | src/ed25519-donna/modm-donna-64bit.h:55-62 | the masked exchange of five limbs is a conditional copy |
| `ModM.Reduce` | src/ed25519-donna/modm-donna-64bit.h:42-63 | takes m away exactly when it fits |
| `ModM.Dropped` | src/ed25519-donna/modm-donna-64bit.h:71-75 | the columns left out weigh less than 2^226 |
| `ModM.Estimate` | src/ed25519-donna/modm-donna-64bit.h:71-85 | the quotient estimate is mu q1 / 2^264 rounded down, but for the dropped columns |
| `ModM.QuotientRange` | src/ed25519-donna/modm-donna-64bit.h:65-107 | the estimate is never too large and at most two too small |
| `ModM.TimesModulus` | src/ed25519-donna/modm-donna-64bit.h:87-96 | q3 m modulo 2^264 |
| `ModM.Barrett` | src/ed25519-donna/modm-donna-64bit.h:65-107 | exactly x mod m for every x below 2^512 |
| `ModM.Add` | src/ed25519-donna/modm-donna-64bit.h:110-121 | x + y mod m for sums below 2m |
| `ModM.ColumnsExact` | src/ed25519-donna/modm-donna-64bit.h:129-145 | the columns added up in that order are the product |
| `ModM.HighPart` | src/ed25519-donna/modm-donna-64bit.h:137-147 | the carried columns shifted down by 248 bits |
| `ModM.LowPart` | src/ed25519-donna/modm-donna-64bit.h:129-138 | the carried low columns are the product modulo 2^264 |
| `ModM.Mul` | src/ed25519-donna/modm-donna-64bit.h:123-150 | xy mod m for products below 2^512 |
| `ScalarBytes.Expand` | src/ed25519-donna/modm-donna-64bit.h:152-187 | the little-endian value mod m for every length up to 64 |
| `ScalarBytes.ExpandRaw` | src/ed25519-donna/modm-donna-64bit.h:189-203 | the little-endian value of 32 bytes |
| `ScalarBytes.Contract` | src/ed25519-donna/modm-donna-64bit.h:205-211 | the 32 bytes of a scalar below 2^256 |
| `Recoding.Spread` | src/ed25519-donna/modm-donna-64bit.h:219-226 | the plain digits of the limbs stand for the scalar |
| `Recoding.Fill` | src/ed25519-donna/modm-donna-64bit.h:222-225 | the digits of one limb, and the earlier digits unchanged |
| `Recoding.MakeSigned` | src/ed25519-donna/modm-donna-64bit.h:228-236 | the signing loop keeps the value, with one carry left over |
| `Recoding.SignStepKeeps` | src/ed25519-donna/modm-donna-64bit.h:230-236 | one step of the signing loop keeps the value and the ranges |
| `Recoding.Window4` | src/ed25519-donna/modm-donna-64bit.h:213-238 | 64 digits that add up to the scalar, at least -8 and below 8, and the last at most 8 below 2^255 |
| `SlidingWindow.Propagate` | src/ed25519-donna/modm-donna-64bit.h:268-274 | the carry loop adds one power of two and stays in the array |
| `SlidingWindow.Branches` | src/ed25519-donna/modm-donna-64bit.h:263-277 | which branch each bit takes: absorbed inside the window, borrowed at its last bit, ignored or stopped beyond |
| `SlidingWindow.Borrow` | src/ed25519-donna/modm-donna-64bit.h:266-274 | the digit turns negative and the carry keeps the sum |
| `SlidingWindow.CollectBit` | src/ed25519-donna/modm-donna-64bit.h:263-277 | one bit more of the window, or the stop beyond it |
| `SlidingWindow.Collect` | src/ed25519-donna/modm-donna-64bit.h:262-278 | one window collected: the digit at j is final and the sum kept |
| `SlidingWindow.Slide` | src/ed25519-donna/modm-donna-64bit.h:240-280 | for windows 5 and 7 and all scalars below 2^255, the digits add up to the scalar, are zero or odd and at most 2^(w-1)-1, and w in a row hold at most one nonzero |
| `ScalarMult.OddMultiples` | src/ed25519-donna/ed25519-donna-impl-base.h:263-266 | pre1[i] stands for (2i+1)P |
| `ScalarMult.SkipZeros` | src/ed25519-donna/ed25519-donna-impl-base.h:273-275 | only zero digits are skipped |
| `ScalarMult.AddDigit1` | src/ed25519-donna/ed25519-donna-impl-base.h:280-283 | adds the digit times P, by sign and table index |
| `ScalarMult.AddDigit2` | src/ed25519-donna/ed25519-donna-impl-base.h:285-288 | adds the digit times B, by sign and table index |
| `ScalarMult.DoubleAndAdd` | src/ed25519-donna/ed25519-donna-impl-base.h:277-291 | one turn doubles and adds both digits, with table indexes in range |
| `ScalarMult.Ladder` | src/ed25519-donna/ed25519-donna-impl-base.h:268-291 | the loop computes the multiples that the digits stand for |
| `ScalarMult.DoubleScalarmult` | src/ed25519-donna/ed25519-donna-impl-base.h:251-292 | [s1]P + [s2]B for all scalars below 2^255 |
| `BaseMult.SelectRow` | src/ed25519-donna/ed25519-donna-impl-base.h:311-317 | eight masked moves leave the row for the digit, or the neutral row |
| `BaseMult.MoveConditional` | src/ed25519-donna/curve25519-donna-64bit.h:377-395 | twelve masked words make a conditional copy of 96 bytes |
| `BaseMult.SwapConditional` | src/ed25519-donna/curve25519-donna-64bit.h:397-408 | five masked exchanges make a conditional swap of field elements |
| `BaseMult.ChooseNiels` | src/ed25519-donna/ed25519-donna-impl-base.h:303-328 | the digit's multiple of 256^pos B, sign included, by masks throughout |
| `BaseMult.Halves` | src/ed25519-donna/ed25519-donna-impl-base.h:340-362 | sixteen times the odd digits plus the even digits is the scalar |
| `BaseMult.StartBase` | src/ed25519-donna/ed25519-donna-impl-base.h:342-347 | the first odd digit times B, from a row that holds 2xy |
| `BaseMult.AddDigits` | src/ed25519-donna/ed25519-donna-impl-base.h:348-351 | all further odd digits, and by a second call all further even ones |
| `BaseMult.TimesSixteen` | src/ed25519-donna/ed25519-donna-impl-base.h:352-355 | four doublings, the first three without T |
| `BaseMult.AddLowest` | src/ed25519-donna/ed25519-donna-impl-base.h:356-358 | the lowest digit, its row completed with d |
| `BaseMult.ScalarmultBase` | src/ed25519-donna/ed25519-donna-impl-base.h:333-363 | [s]B for every s below 2^255 |
| `StreamingSha512.FastForms` | src/ed25519-donna/ed25519-hash.h:70-71 | Ch and Maj as written are those of section 4.1.3 of FIPS 180-4 |
| `StreamingSha512.Step` | src/ed25519-donna/ed25519-hash.h:78-88 | one round of section 6.4.2 of FIPS 180-4, in place |
| `StreamingSha512.Expand` | src/ed25519-donna/ed25519-hash.h:98-99 | w holds the message schedule |
| `StreamingSha512.AllRounds` | src/ed25519-donna/ed25519-hash.h:100-100 | the eighty rounds, in place |
| `StreamingSha512.CompressBlock` | src/ed25519-donna/ed25519-hash.h:95-101 | the hash value after one more block |
| `StreamingSha512.CountBlock` | src/ed25519-donna/ed25519-hash.h:102-103 | the two counter words count bits modulo 2^128 |
| `StreamingSha512.Sha512State.constructor` | src/ed25519-donna/ed25519-hash.h:108-121 | the state of the empty message |
| `StreamingSha512.Sha512State.Blocks` | src/ed25519-donna/ed25519-hash.h:90-106 | folds in whole blocks and counts them |
| `StreamingSha512.Sha512State.Update` | src/ed25519-donna/ed25519-hash.h:123-151 | the state is that of all bytes so far, however they were cut; the buffer is never overrun |
| `StreamingSha512.Sha512State.Tail` | src/ed25519-donna/ed25519-hash.h:140-150 | whole blocks are folded in and the rest is kept |
| `StreamingSha512.Sha512State.Finish` | src/ed25519-donna/ed25519-hash.h:157-167 | the last block: the bytes left over, the padding and the length |
| `StreamingSha512.LengthBytes` | src/ed25519-donna/ed25519-hash.h:155-167 | the counter words with the bytes left over are the 128-bit length field |
| `StreamingSha512.PadOne` | src/ed25519-donna/ed25519-hash.h:157-168 | the one-block padding is that of section 5.1.2 of FIPS 180-4 |
| `StreamingSha512.PadTwo` | src/ed25519-donna/ed25519-hash.h:157-168 | the two-block padding is that of section 5.1.2 of FIPS 180-4 |
| `StreamingSha512.Sha512State.Final` | src/ed25519-donna/ed25519-hash.h:153-178 | the SHA-512 digest of everything fed in |
| `Sha512Standard.FoldConcat` | src/ed25519-donna/ed25519-hash.h:97-105 | folding a concatenation is folding its parts in turn |
| `Sha512Constants.AllRooted` | src/ed25519-donna/ed25519-hash.h:17-38 | each of the eighty round constants is the first 64 bits of the fraction of the cube root of the prime of that number |
| `Sha512Constants.InitialRoots` | src/ed25519-donna/ed25519-hash.h:110-117 | the initial hash value comes from the square roots of the first eight primes |
| `Sha512Constants.Sieve` | src/ed25519-donna/ed25519-hash.h:17-38 | below 441, the numbers that no prime below 20 divides are the primes |
| `Sha512Words.PadOfWords` | src/ed25519-donna/ed25519-hash.h:157-168 | the padding of any message of whole words, in words |
| `Sha512Words.NextRounds` | src/ed25519-donna/ed25519-hash.h:78-88 | eight rounds on known words and constants |
| `Sha512Words.NextWords` | src/ed25519-donna/ed25519-hash.h:76-77 | eight words of the schedule from the sixteen before |
| `Sha512Words.HashOfMoreWords` | src/ed25519-donna/ed25519-hash.h:90-178 | the digest of a message of whole words that takes two blocks, from the two compressions |
| `Sha512Examples.Abc` | src/ed25519-donna/ed25519-hash.h:70-178 | Sha512("abc") is the digest that FIPS 180-4 publishes |
| `Signature.Hash` | src/ed25519-donna/ed25519-hash.h:180-186 | the SHA-512 digest |
| `Signature.ExtSk` | src/ed25519-donna/ed25519.c:26-32 | the expanded key with its first half clamped; the second half is that of SHA-512 |
| `Signature.ClampedValue` | src/ed25519-donna/ed25519.c:29-31 | clamping replaces the bits of the first half above 253 by bit 254 and clears its low three |
| `Signature.ClampedRest` | src/ed25519-donna/ed25519.c:29-31 | clamping leaves everything after the first 32 bytes as it is |
| `Signature.SecretScalarRange` | src/ed25519-donna/ed25519.c:26-32 | the secret scalar is a multiple of 8 of at least 2^254 and below 2^255 |
| `Signature.Hram` | src/ed25519-donna/ed25519.c:34-42 | SHA-512 of R, A and the message, from three updates |
| `Signature.PublicKey` | src/ed25519-donna/ed25519.c:44-55 | the encoding of the unreduced clamped scalar times B |
| `Signature.PackMultiple` | src/ed25519-donna/ed25519.c:74-76 | the encoding of a multiple of B |
| `Signature.NonceHash` | src/ed25519-donna/ed25519.c:67-71 | SHA-512 of the prefix and the message, from two updates |
| `Signature.Response` | src/ed25519-donna/ed25519.c:78-90 | the 32 bytes of r + H(R, A, m) a mod m |
| `Signature.Sign` | src/ed25519-donna/ed25519.c:58-91 | R and S as section 5.1.6 of RFC 8032 defines them |
| `Signature.Recompute` | src/ed25519-donna/ed25519.c:103-112 | the encoding of [S]B - [h]A |
| `Signature.SignOpen` | src/ed25519-donna/ed25519.c:93-116 | 0 if and only if S has its top bits clear, the key decodes and R is the encoding of [S]B - [h]A |
| `Signature.SignThenOpen` | src/ed25519-donna/ed25519.c:44-116 | every signature made with a key is accepted under its public key |
| `SigningExample.PublishedKey` | src/ed25519-donna/ed25519.c:44-55 | for the secret key of the test vector "SHA(abc)" in section 7.1 of RFC 8032, key generation gives the published public key |
| `SigningExample.PublishedSignature` | src/ed25519-donna/ed25519.c:58-91 | and signing gives the published signature |
| `SigningExample.PublishedAccepted` | src/ed25519-donna/ed25519.c:93-116 | which is accepted |
| `SigningSteps.ClampsTo` | src/ed25519-donna/ed25519.c:29-31 | clamping of a number with known quotients |
| `SigningSteps.EncodesTo` | src/ed25519-donna/ed25519.c:74-76 | the encoding of [n]B from the point [n mod m]B |
| `SigningSteps.SignsTo` | src/ed25519-donna/ed25519.c:58-91 | the signature from the secret scalar, the nonce, R and the hash of R, A and the message |
| `Ed25519.Constants` | src/ed25519-donna/ed25519.c:44-149 | the base point and the tables of the library are those that the routines are proved for |
| `Ed25519.PublicKey` | src/ed25519-donna/ed25519.c:44-55 | the public key, with the library's table |
| `Ed25519.Sign` | src/ed25519-donna/ed25519.c:58-91 | the signature, with the library's table |
| `Ed25519.SignOpen` | src/ed25519-donna/ed25519.c:93-116 | the check, with the library's table |
| `Ed25519.SignOpenBatch` | src/ed25519-donna/ed25519-donna-batchverify.h:204-274 | the batch check, with the library's table and base point |
| `Ed25519.ScalarmultBasepoint` | src/ed25519-donna/ed25519.c:124-149 | X25519 of the clamped scalar and 9, with the library's table |
| `StandardVerification.PlainExact` | src/ed25519-donna/ed25519.c:93-116 | the test of section 5.1.7 of RFC 8032 without the factor eight holds if and only if the code accepts, S < m and some point encodes the key |
| `StandardVerification.StandardExact` | src/ed25519-donna/ed25519.c:93-116 | on decoded signatures the standard accepts if and only if eight times the defect vanishes, and the code if and only if the defect does |
| `StandardVerification.AcceptedIsStandard` | src/ed25519-donna/ed25519.c:93-116 | what the code accepts with S < m and such a key, the standard accepts |
| `StandardVerification.LargerResponse` | src/ed25519-donna/ed25519.c:100-108 | with S + m below 2^253 in place of S the code still accepts, and the standard does not |
| `StandardVerification.AcceptedRange` | src/ed25519-donna/ed25519.c:100-100 | whatever is accepted has S below 2^253 |
| `StandardVerification.ResponseReduced` | src/ed25519-donna/ed25519.c:100-108 | for S below 2^253 the answer is the one for S mod m |
| `SmallOrderKeys.LooseKeyExample` | src/ed25519-donna/ed25519.c:100-101 | a key that no point encodes, under which the code accepts a signature of every message |
| `SmallOrderKeys.CofactorExample` | src/ed25519-donna/ed25519.c:110-115 | a signature that only the standard accepts |
| `Curve25519.ScalarmultBasepoint` | src/ed25519-donna/ed25519.c:124-149 | the bytes are u = (1 + y)/(1 - y) of the clamped scalar times B, reduced, and for the base point of the tables they are X25519 of the scalar and 9 |
| `Curve25519.Convert` | src/ed25519-donna/ed25519.c:143-148 | u from any coordinates of the point, 0 for the neutral element |
| `Montgomery.MapsToMontgomery` | src/ed25519-donna/ed25519.c:143-148 | for every curve point, u^3 + 486662 u^2 + u is a square |
| `X25519.DoubleRep` | src/ed25519-donna/ed25519.c:140-148 | the doubling of the RFC 7748 ladder is the doubling of the Edwards curve, for every point |
| `X25519.AddRep` | src/ed25519-donna/ed25519.c:140-148 | its differential addition is the addition of the Edwards curve, whatever the two points with that difference |
| `X25519.LadderIs` | src/ed25519-donna/ed25519.c:140-148 | for every scalar below 2^255 the ladder gives the u coordinate of the multiple |
| `Curve25519.LadderOfNine` | src/ed25519-donna/ed25519.c:140-148 | for the base point the ladder starts from 9 |
| `Scalars.CompareExact` | src/ed25519-donna/modm-donna-64bit.h:301-330 | on scalars that fit, the truncated comparisons are the full ones |
| `Scalars.SubExact` | src/ed25519-donna/modm-donna-64bit.h:286-299 | on scalars that fit, the truncated in-place subtraction is the full one |
| `Scalars.Classify` | src/ed25519-donna/modm-donna-64bit.h:332-361 | the three limb tests say zero, one and below 2^128 |
| `HeapOrder.UpStep` | src/ed25519-donna/ed25519-donna-batchverify.h:42-46 | a swap up keeps the heap ordered but for one place |
| `HeapOrder.DownStep` | src/ed25519-donna/ed25519-donna-batchverify.h:62-68 | a swap down keeps the heap ordered but around one place |
| `HeapOrder.TopTwo` | src/ed25519-donna/ed25519-donna-batchverify.h:95-103 | the root and its larger child are the two largest |
| `BatchHeaps.BatchHeap.HeapSwap` | src/ed25519-donna/ed25519-donna-batchverify.h:21-28 | two nodes exchanged, still a permutation |
| `BatchHeaps.BatchHeap.HeapInsertNext` | src/ed25519-donna/ed25519-donna-batchverify.h:30-48 | the next index joins and the heap is ordered |
| `BatchHeaps.BatchHeap.LargerChild` | src/ed25519-donna/ed25519-donna-batchverify.h:63-63 | the larger of the two children |
| `BatchHeaps.BatchHeap.SiftToLeaf` | src/ed25519-donna/ed25519-donna-batchverify.h:57-68 | the root goes down to a leaf; the rest stays ordered |
| `BatchHeaps.BatchHeap.SiftBackUp` | src/ed25519-donna/ed25519-donna-batchverify.h:70-76 | from the leaf back up to its place |
| `BatchHeaps.BatchHeap.HeapUpdatedRoot` | src/ed25519-donna/ed25519-donna-batchverify.h:50-77 | after the root shrank, order is restored and the indexes stay a permutation |
| `BatchHeaps.BatchHeap.HeapBuild` | src/ed25519-donna/ed25519-donna-batchverify.h:79-86 | an ordered heap of the first scalars |
| `BatchHeaps.BatchHeap.HeapExtend` | src/ed25519-donna/ed25519-donna-batchverify.h:88-93 | an ordered heap of more scalars |
| `BatchHeaps.BatchHeap.HeapGetTop2` | src/ed25519-donna/ed25519-donna-batchverify.h:95-103 | the indexes of the two largest scalars |
| `Sums.StepKeepsSum` | src/ed25519-donna/ed25519-donna-batchverify.h:182-183 | one subtraction and one addition keep the sum of all terms |
| `Gcds.StepKeepsDivisors` | src/ed25519-donna/ed25519-donna-batchverify.h:182-182 | the subtraction keeps the common divisors of the scalars |
| `Gcds.GcdUnique` | src/ed25519-donna/ed25519-donna-batchverify.h:164-185 | a number with just the common divisors is the greatest common divisor |
| `BosCarter.HeadStep` | src/ed25519-donna/ed25519-donna-batchverify.h:164-185 | one pass keeps all that is known at the head of the loop |
| `BosCarter.StepKept` | src/ed25519-donna/ed25519-donna-batchverify.h:182-183 | one pass keeps, for every common divisor, the sum of the scalars' quotients by it times the points |
| `BosCarter.KeptExit` | src/ed25519-donna/ed25519-donna-batchverify.h:167-187 | the scalar left is the greatest common divisor of the first ones, and its point the sum of their quotients |
| `BosCarter.ReachBoundary` | src/ed25519-donna/ed25519-donna-batchverify.h:167-187 | two equal scalars get the loop to the 128-bit ones if and only if they are not zero and below 2^128 |
| `BosCarter.HeadExit` | src/ed25519-donna/ed25519-donna-batchverify.h:167-187 | the loop has taken in the short scalars if and only if the starting ones reach them |
| `BosCarter.OutcomeNeutral` | src/ed25519-donna/ed25519-donna-batchverify.h:105-188 | if they are reached, the outcome is neutral if and only if the sum of all terms is |
| `MultiScalars.NextLimbsize` | src/ed25519-donna/ed25519-donna-batchverify.h:171-173 | dropping a limb is safe: every scalar in the heap still fits, and the short scalars will |
| `MultiScalars.TakeIn` | src/ed25519-donna/ed25519-donna-batchverify.h:176-180 | the heap takes in the short scalars, and the two largest are found again |
| `MultiScalars.Prepare` | src/ed25519-donna/ed25519-donna-batchverify.h:171-180 | the limb count and the extension before a subtraction |
| `MultiScalars.Step` | src/ed25519-donna/ed25519-donna-batchverify.h:182-184 | in place, on limbs: the largest scalar less the second, the second point plus the first, the heap ordered again |
| `MultiScalars.Top2` | src/ed25519-donna/ed25519-donna-batchverify.h:165-165 | the two largest scalars, as values |
| `MultiScalars.StepValues` | src/ed25519-donna/ed25519-donna-batchverify.h:182-184 | the truncated subtraction, the addition and the sift, as values |
| `MultiScalars.Iterate` | src/ed25519-donna/ed25519-donna-batchverify.h:164-185 | one pass keeps the sum and the heap and strictly lowers the total of the scalars |
| `MultiScalars.MultiScalarmult` | src/ed25519-donna/ed25519-donna-batchverify.h:150-188 | on limbs: the outcome for all scalars if the starting ones reach the short ones, and otherwise the outcome for the starting ones |
| `BosCarter.PartialIsFull` | src/ed25519-donna/ed25519-donna-batchverify.h:161-169 | the sum over the first terms is the whole sum if and only if the others add up to zero |
| `EarlyEnd.NeutralKeysPass` | src/ed25519-donna/ed25519-donna-batchverify.h:161-169 | neutral keys, cancelling responses and one hash weight: the loop does not cover the batch, and it passes |
| `EarlyEnd.EarlyExample` | src/ed25519-donna/ed25519-donna-batchverify.h:204-274 | four entries, none good, whose equation does not hold, with all flags set and result 0 |
| `MultiScalars.Final` | src/ed25519-donna/ed25519-donna-batchverify.h:105-148 | on limbs: neutral for 0, the point for 1, and [2^n + s]P from there on |
| `FinalScalar.TopLimb` | src/ed25519-donna/ed25519-donna-batchverify.h:126-128 | the highest nonzero limb, if limbs 0 to 3 have one |
| `FinalScalar.TopFlag` | src/ed25519-donna/ed25519-donna-batchverify.h:130-133 | the leading bit of that limb |
| `MultiScalars.DoubleAndAdd` | src/ed25519-donna/ed25519-donna-batchverify.h:135-147 | the exponentiation loop on limbs, as a multiple of the point |
| `FinalScalar.TopWeightIs` | src/ed25519-donna/ed25519-donna-batchverify.h:126-133 | the added weight is 2 to the bit length |
| `FinalScalar.NeutralAgrees` | src/ed25519-donna/ed25519-donna-batchverify.h:105-148 | the neutral test agrees with the one on [s]P for all s below 2^224 |
| `FinalScalar.FinalExact` | src/ed25519-donna/ed25519-donna-batchverify.h:105-148 | exactly when the step returns [s]P |
| `EarlyEnd.FinalExample` | src/ed25519-donna/ed25519-donna-batchverify.h:124-147 | for scalar 2 and the base point it returns [6]B, which is not [2]B |
| `Batch.FillScalars` | src/ed25519-donna/ed25519-donna-batchverify.h:219-238 | the scalars of the batch equation, in place |
| `Batch.DrawScalars` | src/ed25519-donna/ed25519-donna-batchverify.h:219-223 | the random scalars |
| `Batch.WeighResponses` | src/ed25519-donna/ed25519-donna-batchverify.h:225-229 | each S times its random scalar, mod m |
| `Batch.SumResponses` | src/ed25519-donna/ed25519-donna-batchverify.h:230-231 | their sum mod m |
| `Batch.WeighHashes` | src/ed25519-donna/ed25519-donna-batchverify.h:233-238 | each hash times its random scalar, mod m |
| `Batch.FillPoints` | src/ed25519-donna/ed25519-donna-batchverify.h:240-247 | all keys and points R decode, and the limbs stand for them, or the loops stop |
| `Batch.CheckBatch` | src/ed25519-donna/ed25519-donna-batchverify.h:219-250 | for every batch, covered or not, the neutral test passes if and only if the outcome for the scalars it gets to is neutral |
| `Batch.CoveredNeutral` | src/ed25519-donna/ed25519-donna-batchverify.h:249-250 | if the loop covers the batch, that outcome is neutral if and only if the batch equation holds |
| `Batch.OneByOne` | src/ed25519-donna/ed25519-donna-batchverify.h:253-257 | exact flags, and whether any is cleared |
| `Batch.SettleBatch` | src/ed25519-donna/ed25519-donna-batchverify.h:216-266 | all flags set if the batch passes and each flag exact if not; the flags are exact if and only if all are good or it does not pass; bit 1 if and only if it decodes and fails |
| `Batch.SettledExact` | src/ed25519-donna/ed25519-donna-batchverify.h:250-258 | the flags of a batch are exact if and only if all are good or it does not pass |
| `Batch.CoveredExact` | src/ed25519-donna/ed25519-donna-batchverify.h:250-258 | the same for a covered batch: all good, or one does not decode, or the equation does not hold |
| `Batch.LastFew` | src/ed25519-donna/ed25519-donna-batchverify.h:268-271 | the entries after the last batch |
| `Batch.SignOpenBatch` | src/ed25519-donna/ed25519-donna-batchverify.h:204-274 | every batch settled as above; bit 0 if and only if a flag is cleared, which is if and only if a batch does not pass and has a signature that is not good; bit 1 if and only if a batch decodes and fails; cleared flags and the last few are right |
| `Batch.VerdictExact` | src/ed25519-donna/ed25519-donna-batchverify.h:204-274 | all flags are exact if and only if in every batch all are good or it does not pass |
| `Batch.GoodFlags` | src/ed25519-donna/ed25519-donna-batchverify.h:204-274 | a list of good signatures has all flags set, and gives 2 if a batch fails and 0 if not |
| `Batch.BitZero` | src/ed25519-donna/ed25519-donna-batchverify.h:253-271 | bit 0 is set if and only if some batch does not pass and has a signature that is not good |
| `Batch.SmallList` | src/ed25519-donna/ed25519-donna-batchverify.h:216-216 | up to three signatures are checked one by one: exact flags, and 0 or 1 |
| `Batch.TailExact` | src/ed25519-donna/ed25519-donna-batchverify.h:268-271 | the flags of the up to three entries after the last batch are exact |
| `BatchLists.OneBatch` | src/ed25519-donna/ed25519-donna-batchverify.h:216-217 | up to sixty-four entries are one batch, and the two bits are those of that batch |
| `BatchLists.InTurn` | src/ed25519-donna/ed25519-donna-batchverify.h:216-266 | after a whole number of full batches a list goes on as a list of its own: flags one after the other, bits of both |
| `BatchLists.OneVerdict` | src/ed25519-donna/ed25519-donna-batchverify.h:204-274 | flags and result are determined by the list |
| `BatchEquation.GoodBatchHolds` | src/ed25519-donna/ed25519-donna-batchverify.h:225-250 | good signatures balance the equation if and only if the multiples of m dropped from h z cancel on the keys |
| `BatchEquation.HalfDropped` | src/ed25519-donna/ed25519-donna-batchverify.h:233-238 | a key of order two is left behind if and only if an odd multiple of m was dropped |
| `BatchEquation.SincereBatchHolds` | src/ed25519-donna/ed25519-donna-batchverify.h:219-250 | good signatures under keys of order dividing m balance the equation for all random values |
| `BatchEquation.ZeroResult` | src/ed25519-donna/ed25519-donna-batchverify.h:204-274 | the result is 0 if and only if every batch passes, or has fewer than four entries, all good |
| `BatchEquation.CoveredVerdict` | src/ed25519-donna/ed25519-donna-batchverify.h:249-251 | when the loop covers every batch, bit 1 is set if and only if some batch decodes and fails the equation |
| `BatchEquation.CoveredResult` | src/ed25519-donna/ed25519-donna-batchverify.h:249-257 | for a covered list, exactly when bit 0 is set, and exactly when the result is 3, in terms of the batch equation |
| `BatchEquation.UndecodedList` | src/ed25519-donna/ed25519-donna-batchverify.h:240-257 | if every batch has a string that does not unpack, the flags are exact and the result is 1 |
| `BatchEquation.GoodList` | src/ed25519-donna/ed25519-donna-batchverify.h:204-274 | a covered list of good signatures gives 2 if some batch has dropped multiples that do not cancel, and 0 if not |
| `SmallOrderKeys.KeyLeft` | src/ed25519-donna/ed25519-donna-batchverify.h:233-250 | if all entries but one are under keys of order dividing m and that one has a key of order two and drops an odd multiple, the key is what is left of the equation |
| `SmallOrderKeys.KeyLeftList` | src/ed25519-donna/ed25519-donna-batchverify.h:204-274 | a covered list of good signatures with such a batch gives 2 with all flags set |
| `SmallOrderKeys.UnbalancedExample` | src/ed25519-donna/ed25519-donna-batchverify.h:204-274 | five good signatures with all flags set and result 2, for every message with an even hash of at least 2^126 |
| `BatchEquation.SincereList` | src/ed25519-donna/ed25519-donna-batchverify.h:204-274 | a covered list of good signatures under keys of order dividing m gives 0 with all flags set |
| `BatchEquation.SignedIsSincere` | src/ed25519-donna/ed25519.c:58-91 | signatures made by the signing code are such |
| `UnreducedResponses.UnreducedResponse` | src/ed25519-donna/ed25519-donna-batchverify.h:227-227 | with S + 2m an entry has the same part in the equation and is not good |
| `UnreducedResponses.UnreducedPasses` | src/ed25519-donna/ed25519-donna-batchverify.h:219-250 | any covered batch of such signatures still passes with S + 2m in place of one S |
| `UnreducedResponses.UnreducedExample` | src/ed25519-donna/ed25519-donna-batchverify.h:204-274 | five entries, one not good, with all flags set and result 0 |

## Left out

- The 32-bit layouts (curve25519-donna-32bit.h, modm-donna-32bit.h) and the SSE2 and assembler variants: the same mathematics again.
- Random bytes: each batch entry carries the 16 bytes drawn for it, arbitrary.
- The OpenSSL and custom hashes.
- Bignums and points are values, so passing one buffer as input and output is not modelled; heaps, digit buffers, the hash state and the flags are mutable objects.
- The table of odd multiples in the double scalar multiplication, and the byte strings, are sequences filled in order.
- Running time is not modelled; the selections are written with the masks of the code.
- Batch.SignOpenBatch: does not state how likely a batch with a bad signature is to pass, which is a statement about the random values.
- Batch.RunBatch: takes the search that leaves the scalar's array as a failed test, since the code's behaviour there is undefined.
- Fermat's theorem for p, the primality of m and the order of the curve are hypotheses.
