/**
 The functions of ed25519.h as a caller has them: with the base point and the tables that the library
 carries. They rest on Fermat's theorem alone.
 */
module Ed25519 {
  import opened Bytes
  import opened PrimeField
  import opened Edwards
  import opened Points
  import opened ScalarMult
  import opened BaseMult
  import opened BasePoint
  import opened GroupOrder
  import opened SlidingTable
  import opened BaseTable
  import opened X25519
  import Signature
  import Curve25519
  import Batch

  /** The constants hold what the routines are proved under. */
  lemma Constants()
    requires Fermat()
    ensures OnCurve(BASE) && Signature.Domain(BASE)
    ensures IsTable2(MULTIPLES, BASE) && IsBaseTable(BASE_TABLE, BASE) && IsFull(BASEPOINT, BASE)
  {
    hide *;
    BaseOnCurve();
    BaseDomain();
    MultiplesAre();
    BaseTableIs();
    BasepointIs();
  }

  /** ed25519_publickey */
  method PublicKey(sk: seq<byte>) returns (pk: seq<byte>)
    requires Fermat()
    ensures pk == Signature.PublicKeyOf(sk, BASE)
  {
    hide *;
    Constants();
    pk := Signature.PublicKey(sk, BASE_TABLE, BASE);
  }

  /** ed25519_sign */
  method Sign(m: seq<byte>, sk: seq<byte>, pk: seq<byte>) returns (rs: seq<byte>)
    requires Fermat()
    ensures rs == Signature.SignatureOf(m, sk, pk, BASE)
  {
    hide *;
    Constants();
    rs := Signature.Sign(m, sk, pk, BASE_TABLE, BASE);
  }

  /** ed25519_sign_open */
  method SignOpen(m: seq<byte>, pk: seq<byte>, rs: seq<byte>) returns (result: int)
    requires Fermat() && |pk| == 32 && |rs| == 64
    ensures result == if Signature.Accepts(m, pk, rs, BASE) then 0 else -1
  {
    hide *;
    Constants();
    result := Signature.SignOpen(m, pk, rs, MULTIPLES, BASE);
  }

  /** ed25519_sign_open_batch */
  method SignOpenBatch(es: seq<Batch.Entry>, valid: array<int>) returns (ret: int)
    requires Fermat() && Batch.AllFormed(es) && valid.Length == |es|
    modifies valid
    ensures Batch.Verdict(es, valid[..], ret, BASE)
  {
    hide *;
    Constants();
    ret := Batch.SignOpenBatch(es, valid, MULTIPLES, BASEPOINT, BASE);
  }

  /** curved25519_scalarmult_basepoint */
  method ScalarmultBasepoint(e: seq<byte>) returns (pk: seq<byte>)
    requires Fermat() && |e| == 32
    ensures |pk| == 32 && Le(pk) == Evaluate(Le(Signature.Clamped(e)), 9)
  {
    hide *;
    Constants();
    pk := Curve25519.ScalarmultBasepoint(e, BASE_TABLE, BASE);
  }
}
