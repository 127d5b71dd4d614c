/**
 The test vector "SHA(abc)" in section 7.1 of RFC 8032, derived: key generation gives its public key
 from its secret key, and signing gives its signature.
 */
module SigningExample {
  import opened Bytes
  import opened PrimeField
  import opened Compression
  import opened ScalarMult
  import opened BasePoint
  import opened BasePowers
  import opened GroupOrder
  import opened Signature
  import opened Sha512Standard
  import opened Sha512Words
  import opened Sha512Examples
  import opened WordValues
  import opened SigningSteps
  import opened SigningHashes
  import opened SigningMultiples

  const SECRET_SCALAR: nat := 0x45b64172c7528f1af4a5a85dd6dbd87292a0079bf113570bec4be0594fcedd30

  lemma ScalarValue()
    ensures Le(FromWords(SCALAR)) == 0x85b64172c7528f1af4a5a85dd6dbd87292a0079bf113570bec4be0594fcedd30
  {
    hide FromWords, Le, Reverses;
    assert Reverses(0x30ddce4f59e04bec, 0xec4be0594fcedd30) by {
      Reversed(0x30ddce4f59e04bec, 0x30, 0xdd, 0xce, 0x4f, 0x59, 0xe0, 0x4b, 0xec, 0xec4be0594fcedd30);
    }
    assert Reverses(0xb5713f19b07a092, 0x92a0079bf113570b) by {
      Reversed(0xb5713f19b07a092, 0x0b, 0x57, 0x13, 0xf1, 0x9b, 0x07, 0xa0, 0x92, 0x92a0079bf113570b);
    }
    assert Reverses(0x72d8dbd65da8a5f4, 0xf4a5a85dd6dbd872) by {
      Reversed(0x72d8dbd65da8a5f4, 0x72, 0xd8, 0xdb, 0xd6, 0x5d, 0xa8, 0xa5, 0xf4, 0xf4a5a85dd6dbd872);
    }
    assert Reverses(0x1a8f52c77241b685, 0x85b64172c7528f1a) by {
      Reversed(0x1a8f52c77241b685, 0x1a, 0x8f, 0x52, 0xc7, 0x72, 0x41, 0xb6, 0x85, 0x85b64172c7528f1a);
    }
    FourValues(SCALAR, 0xec4be0594fcedd30, 0x92a0079bf113570b, 0xf4a5a85dd6dbd872, 0x85b64172c7528f1a);
  }

  lemma PublicValue()
    ensures Le(FromWords(PUBLIC)) == 0xbfe267346819f8eb644dfd2eef6754c3345024e1702c93f43b565ead932b17ec
  {
    hide FromWords, Le, Reverses;
    assert Reverses(0xec172b93ad5e563b, 0x3b565ead932b17ec) by {
      Reversed(0xec172b93ad5e563b, 0xec, 0x17, 0x2b, 0x93, 0xad, 0x5e, 0x56, 0x3b, 0x3b565ead932b17ec);
    }
    assert Reverses(0xf4932c70e1245034, 0x345024e1702c93f4) by {
      Reversed(0xf4932c70e1245034, 0xf4, 0x93, 0x2c, 0x70, 0xe1, 0x24, 0x50, 0x34, 0x345024e1702c93f4);
    }
    assert Reverses(0xc35467ef2efd4d64, 0x644dfd2eef6754c3) by {
      Reversed(0xc35467ef2efd4d64, 0xc3, 0x54, 0x67, 0xef, 0x2e, 0xfd, 0x4d, 0x64, 0x644dfd2eef6754c3);
    }
    assert Reverses(0xebf819683467e2bf, 0xbfe267346819f8eb) by {
      Reversed(0xebf819683467e2bf, 0xeb, 0xf8, 0x19, 0x68, 0x34, 0x67, 0xe2, 0xbf, 0xbfe267346819f8eb);
    }
    FourValues(PUBLIC, 0x3b565ead932b17ec, 0x345024e1702c93f4, 0x644dfd2eef6754c3, 0xbfe267346819f8eb);
  }

  lemma CommitmentValue()
    ensures Le(FromWords(COMMITMENT)) == 0x89b5266c18a2be69cb3ebfefa3091020009a8377f21b2ba5339636e759442adc
  {
    hide FromWords, Le, Reverses;
    assert Reverses(0xdc2a4459e7369633, 0x339636e759442adc) by {
      Reversed(0xdc2a4459e7369633, 0xdc, 0x2a, 0x44, 0x59, 0xe7, 0x36, 0x96, 0x33, 0x339636e759442adc);
    }
    assert Reverses(0xa52b1bf277839a00, 0x9a8377f21b2ba5) by {
      Reversed(0xa52b1bf277839a00, 0xa5, 0x2b, 0x1b, 0xf2, 0x77, 0x83, 0x9a, 0x00, 0x9a8377f21b2ba5);
    }
    assert Reverses(0x201009a3efbf3ecb, 0xcb3ebfefa3091020) by {
      Reversed(0x201009a3efbf3ecb, 0x20, 0x10, 0x09, 0xa3, 0xef, 0xbf, 0x3e, 0xcb, 0xcb3ebfefa3091020);
    }
    assert Reverses(0x69bea2186c26b589, 0x89b5266c18a2be69) by {
      Reversed(0x69bea2186c26b589, 0x69, 0xbe, 0xa2, 0x18, 0x6c, 0x26, 0xb5, 0x89, 0x89b5266c18a2be69);
    }
    FourValues(COMMITMENT, 0x339636e759442adc, 0x9a8377f21b2ba5, 0xcb3ebfefa3091020, 0x89b5266c18a2be69);
  }

  lemma ResponseValue()
    ensures Le(FromWords(RESPONSE)) == 0x4a7317317f1bed97ac18a139c17ca3d30e03164c6c7fbfdecb390acc91f3509
  {
    hide FromWords, Le, Reverses;
    assert Reverses(0x9351fc9ac90b3ec, 0xecb390acc91f3509) by {
      Reversed(0x9351fc9ac90b3ec, 0x09, 0x35, 0x1f, 0xc9, 0xac, 0x90, 0xb3, 0xec, 0xecb390acc91f3509);
    }
    assert Reverses(0xfdfbc7c66431e030, 0x30e03164c6c7fbfd) by {
      Reversed(0xfdfbc7c66431e030, 0xfd, 0xfb, 0xc7, 0xc6, 0x64, 0x31, 0xe0, 0x30, 0x30e03164c6c7fbfd);
    }
    assert Reverses(0x3dca179c138ac17a, 0x7ac18a139c17ca3d) by {
      Reversed(0x3dca179c138ac17a, 0x3d, 0xca, 0x17, 0x9c, 0x13, 0x8a, 0xc1, 0x7a, 0x7ac18a139c17ca3d);
    }
    assert Reverses(0xd9bef1177331a704, 0x4a7317317f1bed9) by {
      Reversed(0xd9bef1177331a704, 0xd9, 0xbe, 0xf1, 0x17, 0x73, 0x31, 0xa7, 0x04, 0x4a7317317f1bed9);
    }
    FourValues(RESPONSE, 0xecb390acc91f3509, 0x30e03164c6c7fbfd, 0x7ac18a139c17ca3d, 0x4a7317317f1bed9);
  }

  const NONCE_NUMBER: nat := 0xbfe20e0eb452480c859a1118d956e253534dbe19fe3374ec41b516ced7d90fd1dc18a5a205597a36d3aa6515f0992e4f742e810c61b11daf72970540dd30a7dd

  const NONCE_DIGEST_LOW: seq<nat> := [
    0xdda730dd40059772, 0xaf1db1610c812e74, 0x4f2e99f01565aad3, 0x367a5905a2a518dc
  ]

  lemma NonceLowValue()
    ensures Le(FromWords(NONCE_DIGEST_LOW)) == 0xdc18a5a205597a36d3aa6515f0992e4f742e810c61b11daf72970540dd30a7dd
  {
    hide FromWords, Le, Reverses;
    assert Reverses(0xdda730dd40059772, 0x72970540dd30a7dd) by {
      Reversed(0xdda730dd40059772, 0xdd, 0xa7, 0x30, 0xdd, 0x40, 0x05, 0x97, 0x72, 0x72970540dd30a7dd);
    }
    assert Reverses(0xaf1db1610c812e74, 0x742e810c61b11daf) by {
      Reversed(0xaf1db1610c812e74, 0xaf, 0x1d, 0xb1, 0x61, 0x0c, 0x81, 0x2e, 0x74, 0x742e810c61b11daf);
    }
    assert Reverses(0x4f2e99f01565aad3, 0xd3aa6515f0992e4f) by {
      Reversed(0x4f2e99f01565aad3, 0x4f, 0x2e, 0x99, 0xf0, 0x15, 0x65, 0xaa, 0xd3, 0xd3aa6515f0992e4f);
    }
    assert Reverses(0x367a5905a2a518dc, 0xdc18a5a205597a36) by {
      Reversed(0x367a5905a2a518dc, 0x36, 0x7a, 0x59, 0x05, 0xa2, 0xa5, 0x18, 0xdc, 0xdc18a5a205597a36);
    }
    FourValues(NONCE_DIGEST_LOW, 0x72970540dd30a7dd, 0x742e810c61b11daf, 0xd3aa6515f0992e4f, 0xdc18a5a205597a36);
  }

  const NONCE_DIGEST_HIGH: seq<nat> := [
    0xd10fd9d7ce16b541, 0xec7433fe19be4d53, 0x53e256d918119a85, 0x0c4852b40e0ee2bf
  ]

  lemma NonceHighValue()
    ensures Le(FromWords(NONCE_DIGEST_HIGH)) == 0xbfe20e0eb452480c859a1118d956e253534dbe19fe3374ec41b516ced7d90fd1
  {
    hide FromWords, Le, Reverses;
    assert Reverses(0xd10fd9d7ce16b541, 0x41b516ced7d90fd1) by {
      Reversed(0xd10fd9d7ce16b541, 0xd1, 0x0f, 0xd9, 0xd7, 0xce, 0x16, 0xb5, 0x41, 0x41b516ced7d90fd1);
    }
    assert Reverses(0xec7433fe19be4d53, 0x534dbe19fe3374ec) by {
      Reversed(0xec7433fe19be4d53, 0xec, 0x74, 0x33, 0xfe, 0x19, 0xbe, 0x4d, 0x53, 0x534dbe19fe3374ec);
    }
    assert Reverses(0x53e256d918119a85, 0x859a1118d956e253) by {
      Reversed(0x53e256d918119a85, 0x53, 0xe2, 0x56, 0xd9, 0x18, 0x11, 0x9a, 0x85, 0x859a1118d956e253);
    }
    assert Reverses(0xc4852b40e0ee2bf, 0xbfe20e0eb452480c) by {
      Reversed(0xc4852b40e0ee2bf, 0x0c, 0x48, 0x52, 0xb4, 0x0e, 0x0e, 0xe2, 0xbf, 0xbfe20e0eb452480c);
    }
    FourValues(NONCE_DIGEST_HIGH, 0x41b516ced7d90fd1, 0x534dbe19fe3374ec, 0x859a1118d956e253, 0xbfe20e0eb452480c);
  }

  lemma NonceHalves()
    ensures NONCE_DIGEST == NONCE_DIGEST_LOW + NONCE_DIGEST_HIGH && |NONCE_DIGEST_LOW| == 4
  {
  }

  lemma NonceValue()
    ensures Le(FromWords(NONCE_DIGEST)) == NONCE_NUMBER
  {
    NonceLowValue();
    NonceHighValue();
    NonceHalves();
    hide FromWords, Le;
    TwoHalves(NONCE_DIGEST_LOW, NONCE_DIGEST_HIGH, 0xdc18a5a205597a36d3aa6515f0992e4f742e810c61b11daf72970540dd30a7dd,
              0xbfe20e0eb452480c859a1118d956e253534dbe19fe3374ec41b516ced7d90fd1);
  }

  const CHALLENGE_NUMBER: nat := 0xe5aae74133d661a98f70f66d162c12560b055387c5f16d1fa1e5991f1389cfdf2e4268c260813eb5d46686412b81eee22268d48a108fc5c05bb07baa1da6a85e

  const REST_DIGEST_LOW: seq<nat> := [
    0x5ea8a61daa7bb05b, 0xc0c58f108ad46822, 0xe2ee812b418666d4, 0xb53e8160c268422e
  ]

  lemma RestLowValue()
    ensures Le(FromWords(REST_DIGEST_LOW)) == 0x2e4268c260813eb5d46686412b81eee22268d48a108fc5c05bb07baa1da6a85e
  {
    hide FromWords, Le, Reverses;
    assert Reverses(0x5ea8a61daa7bb05b, 0x5bb07baa1da6a85e) by {
      Reversed(0x5ea8a61daa7bb05b, 0x5e, 0xa8, 0xa6, 0x1d, 0xaa, 0x7b, 0xb0, 0x5b, 0x5bb07baa1da6a85e);
    }
    assert Reverses(0xc0c58f108ad46822, 0x2268d48a108fc5c0) by {
      Reversed(0xc0c58f108ad46822, 0xc0, 0xc5, 0x8f, 0x10, 0x8a, 0xd4, 0x68, 0x22, 0x2268d48a108fc5c0);
    }
    assert Reverses(0xe2ee812b418666d4, 0xd46686412b81eee2) by {
      Reversed(0xe2ee812b418666d4, 0xe2, 0xee, 0x81, 0x2b, 0x41, 0x86, 0x66, 0xd4, 0xd46686412b81eee2);
    }
    assert Reverses(0xb53e8160c268422e, 0x2e4268c260813eb5) by {
      Reversed(0xb53e8160c268422e, 0xb5, 0x3e, 0x81, 0x60, 0xc2, 0x68, 0x42, 0x2e, 0x2e4268c260813eb5);
    }
    FourValues(REST_DIGEST_LOW, 0x5bb07baa1da6a85e, 0x2268d48a108fc5c0, 0xd46686412b81eee2, 0x2e4268c260813eb5);
  }

  const REST_DIGEST_HIGH: seq<nat> := [
    0xdfcf89131f99e5a1, 0x1f6df1c58753050b, 0x56122c166df6708f, 0xa961d63341e7aae5
  ]

  lemma RestHighValue()
    ensures Le(FromWords(REST_DIGEST_HIGH)) == 0xe5aae74133d661a98f70f66d162c12560b055387c5f16d1fa1e5991f1389cfdf
  {
    hide FromWords, Le, Reverses;
    assert Reverses(0xdfcf89131f99e5a1, 0xa1e5991f1389cfdf) by {
      Reversed(0xdfcf89131f99e5a1, 0xdf, 0xcf, 0x89, 0x13, 0x1f, 0x99, 0xe5, 0xa1, 0xa1e5991f1389cfdf);
    }
    assert Reverses(0x1f6df1c58753050b, 0xb055387c5f16d1f) by {
      Reversed(0x1f6df1c58753050b, 0x1f, 0x6d, 0xf1, 0xc5, 0x87, 0x53, 0x05, 0x0b, 0xb055387c5f16d1f);
    }
    assert Reverses(0x56122c166df6708f, 0x8f70f66d162c1256) by {
      Reversed(0x56122c166df6708f, 0x56, 0x12, 0x2c, 0x16, 0x6d, 0xf6, 0x70, 0x8f, 0x8f70f66d162c1256);
    }
    assert Reverses(0xa961d63341e7aae5, 0xe5aae74133d661a9) by {
      Reversed(0xa961d63341e7aae5, 0xa9, 0x61, 0xd6, 0x33, 0x41, 0xe7, 0xaa, 0xe5, 0xe5aae74133d661a9);
    }
    FourValues(REST_DIGEST_HIGH, 0xa1e5991f1389cfdf, 0xb055387c5f16d1f, 0x8f70f66d162c1256, 0xe5aae74133d661a9);
  }

  lemma RestHalves()
    ensures REST_DIGEST == REST_DIGEST_LOW + REST_DIGEST_HIGH && |REST_DIGEST_LOW| == 4
  {
  }

  lemma RestValue()
    ensures Le(FromWords(REST_DIGEST)) == CHALLENGE_NUMBER
  {
    RestLowValue();
    RestHighValue();
    RestHalves();
    hide FromWords, Le;
    TwoHalves(REST_DIGEST_LOW, REST_DIGEST_HIGH, 0x2e4268c260813eb5d46686412b81eee22268d48a108fc5c05bb07baa1da6a85e,
              0xe5aae74133d661a98f70f66d162c12560b055387c5f16d1fa1e5991f1389cfdf);
  }

  lemma ScalarHalf()
    ensures Sha512(FromWords(SECRET))[..32] == FromWords(SCALAR) && Prefix(FromWords(SECRET)) == FromWords(PREFIX)
  {
    KeyHashed();
    KeyHalves();
    FromConcat(SCALAR, PREFIX);
    hide FromWords, Sha512;
  }

  lemma SecretIs()
    ensures SecretScalar(FromWords(SECRET)) == SECRET_SCALAR
  {
    ScalarHalf();
    ScalarValue();
    hide FromWords, Sha512, Le, Clamped;
    ClampsTo(Sha512(FromWords(SECRET)), 0x85b64172c7528f1af4a5a85dd6dbd87292a0079bf113570bec4be0594fcedd30, 0x2, 0x5b64172c7528f1af4a5a85dd6dbd87292a0079bf113570bec4be0594fcedd30, 0x10b6c82e58ea51e35e94b50bbadb7b0e525400f37e226ae17d897c0b29f9dba6, 0x0);
  }

  lemma NonceIs()
    ensures Nonce(FromWords(ABC_DIGEST), FromWords(SECRET)) == NONCE_NUMBER
  {
    ScalarHalf();
    NonceHashed();
    NonceValue();
    hide FromWords, Sha512, Le, Prefix;
    FromConcat(PREFIX, ABC_DIGEST);
  }

  lemma PublicIs()
    requires Fermat()
    ensures Encode(Mult(SECRET_SCALAR, BASE)) == FromWords(PUBLIC)
  {
    PublicPointIs();
    PublicValue();
    hide FromWords, Le, Fermat, IsMultiple, Mult, Encode;
    EncodesTo(SECRET_SCALAR, 0x4, 0x5b64172c7528f1af4a5a85dd6dbd8723f2420216534e3b28c0253efdbf78d7c,
              PUBLIC_POINT, 0x2c5a00dcefb7b2d1a312a00521fd3744eead73a2074c4ce4e4b7754cadb97e17, 0x1, FromWords(PUBLIC));
  }

  lemma CommitmentIs()
    requires Fermat()
    ensures Encode(Mult(NONCE_NUMBER, BASE)) == FromWords(COMMITMENT)
  {
    NoncePointIs();
    CommitmentValue();
    hide FromWords, Le, Fermat, IsMultiple, Mult, Encode;
    EncodesTo(NONCE_NUMBER, 0xbfe20e0eb452480c859a1118d956e25259011768931469f9f888382e85279a572,
              0x6e01cf34d9c130e8c453f51b92fbd46c2f086d6d3d76a5ba89ccebdf11b8753,
              NONCE_POINT, 0x1f9a456c73adbb09755d7677ca6b9d4cfee947c2dda375f8be176a299ab58b43, 0x1, FromWords(COMMITMENT));
  }

  lemma ChallengeIs()
    ensures Le(Sha512(FromWords(COMMITMENT) + FromWords(PUBLIC) + FromWords(ABC_DIGEST))) == CHALLENGE_NUMBER
  {
    ChallengeHashed();
    RestValue();
    hide FromWords, Sha512, Le;
    FromConcat(COMMITMENT, PUBLIC);
    FromConcat(COMMITMENT + PUBLIC, ABC_DIGEST);
  }

  lemma PublishedKey()
    requires Fermat()
    ensures PublicKeyOf(FromWords(SECRET), BASE) == FromWords(PUBLIC)
  {
    SecretIs();
    PublicIs();
    hide FromWords, SecretScalar, Mult, Encode, Fermat;
  }

  /** The signature of Sha512("abc"). */
  lemma PublishedSignature(abc: seq<byte>)
    requires Fermat() && IsAbc(abc)
    ensures SignatureOf(Sha512(abc), FromWords(SECRET), FromWords(PUBLIC), BASE)
         == FromWords(COMMITMENT) + FromWords(RESPONSE)
  {
    Abc(abc);
    SecretIs();
    NonceIs();
    CommitmentIs();
    ChallengeIs();
    ResponseValue();
    hide FromWords, SecretScalar, Nonce, Mult, Encode, Fermat, Le, Sha512, SignatureOf;
    SignsTo(FromWords(ABC_DIGEST), FromWords(SECRET), FromWords(PUBLIC), SECRET_SCALAR, NONCE_NUMBER, FromWords(COMMITMENT),
            CHALLENGE_NUMBER, 0xe5aae74133d661a98f70f66d162c1254df6f0c7e2702260bd758ca38a8f4afc3b,
            0x489ed2bbfdafaa7f133a554731d4269cdffcdbc9d992b50bd495be20edf84bf,
            0xc11e76332a4f1a90862553f10e8bc9a49d47f16263cedab0285a7d6f1a28433b4,
            0x4a7317317f1bed97ac18a139c17ca3d30e03164c6c7fbfdecb390acc91f3509, FromWords(RESPONSE));
  }

  /** It is accepted. */
  lemma PublishedAccepted(abc: seq<byte>)
    requires Fermat() && IsAbc(abc)
    ensures Accepts(Sha512(abc), FromWords(PUBLIC), FromWords(COMMITMENT) + FromWords(RESPONSE), BASE)
  {
    hide *;
    PublishedKey();
    PublishedSignature(abc);
    BaseDomain();
    SignThenOpen(Sha512(abc), FromWords(SECRET), BASE);
  }
}
