/**
 The strings of the test vector "SHA(abc)" in section 7.1 of RFC 8032, and the three hashes that
 signing takes of them. Words are big-endian, so that the strings read as they are published.
 */
module SigningHashes {
  import opened Sha512Standard
  import opened Sha512Words
  import opened Sha512Constants
  import opened Sha512Examples

  const SECRET: seq<nat> := [
    0x833fe62409237b9d, 0x62ec77587520911e, 0x9a759cec1d19755b, 0x7da901b96dca3d42
  ]

  const PUBLIC: seq<nat> := [
    0xec172b93ad5e563b, 0xf4932c70e1245034, 0xc35467ef2efd4d64, 0xebf819683467e2bf
  ]

  const COMMITMENT: seq<nat> := [
    0xdc2a4459e7369633, 0xa52b1bf277839a00, 0x201009a3efbf3ecb, 0x69bea2186c26b589
  ]

  const RESPONSE: seq<nat> := [
    0x09351fc9ac90b3ec, 0xfdfbc7c66431e030, 0x3dca179c138ac17a, 0xd9bef1177331a704
  ]

  const SCALAR: seq<nat> := [
    0x30ddce4f59e04bec, 0x0b5713f19b07a092, 0x72d8dbd65da8a5f4, 0x1a8f52c77241b685
  ]

  const PREFIX: seq<nat> := [
    0xdd3ac9797b7d72ba, 0x33a7e9ae041678f6, 0x0bd85c0326a2f4ae, 0x8a7611b3620b54a7
  ]

  const KEY: seq<nat> := [
    0x833fe62409237b9d, 0x62ec77587520911e, 0x9a759cec1d19755b, 0x7da901b96dca3d42,
    0x8000000000000000, 0x0000000000000000, 0x0000000000000000, 0x0000000000000000,
    0x0000000000000000, 0x0000000000000000, 0x0000000000000000, 0x0000000000000000,
    0x0000000000000000, 0x0000000000000000, 0x0000000000000000, 0x0000000000000100
  ]

  lemma KeyFirst0()
    ensures HasWord(FromWords(KEY), 0, 0x833fe62409237b9d)
    ensures HasWord(FromWords(KEY), 1, 0x62ec77587520911e)
    ensures HasWord(FromWords(KEY), 2, 0x9a759cec1d19755b)
    ensures HasWord(FromWords(KEY), 3, 0x7da901b96dca3d42)
  {
    hide FromWords, Loads, HasWord;
    assert Loads(0x833fe62409237b9d, 0x833fe62409237b9d) by {
      Word(0x833fe62409237b9d, 0x83, 0x3f, 0xe6, 0x24, 0x09, 0x23, 0x7b, 0x9d, 0x833fe62409237b9d);
    }
    assert Loads(0x62ec77587520911e, 0x62ec77587520911e) by {
      Word(0x62ec77587520911e, 0x62, 0xec, 0x77, 0x58, 0x75, 0x20, 0x91, 0x1e, 0x62ec77587520911e);
    }
    assert Loads(0x9a759cec1d19755b, 0x9a759cec1d19755b) by {
      Word(0x9a759cec1d19755b, 0x9a, 0x75, 0x9c, 0xec, 0x1d, 0x19, 0x75, 0x5b, 0x9a759cec1d19755b);
    }
    assert Loads(0x7da901b96dca3d42, 0x7da901b96dca3d42) by {
      Word(0x7da901b96dca3d42, 0x7d, 0xa9, 0x01, 0xb9, 0x6d, 0xca, 0x3d, 0x42, 0x7da901b96dca3d42);
    }
    FirstWord(KEY, 0, 0x833fe62409237b9d);
    FirstWord(KEY, 1, 0x62ec77587520911e);
    FirstWord(KEY, 2, 0x9a759cec1d19755b);
    FirstWord(KEY, 3, 0x7da901b96dca3d42);
  }

  lemma KeyFirst4()
    ensures HasWord(FromWords(KEY), 4, 0x8000000000000000)
    ensures HasWord(FromWords(KEY), 5, 0x0000000000000000)
    ensures HasWord(FromWords(KEY), 6, 0x0000000000000000)
    ensures HasWord(FromWords(KEY), 7, 0x0000000000000000)
  {
    hide FromWords, Loads, HasWord;
    assert Loads(0x8000000000000000, 0x8000000000000000) by {
      Word(0x8000000000000000, 0x80, 0x00, 0x00, 0x00, 0x00, 0x00, 0x00, 0x00, 0x8000000000000000);
    }
    assert Loads(0x0000000000000000, 0x0000000000000000) by {
      Word(0x0000000000000000, 0x00, 0x00, 0x00, 0x00, 0x00, 0x00, 0x00, 0x00, 0x0000000000000000);
    }
    FirstWord(KEY, 4, 0x8000000000000000);
    FirstWord(KEY, 5, 0x0000000000000000);
    FirstWord(KEY, 6, 0x0000000000000000);
    FirstWord(KEY, 7, 0x0000000000000000);
  }

  lemma KeyFirst8()
    ensures HasWord(FromWords(KEY), 8, 0x0000000000000000)
    ensures HasWord(FromWords(KEY), 9, 0x0000000000000000)
    ensures HasWord(FromWords(KEY), 10, 0x0000000000000000)
    ensures HasWord(FromWords(KEY), 11, 0x0000000000000000)
  {
    hide FromWords, Loads, HasWord;
    assert Loads(0x0000000000000000, 0x0000000000000000) by {
      Word(0x0000000000000000, 0x00, 0x00, 0x00, 0x00, 0x00, 0x00, 0x00, 0x00, 0x0000000000000000);
    }
    FirstWord(KEY, 8, 0x0000000000000000);
    FirstWord(KEY, 9, 0x0000000000000000);
    FirstWord(KEY, 10, 0x0000000000000000);
    FirstWord(KEY, 11, 0x0000000000000000);
  }

  lemma KeyFirst12()
    ensures HasWord(FromWords(KEY), 12, 0x0000000000000000)
    ensures HasWord(FromWords(KEY), 13, 0x0000000000000000)
    ensures HasWord(FromWords(KEY), 14, 0x0000000000000000)
    ensures HasWord(FromWords(KEY), 15, 0x0000000000000100)
  {
    hide FromWords, Loads, HasWord;
    assert Loads(0x0000000000000000, 0x0000000000000000) by {
      Word(0x0000000000000000, 0x00, 0x00, 0x00, 0x00, 0x00, 0x00, 0x00, 0x00, 0x0000000000000000);
    }
    assert Loads(0x0000000000000100, 0x0000000000000100) by {
      Word(0x0000000000000100, 0x00, 0x00, 0x00, 0x00, 0x00, 0x00, 0x01, 0x00, 0x0000000000000100);
    }
    FirstWord(KEY, 12, 0x0000000000000000);
    FirstWord(KEY, 13, 0x0000000000000000);
    FirstWord(KEY, 14, 0x0000000000000000);
    FirstWord(KEY, 15, 0x0000000000000100);
  }

  lemma KeyWords0()
    ensures HasWords(FromWords(KEY), 0,
                     0x833fe62409237b9d, 0x62ec77587520911e, 0x9a759cec1d19755b, 0x7da901b96dca3d42,
                     0x8000000000000000, 0x0000000000000000, 0x0000000000000000, 0x0000000000000000)
  {
    hide FromWords, HasWord;
    KeyFirst0();
    KeyFirst4();
  }

  lemma KeyWords8()
    ensures HasWords(FromWords(KEY), 8,
                     0x0000000000000000, 0x0000000000000000, 0x0000000000000000, 0x0000000000000000,
                     0x0000000000000000, 0x0000000000000000, 0x0000000000000000, 0x0000000000000100)
  {
    hide FromWords, HasWord;
    KeyFirst8();
    KeyFirst12();
  }

  lemma KeyWords16()
    ensures HasWords(FromWords(KEY), 16,
                     0xb310f559db32a4d9, 0xfaa0c82bafcc2a54, 0xe598f8443abf8d79, 0x12cf5ee337a55539,
                     0x5efe9d73da1e12ad, 0x3c96e83bda285a68, 0x34daba34cc369763, 0xa2191346be5fae46)
  {
    KeyWords0();
    KeyWords8();
    hide FromWords, HasWords;
    NextWords(FromWords(KEY), 0, 0x833fe62409237b9d, 0x62ec77587520911e, 0x9a759cec1d19755b, 0x7da901b96dca3d42,
              0x8000000000000000, 0x0000000000000000, 0x0000000000000000, 0x0000000000000000,
              0x0000000000000000, 0x0000000000000000, 0x0000000000000000, 0x0000000000000000,
              0x0000000000000000, 0x0000000000000000, 0x0000000000000000, 0x0000000000000100,
              0xb310f559db32a4d9, 0xfaa0c82bafcc2a54, 0xe598f8443abf8d79, 0x12cf5ee337a55539,
              0x5efe9d73da1e12ad, 0x3c96e83bda285a68, 0x34daba34cc369763, 0xa2191346be5fae46);
  }

  lemma KeyWords24()
    ensures HasWords(FromWords(KEY), 24,
                     0x6f8ba601958f2316, 0xcd212280052c68c0, 0xac51324916946bc7, 0x462426a1e74609ad,
                     0x29d70b4790d887a8, 0x25e6c78605b00107, 0x01031672384f5c0d, 0xa06a35478ae93222)
  {
    KeyWords8();
    KeyWords16();
    hide FromWords, HasWords;
    NextWords(FromWords(KEY), 8, 0x0000000000000000, 0x0000000000000000, 0x0000000000000000, 0x0000000000000000,
              0x0000000000000000, 0x0000000000000000, 0x0000000000000000, 0x0000000000000100,
              0xb310f559db32a4d9, 0xfaa0c82bafcc2a54, 0xe598f8443abf8d79, 0x12cf5ee337a55539,
              0x5efe9d73da1e12ad, 0x3c96e83bda285a68, 0x34daba34cc369763, 0xa2191346be5fae46,
              0x6f8ba601958f2316, 0xcd212280052c68c0, 0xac51324916946bc7, 0x462426a1e74609ad,
              0x29d70b4790d887a8, 0x25e6c78605b00107, 0x01031672384f5c0d, 0xa06a35478ae93222);
  }

  lemma KeyWords32()
    ensures HasWords(FromWords(KEY), 32,
                     0x8c2ebd0ff3cae8fe, 0x59692683a73b60c6, 0x1a68a08756c96eb7, 0xe57712f35576a798,
                     0xf9ee7a1540492469, 0x33a88901d2855374, 0xd448e8928417b12d, 0x87a18ca0fce44cee)
  {
    KeyWords16();
    KeyWords24();
    hide FromWords, HasWords;
    NextWords(FromWords(KEY), 16, 0xb310f559db32a4d9, 0xfaa0c82bafcc2a54, 0xe598f8443abf8d79, 0x12cf5ee337a55539,
              0x5efe9d73da1e12ad, 0x3c96e83bda285a68, 0x34daba34cc369763, 0xa2191346be5fae46,
              0x6f8ba601958f2316, 0xcd212280052c68c0, 0xac51324916946bc7, 0x462426a1e74609ad,
              0x29d70b4790d887a8, 0x25e6c78605b00107, 0x01031672384f5c0d, 0xa06a35478ae93222,
              0x8c2ebd0ff3cae8fe, 0x59692683a73b60c6, 0x1a68a08756c96eb7, 0xe57712f35576a798,
              0xf9ee7a1540492469, 0x33a88901d2855374, 0xd448e8928417b12d, 0x87a18ca0fce44cee);
  }

  lemma KeyWords40()
    ensures HasWords(FromWords(KEY), 40,
                     0xc7f09c6c37234bdd, 0xaef5613b01ad4ab1, 0xf6815e6597e13750, 0xd8eb86f775b7d904,
                     0x8457c559eecf3842, 0xc6d140d914ee2c0a, 0xc4216d602c890e6e, 0x11ee1a069737a3c0)
  {
    KeyWords24();
    KeyWords32();
    hide FromWords, HasWords;
    NextWords(FromWords(KEY), 24, 0x6f8ba601958f2316, 0xcd212280052c68c0, 0xac51324916946bc7, 0x462426a1e74609ad,
              0x29d70b4790d887a8, 0x25e6c78605b00107, 0x01031672384f5c0d, 0xa06a35478ae93222,
              0x8c2ebd0ff3cae8fe, 0x59692683a73b60c6, 0x1a68a08756c96eb7, 0xe57712f35576a798,
              0xf9ee7a1540492469, 0x33a88901d2855374, 0xd448e8928417b12d, 0x87a18ca0fce44cee,
              0xc7f09c6c37234bdd, 0xaef5613b01ad4ab1, 0xf6815e6597e13750, 0xd8eb86f775b7d904,
              0x8457c559eecf3842, 0xc6d140d914ee2c0a, 0xc4216d602c890e6e, 0x11ee1a069737a3c0);
  }

  lemma KeyWords48()
    ensures HasWords(FromWords(KEY), 48,
                     0x29597ca61643844f, 0x0554d8ecc25d9767, 0x19cf9db69197fe7f, 0x972b5c811f227e60,
                     0x6014a905e5bbf4f5, 0xb2ecff728b959b40, 0x124adde86a30545e, 0x176fc70dcc5d6e89)
  {
    KeyWords32();
    KeyWords40();
    hide FromWords, HasWords;
    NextWords(FromWords(KEY), 32, 0x8c2ebd0ff3cae8fe, 0x59692683a73b60c6, 0x1a68a08756c96eb7, 0xe57712f35576a798,
              0xf9ee7a1540492469, 0x33a88901d2855374, 0xd448e8928417b12d, 0x87a18ca0fce44cee,
              0xc7f09c6c37234bdd, 0xaef5613b01ad4ab1, 0xf6815e6597e13750, 0xd8eb86f775b7d904,
              0x8457c559eecf3842, 0xc6d140d914ee2c0a, 0xc4216d602c890e6e, 0x11ee1a069737a3c0,
              0x29597ca61643844f, 0x0554d8ecc25d9767, 0x19cf9db69197fe7f, 0x972b5c811f227e60,
              0x6014a905e5bbf4f5, 0xb2ecff728b959b40, 0x124adde86a30545e, 0x176fc70dcc5d6e89);
  }

  lemma KeyWords56()
    ensures HasWords(FromWords(KEY), 56,
                     0xcd632b1572eca4b2, 0x0a12d161a5c9ba9a, 0xf3844883021523f2, 0xa294cbeb6bbf61e5,
                     0xdafaa3c4f160234d, 0xe089abef9e783c6a, 0x752dc39305c50aca, 0xbb6ac0b564053f86)
  {
    KeyWords40();
    KeyWords48();
    hide FromWords, HasWords;
    NextWords(FromWords(KEY), 40, 0xc7f09c6c37234bdd, 0xaef5613b01ad4ab1, 0xf6815e6597e13750, 0xd8eb86f775b7d904,
              0x8457c559eecf3842, 0xc6d140d914ee2c0a, 0xc4216d602c890e6e, 0x11ee1a069737a3c0,
              0x29597ca61643844f, 0x0554d8ecc25d9767, 0x19cf9db69197fe7f, 0x972b5c811f227e60,
              0x6014a905e5bbf4f5, 0xb2ecff728b959b40, 0x124adde86a30545e, 0x176fc70dcc5d6e89,
              0xcd632b1572eca4b2, 0x0a12d161a5c9ba9a, 0xf3844883021523f2, 0xa294cbeb6bbf61e5,
              0xdafaa3c4f160234d, 0xe089abef9e783c6a, 0x752dc39305c50aca, 0xbb6ac0b564053f86);
  }

  lemma KeyWords64()
    ensures HasWords(FromWords(KEY), 64,
                     0x22f5c45aeac28eb3, 0x6af239b2059b46e1, 0x2d84cedf8f3bdd11, 0xf6b691e8b16ff2b7,
                     0x7071e025f4c49a86, 0xc767206c9a885d35, 0xe161fb0ecca35d9c, 0x43cde369c026c07b)
  {
    KeyWords48();
    KeyWords56();
    hide FromWords, HasWords;
    NextWords(FromWords(KEY), 48, 0x29597ca61643844f, 0x0554d8ecc25d9767, 0x19cf9db69197fe7f, 0x972b5c811f227e60,
              0x6014a905e5bbf4f5, 0xb2ecff728b959b40, 0x124adde86a30545e, 0x176fc70dcc5d6e89,
              0xcd632b1572eca4b2, 0x0a12d161a5c9ba9a, 0xf3844883021523f2, 0xa294cbeb6bbf61e5,
              0xdafaa3c4f160234d, 0xe089abef9e783c6a, 0x752dc39305c50aca, 0xbb6ac0b564053f86,
              0x22f5c45aeac28eb3, 0x6af239b2059b46e1, 0x2d84cedf8f3bdd11, 0xf6b691e8b16ff2b7,
              0x7071e025f4c49a86, 0xc767206c9a885d35, 0xe161fb0ecca35d9c, 0x43cde369c026c07b);
  }

  lemma KeyWords72()
    ensures HasWords(FromWords(KEY), 72,
                     0x3aa6884149dc2b1a, 0x89dd8d93536de727, 0x70a65294d6b6893f, 0xa448f5aefdb892fb,
                     0x139ef735b8431ffc, 0xe47f38b3eb900ea1, 0x92bac61afdb9a05f, 0x39eb4b4abc77b3b1)
  {
    KeyWords56();
    KeyWords64();
    hide FromWords, HasWords;
    NextWords(FromWords(KEY), 56, 0xcd632b1572eca4b2, 0x0a12d161a5c9ba9a, 0xf3844883021523f2, 0xa294cbeb6bbf61e5,
              0xdafaa3c4f160234d, 0xe089abef9e783c6a, 0x752dc39305c50aca, 0xbb6ac0b564053f86,
              0x22f5c45aeac28eb3, 0x6af239b2059b46e1, 0x2d84cedf8f3bdd11, 0xf6b691e8b16ff2b7,
              0x7071e025f4c49a86, 0xc767206c9a885d35, 0xe161fb0ecca35d9c, 0x43cde369c026c07b,
              0x3aa6884149dc2b1a, 0x89dd8d93536de727, 0x70a65294d6b6893f, 0xa448f5aefdb892fb,
              0x139ef735b8431ffc, 0xe47f38b3eb900ea1, 0x92bac61afdb9a05f, 0x39eb4b4abc77b3b1);
  }

  lemma KeyRounds8()
    ensures HasState(INITIAL, FromWords(KEY), 8,
                     0x50dc1a236e840b22, 0xd05113f62b722291, 0x804128f6be98a53f, 0xa36b2225cd427a9a,
                     0x476013bef6c70a6d, 0x7f7d50ce5af4a12c, 0xd7dc9f442061a7a4, 0x54d6960f92ea2e0e)
  {
    hide FromWords, HasWords, HasState, HasConstants;
    FirstState(INITIAL, FromWords(KEY));
    KeyWords0();
    Constants0();
    NextRounds(INITIAL, FromWords(KEY), 0, 0x6a09e667f3bcc908, 0xbb67ae8584caa73b, 0x3c6ef372fe94f82b, 0xa54ff53a5f1d36f1,
               0x510e527fade682d1, 0x9b05688c2b3e6c1f, 0x1f83d9abfb41bd6b, 0x5be0cd19137e2179,
               0x428a2f98d728ae22, 0x7137449123ef65cd, 0xb5c0fbcfec4d3b2f, 0xe9b5dba58189dbbc,
               0x3956c25bf348b538, 0x59f111f1b605d019, 0x923f82a4af194f9b, 0xab1c5ed5da6d8118,
               0x833fe62409237b9d, 0x62ec77587520911e, 0x9a759cec1d19755b, 0x7da901b96dca3d42,
               0x8000000000000000, 0x0000000000000000, 0x0000000000000000, 0x0000000000000000,
               0x188d515cc6205992, 0x7aa884d883d89b2e, 0x0ef84c73d5123a90, 0x275789aae2370e68,
               0xdae6ab7c589fc140, 0x47f811b83a12ea32, 0x486d628e8a3afb9e, 0x3020239a907e9aca,
               0xa36b2225cd427a9a, 0x54d6960f92ea2e0e, 0x804128f6be98a53f, 0xd7dc9f442061a7a4,
               0xd05113f62b722291, 0x7f7d50ce5af4a12c, 0x50dc1a236e840b22, 0x476013bef6c70a6d);
  }

  lemma KeyRounds16()
    ensures HasState(INITIAL, FromWords(KEY), 16,
                     0xc1de286b90a92211, 0x4e78dd4a28272d85, 0x5cd8d683d4def1c6, 0x840eee2065550b1f,
                     0xddc2bf0b967b46fa, 0x8cb537affff42db0, 0x3778d3257b57b15e, 0x1cd529b9a06de591)
  {
    hide FromWords, HasWords, HasState, HasConstants;
    KeyRounds8();
    KeyWords8();
    Constants8();
    NextRounds(INITIAL, FromWords(KEY), 8, 0x50dc1a236e840b22, 0xd05113f62b722291, 0x804128f6be98a53f, 0xa36b2225cd427a9a,
               0x476013bef6c70a6d, 0x7f7d50ce5af4a12c, 0xd7dc9f442061a7a4, 0x54d6960f92ea2e0e,
               0xd807aa98a3030242, 0x12835b0145706fbe, 0x243185be4ee4b28c, 0x550c7dc3d5ffb4e2,
               0x72be5d74f27b896f, 0x80deb1fe3b1696b1, 0x9bdc06a725c71235, 0xc19bf174cf692694,
               0x0000000000000000, 0x0000000000000000, 0x0000000000000000, 0x0000000000000000,
               0x0000000000000000, 0x0000000000000000, 0x0000000000000000, 0x0000000000000100,
               0x7ebde1461170ec5d, 0xdc9b2f79d2cc273a, 0xebde23dc661a4da5, 0xfbd21a54eab6b0e1,
               0x01f64e5f12ac4df9, 0x967cc1624b4c19ef, 0x0468d21128b860ba, 0x98fbf460d7e982e5,
               0x840eee2065550b1f, 0x1cd529b9a06de591, 0x5cd8d683d4def1c6, 0x3778d3257b57b15e,
               0x4e78dd4a28272d85, 0x8cb537affff42db0, 0xc1de286b90a92211, 0xddc2bf0b967b46fa);
  }

  lemma KeyRounds24()
    ensures HasState(INITIAL, FromWords(KEY), 24,
                     0x28f6a47ebad8924c, 0xd95cb62bb0a0c0a3, 0xe28076c43e843276, 0xc55675c9d0eeaee4,
                     0x11d6e4e64c20368f, 0x5242299647c05610, 0x76a9f9f6a3fcb634, 0xffb6588b0356f754)
  {
    hide FromWords, HasWords, HasState, HasConstants;
    KeyRounds16();
    KeyWords16();
    Constants16();
    NextRounds(INITIAL, FromWords(KEY), 16, 0xc1de286b90a92211, 0x4e78dd4a28272d85, 0x5cd8d683d4def1c6, 0x840eee2065550b1f,
               0xddc2bf0b967b46fa, 0x8cb537affff42db0, 0x3778d3257b57b15e, 0x1cd529b9a06de591,
               0xe49b69c19ef14ad2, 0xefbe4786384f25e3, 0x0fc19dc68b8cd5b5, 0x240ca1cc77ac9c65,
               0x2de92c6f592b0275, 0x4a7484aa6ea6e483, 0x5cb0a9dcbd41fbd4, 0x76f988da831153b5,
               0xb310f559db32a4d9, 0xfaa0c82bafcc2a54, 0xe598f8443abf8d79, 0x12cf5ee337a55539,
               0x5efe9d73da1e12ad, 0x3c96e83bda285a68, 0x34daba34cc369763, 0xa2191346be5fae46,
               0x394b1606274eba94, 0x36e7ebfeadddf33b, 0x48f051a0d54b1ea8, 0x6af87146d769b20a,
               0xabd70dc78b104572, 0x902c1fdb504349a1, 0x5b7a32c5661b3d86, 0x16aedead7ca78fd5,
               0xc55675c9d0eeaee4, 0xffb6588b0356f754, 0xe28076c43e843276, 0x76a9f9f6a3fcb634,
               0xd95cb62bb0a0c0a3, 0x5242299647c05610, 0x28f6a47ebad8924c, 0x11d6e4e64c20368f);
  }

  lemma KeyRounds32()
    ensures HasState(INITIAL, FromWords(KEY), 32,
                     0xcf3383f2434f1c84, 0x607370aec857be5d, 0x5197bb22b18cbd71, 0x5fa54db1b0d9bace,
                     0x72b5249860826a7c, 0x456f5c886b48900d, 0xf4a110b2c0ca2f9f, 0xa2cf04cc8562835a)
  {
    hide FromWords, HasWords, HasState, HasConstants;
    KeyRounds24();
    KeyWords24();
    Constants24();
    NextRounds(INITIAL, FromWords(KEY), 24, 0x28f6a47ebad8924c, 0xd95cb62bb0a0c0a3, 0xe28076c43e843276, 0xc55675c9d0eeaee4,
               0x11d6e4e64c20368f, 0x5242299647c05610, 0x76a9f9f6a3fcb634, 0xffb6588b0356f754,
               0x983e5152ee66dfab, 0xa831c66d2db43210, 0xb00327c898fb213f, 0xbf597fc7beef0ee4,
               0xc6e00bf33da88fc2, 0xd5a79147930aa725, 0x06ca6351e003826f, 0x142929670a0e6e70,
               0x6f8ba601958f2316, 0xcd212280052c68c0, 0xac51324916946bc7, 0x462426a1e74609ad,
               0x29d70b4790d887a8, 0x25e6c78605b00107, 0x01031672384f5c0d, 0xa06a35478ae93222,
               0x09c4848fb3d86f61, 0xe7fb9275ad408823, 0x0e0d5464b1196de4, 0x18a1c9e32099fd28,
               0x287f8cb0048b01c0, 0x0465068ad6094905, 0x6037bf86b3fc3c7b, 0x574514efaf8389b2,
               0x5fa54db1b0d9bace, 0xa2cf04cc8562835a, 0x5197bb22b18cbd71, 0xf4a110b2c0ca2f9f,
               0x607370aec857be5d, 0x456f5c886b48900d, 0xcf3383f2434f1c84, 0x72b5249860826a7c);
  }

  lemma KeyRounds40()
    ensures HasState(INITIAL, FromWords(KEY), 40,
                     0xcaa3404d27870951, 0xe2725e42a95a0717, 0x7bfcc568ef89a0ce, 0x1e11f65557c3597a,
                     0x22b0043543868be5, 0xec4b23c74d39e2aa, 0x7bf0213717e0a07e, 0xc8139f2bf7a7446d)
  {
    hide FromWords, HasWords, HasState, HasConstants;
    KeyRounds32();
    KeyWords32();
    Constants32();
    NextRounds(INITIAL, FromWords(KEY), 32, 0xcf3383f2434f1c84, 0x607370aec857be5d, 0x5197bb22b18cbd71, 0x5fa54db1b0d9bace,
               0x72b5249860826a7c, 0x456f5c886b48900d, 0xf4a110b2c0ca2f9f, 0xa2cf04cc8562835a,
               0x27b70a8546d22ffc, 0x2e1b21385c26c926, 0x4d2c6dfc5ac42aed, 0x53380d139d95b3df,
               0x650a73548baf63de, 0x766a0abb3c77b2a8, 0x81c2c92e47edaee6, 0x92722c851482353b,
               0x8c2ebd0ff3cae8fe, 0x59692683a73b60c6, 0x1a68a08756c96eb7, 0xe57712f35576a798,
               0xf9ee7a1540492469, 0x33a88901d2855374, 0xd448e8928417b12d, 0x87a18ca0fce44cee,
               0x1c10bd511080d7d2, 0xf9ddc60b36a01d6c, 0xa28ff973304755d6, 0xb9e7b928bf549934,
               0x3bb21377616d92eb, 0xe00dc3feec6484d5, 0x8d21dedefc481af8, 0x018218316b96881d,
               0x1e11f65557c3597a, 0xc8139f2bf7a7446d, 0x7bfcc568ef89a0ce, 0x7bf0213717e0a07e,
               0xe2725e42a95a0717, 0xec4b23c74d39e2aa, 0xcaa3404d27870951, 0x22b0043543868be5);
  }

  lemma KeyRounds48()
    ensures HasState(INITIAL, FromWords(KEY), 48,
                     0x43ce204914dca1bc, 0x29783c38ea0482a5, 0x0bd055d6c2ccce56, 0x6aa4ded57a7a4296,
                     0xf3e8568dd94beb5e, 0xfbd683e7498ef397, 0x552331843770f173, 0x2fb3e3392fd94ce9)
  {
    hide FromWords, HasWords, HasState, HasConstants;
    KeyRounds40();
    KeyWords40();
    Constants40();
    NextRounds(INITIAL, FromWords(KEY), 40, 0xcaa3404d27870951, 0xe2725e42a95a0717, 0x7bfcc568ef89a0ce, 0x1e11f65557c3597a,
               0x22b0043543868be5, 0xec4b23c74d39e2aa, 0x7bf0213717e0a07e, 0xc8139f2bf7a7446d,
               0xa2bfe8a14cf10364, 0xa81a664bbc423001, 0xc24b8b70d0f89791, 0xc76c51a30654be30,
               0xd192e819d6ef5218, 0xd69906245565a910, 0xf40e35855771202a, 0x106aa07032bbd1b8,
               0xc7f09c6c37234bdd, 0xaef5613b01ad4ab1, 0xf6815e6597e13750, 0xd8eb86f775b7d904,
               0x8457c559eecf3842, 0xc6d140d914ee2c0a, 0xc4216d602c890e6e, 0x11ee1a069737a3c0,
               0xdaa0e40ddef9d0f9, 0x61e23cc00c2896db, 0xecc707d00750fa2e, 0x1a8300e917ec6195,
               0x4ffd6eec35bba3ba, 0x92f74b50acab9f5d, 0xc7279718464b4930, 0x3425cc8c3d221022,
               0x6aa4ded57a7a4296, 0x2fb3e3392fd94ce9, 0x0bd055d6c2ccce56, 0x552331843770f173,
               0x29783c38ea0482a5, 0xfbd683e7498ef397, 0x43ce204914dca1bc, 0xf3e8568dd94beb5e);
  }

  lemma KeyRounds56()
    ensures HasState(INITIAL, FromWords(KEY), 56,
                     0x68c56cb5fb5c1802, 0xd5a3d96e3a6663c8, 0x8eeebf63fff76b3b, 0x363eafbea2220324,
                     0x2a67fd4ee8397849, 0x63d0255686f788bd, 0xdfcfea639d8daacd, 0x1f0291e92ef6898c)
  {
    hide FromWords, HasWords, HasState, HasConstants;
    KeyRounds48();
    KeyWords48();
    Constants48();
    NextRounds(INITIAL, FromWords(KEY), 48, 0x43ce204914dca1bc, 0x29783c38ea0482a5, 0x0bd055d6c2ccce56, 0x6aa4ded57a7a4296,
               0xf3e8568dd94beb5e, 0xfbd683e7498ef397, 0x552331843770f173, 0x2fb3e3392fd94ce9,
               0x19a4c116b8d2d0c8, 0x1e376c085141ab53, 0x2748774cdf8eeb99, 0x34b0bcb5e19b48a8,
               0x391c0cb3c5c95a63, 0x4ed8aa4ae3418acb, 0x5b9cca4f7763e373, 0x682e6ff3d6b2b8a3,
               0x29597ca61643844f, 0x0554d8ecc25d9767, 0x19cf9db69197fe7f, 0x972b5c811f227e60,
               0x6014a905e5bbf4f5, 0xb2ecff728b959b40, 0x124adde86a30545e, 0x176fc70dcc5d6e89,
               0x2262da6b667b1004, 0xe65af9ffc992bf23, 0xad6cdd7669e16f51, 0x2cefc8809f5fe76b,
               0x649f936b6d4214c7, 0x81eb8b28d3813cd7, 0x4cdcb8c0a641ea79, 0x9290b0302fa38aa6,
               0x363eafbea2220324, 0x1f0291e92ef6898c, 0x8eeebf63fff76b3b, 0xdfcfea639d8daacd,
               0xd5a3d96e3a6663c8, 0x63d0255686f788bd, 0x68c56cb5fb5c1802, 0x2a67fd4ee8397849);
  }

  lemma KeyRounds64()
    ensures HasState(INITIAL, FromWords(KEY), 64,
                     0x98a8bfdbc683f0f6, 0xcb3b9aa7a92bad56, 0xfe9a7e884aed176e, 0xb9098c8cf24d0736,
                     0xa2a5c4d634b4c3c1, 0x257cf33e3c065d07, 0xcc6539034ea80e2e, 0xcd92865a58a38f91)
  {
    hide FromWords, HasWords, HasState, HasConstants;
    KeyRounds56();
    KeyWords56();
    Constants56();
    NextRounds(INITIAL, FromWords(KEY), 56, 0x68c56cb5fb5c1802, 0xd5a3d96e3a6663c8, 0x8eeebf63fff76b3b, 0x363eafbea2220324,
               0x2a67fd4ee8397849, 0x63d0255686f788bd, 0xdfcfea639d8daacd, 0x1f0291e92ef6898c,
               0x748f82ee5defb2fc, 0x78a5636f43172f60, 0x84c87814a1f0ab72, 0x8cc702081a6439ec,
               0x90befffa23631e28, 0xa4506cebde82bde9, 0xbef9a3f7b2c67915, 0xc67178f2e372532b,
               0xcd632b1572eca4b2, 0x0a12d161a5c9ba9a, 0xf3844883021523f2, 0xa294cbeb6bbf61e5,
               0xdafaa3c4f160234d, 0xe089abef9e783c6a, 0x752dc39305c50aca, 0xbb6ac0b564053f86,
               0xdec8a28cd2b21a91, 0xa73f16cd66a79800, 0x890b6fccb8b0b5eb, 0x350ffaf705ac757b,
               0xc3dc4e3961440ab2, 0x9460a670fb142410, 0x3cbb0ceb057f1627, 0x9ae4e97e2776caf2,
               0xb9098c8cf24d0736, 0xcd92865a58a38f91, 0xfe9a7e884aed176e, 0xcc6539034ea80e2e,
               0xcb3b9aa7a92bad56, 0x257cf33e3c065d07, 0x98a8bfdbc683f0f6, 0xa2a5c4d634b4c3c1);
  }

  lemma KeyRounds72()
    ensures HasState(INITIAL, FromWords(KEY), 72,
                     0xca4ab04be473c5fa, 0x9a59cb4ad734c43b, 0xb3f54b02a5e11daf, 0x84f6ca97f3cd064c,
                     0x579a3fea93459df3, 0xde0c0ae83dab89b9, 0xccc6956a77f65bf2, 0xc59f24d96567fb6d)
  {
    hide FromWords, HasWords, HasState, HasConstants;
    KeyRounds64();
    KeyWords64();
    Constants64();
    NextRounds(INITIAL, FromWords(KEY), 64, 0x98a8bfdbc683f0f6, 0xcb3b9aa7a92bad56, 0xfe9a7e884aed176e, 0xb9098c8cf24d0736,
               0xa2a5c4d634b4c3c1, 0x257cf33e3c065d07, 0xcc6539034ea80e2e, 0xcd92865a58a38f91,
               0xca273eceea26619c, 0xd186b8c721c0c207, 0xeada7dd6cde0eb1e, 0xf57d4f7fee6ed178,
               0x06f067aa72176fba, 0x0a637dc5a2c898a6, 0x113f9804bef90dae, 0x1b710b35131c471b,
               0x22f5c45aeac28eb3, 0x6af239b2059b46e1, 0x2d84cedf8f3bdd11, 0xf6b691e8b16ff2b7,
               0x7071e025f4c49a86, 0xc767206c9a885d35, 0xe161fb0ecca35d9c, 0x43cde369c026c07b,
               0x84ceee3cba9112d6, 0x350ac78820a1e161, 0xea8af483bd5b7a97, 0x61ba68541cf01b97,
               0xe9c8eacbe729e407, 0xeeddc5a953e93d95, 0x737475e0daf55211, 0x06b7dc797930c897,
               0x84f6ca97f3cd064c, 0xc59f24d96567fb6d, 0xb3f54b02a5e11daf, 0xccc6956a77f65bf2,
               0x9a59cb4ad734c43b, 0xde0c0ae83dab89b9, 0xca4ab04be473c5fa, 0x579a3fea93459df3);
  }

  lemma KeyRounds80()
    ensures HasState(INITIAL, FromWords(KEY), 80,
                     0xc6d3e7e7662382e4, 0x4fef656c163cf957, 0x3669e8635f13adc9, 0x753f5d8d13247f94,
                     0x8c2c76f9cd96efe9, 0x98a28121d8d80cd7, 0xec5482572b613743, 0x2e95449a4e8d332e)
  {
    hide FromWords, HasWords, HasState, HasConstants;
    KeyRounds72();
    KeyWords72();
    Constants72();
    NextRounds(INITIAL, FromWords(KEY), 72, 0xca4ab04be473c5fa, 0x9a59cb4ad734c43b, 0xb3f54b02a5e11daf, 0x84f6ca97f3cd064c,
               0x579a3fea93459df3, 0xde0c0ae83dab89b9, 0xccc6956a77f65bf2, 0xc59f24d96567fb6d,
               0x28db77f523047d84, 0x32caab7b40c72493, 0x3c9ebe0a15c9bebc, 0x431d67c49c100d4c,
               0x4cc5d4becb3e42b6, 0x597f299cfc657e2a, 0x5fcb6fab3ad6faec, 0x6c44198c4a475817,
               0x3aa6884149dc2b1a, 0x89dd8d93536de727, 0x70a65294d6b6893f, 0xa448f5aefdb892fb,
               0x139ef735b8431ffc, 0xe47f38b3eb900ea1, 0x92bac61afdb9a05f, 0x39eb4b4abc77b3b1,
               0xb1a7eddd9b16981b, 0x725ca3d0c5c49ae0, 0x13c825e435d43787, 0xc0d77d0d430a2786,
               0xa030f9b38f360105, 0x0e624130babc6834, 0xfb34cf53023abc2a, 0x9c2a958fe754ac76,
               0x753f5d8d13247f94, 0x2e95449a4e8d332e, 0x3669e8635f13adc9, 0xec5482572b613743,
               0x4fef656c163cf957, 0x98a28121d8d80cd7, 0xc6d3e7e7662382e4, 0x8c2c76f9cd96efe9);
  }

  const KEY_END: seq<bv64> := [
    0x30ddce4f59e04bec, 0x0b5713f19b07a092, 0x72d8dbd65da8a5f4, 0x1a8f52c77241b685,
    0xdd3ac9797b7d72ba, 0x33a7e9ae041678f6, 0x0bd85c0326a2f4ae, 0x8a7611b3620b54a7
  ]

  lemma KeyCompressed()
    ensures Compress(INITIAL, FromWords(KEY)) == KEY_END
  {
    KeyRounds80();
    hide FromWords, HasState, Compress;
    Compressed(INITIAL, FromWords(KEY), 0xc6d3e7e7662382e4, 0x4fef656c163cf957, 0x3669e8635f13adc9, 0x753f5d8d13247f94,
               0x8c2c76f9cd96efe9, 0x98a28121d8d80cd7, 0xec5482572b613743, 0x2e95449a4e8d332e,
               KEY_END);
  }

  const KEY_DIGEST: seq<nat> := [
    0x30ddce4f59e04bec, 0x0b5713f19b07a092, 0x72d8dbd65da8a5f4, 0x1a8f52c77241b685,
    0xdd3ac9797b7d72ba, 0x33a7e9ae041678f6, 0x0bd85c0326a2f4ae, 0x8a7611b3620b54a7
  ]

  lemma KeySame()
    ensures SameWords(KEY_END, KEY_DIGEST)
  {
  }

  const NONCE: seq<nat> := [
    0xdd3ac9797b7d72ba, 0x33a7e9ae041678f6, 0x0bd85c0326a2f4ae, 0x8a7611b3620b54a7,
    0xddaf35a193617aba, 0xcc417349ae204131, 0x12e6fa4e89a97ea2, 0x0a9eeee64b55d39a,
    0x2192992a274fc1a8, 0x36ba3c23a3feebbd, 0x454d4423643ce80e, 0x2a9ac94fa54ca49f,
    0x8000000000000000, 0x0000000000000000, 0x0000000000000000, 0x0000000000000300
  ]

  lemma NonceFirst0()
    ensures HasWord(FromWords(NONCE), 0, 0xdd3ac9797b7d72ba)
    ensures HasWord(FromWords(NONCE), 1, 0x33a7e9ae041678f6)
    ensures HasWord(FromWords(NONCE), 2, 0x0bd85c0326a2f4ae)
    ensures HasWord(FromWords(NONCE), 3, 0x8a7611b3620b54a7)
  {
    hide FromWords, Loads, HasWord;
    assert Loads(0xdd3ac9797b7d72ba, 0xdd3ac9797b7d72ba) by {
      Word(0xdd3ac9797b7d72ba, 0xdd, 0x3a, 0xc9, 0x79, 0x7b, 0x7d, 0x72, 0xba, 0xdd3ac9797b7d72ba);
    }
    assert Loads(0x33a7e9ae041678f6, 0x33a7e9ae041678f6) by {
      Word(0x33a7e9ae041678f6, 0x33, 0xa7, 0xe9, 0xae, 0x04, 0x16, 0x78, 0xf6, 0x33a7e9ae041678f6);
    }
    assert Loads(0x0bd85c0326a2f4ae, 0x0bd85c0326a2f4ae) by {
      Word(0x0bd85c0326a2f4ae, 0x0b, 0xd8, 0x5c, 0x03, 0x26, 0xa2, 0xf4, 0xae, 0x0bd85c0326a2f4ae);
    }
    assert Loads(0x8a7611b3620b54a7, 0x8a7611b3620b54a7) by {
      Word(0x8a7611b3620b54a7, 0x8a, 0x76, 0x11, 0xb3, 0x62, 0x0b, 0x54, 0xa7, 0x8a7611b3620b54a7);
    }
    FirstWord(NONCE, 0, 0xdd3ac9797b7d72ba);
    FirstWord(NONCE, 1, 0x33a7e9ae041678f6);
    FirstWord(NONCE, 2, 0x0bd85c0326a2f4ae);
    FirstWord(NONCE, 3, 0x8a7611b3620b54a7);
  }

  lemma NonceFirst4()
    ensures HasWord(FromWords(NONCE), 4, 0xddaf35a193617aba)
    ensures HasWord(FromWords(NONCE), 5, 0xcc417349ae204131)
    ensures HasWord(FromWords(NONCE), 6, 0x12e6fa4e89a97ea2)
    ensures HasWord(FromWords(NONCE), 7, 0x0a9eeee64b55d39a)
  {
    hide FromWords, Loads, HasWord;
    assert Loads(0xddaf35a193617aba, 0xddaf35a193617aba) by {
      Word(0xddaf35a193617aba, 0xdd, 0xaf, 0x35, 0xa1, 0x93, 0x61, 0x7a, 0xba, 0xddaf35a193617aba);
    }
    assert Loads(0xcc417349ae204131, 0xcc417349ae204131) by {
      Word(0xcc417349ae204131, 0xcc, 0x41, 0x73, 0x49, 0xae, 0x20, 0x41, 0x31, 0xcc417349ae204131);
    }
    assert Loads(0x12e6fa4e89a97ea2, 0x12e6fa4e89a97ea2) by {
      Word(0x12e6fa4e89a97ea2, 0x12, 0xe6, 0xfa, 0x4e, 0x89, 0xa9, 0x7e, 0xa2, 0x12e6fa4e89a97ea2);
    }
    assert Loads(0x0a9eeee64b55d39a, 0x0a9eeee64b55d39a) by {
      Word(0x0a9eeee64b55d39a, 0x0a, 0x9e, 0xee, 0xe6, 0x4b, 0x55, 0xd3, 0x9a, 0x0a9eeee64b55d39a);
    }
    FirstWord(NONCE, 4, 0xddaf35a193617aba);
    FirstWord(NONCE, 5, 0xcc417349ae204131);
    FirstWord(NONCE, 6, 0x12e6fa4e89a97ea2);
    FirstWord(NONCE, 7, 0x0a9eeee64b55d39a);
  }

  lemma NonceFirst8()
    ensures HasWord(FromWords(NONCE), 8, 0x2192992a274fc1a8)
    ensures HasWord(FromWords(NONCE), 9, 0x36ba3c23a3feebbd)
    ensures HasWord(FromWords(NONCE), 10, 0x454d4423643ce80e)
    ensures HasWord(FromWords(NONCE), 11, 0x2a9ac94fa54ca49f)
  {
    hide FromWords, Loads, HasWord;
    assert Loads(0x2192992a274fc1a8, 0x2192992a274fc1a8) by {
      Word(0x2192992a274fc1a8, 0x21, 0x92, 0x99, 0x2a, 0x27, 0x4f, 0xc1, 0xa8, 0x2192992a274fc1a8);
    }
    assert Loads(0x36ba3c23a3feebbd, 0x36ba3c23a3feebbd) by {
      Word(0x36ba3c23a3feebbd, 0x36, 0xba, 0x3c, 0x23, 0xa3, 0xfe, 0xeb, 0xbd, 0x36ba3c23a3feebbd);
    }
    assert Loads(0x454d4423643ce80e, 0x454d4423643ce80e) by {
      Word(0x454d4423643ce80e, 0x45, 0x4d, 0x44, 0x23, 0x64, 0x3c, 0xe8, 0x0e, 0x454d4423643ce80e);
    }
    assert Loads(0x2a9ac94fa54ca49f, 0x2a9ac94fa54ca49f) by {
      Word(0x2a9ac94fa54ca49f, 0x2a, 0x9a, 0xc9, 0x4f, 0xa5, 0x4c, 0xa4, 0x9f, 0x2a9ac94fa54ca49f);
    }
    FirstWord(NONCE, 8, 0x2192992a274fc1a8);
    FirstWord(NONCE, 9, 0x36ba3c23a3feebbd);
    FirstWord(NONCE, 10, 0x454d4423643ce80e);
    FirstWord(NONCE, 11, 0x2a9ac94fa54ca49f);
  }

  lemma NonceFirst12()
    ensures HasWord(FromWords(NONCE), 12, 0x8000000000000000)
    ensures HasWord(FromWords(NONCE), 13, 0x0000000000000000)
    ensures HasWord(FromWords(NONCE), 14, 0x0000000000000000)
    ensures HasWord(FromWords(NONCE), 15, 0x0000000000000300)
  {
    hide FromWords, Loads, HasWord;
    assert Loads(0x8000000000000000, 0x8000000000000000) by {
      Word(0x8000000000000000, 0x80, 0x00, 0x00, 0x00, 0x00, 0x00, 0x00, 0x00, 0x8000000000000000);
    }
    assert Loads(0x0000000000000000, 0x0000000000000000) by {
      Word(0x0000000000000000, 0x00, 0x00, 0x00, 0x00, 0x00, 0x00, 0x00, 0x00, 0x0000000000000000);
    }
    assert Loads(0x0000000000000300, 0x0000000000000300) by {
      Word(0x0000000000000300, 0x00, 0x00, 0x00, 0x00, 0x00, 0x00, 0x03, 0x00, 0x0000000000000300);
    }
    FirstWord(NONCE, 12, 0x8000000000000000);
    FirstWord(NONCE, 13, 0x0000000000000000);
    FirstWord(NONCE, 14, 0x0000000000000000);
    FirstWord(NONCE, 15, 0x0000000000000300);
  }

  lemma NonceWords0()
    ensures HasWords(FromWords(NONCE), 0,
                     0xdd3ac9797b7d72ba, 0x33a7e9ae041678f6, 0x0bd85c0326a2f4ae, 0x8a7611b3620b54a7,
                     0xddaf35a193617aba, 0xcc417349ae204131, 0x12e6fa4e89a97ea2, 0x0a9eeee64b55d39a)
  {
    hide FromWords, HasWord;
    NonceFirst0();
    NonceFirst4();
  }

  lemma NonceWords8()
    ensures HasWords(FromWords(NONCE), 8,
                     0x2192992a274fc1a8, 0x36ba3c23a3feebbd, 0x454d4423643ce80e, 0x2a9ac94fa54ca49f,
                     0x8000000000000000, 0x0000000000000000, 0x0000000000000000, 0x0000000000000300)
  {
    hide FromWords, HasWord;
    NonceFirst8();
    NonceFirst12();
  }

  lemma NonceWords16()
    ensures HasWords(FromWords(NONCE), 16,
                     0x037c228b0f836569, 0x254574b6fe8e165a, 0x115a7cfc05079828, 0xc89d720f0e2cc8d2,
                     0x2db73c0b38fb1a95, 0x56598617288d9a73, 0xc09567ada5daf937, 0xc7a24919f0b36a7b)
  {
    NonceWords0();
    NonceWords8();
    hide FromWords, HasWords;
    NextWords(FromWords(NONCE), 0, 0xdd3ac9797b7d72ba, 0x33a7e9ae041678f6, 0x0bd85c0326a2f4ae, 0x8a7611b3620b54a7,
              0xddaf35a193617aba, 0xcc417349ae204131, 0x12e6fa4e89a97ea2, 0x0a9eeee64b55d39a,
              0x2192992a274fc1a8, 0x36ba3c23a3feebbd, 0x454d4423643ce80e, 0x2a9ac94fa54ca49f,
              0x8000000000000000, 0x0000000000000000, 0x0000000000000000, 0x0000000000000300,
              0x037c228b0f836569, 0x254574b6fe8e165a, 0x115a7cfc05079828, 0xc89d720f0e2cc8d2,
              0x2db73c0b38fb1a95, 0x56598617288d9a73, 0xc09567ada5daf937, 0xc7a24919f0b36a7b);
  }

  lemma NonceWords24()
    ensures HasWords(FromWords(NONCE), 24,
                     0xc56e6f180fae65c5, 0xc7c1e81d2c335585, 0xfcfbfc004561cece, 0xf173050c06718432,
                     0xb44f56847e299453, 0x79712208090f6080, 0x59c44909fb17f709, 0xd4a6e020769dd880)
  {
    NonceWords8();
    NonceWords16();
    hide FromWords, HasWords;
    NextWords(FromWords(NONCE), 8, 0x2192992a274fc1a8, 0x36ba3c23a3feebbd, 0x454d4423643ce80e, 0x2a9ac94fa54ca49f,
              0x8000000000000000, 0x0000000000000000, 0x0000000000000000, 0x0000000000000300,
              0x037c228b0f836569, 0x254574b6fe8e165a, 0x115a7cfc05079828, 0xc89d720f0e2cc8d2,
              0x2db73c0b38fb1a95, 0x56598617288d9a73, 0xc09567ada5daf937, 0xc7a24919f0b36a7b,
              0xc56e6f180fae65c5, 0xc7c1e81d2c335585, 0xfcfbfc004561cece, 0xf173050c06718432,
              0xb44f56847e299453, 0x79712208090f6080, 0x59c44909fb17f709, 0xd4a6e020769dd880);
  }

  lemma NonceWords32()
    ensures HasWords(FromWords(NONCE), 32,
                     0x45aff2c2566e2cf9, 0x6055c1ca33ad679b, 0xa3daa205e5edc33e, 0x307645311b27acba,
                     0x243c36715c02e8f0, 0xfd0d92321da07d13, 0xab4551fa926a99dc, 0x188599930e1c829f)
  {
    NonceWords16();
    NonceWords24();
    hide FromWords, HasWords;
    NextWords(FromWords(NONCE), 16, 0x037c228b0f836569, 0x254574b6fe8e165a, 0x115a7cfc05079828, 0xc89d720f0e2cc8d2,
              0x2db73c0b38fb1a95, 0x56598617288d9a73, 0xc09567ada5daf937, 0xc7a24919f0b36a7b,
              0xc56e6f180fae65c5, 0xc7c1e81d2c335585, 0xfcfbfc004561cece, 0xf173050c06718432,
              0xb44f56847e299453, 0x79712208090f6080, 0x59c44909fb17f709, 0xd4a6e020769dd880,
              0x45aff2c2566e2cf9, 0x6055c1ca33ad679b, 0xa3daa205e5edc33e, 0x307645311b27acba,
              0x243c36715c02e8f0, 0xfd0d92321da07d13, 0xab4551fa926a99dc, 0x188599930e1c829f);
  }

  lemma NonceWords40()
    ensures HasWords(FromWords(NONCE), 40,
                     0x9928f714c7ec036b, 0x7132b615c48e6528, 0xc46ac119ea58ffc9, 0xe39f2a873baec5fd,
                     0xad4e865f25b45441, 0x91877142a7c93186, 0x3fc1bb16e7095bbb, 0x7136268c87567bff)
  {
    NonceWords24();
    NonceWords32();
    hide FromWords, HasWords;
    NextWords(FromWords(NONCE), 24, 0xc56e6f180fae65c5, 0xc7c1e81d2c335585, 0xfcfbfc004561cece, 0xf173050c06718432,
              0xb44f56847e299453, 0x79712208090f6080, 0x59c44909fb17f709, 0xd4a6e020769dd880,
              0x45aff2c2566e2cf9, 0x6055c1ca33ad679b, 0xa3daa205e5edc33e, 0x307645311b27acba,
              0x243c36715c02e8f0, 0xfd0d92321da07d13, 0xab4551fa926a99dc, 0x188599930e1c829f,
              0x9928f714c7ec036b, 0x7132b615c48e6528, 0xc46ac119ea58ffc9, 0xe39f2a873baec5fd,
              0xad4e865f25b45441, 0x91877142a7c93186, 0x3fc1bb16e7095bbb, 0x7136268c87567bff);
  }

  lemma NonceWords48()
    ensures HasWords(FromWords(NONCE), 48,
                     0xb7f28122b732fadc, 0xd9d3c4a1e75e563c, 0x0bf5dad463ca93cb, 0xc7761c1a44bd6891,
                     0xb03de81a514430f2, 0x5aedb4a4daa8c5cd, 0x35189c5faa455821, 0x4576d5f314c5c953)
  {
    NonceWords32();
    NonceWords40();
    hide FromWords, HasWords;
    NextWords(FromWords(NONCE), 32, 0x45aff2c2566e2cf9, 0x6055c1ca33ad679b, 0xa3daa205e5edc33e, 0x307645311b27acba,
              0x243c36715c02e8f0, 0xfd0d92321da07d13, 0xab4551fa926a99dc, 0x188599930e1c829f,
              0x9928f714c7ec036b, 0x7132b615c48e6528, 0xc46ac119ea58ffc9, 0xe39f2a873baec5fd,
              0xad4e865f25b45441, 0x91877142a7c93186, 0x3fc1bb16e7095bbb, 0x7136268c87567bff,
              0xb7f28122b732fadc, 0xd9d3c4a1e75e563c, 0x0bf5dad463ca93cb, 0xc7761c1a44bd6891,
              0xb03de81a514430f2, 0x5aedb4a4daa8c5cd, 0x35189c5faa455821, 0x4576d5f314c5c953);
  }

  lemma NonceWords56()
    ensures HasWords(FromWords(NONCE), 56,
                     0x861b6eb6ca5d1b03, 0x3b2b8d1bb82ecefe, 0x2b6f7a4027c96f45, 0x2a9ca4d3dedda99a,
                     0x4dec36bc6606390c, 0xccbcbe46c7c88184, 0x75b866bc197048c7, 0xf45a85ae4087b83c)
  {
    NonceWords40();
    NonceWords48();
    hide FromWords, HasWords;
    NextWords(FromWords(NONCE), 40, 0x9928f714c7ec036b, 0x7132b615c48e6528, 0xc46ac119ea58ffc9, 0xe39f2a873baec5fd,
              0xad4e865f25b45441, 0x91877142a7c93186, 0x3fc1bb16e7095bbb, 0x7136268c87567bff,
              0xb7f28122b732fadc, 0xd9d3c4a1e75e563c, 0x0bf5dad463ca93cb, 0xc7761c1a44bd6891,
              0xb03de81a514430f2, 0x5aedb4a4daa8c5cd, 0x35189c5faa455821, 0x4576d5f314c5c953,
              0x861b6eb6ca5d1b03, 0x3b2b8d1bb82ecefe, 0x2b6f7a4027c96f45, 0x2a9ca4d3dedda99a,
              0x4dec36bc6606390c, 0xccbcbe46c7c88184, 0x75b866bc197048c7, 0xf45a85ae4087b83c);
  }

  lemma NonceWords64()
    ensures HasWords(FromWords(NONCE), 64,
                     0xe9aedf28b81897f4, 0xaa2d0bd749f2f2e9, 0x06b3f2de08fd7c51, 0xcecee4dc64e02b7d,
                     0x77a40cdddadc2484, 0xfc9d2795b3feca6b, 0x53568bbeaa3eab39, 0x2f0387a4f919e9fc)
  {
    NonceWords48();
    NonceWords56();
    hide FromWords, HasWords;
    NextWords(FromWords(NONCE), 48, 0xb7f28122b732fadc, 0xd9d3c4a1e75e563c, 0x0bf5dad463ca93cb, 0xc7761c1a44bd6891,
              0xb03de81a514430f2, 0x5aedb4a4daa8c5cd, 0x35189c5faa455821, 0x4576d5f314c5c953,
              0x861b6eb6ca5d1b03, 0x3b2b8d1bb82ecefe, 0x2b6f7a4027c96f45, 0x2a9ca4d3dedda99a,
              0x4dec36bc6606390c, 0xccbcbe46c7c88184, 0x75b866bc197048c7, 0xf45a85ae4087b83c,
              0xe9aedf28b81897f4, 0xaa2d0bd749f2f2e9, 0x06b3f2de08fd7c51, 0xcecee4dc64e02b7d,
              0x77a40cdddadc2484, 0xfc9d2795b3feca6b, 0x53568bbeaa3eab39, 0x2f0387a4f919e9fc);
  }

  lemma NonceWords72()
    ensures HasWords(FromWords(NONCE), 72,
                     0x62bf625a7f599839, 0x58494381c098eec7, 0xb0e719aea7323539, 0xab54b2c0dd18127d,
                     0xf0f1604322e9d2b6, 0xf79db7a2b887c97e, 0xaa0bb5411cd9de39, 0x1f239a36ddcdb679)
  {
    NonceWords56();
    NonceWords64();
    hide FromWords, HasWords;
    NextWords(FromWords(NONCE), 56, 0x861b6eb6ca5d1b03, 0x3b2b8d1bb82ecefe, 0x2b6f7a4027c96f45, 0x2a9ca4d3dedda99a,
              0x4dec36bc6606390c, 0xccbcbe46c7c88184, 0x75b866bc197048c7, 0xf45a85ae4087b83c,
              0xe9aedf28b81897f4, 0xaa2d0bd749f2f2e9, 0x06b3f2de08fd7c51, 0xcecee4dc64e02b7d,
              0x77a40cdddadc2484, 0xfc9d2795b3feca6b, 0x53568bbeaa3eab39, 0x2f0387a4f919e9fc,
              0x62bf625a7f599839, 0x58494381c098eec7, 0xb0e719aea7323539, 0xab54b2c0dd18127d,
              0xf0f1604322e9d2b6, 0xf79db7a2b887c97e, 0xaa0bb5411cd9de39, 0x1f239a36ddcdb679);
  }

  lemma NonceRounds8()
    ensures HasState(INITIAL, FromWords(NONCE), 8,
                     0x539d8148c8e7e262, 0xe83ccdd3b1f879b5, 0xbf523c357ca063b5, 0xf4c6513428ac0d06,
                     0x20e1a57a1cfb9a36, 0xcbf517754fbf6bf8, 0x243656870082e5b0, 0xff346ec7b65aa401)
  {
    hide FromWords, HasWords, HasState, HasConstants;
    FirstState(INITIAL, FromWords(NONCE));
    NonceWords0();
    Constants0();
    NextRounds(INITIAL, FromWords(NONCE), 0, 0x6a09e667f3bcc908, 0xbb67ae8584caa73b, 0x3c6ef372fe94f82b, 0xa54ff53a5f1d36f1,
               0x510e527fade682d1, 0x9b05688c2b3e6c1f, 0x1f83d9abfb41bd6b, 0x5be0cd19137e2179,
               0x428a2f98d728ae22, 0x7137449123ef65cd, 0xb5c0fbcfec4d3b2f, 0xe9b5dba58189dbbc,
               0x3956c25bf348b538, 0x59f111f1b605d019, 0x923f82a4af194f9b, 0xab1c5ed5da6d8118,
               0xdd3ac9797b7d72ba, 0x33a7e9ae041678f6, 0x0bd85c0326a2f4ae, 0x8a7611b3620b54a7,
               0xddaf35a193617aba, 0xcc417349ae204131, 0x12e6fa4e89a97ea2, 0x0a9eeee64b55d39a,
               0x728834b2387a50af, 0xd4a3682df632924b, 0x028518aa8b8c9706, 0x571efaf82e6277a0,
               0xa1e62248cbfd037a, 0xab874f9bf01512f4, 0x1e34f7271ecfb95d, 0x49021f7243380edd,
               0xf4c6513428ac0d06, 0xff346ec7b65aa401, 0xbf523c357ca063b5, 0x243656870082e5b0,
               0xe83ccdd3b1f879b5, 0xcbf517754fbf6bf8, 0x539d8148c8e7e262, 0x20e1a57a1cfb9a36);
  }

  lemma NonceRounds16()
    ensures HasState(INITIAL, FromWords(NONCE), 16,
                     0xba38754a61bcd21f, 0x8ec2830b099967f5, 0x1217111e20697512, 0x181e6cac63b08b23,
                     0xeefcf28b6a4032a8, 0x2fbd5d47ba1bbe24, 0x4cedbc034a766730, 0xa6c2a2b355e377ce)
  {
    hide FromWords, HasWords, HasState, HasConstants;
    NonceRounds8();
    NonceWords8();
    Constants8();
    NextRounds(INITIAL, FromWords(NONCE), 8, 0x539d8148c8e7e262, 0xe83ccdd3b1f879b5, 0xbf523c357ca063b5, 0xf4c6513428ac0d06,
               0x20e1a57a1cfb9a36, 0xcbf517754fbf6bf8, 0x243656870082e5b0, 0xff346ec7b65aa401,
               0xd807aa98a3030242, 0x12835b0145706fbe, 0x243185be4ee4b28c, 0x550c7dc3d5ffb4e2,
               0x72be5d74f27b896f, 0x80deb1fe3b1696b1, 0x9bdc06a725c71235, 0xc19bf174cf692694,
               0x2192992a274fc1a8, 0x36ba3c23a3feebbd, 0x454d4423643ce80e, 0x2a9ac94fa54ca49f,
               0x8000000000000000, 0x0000000000000000, 0x0000000000000000, 0x0000000000000300,
               0x5a141fbed7880f2e, 0x25e7d2279dbb68a3, 0xceba657c738fee72, 0x832232a6b2d712c4,
               0x6be7c98855352ee8, 0x1c8e8e727607ffe9, 0x9cbd92b98ec1dd30, 0x4eeef6e48bc9ebb4,
               0x181e6cac63b08b23, 0xa6c2a2b355e377ce, 0x1217111e20697512, 0x4cedbc034a766730,
               0x8ec2830b099967f5, 0x2fbd5d47ba1bbe24, 0xba38754a61bcd21f, 0xeefcf28b6a4032a8);
  }

  lemma NonceRounds24()
    ensures HasState(INITIAL, FromWords(NONCE), 24,
                     0x86ffa54908587220, 0xaf124d5061c6bc19, 0x8643c20598f514bc, 0x838f966102087246,
                     0xd45ffc86cf47e34e, 0x9e306c59007645ad, 0x4075a2b0119ed07d, 0xeb2dd1454d341d2e)
  {
    hide FromWords, HasWords, HasState, HasConstants;
    NonceRounds16();
    NonceWords16();
    Constants16();
    NextRounds(INITIAL, FromWords(NONCE), 16, 0xba38754a61bcd21f, 0x8ec2830b099967f5, 0x1217111e20697512, 0x181e6cac63b08b23,
               0xeefcf28b6a4032a8, 0x2fbd5d47ba1bbe24, 0x4cedbc034a766730, 0xa6c2a2b355e377ce,
               0xe49b69c19ef14ad2, 0xefbe4786384f25e3, 0x0fc19dc68b8cd5b5, 0x240ca1cc77ac9c65,
               0x2de92c6f592b0275, 0x4a7484aa6ea6e483, 0x5cb0a9dcbd41fbd4, 0x76f988da831153b5,
               0x037c228b0f836569, 0x254574b6fe8e165a, 0x115a7cfc05079828, 0xc89d720f0e2cc8d2,
               0x2db73c0b38fb1a95, 0x56598617288d9a73, 0xc09567ada5daf937, 0xc7a24919f0b36a7b,
               0xf2c7a93b65bd5d57, 0x5972980535373845, 0xadc28f2af101c86b, 0x10a506ad307eef7c,
               0x548b8637ebbff106, 0x2ecc64e7b397ac21, 0x793e016371720812, 0x0feb53ab203d6aeb,
               0x838f966102087246, 0xeb2dd1454d341d2e, 0x8643c20598f514bc, 0x4075a2b0119ed07d,
               0xaf124d5061c6bc19, 0x9e306c59007645ad, 0x86ffa54908587220, 0xd45ffc86cf47e34e);
  }

  lemma NonceRounds32()
    ensures HasState(INITIAL, FromWords(NONCE), 32,
                     0x862eb69c5395d687, 0xe135a93f73e66f32, 0x424296d102df7a94, 0x3ed5166303bca631,
                     0xbbad6c22f21f4372, 0xeaa4463f4cb23305, 0x94316ad690e995b3, 0x3bf4b7bd2db84d1d)
  {
    hide FromWords, HasWords, HasState, HasConstants;
    NonceRounds24();
    NonceWords24();
    Constants24();
    NextRounds(INITIAL, FromWords(NONCE), 24, 0x86ffa54908587220, 0xaf124d5061c6bc19, 0x8643c20598f514bc, 0x838f966102087246,
               0xd45ffc86cf47e34e, 0x9e306c59007645ad, 0x4075a2b0119ed07d, 0xeb2dd1454d341d2e,
               0x983e5152ee66dfab, 0xa831c66d2db43210, 0xb00327c898fb213f, 0xbf597fc7beef0ee4,
               0xc6e00bf33da88fc2, 0xd5a79147930aa725, 0x06ca6351e003826f, 0x142929670a0e6e70,
               0xc56e6f180fae65c5, 0xc7c1e81d2c335585, 0xfcfbfc004561cece, 0xf173050c06718432,
               0xb44f56847e299453, 0x79712208090f6080, 0x59c44909fb17f709, 0xd4a6e020769dd880,
               0xef6f9b1f1e94cbcb, 0x9729dddb0880c751, 0xcdedfbffc0a012d4, 0x93dd88d0b5c3a587,
               0x0ef8fc86f8e67f71, 0xe873249c0dddcdd6, 0x344cf036715d6e05, 0xadaef5ad52e57d9d,
               0x3ed5166303bca631, 0x3bf4b7bd2db84d1d, 0x424296d102df7a94, 0x94316ad690e995b3,
               0xe135a93f73e66f32, 0xeaa4463f4cb23305, 0x862eb69c5395d687, 0xbbad6c22f21f4372);
  }

  lemma NonceRounds40()
    ensures HasState(INITIAL, FromWords(NONCE), 40,
                     0x6e87bf8b1b4ea3dc, 0x9a9707e486171b01, 0xd2840afa468d38c0, 0x75d83ea1614f601c,
                     0xb56929d37d6b5d47, 0x034096b7f2bab12e, 0x9de7509490c4667c, 0xc8d6d93f2b7809f2)
  {
    hide FromWords, HasWords, HasState, HasConstants;
    NonceRounds32();
    NonceWords32();
    Constants32();
    NextRounds(INITIAL, FromWords(NONCE), 32, 0x862eb69c5395d687, 0xe135a93f73e66f32, 0x424296d102df7a94, 0x3ed5166303bca631,
               0xbbad6c22f21f4372, 0xeaa4463f4cb23305, 0x94316ad690e995b3, 0x3bf4b7bd2db84d1d,
               0x27b70a8546d22ffc, 0x2e1b21385c26c926, 0x4d2c6dfc5ac42aed, 0x53380d139d95b3df,
               0x650a73548baf63de, 0x766a0abb3c77b2a8, 0x81c2c92e47edaee6, 0x92722c851482353b,
               0x45aff2c2566e2cf9, 0x6055c1ca33ad679b, 0xa3daa205e5edc33e, 0x307645311b27acba,
               0x243c36715c02e8f0, 0xfd0d92321da07d13, 0xab4551fa926a99dc, 0x188599930e1c829f,
               0xfbc5390c3f0dfb84, 0x6354625d62868a10, 0x3d441f3327a2c68b, 0xb4fe1f8e2ba6eca7,
               0x6a7381d86ef55b44, 0xb6d94f5f9deb772f, 0xa36dd218750c8329, 0x6a22677b638c6339,
               0x75d83ea1614f601c, 0xc8d6d93f2b7809f2, 0xd2840afa468d38c0, 0x9de7509490c4667c,
               0x9a9707e486171b01, 0x034096b7f2bab12e, 0x6e87bf8b1b4ea3dc, 0xb56929d37d6b5d47);
  }

  lemma NonceRounds48()
    ensures HasState(INITIAL, FromWords(NONCE), 48,
                     0x9dd094a4375349cd, 0x4f1e3464c75800d0, 0x979e9ee3b01149b9, 0x93e4e2f43f5fadd8,
                     0x83bdf5f061d9bf70, 0xb5f7c92fdb420826, 0x8d4d9f6a30783ca7, 0x1cc27a5b24c339ce)
  {
    hide FromWords, HasWords, HasState, HasConstants;
    NonceRounds40();
    NonceWords40();
    Constants40();
    NextRounds(INITIAL, FromWords(NONCE), 40, 0x6e87bf8b1b4ea3dc, 0x9a9707e486171b01, 0xd2840afa468d38c0, 0x75d83ea1614f601c,
               0xb56929d37d6b5d47, 0x034096b7f2bab12e, 0x9de7509490c4667c, 0xc8d6d93f2b7809f2,
               0xa2bfe8a14cf10364, 0xa81a664bbc423001, 0xc24b8b70d0f89791, 0xc76c51a30654be30,
               0xd192e819d6ef5218, 0xd69906245565a910, 0xf40e35855771202a, 0x106aa07032bbd1b8,
               0x9928f714c7ec036b, 0x7132b615c48e6528, 0xc46ac119ea58ffc9, 0xe39f2a873baec5fd,
               0xad4e865f25b45441, 0x91877142a7c93186, 0x3fc1bb16e7095bbb, 0x7136268c87567bff,
               0x990daf3dd0fd364e, 0xd04fd57ee136427e, 0x0b67619b6316bf01, 0x4315e9d16b994129,
               0x252f5711b726e9cc, 0xd5563cabf3263e6e, 0x0b64d562249a76b8, 0x33f3c27088bd60d7,
               0x93e4e2f43f5fadd8, 0x1cc27a5b24c339ce, 0x979e9ee3b01149b9, 0x8d4d9f6a30783ca7,
               0x4f1e3464c75800d0, 0xb5f7c92fdb420826, 0x9dd094a4375349cd, 0x83bdf5f061d9bf70);
  }

  lemma NonceRounds56()
    ensures HasState(INITIAL, FromWords(NONCE), 56,
                     0xe95492f96ae92ae0, 0x51c4f5a7e95c5f5a, 0x5e985a4337dfff72, 0xf0354b764fd8d631,
                     0x79c67e0b00758ad3, 0x6194ad3a81b19539, 0x15372a64400e3867, 0xe91e4d7f20c9ce74)
  {
    hide FromWords, HasWords, HasState, HasConstants;
    NonceRounds48();
    NonceWords48();
    Constants48();
    NextRounds(INITIAL, FromWords(NONCE), 48, 0x9dd094a4375349cd, 0x4f1e3464c75800d0, 0x979e9ee3b01149b9, 0x93e4e2f43f5fadd8,
               0x83bdf5f061d9bf70, 0xb5f7c92fdb420826, 0x8d4d9f6a30783ca7, 0x1cc27a5b24c339ce,
               0x19a4c116b8d2d0c8, 0x1e376c085141ab53, 0x2748774cdf8eeb99, 0x34b0bcb5e19b48a8,
               0x391c0cb3c5c95a63, 0x4ed8aa4ae3418acb, 0x5b9cca4f7763e373, 0x682e6ff3d6b2b8a3,
               0xb7f28122b732fadc, 0xd9d3c4a1e75e563c, 0x0bf5dad463ca93cb, 0xc7761c1a44bd6891,
               0xb03de81a514430f2, 0x5aedb4a4daa8c5cd, 0x35189c5faa455821, 0x4576d5f314c5c953,
               0xb6abc7a3d1bd681f, 0x7a632d7a3884fddb, 0xc9cb60c66fbb7e85, 0x19b4c9d88ff7a307,
               0x964bb9e07ad3b667, 0x5b17e89de5190c14, 0x0146a14642072e61, 0x94d1277baf99131b,
               0xf0354b764fd8d631, 0xe91e4d7f20c9ce74, 0x5e985a4337dfff72, 0x15372a64400e3867,
               0x51c4f5a7e95c5f5a, 0x6194ad3a81b19539, 0xe95492f96ae92ae0, 0x79c67e0b00758ad3);
  }

  lemma NonceRounds64()
    ensures HasState(INITIAL, FromWords(NONCE), 64,
                     0x6fd5201b39197453, 0xc96cc2c9c3e33779, 0x9bd5f0fbeeb0dc18, 0xae69efac3f9c92c2,
                     0x23a66765e60f4426, 0xda1d59f929f20459, 0x391a5fe7e290b99a, 0x2f6174a5da1f67ab)
  {
    hide FromWords, HasWords, HasState, HasConstants;
    NonceRounds56();
    NonceWords56();
    Constants56();
    NextRounds(INITIAL, FromWords(NONCE), 56, 0xe95492f96ae92ae0, 0x51c4f5a7e95c5f5a, 0x5e985a4337dfff72, 0xf0354b764fd8d631,
               0x79c67e0b00758ad3, 0x6194ad3a81b19539, 0x15372a64400e3867, 0xe91e4d7f20c9ce74,
               0x748f82ee5defb2fc, 0x78a5636f43172f60, 0x84c87814a1f0ab72, 0x8cc702081a6439ec,
               0x90befffa23631e28, 0xa4506cebde82bde9, 0xbef9a3f7b2c67915, 0xc67178f2e372532b,
               0x861b6eb6ca5d1b03, 0x3b2b8d1bb82ecefe, 0x2b6f7a4027c96f45, 0x2a9ca4d3dedda99a,
               0x4dec36bc6606390c, 0xccbcbe46c7c88184, 0x75b866bc197048c7, 0xf45a85ae4087b83c,
               0xf6c979067210911b, 0x862cbab5e73d45cd, 0xea8148186fe4334b, 0xa5eb9bd896a3ba8f,
               0x96f7154fd0694013, 0x2894c2d489839b12, 0x1c8ba660b3ac2bd6, 0xa1f05c8dfe53c617,
               0xae69efac3f9c92c2, 0x2f6174a5da1f67ab, 0x9bd5f0fbeeb0dc18, 0x391a5fe7e290b99a,
               0xc96cc2c9c3e33779, 0xda1d59f929f20459, 0x6fd5201b39197453, 0x23a66765e60f4426);
  }

  lemma NonceRounds72()
    ensures HasState(INITIAL, FromWords(NONCE), 72,
                     0x6d8cf7dbbe54857b, 0x39bd6baa230f11a6, 0x2e3499b217c7d7cd, 0x8ea96978e14bb1cd,
                     0xabbc4164dd0b45f8, 0xe3be2769257f7609, 0x6f56d4dfbd6eed23, 0x94a5d39764f8459a)
  {
    hide FromWords, HasWords, HasState, HasConstants;
    NonceRounds64();
    NonceWords64();
    Constants64();
    NextRounds(INITIAL, FromWords(NONCE), 64, 0x6fd5201b39197453, 0xc96cc2c9c3e33779, 0x9bd5f0fbeeb0dc18, 0xae69efac3f9c92c2,
               0x23a66765e60f4426, 0xda1d59f929f20459, 0x391a5fe7e290b99a, 0x2f6174a5da1f67ab,
               0xca273eceea26619c, 0xd186b8c721c0c207, 0xeada7dd6cde0eb1e, 0xf57d4f7fee6ed178,
               0x06f067aa72176fba, 0x0a637dc5a2c898a6, 0x113f9804bef90dae, 0x1b710b35131c471b,
               0xe9aedf28b81897f4, 0xaa2d0bd749f2f2e9, 0x06b3f2de08fd7c51, 0xcecee4dc64e02b7d,
               0x77a40cdddadc2484, 0xfc9d2795b3feca6b, 0x53568bbeaa3eab39, 0x2f0387a4f919e9fc,
               0xa62ef9f9207aa9ae, 0x1f1fddfef3ece422, 0x7c2f1e6281926145, 0x6aa368b2b89f8bc3,
               0x55c53bc5c8cd2eae, 0x34c11d5054938554, 0x5961736c9bd0ece9, 0xdf971c92be86beb4,
               0x8ea96978e14bb1cd, 0x94a5d39764f8459a, 0x2e3499b217c7d7cd, 0x6f56d4dfbd6eed23,
               0x39bd6baa230f11a6, 0xe3be2769257f7609, 0x6d8cf7dbbe54857b, 0xabbc4164dd0b45f8);
  }

  lemma NonceRounds80()
    ensures HasState(INITIAL, FromWords(NONCE), 80,
                     0x739d4a754c48ce6a, 0xf3b602db87b68739, 0x12bfa67d16d0b2a8, 0x912a63cb4387e1eb,
                     0x8001875820303270, 0x516ecb71ee7fe134, 0x345e7d2d1ccfdd1a, 0xb067859afa90c146)
  {
    hide FromWords, HasWords, HasState, HasConstants;
    NonceRounds72();
    NonceWords72();
    Constants72();
    NextRounds(INITIAL, FromWords(NONCE), 72, 0x6d8cf7dbbe54857b, 0x39bd6baa230f11a6, 0x2e3499b217c7d7cd, 0x8ea96978e14bb1cd,
               0xabbc4164dd0b45f8, 0xe3be2769257f7609, 0x6f56d4dfbd6eed23, 0x94a5d39764f8459a,
               0x28db77f523047d84, 0x32caab7b40c72493, 0x3c9ebe0a15c9bebc, 0x431d67c49c100d4c,
               0x4cc5d4becb3e42b6, 0x597f299cfc657e2a, 0x5fcb6fab3ad6faec, 0x6c44198c4a475817,
               0x62bf625a7f599839, 0x58494381c098eec7, 0xb0e719aea7323539, 0xab54b2c0dd18127d,
               0xf0f1604322e9d2b6, 0xf79db7a2b887c97e, 0xaa0bb5411cd9de39, 0x1f239a36ddcdb679,
               0x6890213c4324d442, 0x0bdaaf17f7b1967e, 0x6161d6f977ba049e, 0xcbf7d452d4860b40,
               0xc1fa9741edfb2ba7, 0xbd954e29e74ddf6f, 0xcdad1f1d0fe8c8ba, 0xb231f8bcc62f24cf,
               0x912a63cb4387e1eb, 0xb067859afa90c146, 0x12bfa67d16d0b2a8, 0x345e7d2d1ccfdd1a,
               0xf3b602db87b68739, 0x516ecb71ee7fe134, 0x739d4a754c48ce6a, 0x8001875820303270);
  }

  const NONCE_END: seq<bv64> := [
    0xdda730dd40059772, 0xaf1db1610c812e74, 0x4f2e99f01565aad3, 0x367a5905a2a518dc,
    0xd10fd9d7ce16b541, 0xec7433fe19be4d53, 0x53e256d918119a85, 0x0c4852b40e0ee2bf
  ]

  lemma NonceCompressed()
    ensures Compress(INITIAL, FromWords(NONCE)) == NONCE_END
  {
    NonceRounds80();
    hide FromWords, HasState, Compress;
    Compressed(INITIAL, FromWords(NONCE), 0x739d4a754c48ce6a, 0xf3b602db87b68739, 0x12bfa67d16d0b2a8, 0x912a63cb4387e1eb,
               0x8001875820303270, 0x516ecb71ee7fe134, 0x345e7d2d1ccfdd1a, 0xb067859afa90c146,
               NONCE_END);
  }

  const NONCE_DIGEST: seq<nat> := [
    0xdda730dd40059772, 0xaf1db1610c812e74, 0x4f2e99f01565aad3, 0x367a5905a2a518dc,
    0xd10fd9d7ce16b541, 0xec7433fe19be4d53, 0x53e256d918119a85, 0x0c4852b40e0ee2bf
  ]

  lemma NonceSame()
    ensures SameWords(NONCE_END, NONCE_DIGEST)
  {
  }

  const CHALLENGE: seq<nat> := [
    0xdc2a4459e7369633, 0xa52b1bf277839a00, 0x201009a3efbf3ecb, 0x69bea2186c26b589,
    0xec172b93ad5e563b, 0xf4932c70e1245034, 0xc35467ef2efd4d64, 0xebf819683467e2bf,
    0xddaf35a193617aba, 0xcc417349ae204131, 0x12e6fa4e89a97ea2, 0x0a9eeee64b55d39a,
    0x2192992a274fc1a8, 0x36ba3c23a3feebbd, 0x454d4423643ce80e, 0x2a9ac94fa54ca49f
  ]

  lemma ChallengeFirst0()
    ensures HasWord(FromWords(CHALLENGE), 0, 0xdc2a4459e7369633)
    ensures HasWord(FromWords(CHALLENGE), 1, 0xa52b1bf277839a00)
    ensures HasWord(FromWords(CHALLENGE), 2, 0x201009a3efbf3ecb)
    ensures HasWord(FromWords(CHALLENGE), 3, 0x69bea2186c26b589)
  {
    hide FromWords, Loads, HasWord;
    assert Loads(0xdc2a4459e7369633, 0xdc2a4459e7369633) by {
      Word(0xdc2a4459e7369633, 0xdc, 0x2a, 0x44, 0x59, 0xe7, 0x36, 0x96, 0x33, 0xdc2a4459e7369633);
    }
    assert Loads(0xa52b1bf277839a00, 0xa52b1bf277839a00) by {
      Word(0xa52b1bf277839a00, 0xa5, 0x2b, 0x1b, 0xf2, 0x77, 0x83, 0x9a, 0x00, 0xa52b1bf277839a00);
    }
    assert Loads(0x201009a3efbf3ecb, 0x201009a3efbf3ecb) by {
      Word(0x201009a3efbf3ecb, 0x20, 0x10, 0x09, 0xa3, 0xef, 0xbf, 0x3e, 0xcb, 0x201009a3efbf3ecb);
    }
    assert Loads(0x69bea2186c26b589, 0x69bea2186c26b589) by {
      Word(0x69bea2186c26b589, 0x69, 0xbe, 0xa2, 0x18, 0x6c, 0x26, 0xb5, 0x89, 0x69bea2186c26b589);
    }
    FirstWord(CHALLENGE, 0, 0xdc2a4459e7369633);
    FirstWord(CHALLENGE, 1, 0xa52b1bf277839a00);
    FirstWord(CHALLENGE, 2, 0x201009a3efbf3ecb);
    FirstWord(CHALLENGE, 3, 0x69bea2186c26b589);
  }

  lemma ChallengeFirst4()
    ensures HasWord(FromWords(CHALLENGE), 4, 0xec172b93ad5e563b)
    ensures HasWord(FromWords(CHALLENGE), 5, 0xf4932c70e1245034)
    ensures HasWord(FromWords(CHALLENGE), 6, 0xc35467ef2efd4d64)
    ensures HasWord(FromWords(CHALLENGE), 7, 0xebf819683467e2bf)
  {
    hide FromWords, Loads, HasWord;
    assert Loads(0xec172b93ad5e563b, 0xec172b93ad5e563b) by {
      Word(0xec172b93ad5e563b, 0xec, 0x17, 0x2b, 0x93, 0xad, 0x5e, 0x56, 0x3b, 0xec172b93ad5e563b);
    }
    assert Loads(0xf4932c70e1245034, 0xf4932c70e1245034) by {
      Word(0xf4932c70e1245034, 0xf4, 0x93, 0x2c, 0x70, 0xe1, 0x24, 0x50, 0x34, 0xf4932c70e1245034);
    }
    assert Loads(0xc35467ef2efd4d64, 0xc35467ef2efd4d64) by {
      Word(0xc35467ef2efd4d64, 0xc3, 0x54, 0x67, 0xef, 0x2e, 0xfd, 0x4d, 0x64, 0xc35467ef2efd4d64);
    }
    assert Loads(0xebf819683467e2bf, 0xebf819683467e2bf) by {
      Word(0xebf819683467e2bf, 0xeb, 0xf8, 0x19, 0x68, 0x34, 0x67, 0xe2, 0xbf, 0xebf819683467e2bf);
    }
    FirstWord(CHALLENGE, 4, 0xec172b93ad5e563b);
    FirstWord(CHALLENGE, 5, 0xf4932c70e1245034);
    FirstWord(CHALLENGE, 6, 0xc35467ef2efd4d64);
    FirstWord(CHALLENGE, 7, 0xebf819683467e2bf);
  }

  lemma ChallengeFirst8()
    ensures HasWord(FromWords(CHALLENGE), 8, 0xddaf35a193617aba)
    ensures HasWord(FromWords(CHALLENGE), 9, 0xcc417349ae204131)
    ensures HasWord(FromWords(CHALLENGE), 10, 0x12e6fa4e89a97ea2)
    ensures HasWord(FromWords(CHALLENGE), 11, 0x0a9eeee64b55d39a)
  {
    hide FromWords, Loads, HasWord;
    assert Loads(0xddaf35a193617aba, 0xddaf35a193617aba) by {
      Word(0xddaf35a193617aba, 0xdd, 0xaf, 0x35, 0xa1, 0x93, 0x61, 0x7a, 0xba, 0xddaf35a193617aba);
    }
    assert Loads(0xcc417349ae204131, 0xcc417349ae204131) by {
      Word(0xcc417349ae204131, 0xcc, 0x41, 0x73, 0x49, 0xae, 0x20, 0x41, 0x31, 0xcc417349ae204131);
    }
    assert Loads(0x12e6fa4e89a97ea2, 0x12e6fa4e89a97ea2) by {
      Word(0x12e6fa4e89a97ea2, 0x12, 0xe6, 0xfa, 0x4e, 0x89, 0xa9, 0x7e, 0xa2, 0x12e6fa4e89a97ea2);
    }
    assert Loads(0x0a9eeee64b55d39a, 0x0a9eeee64b55d39a) by {
      Word(0x0a9eeee64b55d39a, 0x0a, 0x9e, 0xee, 0xe6, 0x4b, 0x55, 0xd3, 0x9a, 0x0a9eeee64b55d39a);
    }
    FirstWord(CHALLENGE, 8, 0xddaf35a193617aba);
    FirstWord(CHALLENGE, 9, 0xcc417349ae204131);
    FirstWord(CHALLENGE, 10, 0x12e6fa4e89a97ea2);
    FirstWord(CHALLENGE, 11, 0x0a9eeee64b55d39a);
  }

  lemma ChallengeFirst12()
    ensures HasWord(FromWords(CHALLENGE), 12, 0x2192992a274fc1a8)
    ensures HasWord(FromWords(CHALLENGE), 13, 0x36ba3c23a3feebbd)
    ensures HasWord(FromWords(CHALLENGE), 14, 0x454d4423643ce80e)
    ensures HasWord(FromWords(CHALLENGE), 15, 0x2a9ac94fa54ca49f)
  {
    hide FromWords, Loads, HasWord;
    assert Loads(0x2192992a274fc1a8, 0x2192992a274fc1a8) by {
      Word(0x2192992a274fc1a8, 0x21, 0x92, 0x99, 0x2a, 0x27, 0x4f, 0xc1, 0xa8, 0x2192992a274fc1a8);
    }
    assert Loads(0x36ba3c23a3feebbd, 0x36ba3c23a3feebbd) by {
      Word(0x36ba3c23a3feebbd, 0x36, 0xba, 0x3c, 0x23, 0xa3, 0xfe, 0xeb, 0xbd, 0x36ba3c23a3feebbd);
    }
    assert Loads(0x454d4423643ce80e, 0x454d4423643ce80e) by {
      Word(0x454d4423643ce80e, 0x45, 0x4d, 0x44, 0x23, 0x64, 0x3c, 0xe8, 0x0e, 0x454d4423643ce80e);
    }
    assert Loads(0x2a9ac94fa54ca49f, 0x2a9ac94fa54ca49f) by {
      Word(0x2a9ac94fa54ca49f, 0x2a, 0x9a, 0xc9, 0x4f, 0xa5, 0x4c, 0xa4, 0x9f, 0x2a9ac94fa54ca49f);
    }
    FirstWord(CHALLENGE, 12, 0x2192992a274fc1a8);
    FirstWord(CHALLENGE, 13, 0x36ba3c23a3feebbd);
    FirstWord(CHALLENGE, 14, 0x454d4423643ce80e);
    FirstWord(CHALLENGE, 15, 0x2a9ac94fa54ca49f);
  }

  lemma ChallengeWords0()
    ensures HasWords(FromWords(CHALLENGE), 0,
                     0xdc2a4459e7369633, 0xa52b1bf277839a00, 0x201009a3efbf3ecb, 0x69bea2186c26b589,
                     0xec172b93ad5e563b, 0xf4932c70e1245034, 0xc35467ef2efd4d64, 0xebf819683467e2bf)
  {
    hide FromWords, HasWord;
    ChallengeFirst0();
    ChallengeFirst4();
  }

  lemma ChallengeWords8()
    ensures HasWords(FromWords(CHALLENGE), 8,
                     0xddaf35a193617aba, 0xcc417349ae204131, 0x12e6fa4e89a97ea2, 0x0a9eeee64b55d39a,
                     0x2192992a274fc1a8, 0x36ba3c23a3feebbd, 0x454d4423643ce80e, 0x2a9ac94fa54ca49f)
  {
    hide FromWords, HasWord;
    ChallengeFirst8();
    ChallengeFirst12();
  }

  lemma ChallengeWords16()
    ensures HasWords(FromWords(CHALLENGE), 16,
                     0xb265851ac7a40067, 0xd46a0f1762f6598a, 0x79fdd403405a0f47, 0xc2c1720201ab3a86,
                     0x02074379e86000ef, 0xb1208d74168e1290, 0x49df1c60c38805f2, 0xbda209c29c953016)
  {
    ChallengeWords0();
    ChallengeWords8();
    hide FromWords, HasWords;
    NextWords(FromWords(CHALLENGE), 0, 0xdc2a4459e7369633, 0xa52b1bf277839a00, 0x201009a3efbf3ecb, 0x69bea2186c26b589,
              0xec172b93ad5e563b, 0xf4932c70e1245034, 0xc35467ef2efd4d64, 0xebf819683467e2bf,
              0xddaf35a193617aba, 0xcc417349ae204131, 0x12e6fa4e89a97ea2, 0x0a9eeee64b55d39a,
              0x2192992a274fc1a8, 0x36ba3c23a3feebbd, 0x454d4423643ce80e, 0x2a9ac94fa54ca49f,
              0xb265851ac7a40067, 0xd46a0f1762f6598a, 0x79fdd403405a0f47, 0xc2c1720201ab3a86,
              0x02074379e86000ef, 0xb1208d74168e1290, 0x49df1c60c38805f2, 0xbda209c29c953016);
  }

  lemma ChallengeWords24()
    ensures HasWords(FromWords(CHALLENGE), 24,
                     0xd7ef953680fc2c93, 0x3b67aefe35ac1d31, 0xaeaaadadca101514, 0x1dc8fbc541eda467,
                     0x6e074901a5169ccd, 0x07beecde444b6082, 0xaf3e12cbca1c2880, 0x1468a83ef9b59e80)
  {
    ChallengeWords8();
    ChallengeWords16();
    hide FromWords, HasWords;
    NextWords(FromWords(CHALLENGE), 8, 0xddaf35a193617aba, 0xcc417349ae204131, 0x12e6fa4e89a97ea2, 0x0a9eeee64b55d39a,
              0x2192992a274fc1a8, 0x36ba3c23a3feebbd, 0x454d4423643ce80e, 0x2a9ac94fa54ca49f,
              0xb265851ac7a40067, 0xd46a0f1762f6598a, 0x79fdd403405a0f47, 0xc2c1720201ab3a86,
              0x02074379e86000ef, 0xb1208d74168e1290, 0x49df1c60c38805f2, 0xbda209c29c953016,
              0xd7ef953680fc2c93, 0x3b67aefe35ac1d31, 0xaeaaadadca101514, 0x1dc8fbc541eda467,
              0x6e074901a5169ccd, 0x07beecde444b6082, 0xaf3e12cbca1c2880, 0x1468a83ef9b59e80);
  }

  lemma ChallengeWords32()
    ensures HasWords(FromWords(CHALLENGE), 32,
                     0xcd7369a643bca1ab, 0x8f4e8b1cf642559c, 0x7a8ac39a72fe4b69, 0xd1c9569f3572b343,
                     0xefda70126a72e929, 0x11fa7aef9ebe8c84, 0xc7a97c431b699b72, 0x62aa2a35012451c2)
  {
    ChallengeWords16();
    ChallengeWords24();
    hide FromWords, HasWords;
    NextWords(FromWords(CHALLENGE), 16, 0xb265851ac7a40067, 0xd46a0f1762f6598a, 0x79fdd403405a0f47, 0xc2c1720201ab3a86,
              0x02074379e86000ef, 0xb1208d74168e1290, 0x49df1c60c38805f2, 0xbda209c29c953016,
              0xd7ef953680fc2c93, 0x3b67aefe35ac1d31, 0xaeaaadadca101514, 0x1dc8fbc541eda467,
              0x6e074901a5169ccd, 0x07beecde444b6082, 0xaf3e12cbca1c2880, 0x1468a83ef9b59e80,
              0xcd7369a643bca1ab, 0x8f4e8b1cf642559c, 0x7a8ac39a72fe4b69, 0xd1c9569f3572b343,
              0xefda70126a72e929, 0x11fa7aef9ebe8c84, 0xc7a97c431b699b72, 0x62aa2a35012451c2);
  }

  lemma ChallengeWords40()
    ensures HasWords(FromWords(CHALLENGE), 40,
                     0x2177befc88709b84, 0x977cd10e546162bf, 0x827ed66d35323c77, 0x1e41a30c7d405e4d,
                     0x584b31cb4c47251c, 0x9f94719c089ba8e6, 0xc38c547c3441ea23, 0x0e8f977a080d77bf)
  {
    ChallengeWords24();
    ChallengeWords32();
    hide FromWords, HasWords;
    NextWords(FromWords(CHALLENGE), 24, 0xd7ef953680fc2c93, 0x3b67aefe35ac1d31, 0xaeaaadadca101514, 0x1dc8fbc541eda467,
              0x6e074901a5169ccd, 0x07beecde444b6082, 0xaf3e12cbca1c2880, 0x1468a83ef9b59e80,
              0xcd7369a643bca1ab, 0x8f4e8b1cf642559c, 0x7a8ac39a72fe4b69, 0xd1c9569f3572b343,
              0xefda70126a72e929, 0x11fa7aef9ebe8c84, 0xc7a97c431b699b72, 0x62aa2a35012451c2,
              0x2177befc88709b84, 0x977cd10e546162bf, 0x827ed66d35323c77, 0x1e41a30c7d405e4d,
              0x584b31cb4c47251c, 0x9f94719c089ba8e6, 0xc38c547c3441ea23, 0x0e8f977a080d77bf);
  }

  lemma ChallengeWords48()
    ensures HasWords(FromWords(CHALLENGE), 48,
                     0x614fbb89ceabc0d8, 0xc149c4701e0182a3, 0xb74745e4d13b083f, 0x43115bbb8e3bcce2,
                     0xf61eda81652b4fe0, 0x463de5e1d02be7a1, 0xa4feb0c4faa755e1, 0xa4d61ddacc149799)
  {
    ChallengeWords32();
    ChallengeWords40();
    hide FromWords, HasWords;
    NextWords(FromWords(CHALLENGE), 32, 0xcd7369a643bca1ab, 0x8f4e8b1cf642559c, 0x7a8ac39a72fe4b69, 0xd1c9569f3572b343,
              0xefda70126a72e929, 0x11fa7aef9ebe8c84, 0xc7a97c431b699b72, 0x62aa2a35012451c2,
              0x2177befc88709b84, 0x977cd10e546162bf, 0x827ed66d35323c77, 0x1e41a30c7d405e4d,
              0x584b31cb4c47251c, 0x9f94719c089ba8e6, 0xc38c547c3441ea23, 0x0e8f977a080d77bf,
              0x614fbb89ceabc0d8, 0xc149c4701e0182a3, 0xb74745e4d13b083f, 0x43115bbb8e3bcce2,
              0xf61eda81652b4fe0, 0x463de5e1d02be7a1, 0xa4feb0c4faa755e1, 0xa4d61ddacc149799);
  }

  lemma ChallengeWords56()
    ensures HasWords(FromWords(CHALLENGE), 56,
                     0x27a3b9dbf006de2d, 0xbd4e817b1b926a8e, 0x6dd92a5886638d2e, 0xeafea9babf3588bb,
                     0x65cf97e031167cd2, 0xed5fab506826fa11, 0x81289b438500e745, 0xd44177e46b17b87c)
  {
    ChallengeWords40();
    ChallengeWords48();
    hide FromWords, HasWords;
    NextWords(FromWords(CHALLENGE), 40, 0x2177befc88709b84, 0x977cd10e546162bf, 0x827ed66d35323c77, 0x1e41a30c7d405e4d,
              0x584b31cb4c47251c, 0x9f94719c089ba8e6, 0xc38c547c3441ea23, 0x0e8f977a080d77bf,
              0x614fbb89ceabc0d8, 0xc149c4701e0182a3, 0xb74745e4d13b083f, 0x43115bbb8e3bcce2,
              0xf61eda81652b4fe0, 0x463de5e1d02be7a1, 0xa4feb0c4faa755e1, 0xa4d61ddacc149799,
              0x27a3b9dbf006de2d, 0xbd4e817b1b926a8e, 0x6dd92a5886638d2e, 0xeafea9babf3588bb,
              0x65cf97e031167cd2, 0xed5fab506826fa11, 0x81289b438500e745, 0xd44177e46b17b87c);
  }

  lemma ChallengeWords64()
    ensures HasWords(FromWords(CHALLENGE), 64,
                     0x792e3dcdbedc384d, 0x6af27a79d240e93d, 0xb530878fa3a3406f, 0x8e15f9442a8e93db,
                     0xa9b04375cb1d53f1, 0x9ae5c8df817f33b6, 0xa9218d09f6c5d872, 0x0ff09653ebebc5af)
  {
    ChallengeWords48();
    ChallengeWords56();
    hide FromWords, HasWords;
    NextWords(FromWords(CHALLENGE), 48, 0x614fbb89ceabc0d8, 0xc149c4701e0182a3, 0xb74745e4d13b083f, 0x43115bbb8e3bcce2,
              0xf61eda81652b4fe0, 0x463de5e1d02be7a1, 0xa4feb0c4faa755e1, 0xa4d61ddacc149799,
              0x27a3b9dbf006de2d, 0xbd4e817b1b926a8e, 0x6dd92a5886638d2e, 0xeafea9babf3588bb,
              0x65cf97e031167cd2, 0xed5fab506826fa11, 0x81289b438500e745, 0xd44177e46b17b87c,
              0x792e3dcdbedc384d, 0x6af27a79d240e93d, 0xb530878fa3a3406f, 0x8e15f9442a8e93db,
              0xa9b04375cb1d53f1, 0x9ae5c8df817f33b6, 0xa9218d09f6c5d872, 0x0ff09653ebebc5af);
  }

  lemma ChallengeWords72()
    ensures HasWords(FromWords(CHALLENGE), 72,
                     0x549d82f36382358e, 0x91e898956c2d0c10, 0x2e3f25c7a30f84a1, 0xa179fd6ceaf55ac9,
                     0x69238d835989b608, 0xbcaba52440a8e386, 0x26ef990a3abf8f94, 0x15dab79c39289e26)
  {
    ChallengeWords56();
    ChallengeWords64();
    hide FromWords, HasWords;
    NextWords(FromWords(CHALLENGE), 56, 0x27a3b9dbf006de2d, 0xbd4e817b1b926a8e, 0x6dd92a5886638d2e, 0xeafea9babf3588bb,
              0x65cf97e031167cd2, 0xed5fab506826fa11, 0x81289b438500e745, 0xd44177e46b17b87c,
              0x792e3dcdbedc384d, 0x6af27a79d240e93d, 0xb530878fa3a3406f, 0x8e15f9442a8e93db,
              0xa9b04375cb1d53f1, 0x9ae5c8df817f33b6, 0xa9218d09f6c5d872, 0x0ff09653ebebc5af,
              0x549d82f36382358e, 0x91e898956c2d0c10, 0x2e3f25c7a30f84a1, 0xa179fd6ceaf55ac9,
              0x69238d835989b608, 0xbcaba52440a8e386, 0x26ef990a3abf8f94, 0x15dab79c39289e26);
  }

  lemma ChallengeRounds8()
    ensures HasState(INITIAL, FromWords(CHALLENGE), 8,
                     0x8f78b52b4a0ff334, 0x7fbd624a7e7d038a, 0x377d1fbcb9a512f7, 0xa97e4bed88446882,
                     0x9ba4d2874d0a8c4b, 0xbfa807ad0ae05c9e, 0x68d375169216a132, 0xe5d0359083edfd72)
  {
    hide FromWords, HasWords, HasState, HasConstants;
    FirstState(INITIAL, FromWords(CHALLENGE));
    ChallengeWords0();
    Constants0();
    NextRounds(INITIAL, FromWords(CHALLENGE), 0, 0x6a09e667f3bcc908, 0xbb67ae8584caa73b, 0x3c6ef372fe94f82b, 0xa54ff53a5f1d36f1,
               0x510e527fade682d1, 0x9b05688c2b3e6c1f, 0x1f83d9abfb41bd6b, 0x5be0cd19137e2179,
               0x428a2f98d728ae22, 0x7137449123ef65cd, 0xb5c0fbcfec4d3b2f, 0xe9b5dba58189dbbc,
               0x3956c25bf348b538, 0x59f111f1b605d019, 0x923f82a4af194f9b, 0xab1c5ed5da6d8118,
               0xdc2a4459e7369633, 0xa52b1bf277839a00, 0x201009a3efbf3ecb, 0x69bea2186c26b589,
               0xec172b93ad5e563b, 0xf4932c70e1245034, 0xc35467ef2efd4d64, 0xebf819683467e2bf,
               0x7177af92a4337428, 0xd392e30e61ebb5c4, 0x971bbc2099c03f71, 0x88af07a697d454e3,
               0x46b212fb88e8c1b1, 0x93bd9aa264afd14b, 0x385ceb8b2c25a28a, 0xaf8b18453f01273e,
               0xa97e4bed88446882, 0xe5d0359083edfd72, 0x377d1fbcb9a512f7, 0x68d375169216a132,
               0x7fbd624a7e7d038a, 0xbfa807ad0ae05c9e, 0x8f78b52b4a0ff334, 0x9ba4d2874d0a8c4b);
  }

  lemma ChallengeRounds16()
    ensures HasState(INITIAL, FromWords(CHALLENGE), 16,
                     0xe728ff9d311c384a, 0xbd2dd005e72c9606, 0x56d194c68e9788f9, 0x053244db1677a499,
                     0x229607c5eb37cca6, 0xac571724c9b2382c, 0xed5d02928846787d, 0xef7b1867f332e5e8)
  {
    hide FromWords, HasWords, HasState, HasConstants;
    ChallengeRounds8();
    ChallengeWords8();
    Constants8();
    NextRounds(INITIAL, FromWords(CHALLENGE), 8, 0x8f78b52b4a0ff334, 0x7fbd624a7e7d038a, 0x377d1fbcb9a512f7, 0xa97e4bed88446882,
               0x9ba4d2874d0a8c4b, 0xbfa807ad0ae05c9e, 0x68d375169216a132, 0xe5d0359083edfd72,
               0xd807aa98a3030242, 0x12835b0145706fbe, 0x243185be4ee4b28c, 0x550c7dc3d5ffb4e2,
               0x72be5d74f27b896f, 0x80deb1fe3b1696b1, 0x9bdc06a725c71235, 0xc19bf174cf692694,
               0xddaf35a193617aba, 0xcc417349ae204131, 0x12e6fa4e89a97ea2, 0x0a9eeee64b55d39a,
               0x2192992a274fc1a8, 0x36ba3c23a3feebbd, 0x454d4423643ce80e, 0x2a9ac94fa54ca49f,
               0xcd7a522ae7507ef3, 0x1292968a381c452b, 0xb0d11a7d2c514c2f, 0x7fb87791b437a8f4,
               0x0c5c5eb042bdb58f, 0x8a497b6694a4f769, 0x516af9b6b13f48f4, 0xf89a05b17c337b64,
               0x053244db1677a499, 0xef7b1867f332e5e8, 0x56d194c68e9788f9, 0xed5d02928846787d,
               0xbd2dd005e72c9606, 0xac571724c9b2382c, 0xe728ff9d311c384a, 0x229607c5eb37cca6);
  }

  lemma ChallengeRounds24()
    ensures HasState(INITIAL, FromWords(CHALLENGE), 24,
                     0xe96ef730e793e62e, 0x4af88cf071348296, 0x4c236f1eff1a0cb0, 0xd4232d7ca858608c,
                     0x54091dc367e787b9, 0xc2aec299193430cd, 0xc8f158b333904fc2, 0x25643e581343667e)
  {
    hide FromWords, HasWords, HasState, HasConstants;
    ChallengeRounds16();
    ChallengeWords16();
    Constants16();
    NextRounds(INITIAL, FromWords(CHALLENGE), 16, 0xe728ff9d311c384a, 0xbd2dd005e72c9606, 0x56d194c68e9788f9, 0x053244db1677a499,
               0x229607c5eb37cca6, 0xac571724c9b2382c, 0xed5d02928846787d, 0xef7b1867f332e5e8,
               0xe49b69c19ef14ad2, 0xefbe4786384f25e3, 0x0fc19dc68b8cd5b5, 0x240ca1cc77ac9c65,
               0x2de92c6f592b0275, 0x4a7484aa6ea6e483, 0x5cb0a9dcbd41fbd4, 0x76f988da831153b5,
               0xb265851ac7a40067, 0xd46a0f1762f6598a, 0x79fdd403405a0f47, 0xc2c1720201ab3a86,
               0x02074379e86000ef, 0xb1208d74168e1290, 0x49df1c60c38805f2, 0xbda209c29c953016,
               0xf6302ec8f6da36c4, 0x9c51ec5207a9ab48, 0x79b0473d2b51056e, 0x176087e1eb69d0c1,
               0xaf71df3904c047ad, 0xefdc89eadef9a6d2, 0xa6a4b4d38b0ebf41, 0x0f5f7978cdbb87bf,
               0xd4232d7ca858608c, 0x25643e581343667e, 0x4c236f1eff1a0cb0, 0xc8f158b333904fc2,
               0x4af88cf071348296, 0xc2aec299193430cd, 0xe96ef730e793e62e, 0x54091dc367e787b9);
  }

  lemma ChallengeRounds32()
    ensures HasState(INITIAL, FromWords(CHALLENGE), 32,
                     0x0af05bfd7b89fd9f, 0x1b776015bcf4eb66, 0x630750990d1ca48e, 0x50c86433f65c652d,
                     0x6e0b015b7ce37ce7, 0x5db40ee832041012, 0x30ece79a25bef0b1, 0x8cc88732f810f1e7)
  {
    hide FromWords, HasWords, HasState, HasConstants;
    ChallengeRounds24();
    ChallengeWords24();
    Constants24();
    NextRounds(INITIAL, FromWords(CHALLENGE), 24, 0xe96ef730e793e62e, 0x4af88cf071348296, 0x4c236f1eff1a0cb0, 0xd4232d7ca858608c,
               0x54091dc367e787b9, 0xc2aec299193430cd, 0xc8f158b333904fc2, 0x25643e581343667e,
               0x983e5152ee66dfab, 0xa831c66d2db43210, 0xb00327c898fb213f, 0xbf597fc7beef0ee4,
               0xc6e00bf33da88fc2, 0xd5a79147930aa725, 0x06ca6351e003826f, 0x142929670a0e6e70,
               0xd7ef953680fc2c93, 0x3b67aefe35ac1d31, 0xaeaaadadca101514, 0x1dc8fbc541eda467,
               0x6e074901a5169ccd, 0x07beecde444b6082, 0xaf3e12cbca1c2880, 0x1468a83ef9b59e80,
               0xe6c40852e92a9852, 0x516689f5290a5efc, 0x0e0bf1501516b42b, 0xe2115df3c2c22f9b,
               0x242067fae8de9bcf, 0x8cc540c7ffde6b84, 0x416c6adebb539c14, 0x42cb5986a482c358,
               0x50c86433f65c652d, 0x8cc88732f810f1e7, 0x630750990d1ca48e, 0x30ece79a25bef0b1,
               0x1b776015bcf4eb66, 0x5db40ee832041012, 0x0af05bfd7b89fd9f, 0x6e0b015b7ce37ce7);
  }

  lemma ChallengeRounds40()
    ensures HasState(INITIAL, FromWords(CHALLENGE), 40,
                     0xb249e700f6879dee, 0x1fe6e4a5b58cdc88, 0xaf245e5a20d1b88f, 0xa3782342644a9be0,
                     0x6bcff470d649d1db, 0x6bdce06ac1d4f8d6, 0xa09b16d6956311fb, 0x037bad223d7f22a0)
  {
    hide FromWords, HasWords, HasState, HasConstants;
    ChallengeRounds32();
    ChallengeWords32();
    Constants32();
    NextRounds(INITIAL, FromWords(CHALLENGE), 32, 0x0af05bfd7b89fd9f, 0x1b776015bcf4eb66, 0x630750990d1ca48e, 0x50c86433f65c652d,
               0x6e0b015b7ce37ce7, 0x5db40ee832041012, 0x30ece79a25bef0b1, 0x8cc88732f810f1e7,
               0x27b70a8546d22ffc, 0x2e1b21385c26c926, 0x4d2c6dfc5ac42aed, 0x53380d139d95b3df,
               0x650a73548baf63de, 0x766a0abb3c77b2a8, 0x81c2c92e47edaee6, 0x92722c851482353b,
               0xcd7369a643bca1ab, 0x8f4e8b1cf642559c, 0x7a8ac39a72fe4b69, 0xd1c9569f3572b343,
               0xefda70126a72e929, 0x11fa7aef9ebe8c84, 0xc7a97c431b699b72, 0x62aa2a35012451c2,
               0x87f3fa40fb91b402, 0xb0ba586b60a4e202, 0xf29a6008b916418c, 0x43a6280aeed42ba9,
               0x24949cb7776e7276, 0x0ec5de552bebbc05, 0xe7b059ccee330b30, 0x863b56ae4280d366,
               0xa3782342644a9be0, 0x037bad223d7f22a0, 0xaf245e5a20d1b88f, 0xa09b16d6956311fb,
               0x1fe6e4a5b58cdc88, 0x6bdce06ac1d4f8d6, 0xb249e700f6879dee, 0x6bcff470d649d1db);
  }

  lemma ChallengeRounds48()
    ensures HasState(INITIAL, FromWords(CHALLENGE), 48,
                     0x19635be1c2e30db0, 0x0231bb937853fef1, 0xab9f9c3499353757, 0xa4df69c95ebac0bf,
                     0xc38e1134ddf4117e, 0xf12e39d3b82c0680, 0x36330db38ae33912, 0x3d9df5ebba1e9fef)
  {
    hide FromWords, HasWords, HasState, HasConstants;
    ChallengeRounds40();
    ChallengeWords40();
    Constants40();
    NextRounds(INITIAL, FromWords(CHALLENGE), 40, 0xb249e700f6879dee, 0x1fe6e4a5b58cdc88, 0xaf245e5a20d1b88f, 0xa3782342644a9be0,
               0x6bcff470d649d1db, 0x6bdce06ac1d4f8d6, 0xa09b16d6956311fb, 0x037bad223d7f22a0,
               0xa2bfe8a14cf10364, 0xa81a664bbc423001, 0xc24b8b70d0f89791, 0xc76c51a30654be30,
               0xd192e819d6ef5218, 0xd69906245565a910, 0xf40e35855771202a, 0x106aa07032bbd1b8,
               0x2177befc88709b84, 0x977cd10e546162bf, 0x827ed66d35323c77, 0x1e41a30c7d405e4d,
               0x584b31cb4c47251c, 0x9f94719c089ba8e6, 0xc38c547c3441ea23, 0x0e8f977a080d77bf,
               0xd29aa5779f9c5458, 0x6278ac0df9f8b9a9, 0x9e1aad0d2a0fc49a, 0xc956be0de6aad4f3,
               0x75c7fd3818d9ca8a, 0x136895d19cc6836d, 0xcaa62635f4d8af69, 0xaab9f668fadce588,
               0xa4df69c95ebac0bf, 0x3d9df5ebba1e9fef, 0xab9f9c3499353757, 0x36330db38ae33912,
               0x0231bb937853fef1, 0xf12e39d3b82c0680, 0x19635be1c2e30db0, 0xc38e1134ddf4117e);
  }

  lemma ChallengeRounds56()
    ensures HasState(INITIAL, FromWords(CHALLENGE), 56,
                     0x2d79e8e064d3154e, 0x01398872b9181538, 0xaab0e4756f1ffc2b, 0x0fc9729722032426,
                     0xed7aeb3e399ac8e0, 0xf158f072939e2ba1, 0x37ea6eb27b0732d1, 0x49d807409b101844)
  {
    hide FromWords, HasWords, HasState, HasConstants;
    ChallengeRounds48();
    ChallengeWords48();
    Constants48();
    NextRounds(INITIAL, FromWords(CHALLENGE), 48, 0x19635be1c2e30db0, 0x0231bb937853fef1, 0xab9f9c3499353757, 0xa4df69c95ebac0bf,
               0xc38e1134ddf4117e, 0xf12e39d3b82c0680, 0x36330db38ae33912, 0x3d9df5ebba1e9fef,
               0x19a4c116b8d2d0c8, 0x1e376c085141ab53, 0x2748774cdf8eeb99, 0x34b0bcb5e19b48a8,
               0x391c0cb3c5c95a63, 0x4ed8aa4ae3418acb, 0x5b9cca4f7763e373, 0x682e6ff3d6b2b8a3,
               0x614fbb89ceabc0d8, 0xc149c4701e0182a3, 0xb74745e4d13b083f, 0x43115bbb8e3bcce2,
               0xf61eda81652b4fe0, 0x463de5e1d02be7a1, 0xa4feb0c4faa755e1, 0xa4d61ddacc149799,
               0x31dd4f1c2496cf78, 0x2e7b3ebcba7ea1f3, 0xe421621ba1f951ff, 0x064f38faf89aa0cb,
               0xdff5cafd5494b20f, 0xf01d8254e71f2710, 0xa67049b963b77de3, 0xe3173663eae78115,
               0x0fc9729722032426, 0x49d807409b101844, 0xaab0e4756f1ffc2b, 0x37ea6eb27b0732d1,
               0x01398872b9181538, 0xf158f072939e2ba1, 0x2d79e8e064d3154e, 0xed7aeb3e399ac8e0);
  }

  lemma ChallengeRounds64()
    ensures HasState(INITIAL, FromWords(CHALLENGE), 64,
                     0xd8d3a98785e4e765, 0x817d4e18e960f291, 0x9156d33ecc2623e1, 0xd74131d2a7fbe29a,
                     0x36756371341de48a, 0xeae856251291180b, 0xe710944973428cf8, 0xafdc4868945daab5)
  {
    hide FromWords, HasWords, HasState, HasConstants;
    ChallengeRounds56();
    ChallengeWords56();
    Constants56();
    NextRounds(INITIAL, FromWords(CHALLENGE), 56, 0x2d79e8e064d3154e, 0x01398872b9181538, 0xaab0e4756f1ffc2b, 0x0fc9729722032426,
               0xed7aeb3e399ac8e0, 0xf158f072939e2ba1, 0x37ea6eb27b0732d1, 0x49d807409b101844,
               0x748f82ee5defb2fc, 0x78a5636f43172f60, 0x84c87814a1f0ab72, 0x8cc702081a6439ec,
               0x90befffa23631e28, 0xa4506cebde82bde9, 0xbef9a3f7b2c67915, 0xc67178f2e372532b,
               0x27a3b9dbf006de2d, 0xbd4e817b1b926a8e, 0x6dd92a5886638d2e, 0xeafea9babf3588bb,
               0x65cf97e031167cd2, 0xed5fab506826fa11, 0x81289b438500e745, 0xd44177e46b17b87c,
               0xa6918c9ad09cd6af, 0xf854df25c4eaddbc, 0x583ad92b52fb9f1e, 0x5566cdb0f191fc89,
               0x0bb3f411bf7172c9, 0x3310d2bdfe9a9fa6, 0x8c7ce15df025284a, 0xf38d5b5b16398b12,
               0xd74131d2a7fbe29a, 0xafdc4868945daab5, 0x9156d33ecc2623e1, 0xe710944973428cf8,
               0x817d4e18e960f291, 0xeae856251291180b, 0xd8d3a98785e4e765, 0x36756371341de48a);
  }

  lemma ChallengeRounds72()
    ensures HasState(INITIAL, FromWords(CHALLENGE), 72,
                     0x40d5c2f2d2e411c7, 0x424b0f5ba8752401, 0x1cd8bdfbc7df9bca, 0x67ce9be19d68a86f,
                     0xbbf3984720f9aff5, 0x679b3fb0b46c2d80, 0xc8f787ac59984743, 0xc73692b4f84ed369)
  {
    hide FromWords, HasWords, HasState, HasConstants;
    ChallengeRounds64();
    ChallengeWords64();
    Constants64();
    NextRounds(INITIAL, FromWords(CHALLENGE), 64, 0xd8d3a98785e4e765, 0x817d4e18e960f291, 0x9156d33ecc2623e1, 0xd74131d2a7fbe29a,
               0x36756371341de48a, 0xeae856251291180b, 0xe710944973428cf8, 0xafdc4868945daab5,
               0xca273eceea26619c, 0xd186b8c721c0c207, 0xeada7dd6cde0eb1e, 0xf57d4f7fee6ed178,
               0x06f067aa72176fba, 0x0a637dc5a2c898a6, 0x113f9804bef90dae, 0x1b710b35131c471b,
               0x792e3dcdbedc384d, 0x6af27a79d240e93d, 0xb530878fa3a3406f, 0x8e15f9442a8e93db,
               0xa9b04375cb1d53f1, 0x9ae5c8df817f33b6, 0xa9218d09f6c5d872, 0x0ff09653ebebc5af,
               0x6bb747521edbae04, 0x016427bbc8b2d773, 0xdc93e30fdf0717ba, 0xd5c1aaa073fd8b1b,
               0xbd9aafa3c1f4f623, 0x4e756a48ffea5198, 0x9c0858ac5239e6eb, 0xce9664d0868fb3a3,
               0x67ce9be19d68a86f, 0xc73692b4f84ed369, 0x1cd8bdfbc7df9bca, 0xc8f787ac59984743,
               0x424b0f5ba8752401, 0x679b3fb0b46c2d80, 0x40d5c2f2d2e411c7, 0xbbf3984720f9aff5);
  }

  lemma ChallengeRounds80()
    ensures HasState(INITIAL, FromWords(CHALLENGE), 80,
                     0xb295ff2398fdd33a, 0x1688e3b8ba2058c9, 0x07517baa5a37a893, 0x2e8e6713955a36f6,
                     0xe485d7124581bb35, 0xfa1415c260727874, 0x1942efeed3156dd3, 0xf540c68f8a1eeee5)
  {
    hide FromWords, HasWords, HasState, HasConstants;
    ChallengeRounds72();
    ChallengeWords72();
    Constants72();
    NextRounds(INITIAL, FromWords(CHALLENGE), 72, 0x40d5c2f2d2e411c7, 0x424b0f5ba8752401, 0x1cd8bdfbc7df9bca, 0x67ce9be19d68a86f,
               0xbbf3984720f9aff5, 0x679b3fb0b46c2d80, 0xc8f787ac59984743, 0xc73692b4f84ed369,
               0x28db77f523047d84, 0x32caab7b40c72493, 0x3c9ebe0a15c9bebc, 0x431d67c49c100d4c,
               0x4cc5d4becb3e42b6, 0x597f299cfc657e2a, 0x5fcb6fab3ad6faec, 0x6c44198c4a475817,
               0x549d82f36382358e, 0x91e898956c2d0c10, 0x2e3f25c7a30f84a1, 0xa179fd6ceaf55ac9,
               0x69238d835989b608, 0xbcaba52440a8e386, 0x26ef990a3abf8f94, 0x15dab79c39289e26,
               0x603a0b4d8cecabe8, 0x07d1470d13774e80, 0xd7f302100d4cece7, 0x7d88678480da24d3,
               0x6b20b6094e569955, 0x74f15677247c0bef, 0x367215bc05b73370, 0x6fb538748a398ed8,
               0x2e8e6713955a36f6, 0xf540c68f8a1eeee5, 0x07517baa5a37a893, 0x1942efeed3156dd3,
               0x1688e3b8ba2058c9, 0xfa1415c260727874, 0xb295ff2398fdd33a, 0xe485d7124581bb35);
  }

  const CHALLENGE_END: seq<bv64> := [
    0x1c9fe58b8cba9c42, 0xd1f0923e3eeb0004, 0x43c06f1d58cca0be, 0xd3de5c4df4776de7,
    0x35942991f3683e06, 0x95197e4e8bb0e493, 0x38c6c99ace572b3e, 0x512193a89d9d105e
  ]

  lemma ChallengeCompressed()
    ensures Compress(INITIAL, FromWords(CHALLENGE)) == CHALLENGE_END
  {
    ChallengeRounds80();
    hide FromWords, HasState, Compress;
    Compressed(INITIAL, FromWords(CHALLENGE), 0xb295ff2398fdd33a, 0x1688e3b8ba2058c9, 0x07517baa5a37a893, 0x2e8e6713955a36f6,
               0xe485d7124581bb35, 0xfa1415c260727874, 0x1942efeed3156dd3, 0xf540c68f8a1eeee5,
               CHALLENGE_END);
  }

  const REST: seq<nat> := [
    0x8000000000000000, 0x0000000000000000, 0x0000000000000000, 0x0000000000000000,
    0x0000000000000000, 0x0000000000000000, 0x0000000000000000, 0x0000000000000000,
    0x0000000000000000, 0x0000000000000000, 0x0000000000000000, 0x0000000000000000,
    0x0000000000000000, 0x0000000000000000, 0x0000000000000000, 0x0000000000000400
  ]

  lemma RestFirst0()
    ensures HasWord(FromWords(REST), 0, 0x8000000000000000)
    ensures HasWord(FromWords(REST), 1, 0x0000000000000000)
    ensures HasWord(FromWords(REST), 2, 0x0000000000000000)
    ensures HasWord(FromWords(REST), 3, 0x0000000000000000)
  {
    hide FromWords, Loads, HasWord;
    assert Loads(0x8000000000000000, 0x8000000000000000) by {
      Word(0x8000000000000000, 0x80, 0x00, 0x00, 0x00, 0x00, 0x00, 0x00, 0x00, 0x8000000000000000);
    }
    assert Loads(0x0000000000000000, 0x0000000000000000) by {
      Word(0x0000000000000000, 0x00, 0x00, 0x00, 0x00, 0x00, 0x00, 0x00, 0x00, 0x0000000000000000);
    }
    FirstWord(REST, 0, 0x8000000000000000);
    FirstWord(REST, 1, 0x0000000000000000);
    FirstWord(REST, 2, 0x0000000000000000);
    FirstWord(REST, 3, 0x0000000000000000);
  }

  lemma RestFirst4()
    ensures HasWord(FromWords(REST), 4, 0x0000000000000000)
    ensures HasWord(FromWords(REST), 5, 0x0000000000000000)
    ensures HasWord(FromWords(REST), 6, 0x0000000000000000)
    ensures HasWord(FromWords(REST), 7, 0x0000000000000000)
  {
    hide FromWords, Loads, HasWord;
    assert Loads(0x0000000000000000, 0x0000000000000000) by {
      Word(0x0000000000000000, 0x00, 0x00, 0x00, 0x00, 0x00, 0x00, 0x00, 0x00, 0x0000000000000000);
    }
    FirstWord(REST, 4, 0x0000000000000000);
    FirstWord(REST, 5, 0x0000000000000000);
    FirstWord(REST, 6, 0x0000000000000000);
    FirstWord(REST, 7, 0x0000000000000000);
  }

  lemma RestFirst8()
    ensures HasWord(FromWords(REST), 8, 0x0000000000000000)
    ensures HasWord(FromWords(REST), 9, 0x0000000000000000)
    ensures HasWord(FromWords(REST), 10, 0x0000000000000000)
    ensures HasWord(FromWords(REST), 11, 0x0000000000000000)
  {
    hide FromWords, Loads, HasWord;
    assert Loads(0x0000000000000000, 0x0000000000000000) by {
      Word(0x0000000000000000, 0x00, 0x00, 0x00, 0x00, 0x00, 0x00, 0x00, 0x00, 0x0000000000000000);
    }
    FirstWord(REST, 8, 0x0000000000000000);
    FirstWord(REST, 9, 0x0000000000000000);
    FirstWord(REST, 10, 0x0000000000000000);
    FirstWord(REST, 11, 0x0000000000000000);
  }

  lemma RestFirst12()
    ensures HasWord(FromWords(REST), 12, 0x0000000000000000)
    ensures HasWord(FromWords(REST), 13, 0x0000000000000000)
    ensures HasWord(FromWords(REST), 14, 0x0000000000000000)
    ensures HasWord(FromWords(REST), 15, 0x0000000000000400)
  {
    hide FromWords, Loads, HasWord;
    assert Loads(0x0000000000000000, 0x0000000000000000) by {
      Word(0x0000000000000000, 0x00, 0x00, 0x00, 0x00, 0x00, 0x00, 0x00, 0x00, 0x0000000000000000);
    }
    assert Loads(0x0000000000000400, 0x0000000000000400) by {
      Word(0x0000000000000400, 0x00, 0x00, 0x00, 0x00, 0x00, 0x00, 0x04, 0x00, 0x0000000000000400);
    }
    FirstWord(REST, 12, 0x0000000000000000);
    FirstWord(REST, 13, 0x0000000000000000);
    FirstWord(REST, 14, 0x0000000000000000);
    FirstWord(REST, 15, 0x0000000000000400);
  }

  lemma RestWords0()
    ensures HasWords(FromWords(REST), 0,
                     0x8000000000000000, 0x0000000000000000, 0x0000000000000000, 0x0000000000000000,
                     0x0000000000000000, 0x0000000000000000, 0x0000000000000000, 0x0000000000000000)
  {
    hide FromWords, HasWord;
    RestFirst0();
    RestFirst4();
  }

  lemma RestWords8()
    ensures HasWords(FromWords(REST), 8,
                     0x0000000000000000, 0x0000000000000000, 0x0000000000000000, 0x0000000000000000,
                     0x0000000000000000, 0x0000000000000000, 0x0000000000000000, 0x0000000000000400)
  {
    hide FromWords, HasWord;
    RestFirst8();
    RestFirst12();
  }

  lemma RestWords16()
    ensures HasWords(FromWords(REST), 16,
                     0x8000000000000000, 0x0080000000002010, 0x0200100000000004, 0x0000001000010000,
                     0x1008000002000020, 0x20000080400a0400, 0x8004220110080540, 0xc000000001400010)
  {
    RestWords0();
    RestWords8();
    hide FromWords, HasWords;
    NextWords(FromWords(REST), 0, 0x8000000000000000, 0x0000000000000000, 0x0000000000000000, 0x0000000000000000,
              0x0000000000000000, 0x0000000000000000, 0x0000000000000000, 0x0000000000000000,
              0x0000000000000000, 0x0000000000000000, 0x0000000000000000, 0x0000000000000000,
              0x0000000000000000, 0x0000000000000000, 0x0000000000000000, 0x0000000000000400,
              0x8000000000000000, 0x0080000000002010, 0x0200100000000004, 0x0000001000010000,
              0x1008000002000020, 0x20000080400a0400, 0x8004220110080540, 0xc000000001400010);
  }

  lemma RestWords24()
    ensures HasWords(FromWords(REST), 24,
                     0x0309108000404820, 0x050228000a0500b2, 0x1140a03320144028, 0x981b0800170010f2,
                     0x224501b2182e3842, 0x40aaa124e9648a77, 0x95a95ddeaa673c11, 0xd9a25c368ce5a8df)
  {
    RestWords8();
    RestWords16();
    hide FromWords, HasWords;
    NextWords(FromWords(REST), 8, 0x0000000000000000, 0x0000000000000000, 0x0000000000000000, 0x0000000000000000,
              0x0000000000000000, 0x0000000000000000, 0x0000000000000000, 0x0000000000000400,
              0x8000000000000000, 0x0080000000002010, 0x0200100000000004, 0x0000001000010000,
              0x1008000002000020, 0x20000080400a0400, 0x8004220110080540, 0xc000000001400010,
              0x0309108000404820, 0x050228000a0500b2, 0x1140a03320144028, 0x981b0800170010f2,
              0x224501b2182e3842, 0x40aaa124e9648a77, 0x95a95ddeaa673c11, 0xd9a25c368ce5a8df);
  }

  lemma RestWords32()
    ensures HasWords(FromWords(REST), 32,
                     0xdde221370c30ba4a, 0x92363c5416ac61fb, 0x954af2894094852f, 0x6a3f61d93be874e0,
                     0x99b9ee900c20fa1d, 0x15fb79cecd3c7c6d, 0x9bd09e44ba76c0a7, 0xdf6535d6cb806a60)
  {
    RestWords16();
    RestWords24();
    hide FromWords, HasWords;
    NextWords(FromWords(REST), 16, 0x8000000000000000, 0x0080000000002010, 0x0200100000000004, 0x0000001000010000,
              0x1008000002000020, 0x20000080400a0400, 0x8004220110080540, 0xc000000001400010,
              0x0309108000404820, 0x050228000a0500b2, 0x1140a03320144028, 0x981b0800170010f2,
              0x224501b2182e3842, 0x40aaa124e9648a77, 0x95a95ddeaa673c11, 0xd9a25c368ce5a8df,
              0xdde221370c30ba4a, 0x92363c5416ac61fb, 0x954af2894094852f, 0x6a3f61d93be874e0,
              0x99b9ee900c20fa1d, 0x15fb79cecd3c7c6d, 0x9bd09e44ba76c0a7, 0xdf6535d6cb806a60);
  }

  lemma RestWords40()
    ensures HasWords(FromWords(REST), 40,
                     0x4acca272eea082e3, 0xaff8ce10b19b2e94, 0x8237f36b92a68615, 0x9dc44caed53d87a4,
                     0xd34b1fc9c4087634, 0x13877c6f75d59407, 0x3f9da50cf87a4a06, 0x78fb529d5788517f)
  {
    RestWords24();
    RestWords32();
    hide FromWords, HasWords;
    NextWords(FromWords(REST), 24, 0x0309108000404820, 0x050228000a0500b2, 0x1140a03320144028, 0x981b0800170010f2,
              0x224501b2182e3842, 0x40aaa124e9648a77, 0x95a95ddeaa673c11, 0xd9a25c368ce5a8df,
              0xdde221370c30ba4a, 0x92363c5416ac61fb, 0x954af2894094852f, 0x6a3f61d93be874e0,
              0x99b9ee900c20fa1d, 0x15fb79cecd3c7c6d, 0x9bd09e44ba76c0a7, 0xdf6535d6cb806a60,
              0x4acca272eea082e3, 0xaff8ce10b19b2e94, 0x8237f36b92a68615, 0x9dc44caed53d87a4,
              0xd34b1fc9c4087634, 0x13877c6f75d59407, 0x3f9da50cf87a4a06, 0x78fb529d5788517f);
  }

  lemma RestWords48()
    ensures HasWords(FromWords(REST), 48,
                     0x76dbccb6f9cbd353, 0xc49f6cd2882de777, 0xd62094e578b97aaf, 0xa908a2d39ccae43a,
                     0x320efc28fa75a859, 0xd743be93132b3b61, 0x4954238de05d52da, 0x7b26c7f84876f42f)
  {
    RestWords32();
    RestWords40();
    hide FromWords, HasWords;
    NextWords(FromWords(REST), 32, 0xdde221370c30ba4a, 0x92363c5416ac61fb, 0x954af2894094852f, 0x6a3f61d93be874e0,
              0x99b9ee900c20fa1d, 0x15fb79cecd3c7c6d, 0x9bd09e44ba76c0a7, 0xdf6535d6cb806a60,
              0x4acca272eea082e3, 0xaff8ce10b19b2e94, 0x8237f36b92a68615, 0x9dc44caed53d87a4,
              0xd34b1fc9c4087634, 0x13877c6f75d59407, 0x3f9da50cf87a4a06, 0x78fb529d5788517f,
              0x76dbccb6f9cbd353, 0xc49f6cd2882de777, 0xd62094e578b97aaf, 0xa908a2d39ccae43a,
              0x320efc28fa75a859, 0xd743be93132b3b61, 0x4954238de05d52da, 0x7b26c7f84876f42f);
  }

  lemma RestWords56()
    ensures HasWords(FromWords(REST), 56,
                     0xb357836b91080425, 0x621650501aa2c568, 0xaf7af3fd9fbc62c5, 0x763b731fe771f67f,
                     0x2eb8d7dc388abaa5, 0x0536b05ae9da1b8a, 0xa0e20a27fb7a6753, 0x801978c883fcf485)
  {
    RestWords40();
    RestWords48();
    hide FromWords, HasWords;
    NextWords(FromWords(REST), 40, 0x4acca272eea082e3, 0xaff8ce10b19b2e94, 0x8237f36b92a68615, 0x9dc44caed53d87a4,
              0xd34b1fc9c4087634, 0x13877c6f75d59407, 0x3f9da50cf87a4a06, 0x78fb529d5788517f,
              0x76dbccb6f9cbd353, 0xc49f6cd2882de777, 0xd62094e578b97aaf, 0xa908a2d39ccae43a,
              0x320efc28fa75a859, 0xd743be93132b3b61, 0x4954238de05d52da, 0x7b26c7f84876f42f,
              0xb357836b91080425, 0x621650501aa2c568, 0xaf7af3fd9fbc62c5, 0x763b731fe771f67f,
              0x2eb8d7dc388abaa5, 0x0536b05ae9da1b8a, 0xa0e20a27fb7a6753, 0x801978c883fcf485);
  }

  lemma RestWords64()
    ensures HasWords(FromWords(REST), 64,
                     0xb66de1ee4d774abc, 0x55dfa043ceb10895, 0x14bc7ecc899ddfc0, 0x26cbbde46844e311,
                     0xe166cd171201bd2c, 0x213c9b6b18ee775b, 0x9aa214aaa725363d, 0xf69e302a02a2b922)
  {
    RestWords48();
    RestWords56();
    hide FromWords, HasWords;
    NextWords(FromWords(REST), 48, 0x76dbccb6f9cbd353, 0xc49f6cd2882de777, 0xd62094e578b97aaf, 0xa908a2d39ccae43a,
              0x320efc28fa75a859, 0xd743be93132b3b61, 0x4954238de05d52da, 0x7b26c7f84876f42f,
              0xb357836b91080425, 0x621650501aa2c568, 0xaf7af3fd9fbc62c5, 0x763b731fe771f67f,
              0x2eb8d7dc388abaa5, 0x0536b05ae9da1b8a, 0xa0e20a27fb7a6753, 0x801978c883fcf485,
              0xb66de1ee4d774abc, 0x55dfa043ceb10895, 0x14bc7ecc899ddfc0, 0x26cbbde46844e311,
              0xe166cd171201bd2c, 0x213c9b6b18ee775b, 0x9aa214aaa725363d, 0xf69e302a02a2b922);
  }

  lemma RestWords72()
    ensures HasWords(FromWords(REST), 72,
                     0xd4a1d4dc2e580485, 0x6a2f6d4ae8d99e94, 0x419b4123147570f2, 0xecd33d74f247460a,
                     0x7c4ba374352ec6c8, 0xb054e2db4d0dc1ce, 0x17820ce42463abd1, 0x740727d55fc2865e)
  {
    RestWords56();
    RestWords64();
    hide FromWords, HasWords;
    NextWords(FromWords(REST), 56, 0xb357836b91080425, 0x621650501aa2c568, 0xaf7af3fd9fbc62c5, 0x763b731fe771f67f,
              0x2eb8d7dc388abaa5, 0x0536b05ae9da1b8a, 0xa0e20a27fb7a6753, 0x801978c883fcf485,
              0xb66de1ee4d774abc, 0x55dfa043ceb10895, 0x14bc7ecc899ddfc0, 0x26cbbde46844e311,
              0xe166cd171201bd2c, 0x213c9b6b18ee775b, 0x9aa214aaa725363d, 0xf69e302a02a2b922,
              0xd4a1d4dc2e580485, 0x6a2f6d4ae8d99e94, 0x419b4123147570f2, 0xecd33d74f247460a,
              0x7c4ba374352ec6c8, 0xb054e2db4d0dc1ce, 0x17820ce42463abd1, 0x740727d55fc2865e);
  }

  lemma RestRounds8()
    ensures HasState(CHALLENGE_END, FromWords(REST), 8,
                     0x79010e2881f2915d, 0x3ad82a1d6ace746b, 0xb54cf6256f75289e, 0xa959edd2d6d78d27,
                     0x821243a931134adc, 0x2f88c913e46d2097, 0x8f9fdbdf6884ce64, 0xb344d85f30bf2912)
  {
    hide FromWords, HasWords, HasState, HasConstants;
    FirstState(CHALLENGE_END, FromWords(REST));
    RestWords0();
    Constants0();
    NextRounds(CHALLENGE_END, FromWords(REST), 0, 0x1c9fe58b8cba9c42, 0xd1f0923e3eeb0004, 0x43c06f1d58cca0be, 0xd3de5c4df4776de7,
               0x35942991f3683e06, 0x95197e4e8bb0e493, 0x38c6c99ace572b3e, 0x512193a89d9d105e,
               0x428a2f98d728ae22, 0x7137449123ef65cd, 0xb5c0fbcfec4d3b2f, 0xe9b5dba58189dbbc,
               0x3956c25bf348b538, 0x59f111f1b605d019, 0x923f82a4af194f9b, 0xab1c5ed5da6d8118,
               0x8000000000000000, 0x0000000000000000, 0x0000000000000000, 0x0000000000000000,
               0x0000000000000000, 0x0000000000000000, 0x0000000000000000, 0x0000000000000000,
               0x01ce979f9b017d3f, 0x443df6c4a7adcd0f, 0xdfff73b9ffc4c47f, 0xa7ffbcf2174d0806,
               0x884bb76c160a7b16, 0x4c1952a3bdbd8505, 0x8eeb6ad7d33900b3, 0x64b25d4ab53a1342,
               0xa959edd2d6d78d27, 0xb344d85f30bf2912, 0xb54cf6256f75289e, 0x8f9fdbdf6884ce64,
               0x3ad82a1d6ace746b, 0x2f88c913e46d2097, 0x79010e2881f2915d, 0x821243a931134adc);
  }

  lemma RestRounds16()
    ensures HasState(CHALLENGE_END, FromWords(REST), 16,
                     0xd605be071adc449d, 0x2cbf918ece5f634f, 0x414ff201f994e381, 0x9440d831ebb6f7cc,
                     0x55cab5ba7b1d75d9, 0x779b47ba18c2ea1c, 0x66226aefaedb589c, 0x836ffc83dbbf3390)
  {
    hide FromWords, HasWords, HasState, HasConstants;
    RestRounds8();
    RestWords8();
    Constants8();
    NextRounds(CHALLENGE_END, FromWords(REST), 8, 0x79010e2881f2915d, 0x3ad82a1d6ace746b, 0xb54cf6256f75289e, 0xa959edd2d6d78d27,
               0x821243a931134adc, 0x2f88c913e46d2097, 0x8f9fdbdf6884ce64, 0xb344d85f30bf2912,
               0xd807aa98a3030242, 0x12835b0145706fbe, 0x243185be4ee4b28c, 0x550c7dc3d5ffb4e2,
               0x72be5d74f27b896f, 0x80deb1fe3b1696b1, 0x9bdc06a725c71235, 0xc19bf174cf692694,
               0x0000000000000000, 0x0000000000000000, 0x0000000000000000, 0x0000000000000000,
               0x0000000000000000, 0x0000000000000000, 0x0000000000000000, 0x0000000000000400,
               0x6fd680880cf004ad, 0x7191eb8b032ebe57, 0x9b7abdf497e2678a, 0xf8d1fe1d02237618,
               0xfff6b9707c48bdcd, 0x0c8b31615ce1a75c, 0xd0121a9cea6798b5, 0x0dbb0bfe3410305c,
               0x9440d831ebb6f7cc, 0x836ffc83dbbf3390, 0x414ff201f994e381, 0x66226aefaedb589c,
               0x2cbf918ece5f634f, 0x779b47ba18c2ea1c, 0xd605be071adc449d, 0x55cab5ba7b1d75d9);
  }

  lemma RestRounds24()
    ensures HasState(CHALLENGE_END, FromWords(REST), 24,
                     0x1e5ccefee4034b25, 0x7d4a8b74f2ec23d5, 0x8f2c5b05d80b9da9, 0xdc6b5bacb376bf54,
                     0x6064b6552118c07c, 0x38efff84db430dfc, 0x5e74b57506266539, 0x0c8af9e81cd69c25)
  {
    hide FromWords, HasWords, HasState, HasConstants;
    RestRounds16();
    RestWords16();
    Constants16();
    NextRounds(CHALLENGE_END, FromWords(REST), 16, 0xd605be071adc449d, 0x2cbf918ece5f634f, 0x414ff201f994e381, 0x9440d831ebb6f7cc,
               0x55cab5ba7b1d75d9, 0x779b47ba18c2ea1c, 0x66226aefaedb589c, 0x836ffc83dbbf3390,
               0xe49b69c19ef14ad2, 0xefbe4786384f25e3, 0x0fc19dc68b8cd5b5, 0x240ca1cc77ac9c65,
               0x2de92c6f592b0275, 0x4a7484aa6ea6e483, 0x5cb0a9dcbd41fbd4, 0x76f988da831153b5,
               0x8000000000000000, 0x0080000000002010, 0x0200100000000004, 0x0000001000010000,
               0x1008000002000020, 0x20000080400a0400, 0x8004220110080540, 0xc000000001400010,
               0x603ad5a2b7f3667f, 0x4b251b599a577632, 0x71688c41f8993937, 0xb6d390182deb1b71,
               0x57dff9fe7a6ea601, 0xa0320040e9c46efa, 0x1b0f30605084b5b0, 0xbb14fbab45bdf5ab,
               0xdc6b5bacb376bf54, 0x0c8af9e81cd69c25, 0x8f2c5b05d80b9da9, 0x5e74b57506266539,
               0x7d4a8b74f2ec23d5, 0x38efff84db430dfc, 0x1e5ccefee4034b25, 0x6064b6552118c07c);
  }

  lemma RestRounds32()
    ensures HasState(CHALLENGE_END, FromWords(REST), 32,
                     0x1702811ddde78307, 0xd2cf5cfd7b14155d, 0x2ed0d5791eda50b1, 0xd02c0a4eb1e2112b,
                     0xc6866b3ab58b04a3, 0xb2ff06e6c261800f, 0xb2d34e1487b08c66, 0xa946bf4edbed763e)
  {
    hide FromWords, HasWords, HasState, HasConstants;
    RestRounds24();
    RestWords24();
    Constants24();
    NextRounds(CHALLENGE_END, FromWords(REST), 24, 0x1e5ccefee4034b25, 0x7d4a8b74f2ec23d5, 0x8f2c5b05d80b9da9, 0xdc6b5bacb376bf54,
               0x6064b6552118c07c, 0x38efff84db430dfc, 0x5e74b57506266539, 0x0c8af9e81cd69c25,
               0x983e5152ee66dfab, 0xa831c66d2db43210, 0xb00327c898fb213f, 0xbf597fc7beef0ee4,
               0xc6e00bf33da88fc2, 0xd5a79147930aa725, 0x06ca6351e003826f, 0x142929670a0e6e70,
               0x0309108000404820, 0x050228000a0500b2, 0x1140a03320144028, 0x981b0800170010f2,
               0x224501b2182e3842, 0x40aaa124e9648a77, 0x95a95ddeaa673c11, 0xd9a25c368ce5a8df,
               0x260e5a4eb608595c, 0xde308477910ca73f, 0x8a4b0a7bff8a534b, 0x8abd07db106376d3,
               0xcf1e7503c40c3f3a, 0x4d62012cefb7148d, 0x97c2bf3af7591926, 0x71c84fd1ad95175b,
               0xd02c0a4eb1e2112b, 0xa946bf4edbed763e, 0x2ed0d5791eda50b1, 0xb2d34e1487b08c66,
               0xd2cf5cfd7b14155d, 0xb2ff06e6c261800f, 0x1702811ddde78307, 0xc6866b3ab58b04a3);
  }

  lemma RestRounds40()
    ensures HasState(CHALLENGE_END, FromWords(REST), 40,
                     0x1ed21a601419b284, 0x83851d580970b91b, 0x899ccf0e4bc3342b, 0x9586edce1ae044be,
                     0xcb3c8eb4db81d514, 0x019efd32c5fbaa0d, 0xd7286332d8db9abd, 0x1bde70e3a61d923f)
  {
    hide FromWords, HasWords, HasState, HasConstants;
    RestRounds32();
    RestWords32();
    Constants32();
    NextRounds(CHALLENGE_END, FromWords(REST), 32, 0x1702811ddde78307, 0xd2cf5cfd7b14155d, 0x2ed0d5791eda50b1, 0xd02c0a4eb1e2112b,
               0xc6866b3ab58b04a3, 0xb2ff06e6c261800f, 0xb2d34e1487b08c66, 0xa946bf4edbed763e,
               0x27b70a8546d22ffc, 0x2e1b21385c26c926, 0x4d2c6dfc5ac42aed, 0x53380d139d95b3df,
               0x650a73548baf63de, 0x766a0abb3c77b2a8, 0x81c2c92e47edaee6, 0x92722c851482353b,
               0xdde221370c30ba4a, 0x92363c5416ac61fb, 0x954af2894094852f, 0x6a3f61d93be874e0,
               0x99b9ee900c20fa1d, 0x15fb79cecd3c7c6d, 0x9bd09e44ba76c0a7, 0xdf6535d6cb806a60,
               0x5a3114a03485e6f3, 0x80e029bacacb3271, 0x551c134320241599, 0x2cd3b6ba2e4f71f1,
               0x4202d6c33427506a, 0x71ba0de74469d570, 0x5334a02fc2ffefb7, 0x0f126e6c08984195,
               0x9586edce1ae044be, 0x1bde70e3a61d923f, 0x899ccf0e4bc3342b, 0xd7286332d8db9abd,
               0x83851d580970b91b, 0x019efd32c5fbaa0d, 0x1ed21a601419b284, 0xcb3c8eb4db81d514);
  }

  lemma RestRounds48()
    ensures HasState(CHALLENGE_END, FromWords(REST), 48,
                     0xe81f343560b6b2cd, 0xa6e6d183d008e999, 0xb04819a7bfae22e8, 0x203eaad0a9ae079e,
                     0x809af175006cb214, 0x41db4c4d6b06beac, 0xbc1a920326e21286, 0x2b43e3421381570f)
  {
    hide FromWords, HasWords, HasState, HasConstants;
    RestRounds40();
    RestWords40();
    Constants40();
    NextRounds(CHALLENGE_END, FromWords(REST), 40, 0x1ed21a601419b284, 0x83851d580970b91b, 0x899ccf0e4bc3342b, 0x9586edce1ae044be,
               0xcb3c8eb4db81d514, 0x019efd32c5fbaa0d, 0xd7286332d8db9abd, 0x1bde70e3a61d923f,
               0xa2bfe8a14cf10364, 0xa81a664bbc423001, 0xc24b8b70d0f89791, 0xc76c51a30654be30,
               0xd192e819d6ef5218, 0xd69906245565a910, 0xf40e35855771202a, 0x106aa07032bbd1b8,
               0x4acca272eea082e3, 0xaff8ce10b19b2e94, 0x8237f36b92a68615, 0x9dc44caed53d87a4,
               0xd34b1fc9c4087634, 0x13877c6f75d59407, 0x3f9da50cf87a4a06, 0x78fb529d5788517f,
               0xaa4d5ed022a09e8b, 0x2f8ab5d05186ae91, 0x41ca4756a897ef25, 0xbdbd69ef9b1848ba,
               0x15897e31429ee810, 0x003a16f625287275, 0x2c1708f28dfd84dd, 0x2d53be2d01a19afc,
               0x203eaad0a9ae079e, 0x2b43e3421381570f, 0xb04819a7bfae22e8, 0xbc1a920326e21286,
               0xa6e6d183d008e999, 0x41db4c4d6b06beac, 0xe81f343560b6b2cd, 0x809af175006cb214);
  }

  lemma RestRounds56()
    ensures HasState(CHALLENGE_END, FromWords(REST), 56,
                     0x2d40a24b0e62382a, 0x7932ba37748aed08, 0xd4ace899e78f9046, 0x9fc037028c8a28a2,
                     0xe56186fe23516b2e, 0xf5008b2d3fc897ab, 0x47f20e0f2fde7789, 0x6323e92c59a32724)
  {
    hide FromWords, HasWords, HasState, HasConstants;
    RestRounds48();
    RestWords48();
    Constants48();
    NextRounds(CHALLENGE_END, FromWords(REST), 48, 0xe81f343560b6b2cd, 0xa6e6d183d008e999, 0xb04819a7bfae22e8, 0x203eaad0a9ae079e,
               0x809af175006cb214, 0x41db4c4d6b06beac, 0xbc1a920326e21286, 0x2b43e3421381570f,
               0x19a4c116b8d2d0c8, 0x1e376c085141ab53, 0x2748774cdf8eeb99, 0x34b0bcb5e19b48a8,
               0x391c0cb3c5c95a63, 0x4ed8aa4ae3418acb, 0x5b9cca4f7763e373, 0x682e6ff3d6b2b8a3,
               0x76dbccb6f9cbd353, 0xc49f6cd2882de777, 0xd62094e578b97aaf, 0xa908a2d39ccae43a,
               0x320efc28fa75a859, 0xd743be93132b3b61, 0x4954238de05d52da, 0x7b26c7f84876f42f,
               0x308bc61bb1430d7d, 0x76f4723c0a1dc21f, 0x771e568bec26e65b, 0xb7d40988fcd2d7b5,
               0x44480cd4c5199592, 0x4c4ff64f9a2f171d, 0x91271ce6970f4394, 0x3be6fb1421a812a6,
               0x9fc037028c8a28a2, 0x6323e92c59a32724, 0xd4ace899e78f9046, 0x47f20e0f2fde7789,
               0x7932ba37748aed08, 0xf5008b2d3fc897ab, 0x2d40a24b0e62382a, 0xe56186fe23516b2e);
  }

  lemma RestRounds64()
    ensures HasState(CHALLENGE_END, FromWords(REST), 64,
                     0x58ad9c0ff93955d1, 0x4a2da6a8425408ef, 0xfc7b0fca1e883444, 0x885bfb7a85167e21,
                     0xd5b1fa6f182200ff, 0x17bade90aafe6e85, 0x52a046a9ca711146, 0x0a18f47afdca121b)
  {
    hide FromWords, HasWords, HasState, HasConstants;
    RestRounds56();
    RestWords56();
    Constants56();
    NextRounds(CHALLENGE_END, FromWords(REST), 56, 0x2d40a24b0e62382a, 0x7932ba37748aed08, 0xd4ace899e78f9046, 0x9fc037028c8a28a2,
               0xe56186fe23516b2e, 0xf5008b2d3fc897ab, 0x47f20e0f2fde7789, 0x6323e92c59a32724,
               0x748f82ee5defb2fc, 0x78a5636f43172f60, 0x84c87814a1f0ab72, 0x8cc702081a6439ec,
               0x90befffa23631e28, 0xa4506cebde82bde9, 0xbef9a3f7b2c67915, 0xc67178f2e372532b,
               0xb357836b91080425, 0x621650501aa2c568, 0xaf7af3fd9fbc62c5, 0x763b731fe771f67f,
               0x2eb8d7dc388abaa5, 0x0536b05ae9da1b8a, 0xa0e20a27fb7a6753, 0x801978c883fcf485,
               0x2cc77112d729f0b2, 0x9bbf3521f228d3e4, 0x039f837822255ae8, 0xc80e950f906aaf79,
               0x7104cc8971836d46, 0xe1d730d6f6d3f94a, 0xaad13327d3c23ff6, 0x5fd50a6e6e130d12,
               0x885bfb7a85167e21, 0x0a18f47afdca121b, 0xfc7b0fca1e883444, 0x52a046a9ca711146,
               0x4a2da6a8425408ef, 0x17bade90aafe6e85, 0x58ad9c0ff93955d1, 0xd5b1fa6f182200ff);
  }

  lemma RestRounds72()
    ensures HasState(CHALLENGE_END, FromWords(REST), 72,
                     0x4f58881ca3963011, 0xff7b76cdb1d34675, 0x37ee1d7c9f0c691a, 0x65b885e92ddc3d18,
                     0xe29d25bbba0a09f6, 0x18eaf17d403774c8, 0x178a74e285e14e08, 0xc39aad46684a7fcb)
  {
    hide FromWords, HasWords, HasState, HasConstants;
    RestRounds64();
    RestWords64();
    Constants64();
    NextRounds(CHALLENGE_END, FromWords(REST), 64, 0x58ad9c0ff93955d1, 0x4a2da6a8425408ef, 0xfc7b0fca1e883444, 0x885bfb7a85167e21,
               0xd5b1fa6f182200ff, 0x17bade90aafe6e85, 0x52a046a9ca711146, 0x0a18f47afdca121b,
               0xca273eceea26619c, 0xd186b8c721c0c207, 0xeada7dd6cde0eb1e, 0xf57d4f7fee6ed178,
               0x06f067aa72176fba, 0x0a637dc5a2c898a6, 0x113f9804bef90dae, 0x1b710b35131c471b,
               0xb66de1ee4d774abc, 0x55dfa043ceb10895, 0x14bc7ecc899ddfc0, 0x26cbbde46844e311,
               0xe166cd171201bd2c, 0x213c9b6b18ee775b, 0x9aa214aaa725363d, 0xf69e302a02a2b922,
               0x2102afb9c1045ffe, 0xdf07a1df6dbecc96, 0x1a3d42098ee79fe9, 0xbb03c28788332101,
               0xbd9393e095a5e819, 0x50b5d62ad7658671, 0xf561c3db37e78e82, 0x56df2bf426540684,
               0x65b885e92ddc3d18, 0xc39aad46684a7fcb, 0x37ee1d7c9f0c691a, 0x178a74e285e14e08,
               0xff7b76cdb1d34675, 0x18eaf17d403774c8, 0x4f58881ca3963011, 0xe29d25bbba0a09f6);
  }

  lemma RestRounds80()
    ensures HasState(CHALLENGE_END, FromWords(REST), 80,
                     0x4208c0921dc11419, 0xeed4fcd24be9681e, 0x9f2e120de8b9c616, 0xe1602512cdf0d447,
                     0xaa3b5f812c31a79b, 0x8a547376fba22078, 0x1d4b627b9f9f4551, 0x5840428aa44a9a87)
  {
    hide FromWords, HasWords, HasState, HasConstants;
    RestRounds72();
    RestWords72();
    Constants72();
    NextRounds(CHALLENGE_END, FromWords(REST), 72, 0x4f58881ca3963011, 0xff7b76cdb1d34675, 0x37ee1d7c9f0c691a, 0x65b885e92ddc3d18,
               0xe29d25bbba0a09f6, 0x18eaf17d403774c8, 0x178a74e285e14e08, 0xc39aad46684a7fcb,
               0x28db77f523047d84, 0x32caab7b40c72493, 0x3c9ebe0a15c9bebc, 0x431d67c49c100d4c,
               0x4cc5d4becb3e42b6, 0x597f299cfc657e2a, 0x5fcb6fab3ad6faec, 0x6c44198c4a475817,
               0xd4a1d4dc2e580485, 0x6a2f6d4ae8d99e94, 0x419b4123147570f2, 0xecd33d74f247460a,
               0x7c4ba374352ec6c8, 0xb054e2db4d0dc1ce, 0x17820ce42463abd1, 0x740727d55fc2865e,
               0xf75961351cd203c2, 0xb4d629511257cdec, 0xa908cd67da6fae20, 0x017071ee79fb1b0b,
               0x6702ee20f17f86da, 0xd74fc4da0cdfb691, 0xe091dc3b4391b381, 0xde9c0414b1880075,
               0xe1602512cdf0d447, 0x5840428aa44a9a87, 0x9f2e120de8b9c616, 0x1d4b627b9f9f4551,
               0xeed4fcd24be9681e, 0x8a547376fba22078, 0x4208c0921dc11419, 0xaa3b5f812c31a79b);
  }

  const REST_END: seq<bv64> := [
    0x5ea8a61daa7bb05b, 0xc0c58f108ad46822, 0xe2ee812b418666d4, 0xb53e8160c268422e,
    0xdfcf89131f99e5a1, 0x1f6df1c58753050b, 0x56122c166df6708f, 0xa961d63341e7aae5
  ]

  lemma RestCompressed()
    ensures Compress(CHALLENGE_END, FromWords(REST)) == REST_END
  {
    RestRounds80();
    hide FromWords, HasState, Compress;
    Compressed(CHALLENGE_END, FromWords(REST), 0x4208c0921dc11419, 0xeed4fcd24be9681e, 0x9f2e120de8b9c616, 0xe1602512cdf0d447,
               0xaa3b5f812c31a79b, 0x8a547376fba22078, 0x1d4b627b9f9f4551, 0x5840428aa44a9a87,
               REST_END);
  }

  const REST_DIGEST: seq<nat> := [
    0x5ea8a61daa7bb05b, 0xc0c58f108ad46822, 0xe2ee812b418666d4, 0xb53e8160c268422e,
    0xdfcf89131f99e5a1, 0x1f6df1c58753050b, 0x56122c166df6708f, 0xa961d63341e7aae5
  ]

  lemma RestSame()
    ensures SameWords(REST_END, REST_DIGEST)
  {
  }

  lemma KeyPadded()
    ensures PaddedWords(SECRET) == KEY && |KEY| == 16
  {
  }

  /** H(sk) */
  lemma KeyHashed()
    ensures Sha512(FromWords(SECRET)) == FromWords(KEY_DIGEST)
  {
    KeyPadded();
    KeyCompressed();
    KeySame();
    assert |SECRET| == 4;
    hide *;
    HashOfWords(SECRET, KEY, KEY_END, KEY_DIGEST);
  }

  lemma KeyHalves()
    ensures KEY_DIGEST == SCALAR + PREFIX && |SCALAR| == 4
  {
  }

  lemma NoncePadded()
    ensures PaddedWords(PREFIX + ABC_DIGEST) == NONCE && |NONCE| == 16
  {
    assert (PREFIX + ABC_DIGEST)[..4] == PREFIX && (PREFIX + ABC_DIGEST)[4..] == ABC_DIGEST;
  }

  /** H(prefix, m) */
  lemma NonceHashed()
    ensures Sha512(FromWords(PREFIX + ABC_DIGEST)) == FromWords(NONCE_DIGEST)
  {
    NoncePadded();
    NonceCompressed();
    NonceSame();
    assert |PREFIX + ABC_DIGEST| == 12;
    hide *;
    HashOfWords(PREFIX + ABC_DIGEST, NONCE, NONCE_END, NONCE_DIGEST);
  }

  lemma ChallengePadded()
    ensures PaddedWords(COMMITMENT + PUBLIC + ABC_DIGEST) == CHALLENGE + REST && |CHALLENGE| == |REST| == 16
  {
    assert COMMITMENT + PUBLIC + ABC_DIGEST == CHALLENGE;
    assert REST == [0x8000000000000000] + Blank(13) + [0, 1024];
  }

  /** H(R, A, m) */
  lemma ChallengeHashed()
    ensures Sha512(FromWords(COMMITMENT + PUBLIC + ABC_DIGEST)) == FromWords(REST_DIGEST)
  {
    ChallengePadded();
    ChallengeCompressed();
    RestCompressed();
    RestSame();
    assert |COMMITMENT + PUBLIC + ABC_DIGEST| == 16 && |CHALLENGE_END| == 8;
    hide *;
    HashOfMoreWords(COMMITMENT + PUBLIC + ABC_DIGEST, CHALLENGE, REST, CHALLENGE_END, REST_END, REST_DIGEST);
  }
}
