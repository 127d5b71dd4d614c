/**
 The one-block example of FIPS 180-4 for SHA-512: the message "abc", worked out from the definition
 eight rounds at a time.
 */
module Sha512Examples {
  import opened Bytes
  import opened Sha512Standard
  import opened Sha512Words
  import opened Sha512Constants

  const ABC: seq<nat> := [
    0x6162638000000000, 0x0000000000000000, 0x0000000000000000, 0x0000000000000000,
    0x0000000000000000, 0x0000000000000000, 0x0000000000000000, 0x0000000000000000,
    0x0000000000000000, 0x0000000000000000, 0x0000000000000000, 0x0000000000000000,
    0x0000000000000000, 0x0000000000000000, 0x0000000000000000, 0x0000000000000018
  ]

  lemma AbcFirst0()
    ensures HasWord(FromWords(ABC), 0, 0x6162638000000000)
    ensures HasWord(FromWords(ABC), 1, 0x0000000000000000)
    ensures HasWord(FromWords(ABC), 2, 0x0000000000000000)
    ensures HasWord(FromWords(ABC), 3, 0x0000000000000000)
  {
    hide FromWords, Loads, HasWord;
    assert Loads(0x6162638000000000, 0x6162638000000000) by {
      Word(0x6162638000000000, 0x61, 0x62, 0x63, 0x80, 0x00, 0x00, 0x00, 0x00, 0x6162638000000000);
    }
    assert Loads(0x0000000000000000, 0x0000000000000000) by {
      Word(0x0000000000000000, 0x00, 0x00, 0x00, 0x00, 0x00, 0x00, 0x00, 0x00, 0x0000000000000000);
    }
    FirstWord(ABC, 0, 0x6162638000000000);
    FirstWord(ABC, 1, 0x0000000000000000);
    FirstWord(ABC, 2, 0x0000000000000000);
    FirstWord(ABC, 3, 0x0000000000000000);
  }

  lemma AbcFirst4()
    ensures HasWord(FromWords(ABC), 4, 0x0000000000000000)
    ensures HasWord(FromWords(ABC), 5, 0x0000000000000000)
    ensures HasWord(FromWords(ABC), 6, 0x0000000000000000)
    ensures HasWord(FromWords(ABC), 7, 0x0000000000000000)
  {
    hide FromWords, Loads, HasWord;
    assert Loads(0x0000000000000000, 0x0000000000000000) by {
      Word(0x0000000000000000, 0x00, 0x00, 0x00, 0x00, 0x00, 0x00, 0x00, 0x00, 0x0000000000000000);
    }
    FirstWord(ABC, 4, 0x0000000000000000);
    FirstWord(ABC, 5, 0x0000000000000000);
    FirstWord(ABC, 6, 0x0000000000000000);
    FirstWord(ABC, 7, 0x0000000000000000);
  }

  lemma AbcFirst8()
    ensures HasWord(FromWords(ABC), 8, 0x0000000000000000)
    ensures HasWord(FromWords(ABC), 9, 0x0000000000000000)
    ensures HasWord(FromWords(ABC), 10, 0x0000000000000000)
    ensures HasWord(FromWords(ABC), 11, 0x0000000000000000)
  {
    hide FromWords, Loads, HasWord;
    assert Loads(0x0000000000000000, 0x0000000000000000) by {
      Word(0x0000000000000000, 0x00, 0x00, 0x00, 0x00, 0x00, 0x00, 0x00, 0x00, 0x0000000000000000);
    }
    FirstWord(ABC, 8, 0x0000000000000000);
    FirstWord(ABC, 9, 0x0000000000000000);
    FirstWord(ABC, 10, 0x0000000000000000);
    FirstWord(ABC, 11, 0x0000000000000000);
  }

  lemma AbcFirst12()
    ensures HasWord(FromWords(ABC), 12, 0x0000000000000000)
    ensures HasWord(FromWords(ABC), 13, 0x0000000000000000)
    ensures HasWord(FromWords(ABC), 14, 0x0000000000000000)
    ensures HasWord(FromWords(ABC), 15, 0x0000000000000018)
  {
    hide FromWords, Loads, HasWord;
    assert Loads(0x0000000000000000, 0x0000000000000000) by {
      Word(0x0000000000000000, 0x00, 0x00, 0x00, 0x00, 0x00, 0x00, 0x00, 0x00, 0x0000000000000000);
    }
    assert Loads(0x0000000000000018, 0x0000000000000018) by {
      Word(0x0000000000000018, 0x00, 0x00, 0x00, 0x00, 0x00, 0x00, 0x00, 0x18, 0x0000000000000018);
    }
    FirstWord(ABC, 12, 0x0000000000000000);
    FirstWord(ABC, 13, 0x0000000000000000);
    FirstWord(ABC, 14, 0x0000000000000000);
    FirstWord(ABC, 15, 0x0000000000000018);
  }

  lemma AbcWords0()
    ensures HasWords(FromWords(ABC), 0,
                     0x6162638000000000, 0x0000000000000000, 0x0000000000000000, 0x0000000000000000,
                     0x0000000000000000, 0x0000000000000000, 0x0000000000000000, 0x0000000000000000)
  {
    hide FromWords, HasWord;
    AbcFirst0();
    AbcFirst4();
  }

  lemma AbcWords8()
    ensures HasWords(FromWords(ABC), 8,
                     0x0000000000000000, 0x0000000000000000, 0x0000000000000000, 0x0000000000000000,
                     0x0000000000000000, 0x0000000000000000, 0x0000000000000000, 0x0000000000000018)
  {
    hide FromWords, HasWord;
    AbcFirst8();
    AbcFirst12();
  }

  lemma AbcWords16()
    ensures HasWords(FromWords(ABC), 16,
                     0x6162638000000000, 0x00030000000000c0, 0x0a9699a24c700003, 0x00000c0060000603,
                     0x549ef62639858996, 0x00c0003300003c00, 0x1497007a8a0e9dbc, 0x62e56500cc0780f0)
  {
    AbcWords0();
    AbcWords8();
    hide FromWords, HasWords;
    NextWords(FromWords(ABC), 0, 0x6162638000000000, 0x0000000000000000, 0x0000000000000000, 0x0000000000000000,
              0x0000000000000000, 0x0000000000000000, 0x0000000000000000, 0x0000000000000000,
              0x0000000000000000, 0x0000000000000000, 0x0000000000000000, 0x0000000000000000,
              0x0000000000000000, 0x0000000000000000, 0x0000000000000000, 0x0000000000000018,
              0x6162638000000000, 0x00030000000000c0, 0x0a9699a24c700003, 0x00000c0060000603,
              0x549ef62639858996, 0x00c0003300003c00, 0x1497007a8a0e9dbc, 0x62e56500cc0780f0);
  }

  lemma AbcWords24()
    ensures HasWords(FromWords(ABC), 24,
                     0x7760dd475a538797, 0xf1554b711c1c0003, 0xca2993a4345d9ff2, 0x5e0e66b5c783dd32,
                     0xe25a625d00494b62, 0x9f44486fb1e4fbd2, 0xb31b8c2b06085f2f, 0x0e987660934142f6)
  {
    AbcWords8();
    AbcWords16();
    hide FromWords, HasWords;
    NextWords(FromWords(ABC), 8, 0x0000000000000000, 0x0000000000000000, 0x0000000000000000, 0x0000000000000000,
              0x0000000000000000, 0x0000000000000000, 0x0000000000000000, 0x0000000000000018,
              0x6162638000000000, 0x00030000000000c0, 0x0a9699a24c700003, 0x00000c0060000603,
              0x549ef62639858996, 0x00c0003300003c00, 0x1497007a8a0e9dbc, 0x62e56500cc0780f0,
              0x7760dd475a538797, 0xf1554b711c1c0003, 0xca2993a4345d9ff2, 0x5e0e66b5c783dd32,
              0xe25a625d00494b62, 0x9f44486fb1e4fbd2, 0xb31b8c2b06085f2f, 0x0e987660934142f6);
  }

  lemma AbcWords32()
    ensures HasWords(FromWords(ABC), 32,
                     0xa4af2cfd09fbb924, 0xad289e2e0bd53186, 0x3c74563aa2f9673e, 0x6ccdcd14cc14b53f,
                     0xc3f925b337f22bde, 0x5bcc77a75ad95b54, 0x3ec2257adca09a52, 0x28246960001fc5eb)
  {
    AbcWords16();
    AbcWords24();
    hide FromWords, HasWords;
    NextWords(FromWords(ABC), 16, 0x6162638000000000, 0x00030000000000c0, 0x0a9699a24c700003, 0x00000c0060000603,
              0x549ef62639858996, 0x00c0003300003c00, 0x1497007a8a0e9dbc, 0x62e56500cc0780f0,
              0x7760dd475a538797, 0xf1554b711c1c0003, 0xca2993a4345d9ff2, 0x5e0e66b5c783dd32,
              0xe25a625d00494b62, 0x9f44486fb1e4fbd2, 0xb31b8c2b06085f2f, 0x0e987660934142f6,
              0xa4af2cfd09fbb924, 0xad289e2e0bd53186, 0x3c74563aa2f9673e, 0x6ccdcd14cc14b53f,
              0xc3f925b337f22bde, 0x5bcc77a75ad95b54, 0x3ec2257adca09a52, 0x28246960001fc5eb);
  }

  lemma AbcWords40()
    ensures HasWords(FromWords(ABC), 40,
                     0x04e33a75ce2be88a, 0x7d5314b3c359e0e7, 0xaef7a285ff251266, 0x0b8472581deea04f,
                     0xb174e26eddc7b033, 0x5d63bae58ddd88de, 0x4c044007b744ccbb, 0xe6a9aa4d74dc7d43)
  {
    AbcWords24();
    AbcWords32();
    hide FromWords, HasWords;
    NextWords(FromWords(ABC), 24, 0x7760dd475a538797, 0xf1554b711c1c0003, 0xca2993a4345d9ff2, 0x5e0e66b5c783dd32,
              0xe25a625d00494b62, 0x9f44486fb1e4fbd2, 0xb31b8c2b06085f2f, 0x0e987660934142f6,
              0xa4af2cfd09fbb924, 0xad289e2e0bd53186, 0x3c74563aa2f9673e, 0x6ccdcd14cc14b53f,
              0xc3f925b337f22bde, 0x5bcc77a75ad95b54, 0x3ec2257adca09a52, 0x28246960001fc5eb,
              0x04e33a75ce2be88a, 0x7d5314b3c359e0e7, 0xaef7a285ff251266, 0x0b8472581deea04f,
              0xb174e26eddc7b033, 0x5d63bae58ddd88de, 0x4c044007b744ccbb, 0xe6a9aa4d74dc7d43);
  }

  lemma AbcWords48()
    ensures HasWords(FromWords(ABC), 48,
                     0xebeaf1237248019c, 0x361e80b2d00f3193, 0x2e9839125df3b175, 0x3319629293ad5363,
                     0x9cbc5d89ac1b89d5, 0x275e23ffeeca50b7, 0x3b80d680bf69ef58, 0x0d0696933945a125)
  {
    AbcWords32();
    AbcWords40();
    hide FromWords, HasWords;
    NextWords(FromWords(ABC), 32, 0xa4af2cfd09fbb924, 0xad289e2e0bd53186, 0x3c74563aa2f9673e, 0x6ccdcd14cc14b53f,
              0xc3f925b337f22bde, 0x5bcc77a75ad95b54, 0x3ec2257adca09a52, 0x28246960001fc5eb,
              0x04e33a75ce2be88a, 0x7d5314b3c359e0e7, 0xaef7a285ff251266, 0x0b8472581deea04f,
              0xb174e26eddc7b033, 0x5d63bae58ddd88de, 0x4c044007b744ccbb, 0xe6a9aa4d74dc7d43,
              0xebeaf1237248019c, 0x361e80b2d00f3193, 0x2e9839125df3b175, 0x3319629293ad5363,
              0x9cbc5d89ac1b89d5, 0x275e23ffeeca50b7, 0x3b80d680bf69ef58, 0x0d0696933945a125);
  }

  lemma AbcWords56()
    ensures HasWords(FromWords(ABC), 56,
                     0x7533eabcb786ff00, 0xb89826cee6fbf0e5, 0x249b4fbcad623e9f, 0x4aea9df2b02d6f1e,
                     0x2cc57475a55e8d8f, 0xb2574ae938d8be89, 0xc1b35a57b16d6aea, 0xcc4918b5949206bb)
  {
    AbcWords40();
    AbcWords48();
    hide FromWords, HasWords;
    NextWords(FromWords(ABC), 40, 0x04e33a75ce2be88a, 0x7d5314b3c359e0e7, 0xaef7a285ff251266, 0x0b8472581deea04f,
              0xb174e26eddc7b033, 0x5d63bae58ddd88de, 0x4c044007b744ccbb, 0xe6a9aa4d74dc7d43,
              0xebeaf1237248019c, 0x361e80b2d00f3193, 0x2e9839125df3b175, 0x3319629293ad5363,
              0x9cbc5d89ac1b89d5, 0x275e23ffeeca50b7, 0x3b80d680bf69ef58, 0x0d0696933945a125,
              0x7533eabcb786ff00, 0xb89826cee6fbf0e5, 0x249b4fbcad623e9f, 0x4aea9df2b02d6f1e,
              0x2cc57475a55e8d8f, 0xb2574ae938d8be89, 0xc1b35a57b16d6aea, 0xcc4918b5949206bb);
  }

  lemma AbcWords64()
    ensures HasWords(FromWords(ABC), 64,
                     0x5099c3add79f90ec, 0x5ea81d78e7660bf1, 0xebee6267405ac2a9, 0xb01f21926108a4ab,
                     0x786433dd2fe65556, 0xc54a6eaa24a0552c, 0xb3c8f1530bdbaa9e, 0xbb8abfe56f469338)
  {
    AbcWords48();
    AbcWords56();
    hide FromWords, HasWords;
    NextWords(FromWords(ABC), 48, 0xebeaf1237248019c, 0x361e80b2d00f3193, 0x2e9839125df3b175, 0x3319629293ad5363,
              0x9cbc5d89ac1b89d5, 0x275e23ffeeca50b7, 0x3b80d680bf69ef58, 0x0d0696933945a125,
              0x7533eabcb786ff00, 0xb89826cee6fbf0e5, 0x249b4fbcad623e9f, 0x4aea9df2b02d6f1e,
              0x2cc57475a55e8d8f, 0xb2574ae938d8be89, 0xc1b35a57b16d6aea, 0xcc4918b5949206bb,
              0x5099c3add79f90ec, 0x5ea81d78e7660bf1, 0xebee6267405ac2a9, 0xb01f21926108a4ab,
              0x786433dd2fe65556, 0xc54a6eaa24a0552c, 0xb3c8f1530bdbaa9e, 0xbb8abfe56f469338);
  }

  lemma AbcWords72()
    ensures HasWords(FromWords(ABC), 72,
                     0xf63d4265cc1c5a78, 0xbe8355ea73129afb, 0x49e2db8ebdcfbeb5, 0x82269d4a883a3d99,
                     0xfdf53df3011f362b, 0x464af5671d71c12e, 0xe449b68198ec611c, 0x92aeeed1a7bcf7d2)
  {
    AbcWords56();
    AbcWords64();
    hide FromWords, HasWords;
    NextWords(FromWords(ABC), 56, 0x7533eabcb786ff00, 0xb89826cee6fbf0e5, 0x249b4fbcad623e9f, 0x4aea9df2b02d6f1e,
              0x2cc57475a55e8d8f, 0xb2574ae938d8be89, 0xc1b35a57b16d6aea, 0xcc4918b5949206bb,
              0x5099c3add79f90ec, 0x5ea81d78e7660bf1, 0xebee6267405ac2a9, 0xb01f21926108a4ab,
              0x786433dd2fe65556, 0xc54a6eaa24a0552c, 0xb3c8f1530bdbaa9e, 0xbb8abfe56f469338,
              0xf63d4265cc1c5a78, 0xbe8355ea73129afb, 0x49e2db8ebdcfbeb5, 0x82269d4a883a3d99,
              0xfdf53df3011f362b, 0x464af5671d71c12e, 0xe449b68198ec611c, 0x92aeeed1a7bcf7d2);
  }

  lemma AbcRounds8()
    ensures HasState(INITIAL, FromWords(ABC), 8,
                     0x8093d195e0054fa3, 0xc4875b0c7abc076b, 0xaf573b02403e89cd, 0xb680953951604860,
                     0x86f67263a0f0ec0a, 0x5a6c781f54dcc00c, 0x96f60209b6dc35ba, 0x745aca4a342ed2e2)
  {
    hide FromWords, HasWords, HasState, HasConstants;
    FirstState(INITIAL, FromWords(ABC));
    AbcWords0();
    Constants0();
    NextRounds(INITIAL, FromWords(ABC), 0, 0x6a09e667f3bcc908, 0xbb67ae8584caa73b, 0x3c6ef372fe94f82b, 0xa54ff53a5f1d36f1,
               0x510e527fade682d1, 0x9b05688c2b3e6c1f, 0x1f83d9abfb41bd6b, 0x5be0cd19137e2179,
               0x428a2f98d728ae22, 0x7137449123ef65cd, 0xb5c0fbcfec4d3b2f, 0xe9b5dba58189dbbc,
               0x3956c25bf348b538, 0x59f111f1b605d019, 0x923f82a4af194f9b, 0xab1c5ed5da6d8118,
               0x6162638000000000, 0x0000000000000000, 0x0000000000000000, 0x0000000000000000,
               0x0000000000000000, 0x0000000000000000, 0x0000000000000000, 0x0000000000000000,
               0xf6afceb8bcfcddf5, 0x58cb02347ab51f91, 0x1320f8c9fb872cc0, 0xc3d4ebfd48650ffa,
               0xebcffc07203d91f3, 0xdfa9b239f2697812, 0x5a83cb3e80050e82, 0x0b47b4bb1928990e,
               0xb680953951604860, 0x745aca4a342ed2e2, 0xaf573b02403e89cd, 0x96f60209b6dc35ba,
               0xc4875b0c7abc076b, 0x5a6c781f54dcc00c, 0x8093d195e0054fa3, 0x86f67263a0f0ec0a);
  }

  lemma AbcRounds16()
    ensures HasState(INITIAL, FromWords(ABC), 16,
                     0x0ae07c86b1181c75, 0xfa967eed85a08028, 0x44249631255d2ca0, 0x5e41214388186c14,
                     0xa77b7c035dd4c161, 0x874bfe5f6aae9f2f, 0x860acf9effba6f61, 0xcdf3bff2883fc9d9)
  {
    hide FromWords, HasWords, HasState, HasConstants;
    AbcRounds8();
    AbcWords8();
    Constants8();
    NextRounds(INITIAL, FromWords(ABC), 8, 0x8093d195e0054fa3, 0xc4875b0c7abc076b, 0xaf573b02403e89cd, 0xb680953951604860,
               0x86f67263a0f0ec0a, 0x5a6c781f54dcc00c, 0x96f60209b6dc35ba, 0x745aca4a342ed2e2,
               0xd807aa98a3030242, 0x12835b0145706fbe, 0x243185be4ee4b28c, 0x550c7dc3d5ffb4e2,
               0x72be5d74f27b896f, 0x80deb1fe3b1696b1, 0x9bdc06a725c71235, 0xc19bf174cf692694,
               0x0000000000000000, 0x0000000000000000, 0x0000000000000000, 0x0000000000000000,
               0x0000000000000000, 0x0000000000000000, 0x0000000000000000, 0x0000000000000018,
               0xf1eca5544cb89225, 0xd0403c398fc40002, 0x81782d4a5db48f03, 0x00091f460be46c52,
               0x69854c4aa0f25b59, 0xd375471bde1ba3f4, 0xdb0a9963f80c2eaa, 0x475975b91a7a462c,
               0x5e41214388186c14, 0xcdf3bff2883fc9d9, 0x44249631255d2ca0, 0x860acf9effba6f61,
               0xfa967eed85a08028, 0x874bfe5f6aae9f2f, 0x0ae07c86b1181c75, 0xa77b7c035dd4c161);
  }

  lemma AbcRounds24()
    ensures HasState(INITIAL, FromWords(ABC), 24,
                     0x4f6877b58fe55484, 0x3e2644567b709a78, 0xda34d6673d452dcf, 0x8dc5ae65569d3855,
                     0xc66005f87db55233, 0x0ac2b11da8f571c6, 0x8e30ff09ad488753, 0x4bb9e66d1145bfdc)
  {
    hide FromWords, HasWords, HasState, HasConstants;
    AbcRounds16();
    AbcWords16();
    Constants16();
    NextRounds(INITIAL, FromWords(ABC), 16, 0x0ae07c86b1181c75, 0xfa967eed85a08028, 0x44249631255d2ca0, 0x5e41214388186c14,
               0xa77b7c035dd4c161, 0x874bfe5f6aae9f2f, 0x860acf9effba6f61, 0xcdf3bff2883fc9d9,
               0xe49b69c19ef14ad2, 0xefbe4786384f25e3, 0x0fc19dc68b8cd5b5, 0x240ca1cc77ac9c65,
               0x2de92c6f592b0275, 0x4a7484aa6ea6e483, 0x5cb0a9dcbd41fbd4, 0x76f988da831153b5,
               0x6162638000000000, 0x00030000000000c0, 0x0a9699a24c700003, 0x00000c0060000603,
               0x549ef62639858996, 0x00c0003300003c00, 0x1497007a8a0e9dbc, 0x62e56500cc0780f0,
               0xcaf81a425d800537, 0x2deecc6b39d64d78, 0x4725be249ad19e6b, 0xf47e8353f8047455,
               0x3c4b4104168e3edb, 0x29695fd88d81dbd0, 0x9a3fb4d38ab6cf06, 0xf14998dd5f70767e,
               0x8dc5ae65569d3855, 0x4bb9e66d1145bfdc, 0xda34d6673d452dcf, 0x8e30ff09ad488753,
               0x3e2644567b709a78, 0x0ac2b11da8f571c6, 0x4f6877b58fe55484, 0xc66005f87db55233);
  }

  lemma AbcRounds32()
    ensures HasState(INITIAL, FromWords(ABC), 32,
                     0xff4d3f1f0d46a736, 0x4c4fbbb75f1873a6, 0x74bf40f869094c63, 0xe62349090f47d30a,
                     0x3cd388e119e8162e, 0x73e025d91b9efea3, 0xf0aec2fe1437f085, 0x0fcdf99710f21584)
  {
    hide FromWords, HasWords, HasState, HasConstants;
    AbcRounds24();
    AbcWords24();
    Constants24();
    NextRounds(INITIAL, FromWords(ABC), 24, 0x4f6877b58fe55484, 0x3e2644567b709a78, 0xda34d6673d452dcf, 0x8dc5ae65569d3855,
               0xc66005f87db55233, 0x0ac2b11da8f571c6, 0x8e30ff09ad488753, 0x4bb9e66d1145bfdc,
               0x983e5152ee66dfab, 0xa831c66d2db43210, 0xb00327c898fb213f, 0xbf597fc7beef0ee4,
               0xc6e00bf33da88fc2, 0xd5a79147930aa725, 0x06ca6351e003826f, 0x142929670a0e6e70,
               0x7760dd475a538797, 0xf1554b711c1c0003, 0xca2993a4345d9ff2, 0x5e0e66b5c783dd32,
               0xe25a625d00494b62, 0x9f44486fb1e4fbd2, 0xb31b8c2b06085f2f, 0x0e987660934142f6,
               0x9aff71163fa3a940, 0xd3ecf13769180e6f, 0x0bc5f791f8e6816b, 0x6ddf1fd7edcce336,
               0x884c3bc27bc4f941, 0xe6e48c9a8e948365, 0xeab4a9e5771b8d09, 0x09068a4e255a0dac,
               0xe62349090f47d30a, 0x0fcdf99710f21584, 0x74bf40f869094c63, 0xf0aec2fe1437f085,
               0x4c4fbbb75f1873a6, 0x73e025d91b9efea3, 0xff4d3f1f0d46a736, 0x3cd388e119e8162e);
  }

  lemma AbcRounds40()
    ensures HasState(INITIAL, FromWords(ABC), 40,
                     0x8e01e125b855d225, 0xb3bb8542b3376de5, 0x002bb8e4cd989567, 0x88df85b0bbe77514,
                     0x0c710a47ba6a567b, 0xb49596c20feba7de, 0x66adcfa249ac7bbd, 0x8fbfd0162bbf4675)
  {
    hide FromWords, HasWords, HasState, HasConstants;
    AbcRounds32();
    AbcWords32();
    Constants32();
    NextRounds(INITIAL, FromWords(ABC), 32, 0xff4d3f1f0d46a736, 0x4c4fbbb75f1873a6, 0x74bf40f869094c63, 0xe62349090f47d30a,
               0x3cd388e119e8162e, 0x73e025d91b9efea3, 0xf0aec2fe1437f085, 0x0fcdf99710f21584,
               0x27b70a8546d22ffc, 0x2e1b21385c26c926, 0x4d2c6dfc5ac42aed, 0x53380d139d95b3df,
               0x650a73548baf63de, 0x766a0abb3c77b2a8, 0x81c2c92e47edaee6, 0x92722c851482353b,
               0xa4af2cfd09fbb924, 0xad289e2e0bd53186, 0x3c74563aa2f9673e, 0x6ccdcd14cc14b53f,
               0xc3f925b337f22bde, 0x5bcc77a75ad95b54, 0x3ec2257adca09a52, 0x28246960001fc5eb,
               0xa0509015ca08c8d4, 0xe1034573654a106f, 0x60d4e6995ed91fe6, 0xefabbd8bf47c041a,
               0x2c59ec7743632621, 0x0fbae670fa780fd3, 0x1a081afc59fdbc2c, 0xf098082f502b44cd,
               0x88df85b0bbe77514, 0x8fbfd0162bbf4675, 0x002bb8e4cd989567, 0x66adcfa249ac7bbd,
               0xb3bb8542b3376de5, 0xb49596c20feba7de, 0x8e01e125b855d225, 0x0c710a47ba6a567b);
  }

  lemma AbcRounds48()
    ensures HasState(INITIAL, FromWords(ABC), 48,
                     0x6b69fc1bb482feac, 0xf61e672694de2d67, 0x021fbadbabab5ac6, 0xc47c9d5c7ea8a234,
                     0x35264334c03ac8ad, 0xc6bc35740d8daa9a, 0xe95c2a57572d64d9, 0x858d832ae0e8911c)
  {
    hide FromWords, HasWords, HasState, HasConstants;
    AbcRounds40();
    AbcWords40();
    Constants40();
    NextRounds(INITIAL, FromWords(ABC), 40, 0x8e01e125b855d225, 0xb3bb8542b3376de5, 0x002bb8e4cd989567, 0x88df85b0bbe77514,
               0x0c710a47ba6a567b, 0xb49596c20feba7de, 0x66adcfa249ac7bbd, 0x8fbfd0162bbf4675,
               0xa2bfe8a14cf10364, 0xa81a664bbc423001, 0xc24b8b70d0f89791, 0xc76c51a30654be30,
               0xd192e819d6ef5218, 0xd69906245565a910, 0xf40e35855771202a, 0x106aa07032bbd1b8,
               0x04e33a75ce2be88a, 0x7d5314b3c359e0e7, 0xaef7a285ff251266, 0x0b8472581deea04f,
               0xb174e26eddc7b033, 0x5d63bae58ddd88de, 0x4c044007b744ccbb, 0xe6a9aa4d74dc7d43,
               0xb01521dd6a6be12c, 0x169008b3a4bb170b, 0xe96f89dd48cbd851, 0xf0996439e7b50cb1,
               0xbc05ba8de5d3c480, 0x639cb938e14dc190, 0x35d7e7f41defcbd5, 0xcc5100997f5710f2,
               0xc47c9d5c7ea8a234, 0x858d832ae0e8911c, 0x021fbadbabab5ac6, 0xe95c2a57572d64d9,
               0xf61e672694de2d67, 0xc6bc35740d8daa9a, 0x6b69fc1bb482feac, 0x35264334c03ac8ad);
  }

  lemma AbcRounds56()
    ensures HasState(INITIAL, FromWords(ABC), 56,
                     0x63b460e42748817e, 0xf650857b5babda4d, 0xd63f68037ddf06aa, 0x03df11b32d42e203,
                     0xc6b4dd2a9931c509, 0x9ccfb31a86df0f86, 0xa6781efe1aa1ce02, 0x504f94e40591cffa)
  {
    hide FromWords, HasWords, HasState, HasConstants;
    AbcRounds48();
    AbcWords48();
    Constants48();
    NextRounds(INITIAL, FromWords(ABC), 48, 0x6b69fc1bb482feac, 0xf61e672694de2d67, 0x021fbadbabab5ac6, 0xc47c9d5c7ea8a234,
               0x35264334c03ac8ad, 0xc6bc35740d8daa9a, 0xe95c2a57572d64d9, 0x858d832ae0e8911c,
               0x19a4c116b8d2d0c8, 0x1e376c085141ab53, 0x2748774cdf8eeb99, 0x34b0bcb5e19b48a8,
               0x391c0cb3c5c95a63, 0x4ed8aa4ae3418acb, 0x5b9cca4f7763e373, 0x682e6ff3d6b2b8a3,
               0xebeaf1237248019c, 0x361e80b2d00f3193, 0x2e9839125df3b175, 0x3319629293ad5363,
               0x9cbc5d89ac1b89d5, 0x275e23ffeeca50b7, 0x3b80d680bf69ef58, 0x0d0696933945a125,
               0x571f323d96b3a047, 0x271580ed6c3e5650, 0xca9bd862c5050918, 0xdfe091dab182e645,
               0x813a43dd2c502043, 0x07a0d8ef821c5e1a, 0xd43f83727325dd77, 0x483f80a82eaee23e,
               0x03df11b32d42e203, 0x504f94e40591cffa, 0xd63f68037ddf06aa, 0xa6781efe1aa1ce02,
               0xf650857b5babda4d, 0x9ccfb31a86df0f86, 0x63b460e42748817e, 0xc6b4dd2a9931c509);
  }

  lemma AbcRounds64()
    ensures HasState(INITIAL, FromWords(ABC), 64,
                     0xab44e86276478d85, 0xa81dedbb9f19e643, 0xcfcd928c5424e2b6, 0x3857dfd2fc37d3ba,
                     0xcd881ee59ca6bc53, 0x84058865d60a05fa, 0x09aee5bda1644de5, 0xa6af4e9c9f807e51)
  {
    hide FromWords, HasWords, HasState, HasConstants;
    AbcRounds56();
    AbcWords56();
    Constants56();
    NextRounds(INITIAL, FromWords(ABC), 56, 0x63b460e42748817e, 0xf650857b5babda4d, 0xd63f68037ddf06aa, 0x03df11b32d42e203,
               0xc6b4dd2a9931c509, 0x9ccfb31a86df0f86, 0xa6781efe1aa1ce02, 0x504f94e40591cffa,
               0x748f82ee5defb2fc, 0x78a5636f43172f60, 0x84c87814a1f0ab72, 0x8cc702081a6439ec,
               0x90befffa23631e28, 0xa4506cebde82bde9, 0xbef9a3f7b2c67915, 0xc67178f2e372532b,
               0x7533eabcb786ff00, 0xb89826cee6fbf0e5, 0x249b4fbcad623e9f, 0x4aea9df2b02d6f1e,
               0x2cc57475a55e8d8f, 0xb2574ae938d8be89, 0xc1b35a57b16d6aea, 0xcc4918b5949206bb,
               0x7a52912943d52b05, 0xd2e89bbd91e00be0, 0x4b81c3aec976ea4b, 0x70505988124351ac,
               0x581ecb3355dcd9b8, 0x6a3c9b0f71c8bf36, 0x2c074484ef1eac8c, 0x4797cde4ed370692,
               0x3857dfd2fc37d3ba, 0xa6af4e9c9f807e51, 0xcfcd928c5424e2b6, 0x09aee5bda1644de5,
               0xa81dedbb9f19e643, 0x84058865d60a05fa, 0xab44e86276478d85, 0xcd881ee59ca6bc53);
  }

  lemma AbcRounds72()
    ensures HasState(INITIAL, FromWords(ABC), 72,
                     0xf15e9664b2803575, 0x7652c579cb60f19c, 0xfb6aaae5d0b6a447, 0x181839d609c79748,
                     0x947c3dfafee570ef, 0xaff62c9665ff80fa, 0xe3711cb6564d112d, 0x0ada78ba2d446140)
  {
    hide FromWords, HasWords, HasState, HasConstants;
    AbcRounds64();
    AbcWords64();
    Constants64();
    NextRounds(INITIAL, FromWords(ABC), 64, 0xab44e86276478d85, 0xa81dedbb9f19e643, 0xcfcd928c5424e2b6, 0x3857dfd2fc37d3ba,
               0xcd881ee59ca6bc53, 0x84058865d60a05fa, 0x09aee5bda1644de5, 0xa6af4e9c9f807e51,
               0xca273eceea26619c, 0xd186b8c721c0c207, 0xeada7dd6cde0eb1e, 0xf57d4f7fee6ed178,
               0x06f067aa72176fba, 0x0a637dc5a2c898a6, 0x113f9804bef90dae, 0x1b710b35131c471b,
               0x5099c3add79f90ec, 0x5ea81d78e7660bf1, 0xebee6267405ac2a9, 0xb01f21926108a4ab,
               0x786433dd2fe65556, 0xc54a6eaa24a0552c, 0xb3c8f1530bdbaa9e, 0xbb8abfe56f469338,
               0x5a806d7e9821a501, 0xaa84b086688a5c45, 0xeeb9c21bb0102598, 0x3b5fed0d6a1f96e1,
               0x46c4210ab2cc155d, 0x29fab5a7bff53366, 0x54ba35cf56a0340e, 0x1c66f46d95690bcf,
               0x181839d609c79748, 0x0ada78ba2d446140, 0xfb6aaae5d0b6a447, 0xe3711cb6564d112d,
               0x7652c579cb60f19c, 0xaff62c9665ff80fa, 0xf15e9664b2803575, 0x947c3dfafee570ef);
  }

  lemma AbcRounds80()
    ensures HasState(INITIAL, FromWords(ABC), 80,
                     0x73a54f399fa4b1b2, 0x10d9c4c4295599f6, 0xd67806db8b148677, 0x654ef9abec389ca9,
                     0xd08446aa79693ed7, 0x9bb4d39778c07f9e, 0x25c96a7768fb2aa3, 0xceb9fc3691ce8326)
  {
    hide FromWords, HasWords, HasState, HasConstants;
    AbcRounds72();
    AbcWords72();
    Constants72();
    NextRounds(INITIAL, FromWords(ABC), 72, 0xf15e9664b2803575, 0x7652c579cb60f19c, 0xfb6aaae5d0b6a447, 0x181839d609c79748,
               0x947c3dfafee570ef, 0xaff62c9665ff80fa, 0xe3711cb6564d112d, 0x0ada78ba2d446140,
               0x28db77f523047d84, 0x32caab7b40c72493, 0x3c9ebe0a15c9bebc, 0x431d67c49c100d4c,
               0x4cc5d4becb3e42b6, 0x597f299cfc657e2a, 0x5fcb6fab3ad6faec, 0x6c44198c4a475817,
               0xf63d4265cc1c5a78, 0xbe8355ea73129afb, 0x49e2db8ebdcfbeb5, 0x82269d4a883a3d99,
               0xfdf53df3011f362b, 0x464af5671d71c12e, 0xe449b68198ec611c, 0x92aeeed1a7bcf7d2,
               0x358406d165aee9ab, 0x8c7b5fd91a794ca0, 0x20878dcd29cdfaf5, 0x054d3536539948d0,
               0x33d48dabb5521de2, 0x2ba18245b50de4cf, 0xc8960e6be864b916, 0x995019a6ff3ba3de,
               0x654ef9abec389ca9, 0xceb9fc3691ce8326, 0xd67806db8b148677, 0x25c96a7768fb2aa3,
               0x10d9c4c4295599f6, 0x9bb4d39778c07f9e, 0x73a54f399fa4b1b2, 0xd08446aa79693ed7);
  }

  const ABC_END: seq<bv64> := [
    0xddaf35a193617aba, 0xcc417349ae204131, 0x12e6fa4e89a97ea2, 0x0a9eeee64b55d39a,
    0x2192992a274fc1a8, 0x36ba3c23a3feebbd, 0x454d4423643ce80e, 0x2a9ac94fa54ca49f
  ]

  lemma AbcCompressed()
    ensures Compress(INITIAL, FromWords(ABC)) == ABC_END
  {
    AbcRounds80();
    hide FromWords, HasState, Compress;
    Compressed(INITIAL, FromWords(ABC), 0x73a54f399fa4b1b2, 0x10d9c4c4295599f6, 0xd67806db8b148677, 0x654ef9abec389ca9,
               0xd08446aa79693ed7, 0x9bb4d39778c07f9e, 0x25c96a7768fb2aa3, 0xceb9fc3691ce8326,
               ABC_END);
  }

  const ABC_DIGEST: seq<nat> := [
    0xddaf35a193617aba, 0xcc417349ae204131, 0x12e6fa4e89a97ea2, 0x0a9eeee64b55d39a,
    0x2192992a274fc1a8, 0x36ba3c23a3feebbd, 0x454d4423643ce80e, 0x2a9ac94fa54ca49f
  ]

  lemma AbcSame()
    ensures SameWords(ABC_END, ABC_DIGEST)
  {
  }

  lemma AbcFirstWord()
    ensures [0x61, 0x62, 0x63] + [0x80] + Zeros(4) == FromWords([0x6162638000000000])
  {
    EightBytes(0x61, 0x62, 0x63, 0x80, 0, 0, 0, 0);
    OneWord(0x6162638000000000);
    hide BeBytes, FromWords;
    assert [0x61, 0x62, 0x63] + [0x80] + Zeros(4) == [0x61, 0x62, 0x63, 0x80, 0, 0, 0, 0];
  }

  lemma AbcWords()
    ensures ABC == [0x6162638000000000] + Blank(13) + [0, 24]
  {
    assert |ABC| == 16;
  }

  lemma AbcPadded()
    ensures Pad([0x61, 0x62, 0x63]) == FromWords(ABC)
  {
    hide FromWords, BeBytes, Blank, ABC, Zeros;
    var m: seq<byte> := [0x61, 0x62, 0x63];
    var w: seq<nat> := [0x6162638000000000];
    SplitZeros(4, 104);
    AbcFirstWord();
    BlankWords(13);
    LengthWords(24);
    AbcWords();
    FromConcat(w + Blank(13), [0, 24]);
    FromConcat(w, Blank(13));
    assert m + [0x80] + Zeros(108) == (m + [0x80] + Zeros(4)) + Zeros(104);
  }

  predicate IsAbc(m: seq<byte>) {
    |m| == 3 && m[0] == 0x61 && m[1] == 0x62 && m[2] == 0x63
  }

  lemma AbcBytes(m: seq<byte>)
    requires IsAbc(m)
    ensures m == [0x61, 0x62, 0x63]
  {
  }

  /** Sha512("abc") */
  lemma Abc(m: seq<byte>)
    requires IsAbc(m)
    ensures Sha512(m) == FromWords(ABC_DIGEST)
  {
    hide *;
    AbcBytes(m);
    AbcPadded();
    AbcCompressed();
    AbcSame();
    AbcWords();
    OneBlock(m, ABC, ABC_END, ABC_DIGEST);
  }
}
