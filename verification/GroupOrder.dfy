/**
 The order of the base point: m, the modulus of the scalars, takes it to the neutral element. The
 digits 1 and the digits -1 of a signed binary form of m are added up on their own; both sums are
 the same point.
 */
module GroupOrder {
  import opened PrimeField
  import opened Edwards
  import opened ScalarMult
  import opened BasePoint
  import opened BasePowers
  import opened ModM
  import opened Signature

  lemma Cancel(m: int, n: int, p: Point)
    requires Fermat() && IsMultiple(m, p) && IsMultiple(n, p)
    ensures Mult(m - n, BASE) == NEUTRAL
  {
    BaseOnCurve();
    hide Fermat, OnCurve, Plus, Mult;
    MultNegate(n, BASE);
    MultAdd(m, -n, BASE);
    MultAdd(n, -n, BASE);
    MultIn(0, BASE);
  }

  const UP0: Point := Point(0x5cf4af79de4fb7ac479c9ada69088963f75cc659eba0606de8c7161f9c4e0f94,
                            0x481cf7191b45e3cb9faad7587dc699b26f8debee743ff39700f4ad3f5e0e7c7b)

  lemma UpSum0()
    requires Fermat()
    ensures IsMultiple(0x281001401, UP0)
  {
    hide Fermat, IsMultiple;
    Powers0();
    Powers12();
    Powers24();
    Powers36();
    var p10 := Point(0x6f7dd099eb424c65c6a463e03b40bac99b82df5bd7aeb289f3ac963d7025715f,
                   0x565d05821174f4d4f25b9b5e264d26c01333afdd5dad20471cf99a7b95a6b84c);
    Added(0x1, G0, 0x400, G10, p10,
          0x32b6e11c478100f3cdd26878fefe3996029f9618a1dd8f6144d49725e43ab404,
          0x6066c6553f66fcacd700fa6e621f887439a74e15abe9e9525385a164a93a8e422a1da35aef665469211107a69c2bed7d0b3f5438a60531d71856dd72a628875cd87c1d0686c0052238d62dbbb283bfcb59d37145262ed0c4fbd32865c354998de4afda9d8692dab5fbca39c8526b9655b1e8de7cbe52d8b050fe79b1a5d0ec,
          -0x3081a8158d292834eb3262f6fdd3e819e455fd3d1549024bc4f224cd2d6d3993,
          -0x53b2fb492ee98cfb1565119b654f97e3d800a05aee40ccb32966f84f8015909c);
    var p12 := Point(0x1e7fe6bf1e8845db09e3384b3fb5906319804b0bb81a8bf11595fb0840b9918c,
                   0x3d9157a25977952d9d510272c8a074c3aa3086771872857cc86009b2d1f2210c);
    Added(0x401, p10, 0x1000, G12, p12,
          0x41e27bc2f02a3fb1a7f1d668eafe271e6c2703441fdc03bf4177683940b25f1c,
          0x41fba7ce1a9a5d537a7ebd5746996ca4c870411c513eba0a59fa3a7373591e1acbc347d0454d3d0f7c960faf754ba6abbee884b01fdd086dae75f160196504202b0bebd694406ed52c606a7247bd960ce9014b56adcf390b99c8992c975e3c5a388439f218c111934a49b73d67e839a4871699fb0a3037af2588181e7817c4c,
          -0x92ca56dbbaae9690a65453365c278f3467ded0242e6a45e1b9c12a642119e863,
          -0xc921d51d636c59b2637bef707f51d4ed61416a39d2af5d2a70b36123d531f4ee);
    var p24 := Point(0x4dc49dc130c66556b9812913eca03276d83c154a2546f1a2142f9a9558340fe2,
                   0x1614b765ea40627d9a8376b2668338737e046efb4712b9c6b0edd6b8b8064345);
    Added(0x1401, p12, 0x1000000, G24, p24,
          0x3f175f207084992949c8f207d16bf9d79e42cf825ef6186aa5a9577790b5f96a,
          0x6a5bc7b334d1e23b6f1d073a2e7f56c49a4fc61a256474057a82e73b7a219e13bfd75f488db2e51f66b33eb417fe3ec772168647753a171ff66496f74a3f68532646b66da2362d5764db991434fbf4a3144be7536c789b3b4c345574e4d017d0e19fa7e31d0e04ee2f86acf7b0f8e11c46a107034d3aa8b813e744d4d247e,
          0x192f9ef7ded88f44ae17060b40f9607319e515b3f9c144d34328e9e92e6bfffe,
          -0x1d65a6c5c78fd76164264ec003a64aaa8e00895897820bbec9d9164ae4793771);
    var p31 := Point(0x782bae9cb89e23d6bcf82cde03e67f3fd7722f308183d3c4d6aa07ed544ba0fe,
                   0x3c8c2bcabf501924db86c72d4671bff1f3462ea2b2b6ea6f8bbcbf11801f9a30);
    Added(0x1001401, p24, 0x80000000, G31, p31,
          0x467cfe9b3b3718ea92bad62aae2172bb730fff2cd0e4dc2e5f0bbb6aa8b659b8,
          0xc15ae20e9ef2bbd5ed871508631cd057a0eced62f87e7943987c23fd4aa379f8534a2569b9f3a6d421f4a6e0c10fe890b518b1e10ebbd5c94a58ccfa608a72ab540ca7181fdbb863e62fd7a034fa4c2b8cf6aea7c44acbc67d24bbb6b675e61a8cd4920df41aee961508fd5ccb728d6a66bbf904554aba3dad16af84aca188,
          -0xc6c4ef3a0df26bfd55e8bf5bff4a11f6f72a2d76b441faf14628cb1fe732d66,
          -0x7b6ffcbbef69932a7e1b990b88cff290f46ec62858d4d2055fe02a2a81fa2df2);
    var p33 := Point(0x5cf4af79de4fb7ac479c9ada69088963f75cc659eba0606de8c7161f9c4e0f94,
                   0x481cf7191b45e3cb9faad7587dc699b26f8debee743ff39700f4ad3f5e0e7c7b);
    Added(0x81001401, p31, 0x200000000, G33, p33,
          0x1ed80969c16b918643af194c490fb0f53fefdb596ccd40b770f6f5f075a04ba0,
          0x26b964219d07ad2cb5b34d18aa3ad81e84969f0f11e63ba85a188d309165918d733dbcb99eab52f071cee51fbd0011f2b9688a09e2abbff9ec18aacf6e065a6c3093639e5dd54eb977ddfeab03509e385b2a99ec5ccab3621ad7c2cb6c8cf1a99caa026640a0e9392737cf475b4f4a3e8bcb542e39b1e8f6cc1e77f57843280,
          -0x79c1e3e882acef15ac0edfd54751297d184b389ed1241d8b2591fbb09d39e99e,
          -0x8ecc54cd0fc4f811bb60a43b7768a17764a7fbb719b847ab2b03b9f63f129217);
  }

  const UP1: Point := Point(0x11bcdb72c73e56d25eab7e50852b06e4448a3745ec5fd6ec0f16579a8751d056,
                            0x60bd498a705d149dc8520d4f0cc6bbebe2d1f6e39beeed7e88b94216ccb6bc17)

  lemma UpSum1()
    requires Fermat()
    ensures IsMultiple(0x12842281001401, UP1)
  {
    hide Fermat, IsMultiple;
    UpSum0();
    Powers42();
    Powers48();
    Powers54();
    var p37 := Point(0x10fbe77a8d99a2c328d533ade85ce5480c7b3644fa8dc6e9b9fe286e62218007,
                   0x3dbe512f6070f95f1bd559dcb2e8c05ab4737d8230fca4bd309ef20340e02320);
    Added(0x281001401, UP0, 0x2000000000, G37, p37,
          0x4ce2fec912a9b8074d9da4d960252120101be30efc68faf1d2a8cfc2b376147f,
          0x29e5f114ebf6ab3606b67734440b50c7b65f0094b0fc9e20db1ce496223ebb0405d14d6f35638b6c6dc93d8666d01f318ed7df36765437f5db1c84f317ca469ba2252ac5a750bf705ac82a35f20d09ea4c32f2bb9cd512610409f91631d7660bb174ad531750140175c09891fc8fb559421931d24cdf06fcf32f1d5aa81fe5,
          -0x162baacea0d5525be971d7228db7216681a58c7e840b370b39bc8f2d534f6a0c,
          -0x462c5b6488c29c69ced1b8bdd3f23ed7ed20b634d6ff1a3116975e6a92d3b168);
    var p42 := Point(0x5e5cc0d283f1c00316e822a579ebf47fc6dbca6629b036f6ceb1a414241dc037,
                   0x266bcd27cbeb394758c4ed46a172bfb0266ed14551e806b88158151dcf9beb63);
    Added(0x2281001401, p37, 0x40000000000, G42, p42,
          0x63a52f18141bd661185f14948fcd77a00fcdbeba7415855fe9645e4539bedd31,
          0xfa94a93e2ab0ef6c2dd8db6fe53cf4c2c66b79a43f9421a70acb9d0a44e84205a1239b7471a6337049991dea6717fd093ff25aa505a9f5fcbe3a029b7b052f8968f79bf2dbbbfd05f8bbfac1817aba29a7f9dbb799d6b6d18edb7a48898ecdb91382042cdc70adeb08a2fb3a522c7a49682c155ca98e5969b3d728152ca2b,
          0x3565a8d428e8d1097f01829a9f9d2924c086f7b3df8a9b6e24b1917085d0e89d,
          -0x3f76d71842d1c42bda23e296bd756e04099bbb94f4792729bf67ad5fb3741f10);
    var p47 := Point(0x2b702a49b9f149f3f6e6558c1438a8089fd3573a2afaf7d11bc9a09f991e0f21,
                   0xa3282af23656d019353658a356718a326796785d85a1217cd50cca4ff02df22);
    Added(0x42281001401, p42, 0x800000000000, G47, p47,
          0x75215424964dbb178fbb309c1a6f9a5139d6cb58317142ab7cd84e3ede5a5f9e,
          0x22be732ab9b7f6eb8fa050fe13b37dffd9b0751cfb2f290784a125a20d93ae9d7e44fd5e30c98ea7dad192552de5973f51f06b8b8b5e2047d0d4a62a258b183b8a63abf3bec447893691796f393f539c320b037d43e99f015a079237a28f46fb0aa172ca547ec7d9720cb22748d06a9c70eec73ed622c476c870b0bb0652dc,
          0x56d4641ba2560cd44fe1661e1e216f788c1f67a5cbcb98caf96e44e6a428d5e,
          -0x4c84192bd7eeef2a33c4da528d8328df27b6e0fb20d8841f93466feeae3feadb);
    var p49 := Point(0x1e05725af2a20361d6bbe3bf5e338babfeb71d1a7e52bb43bee501e4c00bd5f2,
                   0x410fb037f48a0f3430db9d88cde64a784ed24246eeacc57a70dc467359808c4a);
    Added(0x842281001401, p47, 0x2000000000000, G49, p49,
          0x5292ecb3f739a282d90292d9337c00f411e7f39d7dc49d116416790cb2987cb3,
          0x11dbc76b54ceab89d12da9ed95e08ac0cab768ca8dd3cc0e4bb69ee4f3192740a392c69bd22ba5dd8bb42acdcba35d81a45ca255e61c60c51c2ab25ceacc953e271aee4a07fcb2ad1f8921e1a1d643fd8a62241fccf9d9d2603d66eae0c02d5625bf3ec01cdac1d474fdb3597adbc4036e6244cb83043ad1721c1a7c5a7e41,
          -0x7d03b50f4a668ac5cfcc636d9c2425e00163ab562e94452219bb6f4e74cecc6,
          -0x449d7737fb28887f5838105397fc10e91bb628cd118458528914674528318a43);
    var p52 := Point(0x11bcdb72c73e56d25eab7e50852b06e4448a3745ec5fd6ec0f16579a8751d056,
                   0x60bd498a705d149dc8520d4f0cc6bbebe2d1f6e39beeed7e88b94216ccb6bc17);
    Added(0x2842281001401, p49, 0x10000000000000, G52, p52,
          0x6b604ac34ae882cfed021b8d8befc7802baa36d95f13138827d5265ea018a122,
          0xea3ab95477fc54f95ff2fd1952f3c02dee6e58087062b39c11923512b8107ed13c0fa79adc28c4f1db3207b6add27004ae0a09dfd397cca9bfd13060a287b7df619eb2de97c477df61817be898da6a967c6319175feab53531c36836a64e535cefd813a396cdb9f0611bca9c39b91a62c3839da32c3f0a35450323d23c06,
          -0xc2d23e08e1bb6b12768755b157ccdf4acbf359aec7e1614fbe1d0c4adbc43a0,
          -0x8b6cb2bc559158d91ad5f0004b380892f4695b0624535a3b892bdc67cf555bd5);
  }

  const UP2: Point := Point(0x4b3878851ead2b9641a59c58f6255108d65acfedca330a22b1fdba1e07a723d7,
                            0x49cdf09e45338515514afa8cf38980d96f04f5fffd7503c01881d02076365d6c)

  lemma UpSum2()
    requires Fermat()
    ensures IsMultiple(0x240021008012842281001401, UP2)
  {
    hide Fermat, IsMultiple;
    UpSum1();
    Powers66();
    Powers72();
    Powers78();
    Powers90();
    Powers96();
    var p63 := Point(0x7cad52adc1c2aa4ff0be9a5f2206528079c0cfdfe3e2a7911f07bc5046f649e,
                   0x660716a3f813f57746fb780d276bdd68524cc52597b04c1978cc67fc6a3d7973);
    Added(0x12842281001401, UP1, 0x8000000000000000, G63, p63,
          0x1050fd5c03e059cd9388f1a569a029f20ccc53442d3f89e73ec00be07d994a96,
          0x7e0d409ba1aeddafd0065446b43520cc8410664c502559d8493ee719632c64b0aefbfa7ec93c0781386b385c4679dcb63ece4f780ab92491ac75a9e9e3ac901535b0a6fd6b1a8aba6b1a4bbc0292317c91cceb2521592d40954fccefe411f107c3c2939071c7f443310f83afb1ff146ba3ff04025c10b327311f020216dbe,
          -0x11f2c4473cc1f895501f30bc68e9b0fd343ba21f8d77317b4ee7f9443db26e2a,
          -0x63f1101ce18c36efcf50d254fa5ee5f231de08e05d9f1596de2742f19fb59c12);
    var p72 := Point(0x3b9dce7fdfda65aab65d6742ff14edf06df96c8a97dae5877d584e72e98de350,
                   0x16dd223ca04d51ca6ef9d99d03ca9e4b2978777588ce5426a0d911fa072eb108);
    Added(0x8012842281001401, p63, 0x1000000000000000000, G72, p72,
          0xc85fd6fe543fdd5234261868ebf236f19caa94286e17b9af094b368a891c80e,
          0x1d3428133476871169554c79d935172b59d2e6a802dab49ac3c1590f4b303b8cf0dcd36b0c307fdccbb0cfa09a5e0b5dff7e9ba0bbb251af82345e035bb160c1e066169e809cf1cd14d7b7281c3695b989fba549bf40b88be50273dd81fda82f3cc70b9938b0b8f88327f32b97d34f4defb4fefab1721949a7d576a5c6e984,
          -0x1a7d04196a04d0d004e652f709de0c392665e6025434b9e144436f0397e2d377,
          -0x637b1b37b609d78fc3804365f39193e8acd88bbfa6916b431eba322ae8b14239);
    var p77 := Point(0x3df649dc7c47b3dedcce210527f48126441b8fac1ec2516cf6379e5edb6e2848,
                   0x7848361ccedb638d91a32d122d6ff87e0d71b146d61246d25329067418d313e2);
    Added(0x1008012842281001401, p72, 0x20000000000000000000, G77, p77,
          0x6f96cf7dea78f3731c45a631c64bbc0db52b7f2303de23a600838b26a7c48115,
          0xb0cea167007cbc3e8a0e82008c62d2ecea94fbc810264dec155ba988ef3179032d536190d70b8849001b14eccb0b9235a276e40944c3d4b0ef692a48ac8efb3f89b75627fc0bb44450d8fb9220e3a9863f743e76d9afc77f51c583147b75a3118379d36e0d95b23059e72d1f6603a575c2870741ba78593870df585a7f4b7,
          0x22aaf7d8c4d26d86799d6aba85b67e910ced3f239a64e64782979d8bf6e30e98,
          -0x7ac38060ba70c2e5835ee6966d431d0c6adefb6b04dd3f87bafae577059b2460);
    var p90 := Point(0x6f786871e9d84eec5a74ae93424808bf6225b19c2fb3bf9c5880f06e43a9fea4,
                   0x190ce53096372850c50c1a1b3700912a91acda11f4b1edab16c66514c3d893e2);
    Added(0x21008012842281001401, p77, 0x40000000000000000000000, G90, p90,
          0x2850cff69b9410451c82600395b4b1f76333d6af221e93285fa761ca1bc65a3d,
          0x25d46af303bc24285c96aaaf4bc1906930a00626edf5fc84726b35fa744d1cc0e0ef7cf2f6db87ea29120e7c26c42fc67aff36ae8d614259b59cd985b1b649d7012068f9649800f06458657f59e3b60452b42933ed2fb40dfc2ef02d04a924cce7d214d0b6285a7cdff8936533f1a53d886be7c70d244dce28bc7fbafe2876f,
          -0x59c561a567350c4ebe1c24f58512dd314f2d2a48ee14644370439915a4a77854,
          -0x91a2f43d8cf96193812c525afb54dff8685a1c06975937f4985e39e623a247d8);
    var p93 := Point(0x4b3878851ead2b9641a59c58f6255108d65acfedca330a22b1fdba1e07a723d7,
                   0x49cdf09e45338515514afa8cf38980d96f04f5fffd7503c01881d02076365d6c);
    Added(0x40021008012842281001401, p90, 0x200000000000000000000000, G93, p93,
          0x727480481cc31eb7647b8599cb4ddd1dc4b1ebfea810b6d16ceb06d72a24c937,
          0x410684e56f672d429dc525e17e9d3e99ba11ecec0d809cc5150b5cf11592351099d94af6bc0d04b40f2dfc5f7e4d61b35c352c56e3a863743982b2b3544523037d09c2e5d6900700716c81586b088aebc33bce7aa559f970684be8eff5b160b18990995bcb6b938fd37c4cc1d40109be9d4a52081276a8620a9b3529a55cfd,
          0x19339635c3ddac7aae9a4a605621d4fcd32eab7c6cbba948ddeccbc1eb82d940,
          -0x8ad7e2e77a562f69da71994ffa451cc3142fedb79dcfb9e4e06a61a6d1749576);
  }

  const UP3: Point := Point(0x3ffb9a08bda53b19cec28bf089991bf5e47d026605e27ce0a5e761db9d87e5f4,
                            0x1803261e7c7b1638a494d3056264a79200b131bf4dc3448bd244816f119ab7d5)

  lemma UpSum3()
    requires Fermat()
    ensures IsMultiple(0x15000200a40021008012842281001401, UP3)
  {
    hide Fermat, IsMultiple;
    UpSum2();
    Powers96();
    Powers108();
    Powers120();
    Powers126();
    var p95 := Point(0x291df5a502bbd2bb33bfd9e5bf2fb1f0ff8661627b1a4b1ac43491ea322c217c,
                   0x6153e1fe7b6b6e3287179605ddb5487873c33c0b2a40e485dfce0ef0eb2949a);
    Added(0x240021008012842281001401, UP2, 0x800000000000000000000000, G95, p95,
          0x7f34900f6c5a904bb8483435ab8e5ebf2a0380180601973a4d6d345c6d2bbd29,
          0xeefdbb1acca9f5884968426cb1d7b72e997df3d38a33a7f04012867ee9c2f8d3b75721b946ef2dad42b448c0975335e1219a67e58e052e684c63cb3587e3e7aa7d9147f3eeb4b0d3e1104af6776620429745f1c1d389c7a8ea14d380dbf4c26fbd2ed62da28a1dc7c958497a6c734f54def45b798177daed341ae2a241dc3,
          0x13c28210843a6820be6f0e3a73dd2cfcf137df812e9d8f04332da3e08d9691a3,
          -0x1afd47c3b8e1038b13b0df09acb375a3dda107739ad5832904cf922ffda183d8);
    var p105 := Point(0x7fd38b2d0bce2a407cd5c4ce27dfa28b32e74097abd1b46a397c7f5256f5e5eb,
                   0x1615a0a69a398908aa3ac1f6eb7d9bef8badfd5c921d5cc17b2aaff15f47322a);
    Added(0xa40021008012842281001401, p95, 0x200000000000000000000000000, G105, p105,
          0x531ce9c6077dcda33d82328f653471bf8f1127b6e88a69f882e8c69cf3e85aaf,
          0xec97942507fc8db3a1274d773766591b4b1444cdf2023cc4e58ec7d1179a1c3a1536e4bcd3d7a731cba8afc7b89102a755687acd9ae2dee2a3f54652311d8943167d4a260b10252eb04b156745a8f5ae4bbd14659af11e9229d73d8812cd54c07f206e88068172bb348e6aa5d7bbea00c4894100a8a2ee69869ffc30decd,
          0x4e149448e52fc08ec3cff39dd4086f7de6c43a1497b8ace1e9790666b16ca42e,
          -0x1bd2c80409d83b3dfce60cafa978bcba434bd23f49dfa76fb9f5a5ccbcf6f6fa);
    var p120 := Point(0x6885f2b0bef7a862232913582773c8560336f899ce1755409b81400a5c505f57,
                   0x1cd99c591d0059ddb2852b4b99686af016a0174f3dbd2323b314538166ce20f2);
    Added(0x200a40021008012842281001401, p105, 0x1000000000000000000000000000000, G120, p120,
          0x7f441278342d61005aa6bf5fb83161775bf8853b0bfd9651ad973d20b10693f7,
          0x6989e80aead505ba73a1d74b8c09221b63963139b2fa1ca9e8c649aa7d1104d9fcb647c3f1ddcb1c00a3c575d9afd14880e9ae81de7abce913af11798b2f7d81d4b18ee967fc75716443de0a1fd8fa2e1e92fdc00c65478e42448b49f9976dd34e6451baed57aeca480a1be56d14d27db78675e5d6af8fde19ed2e99f50fb5,
          0x29581d35834a2261777003f57209159478be152a086d04bf15bf72deeeca0b2d,
          -0x72b821aae05ea322613910b5fca1ab2c1b6339e459d64b3d063b79d7a65a0592);
    var p122 := Point(0x4df0b5849a66a45e2a9e90ad52c165afbe8d538a29c854d411bba67f6c67aa03,
                   0x7db5e604ee056c64a036ad46d09d5a3b6c12fc3ae45c55b0655198462fe3cb8);
    Added(0x1000200a40021008012842281001401, p120, 0x4000000000000000000000000000000, G122, p122,
          0x77efdbb59abbebd1937d5a6b1bf5ec13920dfe62c9cc7ac6e8bf73be5cd8c784,
          0x97ab93f82f4e693dbf05691d55e45257dc1ccc978732e6e173b650fd201105a4a52c0bbaebca9f31483029849a0842665811bfe4abb0ef8c40cd52982cf3c131456dd0f4d3236935c83e54642baf5c91f4d5f2e352e006e5fe1ce0329aaaad9c83ddd64ea25e921555911c1754303499e6481602eef16710160ab096d34c,
          0x44219f6a6bc2954d01837483af49da97eb192b8c07b06f342f04d83178a0556f,
          -0xbd5bdb8b958fc2f7b693b517e3336e2e19d9a6b5e5187d1c1ff175011ca233c);
    var p124 := Point(0x3ffb9a08bda53b19cec28bf089991bf5e47d026605e27ce0a5e761db9d87e5f4,
                   0x1803261e7c7b1638a494d3056264a79200b131bf4dc3448bd244816f119ab7d5);
    Added(0x5000200a40021008012842281001401, p122, 0x10000000000000000000000000000000, G124, p124,
          0x3a91f26befda6f0ecc00e373c88a3e105718f6c18cd0d7c36b89b7c49d93dd4a,
          0x4cfcd4abb455d9647845721f86902cfe7089edc6bc4b5e48846a643939cbdcea0c67dc835a6d88918029e6a2d8acc65390b7905b9bbc267ef85ad7049f84fb40eb5b44b656b6323cbcb4a1498b5bea55ffa71fa2816e1658ea595cd67e01cf5dd717c8424f828e272aa798c3564ec56d8f9c2514b3f2ba4c151d170873d6e,
          -0xf3301de19e42cbfbc5905a9b53146733639a701ae2174e71110c7d2791f969a,
          -0x1634ebb9d6a6db43fc77940986908467c9ca4e1f2a928ad8be47fa465156f99b);
  }

  const UP4: Point := Point(0x5c38a9284ed8c8331bb071573d1746a215470c0ee47b5feed3ef6229c93c7aa8,
                            0x40686d1bca98e8173feb37794117ebf772bf695f3c38ef064ec506e66ddf9e01)

  lemma UpSum4()
    requires Fermat()
    ensures IsMultiple(0x1000000000000000000000000000000015000200a40021008012842281001401, UP4)
  {
    hide Fermat, IsMultiple;
    UpSum3();
    Powers252();
    var p252 := Point(0x5c38a9284ed8c8331bb071573d1746a215470c0ee47b5feed3ef6229c93c7aa8,
                   0x40686d1bca98e8173feb37794117ebf772bf695f3c38ef064ec506e66ddf9e01);
    Added(0x15000200a40021008012842281001401, UP3, 0x1000000000000000000000000000000000000000000000000000000000000000, G252, p252,
          0x11dda09ff26e27092545c9aa299b09c9b04ddf08a2697742da3b3222fe5abb2f,
          0x982929928d5e0529374428a994d760a1c26e068281648fa4e9da8a3589570a397ff04aa466d77c2c112e5dce78383c0c6ad6c10d97037bab0b3ea54ea0204bd3bd4c9170f16e70b2885423d9439dd3626f51eaf8b46cba0e11632cf057682656c2e0273d1c864e05351250f1799aff8fe1decf6664b0b10157747b21907575,
          -0x36c55085cc71660ca585e04d25a1254e1918dbd4a118523905f87e076e6c3cac,
          -0x4feb6e7187f0a7aa562ac140105597fb6efad72019c64ac0ef39c437af624d4e);
  }

  const DOWN0: Point := Point(0x4f432f8ba7737fcc7a1a757a30c2816499bc06bfb023297f6f6e1ec1d9ad30db,
                            0x3d3c9ba038dd4b1e2f573fc33ff3957a2c035d28d5eb6f5abad09a312bcb3ed2)

  lemma DownSum0()
    requires Fermat()
    ensures IsMultiple(0x40a4014, DOWN0)
  {
    hide Fermat, IsMultiple;
    Powers6();
    Powers18();
    Powers24();
    Powers30();
    var p4 := Point(0x673c65caedd698b94f5bbd757df73a9e6985150ecd4a2135a058e273ab4cf9af,
                   0x136cebacb6260a9d5e6a3e3171c535f0be71cfbe16a960b9dd317bda6f3c5a38);
    Added(0x4, G2, 0x10, G4, p4,
          0x62eccca36a086ae2bdb1a8a7dd6d4348550d1c80bbebdfcec204032ce453a11e,
          0x5ad785bf8256f4ea4b6c74f8275ff42a606384a6707ef787937ff4e49320fdf4fc2815bbaa4923c0866b0ce19b8dbd7c1239bc176cd729f1a7688ee3e82948e2bdf6f8adbb47558f77ad021ccfec37d0d8bc6ec7089eebe3ca5f86c61212178e2ee50b4cab94bd5a6a17aff60a76b153784f77a5334f8dabd7016e203753aa,
          0x1f6de9f97adafc9078d6211d628637fa8cd1eaa0f556928d92ecd7652783da1d,
          -0x5728e9e353583f3f8277d541eff95e2ff10ea99c6dfcc1eceff4e56507c9ca51);
    var p14 := Point(0x128cc44a87c8dfe1bc7bdb8890a6a76ec9e12757871284fb3abc9ebc786d654a,
                   0x8cbb2981937adc59e81f639a9aeed990eda6e28c4b835ddb79c14c5ef9fcbf3);
    Added(0x14, p4, 0x4000, G14, p14,
          0x553824962abdc0348862bfd2da448d176c3ab34890a5c0b7d2ad40acd68b55cb,
          0x112994e3b9cd8e19d9ca477d9dd8abe9f65813725cbd73e558e222998a67e28c8bf58d448f2808bb5d2e5cb18cdede38e3471c98f7f0701b9c2940965fe57facf5824e871c4bb4c6250e37410605faffe954f83285674908594029d9427775b486b51b82b070a7d04b00a4bc1413366d836c1e1ccac557eb9d9be06ca84c99,
          -0x50fd4c549f6922d65d1de12a02335e9c712006e04e10ebb481052857fc4666a3,
          -0x1d60bbc9a37a8ad748b854b8502534b9f640fe823ad98c4c8dbb03d27ca77bfc);
    var p17 := Point(0x4b62a7d743986da5773f2b3c6a631bc1e12f7407604720b0dadad3ca6dc3e14c,
                   0x53e1c58566e11dc864c226a8a6b4f71430cb69f3390acb5ab0e60a3f00a7069a);
    Added(0x4014, p14, 0x20000, G17, p17,
          0x1458ecea78b5150241ef3b9d1dd6731994d828cf0d380452856842dec794ca50,
          0x1909c0d31d25d83c0351a1417f8f8a8e3d2b1e61516c86921d18fb19a8ada4f11227e65e94a8ff9666d472a94ca7c410707c3ff101b60f7bf669ac3097494dcb072dba31404467305ceae57fe62b902a40b321558383933e1cf11d5693e64d8b002e5a9afe309fc18a1225ab1f33c5458199e56f1b7f88da1df17e41f63be,
          0x2bc33b24155bfff03eb475a1abea6255b2cff6e22c137ebb07f8e6ccb1dad31,
          -0x1ed9b10eb0dd409c4235f139cb03dbbfe35fb874fce3e290de7a8e7bcc53caeb);
    var p19 := Point(0x3ea05f0df00537d35999c12294f736070e9f02b86169252befe2ccb2cec6b5d0,
                   0x67222f0e362f90a61efeab71179709af04b89b5c35e94339e31cf090d61cd4d4);
    Added(0x24014, p17, 0x80000, G19, p19,
          0x3e6d8ed1d9ac3b2b960b04540ecdc10243fdb4c80460e68976d8cacfed7c964a,
          0x7c4d870a17acf69fd772ae80a4e27e157fbecfc00a668c7b1419961a950c2b9af6ba1d1aa8f41f20f70e79b42fd5611358d730a4f6ae1cf0bebe99d1923541602d1cd0b26b42d0de1ac01435eb5e9c4bd483dd25d3b33d089e5d38c7aa3e23f3b5ef2e565a675ce80adc426f0820c02308ef99ba89773207e75310d1dcff8e,
          -0x19e10c9c70916b64fe27f3fb09bb93b9e3bc167e223937acf2fa844245f793e0,
          -0x6bffea0b2de4703c17700fe3ce57eed6d386476dd73416219ddf3f2cdcacc360);
    var p26 := Point(0x4f432f8ba7737fcc7a1a757a30c2816499bc06bfb023297f6f6e1ec1d9ad30db,
                   0x3d3c9ba038dd4b1e2f573fc33ff3957a2c035d28d5eb6f5abad09a312bcb3ed2);
    Added(0xa4014, p19, 0x4000000, G26, p26,
          0x6c2d3815457d0e9407061386760e8ef7045e943d6b3ff6312456ded97f69c2ba,
          0x170feb9165bf0201c3b02c40945d26f89a32081f1358a7dc57b94db3867f19e8800fd187850ccb373298cd1d1e9bcf138e5bc38f6bb401edd33294e39fe03d208058daf8b26e4199fd10d22d5a07f871768dc3de8615fc4581589b8295b8d00595080c0b139a745b01d9d95e1bf167ea913a4833992207bdb77b5bd6755691e,
          -0x2c390b6f2ba62f2d94361a9d86e95d2804bee7b357cee3af814eee1482177e2f,
          -0x93e6a272d5bb64fc7a5f866771cd1892f9869872c22be1b838799c2ed8d66652);
  }

  const DOWN1: Point := Point(0x52dbf470c093584dabf47755f85af1247774e6896dcbef80a0d58f812d594287,
                            0x26e6fc582e5a1aefdbd0133608235a5019cfd69fee1083e186e3730d9f99b580)

  lemma DownSum1()
    requires Fermat()
    ensures IsMultiple(0x8002108240a4014, DOWN1)
  {
    hide Fermat, IsMultiple;
    DownSum0();
    Powers30();
    Powers36();
    Powers42();
    Powers48();
    Powers60();
    var p29 := Point(0x61729b7cf344380185de39a3628adbbb8fa2fa603f7cc5ea4399ca5d7efc95e3,
                   0x13cbaf56256e176dcd9640a053d212bf13a345d05fbcb685775cd3ea3d4afada);
    Added(0x40a4014, DOWN0, 0x20000000, G29, p29,
          0x7b87487d024276e8f4e8f48427a11775ea1c6df8ffa0dad06fd77455257f69ec,
          0x106d08c51facc1263ebb1d2a0bf2eda4be2821d9fab7f8e4370041b4a39f9a57255f20c85ac75c88f4832904fd51ced493c34b512aa77caa78aa1433b089e1281808df7b4b3c5667892ccefdb0e3d2671855433ec9940211d2c85d08c6ddd016c8d46e62582af4ba3466112a0ccb92c20159359f85231d1b49771f189c2f0ce,
          0xc3b1a30f313770628c4952c3dea4867bb65704a180725282eabce4fe5fc53f6,
          -0x6aa2676762a557456ff7a6d1c1c7f40b5d049f42ed45fa9d2c9db11999bfc9d3);
    var p35 := Point(0x42cdb367ae3f9ae9c2f983e9f70dc49f6657d1f512c17836b28b1999947c84ff,
                   0xb3c62e355ac264b25f68a7846d8b6525e814c9a58c3b1eb000edafa12a2c1fc);
    Added(0x240a4014, p29, 0x800000000, G35, p35,
          0x7ebc65e1119bb3abb817026cb02b7e982a6735a3738d89bcafe50638888992ba,
          0x99dc2c1a372bf8503bd9d7275a51eb94af4709d6bcb4328e35c7c7d26f068d3f426c5e6026514557b7b0271238cfaafeb0186aa0c12d071c4005f545d87273ccd4b7a9cc182e9ca1fd63ade058e9db6b5e1be7dbf40fdbbbcceee8988808bb69cb551a6a8411cd5fe17cf27054a624129f8a7a0b4667aa5b052aefd5f2403a,
          -0x235ee5f077f97f9cc96b821eca0efea37cbf5b979af9bd7bd5efb0be7c993fde,
          -0x51968aeecaab44f2b4abf34ced8881254212de9adeb8a7da16a9b195c4ed6e30);
    var p40 := Point(0x24038ee999dfd173ee7ba2183baa09095f1d08b3cfef7a262e37065ec0acda46,
                   0x40d8bc8f2018d58a136bc05615c8f67176129a20fa49d8de21d7e9e0d7f3012d);
    Added(0x8240a4014, p35, 0x10000000000, G40, p40,
          0x1a4758038cee9badb1f9b7884b8d2313896ee5be23669a936882764df60bd3b2,
          0x6f04a2f217bd230e6712760b79d27473baedd46d04890192cfd32f0bf23591341a4afbcbc775f8dcadbae219f7f1a3228b187b5e1f889ed4b7b7fa8e0987faa5515c1b7b7bad918f353802c4988ed7e42869a3f859fc67d8ef484a7fadfd3c39b6be1baa927b1386856bcbf0746627501e2f9bd8a41340c41ccacf9b45c3e,
          -0x19f4d408235f68115b7d7ad7c127c772d1ea4906a36857f6a9b508b86004e0a0,
          -0x1abe6f87a99a0cd4aaa10a452bac90cb403e389a514bfa0ff8fb40d626007310);
    var p45 := Point(0x4311c7dbdc1085d0b0d646994f704dcaf109deae0f9ca7313c3fe8dc71d0e5a5,
                   0x49a9a9cb0ea7e712ba7d5a21583339850b94f131c700a4d0d751ccb2aea061d5);
    Added(0x108240a4014, p40, 0x200000000000, G45, p45,
          0x7c3857c4bde37a7550b60e3a212f44113e5c0cb70662d1264078044c3bf1aa21,
          0x56e6394204f65bbff8f5c420c578e2b179bbec445018fb75ce151994879e372696fc0f2a015e05131c7661f1c32e1451b324f554bf3fb82d048a14eef26e30b4a2c6946f7f83719a403409978a2ea6b59cecc17ff8f3bd9cd64bec019f314a36af9b03ed58cf61e230471f13fdc093172a63b1e4a945dfe749d7d34ea56467,
          0xb21c7148b45d73c471dfea4508be482683dc2093c5d9dd8165855f44c1bbcc9,
          -0x76187a7109508b6bbdce7c2622409a8d9a66ec50c8db3f5e4554c4d4c3c775c4);
    var p59 := Point(0x52dbf470c093584dabf47755f85af1247774e6896dcbef80a0d58f812d594287,
                   0x26e6fc582e5a1aefdbd0133608235a5019cfd69fee1083e186e3730d9f99b580);
    Added(0x2108240a4014, p45, 0x800000000000000, G59, p59,
          0x30e5a794990c0ebd38525e1d79269e315cea48b368d79f5b755252edb671aaaf,
          0x83a665b737e79c9a0f95d78ca11918f8aaaca35728134139b4b8c312e7b8596fe89ba9927f995087859efbad706921e179001def9bf2914a0fd565143477438a6b0fd6b3c7ebd5e7a7ff61a33d8782524c202d5d82d188889a6017f601156dade8d7f88a0bbdf6db97f88101add9c4ce517dae91f7862d993564dcf7790f67,
          -0x2bc189ab77cfdc8fb7750b654b1ec573e8846070cdde6b2ae7331d5bb36305e9,
          -0x5600910506fef3d01cd589d9ba2330410084a7911ae53024e346d52f196fae29);
  }

  const DOWN2: Point := Point(0x398dd91289226f0d5cef5a579dc3c72884647dd49864fad7381925213294576f,
                            0x1baa7d4b8c90d9ec9434e84c0cb0989198ca7cdc96c31c236b912ed562ed59e5)

  lemma DownSum2()
    requires Fermat()
    ensures IsMultiple(0x42a28002108240a4014, DOWN2)
  {
    hide Fermat, IsMultiple;
    DownSum1();
    Powers66();
    Powers72();
    Powers78();
    var p61 := Point(0x75d48c07b443b1afa6ba77fd24c352b859c171f3ff0ffaeca196c3c93f035b41,
                   0x6ccd3cfb283cb402ea2cf491e9c153545d5dcfa231410f4fc093bb52389d609d);
    Added(0x8002108240a4014, DOWN1, 0x2000000000000000, G61, p61,
          0x43c67200de05768c88b54081eb0c788ac92c9f57b18e48ddad1f54eb43249dcc,
          0x33066b3607583041af08966e81284e73caba587af64f9670b362c9d51330cccc46d47331de23126876490ff367d47c2af2917212fc78ac184b2ee166dd6eda00189f3fd591a45e4a129cae070c4aa4ac785c8727446d668a75989da04011b980f304e517101232cddbf2a9951dd75a38f9da7e950307fb7d824e4966b54784,
          0x142993c0313e646dce905ae6b6130823eaf06adc6c557cce89033b71eb0ec8a3,
          -0x5dc35ae450019b4fc392ba4f75eacfb622b7abb0b69189aae5a7b5b9f891643a);
    var p65 := Point(0x6ad7d87c1f87d7749ba067f08ddf46d7946eb859dfa13b3fea35887efa8e5a80,
                   0x3e1d2de3fb9f4ca85e3e9d20b77397fa9fa3e02df7e175217c9da1a9f88fbf6f);
    Added(0x28002108240a4014, p61, 0x20000000000000000, G65, p65,
          0x4ac70fec68f12adb73e10177e892d4436510786df6cd2fdb4e41829ffea8cc4f,
          0x159a86910928e7099366cb00e9e111e84951a935b4f77964785149a9781cddcbf409ded4001540d5507f9db58100ad506d0ce0a5b9ac2676f5b3151e99b5443d1366facbc717eeaa2ae6aab4f9a36a95e4eebcd7a6d0350bab0e421cc01024f3fa8825cbfd66dbc0d72ce3b60c21cabfeabbff74c535d6726b6ff1eb4561db,
          -0xa851080885d344c1230593c62348c95d36c57986cf170e7709ac9e925361e0d,
          -0x67f056205df1edf9bec53a850feff7fd7c72d7dd8c55e5eee9853dbfea5f99bb);
    var p67 := Point(0x4e46348aada29f65976ad534e8f57e8a7905ddf612ce956e8b5272bb986a1652,
                   0x224e9fa9a20c4c4a77d53650f6ee9b9bce243464d17141dbba89d7970fb4a91b);
    Added(0x228002108240a4014, p65, 0x80000000000000000, G67, p67,
          0x29ba87f6f2eec6f59dee656ca3bd50c10633e85eabe04aa88afde1a57d46596,
          0xb43b8875678c823bf9c5745eedc208346705066844e7e5396c0b928bcddbaaa401441cf440d7dcdf35ed426a59819db6b5a521932c54441757f8ac2048fa8867271a8850b17a6efc30252e70672922206c87c33638e4ca92a9f87ecec3a60002dc7c5b5f371fac9ba5fd38ec24ba36e1138aac036a1b522393c1dab6bc0b52,
          -0x481c858f5a8655ef4ee5d8980812c99a97d1bcf4281d0c251f39e62be1e250ed,
          -0x66e5ae0f2ade9c0870b45a8a60d444ee663104c26b1ca22606c901203fa576ea);
    var p69 := Point(0x55174890665659b79b2d6d9cff2825c5403bf75ede6db73c3e10e429b19844d7,
                   0x16a46083f71a65aa0e98e582249fc97d3555335f324207f2dfe639300effb2ad);
    Added(0xa28002108240a4014, p67, 0x200000000000000000, G69, p69,
          0x641dd6efd1d677be44cc2f3a4de04053d8fbd72f7f37fbd76cd6c8dad4c80683,
          0x6ca19ebf1bccf8887de46cdf8f638d1a005813e4f12a9e22fd91ad3098e15aedf972f9abc93484df33c743be9a7919c751e7d67f589cc708ad3bdb7a575b24c76857b536647c63570967d2854620749fd27c646d99fbf904af443bc37723316578975b6c8b7451c3ba977fb9d0685dfce2e93b331b338861a979e251f249c9,
          -0x10c670af81c6adadb3c43906a4bba6ac86a442f0852fa7a161239cad41976729,
          -0x47151feded750a8b4c9e2e94cee724e6b1f0260ee77b14100916b6279925f13c);
    var p74 := Point(0x398dd91289226f0d5cef5a579dc3c72884647dd49864fad7381925213294576f,
                   0x1baa7d4b8c90d9ec9434e84c0cb0989198ca7cdc96c31c236b912ed562ed59e5);
    Added(0x2a28002108240a4014, p69, 0x4000000000000000000, G74, p74,
          0x543e4d2170c30a049cf7c84a9a52c37cb6511859090f863a12e7366d4a4ab8e3,
          0x3afc0f5b698c88d3c1ca509324cced0067462e4d481235ebe6fc7be892d384edddf4752022f5a782da82a3e2b7e64a826ab702ef859af2e53586f1d10c2758a87d74ff5d00ff6947aa87cfbdd163e63a5ca9df37721104c223a42a7277b04bf7c1514dd6f2a106b912633d8ab4d115954a6c6a75d97068bce8a8e4a3f8d0ad,
          -0x21a71875464c5e4dcde9fc3939de87d5060955631c57e2aa746e61fcff172779,
          -0x38bd9f2addb738c48d255363b2def1948fae82d607bae6affa5c82c6a221e9b9);
  }

  const DOWN3: Point := Point(0x4a3fffd0fa1e230df14ac4d39700b16831d027e986a607f107e0ca1a31d8a186,
                            0x3239a13e4a480113d827b3a4d8dda9b214e67bb1e27825a96e6e7507c952811d)

  lemma DownSum3()
    requires Fermat()
    ensures IsMultiple(0x220108842a28002108240a4014, DOWN3)
  {
    hide Fermat, IsMultiple;
    DownSum2();
    Powers84();
    Powers90();
    Powers102();
    var p79 := Point(0x51fdde4b62bb033b7b1d851bafeec6bce749fabb0329f97352c54231160ad1ef,
                   0x1607c9d233f1aa3fef6ef7eac9435b61979cc13a9e155c787aa1d746fd6db984);
    Added(0x42a28002108240a4014, DOWN2, 0x80000000000000000000, G79, p79,
          0x263e6320e5db3651cb054310938d31129efe0e440945da8743b3796b29d29992,
          0x5a52c6cd1324fb8ab20af4de4a0f4906a85979ac397366849e2bd3d7e498716660db2f98604cfd52a7f8b63af60c8c94f26a557afe95041849b8b21cc455b704c945ee6991720e0da7d15c36c783c383bc80aa0a34f43018e4ca38bf2ac7ac0568f338154b3f9260fa76d1acef032ac87cbddac0362705e53126794ba8a8e,
          0xac186b6736aea37574c4cfacff47b77464b49211338e40bf815a98bd4500523,
          -0x12a52c9e3ffefaa314fd6ce83fc7019cbefbc6675e039ce35f3b17747bb712fe);
    var p83 := Point(0x7a868f79f125de277654442107a41aefdb51ef10111b035bb91bd782485e53ad,
                   0x62e7d9d7f398be4f8a41c0adb2d609e3bcf16531b651ff77bb7a1348c44786e5);
    Added(0x842a28002108240a4014, p79, 0x800000000000000000000, G83, p83,
          0x2281412b247c89413d92429321885aaa5d7f6692a01ab7cfac63414f48862894,
          0x10f10f5e6daa3fde9f7762f43251da500746d76fdcebac5fba1e2281b6626380dc38f476c6a8b6ef49ff8168ab895b409f2f93492d16af713dfbbbc6dc75f649e4a9d492cbc5d4f34106600983fcddbec9ccbef6f8b58e1f481c4483ed180e6d71a578f74d7e248d4fdb543f92a00fb0d7107bc69aad3d6d1c41cc6ee022f0,
          -0x18187a291176dfd3d6147af12510b8928e74c2702ccc1b64283704a008558958,
          -0x30a03d2350c01ef6268a3e74d8ee9745debf785367b485892f23f10a8f0d95c4);
    var p88 := Point(0x5c02114a85c5a7d59355f90f570d35479b52017ec46a264cc5b6f6b0470a17d4,
                   0x730ee1ac12060eebfccb6fa63405bbe339b85a51c658bdbc005d247ca120ed43);
    Added(0x8842a28002108240a4014, p83, 0x10000000000000000000000, G88, p88,
          0x4df31631b409a08de6145b7942fb6de08a2bf3bfadb4ad8c36497bf31aba1a81,
          0x30b720eb731301026b736c3e784c372b2fbb56da8aa3656400fce74e1b6983b33ec881be3c998e373bb49aceddc04d88ad646b9541860a429f1bf022af319e9c69c757a880217b3164b063106b80f0eee18a46885674b68aed1f65cd2495b190aab8fe0c0b4d4a586783e9935a6c8c9d8ebf378970de925871efbdd7345e6f5,
          -0x5540a80e71342e4086e440878e1445d4f157640573f10a11fe70b631bd759ee3,
          -0xdb6a63c1a89fdef1e10d79f668ba10b63425bdf13adff7984f8abee0eb8f3883);
    var p97 := Point(0xb49738ad7edf7d1f1adad5d7e5999568e2892cf44e05842f11d003918d14ed,
                   0x5f2be4a6060b8fbb17865a9447fbe7432efaf71cb9da3a4254ccbcd783dc8168);
    Added(0x108842a28002108240a4014, p88, 0x2000000000000000000000000, G97, p97,
          0x1e70f7538260a0fd9e38a8e06343c42f8e64ab465e5d778dfdd9618c52c5fcc8,
          0x2ab5b5384b2353d891445fc096e4b2f4e1d5b3c0eb077d245940861dc7b247e229535a3f63cb00fd4defc53162fc2a5b00f348c56fbb5c2d15078863706ac61aeaf63ea26693487083bf4bd046b2b0527b3d57b13f50b68042f3183279c852b3a93b46b869a5d299ccd5763c5583f15bf1eee858853a149c3e5c93ef6e642b8,
          -0x8477ae574efe3053d7ddf3feb9a84ff60a224e998c53d677824a39b8c4cd7b86,
          -0x996b5879d50a1e3c4fb2ed9941b37899175677ea3d3d49502c9d63907c1d0d74);
    var p101 := Point(0x4a3fffd0fa1e230df14ac4d39700b16831d027e986a607f107e0ca1a31d8a186,
                   0x3239a13e4a480113d827b3a4d8dda9b214e67bb1e27825a96e6e7507c952811d);
    Added(0x20108842a28002108240a4014, p97, 0x20000000000000000000000000, G101, p101,
          0x4f26e1654603df3c7c4a976203db34bfbe7cf1c151e7fb295a443676be39b308,
          0x16fb946b3075366e65d87a347cd41aa8ed3f4e4145d4eac4ccec7aa59f3d3f6e6d5b75b640023667f13ed8a1c627c15d697c7dce88d5afe565859e94119af9cba57ec5ea2ccaf8d2e5820f8c1cd367d47c4244bbd7394ac18ee4430a3c000f42938f7af9ea5c7c41fff7cce453f7ce57ff9bac56023f132f48335560ab3d0,
          0x940d13c2ca65fb6298bf30600efdca4b422659bbbeea35f77378b8744838e11,
          -0x408d08c73a16f6e4c3ec3538b488e9be4365b3fd98522f5d48514d7c8f1b2a04);
  }

  const DOWN4: Point := Point(0x5c38a9284ed8c8331bb071573d1746a215470c0ee47b5feed3ef6229c93c7aa8,
                            0x40686d1bca98e8173feb37794117ebf772bf695f3c38ef064ec506e66ddf9e01)

  lemma DownSum4()
    requires Fermat()
    ensures IsMultiple(0x2108220108842a28002108240a4014, DOWN4)
  {
    hide Fermat, IsMultiple;
    DownSum3();
    Powers108();
    Powers114();
    Powers120();
    var p107 := Point(0x484222438d07c45b25839804cdc3e69b7f3ef97d5cae4b8eb1506a5e8a7fceb7,
                   0x22b3a3cee5eb626171452dd78ae16a92c6d1269f0ea5523eb458e56692b64732);
    Added(0x220108842a28002108240a4014, DOWN3, 0x800000000000000000000000000, G107, p107,
          0x6496c951a853ce8b7ea1957aa6a317f08ffa7d9e368558456ed4629cae7455e6,
          0x1047169a59c3c0a9ac456e5112625f960ef1c0e4fb6085a71e6ccb0118801a723ae470e888c83555adeb2dadeb234fb4fb79252cbe1536511a114703f6a0fb78f9ca6c030fb5512c40117bf1f8701b3fa12abfd393f07752db1019302b73cc8310ead2197b986763afbd2a98e0d15e7cddf2a4cbcdf4978962d66e6e35a0492,
          -0x1b5559cb12053524a45091040476da2e42d84ae6aec28cf3266f732882283559,
          -0x6c4eaaf5a6facb9ddeb0557a9d41b6d30972107c5359ff05f20c4460ba276ce7);
    var p112 := Point(0x6777ca847ad430d1a6498df4860d49e83ab7d7cefeb7bf60220442fdd7fbb67d,
                   0x6dc8d13c745c920f2ab06ae7c55e60bf81c270f220f51faa58dbbd81055d3725);
    Added(0x8220108842a28002108240a4014, p107, 0x10000000000000000000000000000, G112, p112,
          0x4e75d72a28447b4d189652b1eabaad6ee1a8c67b6a701792ba7bc487ad08c48e,
          0xb3b06edfd54267c9b301e7a5e0f33fc3d0fd04d3c717075ceef277c0c0805980e318b0604d3496db1364afa94074343e0e6d3c48ddb778bd360d1e553cb4c57a10c0277e98271c27028cb99c1e2015b742c8d21fe9f88aedc9814aea867edf75b79fc3413726db5490a91eb9c33a7000676ef9c8209b8a661c2e3a70fc10ae,
          -0x105a36e5d77cdf2ca6e3cb85b9479479aab91ef11886af29f39dc54779171669,
          -0x86cde118ff96baabf800966acdc83946bb4ddecc384bec9f9e53b898ff03b9f2);
    var p117 := Point(0x5c38a9284ed8c8331bb071573d1746a215470c0ee47b5feed3ef6229c93c7aa8,
                   0x40686d1bca98e8173feb37794117ebf772bf695f3c38ef064ec506e66ddf9e01);
    Added(0x108220108842a28002108240a4014, p112, 0x200000000000000000000000000000, G117, p117,
          0x45cf162d2fb5424a501d357509fdb6bf9164220222143feb7cbe0ec425c4dcce,
          0x10c86b2b74d2a05d9779094395c41ded199fe680cb6909b36895701415b353adff50538739625ea6e3eb53cf59895a5763e446d8bdd0f4b6d1e0de3c23348b99ced88afc3ee341d4a28bc67a6c6128ab528f0d6cdbd3d5a7f9e69984780cba84d2c2bf5ebc0753c756f2fe9c7d6f3935c1a1c1232e896b04c8adf0d32371f0c,
          -0x2fd3f843f63be4546285eb6a90e0de3f98e565450d5be5a0f759a3f14e6ec07d,
          -0x88a0edccb21a9fb6e19bed7b0f08ae42326a511e091c8a37d19e2d5203a1fd5e);
  }

  /** m B == 0 */
  lemma BaseOrder()
    requires Fermat()
    ensures OnCurve(BASE) && Mult(M, BASE) == NEUTRAL
  {
    BaseOnCurve();
    UpSum4();
    DownSum4();
    hide Fermat, IsMultiple, Mult, OnCurve;
    Cancel(0x1000000000000000000000000000000015000200a40021008012842281001401, 0x2108220108842a28002108240a4014, UP4);
  }

  /** All that signing and checking are proved under is Fermat's theorem. */
  lemma BaseDomain()
    requires Fermat()
    ensures Domain(BASE)
  {
    BaseOrder();
  }
}
