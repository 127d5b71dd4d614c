/**
 The packed table for fixed-base multiplication (ge25519_niels_base_multiples), row by row. A row is
 written by the three little-endian numbers in it.
 */
module BaseTable {
  import opened Arith
  import opened Bytes
  import opened PrimeField
  import opened Edwards
  import opened ScalarMult
  import opened BaseMult
  import opened BasePoint
  import opened BasePowers
  import opened TableSteps

  const M0_3: Point := Point(0x67ae9c4a22928f491ff4ae743edac83a6343981981624886ac62485fd3f8e25c,
                          0x1267b1d177ee69aba126a18e60269ef79f16ec176724030402c3684878f5b4d4)
  const M0_5: Point := Point(0x49fda73eade3587bfcef7cf7d12da5de5c2819f93e1be1a591409cc0322ef233,
                          0x5f4825b298feae6fe02c6e148992466631282eca89430b5d10d21f83d676c8ed)
  const M0_6: Point := Point(0x4c9797ba7a45601c62aeacc0dd0a29bea1e599826c7b4427783a741a7dcbf23d,
                          0x54de3fc2886d8a11db709a7fd4f7d77f9417c06944d6b60c1d27ad0f9497ef4)
  const M0_7: Point := Point(0x14568685fcf4bd4ee9e3ee194b1d810783e809f3bbf1ce955855981af50e4107,
                          0x31c563e32b47d52f87ce6468dd36ad41f0882b46f7abf23d12c4c4b59f4062b8)

  lemma Points0()
    requires Fermat()
    ensures IsMultiple(0x1, G0)
    ensures IsMultiple(0x2, G1)
    ensures IsMultiple(0x3, M0_3)
    ensures IsMultiple(0x4, G2)
    ensures IsMultiple(0x5, M0_5)
    ensures IsMultiple(0x6, M0_6)
    ensures IsMultiple(0x7, M0_7)
    ensures IsMultiple(0x8, G3)
  {
    hide Fermat, IsMultiple;
    Powers0();
    Powers6();
    Added(0x1, G0, 0x2, G1, M0_3,
          0x1caa6ffe57fd754e2c30aca032332e9da0891927e376befe3aec73292028d1b5,
          0x3edd5801b1e29dfd8390b3ec00b6649cbbbfdb551e7c84291d770406e94fa4deebe1eaef2342874604063f726ba9730ab710e57b964ec87e43b1adb138f4d07a1f949440390ffdb1b6a798c5720094bb17030957156a123c934aeff886b8ad24fdee95c9e16f13d05d632dab4822b869313cbd075fe7294587cc2d63ec53f7,
          -0x1d7d2376311dae8ffa434e503891f07aac8a62653902a9cca367c70d2f9babda,
          -0x2de4e9dd8a70fed14d3f21b04b50f933269a27270dfc85bbcb2a515b1f1f3364);
    Added(0x1, G0, 0x4, G2, M0_5,
          0x358c5b034b8ea7f89a0eb6309294c22c018ac4a5fa501d7773370baf936780f0,
          0x4d72c7896067d26111dfd8271c39e78c7148dc48256c599eea7d8de6075f7d54807964e8311061133608ebc3b8ea2aa0a45116da34deba97cd83d0b044cf9fdb420e5ef141e5191c7933e4c07abec6f147d11594c428e0af9edfe6ec41173a72e5394503fdff645dda9e9ed0f75ea92d78078fbeafffdbd091f9b73e2a2250,
          -0xd95a82cd2f160a16bf643c046d0663dd4ae3bbbb5e0b114860bf6079ed230ef,
          -0x69baad1dfcd3078f83f6b8ce11418f03f75967988bba1c97e33a160293372697);
    Added(0x2, G1, 0x4, G2, M0_6,
          0x579bb81ef50a6a9e6ce43c44a29257f6a422dc31a217f78cc5515fce3094a47f,
          0x2a8b6ebd28f7404e5a4d1a865209f46a6a0de6eaa45692683e9880e3779e95b8b308adb898a9c47ae1cb01a3fb1adeefa559bb1ff3ea7917babd1ef1d0df79eb9571adfb0ab74f1b2f54c3fa4a9d0704ccb9d1ac297a3c4d09fb024afb8215af85e16f808f8e4fc1e04712c006fed5e3fb1d7ae648c1b0652a6ee579fb8e85,
          0xd174148b9fa2bd63315f1268332ca8cc7c33c2bd4d530491818f668ce4ce436,
          -0x24b05698baa0467623f278790b2e372388175c1c120ac0724fc660e1ec2d87bb);
    Added(0x3, M0_3, 0x4, G2, M0_7,
          0x2cc4e6d8c8934de00fbd4497ec04c970a4a561aa248cc11a3873d30eb5b613a2,
          0x2b32b09303e782fbe351a33d71e098082b0b1d644a06badbe223b12f469914fec7eaf4ebe3692f0f5c922c24b22b0825ea2224f69b734be067cc406b87c79170f911752ab49a17617fa7061ad211caa87af9e3e2aecf08224c9f51eb57b292530e55b303a0b9345becfc7713a4556d3725ed0c3a80137c3b86a88662f73b16,
          -0x37b1d53895fd86187256b6dc8d2ed921f507f004738fd01825ddd725ac36ac0b,
          -0x35d991eeb17985f2fd2ce485b8b8b0a67d91be5cb9160102ffa0125a9d135bf4);
  }

  const ROWS0: seq<seq<byte>> := [
    Row(0x44fd2f9298f81267a5c18434688f8a09fd399f05d140beb39d103905d740913e,
        0x7cf9d3a33d4ba65270b4898643d42c2cf932dc6fb8c0e192fbc93c6f58c3b85,
        0x4f0ebe1faf16eccacdd49d1cc957c6fa41e13f00eea2a5eadbbd15674b6fbb59),
    Row(0x6bb595a669c92555e09e236bb16e37aa8f2b810c4e60acf68a99a56042b4d5a8,
        0x590c063fa87d2e2e5aa69a65e1d607029f469d967a0ff5b59224e7fc933c71d7,
        0x49314f0a165ed1b83bcabe10e6076826baf3599383ee48056e347eaadad36802),
    Row(0x2ab91587555bda628131f31a214bd6bd3bd353fde5c1ba7d56611fe8a4fcd265,
        0x7a164e1b9a80f8f4c11b50029f016732025a8430e8864b8aaf25b0a84cee9730,
        0x549a04b963bb2a21d7de6f075b722a4eb84e6b17f62df8959bf211f4f1674834),
    Row(0x27933f4c7445a49ac3e8e3cd06a05073327e89715660faa995fe050a056818bf,
        0x680e910321e58727ca348d3dfb0a92656765c6f47dfd2538287351b98efc099f,
        0x44f079b1b0e64c18e42974d58cf852c0e32bc63d6dba0f94bf1e45ece51426b0),
    Row(0x154a7e73eb1b55f3e33cf11cb864a087d50014d14b2729b77f9182c3a447d6ba,
        0x2945ccf146e206ebdd1beb0c5abfec448d5048c3c75eed02a212bc4408a5bb33,
        0x68b8ac5938b27a9862c1d4a10e6d8ff35f729d0a00124d7ec832a179e7d003b3),
    Row(0x38b64c41ae417884bb085ce7204553b9575be28427d22739499806b67b7d8ca4,
        0x51e57bb6a2cc38bd8065b668da59a7369b27158900c8af883a0ceeeb77157131,
        0x7865dfa21354c09f050ab5329fcfb988175f2428f8fb91378f9dad91689de3a4),
    Row(0x1d6edd5d2e5317e09dea764f92192c3a6ca021533bba23a7ba6f2c9aaa3221b1,
        0x461bea69283c927e71b2528228542e497470353ab39dc0d26b1a5cd0944ea3bf,
        0x233cef623a2cbc3737d05b8b13ab7568a528c6543d3549c8217a8aacab0fda36),
    Row(0x3a9024a1320e01c32c2741ac6e3c23fb963d7680e1b558f9e2a75dedf39234d9,
        0x915e76061bce52fb1339c665ed9c3236cb30377e288702c59b7596604dd3e8f,
        0x589eb3d9dbefd5c22c1185367167b3268be19cda689857eadf7de835a834a37e)
  ]

  lemma Rows0_1()
    requires Fermat()
    ensures |ROWS0| == 8
    ensures IsRow(ROWS0[0], Mult(0x1, BASE), Factor(0))
    ensures IsRow(ROWS0[1], Mult(0x2, BASE), Factor(0))
    ensures IsRow(ROWS0[2], Mult(0x3, BASE), Factor(0))
    ensures IsRow(ROWS0[3], Mult(0x4, BASE), Factor(0))
  {
    hide Fermat, IsMultiple, IsRow, Row, Mult;
    Points0();
    RowIs(0x1, G0, Factor(0),
          0x44fd2f9298f81267a5c18434688f8a09fd399f05d140beb39d103905d740913e,
          0x7cf9d3a33d4ba65270b4898643d42c2cf932dc6fb8c0e192fbc93c6f58c3b85,
          0x4f0ebe1faf16eccacdd49d1cc957c6fa41e13f00eea2a5eadbbd15674b6fbb59,
          0x0, -0x1,
          -0x35752486157d5331343b03832fbe2d60a847a56755090c5142237bcdb1d621c3);
    RowIs(0x2, G1, Factor(0),
          0x6bb595a669c92555e09e236bb16e37aa8f2b810c4e60acf68a99a56042b4d5a8,
          0x590c063fa87d2e2e5aa69a65e1d607029f469d967a0ff5b59224e7fc933c71d7,
          0x49314f0a165ed1b83bcabe10e6076826baf3599383ee48056e347eaadad36802,
          0x1, 0x0,
          -0x1d5da6a931d427f2936d188ad05825f0ff99de81b620ff38b34924ed6476f2a2);
    RowIs(0x3, M0_3, Factor(0),
          0x2ab91587555bda628131f31a214bd6bd3bd353fde5c1ba7d56611fe8a4fcd265,
          0x7a164e1b9a80f8f4c11b50029f016732025a8430e8864b8aaf25b0a84cee9730,
          0x549a04b963bb2a21d7de6f075b722a4eb84e6b17f62df8959bf211f4f1674834,
          0x1, 0x0,
          -0x1dd1190aa1c72d00f58c86d557a172875a015b573eb84d8cb9bef6aca676435c);
    RowIs(0x4, G2, Factor(0),
          0x27933f4c7445a49ac3e8e3cd06a05073327e89715660faa995fe050a056818bf,
          0x680e910321e58727ca348d3dfb0a92656765c6f47dfd2538287351b98efc099f,
          0x44f079b1b0e64c18e42974d58cf852c0e32bc63d6dba0f94bf1e45ece51426b0,
          0x0, 0x0,
          -0x242da4abad2547293902fdd5fbf7eba3fa824a71845df7e0843f43e15e890e30);
  }

  lemma Rows0_5()
    requires Fermat()
    ensures |ROWS0| == 8
    ensures IsRow(ROWS0[4], Mult(0x5, BASE), Factor(0))
    ensures IsRow(ROWS0[5], Mult(0x6, BASE), Factor(0))
    ensures IsRow(ROWS0[6], Mult(0x7, BASE), Factor(0))
    ensures IsRow(ROWS0[7], Mult(0x8, BASE), Factor(0))
  {
    hide Fermat, IsMultiple, IsRow, Row, Mult;
    Points0();
    RowIs(0x5, M0_5, Factor(0),
          0x154a7e73eb1b55f3e33cf11cb864a087d50014d14b2729b77f9182c3a447d6ba,
          0x2945ccf146e206ebdd1beb0c5abfec448d5048c3c75eed02a212bc4408a5bb33,
          0x68b8ac5938b27a9862c1d4a10e6d8ff35f729d0a00124d7ec832a179e7d003b3,
          0x0, -0x1,
          -0x6e27ed324fab578639ef82e5c4c07036521e1f51f5f3cecc07e78840b0643447);
    RowIs(0x6, M0_6, Factor(0),
          0x38b64c41ae417884bb085ce7204553b9575be28427d22739499806b67b7d8ca4,
          0x51e57bb6a2cc38bd8065b668da59a7369b27158900c8af883a0ceeeb77157131,
          0x7865dfa21354c09f050ab5329fcfb988175f2428f8fb91378f9dad91689de3a4,
          0x1, 0x0,
          -0x6590f1491777e6407c5a64c6e7df7d420f7a921ed07e577bb097980f2faa2b4);
    RowIs(0x7, M0_7, Factor(0),
          0x1d6edd5d2e5317e09dea764f92192c3a6ca021533bba23a7ba6f2c9aaa3221b1,
          0x461bea69283c927e71b2528228542e497470353ab39dc0d26b1a5cd0944ea3bf,
          0x233cef623a2cbc3737d05b8b13ab7568a528c6543d3549c8217a8aacab0fda36,
          0x0, 0x0,
          -0xfd0f912b2d75eed3fe1dab9e486455abe0ccc453a6f74a27b8f7debcddb6c02);
    RowIs(0x8, G3, Factor(0),
          0x3a9024a1320e01c32c2741ac6e3c23fb963d7680e1b558f9e2a75dedf39234d9,
          0x915e76061bce52fb1339c665ed9c3236cb30377e288702c59b7596604dd3e8f,
          0x589eb3d9dbefd5c22c1185367167b3268be19cda689857eadf7de835a834a37e,
          0x1, -0x1,
          -0x3692f663dc54e897cec22ce03ca2ebd0a0cd25ac880bc820aab3b275213df08a);
  }

  lemma Power0()
    ensures Pow(256, 0) == 0x1
  {
  }

  const TABLE0: seq<seq<byte>> := ROWS0

  lemma Table0()
    requires Fermat()
    ensures AreRows(TABLE0, 1)
  {
    hide Fermat, IsRow, Row, Mult, Pow, Factor, IsBlock, AreRows, ROWS0;
    Rows0_1();
    Rows0_5();
    Power0();
    Together(ROWS0, 0, 0x1);
    FirstRows(ROWS0);
  }

  const M1_3: Point := Point(0x70b225147463be28a5aa7b1879cd8dbe57eadd2aa53d51b94566cef314cc93bb,
                          0x244980ded32ff401c2606727f94d609a147934004dd9160a5b9e7392b18d9c02)
  const M1_5: Point := Point(0x661b75757abbc179ad6a11dd399040591e057ee83fe6428719c2fde6e9a95bd2,
                          0x5da1ae1b5d4bb12f0ce022f4f807c07d10c9557d6db12ae497d97e42a7b09be)
  const M1_6: Point := Point(0x603ba4adc34a9feb3b4b4de22065bd3e2cafd6aac31420342fea3c8ab6490615,
                          0x1fdbaf2c3482ccd90facd46ae046c50cbc48be06d2f37a9a812a2a95c0e658bc)
  const M1_7: Point := Point(0x3d718e644bf2d3a45d1e15af3af9e330ebd6a85bd12c1693369d40310b391d99,
                          0x320d055dbba3f4142f2288113a22a8925f902ac77f1f7280a88e3bf5a23600f9)

  lemma Points1()
    requires Fermat()
    ensures IsMultiple(0x100, G8)
    ensures IsMultiple(0x200, G9)
    ensures IsMultiple(0x300, M1_3)
    ensures IsMultiple(0x400, G10)
    ensures IsMultiple(0x500, M1_5)
    ensures IsMultiple(0x600, M1_6)
    ensures IsMultiple(0x700, M1_7)
    ensures IsMultiple(0x800, G11)
  {
    hide Fermat, IsMultiple;
    Powers12();
    Added(0x100, G8, 0x200, G9, M1_3,
          0x1f8f8a0ab64c074a1c7924047343a9a72008e627afc94b6efa48fb6747ed92ec,
          0x38627ac87f3ac60ceef67def022509240da06cb22c125f6db3b842f340595ca96ef5c1f555213cd5951631bf89d8e111314be12cefa1cd1bb70906d4f5633b61c9b09dcfa59fafa0017b2f4a15836ff851155ff3dad083b844fc4ed7979ce8de3dbefece01da55051eea0b46b1b9c7f7fec09b3eefb776a1a0842b97535544,
          -0x2873eba7c88ecc8c040c98f2b4d2db3808470d25b9450be85064e6ad7cf27b13,
          -0x35bfe6a767f1a4a537ebfa714754b17a22ca3f5bee33f25a2fc9eff8b2dffd72);
    Added(0x100, G8, 0x400, G10, M1_5,
          0x2ff52ea81a95a7a2dcdf530151b1599328a3f587a5b5c303e7e9c3497ad9f850,
          0x28d38f73f40f1c1ccd2a70b68258f965460e03e508b7b4baa06019871b81403b7ff3855f667a924d0ef09ab98c3bd3ad8326b43ff6dc6325b99400f2292eff2569950c22e8813597bdf0b674c97dff9533e3c748957ce542d13da0191f5f5a4c13f0ba3cc7ad0bcdb2f2d4a5cf3ace97bae551110963ddef50819a02f43920,
          0x58f146715e281aa894e5edea674a30103ce6f3451dffeea6bb064f97bba490c,
          -0x5474e0cca6cec1392b13d73f324b699095f31e13ee3bf32a6e38b5413b8d8d51);
    Added(0x200, G9, 0x400, G10, M1_6,
          0x15d0e3f0c740bb7d7f93da3b5b3fabe16829843b36662301adbd7743bc961ffe,
          0x70275b9136e4db9bef7fdcbd5cfa99f8c88a61830890c4dd70935179700dd09168f03d51737d09a4af8d6c7af2230d93c2ba2e1f764bd0feeb818587cd70b844931f10557d7a83d59abb3992781f4755d2327a8614aefc0bcd5bdd834c91d1d10779a57a64aa206238c3d821d34b6adeaa406509fcf4459b04323463c6ff4a,
          -0x406b177c5b2959f19a5f097655d48d345bc23949e2bb16d5c898966de806fab3,
          -0x3e84d22d3fdd70949c414d28df2c42f2365a27e79d1981b557337ae5e662fa34);
    Added(0x300, M1_3, 0x400, G10, M1_7,
          0x2e6db333d6cfe683f544e6a3160375ff20b7f7a1714275652183f7c2a820c5c1,
          0x733a271e9b13873c95619f6dfde38fff993f5ae6305f930d2f3727a2c302f4aa14af018a905fee5bcb9863cce0f73624b246fbdc8d3d72c1a49f841c908a69eb7599c37d5726b7fc14975457930f720cfd479f9b874e134d3360549359c7fbe2feb00868d181ce1eea7a01404a448f1700712eb0dd1d41f0d9372b96dfae2b,
          -0x1fc3f3fea5c2d15cfee1135e6a08c47d7742fdff95766f6152bfeb84746f5481,
          -0x780d36a11a2e341e39efb3f561ef84ca7e91b1b841bbe8dacdc143ccf9bc65ba);
  }

  const ROWS1: seq<seq<byte>> := [
    Row(0x30d76d6f03d315b9850c1fe95b42d1c4a865c49f0bc6823aed5b635449aa515e,
        0x6dd37d49a00eef3952dfb76ba8637a5851d0b696768931152eccdd0e632f9c1d,
        0x10c697112e864bb0b4739ea4694d3f26fb53d680928d7f696c4444172106e4c7),
    Row(0x25e61cabed66fe090e00dfc846304590265d4fad19ad7ea26493c4277dbe5fde,
        0x3bf9baf550806ef7464d3a63b11eddc6a3d4ae37a2042470ca62aa08358c805,
        0x566d78634586e22ca0b63dedcc1268f56f5873ecb459747e3f13e128cc586604),
    Row(0x33975bca5ecc35d91cb5ec0f7f7fd2dbbc8e56d5a89bc4511637a49f9cc10834,
        0x14fba5f34793b22a680ae240731aee586c64112af31667c3a1054285c65a2fd0,
        0x14829cea83fc526c2fc3f2b67b61131e593e5e84c9c800573cd746166985f7d4),
    Row(0x2fd9c71e5f7581739e0c5d613c85e88b6c744e30aa4eb5a7ff437b8497dd95c2,
        0x5fc3bc4535d7b7ebf6556cece1d4f80e656ddb940a477e321e70b2f4e71ecb8,
        0x373767475c651f0433a4bc83a9be81953495638ced3b30cf24b8b3ae52afdedd),
    Row(0x1fbea56c3b18f9994363f05215f03baeb307166f96f4d0272fba99fd40d1add9,
        0x6bf5905730907c8c9e38140c8910bc60ef12144016c15535634095cb14246590,
        0x2521cf67a635a566f52d7b89aa29a5006409ff7bac3a77e0fa778f1e1415b8a),
    Row(0x3fa00a7e71382cedd4618688bfe107ce8f98e75c0fdf5a66513fee0b0a9d5294,
        0x1753d9f7cd6cc44af8224d00ac824ae8f894b196079aceb1146720772f5ee4,
        0x12b5fe2fa048edb6aad7d1f9a091f2851dde87dab49738583c69232d963ddb34),
    Row(0x749b76f96fb1206fd2047261ff28c56173b9826badf35bed71f0fbc496fce34d,
        0x6f7e93c20796c7b88c409dc0751c8bc34b66d323504b8913df2b7c26ad6f1e92,
        0xfcec10f01e0215161a808b5eeff6b66c12351f1bee49c991f5af604aea6ae05),
    Row(0x4901aa7183c511f302441c5a887fd0d221fcaea231ad777e644d58a649fe1e44,
        0x413779166feab90a6cc8067e820c214d2b020e7493d8de0a3df2d29dc4244e45,
        0x41bb887b726d1213f760b0f91e06d939ce0f7a7c246299b408b1b7548c1af8f0)
  ]

  lemma Rows1_1()
    requires Fermat()
    ensures |ROWS1| == 8
    ensures IsRow(ROWS1[0], Mult(0x100, BASE), Factor(1))
    ensures IsRow(ROWS1[1], Mult(0x200, BASE), Factor(1))
    ensures IsRow(ROWS1[2], Mult(0x300, BASE), Factor(1))
    ensures IsRow(ROWS1[3], Mult(0x400, BASE), Factor(1))
  {
    hide Fermat, IsMultiple, IsRow, Row, Mult;
    Points1();
    RowIs(0x100, G8, Factor(1),
          0x30d76d6f03d315b9850c1fe95b42d1c4a865c49f0bc6823aed5b635449aa515e,
          0x6dd37d49a00eef3952dfb76ba8637a5851d0b696768931152eccdd0e632f9c1d,
          0x10c697112e864bb0b4739ea4694d3f26fb53d680928d7f696c4444172106e4c7,
          0x1, 0x0,
          -0x740be03d277b9c4e654e4b6df0887f0fe577e6017d07e7de94fab22aeb92ddda18b7ced1b25c07f042fb6da544a784aa97e63b4880d9e7687dca0747ca7f589);
    RowIs(0x200, G9, Factor(1),
          0x25e61cabed66fe090e00dfc846304590265d4fad19ad7ea26493c4277dbe5fde,
          0x3bf9baf550806ef7464d3a63b11eddc6a3d4ae37a2042470ca62aa08358c805,
          0x566d78634586e22ca0b63dedcc1268f56f5873ecb459747e3f13e128cc586604,
          0x0, -0x1,
          -0x13eca2774099a802b1247ab8ecd64eca565f9c922836c8e29a0053b904aa718c7dfac563022c6d1d07098616c429a2a324e22149521983dbbc4d67f7bf2c964c);
    RowIs(0x300, M1_3, Factor(1),
          0x33975bca5ecc35d91cb5ec0f7f7fd2dbbc8e56d5a89bc4511637a49f9cc10834,
          0x14fba5f34793b22a680ae240731aee586c64112af31667c3a1054285c65a2fd0,
          0x14829cea83fc526c2fc3f2b67b61131e593e5e84c9c800573cd746166985f7d4,
          0x1, -0x1,
          -0x14786915756d8b71aadb74961047c14b59b2798161e2787e4fab9249a768e36f44f789f2184331719a6aff96c764d92510e6fd513d5d407e59f0e231852db430);
    RowIs(0x400, G10, Factor(1),
          0x2fd9c71e5f7581739e0c5d613c85e88b6c744e30aa4eb5a7ff437b8497dd95c2,
          0x5fc3bc4535d7b7ebf6556cece1d4f80e656ddb940a477e321e70b2f4e71ecb8,
          0x373767475c651f0433a4bc83a9be81953495638ced3b30cf24b8b3ae52afdedd,
          0x1, -0x1,
          -0xe6d3639cd946c5bc2d5629888178f9bd9884312a2ef1cf3c2b34cd6ede48a1f42723b1fb9b8be9ed60cf488e40aff2a56c6b5c9258a3b21b439881b013888bf);
  }

  lemma Rows1_5()
    requires Fermat()
    ensures |ROWS1| == 8
    ensures IsRow(ROWS1[4], Mult(0x500, BASE), Factor(1))
    ensures IsRow(ROWS1[5], Mult(0x600, BASE), Factor(1))
    ensures IsRow(ROWS1[6], Mult(0x700, BASE), Factor(1))
    ensures IsRow(ROWS1[7], Mult(0x800, BASE), Factor(1))
  {
    hide Fermat, IsMultiple, IsRow, Row, Mult;
    Points1();
    RowIs(0x500, M1_5, Factor(1),
          0x1fbea56c3b18f9994363f05215f03baeb307166f96f4d0272fba99fd40d1add9,
          0x6bf5905730907c8c9e38140c8910bc60ef12144016c15535634095cb14246590,
          0x2521cf67a635a566f52d7b89aa29a5006409ff7bac3a77e0fa778f1e1415b8a,
          0x1, 0x0,
          -0x2fdb57638837b01b48d7037a4ca4e2194a02a865ae66090bf3f1cafe1e1a917381aa67d9fa17a287e78bf28e113b3fd884edbb8a96a552ead46f6029a260156);
    RowIs(0x600, M1_6, Factor(1),
          0x3fa00a7e71382cedd4618688bfe107ce8f98e75c0fdf5a66513fee0b0a9d5294,
          0x1753d9f7cd6cc44af8224d00ac824ae8f894b196079aceb1146720772f5ee4,
          0x12b5fe2fa048edb6aad7d1f9a091f2851dde87dab49738583c69232d963ddb34,
          0x1, -0x1,
          -0xf58b3caa733dca356a586b0eac9d68c7246c82f819fd36416b4a35bf92520e98fbef168a018feb832183134ba93c8b3226af353db13eaea85388e9a6ad89724);
    RowIs(0x700, M1_7, Factor(1),
          0x749b76f96fb1206fd2047261ff28c56173b9826badf35bed71f0fbc496fce34d,
          0x6f7e93c20796c7b88c409dc0751c8bc34b66d323504b8913df2b7c26ad6f1e92,
          0xfcec10f01e0215161a808b5eeff6b66c12351f1bee49c991f5af604aea6ae05,
          0x1, 0x0,
          -0xf64e05dc5c021d14baf2ffed48621c956fdf1e72b50f06c0d3f745dfdbc46176503c59514d98f3f1bc58c6d09af449a1b29e152887d474d311df399c199fc85);
    RowIs(0x800, G11, Factor(1),
          0x4901aa7183c511f302441c5a887fd0d221fcaea231ad777e644d58a649fe1e44,
          0x413779166feab90a6cc8067e820c214d2b020e7493d8de0a3df2d29dc4244e45,
          0x41bb887b726d1213f760b0f91e06d939ce0f7a7c246299b408b1b7548c1af8f0,
          0x1, 0x0,
          -0x189b4ea257010f9fc16fa871e4f860ed575c8432b062bc6d93809391e5de76cbf4c5ac46d6ede6aeabe7e1e13efeaf50fee6d27ca34bd6332ec363c42ef3e0c);
  }

  lemma Power1()
    ensures Pow(256, 1) == 0x100
  {
    Power0();
    assert Pow(256, 1) == 256 * Pow(256, 0);
  }

  const TABLE1: seq<seq<byte>> := TABLE0 + ROWS1

  lemma Table1()
    requires Fermat()
    ensures AreRows(TABLE1, 2)
  {
    hide Fermat, IsRow, Row, Mult, Pow, Factor, IsBlock, AreRows, ROWS1, TABLE0;
    Rows1_1();
    Rows1_5();
    Power1();
    Together(ROWS1, 1, 0x100);
    Table0();
    MoreRows(TABLE0, 1, ROWS1);
  }

  const M2_3: Point := Point(0x73ce78c748a872f2a197a7a16fffc81c8814e07e49379eeb4dd94e4390d7c290,
                          0x33c172e606062ec6fe3963cbf960e070ceae653d3fbba994947de13a0a0cb2ca)
  const M2_5: Point := Point(0x455d905f52d04b5ff74beebb11d774b2c5764a4dfacc3bca3445532a8f320ca8,
                          0x33dbf271d5fc72b69bc227bb0c7913b1eef9baca6c02854657460470fe6a8b5)
  const M2_6: Point := Point(0x584e7f2a5e3671737f705f1a906dab675706549e0491e9aaf264643dca20439a,
                          0x2e5327982a30dfe81232f3dbc0e9b8843347320ec0f65d9622f8fe4e547c1381)
  const M2_7: Point := Point(0x7783d619f52f8bd4e0c839d8c7e2085d11ce2fed6abda9a6666e57c725de8fce,
                          0x7b87c33701d609fe8342123d99e9ebfd4453ac1a100d8238b005cfc4600c5c4d)

  lemma Points2()
    requires Fermat()
    ensures IsMultiple(0x10000, G16)
    ensures IsMultiple(0x20000, G17)
    ensures IsMultiple(0x30000, M2_3)
    ensures IsMultiple(0x40000, G18)
    ensures IsMultiple(0x50000, M2_5)
    ensures IsMultiple(0x60000, M2_6)
    ensures IsMultiple(0x70000, M2_7)
    ensures IsMultiple(0x80000, G19)
  {
    hide Fermat, IsMultiple;
    Powers18();
    Powers24();
    Added(0x10000, G16, 0x20000, G17, M2_3,
          0x5c77bfba3b49758973072ae386cb7c984d27d5818105fdd1b434b2e1553f691c,
          0x2830731750d1ddbb593cf8af3371b18af033f873c971847dc10a2c8a9e8fa163d84ab8d5ccf0e926a700c157d704dcae0319b0916148c742cd1af080677c7b2abc5612a3976d7c226ce2656ab61d2c5cd9e40b6087bd72a09980015a04b14540441635370ad581c1f1e042a61cc872d9fffb7568089fdcabbf6d1e767b46d2,
          0x24c10ab94704e13c5a032bf3782ebc76033ed6fcfa306a646757e0c1ea5518e5,
          -0x7e1163b208a3082f7b3890fcc154ba917d57160733185a39085c9d29f439c6c3);
    Added(0x10000, G16, 0x40000, G18, M2_5,
          0x55227dfec5a74bcfbf6562482b26cc3dc285d220af471c76e1e627ccf70cb544,
          0x641e3788b6200611124d23e89c010a422ab0345fc5a1078a2e6b6c5f051b13bab09efb9a97461d4f251d07a813ad6270c24e6b43d8bc11acee557d7e47d413fe17a8532fe403e6365d1bf5a08ccba65e78ef3b50b9b9fb6d69880ed77a3c3b5936c090c3a26427b922a169a1e52f7f5389d9c77bc8e2fe315a830d60cf3b54,
          -0x7d03d95de1d74a501afdfc7dd95105abb3cd865655cd6b1375e54ef27759bb9,
          -0x583f0f66804f2eb33b91d3b73528b94097ded7cad8e583ccd98be69e4b3e067d);
    Added(0x20000, G17, 0x40000, G18, M2_6,
          0x326a9ee38f7db8d0d898933aaae48ab0d55a92591dba9efeb5e95e5712062a,
          0x177082e72af89d4f5a4ec53902296136387d6e1a41f9a5d53fe71261a4782a692749153b29e69e52193f94b71eec816465d8a1f66c096b16645e9d6aba28deaa487acec898306621c325bdfc413860ede9322e808a064d8e524a118f77edd3d5aae9ab9a473c52ca182b67aaa89ea7b9ead35789ac3ed9a5ec61b58de6cdc2,
          -0x1bcf7d0f7c002a4e01bd6e8990ff395c91060798204d52d09e449ae2de5ac1e1,
          -0x62c5dc656e171499554ebc85e3d0537d40e9671dc14cad7be9a3d9e803176c0e);
    Added(0x30000, M2_3, 0x40000, G18, M2_7,
          0xb211a093bf1126fc37cb29c988df19cb8ad2de21781d35ecb0b2c68e3f1b209,
          0x8f34f08c558c14503fd641a52a6d0df0b138560f70b418f4515455ecf726a8d397806b4cf62b469c24775b6c9bd22f293cb68182c9b095d4691810dfd7359b9eeb2d233933888b9a51219e56c7a8d0ba3cba0e95f9ab7186a7ccedd97b104f528f9f0b8373ca3ec969c7590b07cbc1ec4d763a8e18aacc8320d3c63215ec73,
          -0x356b2b62494f95ea73974196f1a12792857ccd39a52409296f9b900b8e8cf93c,
          -0x745265affc796df8b9b6f3df7f89f735844eedd898415dc5a9722b4c636d0dda);
  }

  const ROWS2: seq<seq<byte>> := [
    Row(0x4eb728c12fcdbdf77c3a8a18a13b603e1d48dad415b52b2540e87d44744346be,
        0xa871e070c6a9e1ddae2c90c354afae764889d3d0a85b4c87e234c597c6691ae,
        0x3ee7300f2685d4640d61ade219d59e3c736bae3a5bdd42603301b5994bbc8989),
    Row(0x13815762979125c23c99975d92e187ca8016115c610b1eacf5d255e49e7dd6b7,
        0x7d47c6a2cfb89030a1065e1de3052b74e5c6fa59639c46d743fa7947841e7518,
        0x148cf58d34c9ec8071ec621026bb81579d3e749a91546f3c3fdad0148ef0d6e0),
    Row(0x3ff2fa1ebd5dbbd45ca1bc2a89611854469984bef6840aa946a492f67934f027,
        0x278febad4eaea1b99fd10b6d6960a88d56c345bb88f3487fe2572f7d9ae4756d,
        0x4104dd02fe9c677b39115291219d3c528c21949c20290c98b1aa681f8c933966),
    Row(0x2c863b00afaf53d594cb6101fa52b666a1fa0c3398a33ab572b2bf5e1124422a,
        0x165b5a48efca4816524c12a409e2af521a8b6c90ce44f3581214e06db096ab8,
        0x591b67d9bffec8b8695e290658aa2b8f12eff984cd2f7cc0f190a474a0846a76),
    Row(0x3de02ec7ca8f7bcb727033c09ef01c885979515eabf3ec8a312f0d1c80b49bfa,
        0x489b4f867030128b61081136c29f05ede465e5faa18c641e99b9b3719f18b55d,
        0x49f5fbba496cbebf3d7eabe7190baa24e16253b46116a861d232102d3aeb92ef),
    Row(0x5604a86dcbfa6e7492c294c1307c0d1cdc40dd70bc6473eb30949a108a5bcfd4,
        0x6a1a6c28867515b91a352f6515763eb8a4d86acc5884741155d628c1e9c572e,
        0x20989e89fe2742c69f031a6018acf6d172541140e0418b517288d1d47c1764b6),
    Row(0x403ed1d0ca67e29a279d864d207e3a032857c2ca54fd892499777fd3a2dcc7f,
        0x730b9950f70595d3640a4c1661cbf45a5621dc077acb2bdf1674278b85eaec2e,
        0x5bd7454308303dccf7cb46fa16c035cec5e6c8cf98246f8dc94b2d35874ec552),
    Row(0x133a78007380ad8366b8b66e4fc072367f6b54656335c1817f9ad19528b24cc2,
        0x5bb7db123067f82c9d1e3da8ada3d762c64c89a2bdcdddc985c4932115e7792a,
        0x740dca6d58f0e0d2182360779bd5477004ec21d6211952ee0961f467c6ca62be)
  ]

  lemma Rows2_1()
    requires Fermat()
    ensures |ROWS2| == 8
    ensures IsRow(ROWS2[0], Mult(0x10000, BASE), Factor(2))
    ensures IsRow(ROWS2[1], Mult(0x20000, BASE), Factor(2))
    ensures IsRow(ROWS2[2], Mult(0x30000, BASE), Factor(2))
    ensures IsRow(ROWS2[3], Mult(0x40000, BASE), Factor(2))
  {
    hide Fermat, IsMultiple, IsRow, Row, Mult;
    Points2();
    RowIs(0x10000, G16, Factor(2),
          0x4eb728c12fcdbdf77c3a8a18a13b603e1d48dad415b52b2540e87d44744346be,
          0xa871e070c6a9e1ddae2c90c354afae764889d3d0a85b4c87e234c597c6691ae,
          0x3ee7300f2685d4640d61ade219d59e3c736bae3a5bdd42603301b5994bbc8989,
          0x1, -0x1,
          -0x14f9a12d2f183b2edd2ef6769a360f92a2a6f440e45dfcc3d9b725a8e5416225c73651c31a3198990c2251b30cc42a812efa7fec043ceed7d5589ae47f9cdb97);
    RowIs(0x20000, G17, Factor(2),
          0x13815762979125c23c99975d92e187ca8016115c610b1eacf5d255e49e7dd6b7,
          0x7d47c6a2cfb89030a1065e1de3052b74e5c6fa59639c46d743fa7947841e7518,
          0x148cf58d34c9ec8071ec621026bb81579d3e749a91546f3c3fdad0148ef0d6e0,
          0x1, 0x0,
          -0x4e9215dd9e089be0bfa9685b0778de79c555e7b913e00ef55c7bc9dc35e30c66c4c0d9f28adae4dd6d34b8ed260cd823587b691216d3c3e677e5702248c3592);
    RowIs(0x30000, M2_3, Factor(2),
          0x3ff2fa1ebd5dbbd45ca1bc2a89611854469984bef6840aa946a492f67934f027,
          0x278febad4eaea1b99fd10b6d6960a88d56c345bb88f3487fe2572f7d9ae4756d,
          0x4104dd02fe9c677b39115291219d3c528c21949c20290c98b1aa681f8c933966,
          0x1, -0x1,
          -0x1e009bd22745c1d5950f41858566c4f4f9e2f6b88aed4b529fce4a2a599946214830023d2717d6e375932bb6acedd919d4ae94c85f5f234be304c97047336282);
    RowIs(0x40000, G18, Factor(2),
          0x2c863b00afaf53d594cb6101fa52b666a1fa0c3398a33ab572b2bf5e1124422a,
          0x165b5a48efca4816524c12a409e2af521a8b6c90ce44f3581214e06db096ab8,
          0x591b67d9bffec8b8695e290658aa2b8f12eff984cd2f7cc0f190a474a0846a76,
          0x1, -0x1,
          -0xc3bb7d2625bb79b4774ea22482d169dc2371e68db5e3effa6ac8ba11bbee674cd5b1d76a724332414cc2224e553f414a6dcbff3b68946f5526811d90ead9d0a);
  }

  lemma Rows2_5()
    requires Fermat()
    ensures |ROWS2| == 8
    ensures IsRow(ROWS2[4], Mult(0x50000, BASE), Factor(2))
    ensures IsRow(ROWS2[5], Mult(0x60000, BASE), Factor(2))
    ensures IsRow(ROWS2[6], Mult(0x70000, BASE), Factor(2))
    ensures IsRow(ROWS2[7], Mult(0x80000, BASE), Factor(2))
  {
    hide Fermat, IsMultiple, IsRow, Row, Mult;
    Points2();
    RowIs(0x50000, M2_5, Factor(2),
          0x3de02ec7ca8f7bcb727033c09ef01c885979515eabf3ec8a312f0d1c80b49bfa,
          0x489b4f867030128b61081136c29f05ede465e5faa18c641e99b9b3719f18b55d,
          0x49f5fbba496cbebf3d7eabe7190baa24e16253b46116a861d232102d3aeb92ef,
          0x1, 0x0,
          -0x1201b60be95911e8ccc72aeee728feb19cb9a8b0a65379d09d9861273d882831945c03fecdc0b07878f90d64f1dd3020ded69fdd6614b1fb9671bf710e4b4a5);
    RowIs(0x60000, M2_6, Factor(2),
          0x5604a86dcbfa6e7492c294c1307c0d1cdc40dd70bc6473eb30949a108a5bcfd4,
          0x6a1a6c28867515b91a352f6515763eb8a4d86acc5884741155d628c1e9c572e,
          0x20989e89fe2742c69f031a6018acf6d172541140e0418b517288d1d47c1764b6,
          0x1, -0x1,
          -0x147a2db66ad6461cb990b90a969167836b0bb1012752576698ff7a15af8ab44f55e02ed03d94ff897ae0e5c800a06d9419f8fae1b07c39192b18c9134a94183e);
    RowIs(0x70000, M2_7, Factor(2),
          0x403ed1d0ca67e29a279d864d207e3a032857c2ca54fd892499777fd3a2dcc7f,
          0x730b9950f70595d3640a4c1661cbf45a5621dc077acb2bdf1674278b85eaec2e,
          0x5bd7454308303dccf7cb46fa16c035cec5e6c8cf98246f8dc94b2d35874ec552,
          0x0, -0x1,
          -0x49e71beaae759f8fae678596dc3ea0b22d31ff74709d3a549198460c8431f4c8a2457c3303997c303d9756d270aca74ac63d302750e70f7909dcd2d3167a617a);
    RowIs(0x80000, G19, Factor(2),
          0x133a78007380ad8366b8b66e4fc072367f6b54656335c1817f9ad19528b24cc2,
          0x5bb7db123067f82c9d1e3da8ada3d762c64c89a2bdcdddc985c4932115e7792a,
          0x740dca6d58f0e0d2182360779bd5477004ec21d6211952ee0961f467c6ca62be,
          0x0, 0x0,
          -0xa10882ca25ea2427ed20c055b79ff046f895084d919919369219115be5e1870f23284c0197733b4ec3499e757fa183ceef582102cbd4b024b652f311f1a0d1a);
  }

  lemma Power2()
    ensures Pow(256, 2) == 0x10000
  {
    Power1();
    assert Pow(256, 2) == 256 * Pow(256, 1);
  }

  const TABLE2: seq<seq<byte>> := TABLE1 + ROWS2

  lemma Table2()
    requires Fermat()
    ensures AreRows(TABLE2, 3)
  {
    hide Fermat, IsRow, Row, Mult, Pow, Factor, IsBlock, AreRows, ROWS2, TABLE1;
    Rows2_1();
    Rows2_5();
    Power2();
    Together(ROWS2, 2, 0x10000);
    Table1();
    MoreRows(TABLE1, 2, ROWS2);
  }

  const M3_3: Point := Point(0x4535c89311d604f3aaa0e4d88d9d7b514f3d23c8f1d3dccac1423f36e811b9d8,
                          0x69dd3661ba84b8e1aaa20a3d90806ac9372d33d5840f6c977aa7bf9008d63661)
  const M3_5: Point := Point(0x69f0b68125b9ab0c6ebcf63389c5cfd7621379497a1bd8bda3aa49b3ebdd1011,
                          0xd2a89a19c28174690eccac4fbe32dfe444e1ad763c55233d46b7a47dc3669d6)
  const M3_6: Point := Point(0x34d9729a3945d42cd08c6cd2c09f8f53dfca8d55031fea67189d5ffa5112f8eb,
                          0x65efef05bd03d24eb46154ee50e168707c01553364e760370db3cf404c6279b1)
  const M3_7: Point := Point(0x271b64006d3d0282832762a869c867f449f0888797e6108a58e30403c96f4e4c,
                          0x6e0746310b9c01c2fc648f1039d803b053ef2e7903edecab328045df50bdd7d9)

  lemma Points3()
    requires Fermat()
    ensures IsMultiple(0x1000000, G24)
    ensures IsMultiple(0x2000000, G25)
    ensures IsMultiple(0x3000000, M3_3)
    ensures IsMultiple(0x4000000, G26)
    ensures IsMultiple(0x5000000, M3_5)
    ensures IsMultiple(0x6000000, M3_6)
    ensures IsMultiple(0x7000000, M3_7)
    ensures IsMultiple(0x8000000, G27)
  {
    hide Fermat, IsMultiple;
    Powers24();
    Powers30();
    Added(0x1000000, G24, 0x2000000, G25, M3_3,
          0x5e2689be944bae2c4fd073424e1037a2e1a443d5098f919750f445cc2599a00,
          0x135a0f6c3cf62dd750bcbaa581836f6091a95179d34c448fc84c9aaa8a6d9255cbd83524e6fcbd5fb1406c91faccd1c72edee21fb1e6ad36c0c736951d7138ae8983cf69889320d97e791f391a0955687a47dc8f1624056e96aeb7f75f80313b870ef440f7968cca4a9d21d8b5cc166981919e62cfc94561f0c8a0f697720e,
          -0x12ce57959fc2f4a5be0adf625471a05b352865041c275c9985fb9bfb4a21a009,
          -0x29139d98feb0a3e7e927affe844476d0385cddd9d4fa06a3e9451fd653e24196);
    Added(0x1000000, G24, 0x4000000, G26, M3_5,
          0x62073d46f513127a7c4c79e68e45bee83ee4e358897b4eb0d84dc2c210fd13f4,
          0x14af91c1762e2712d2f7cc66a30fb617f6fbed13c37be59d553a10d8753b145dcdc2fed4561275d1da12b19f018bbe46d4ce23b851a02cb58cdaaed6b9b0b1c702a398541d8fad06c98b32d1728cba4fced2082ab802b04c69707c6c82ba6a762ca78648ed28c1bacd0502af72a3a667949086f42d76ce79d8c29f2e997b66,
          0x317df0a7c0f49824f317184f8a4473d82ae3e27989aa5abba672b4b322ceb984,
          -0x2180a400c0f96dcfe59b398ae76b113db259bc379158db1a4001b40c54c8e8e1);
    Added(0x2000000, G25, 0x4000000, G26, M3_6,
          0x23686ea3a1e0ce6393a4bc8418e5ac6e31d1d1186ea36d116378eb49a08278e3,
          0x1384e2be2650350cff3ef6669a8ac77e343abf6752b27c155335bd48f99731b95272ae33cdef3f818d597afb0111c75716d68a14cb636faecd5724a1b0f46eff5a610a33ca34c0a8a4a02988bbf186a2ef7c3ac0a8ca136e30d6169cc9114313002486e0df1077e4716ab30d8b26bca2c86acf6490302e24e93d5ff0d0ff4c5,
          -0x6a8aec894d4f22021f34e354046a574a6e1325198683b08a8519e192fd7e1a9c,
          -0x76c02a24d5d4129119ffdd4729e936747727edad180ba130e11d3cd5eb6657db);
    Added(0x3000000, M3_3, 0x4000000, G26, M3_7,
          0x5a21791bd110d84a408f773bdb011672ea19b7824d17e39aea07d9692cbe3300,
          0x1a2951a07206b8d54f8abbbaf514fe81961ae7509277bc490689c7598d041831809f3f8dc4b0c1a089f83bc47d212c967aa077a72cd7362b6a0edc925f715cf3d5596f761d35520233db4bab357c0a97413a07d8f226707ad0aaea45330b15a6085cd6ae45947b1757320b7c288862564737f7e93d9686158266e36195265d0,
          -0x58c845b421fd854365c927ef01460e059a112f51589cf613614fc0c6b27b9f2b,
          -0xb42a8c68e8ecfd0c8999d0cf596436e6d5c76f6818b315434016e0e378056eb9);
  }

  const ROWS3: seq<seq<byte>> := [
    Row(0x161d25fa963ea38d05710b2ab95459c4c3fffaf306ec08b7df48ee0752cfce4e,
        0x2c03f5256c2b03d9dbaa99eae3d9079fb7b5270ec281439d231a8c570478433c,
        0x699468bdbd96bbaf31903d77257ef7f9307b0130cf0c5879790f18757b53a47d),
    Row(0x525219a473905785d31ffdda4a47b37f7cef0114a47fd6f7bd1f2f46f4dafecf,
        0x293e1c4e6c4a2e3a9b48246634fdea2f485064c22fc0d2ccd8dd3de66aa91948,
        0x5b605c447f032823b04589af461c3111703778b5dca15da0376e134b925112e1),
    Row(0x24a76dcea8aeb3ee0001256502e2ef77e7f0100c923b8fccb965805920c47c89,
        0x2f12fef4cc5abdd55542ef161e1de61a866a579e75e349623be9fec6f0e7f04c,
        0x5e607b2518a43790c6cf144178cff66810d06e7f40c9a4070a4522b2dfc0c740),
    Row(0x5067acab6ccdd5f7e1b3ff4f66e61d6e35cfa74fc36258a258b31d8f6cdf1818,
        0x201f33139e457068d24526802e0f26dbe3c42d40aed3e400a02c431ca596cf14,
        0x397cba8862460375d5220eb02e25a4a818b14964017c0006fd527f6b08039d51),
    Row(0x2339d320766e6c3a222fd491721d5e26e23aa18de9a9797630c13093f05959b2,
        0x771b4022c1e1c252ffa9c0f885a8fdd5a6619420dde12af17815c3fbc81379e7,
        0x331a189219971a76d06bc31b1ea283b3f5ac9b71f9d4cf08d87dd986513a2fa7),
    Row(0x31167c6b83bdfe21e3d4e81b9041d91c9c36c7de61c775cff5166f45fb4f80c6,
        0x1ac9619ff649a67b84edc1c11180f7c45bcbe28868074a9e26512f3a9d7572af,
        0x612436341f08b111fc9d71844a6250c85068343bee9ce987f22b3842524b1068),
    Row(0x46ebe2309e5eff40793d2c67d00f9bbc09fea5f16c07dc20d99d41db874e898d,
        0x1522aa3178d904457f8bf1b8a3a06ba49ddfb7009bd3fd358b6349e31a2d2638,
        0x45fe70f50524306ce8c83391b646f227dafe409ab72d6d102c382f5369614938),
    Row(0x428d1623a0e392d407fb51cf3d0b8fd45b68d076ef0e2f20da4875a6960c0b8c,
        0x16619f6db57a22456fbb45d2f5c9d4b805f007c83f630ca262f24920c8951491,
        0x1d81592d60bd38c6deb8de4643d1bc7da82219c376a5caac084f4a4401a308fd)
  ]

  lemma Rows3_1()
    requires Fermat()
    ensures |ROWS3| == 8
    ensures IsRow(ROWS3[0], Mult(0x1000000, BASE), Factor(3))
    ensures IsRow(ROWS3[1], Mult(0x2000000, BASE), Factor(3))
    ensures IsRow(ROWS3[2], Mult(0x3000000, BASE), Factor(3))
    ensures IsRow(ROWS3[3], Mult(0x4000000, BASE), Factor(3))
  {
    hide Fermat, IsMultiple, IsRow, Row, Mult;
    Points3();
    RowIs(0x1000000, G24, Factor(3),
          0x161d25fa963ea38d05710b2ab95459c4c3fffaf306ec08b7df48ee0752cfce4e,
          0x2c03f5256c2b03d9dbaa99eae3d9079fb7b5270ec281439d231a8c570478433c,
          0x699468bdbd96bbaf31903d77257ef7f9307b0130cf0c5879790f18757b53a47d,
          0x0, 0x0,
          -0x1cfff14f57d8a0e09c345c2c36cd8f833e6fb7bdc86c18ada2afa3078cdfb020184cc42f5811e17fcbcc4d55bd8d26c00b6d03f10742fe41158287c7bc68ee9);
    RowIs(0x2000000, G25, Factor(3),
          0x525219a473905785d31ffdda4a47b37f7cef0114a47fd6f7bd1f2f46f4dafecf,
          0x293e1c4e6c4a2e3a9b48246634fdea2f485064c22fc0d2ccd8dd3de66aa91948,
          0x5b605c447f032823b04589af461c3111703778b5dca15da0376e134b925112e1,
          0x0, -0x1,
          -0x1b5d3699a51532c8ca165da73adfb5e813d1bbbf2c25c3e9e07f12c49817c97cf9161733937a158d6c713ccf4611245296f7925d77059f4f3b24490f60b3d0af);
    RowIs(0x3000000, M3_3, Factor(3),
          0x24a76dcea8aeb3ee0001256502e2ef77e7f0100c923b8fccb965805920c47c89,
          0x2f12fef4cc5abdd55542ef161e1de61a866a579e75e349623be9fec6f0e7f04c,
          0x5e607b2518a43790c6cf144178cff66810d06e7f40c9a4070a4522b2dfc0c740,
          0x0, -0x1,
          -0x24ad13d3f743e2bf2fcf138a6805fcd7dec42e039bf3efcb667d48d3b5e0ca50b057b05136ec4c7c42a8baf467dd027c77a9ecc20171472d2d9cd98d630aad10);
    RowIs(0x4000000, G26, Factor(3),
          0x5067acab6ccdd5f7e1b3ff4f66e61d6e35cfa74fc36258a258b31d8f6cdf1818,
          0x201f33139e457068d24526802e0f26dbe3c42d40aed3e400a02c431ca596cf14,
          0x397cba8862460375d5220eb02e25a4a818b14964017c0006fd527f6b08039d51,
          0x1, -0x1,
          -0x1d401e78d0a3be74cca321d49585bb30d3aec9cc9a2d801c53f3626162b575b433d45db1d5d8b2d18d1c8c2416f1a54b885f8660bb95312e49e44f3ba6b89f67);
  }

  lemma Rows3_5()
    requires Fermat()
    ensures |ROWS3| == 8
    ensures IsRow(ROWS3[4], Mult(0x5000000, BASE), Factor(3))
    ensures IsRow(ROWS3[5], Mult(0x6000000, BASE), Factor(3))
    ensures IsRow(ROWS3[6], Mult(0x7000000, BASE), Factor(3))
    ensures IsRow(ROWS3[7], Mult(0x8000000, BASE), Factor(3))
  {
    hide Fermat, IsMultiple, IsRow, Row, Mult;
    Points3();
    RowIs(0x5000000, M3_5, Factor(3),
          0x2339d320766e6c3a222fd491721d5e26e23aa18de9a9797630c13093f05959b2,
          0x771b4022c1e1c252ffa9c0f885a8fdd5a6619420dde12af17815c3fbc81379e7,
          0x331a189219971a76d06bc31b1ea283b3f5ac9b71f9d4cf08d87dd986513a2fa7,
          0x1, 0x0,
          -0x6fb69eab1a180f023855c61482c24fe310d52e1d5922197e038e40800b4e937ef62bbbc7c9ad507199fe136932ad7c313de63ce242803d0b2fe6b522adf95f1);
    RowIs(0x6000000, M3_6, Factor(3),
          0x31167c6b83bdfe21e3d4e81b9041d91c9c36c7de61c775cff5166f45fb4f80c6,
          0x1ac9619ff649a67b84edc1c11180f7c45bcbe28868074a9e26512f3a9d7572af,
          0x612436341f08b111fc9d71844a6250c85068343bee9ce987f22b3842524b1068,
          0x0, -0x1,
          -0x1af7a2231c8f7f1f614f56b81314c97fdec12363f5364fb8a54c9793df6fd6e9c023e5691cef37d88765dfe9f64306359b91c1ec9d0312964c58ca58f04dc7e2);
    RowIs(0x7000000, M3_7, Factor(3),
          0x46ebe2309e5eff40793d2c67d00f9bbc09fea5f16c07dc20d99d41db874e898d,
          0x1522aa3178d904457f8bf1b8a3a06ba49ddfb7009bd3fd358b6349e31a2d2638,
          0x45fe70f50524306ce8c83391b646f227dafe409ab72d6d102c382f5369614938,
          0x0, -0x1,
          -0x1589f726e18de703d4cacfc99cb52560178705478bc6afa874996d6d5ce43e16d56f59551f77c9894272a01596ce8a05749068863ec2767fea3e865723323390);
    RowIs(0x8000000, G27, Factor(3),
          0x428d1623a0e392d407fb51cf3d0b8fd45b68d076ef0e2f20da4875a6960c0b8c,
          0x16619f6db57a22456fbb45d2f5c9d4b805f007c83f630ca262f24920c8951491,
          0x1d81592d60bd38c6deb8de4643d1bc7da82219c376a5caac084f4a4401a308fd,
          0x0, -0x1,
          -0x16c1fdfb4b624d229c53f0706a0412c5160dfc7c03d324686c20913b4f8acf934f2ee911146809dd4704e94410c2f0769dc2c1606c3dcad8f8c03892c467af15);
  }

  lemma Power3()
    ensures Pow(256, 3) == 0x1000000
  {
    Power2();
    assert Pow(256, 3) == 256 * Pow(256, 2);
  }

  const TABLE3: seq<seq<byte>> := TABLE2 + ROWS3

  lemma Table3()
    requires Fermat()
    ensures AreRows(TABLE3, 4)
  {
    hide Fermat, IsRow, Row, Mult, Pow, Factor, IsBlock, AreRows, ROWS3, TABLE2;
    Rows3_1();
    Rows3_5();
    Power3();
    Together(ROWS3, 3, 0x1000000);
    Table2();
    MoreRows(TABLE2, 3, ROWS3);
  }

  const M4_3: Point := Point(0x28e01e9eebe624f050385a759882d4f1ae61ab87c739ba5f1f167e5a18ecc8f9,
                          0x34a3ef208089429b6293a7c1ab71048dd3a1b4f69b645e2a7b7682a0a58a68c1)
  const M4_5: Point := Point(0x6759a4f961d6ac87116ff682cca6bb2af36ce2bbda2202c694f70b4a1110cc99,
                          0x7e6c7c2dca5f44c7b2591211600036d4b1011a2605be16633ca43f61ecf8af35)
  const M4_6: Point := Point(0x56bec703109151e787690e04944ce775ea94874dc7aa8115f0d434a9ade80267,
                          0x6ab2ddd0750778ccdca656b4f3710c05ce7e47706cfac82b512e6b33ec86fb32)
  const M4_7: Point := Point(0x4bbefbdc2c60867dadf3a817a029c56305dae0a7b5eb28d0420bd6530a7c82bc,
                          0x6eb85cc89c0c2dc979d1ce5dcc3e74f7ac3547e10708a095040e3f6849538107)

  lemma Points4()
    requires Fermat()
    ensures IsMultiple(0x100000000, G32)
    ensures IsMultiple(0x200000000, G33)
    ensures IsMultiple(0x300000000, M4_3)
    ensures IsMultiple(0x400000000, G34)
    ensures IsMultiple(0x500000000, M4_5)
    ensures IsMultiple(0x600000000, M4_6)
    ensures IsMultiple(0x700000000, M4_7)
    ensures IsMultiple(0x800000000, G35)
  {
    hide Fermat, IsMultiple;
    Powers36();
    Added(0x100000000, G32, 0x200000000, G33, M4_3,
          0x2da8da587c1e18c1f779ad29aa84497cd97a34dac1419e71f96bfbdcb9b486fd,
          0x2cd77d70360fe4104031290c225b904510a73ae5010072483a2d2a49ae80fd794d0ce4424b90bafdd5c28a8346f602e42117ed4c79cbc9c8908f6427aebf114c2e27ffef853eb7bbd6e1606069bfa7a8bc33242bd00b6ba22eb21f7d88b8bac03027ae4b9903aadb4538018bbcb43089b94e99cb301de3e19f42a86a114229d,
          -0x77604c8692b157f42186c3f1e68006712aae29bcbf8c556045e0b0873e784131,
          -0xa2d55f423eaad3d77a92a332676ee475ed7923f8f537c746d2efc5afb8e22395);
    Added(0x100000000, G32, 0x400000000, G34, M4_5,
          0x1ae38e97b7238abccb5ff0366f59e7cf4f4bf3b8fbbf3f5e361aa433ed8b5142,
          0x164c1d6e64745d97b9f8c80e187e167771922307dfcad3fd6ce455dc225e3f8b151f469168a349d27db0c89048b4e1812d4126ad7acab61fc793aaa2302a7845e3e0650eecadaed15548f17028df847d718ab8b86b25d8502da4a60ccf86d11c7b06090d4e0f26462da6f19a807ca57bb9d4760e82b572977f84da2802678a4,
          -0x48e1e77cbcc8884d7d147f89ccd5e05717fb556602991159b30b9f3cbfdf0ed6,
          -0x812bd01f7b878be0a74a7e29c2e6cd149caa5d637215c61778404c2326388e74);
    Added(0x200000000, G33, 0x400000000, G34, M4_6,
          0x202704980881da9ab80755ccf05000184dfe0090df4791a8668265fea370a007,
          0x170cc9df4bfb8780ebb14cf3bc7ca279c02b2984bd38160aafd1acc048edae2d7e11345d03da804f835bab172bdc8067f1752818fcc57fd2c088d52c43773620d010a7945b3c4ce4c2bd9b903a3fdc29f590ba0c0d23ad72c9e4365652550243a072b6d79e1a1167a8a9b05a7706963e8ef590158a60f78f477aa89165479fc,
          -0x4a35cfbbe6885b70bf64ef665594a2b33b4a37dc4a48c5adad12d04ef5c33ed2,
          -0x84d6d1a2191c6c2045c7acd021341347f1bcd5dcfa19a03bfdfbd717380ccf72);
    Added(0x300000000, M4_3, 0x400000000, G34, M4_7,
          0x4529e9e024b8052bbefce1769ec21a4acd3ab6dbe170d60b1e05ffc73abbf5b1,
          0x5b1bca116169a1300e437e82eb03e6a775af898017638419bc3f8b761308168d9fe29121117a2f025ebcffce110b84eeea56242b158d252bdcafa101e890eb497552ce379d60548e8968566b26722dc97b5047f410e9a10282703298473af9b9f9d9357c92f84d49bc5ca84f0bfbc27548ae5ccfd380dc8e3d779bf8b0edcc,
          -0x71446574b1ca740c6ec5ba79be001de11640a6e3c45e2fa3a226de4036dd458,
          -0x6ec5493f496ff8332291d545c5d4326b1333209b3da8d471cd074f8710a5dc90);
  }

  const ROWS4: seq<seq<byte>> := [
    Row(0x20234a7789ecdcf07f193f2d4cce0f7d17e02f6aebabdc5761368756a60dac5f,
        0x3a5f6d51b0af8e7c3a70e77c1d330f9b6ff0678bd168bab28765b69f7b85c5e8,
        0x7cd682353cffe366f62a4a20b3e41170071c34f9d51ed16076d20db67178b252),
    Row(0x2838c8863bdc0943d9921012e96e60002a846a32ba403b6e0be1a45bd887fab6,
        0x3ef0253b2b2cd8ff5759389d336025d942d92d183cd7e3d3a665cd6068acf4f3,
        0x21dcb8a606a8281282cfae8af4ab419dfa496b4115c577abd16bb0cf4a465030),
    Row(0xbc3d08194a31dab125b4d4c12ee2f9c2540096ed42aa3cb5c6004468c9d9fc8,
        0x5d840dbf6c6f678bb2cc023743f3d97f8203607e629e18899a8d00fabe7731ba,
        0x3a4276232ac196dd57bbba997dae20ab6eb02da6b9e165c7706e380d309fe18b),
    Row(0x1ff177cea16debd1be9f00219c58e45d898a19e3dfb9e5454b42432c8a7084fa,
        0x770c9e824e1a9f980acffc075aa15fe5fcfc41fc6282dbd3bf8c172db447ecb,
        0x39f264fd41500b1ee7300919303e3e89860984e91b3a7924cf61d99a45b5b5fd),
    Row(0x1712d73468889840a0e91b8e93597ba9bd94376a2b9c139ca7ad3417dbe7e29c,
        0x65c621272c35f14ec3c908942ca6f1ffa46dfce1dfe01929d19b4aabfe097be1,
        0x22f9800ab19ce2720419a93d2e1cfe834d103356a125c0bbe72b89f8ce3193dd),
    Row(0x13f416cd647626e5553d48b05f24248fe3e9c022a5504715605a368a3e9ef8cb,
        0x4171a4d38598cab4640f64b987bdf37bb912cebe34a5494142029fdd9a6efdac,
        0x508214fa574bd1abfbd291ddadda539223006f6fb000b807fa2758aa99c94c8c),
    Row(0x22f960ec6faba74bcbde26462c14af94a65a6739511d77c4c20269153ed6fe4b,
        0x3a7758a4c86cb44727c576756c683a5ab2102888bcf3c965461a15bb53d003d6,
        0x5d9fd15f8de7f49412248c90f3115e651dae21df1dfd54a6548111f693ae5076),
    Row(0x332f35914f8fbed3a9e18fc5ccaee24b6a379aefd7c7b533031408d36d63727f,
        0x3bc187fa47eb98d8e164ba772e9c16d48e3a9028432e96153f244d2aeed7521e,
        0x450d81ce906fba03d77832b53a660188998ab7cb6c46d1256d470115ea86c20c)
  ]

  lemma Rows4_1()
    requires Fermat()
    ensures |ROWS4| == 8
    ensures IsRow(ROWS4[0], Mult(0x100000000, BASE), Factor(4))
    ensures IsRow(ROWS4[1], Mult(0x200000000, BASE), Factor(4))
    ensures IsRow(ROWS4[2], Mult(0x300000000, BASE), Factor(4))
    ensures IsRow(ROWS4[3], Mult(0x400000000, BASE), Factor(4))
  {
    hide Fermat, IsMultiple, IsRow, Row, Mult;
    Points4();
    RowIs(0x100000000, G32, Factor(4),
          0x20234a7789ecdcf07f193f2d4cce0f7d17e02f6aebabdc5761368756a60dac5f,
          0x3a5f6d51b0af8e7c3a70e77c1d330f9b6ff0678bd168bab28765b69f7b85c5e8,
          0x7cd682353cffe366f62a4a20b3e41170071c34f9d51ed16076d20db67178b252,
          0x0, -0x1,
          -0x2a2cec0fce69e0b7dd30a7c659d5f097192e1d3aedf4b9c2358eae80d88b69dff87eedf8869b9c672113f6f9197f96fe43218d5e1d3796af89153ce870eec36a);
    RowIs(0x200000000, G33, Factor(4),
          0x2838c8863bdc0943d9921012e96e60002a846a32ba403b6e0be1a45bd887fab6,
          0x3ef0253b2b2cd8ff5759389d336025d942d92d183cd7e3d3a665cd6068acf4f3,
          0x21dcb8a606a8281282cfae8af4ab419dfa496b4115c577abd16bb0cf4a465030,
          0x0, -0x1,
          -0x2b995d70108426b77f70a332b1761f21d23a9b47ac11963c974935597bbca6006962050164fd48b4bf8689a655e30a20e711a5227eff21e00bf9f98ef729ef22);
    RowIs(0x300000000, M4_3, Factor(4),
          0xbc3d08194a31dab125b4d4c12ee2f9c2540096ed42aa3cb5c6004468c9d9fc8,
          0x5d840dbf6c6f678bb2cc023743f3d97f8203607e629e18899a8d00fabe7731ba,
          0x3a4276232ac196dd57bbba997dae20ab6eb02da6b9e165c7706e380d309fe18b,
          0x0, 0x0,
          -0xac550a43db8d5b644400627eb976166045fe7338e71b149cfd6fb9ccabb9f88aa5487afe5a9e30fc59e3e92aae5822e4c3e74d2aeeb8939a2da581dc67dfcd7);
    RowIs(0x400000000, G34, Factor(4),
          0x1ff177cea16debd1be9f00219c58e45d898a19e3dfb9e5454b42432c8a7084fa,
          0x770c9e824e1a9f980acffc075aa15fe5fcfc41fc6282dbd3bf8c172db447ecb,
          0x39f264fd41500b1ee7300919303e3e89860984e91b3a7924cf61d99a45b5b5fd,
          0x0, -0x1,
          -0x15adedd3a723183781eec1be6aaeb8dd809b4a50d359034f955684034a07f2045103280f557f949958ce210d071a2f8c1be968229a1ef98910b3c457b0e79f01);
  }

  lemma Rows4_5()
    requires Fermat()
    ensures |ROWS4| == 8
    ensures IsRow(ROWS4[4], Mult(0x500000000, BASE), Factor(4))
    ensures IsRow(ROWS4[5], Mult(0x600000000, BASE), Factor(4))
    ensures IsRow(ROWS4[6], Mult(0x700000000, BASE), Factor(4))
    ensures IsRow(ROWS4[7], Mult(0x800000000, BASE), Factor(4))
  {
    hide Fermat, IsMultiple, IsRow, Row, Mult;
    Points4();
    RowIs(0x500000000, M4_5, Factor(4),
          0x1712d73468889840a0e91b8e93597ba9bd94376a2b9c139ca7ad3417dbe7e29c,
          0x65c621272c35f14ec3c908942ca6f1ffa46dfce1dfe01929d19b4aabfe097be1,
          0x22f9800ab19ce2720419a93d2e1cfe834d103356a125c0bbe72b89f8ce3193dd,
          0x0, -0x1,
          -0x4167709eb3c97835859643b534a4028e5cdb314dd03701e7974fa3ec48af44b1ee6834f40816c00fd8765fca39f1c959e04857d161df794bab24b9ef6cc17e15);
    RowIs(0x600000000, M4_6, Factor(4),
          0x13f416cd647626e5553d48b05f24248fe3e9c022a5504715605a368a3e9ef8cb,
          0x4171a4d38598cab4640f64b987bdf37bb912cebe34a5494142029fdd9a6efdac,
          0x508214fa574bd1abfbd291ddadda539223006f6fb000b807fa2758aa99c94c8c,
          0x0, -0x1,
          -0x2e54acfb0a3d6b4879c62d11e6f60dbe80a21187a63b6168fcebe7159dd7afdf229885a9ff6a801bc18eeee5ac6c5f6d5d932ab0a694b99deb844355f5185148);
    RowIs(0x700000000, M4_7, Factor(4),
          0x22f960ec6faba74bcbde26462c14af94a65a6739511d77c4c20269153ed6fe4b,
          0x3a7758a4c86cb44727c576756c683a5ab2102888bcf3c965461a15bb53d003d6,
          0x5d9fd15f8de7f49412248c90f3115e651dae21df1dfd54a6548111f693ae5076,
          0x0, -0x1,
          -0x29fb19f7421b23c4792dd1e942e30f10a4d246621dae009d7501ba02cb414300c3d8524ca0680ecd67d4088aa5889b205fcc8b176d6e321e8f7769528308d4aa);
    RowIs(0x800000000, G35, Factor(4),
          0x332f35914f8fbed3a9e18fc5ccaee24b6a379aefd7c7b533031408d36d63727f,
          0x3bc187fa47eb98d8e164ba772e9c16d48e3a9028432e96153f244d2aeed7521e,
          0x450d81ce906fba03d77832b53a660188998ab7cb6c46d1256d470115ea86c20c,
          0x0, -0x1,
          -0x28d64abd8cd7870accbda7dbdaa474d385064e811d8065ccd3e03a3c7ca36ce20394839913dfac8a55ca250d093055a71045c58c5b95ebdc8d878e17b8408f48);
  }

  lemma Power4()
    ensures Pow(256, 4) == 0x100000000
  {
    Power3();
    assert Pow(256, 4) == 256 * Pow(256, 3);
  }

  const TABLE4: seq<seq<byte>> := TABLE3 + ROWS4

  lemma Table4()
    requires Fermat()
    ensures AreRows(TABLE4, 5)
  {
    hide Fermat, IsRow, Row, Mult, Pow, Factor, IsBlock, AreRows, ROWS4, TABLE3;
    Rows4_1();
    Rows4_5();
    Power4();
    Together(ROWS4, 4, 0x100000000);
    Table3();
    MoreRows(TABLE3, 4, ROWS4);
  }

  const M5_3: Point := Point(0x7983fccb8fdffd787f669568b35189d08fcc6194c31874eddf3320f5fd1d642b,
                          0x3c0fcdb8f1b0cccc2927571daeba50483de19ee5579ab5abbbd963226a436855)
  const M5_5: Point := Point(0x5d17bc7ae6348ff1d88f460eb1a18752c3ff569529fcac8f4d862364b859c113,
                          0x53daa8c1f06682f6163309add59e196f440503b0a5514f1785cff1ed5765a23d)
  const M5_6: Point := Point(0x2d86e1368ab546c9547c0e0e1a73691984c2208a53b4cba3f48747ad656376ce,
                          0xb2538616310b0bb96559890a1e5f8488214951a9e1f77433bc14429f04394f2)
  const M5_7: Point := Point(0x5260385be84291557508c683f0e59b8940aaaa4692cf5b1ae4884369a69769d1,
                          0x3d894f1c3c8b531d0473ec10231031a8ee3910a63f8a9e4e7264164a69a476bd)

  lemma Points5()
    requires Fermat()
    ensures IsMultiple(0x10000000000, G40)
    ensures IsMultiple(0x20000000000, G41)
    ensures IsMultiple(0x30000000000, M5_3)
    ensures IsMultiple(0x40000000000, G42)
    ensures IsMultiple(0x50000000000, M5_5)
    ensures IsMultiple(0x60000000000, M5_6)
    ensures IsMultiple(0x70000000000, M5_7)
    ensures IsMultiple(0x80000000000, G43)
  {
    hide Fermat, IsMultiple;
    Powers42();
    Powers48();
    Added(0x10000000000, G40, 0x20000000000, G41, M5_3,
          0x5804071176d707228ebcf6061a8d1a15c42367fa07e403adbfdd94ab4467602f,
          0xb36f8d246b90940bc3bb4eeee1aacdd0b2fd1584acad1adad6c9c9fe39d2781b936b32570b7d532b60293071a6c354b3f28f7d4b28629ffb7b2d13e558acf61a94ecbfafc7be0493d0e2fad9f73956599bda2c7c89d84676b70c562d1e233ebce471d03712891a267d4c9fc0f8b4fa980f6f3026e9e7ff538c47ecb0b90f5,
          0x34c971557c8be5d7d8938a496c0d7e0a9e2586aede89e6291e1b1b26e093b69c,
          -0x3a40f12d662faa643608419cf222da3d422ef185c1af7de5318ca606a6423886);
    Added(0x10000000000, G40, 0x40000000000, G42, M5_5,
          0x7c5bff04fb6df063e12c44899142a1a95f930cdada0559a24a9ae09be7ba0b7f,
          0xe1f02367c27192099c617b1f38bc4b931af60398509a47f7da4c8aa0ef7315857b463ee21a9dc24aeea5ce84e81c7846ee515aad93b49de799f7f299a967941e27aa78d6d96f2a37aa0304e1c0302f0a5777640479c36facfec4985aeaee929603af9227176e097aa4730049d7d97e2c54c676ce847bdb7e6876c6087fba5,
          0x473b96b7379d46a827cdf92da319ff5b8f182082352571e8927bf5c6fae42e05,
          -0x72833bcc37da8a3287226cd56c9ddb8fa3e0baac35835e327492aeff9ca36864);
    Added(0x20000000000, G41, 0x40000000000, G42, M5_6,
          0xe0a2a8478f35c5f47b60bde491ab1e1b2fbf197958bcff948bea9038830315c,
          0x121e4c28e569f81425e37739f6f7dfca1b46907c70a36fec67f3ea6184999a15ef400357b13ab31a7c3dafa79a7ecc04be34cea86e777b858b38f91705b61d47de376f1958b0b954db3016cb245eb996261692da7f8190a5f6496c303b5d1e472fd14a46c764c4a08eac163f001bac8b124f4ab17879bbbb3b1a419b9decb4,
          -0x1becc64eeb3643f11f6a9a601f1e3290deed9302b357669e21ec5e701cd9bcd2,
          -0x1685de34dc59308351d496c3940eb09901af297723ef2c7e2391cd5860cdb78a);
    Added(0x30000000000, M5_3, 0x40000000000, G42, M5_7,
          0x47d091ce60e0d13017def9f52120f7f2724ad963a443e9c59133b702fb59c561,
          0x6d0003c89ef9c2727a23c3865ae3798aa9de3a5da8eeb20931a621f1edf6c6662fe11ecf5cf27edd6083da601193eae793c1088a35a0595870a9aaa077963dc3728302dd94cb142b439ee913acd4eddae4010f5529f20c638cf262141449c13009636c46fc92bfe31cca3bee18355a91f87937fb410cede5410fa3a1b8509b,
          -0x18e01b10e98ab37a8f48a0536aa80c846d3a5803a878329d931f13e3f5e2b90b,
          -0x5717d394fdd2e06537a534695942a7e796c09a3f741c91f6d59b819d70f6f70b);
  }

  const ROWS5: seq<seq<byte>> := [
    Row(0x2de25d4ba6345be16f56d155e88f5cb2aa4f21d7413c8e836e7bb6a1a6205275,
        0x4cbad279663ab10897bdc55be7f4ed29f86d18f5ee1c63edd074d8961cae743f,
        0x7d7fbcefe2007233b1a3974b5f3a6419c525c20afb288af880d19024a0d71fcd),
    Row(0x5975435e87b75a8df68a2fbc1b03762c866c68c4d5739f16faef1e6a266b2801,
        0x4f9cd196dcd8d4d780c61d36421c3058c781a29a2a9105abcd7c5dc5f3c29094,
        0x7ccdd084387a0307ba029cad5c1c0c17d0d058241ad17a63199297d86a7b3768),
    Row(0x428bd0ed61d0cf53a9c0c1b4fb68c677ae153d50948240bddca6422c6d260417,
        0x3593ca848190ca44a88dec86620bda18cdae007a1ab32a999b0c84186760cc93,
        0x27398308da2d63e68c52545b53fdbbd1d4d8c33565d8facd9213189a5e849aa7),
    Row(0x269597aebe8c3355bb07ab1a79da03efbd50f3603278ccc942c38d28435ed413,
        0x572c2945492c33fdffb9d9b5cd27daf70fa25866d57d1bdeb9a10e4c0a702453,
        0x7f985498c05bca80a22c8830aa5dda0ce4dfe8d3e3baaefbc77fc745d6cd30be),
    Row(0x76c2ec470a31f3043da3c39f23fc921c8005ad1b7b54a2883849ce889f0be117,
        0x30f2653cd69b12e7eec24fbc873fa0c208045a45cf4dfba6d35615520fbf6363,
        0x2f1273f1596473daa920c01e0e6fac7046179b60db276bcb8a08c938aac10c85),
    Row(0x5d9e572ad85b69f241d98a8287728f2efd5274904a6aab9f4739fc7c8ae01e11,
        0x38ac1997edc5f784ead1a69ebc59616206d6b5a4f1d442e730488bd755a70bc0,
        0x22dfcd9cbfe9e69cacacc011454dde49747d06867e9b858c0666b517a751b13b),
    Row(0x6b2916c05448c1c78f6b258c322a961fad8e665facbb43338ddbd2e0c30d0cd9,
        0xfe9877824cde472797cb29413f5cd322ee3baecd259f96956ec59b4103be0a1,
        0x4c303f307ff00a1766083dff6578f8154ea3cd822e6dac0e7edb34d10aba913b),
    Row(0xd61b8f78b2ab7c4c6c6e78c1e6a5cbfc5d377b739773bead30a3bd617b28c85,
        0x416b151ab706a1d5130a155fc2e2a7f8ecd27aa46fbbec9329fc03580dd94500,
        0x191a2af74277e8d2afe62fda1b57e0abbd07e5cd58e44b2056a8d7efe9c136b0)
  ]

  lemma Rows5_1()
    requires Fermat()
    ensures |ROWS5| == 8
    ensures IsRow(ROWS5[0], Mult(0x10000000000, BASE), Factor(5))
    ensures IsRow(ROWS5[1], Mult(0x20000000000, BASE), Factor(5))
    ensures IsRow(ROWS5[2], Mult(0x30000000000, BASE), Factor(5))
    ensures IsRow(ROWS5[3], Mult(0x40000000000, BASE), Factor(5))
  {
    hide Fermat, IsMultiple, IsRow, Row, Mult;
    Points5();
    RowIs(0x10000000000, G40, Factor(5),
          0x2de25d4ba6345be16f56d155e88f5cb2aa4f21d7413c8e836e7bb6a1a6205275,
          0x4cbad279663ab10897bdc55be7f4ed29f86d18f5ee1c63edd074d8961cae743f,
          0x7d7fbcefe2007233b1a3974b5f3a6419c525c20afb288af880d19024a0d71fcd,
          0x0, 0x0,
          -0x4bba6682835e26f3577f08f30a3ed91301819b4e6e2283d236ca8c148c8b15dbfd2021a11958e782043b21b018d587f6af677a6467a884a68a69706aba9f0db);
    RowIs(0x20000000000, G41, Factor(5),
          0x5975435e87b75a8df68a2fbc1b03762c866c68c4d5739f16faef1e6a266b2801,
          0x4f9cd196dcd8d4d780c61d36421c3058c781a29a2a9105abcd7c5dc5f3c29094,
          0x7ccdd084387a0307ba029cad5c1c0c17d0d058241ad17a63199297d86a7b3768,
          0x1, 0x0,
          -0x612a0bdeb50909908368ad5d4edbfd46a94e44d9b7b88eb7f4637f2af2fbbdbfbe6133e495062ebfa8234e52fa13aace1a28efc092e99a21d11b6af153ebdf8);
    RowIs(0x30000000000, M5_3, Factor(5),
          0x428bd0ed61d0cf53a9c0c1b4fb68c677ae153d50948240bddca6422c6d260417,
          0x3593ca848190ca44a88dec86620bda18cdae007a1ab32a999b0c84186760cc93,
          0x27398308da2d63e68c52545b53fdbbd1d4d8c33565d8facd9213189a5e849aa7,
          0x1, -0x1,
          -0x2488a5ab013e336a610c46fc95b75a564d78627f238f3b5fa57ed9955726caa45b8fdd1af381e3aad6bf50c0c5fde41772c700471ac1ae02a739b12578f7846f);
    RowIs(0x40000000000, G42, Factor(5),
          0x269597aebe8c3355bb07ab1a79da03efbd50f3603278ccc942c38d28435ed413,
          0x572c2945492c33fdffb9d9b5cd27daf70fa25866d57d1bdeb9a10e4c0a702453,
          0x7f985498c05bca80a22c8830aa5dda0ce4dfe8d3e3baaefbc77fc745d6cd30be,
          0x0, 0x0,
          -0x7a585db49e025e9683d26466d21e96d254da40af16e437c1bad7e5a013a99670349153a050d7926f6e50271c806bc83e84c3b2386d9dc219b9a6648cd6d6f4a);
  }

  lemma Rows5_5()
    requires Fermat()
    ensures |ROWS5| == 8
    ensures IsRow(ROWS5[4], Mult(0x50000000000, BASE), Factor(5))
    ensures IsRow(ROWS5[5], Mult(0x60000000000, BASE), Factor(5))
    ensures IsRow(ROWS5[6], Mult(0x70000000000, BASE), Factor(5))
    ensures IsRow(ROWS5[7], Mult(0x80000000000, BASE), Factor(5))
  {
    hide Fermat, IsMultiple, IsRow, Row, Mult;
    Points5();
    RowIs(0x50000000000, M5_5, Factor(5),
          0x76c2ec470a31f3043da3c39f23fc921c8005ad1b7b54a2883849ce889f0be117,
          0x30f2653cd69b12e7eec24fbc873fa0c208045a45cf4dfba6d35615520fbf6363,
          0x2f1273f1596473daa920c01e0e6fac7046179b60db276bcb8a08c938aac10c85,
          0x1, -0x1,
          -0x2713569b0ca2cf08dc0353ec31ffb0d43aab763bebba89899089dc6a1d4803882f35d77925a70f39fb3379675368d5cca48fd96ea793f144ce3e89d6dd05a059);
    RowIs(0x60000000000, M5_6, Factor(5),
          0x5d9e572ad85b69f241d98a8287728f2efd5274904a6aab9f4739fc7c8ae01e11,
          0x38ac1997edc5f784ead1a69ebc59616206d6b5a4f1d442e730488bd755a70bc0,
          0x22dfcd9cbfe9e69cacacc011454dde49747d06867e9b858c0666b517a751b13b,
          0x1, 0x0,
          -0x28a3b39996ab7f4f3c1bd25ced82088e6eab740e6aa61c9a62a296eb2520d3d9190dc040c79da2abdd39b52fb89b06c796ad48108c692b44649145d82ce2341);
    RowIs(0x70000000000, M5_7, Factor(5),
          0x6b2916c05448c1c78f6b258c322a961fad8e665facbb43338ddbd2e0c30d0cd9,
          0xfe9877824cde472797cb29413f5cd322ee3baecd259f96956ec59b4103be0a1,
          0x4c303f307ff00a1766083dff6578f8154ea3cd822e6dac0e7edb34d10aba913b,
          0x1, -0x1,
          -0x195fdbad37ff3976cf47969d6b9791e2219c526426ba348b88276932356e5b0312ae8c6ba9e7a51fe4c071835fbf2cc4ca0b03c40a580ef50b6e42dcd3e7a1bf);
    RowIs(0x80000000000, G43, Factor(5),
          0xd61b8f78b2ab7c4c6c6e78c1e6a5cbfc5d377b739773bead30a3bd617b28c85,
          0x416b151ab706a1d5130a155fc2e2a7f8ecd27aa46fbbec9329fc03580dd94500,
          0x191a2af74277e8d2afe62fda1b57e0abbd07e5cd58e44b2056a8d7efe9c136b0,
          0x0, -0x1,
          -0x2e97ae7c04d79ee49a86cc43378a74da9be4cb6639726fe67b47d0df0bfbc739b8aeabcb94a8456fecce81ea808591fe92ce3fb189f76ee721a7686ab3f2f1e8);
  }

  lemma Power5()
    ensures Pow(256, 5) == 0x10000000000
  {
    Power4();
    assert Pow(256, 5) == 256 * Pow(256, 4);
  }

  const TABLE5: seq<seq<byte>> := TABLE4 + ROWS5

  lemma Table5()
    requires Fermat()
    ensures AreRows(TABLE5, 6)
  {
    hide Fermat, IsRow, Row, Mult, Pow, Factor, IsBlock, AreRows, ROWS5, TABLE4;
    Rows5_1();
    Rows5_5();
    Power5();
    Together(ROWS5, 5, 0x10000000000);
    Table4();
    MoreRows(TABLE4, 5, ROWS5);
  }

  const M6_3: Point := Point(0x4fbfdbab005592c2c974a2cc3fd1b4ef7f8db640afbcdc838b0a78966b88fcca,
                          0x68ffb955a83a0ce5a55313f837bfc1ceec03abe700fd1897a40265662d061c93)
  const M6_5: Point := Point(0x14c053b040dfeb348ad42bb65738ae4b07ea830efd00a617a93185647241a6ac,
                          0x7ec77091bc60573797e7d29c6759cc88a8795b8fc77cfe47f428eb9cd0eed3c0)
  const M6_6: Point := Point(0x6518baedfba8e047c2a5fd2dd7ab3603d3a1ae44fa7d61ebfe6f43240d99fd8b,
                          0x7388f75389963a211fbfb657c328754d31d66911cf34305a79e74b4a4f04a46)
  const M6_7: Point := Point(0x78ad307ea1d917594e22f8c331222feef87d6a4c60846ab2d315c77bb5d37d53,
                          0x601b077b6cb162507fd2bfcc034047bda0c48f978ebd175341e055e212791a2d)

  lemma Points6()
    requires Fermat()
    ensures IsMultiple(0x1000000000000, G48)
    ensures IsMultiple(0x2000000000000, G49)
    ensures IsMultiple(0x3000000000000, M6_3)
    ensures IsMultiple(0x4000000000000, G50)
    ensures IsMultiple(0x5000000000000, M6_5)
    ensures IsMultiple(0x6000000000000, M6_6)
    ensures IsMultiple(0x7000000000000, M6_7)
    ensures IsMultiple(0x8000000000000, G51)
  {
    hide Fermat, IsMultiple;
    Powers48();
    Powers54();
    Added(0x1000000000000, G48, 0x2000000000000, G49, M6_3,
          0x31d5978b1fc3d498b0c2fd9ca216426656a85b232e899fcaf312745ec06b90f4,
          0x10d636e68ca932d01981b0a71a61d90af34a41a175f06f0e31d10624474488d226b5da8ea874c564fe7e6a241fcacdd0aa6e245a86b9d3ea0294574c83914ecb4fe22f9e4b4de2e05acb0a4d969be6b50dfcf0bd2165787d4badeac86de7a9e1275094fad0a0d983c816b5e242ab2464160eeaef5fbaa6542291a061b32fdfc,
          -0x3300027e750bc4c4fb14405f7ac763119cf553be87019715616de0dfa830a0f0,
          -0x7ae61c74de1cb0cdfd20bb129a097f6b0d6558037953d9e417d2c2a038dbbbdb);
    Added(0x1000000000000, G48, 0x4000000000000, G50, M6_5,
          0x3df9d71a04dcd00fbee7d6d7047e442861acd9cc63fb756594160f44030aa4b7,
          0x4869b77ee25e1e64ce333a3ae75b851fe05dd1330e5e44f2fbe36d621dbccbd3d8972587b390f254d79623b8a690149a6252a491b18bf11b718bd44e4a231507136270875cfad0ebdd2fcc0f45f1b0d040cbddc4eeed844c91f957a36f375a19f7039706e39cd4f9c46094f18ed32c404b28045eb22c12e77d2b9369903ed,
          -0x24b66d5710ffae9b52ff8fd517b03c93d52d7ab62907267b4c829455a725a4c,
          -0x49de968bcbcbd430488dcf9c852568b2e3e23c3855542e2b1911e3a6d548c344);
    Added(0x2000000000000, G49, 0x4000000000000, G50, M6_6,
          0x66b18a4b15887c916e20138a1b4f32170cd47661316de7855e4ced584b889f9b,
          0x2cb0e21cfe7ba9669f2320b40f0d7ae6f7564f48c254bb927a17f2d2018d10bce5ee2376509b4a5fdf5632ceef44da31c790287e8835d50965857d53ea2707088cfce593c9c9f5066624c79a8f41897059b0395bde8a21ad1a6e7dbeaaf30e1a3f9842948e7d2f8a1184125c482df6638fdaa826e4f0f896523d188499cd9,
          0x4746850b2a36f107654b9dde250841a2ecf567ca0ca71495f552a7df2ee407a6,
          -0xf7702ed753c8499c040576e9bea2d81a1cf6b0353d54a07919da49b74593788);
    Added(0x3000000000000, M6_3, 0x4000000000000, G50, M6_7,
          0x40c53f9291e6e2a32b7feecb89ee67edbc6d6d0d52a01b07002ab7ddb5e5c66d,
          0x5abf8f4e0992524597a154ed73d3623bac55ba7e66993e4aec673b023c8d0a62980e580bdc256443b2bc276d752129b63d44e43e8641f1da925a33f1844e50b0a388371ac50f61ca53cfed49d9d10d56f28061e38df52e6d922f2c142b6408656469042ac7f558200d3da6c85494c802a43414ae087d000ddeeef066a650f,
          0x2e0c464a6a5ca58b13ab011e985253288cc9a8c80699537a583ba2a9cbbbe4d2,
          -0x3dab366f15a8e29beac267a7277e48485af3cd8faf5e455bb7b5e5ca8220c812);
  }

  const ROWS6: seq<seq<byte>> := [
    Row(0x7e2e0e450b5cc908b8b9c36fb5b23ee72b9725ce2072eddece16f74bc53c1431,
        0x237e7dbe00545b93f052210eb7a0da24ded303d4a63607d69fe62b434f460efb,
        0x71afa699b11155e375320f1583e47f22231094e69f0bfd10013575ed6701b430),
    Row(0x21142e9c2b1c28e0f435ffda9f759fec65839eaafa141e665ce6f9b3953b61d,
        0x731fbc78f89a1c9b84bf5fb2c9be9551e87a1f3b38ef10ea423c1c473b50d6,
        0x4c4d6f3347e15808b6dae0836bba15e3bf960c225ecec119e430c71848f81880),
    Row(0x193fddaaa7e47a22dbde712bf7ee0cdf6c75f5a651403c1418f7eccfc17d1fc9,
        0x38bf9500a88f9fa86ec7b6c4779176be6b916227b0b9f51b2f0cddfc988f1970,
        0x6a6fb99ebf0d49695080f58239241276a2f61e5a18d1462c1fd2c93c37e8876f),
    Row(0x75f76914a31896ead71d11378f71acc12416bb38f893f09d6a46c1bb560855eb,
        0x136fda9f42c5eb1090a92a831dcf5d8c939d7010f286ff8eeeb122b5b6e423c6,
        0x22183510be8dcba2a87d8a5c3bb588a0f364b9d9ff82c08f94cdfb1a305bdd1),
    Row(0x6a071ce17b806c030d13a6e610211e3da08ed880ca7c58304af766385ead2d14,
        0x1387c441fd40426c22bbfe52be927ad3b063de9ec47da45f9d5a710143307a7f,
        0x3171b26aaf1edc920d7b4848bb477ca0722b5a3d7f0e4413b5d3c3d187978af8),
    Row(0x221fd4873cf0835a4f55fe37a4875150ff7bb84c2275e119a92f319097564ca8,
        0x6c514a63344243e9d4a1f89353ddbd58a6bf14d61770a4f1a60db7d8b28a47d1,
        0x48daa596fb924aaafce0dd4c410f030efb73e0e9ba0a032d2322204f3a156341),
    Row(0x676dd6fccad84af731afc708d21e17cea847254b2e38aca06eca8e665ca59cc7,
        0x58c837fa0e8a79a9cdf5b88f346277ac9941f9e3ef41820614f61d5dc84c9793,
        0x1c4f73f2c6a57f0adcc2e77d4935d66a1ddcbbf37b56a01b0cf9688596fc9058),
    Row(0x795ac80d1bf64c42f421c3832fe33848829d4ce054c663ad0e7a4fbd305fa0bb,
        0x70459adb7daf675ceb1d79c9781cc7e573dfc9b4c3c1cf61b36e706efc7c3484,
        0x5fe162848ce21fd39fdf9ee51f8c78dc572696234b02dcca1b91db4991b42bb3)
  ]

  lemma Rows6_1()
    requires Fermat()
    ensures |ROWS6| == 8
    ensures IsRow(ROWS6[0], Mult(0x1000000000000, BASE), Factor(6))
    ensures IsRow(ROWS6[1], Mult(0x2000000000000, BASE), Factor(6))
    ensures IsRow(ROWS6[2], Mult(0x3000000000000, BASE), Factor(6))
    ensures IsRow(ROWS6[3], Mult(0x4000000000000, BASE), Factor(6))
  {
    hide Fermat, IsMultiple, IsRow, Row, Mult;
    Points6();
    RowIs(0x1000000000000, G48, Factor(6),
          0x7e2e0e450b5cc908b8b9c36fb5b23ee72b9725ce2072eddece16f74bc53c1431,
          0x237e7dbe00545b93f052210eb7a0da24ded303d4a63607d69fe62b434f460efb,
          0x71afa699b11155e375320f1583e47f22231094e69f0bfd10013575ed6701b430,
          0x1, -0x1,
          -0x21726473b7c616d573f6abf649afd7dcb183bd74ef71b5b83b29dcd012bc4ae3c1b6741b050147aea45b4520aaf5064d8d5f84d62d654084405931512595f478);
    RowIs(0x2000000000000, G49, Factor(6),
          0x21142e9c2b1c28e0f435ffda9f759fec65839eaafa141e665ce6f9b3953b61d,
          0x731fbc78f89a1c9b84bf5fb2c9be9551e87a1f3b38ef10ea423c1c473b50d6,
          0x4c4d6f3347e15808b6dae0836bba15e3bf960c225ecec119e430c71848f81880,
          0x0, -0x1,
          -0x14a46efa6bec93a85552eb196f87e6ab00f139c76e3864c4c0f795d31a550073018b3fa1f82d2e43cff0abc11cb93968e4c7f2ae6256e3ce2590811686359ce0);
    RowIs(0x3000000000000, M6_3, Factor(6),
          0x193fddaaa7e47a22dbde712bf7ee0cdf6c75f5a651403c1418f7eccfc17d1fc9,
          0x38bf9500a88f9fa86ec7b6c4779176be6b916227b0b9f51b2f0cddfc988f1970,
          0x6a6fb99ebf0d49695080f58239241276a2f61e5a18d1462c1fd2c93c37e8876f,
          0x0, -0x1,
          -0x29ea6ee3248d99f2a0852810908b8a0b960578139cb4458e012632dbb8225c29ff3911f373c3c8971834eabed1318ef73fff0c8b4828ee25c7eb449234ffbb79);
    RowIs(0x4000000000000, G50, Factor(6),
          0x75f76914a31896ead71d11378f71acc12416bb38f893f09d6a46c1bb560855eb,
          0x136fda9f42c5eb1090a92a831dcf5d8c939d7010f286ff8eeeb122b5b6e423c6,
          0x22183510be8dcba2a87d8a5c3bb588a0f364b9d9ff82c08f94cdfb1a305bdd1,
          0x1, 0x0,
          -0x58c7b7655f1a3ee225ea20ffd9a6235cbad74cd8d404392140e438d1290e3d0f677f58c5ef305b2e587015111c6622a98a5b43ea6b98403857a5646165797b);
  }

  lemma Rows6_5()
    requires Fermat()
    ensures |ROWS6| == 8
    ensures IsRow(ROWS6[4], Mult(0x5000000000000, BASE), Factor(6))
    ensures IsRow(ROWS6[5], Mult(0x6000000000000, BASE), Factor(6))
    ensures IsRow(ROWS6[6], Mult(0x7000000000000, BASE), Factor(6))
    ensures IsRow(ROWS6[7], Mult(0x8000000000000, BASE), Factor(6))
  {
    hide Fermat, IsMultiple, IsRow, Row, Mult;
    Points6();
    RowIs(0x5000000000000, M6_5, Factor(6),
          0x6a071ce17b806c030d13a6e610211e3da08ed880ca7c58304af766385ead2d14,
          0x1387c441fd40426c22bbfe52be927ad3b063de9ec47da45f9d5a710143307a7f,
          0x3171b26aaf1edc920d7b4848bb477ca0722b5a3d7f0e4413b5d3c3d187978af8,
          0x0, -0x1,
          -0xd2b4c34732d320d414b816f8e56cb9b40ec22fd57d220784fd5c9fa81917fd7857b5a7199e7a2a01b945feb84321b987ad05db879a75b9db64dcfafd991ee28);
    RowIs(0x6000000000000, M6_6, Factor(6),
          0x221fd4873cf0835a4f55fe37a4875150ff7bb84c2275e119a92f319097564ca8,
          0x6c514a63344243e9d4a1f89353ddbd58a6bf14d61770a4f1a60db7d8b28a47d1,
          0x48daa596fb924aaafce0dd4c410f030efb73e0e9ba0a032d2322204f3a156341,
          0x1, 0x0,
          -0x3a77b23ad6849e4c39229e8942d8847e487080ff72b6ca6cad217057d47d456027a0a14d7959aab2909af47ef13dda294d53ed5d5306274e5297c8c8be0a117);
    RowIs(0x7000000000000, M6_7, Factor(6),
          0x676dd6fccad84af731afc708d21e17cea847254b2e38aca06eca8e665ca59cc7,
          0x58c837fa0e8a79a9cdf5b88f346277ac9941f9e3ef41820614f61d5dc84c9793,
          0x1c4f73f2c6a57f0adcc2e77d4935d66a1ddcbbf37b56a01b0cf9688596fc9058,
          0x1, -0x1,
          -0x3a0df638ea891db6290556c4695e071453c52c1d7cfe635c12cd79c01c765c9fe44c69751a4ddd93c06a6d9db7e3f7a75d91c025195f3d3ac3cb496e1c85037a);
    RowIs(0x8000000000000, G51, Factor(6),
          0x795ac80d1bf64c42f421c3832fe33848829d4ce054c663ad0e7a4fbd305fa0bb,
          0x70459adb7daf675ceb1d79c9781cc7e573dfc9b4c3c1cf61b36e706efc7c3484,
          0x5fe162848ce21fd39fdf9ee51f8c78dc572696234b02dcca1b91db4991b42bb3,
          0x1, 0x0,
          -0xfb80b1365e5722cf6baaaf67f1059d50ac621a6437934178f0596ab0b509a6455cd2623d6fb982a6df5d1db5cb85bd621d3de1d961e41cebcd2b6155177399b);
  }

  lemma Power6()
    ensures Pow(256, 6) == 0x1000000000000
  {
    Power5();
    assert Pow(256, 6) == 256 * Pow(256, 5);
  }

  const TABLE6: seq<seq<byte>> := TABLE5 + ROWS6

  lemma Table6()
    requires Fermat()
    ensures AreRows(TABLE6, 7)
  {
    hide Fermat, IsRow, Row, Mult, Pow, Factor, IsBlock, AreRows, ROWS6, TABLE5;
    Rows6_1();
    Rows6_5();
    Power6();
    Together(ROWS6, 6, 0x1000000000000);
    Table5();
    MoreRows(TABLE5, 6, ROWS6);
  }

  const M7_3: Point := Point(0xceb59a95601dd68d84a34cf289ba4bf943583e7113fc3374433b7ed36905232,
                          0x1a781b6de1c34ced784426cce7055d4fc9a4f977b025f8a0f993582b61615a85)
  const M7_5: Point := Point(0x60fba0618ab41287a32799f605665a8e8ff9f9f986e51d362c1ecf68a8476ff2,
                          0x50fee504978daffe84637a29ae6d339127f584bcceb8b9a6b88f645080245d2f)
  const M7_6: Point := Point(0x7e97763970e96e86fd444e2b16752f6d95def8555f6f8f25c8278f89e18cfa41,
                          0xe85b4c08f01ee8f8c01916e8d44ec3fd2938c6da58ad86e79d07ca1146b6217)
  const M7_7: Point := Point(0x208622a2f72f9fb6c09d6f4c647af6698cdba3b5daf6d302b3d2a0b25764cb8,
                          0x14467120e8a31d04aad8776ddcfb459dfc13e47201e1918a9e1c9cba531169f5)

  lemma Points7()
    requires Fermat()
    ensures IsMultiple(0x100000000000000, G56)
    ensures IsMultiple(0x200000000000000, G57)
    ensures IsMultiple(0x300000000000000, M7_3)
    ensures IsMultiple(0x400000000000000, G58)
    ensures IsMultiple(0x500000000000000, M7_5)
    ensures IsMultiple(0x600000000000000, M7_6)
    ensures IsMultiple(0x700000000000000, M7_7)
    ensures IsMultiple(0x800000000000000, G59)
  {
    hide Fermat, IsMultiple;
    Powers60();
    Added(0x100000000000000, G56, 0x200000000000000, G57, M7_3,
          0x2253acdd7d4e88bb3a76348c91c6edec377667266beabc428835edb459a10af4,
          0xc6f2e1b060ac4190dbf38d5cb4d3c8a6e6f0ff0aa2b89d9b5211a6b0da1d56cd3164be1db46e19a384c0f445a513025650e2e9755f6aa4ec3d6517c4250f33630c62f51a3d69159fd22b439c48437c41ac3f1af134d3a4e33e655b4a42be8a03abb75a389e7f0f06670c5a933c7cd2b5975ee286921fb461f1304a35026f7c,
          -0x4bb83d671d9898ad5af8ceea402e8970e6057714b241fcbf74b48372dcbbc2c2,
          -0x4ee67043f4a06d3007ea9509f2f696691cde5b6765f572caa63e99142b59f150);
    Added(0x100000000000000, G56, 0x400000000000000, G58, M7_5,
          0x4dd99a953f4fc992a66a1262cc82ad43be46d92335f0ebe3af0b86138bf82622,
          0x1dc635449b3aafb6403203eea554fdda5575ba1d805fa1ccfc0d70da35074d988156ff02a4e2fe554852890d2f114e87cf64428f3fe449524090bed9193954c560d70202cb360637dc6eb9907c1bb130ba54130eacbfd902b040dddf57d1254d161012afd55880b92a4c9fb41aea3b8e003c46070d1954633a7e1f4fd56733a,
          -0x46bd9ac05c4cbaabe3579af6c66d065cd74f523d1d89afefffbc498a94b80a8b,
          -0x9eab7f0ca3374d461e72fc0be65c470a782a8411feb6582f1ef0a1979ae11932);
    Added(0x200000000000000, G57, 0x400000000000000, G58, M7_6,
          0x1f13e7e3330cc57b13ee05a15e583e41890fadcf20f2095cdab00c6de5536cbb,
          0xe2e86f49d418fabae90aef998883410400e354df35490afb581733fed4e47dfd4394fb8175b87a2aa00a613d9fa1f44391b5a03945697e51e3f2a4e8fea4292891b0c744d2b108eff5bb4062ff8d81292a1e32d09bda88df67346466a16d3cd7c1db923a14cb11899fb804e13c01c774fd961a01fc66b1e552adabcd8cf449,
          -0x2d07ca5471809b79f402a18a3c39609fd752d0e8cf26e790acf48b7cd874a0c1,
          -0x5550a17ce6cecb65dbb235ab2998ad7a08a2bae6607b4703082f98414dcd6ae1);
    Added(0x300000000000000, M7_3, 0x400000000000000, G58, M7_7,
          0x1a50a1dce2981ec2592f35b93fe6753647379f8a3fc85c42f63b500bb30f0ea7,
          0x18ec77d776107b121870096feedf74c58b71090a321d311df3b60ecf4a44983c50b05bcb712720d0b0e8882343f292e4dc21e0a3882c3579b4d2ecab5c14936b8ae8905cd7e942521ea460d63bb997870038badaa94eba4217b8e70e3e83bc281535697e1d0856e8d2e5e21c195b8d81beeea747280b1e2b3c0e01dabd3f57,
          -0x18a46aeb241151b30294effdfd13efc817f3e3b90b372eca3193c2454bb52687,
          -0x221ab9b119ac9ec83bf159a4c52c1522c97ea13e8d16d762bb8feb8285117e4f);
  }

  const ROWS7: seq<seq<byte>> := [
    Row(0x4789d446fc9172329300cfd23b50f22d49be7dc70d71cd4f4e59214fe194961a,
        0x2b44c043677daa35dc0bffab21687891b8dedd70687df2e72879852d5d7cb208,
        0x60c52eef2bb9a4e43eacbbcd484f9067fac6d18e99daf4671a1c87ab074eb78e),
    Row(0x10bc9c312ccfcaab0e4c16b0d53028f5b06b9237c9f3551a0b5d89bc3bfd8bf1,
        0x70d77248d9b6676defbc4056ba492eb244c7699b54a48cab702bc5c27cae6d11,
        0x63755bd3a976f413794513e4708e85d198699ef4ed1781e0aa8ae84b3ec2a05b),
    Row(0xd8cc1c48bc16f849ff9f1fdbe69b890356f75909ee63569b55fa03e2ad10853,
        0x2763751737c52a56508e5b9c0fa1020f5dda7d5ec165bbd83dc7101897f1acb7,
        0x70c2dd8a7ad166e7cfa86230d43c4956f0b44e7e77b460a5029402d36eb419a9),
    Row(0x2e0fac63639484959733c1f367e09b5cee2e7ea946c6518d656194509f6fec0e,
        0x32b8613816a53ce5e40982e00d85256474252f0ad776817a91d4967db8ed7e13,
        0x4179215c735a4f41f89fd4d9a0e4db2e6ac83a67087886d079e7f7bee448cd64),
    Row(0x700344a30cd99d76e13be033a906d90297fb8ac347d39c708c7094e7d7dced2a,
        0x31fa85662241c286278b141fb3d38e1fb7ef7eb6559dd6dce4ae33b9286bcd34,
        0x24bb2312a99524899bc1b7e12b389123c12029879833502daf826c422e3622f4),
    Row(0xfee3e871e1880088ebd434376cfbcd23cb49418461b4948b1a8ed1732de67c3,
        0xd1d2af9ffeb5d168945df99a3ba1bad687284c304fa679441f80c2af5f85c6b,
        0x16acd79718531d764004197ba79ac19330b822a159226579a9da8aa132621edf),
    Row(0x123e0ef6b93023093ecea07916b3963763462a36a432245a72df72af2d9b1d3d,
        0x164ed34b1816170016e24e62a342f50494e19ead5f90febac959c6c57887b6ad,
        0x78da0fc61073f3eb877bf6d3b9a4de2761ae2cea3a911513487ed94c192fe69a),
    Row(0x2d25deeb256b173a2419afbc06c28bdd2c47e31870f01a8e5bf15d28e52bc66a,
        0x54aa4b316b38ddd1100f1584801797371f77e151ae9e7e6a29f80f1680c3a94,
        0x134610a6ab7da7602aeb1d2a666eec170b28789c66e54dafdfc8468d19267cb8)
  ]

  lemma Rows7_1()
    requires Fermat()
    ensures |ROWS7| == 8
    ensures IsRow(ROWS7[0], Mult(0x100000000000000, BASE), Factor(7))
    ensures IsRow(ROWS7[1], Mult(0x200000000000000, BASE), Factor(7))
    ensures IsRow(ROWS7[2], Mult(0x300000000000000, BASE), Factor(7))
    ensures IsRow(ROWS7[3], Mult(0x400000000000000, BASE), Factor(7))
  {
    hide Fermat, IsMultiple, IsRow, Row, Mult;
    Points7();
    RowIs(0x100000000000000, G56, Factor(7),
          0x4789d446fc9172329300cfd23b50f22d49be7dc70d71cd4f4e59214fe194961a,
          0x2b44c043677daa35dc0bffab21687891b8dedd70687df2e72879852d5d7cb208,
          0x60c52eef2bb9a4e43eacbbcd484f9067fac6d18e99daf4671a1c87ab074eb78e,
          0x1, -0x1,
          -0x20b7f05e525ba0e67a506892332b44a3f84d226bf6f427d44c4377f804f253ed15f74cd79bfc7e116865a99f45e605d93be9fff50d469fbee86cbd1370406a32);
    RowIs(0x200000000000000, G57, Factor(7),
          0x10bc9c312ccfcaab0e4c16b0d53028f5b06b9237c9f3551a0b5d89bc3bfd8bf1,
          0x70d77248d9b6676defbc4056ba492eb244c7699b54a48cab702bc5c27cae6d11,
          0x63755bd3a976f413794513e4708e85d198699ef4ed1781e0aa8ae84b3ec2a05b,
          0x0, 0x0,
          -0xf95893a71e30c2cc9d77074198947ee0a58498338312841bf3e9f159c1fe3ee08e5f7d415f57d74cbd5e39d704692dc37221fa03a940d393b085e79083bb079);
    RowIs(0x300000000000000, M7_3, Factor(7),
          0xd8cc1c48bc16f849ff9f1fdbe69b890356f75909ee63569b55fa03e2ad10853,
          0x2763751737c52a56508e5b9c0fa1020f5dda7d5ec165bbd83dc7101897f1acb7,
          0x70c2dd8a7ad166e7cfa86230d43c4956f0b44e7e77b460a5029402d36eb419a9,
          0x0, 0x0,
          -0x1b6368795c6c861692c97526de6d837994e60fe5893c874590c32d1afdb161a34dd7eb8c7a3ae946a65db1ab5357215b7752f15d30d1943509bbc68a281951f);
    RowIs(0x400000000000000, G58, Factor(7),
          0x2e0fac63639484959733c1f367e09b5cee2e7ea946c6518d656194509f6fec0e,
          0x32b8613816a53ce5e40982e00d85256474252f0ad776817a91d4967db8ed7e13,
          0x4179215c735a4f41f89fd4d9a0e4db2e6ac83a67087886d079e7f7bee448cd64,
          0x0, -0x1,
          -0x25510c6acf387a137b02c2bdce400097680058e50d37ac3b52d90df3fb498690b21c63ddf9cfcb0e7ab48cf243bec26ab119007b35f65797d558e3a318365a4e);
  }

  lemma Rows7_5()
    requires Fermat()
    ensures |ROWS7| == 8
    ensures IsRow(ROWS7[4], Mult(0x500000000000000, BASE), Factor(7))
    ensures IsRow(ROWS7[5], Mult(0x600000000000000, BASE), Factor(7))
    ensures IsRow(ROWS7[6], Mult(0x700000000000000, BASE), Factor(7))
    ensures IsRow(ROWS7[7], Mult(0x800000000000000, BASE), Factor(7))
  {
    hide Fermat, IsMultiple, IsRow, Row, Mult;
    Points7();
    RowIs(0x500000000000000, M7_5, Factor(7),
          0x700344a30cd99d76e13be033a906d90297fb8ac347d39c708c7094e7d7dced2a,
          0x31fa85662241c286278b141fb3d38e1fb7ef7eb6559dd6dce4ae33b9286bcd34,
          0x24bb2312a99524899bc1b7e12b389123c12029879833502daf826c422e3622f4,
          0x1, -0x1,
          -0x27521d31938964a6b9a54e4490d6c3b1111a91b59d0cbdce8f98520e4691da5e09eefa0a16a058ae057ee0e35a14b2cd8f9545648f08e84912f7f974ce6fbba0);
    RowIs(0x600000000000000, M7_6, Factor(7),
          0xfee3e871e1880088ebd434376cfbcd23cb49418461b4948b1a8ed1732de67c3,
          0xd1d2af9ffeb5d168945df99a3ba1bad687284c304fa679441f80c2af5f85c6b,
          0x16acd79718531d764004197ba79ac19330b822a159226579a9da8aa132621edf,
          0x1, -0x1,
          -0x933d5c5b87205170b9de94683f4d555497844e3cf9a7d160f8a002c58f33ff703f13383f9d773235ad76350de860729e1572f46faec51f9c9001c3cd1cc2937);
    RowIs(0x700000000000000, M7_7, Factor(7),
          0x123e0ef6b93023093ecea07916b3963763462a36a432245a72df72af2d9b1d3d,
          0x164ed34b1816170016e24e62a342f50494e19ead5f90febac959c6c57887b6ad,
          0x78da0fc61073f3eb877bf6d3b9a4de2761ae2cea3a911513487ed94c192fe69a,
          0x0, 0x0,
          -0x34d07eb8e60323882d96238136117a918868bad90f769f14af44f83cdb3067eb1f1361b0afd3f385600a91609ec5f85a97f3deccfdb4a8d27648c384c5350e);
    RowIs(0x800000000000000, G59, Factor(7),
          0x2d25deeb256b173a2419afbc06c28bdd2c47e31870f01a8e5bf15d28e52bc66a,
          0x54aa4b316b38ddd1100f1584801797371f77e151ae9e7e6a29f80f1680c3a94,
          0x134610a6ab7da7602aeb1d2a666eec170b28789c66e54dafdfc8468d19267cb8,
          0x1, -0x1,
          -0xda4ac90b37b3dbd586a32d128853d9f2b949cca7cbe3945a316936f364f50040ed39bfa51a93c35b513c2fc631a73d6c8f7990e203ea9b23daac154ca8f862c);
  }

  lemma Power7()
    ensures Pow(256, 7) == 0x100000000000000
  {
    Power6();
    assert Pow(256, 7) == 256 * Pow(256, 6);
  }

  const TABLE7: seq<seq<byte>> := TABLE6 + ROWS7

  lemma Table7()
    requires Fermat()
    ensures AreRows(TABLE7, 8)
  {
    hide Fermat, IsRow, Row, Mult, Pow, Factor, IsBlock, AreRows, ROWS7, TABLE6;
    Rows7_1();
    Rows7_5();
    Power7();
    Together(ROWS7, 7, 0x100000000000000);
    Table6();
    MoreRows(TABLE6, 7, ROWS7);
  }

  const M8_3: Point := Point(0x132a065edb5c4041c59a8b49ca8a61df2ca8caa6ccea10d88007640e33263467,
                          0x534ef70a3532f780762d6b7b85e5cfd1b390b0dc31fe8ea59865fa3e1dd7de2f)
  const M8_5: Point := Point(0x35ff8f7cdb0869347f58215a74ba0a8f63c0310fb99a0b275072429c7b04c2cd,
                          0x50e1cc6871155f055469e86953bb606b4e1b5717dfe1a8a90fc49cbaa6ce8b8a)
  const M8_6: Point := Point(0x6c6365c17f4bb26f6b4e87079a8328e54012bc64947385a12af2120a622e0213,
                          0x1c5703a9d3d1a968c8320a0056a9ec8e08dc332a60b8d3eb0309499e5494c782)
  const M8_7: Point := Point(0x68b818a50b31d52cb8300141be7cea83479de51848c1e18f3b944c675bd887d1,
                          0x1e8b233ec00766b228ee74d7536d8f439685965535addc774728e4dfed398826)

  lemma Points8()
    requires Fermat()
    ensures IsMultiple(0x10000000000000000, G64)
    ensures IsMultiple(0x20000000000000000, G65)
    ensures IsMultiple(0x30000000000000000, M8_3)
    ensures IsMultiple(0x40000000000000000, G66)
    ensures IsMultiple(0x50000000000000000, M8_5)
    ensures IsMultiple(0x60000000000000000, M8_6)
    ensures IsMultiple(0x70000000000000000, M8_7)
    ensures IsMultiple(0x80000000000000000, G67)
  {
    hide Fermat, IsMultiple;
    Powers66();
    Powers72();
    Added(0x10000000000000000, G64, 0x20000000000000000, G65, M8_3,
          0x597df7b398a899dd51d8f27adc908c846f9aed490962830b1b0a881fa2be8ad,
          0x853ebf146884bb649633607a87274a573bd114a52d84797de94288c773e7ad9fefde1ae5b836d0c75d53a24c3ef6e775c767bf9736cbfe2d80141d34bd59f6dc2fcc3e57a67e692c5862d574f71b9d9d2a3292f6d52d3d29f7ecb5fe7b02157dbf38b90d0feae8f97799e366ed7aa97b8144a6ed6474e998934e41001173,
          -0x3a61ffe67caca7a86a2d2c052d9aa96846febdf39eed494a239a52478fd5656b,
          -0x740135e997eff827cb30e338a38bf93308d6cd9fc2907df885c0cac8c4f379c);
    Added(0x10000000000000000, G64, 0x40000000000000000, G66, M8_5,
          0x39e1efd04550c1cc80275e47325085e0f1a8e8e1dbc92f07d00e5924d360e129,
          0x1bf86d2424ba8e4e00f832954cddd5c92831cf158f107937fe9f95ca0f50a457bcb86f2f16e3d8cb8e1ded9923ad4f0dad0fdd7bbac525b018ff228a9d3b17ade9da08efd7a3a522c99e449529107db3ad021302e79cd4cd987f5193ea85678154f1c0b3c4f6c0f8b3d5120c324109034cc0a491322ec8894e67699427aff9,
          -0x2b3b9466b051db12770a0b5030705c5e3f48e05615eb84e216fbd5dc294e9dd3,
          -0x7a77eae2bdab94e8acc5351745f7737efe7bcab24cc59d6b3fab1a50b0660293);
    Added(0x20000000000000000, G65, 0x40000000000000000, G66, M8_6,
          0x242459464e0e524de1086759037c8d3f1aa29c3081d3518348babe4e4d216582,
          0xf9bc53862fa3d265ef3cc98e059adb6aa07065fc86bda9e6f4c43095953304ef84d06da5537c483a38888b7f452213b8432b91e6f3de4d7e7b9b661ebd72ab9696fb94243e3312860db406e0fec15dc46b023885732583eb0ce678703aa1d9d5e04b8e4e82253af334852b2a0993d17577e4e33585465e3b629ff3e5e6d98,
          -0x24c75d06e66e26362c1f21dd5419982ecb003e13ca0854b2be436022c410fd8e,
          -0x3cfe82947f8c721f11f600c988201dacae5f47d48faad110a7f5ca23d4118bbf);
    Added(0x30000000000000000, M8_3, 0x40000000000000000, G66, M8_7,
          0x65c7ac5c2c48bb5dee66039471bfaef5e5c7cedb052cd5a2c9d2551f47c123fd,
          0x9093cfa2b45bcc133c2cf9f8e9de9212ef2eef14732233f19b90adb9b1759f61669294b88d9b3b9196f8bae8a32a9f27ac556ab0763dd70f7f3979c75b6cfad5accf24c75851b10acfcd2237c92eaa1ad28298c8d2c157e9b632d4541562ca12022d90e5654fbcae893d1d7b761bed11d446fe04e3c0a5fa05e749383bb258,
          -0x909ca1958e2316aca963404cc4113bf34199c68e8e0203068b37bb61de8892,
          -0x5fcd257d3dba2ff9ed4716e99e96b57d0dd20877ede9a751298ebbb6d548be60);
  }

  const ROWS8: seq<seq<byte>> := [
    Row(0x2102fdba2b20d65009207a1d717af1b95397da89e575f51b51138ec78df6b0fe,
        0x654878cba97cc9fbb1b73bbcdabc06e5548991878faa60f1cd2a65e777d1f515,
        0xad725db29ecb2ba3a1af517aa7da41536bca7681251ad29969ee405055ce6a1),
    Row(0x4aefcffb71a036501af07a0bf7d15ed7b67544b570ce1bc5dc4267b1834e2457,
        0x4f675f5302399fd977afc6624312aefa537d5268e7f5ffd7fec7bc0c9b056f85,
        0xbccbb72a2a86561870a6eadd0945110cd2bef118998483bc32d36360415171e),
    Row(0x4024f0ab59d6b73eb092e031bb5b6df286e7e63565147dcd185e962feab1a9c8,
        0x6678fd69108f37c23bc7f6c5507031b0e0397b82fee89f7e186d5e4c50fe1296,
        0x2d42e2108ead47014f73cc9f789eaefc07f68c48572d33f21586fa31636863c2),
    Row(0x676b2608b8d2d322eba13f07084550106155985d313f4c6a97f5131594dfd29b,
        0x420bf3a79b423c6e1bb687ae752ae09f914e690b131e064c21717b0d0f537593,
        0x745d2ffa9c0cf1e07bff0cb1bc3135b08671b6ec311b1b808138ba651c5b2b47),
    Row(0x1ae23ceb960cf5d0d511c70edf0155dbea5b260826479d81bf525a1e2bc9c8bd,
        0x6e15be54c1dc839d3c209c3c8756afab1db8827997bb3d06036df5721d34e6a,
        0x58ded861278ec1f77dc41549dab7ca0532351cb5ceb1dab05b725d871932994a),
    Row(0x2ff39de85485f6f95ce382f8bc26c3a8c8c976c5cc454e49d8173793f266c55c,
        0x8ba696b531d5bd833809107f12d157348eeef8ef52c598c2dfb5ba8b6c2c9a8,
        0x120633b4947cfe54ea3d7a3ff1a671cb04e05517d4ff481177ed3eeec3efc57a),
    Row(0x35d30a99b4d5918570be739594f0a4c04ee7b13cecebfae80b94987891610042,
        0x7433be3cb393bdee11e761911ea79c6de237b6d7e6fbe0682bd31474912100a,
        0x2d873ede7af6da9f583381fd5a76847c575d3de4b05c51a3ff7944c05ce997f4),
    Row(0x2e773654707fa7b6b093fee6f5a64806fab8b7eef4aa81d9157a316443373409,
        0x543618a0160025318a275d3bae21d6ca20d59175015e1f5aa6202e14e5df981,
        0x4b1443362d07960d04202cb8a29aba2caa6f0a259dce46930deabdf4974c23c1)
  ]

  lemma Rows8_1()
    requires Fermat()
    ensures |ROWS8| == 8
    ensures IsRow(ROWS8[0], Mult(0x10000000000000000, BASE), Factor(8))
    ensures IsRow(ROWS8[1], Mult(0x20000000000000000, BASE), Factor(8))
    ensures IsRow(ROWS8[2], Mult(0x30000000000000000, BASE), Factor(8))
    ensures IsRow(ROWS8[3], Mult(0x40000000000000000, BASE), Factor(8))
  {
    hide Fermat, IsMultiple, IsRow, Row, Mult;
    Points8();
    RowIs(0x10000000000000000, G64, Factor(8),
          0x2102fdba2b20d65009207a1d717af1b95397da89e575f51b51138ec78df6b0fe,
          0x654878cba97cc9fbb1b73bbcdabc06e5548991878faa60f1cd2a65e777d1f515,
          0xad725db29ecb2ba3a1af517aa7da41536bca7681251ad29969ee405055ce6a1,
          0x1, 0x0,
          -0x18bce492a1a9dfe0f6878ff800aa1748f9da0e20e6f90cd1660a2f50ee2d13ae69724de8e8c1086b862c461bb54bb778298e227e56efdc0f9a6d5cfdb40a26f);
    RowIs(0x20000000000000000, G65, Factor(8),
          0x4aefcffb71a036501af07a0bf7d15ed7b67544b570ce1bc5dc4267b1834e2457,
          0x4f675f5302399fd977afc6624312aefa537d5268e7f5ffd7fec7bc0c9b056f85,
          0xbccbb72a2a86561870a6eadd0945110cd2bef118998483bc32d36360415171e,
          0x0, 0x0,
          -0xdcdfa3fa95caa6b0861b5855829f920b5429c9bac025e798092696a992d2a0457cea510b06a33eadf958403e679a4f01c7f84aea9fabc2fb5bdd3d150ef8a6);
    RowIs(0x30000000000000000, M8_3, Factor(8),
          0x4024f0ab59d6b73eb092e031bb5b6df286e7e63565147dcd185e962feab1a9c8,
          0x6678fd69108f37c23bc7f6c5507031b0e0397b82fee89f7e186d5e4c50fe1296,
          0x2d42e2108ead47014f73cc9f789eaefc07f68c48572d33f21586fa31636863c2,
          0x0, 0x0,
          -0x7fde572f7cf9330a0029dedd5c23a01efde0641da1d2fe3fac38786643f9fc3682b727373630c5b1ea00270359739e49a7fe81bcf4197f842fce83e33990244);
    RowIs(0x40000000000000000, G66, Factor(8),
          0x676b2608b8d2d322eba13f07084550106155985d313f4c6a97f5131594dfd29b,
          0x420bf3a79b423c6e1bb687ae752ae09f914e690b131e064c21717b0d0f537593,
          0x745d2ffa9c0cf1e07bff0cb1bc3135b08671b6ec311b1b808138ba651c5b2b47,
          0x1, -0x1,
          -0x2e5d7901d2decb1a4a6c9476c49a934bcb98071d04adf78ca06c881489f681345be34a019bca0324f8d4a0de55e97b1c5b070e340ef68fc1313b3718683351ff);
  }

  lemma Rows8_5()
    requires Fermat()
    ensures |ROWS8| == 8
    ensures IsRow(ROWS8[4], Mult(0x50000000000000000, BASE), Factor(8))
    ensures IsRow(ROWS8[5], Mult(0x60000000000000000, BASE), Factor(8))
    ensures IsRow(ROWS8[6], Mult(0x70000000000000000, BASE), Factor(8))
    ensures IsRow(ROWS8[7], Mult(0x80000000000000000, BASE), Factor(8))
  {
    hide Fermat, IsMultiple, IsRow, Row, Mult;
    Points8();
    RowIs(0x50000000000000000, M8_5, Factor(8),
          0x1ae23ceb960cf5d0d511c70edf0155dbea5b260826479d81bf525a1e2bc9c8bd,
          0x6e15be54c1dc839d3c209c3c8756afab1db8827997bb3d06036df5721d34e6a,
          0x58ded861278ec1f77dc41549dab7ca0532351cb5ceb1dab05b725d871932994a,
          0x0, -0x1,
          -0x15dcc2a65564a357627e42d7beb9302c40c445caf1036bb2e1fdd184b846851d9c6866287b70e45abeb8739740d96e3f9f4bd4cf2d3827bac9f84fba2e96ff0a);
    RowIs(0x60000000000000000, M8_6, Factor(8),
          0x2ff39de85485f6f95ce382f8bc26c3a8c8c976c5cc454e49d8173793f266c55c,
          0x8ba696b531d5bd833809107f12d157348eeef8ef52c598c2dfb5ba8b6c2c9a8,
          0x120633b4947cfe54ea3d7a3ff1a671cb04e05517d4ff481177ed3eeec3efc57a,
          0x1, -0x1,
          -0xf60462fab39233ca1e65ad82e27e9b3fdaa721d86850c4f7a485d43c08dff63e25bbbd5099028f1847eeda5765a7cb37bcf905bf09ba2bb699c225b5686a052);
    RowIs(0x70000000000000000, M8_7, Factor(8),
          0x35d30a99b4d5918570be739594f0a4c04ee7b13cecebfae80b94987891610042,
          0x7433be3cb393bdee11e761911ea79c6de237b6d7e6fbe0682bd31474912100a,
          0x2d873ede7af6da9f583381fd5a76847c575d3de4b05c51a3ff7944c05ce997f4,
          0x1, -0x1,
          -0x1002bbb0612f0c6bcc321a2defd42120016aaaedb793c03c92e19d0d73ce6d9f30c072b71231671f60f64ae5bf85ec0b4198b8566c18c1d7170f75a9afecb670);
    RowIs(0x80000000000000000, G67, Factor(8),
          0x2e773654707fa7b6b093fee6f5a64806fab8b7eef4aa81d9157a316443373409,
          0x543618a0160025318a275d3bae21d6ca20d59175015e1f5aa6202e14e5df981,
          0x4b1443362d07960d04202cb8a29aba2caa6f0a259dce46930deabdf4974c23c1,
          0x1, -0x1,
          -0xde7a6046f1b7936963e7b3bf0325f6b502db32dcb3d48456c7a70dd028287836f9491fe0655ee6f63e96ec696ae5d17bd4575e61553d448c7d6c5fa00279061);
  }

  lemma Power8()
    ensures Pow(256, 8) == 0x10000000000000000
  {
    Power7();
    assert Pow(256, 8) == 256 * Pow(256, 7);
  }

  const TABLE8: seq<seq<byte>> := TABLE7 + ROWS8

  lemma Table8()
    requires Fermat()
    ensures AreRows(TABLE8, 9)
  {
    hide Fermat, IsRow, Row, Mult, Pow, Factor, IsBlock, AreRows, ROWS8, TABLE7;
    Rows8_1();
    Rows8_5();
    Power8();
    Together(ROWS8, 8, 0x10000000000000000);
    Table7();
    MoreRows(TABLE7, 8, ROWS8);
  }

  const M9_3: Point := Point(0x398c8c8c8e8dac3256749db66b66cb447486132ec414fd516b4eaf0a0fcd15f4,
                          0x7fc5e88a596b4265adbfa221d1f69e234140e3fa1f3b5c39f76def111a7459ca)
  const M9_5: Point := Point(0x3d22b58c663ea91b49e95c17c7da1563cdb6c6ad70a46de9e2f59fd686603f08,
                          0x7240c7e82ba8372733d8bfe20d176abda80965f9f4b7c7799742b63fb03b0eb2)
  const M9_6: Point := Point(0x6e6c09db77eedf33e50185bd1bbcc0b0ef7f4f4fdf4b79ca47645e86f1900608,
                          0x5640b667ac2d72e3ee569f906389cf8bbad999a4f5393f0dc1e0eceb9c916f07)
  const M9_7: Point := Point(0xa8728e5d785180354c86e453192f0f76edc78727d7ffcd4b5009339d2475746,
                          0x7ef39552f5076702a3ea621039065565a0d37fb09323f708ccefd41cded490c8)

  lemma Points9()
    requires Fermat()
    ensures IsMultiple(0x1000000000000000000, G72)
    ensures IsMultiple(0x2000000000000000000, G73)
    ensures IsMultiple(0x3000000000000000000, M9_3)
    ensures IsMultiple(0x4000000000000000000, G74)
    ensures IsMultiple(0x5000000000000000000, M9_5)
    ensures IsMultiple(0x6000000000000000000, M9_6)
    ensures IsMultiple(0x7000000000000000000, M9_7)
    ensures IsMultiple(0x8000000000000000000, G75)
  {
    hide Fermat, IsMultiple;
    Powers72();
    Powers78();
    Added(0x1000000000000000000, G72, 0x2000000000000000000, G73, M9_3,
          0x331fa085a655f38e25ba248cd8b298b6a7f4bfe99f2234cc80b11964bfca1fa4,
          0x1b5f7bdfd4c167ca6d4258138cdf08a9b65f6b51aea65b25e8114065998300537a05afe8db38ad4e521b44ecd35eb581f0c71d7a638cfb4be586cb5026febdcded6206086bf31a1c351d40e7d017346bd192512d258dbbc90613bc649b62c42962c001a01ac9407f10f082100d675e10a0df1e27d75b7d1149ee4cc506a6314,
          -0x6b1eee7de49d7a6ab3a8397798c0573f28ddf3598362601d07234a5d343fcc0a,
          -0xb29d091a000365ee963e3e290b9bf143bb3ed5b6503d8f874a5e69af9a007728);
    Added(0x1000000000000000000, G72, 0x4000000000000000000, G74, M9_5,
          0x310183060300c1576a26b9f2ece6ab4c0ab3495fe1b0556d62d3129e9a49e9c1,
          0x7306c5658cdae9d87338f971cc73c4b8f85c7f75485d5e3afc52860087910039c2c0225c838cf81e2ff59a52e843835bd8a9d1b67449521de17df8d459b2d67368e1b4235452ff24a3fd7468e6844170cdf73a923bce7a73fdbbd937bcc6c844698fa1f6e71777d98486b754ae1873ff1f497c721f00d861ac3343458b6647,
          -0x1e6f55e67758f85632e2b2eb409e90b04ad6e8f14a3fa78eb454750084c0655d,
          -0x902ee3c40ee1491181bfca113c40610e5306af8b4f0615921ebb7874df82d23b);
    Added(0x2000000000000000000, G73, 0x4000000000000000000, G74, M9_6,
          0x5e2ccff68f953a6133086f5be280cd8ebf73343a2f98110f60731f649a2b5514,
          0x16d07549dd393c8fe38f4647536bae9de1083214e52ae71a255bf74b7aebd9ba2ff4a4e54b674b72de55517b92fc50c05c9a9d0a8b189c76121196c991c7ad31cc36442161e31aaa6f68a5914ac170fc1abe51657337d48d5c7601673a85bb7e1981a2ff94442b81c593935eee50438f29dfe2abca998682dac214646103cbc,
          -0x1f4c3c974741495f6a8f15b07aedf5e77e04275f771587ec521073220fe3ba64,
          -0xae100d06a6613a355d04e15becaeebc6bccad07cffa71cd88a5f467af1d65053);
    Added(0x3000000000000000000, M9_3, 0x4000000000000000000, G74, M9_7,
          0x210d88f0d8bd6f58f68f1bf734af39fa99f195208f8d8675a97469f3bddd4e65,
          0xe11ef839f0b79d0f049456186e9c988024eabac813a32e0ab9bc98dd9a462e138c8d5e2edeb2470c2eb108180d79997d536ecb2b6fbca9947bf7b9fd02f46eaf73d111d9a7a39c9029a49a2eb476c45858d007e7a8085d96e169e8ef18789e40cc13bec49c8930b5132c423511e147e620b86633c94b8bf55e1ac6ac9b3e47,
          -0x4964b757c0f2879c339d49c79d1deb2a582664b2a2c4e27bfc30c4b93ba36840,
          -0x9200a204fe053e5c4cb43b5799322d1b61eb404b35ac5ef40626eb6f601df1b6);
  }

  const ROWS9: seq<seq<byte>> := [
    Row(0x582f446752da63f73ef06dfc713eaf1c44157e25f50c2f7eccc4b7c7b66e1f7a,
        0x17038418eaf66f5c2747aff47812196530f6269264c635fb967c54e91c529ccb,
        0xc2a1c4bcda28dc9b21ef18b4e5a1364a81042e8a4488bc4c6317bd320324ce4),
    Row(0x7c558bd1c6f64877d15b0272fbb2d28fb2269e3edb87c059d24dc7d06f1f0447,
        0x5a6a9b30a314dc83c63bd212d55cc5ab0d6d907dbe1c8d22edc4814869bd6945,
        0x404a5ca0afbafc3a50c3a791cbc5fa412bb628ac35a24f0d0ec1524d396463d),
    Row(0x46395bfdcadd9633574b046b668fd2deccbad0cb5b265ee88c1f40070aa743d6,
        0x39527516e7f8ee9804343fd83d5d6967b5c6f728e350598b62bc9e1b2a416fd1,
        0x76579a29e822d016efd4bef154d56fea9c7745bcd1005c2a117fdb2d1a5d9a9c),
    Row(0x43a384dc9e05bdb13ed65f11ec224c1b23cd51a2bca9a37f45b68e7e49c02a17,
        0x2c514bb2a2777c1b5512887750d35ced832284993de80e1333cb51352b434f2,
        0x1160920961548059313916d7a9b0d253fb8bd37ef6b54b53684bd5da8bf1b645),
    Row(0x351e125bc5698e0be9ef63ca453d5559da529f4c8413598fb44d166929dacfaa,
        0x2f637d7491e6e0427dc21bf9d4f1802175c02ca7655c35637a385616369b4dcd,
        0x7f182d06e7ce2a9a71dee19ff9a699fbd603037ac8ab8961d4b49b461af67bbe),
    Row(0x67d4ac8c343e93b0095519d347cd0edacb5a4a5515edc5437a7c8e64ab0168ec,
        0x44acc043241c5217d358254d7f46903caa58e8f4d484b8d809454b728e217522,
        0x556d1c8312ad71bd4adca1c6c96b46848b35fed4918313e11c7d6bbb4f7a5777),
    Row(0x746c6c6d1d824eff4f21f3cb0773646e31f7073e15a3fa3417ef40e30c8d3982,
        0x97abe38cc8c7f05f8b2d0556a99465d0faff82310a3f3dd81f06756b11be821,
        0x577e14a34bee84bd022c3809f7ccebd24c4369559bdc1d430c49c9877ea52da4),
    Row(0x60fa7ee96fd78f42c1e13e826b6d00e9f2fafa103791a5f5f0e268ac61a73b0a,
        0x705304b8fb009295124a5977c0c8d1fff46a4fda060f221194fecebebd4dd72b,
        0x21398e0ca16353fd670b958cb4bd42ecf3c3053e5fad31d8b63d1d354d296ec6)
  ]

  lemma Rows9_1()
    requires Fermat()
    ensures |ROWS9| == 8
    ensures IsRow(ROWS9[0], Mult(0x1000000000000000000, BASE), Factor(9))
    ensures IsRow(ROWS9[1], Mult(0x2000000000000000000, BASE), Factor(9))
    ensures IsRow(ROWS9[2], Mult(0x3000000000000000000, BASE), Factor(9))
    ensures IsRow(ROWS9[3], Mult(0x4000000000000000000, BASE), Factor(9))
  {
    hide Fermat, IsMultiple, IsRow, Row, Mult;
    Points9();
    RowIs(0x1000000000000000000, G72, Factor(9),
          0x582f446752da63f73ef06dfc713eaf1c44157e25f50c2f7eccc4b7c7b66e1f7a,
          0x17038418eaf66f5c2747aff47812196530f6269264c635fb967c54e91c529ccb,
          0xc2a1c4bcda28dc9b21ef18b4e5a1364a81042e8a4488bc4c6317bd320324ce4,
          0x0, -0x1,
          -0x12cea3bf16c5f4ccbeea7df0ef0292006ef8981a0fb383498297f88a222e2a190d82e4dc815475f04ea60162781b42455f105e17d7cf1203e202740d4a0d705e);
    RowIs(0x2000000000000000000, G73, Factor(9),
          0x7c558bd1c6f64877d15b0272fbb2d28fb2269e3edb87c059d24dc7d06f1f0447,
          0x5a6a9b30a314dc83c63bd212d55cc5ab0d6d907dbe1c8d22edc4814869bd6945,
          0x404a5ca0afbafc3a50c3a791cbc5fa412bb628ac35a24f0d0ec1524d396463d,
          0x1, -0x1,
          -0x3baeeeaa2ab98a4c68289e77f9360a3066ceec9aa648f42d3269051dc720b77dc723f8feed2403469edfc2fb925857b5916daeb9b9680befb139ef296a13b85f);
    RowIs(0x3000000000000000000, M9_3, Factor(9),
          0x46395bfdcadd9633574b046b668fd2deccbad0cb5b265ee88c1f40070aa743d6,
          0x39527516e7f8ee9804343fd83d5d6967b5c6f728e350598b62bc9e1b2a416fd1,
          0x76579a29e822d016efd4bef154d56fea9c7745bcd1005c2a117fdb2d1a5d9a9c,
          0x0, -0x1,
          -0x24ced83dbd4418ba07ff9f505303b7461cebb1f4ac4c8a36f6f9db90e0d5dc1db3e62c094c8b46b6cefaf685cb8b3d39cff4d4683e397decac3e49d7f9d93664);
    RowIs(0x4000000000000000000, G74, Factor(9),
          0x43a384dc9e05bdb13ed65f11ec224c1b23cd51a2bca9a37f45b68e7e49c02a17,
          0x2c514bb2a2777c1b5512887750d35ced832284993de80e1333cb51352b434f2,
          0x1160920961548059313916d7a9b0d253fb8bd37ef6b54b53684bd5da8bf1b645,
          0x0, -0x1,
          -0xfaccf5b7c21891a1a9b1c5eeaab4372214c5d197fbc408f2dad5e0141f4aaf540e4b22213a38afb3102b5413ffe23e8a9c7dd348b224fa2f524b324f11678af);
  }

  lemma Rows9_5()
    requires Fermat()
    ensures |ROWS9| == 8
    ensures IsRow(ROWS9[4], Mult(0x5000000000000000000, BASE), Factor(9))
    ensures IsRow(ROWS9[5], Mult(0x6000000000000000000, BASE), Factor(9))
    ensures IsRow(ROWS9[6], Mult(0x7000000000000000000, BASE), Factor(9))
    ensures IsRow(ROWS9[7], Mult(0x8000000000000000000, BASE), Factor(9))
  {
    hide Fermat, IsMultiple, IsRow, Row, Mult;
    Points9();
    RowIs(0x5000000000000000000, M9_5, Factor(9),
          0x351e125bc5698e0be9ef63ca453d5559da529f4c8413598fb44d166929dacfaa,
          0x2f637d7491e6e0427dc21bf9d4f1802175c02ca7655c35637a385616369b4dcd,
          0x7f182d06e7ce2a9a71dee19ff9a699fbd603037ac8ab8961d4b49b461af67bbe,
          0x0, -0x1,
          -0x22f6e5d9fef9b8a9803e98ba84c20dd625b0ec3b653d191eab209e1c18fbddbc7c414a59f93420cb39bd43a9c18eb88b1219432c518b13562a5b7c6f363b3bea);
    RowIs(0x6000000000000000000, M9_6, Factor(9),
          0x67d4ac8c343e93b0095519d347cd0edacb5a4a5515edc5437a7c8e64ab0168ec,
          0x44acc043241c5217d358254d7f46903caa58e8f4d484b8d809454b728e217522,
          0x556d1c8312ad71bd4adca1c6c96b46848b35fed4918313e11c7d6bbb4f7a5777,
          0x1, -0x1,
          -0x2face1acac70a287323c2124a05ec04931ef2b9792aff85fdc766cc8f59f67e5523cbd98fc1391e8f7e2698f3c6a55c4554e2aca2d278fa1ade3909bfcadf61d);
    RowIs(0x7000000000000000000, M9_7, Factor(9),
          0x746c6c6d1d824eff4f21f3cb0773646e31f7073e15a3fa3417ef40e30c8d3982,
          0x97abe38cc8c7f05f8b2d0556a99465d0faff82310a3f3dd81f06756b11be821,
          0x577e14a34bee84bd022c3809f7ccebd24c4369559bdc1d430c49c9877ea52da4,
          0x0, -0x1,
          -0x6b0b91326a954a29d93b3a7049d745aa8b6f8367938226b58dccbe9c8c51ef96a2d6952c83d19e1c0808c2f1c2b72b310290ff7709bb1541da6386b72b2f8ec);
    RowIs(0x8000000000000000000, G75, Factor(9),
          0x60fa7ee96fd78f42c1e13e826b6d00e9f2fafa103791a5f5f0e268ac61a73b0a,
          0x705304b8fb009295124a5977c0c8d1fff46a4fda060f221194fecebebd4dd72b,
          0x21398e0ca16353fd670b958cb4bd42ecf3c3053e5fad31d8b63d1d354d296ec6,
          0x1, 0x0,
          -0xe95a9cb715863e2e255c00289caf7295c7f30096f5c7afadb3f7e61f3e395e33c8efd0ed5ea2f10f1a81b3bfd43000592e916059927a005c4d4a7f99361346a);
  }

  lemma Power9()
    ensures Pow(256, 9) == 0x1000000000000000000
  {
    Power8();
    assert Pow(256, 9) == 256 * Pow(256, 8);
  }

  const TABLE9: seq<seq<byte>> := TABLE8 + ROWS9

  lemma Table9()
    requires Fermat()
    ensures AreRows(TABLE9, 10)
  {
    hide Fermat, IsRow, Row, Mult, Pow, Factor, IsBlock, AreRows, ROWS9, TABLE8;
    Rows9_1();
    Rows9_5();
    Power9();
    Together(ROWS9, 9, 0x1000000000000000000);
    Table8();
    MoreRows(TABLE8, 9, ROWS9);
  }

  const M10_3: Point := Point(0x4b55df555ef78ca29bb08cebf74ce07115205182089d86efa70c3f0dfd1da83e,
                          0x2faebe97416b3b52a2e97ec02e0f2e684149bd6d58143aad304e6e8cdcd6194d)
  const M10_5: Point := Point(0x6d187e11aedfd714ee4dea3643b18b006f965f8058ebf3484c38028dd62ec76e,
                          0x3607198a1819dc40a27d5237f93e5e31070512d561d0bc17e2e0464f0c1ce745)
  const M10_6: Point := Point(0x4db4418f87f778eb75185d9b62e977fa433393aa9d266f51081cd99764529a1f,
                          0x5140b9860c78ea8062554ec86e1edc7ac76cf7cddacfca01ebad13e93e82a813)
  const M10_7: Point := Point(0x6e1a9bb685adad8d9971bee76c48e9724966d0b285f58e0d44431dda40465406,
                          0x31ef82c7b281aa8d9f2c7c3ebf401d507a4841751f3e2bcb19039e6aca5e83e8)

  lemma Points10()
    requires Fermat()
    ensures IsMultiple(0x100000000000000000000, G80)
    ensures IsMultiple(0x200000000000000000000, G81)
    ensures IsMultiple(0x300000000000000000000, M10_3)
    ensures IsMultiple(0x400000000000000000000, G82)
    ensures IsMultiple(0x500000000000000000000, M10_5)
    ensures IsMultiple(0x600000000000000000000, M10_6)
    ensures IsMultiple(0x700000000000000000000, M10_7)
    ensures IsMultiple(0x800000000000000000000, G83)
  {
    hide Fermat, IsMultiple;
    Powers84();
    Added(0x100000000000000000000, G80, 0x200000000000000000000, G81, M10_3,
          0x18f1223b12edc7a03013dacadbea5d170ea234cc98f572b7fe6f2f4522ce4272,
          0x236b386b77f8e3ba216f7fbfa515f2e88d839a0b31449897b960c22e406c5f7970be6cbd2565b35781f642cc493615ef564a5f835e894b7e398b0efa1429199ff6f1946c1c4e6dc6a2db96b518d44f4466572d573599f5448707fd267b78c463e98c617aec341093996d9e60a216aeed99ab41bb726340889ce6cd1e1523b6,
          -0x2b9c01878e0b6c97416af6ba25325457da6173b724a6b41c16cbebd3d58eef88,
          -0x312de580dadfc7ff9b645240c27ec139a91475d382769510de3fe63176e92c09);
    Added(0x100000000000000000000, G80, 0x400000000000000000000, G82, M10_5,
          0x3dc279c1f6b3af50d0c764c6e7aa98501b0e0bf52052a767a7c7e5dcaf659da6,
          0x3de39eb517fc9e2e0b08a4eb9753a891bb8b59565d358c127979c555e7cd19dd4fc150df67ecaaf5278dcfaee425d4c34e01fd666c8ee5941df04709a5eb8a45dc80f288a7371e472f19548e59d8d783a82830913fab590ca8f64c8eb6117df7eca4e7397809d7b51f809568d261add43effa63b2542c815373e2c4cfd1262,
          -0x1b37fc58999265781e10dfda0c7f3da87a699ee575e05d105b78645ef5103c24,
          -0x504b0882066eaa4f3e4fe983ff871e2bb7716c91552b4290663d59e92f3475f1);
    Added(0x200000000000000000000, G81, 0x400000000000000000000, G82, M10_6,
          0x430c720bff4ce85be7415397bc3200234d9fe859cbc2e0a45d25aecb10274f28,
          0x6dd1006b02ea3ff12c3d4f24cd86877556f58bacc2e4ba19ab7f7f66f20d0f0e73636d6b6510e66fd7ffdb5876c6d9524054d4896c717104987bd6093523fc988ede9d743f6fc917c311efe18f14d96a2926def2e41745037258dce0701bfe9a977c46de8b1de13b54d5984cd2b94c04b5407faee9f4277a084fd700a9390,
          0x1b999124f8f1a49a81bfc91ffe36d4275fcc6ecb2847b61318ce1c249cc26089,
          -0x62eb724464b5d6ca1e573da4bded520152184609c1e6ec3060a481b4438bbb5c);
    Added(0x300000000000000000000, M10_3, 0x400000000000000000000, G82, M10_7,
          0x4d58db10b939cda0f0aa8a8df29c28d8a41c97a09de04d4f0973e9a397dfe690,
          0x26e5badb9b1d9592a4c69ceaa1cff042e79c71c9da188862ab2097df38965dbb2d014972c07e7c9c2daa00d9bdab31a162e14dd96cf4f0cc57f9720ac3f1a391c7325ec2ae8cb472d6d700b43550984a4107668567de0ebb816a735d290a827b35575b5e01d6ba211d91d7ce4528caa298fad3991d0aafa92401abddd513d8,
          0x41831ebb2fe294db97d8583bea12119a74319559fa26469413397037b65f047,
          -0x49a40b936a35cf98c658fdde5aafc8e7d1cab7d75f65db05c88531a9b11fdc7e);
  }

  const ROWS10: seq<seq<byte>> := [
    Row(0x5aa3ed9d95a232e68f93b503a53db36e5ae2ba0bad48c0b489f5058a382b33f3,
        0x1bbfb284e98f7d4ed2ceaa6161b7a0235eac72135c8dad722798aaf9b4b75601,
        0x4a07e14e5e8957cc65053299d9506eeecb2b125472c78036656777e9c7d96561),
    Row(0x3f0bac391d313402bba5edde925c77fda315d76f3c6ec7714ee412cb980df999,
        0x50af7aed84afa08119928d32a7c86aadfd38dade6447f017240b58cdc477a49b,
        0x1921a316baebd006780205810badd6d929982621216109b26e4fde0115f65be5),
    Row(0x6458df41e273aeb00738f1d436c24df72c296beb4f76b3bd89422f7edfb870fc,
        0x7b049deca062c7f53e9a0bac255c0ed9566a0eef60b1c19cd75aad9ad9f3c18b,
        0x6093dccbc2950e64786004c312c5dd87758879330fedbe93dccbe37a35444483),
    Row(0x57d1ea084827a97c43b9f2e1718f453b36d0a5d8b3e739331ff39a8585e0706d,
        0x6e3180c98b647d90973376abb62d06953199c2b6780fb8546bdeeebe6084034b,
        0x363e999ddd97bd18f7b4de82b2216130a4c1596d93a88baaee7ab6e7a128b071),
    Row(0x48ee9b78693a052bb42f6801b58cd330976eb35508e4c8cf96a843c135ee1fc4,
        0x231f979bc6f9b35590cb3c6e3cefe931769b7255babcaf602f1848dce24baec6,
        0x79bfa9b08792413b78d7009c14fb466b04bb030fe208d1f5c31de4bcc2af3c6),
    Row(0x38c77f684817194ed3cf12d0b356480843964233da95ab0e3903a51da300df4,
        0x1ef4fb159470636bd76dac63d10854750aa08b7877f63952f3c9ed80a2d54245,
        0x575ee92a4a0bff5672b2df349810219959590a4296d0cdc2854e5ee65b167bec),
    Row(0x43d4e7112cd3fd0005babd5752f733de30e170c299489dbdd4c080908a182fcf,
        0x200a1e7e382f581b389e3b262b8906c2c3af1227a533b9d85d46bc450aa4d801,
        0x50eca52651e4e38fe2b85d9567197f571bc989b056652c0518db967eaf93ac5),
    Row(0x4b0ee6c21c58f4c6fcd97ac9ed847b3de9f5045eff703b9bc3431ade453f0c9c,
        0x6151c09fa131ae574cb179b534eca79f9b19bbfe153ab49797ac397660e668ea,
        0x1fef24fa800f030b11b2bb8712171709dd262ee02ab4ee7a3af55c0dfdf05d96)
  ]

  lemma Rows10_1()
    requires Fermat()
    ensures |ROWS10| == 8
    ensures IsRow(ROWS10[0], Mult(0x100000000000000000000, BASE), Factor(10))
    ensures IsRow(ROWS10[1], Mult(0x200000000000000000000, BASE), Factor(10))
    ensures IsRow(ROWS10[2], Mult(0x300000000000000000000, BASE), Factor(10))
    ensures IsRow(ROWS10[3], Mult(0x400000000000000000000, BASE), Factor(10))
  {
    hide Fermat, IsMultiple, IsRow, Row, Mult;
    Points10();
    RowIs(0x100000000000000000000, G80, Factor(10),
          0x5aa3ed9d95a232e68f93b503a53db36e5ae2ba0bad48c0b489f5058a382b33f3,
          0x1bbfb284e98f7d4ed2ceaa6161b7a0235eac72135c8dad722798aaf9b4b75601,
          0x4a07e14e5e8957cc65053299d9506eeecb2b125472c78036656777e9c7d96561,
          0x1, -0x1,
          -0x1c9c29d7e495a3873b46f66e55fa0731b84a842668939516876ce4458b135068da7d46bfc60f983eed255eba65e7acbe946e0233cbe3c5a9e355043e610c33ab);
    RowIs(0x200000000000000000000, G81, Factor(10),
          0x3f0bac391d313402bba5edde925c77fda315d76f3c6ec7714ee412cb980df999,
          0x50af7aed84afa08119928d32a7c86aadfd38dade6447f017240b58cdc477a49b,
          0x1921a316baebd006780205810badd6d929982621216109b26e4fde0115f65be5,
          0x0, 0x0,
          -0x32c408a1876773ecd9ff73e396cb3d133b1e622421849da258ce4176473ac62290375f0eb530a82124fb95d78f7a88d299a292b882496f36efa87a02ea67133);
    RowIs(0x300000000000000000000, M10_3, Factor(10),
          0x6458df41e273aeb00738f1d436c24df72c296beb4f76b3bd89422f7edfb870fc,
          0x7b049deca062c7f53e9a0bac255c0ed9566a0eef60b1c19cd75aad9ad9f3c18b,
          0x6093dccbc2950e64786004c312c5dd87758879330fedbe93dccbe37a35444483,
          0x1, 0x0,
          -0x11fb3e59d9d6ce54324a64113801aaecca34c98dd7d532d1fda18083f94a62bb3d5c89e9eb81d2430cff6fa76e2063f014987946c7ad5c65ed6edb70189c3445);
    RowIs(0x400000000000000000000, G82, Factor(10),
          0x57d1ea084827a97c43b9f2e1718f453b36d0a5d8b3e739331ff39a8585e0706d,
          0x6e3180c98b647d90973376abb62d06953199c2b6780fb8546bdeeebe6084034b,
          0x363e999ddd97bd18f7b4de82b2216130a4c1596d93a88baaee7ab6e7a128b071,
          0x0, 0x0,
          -0x58b4a3254f2ffc977fe6c2742d5e8ae162afbe009fe8004cc337f6a4af84130552097e424a15e375c8732f06e49a5ee11af1d99017699b8ead2b65b580643a3);
  }

  lemma Rows10_5()
    requires Fermat()
    ensures |ROWS10| == 8
    ensures IsRow(ROWS10[4], Mult(0x500000000000000000000, BASE), Factor(10))
    ensures IsRow(ROWS10[5], Mult(0x600000000000000000000, BASE), Factor(10))
    ensures IsRow(ROWS10[6], Mult(0x700000000000000000000, BASE), Factor(10))
    ensures IsRow(ROWS10[7], Mult(0x800000000000000000000, BASE), Factor(10))
  {
    hide Fermat, IsMultiple, IsRow, Row, Mult;
    Points10();
    RowIs(0x500000000000000000000, M10_5, Factor(10),
          0x48ee9b78693a052bb42f6801b58cd330976eb35508e4c8cf96a843c135ee1fc4,
          0x231f979bc6f9b35590cb3c6e3cefe931769b7255babcaf602f1848dce24baec6,
          0x79bfa9b08792413b78d7009c14fb466b04bb030fe208d1f5c31de4bcc2af3c6,
          0x1, -0x1,
          -0x1d812a7260a2a15ee020709bb196dffdac61824276fe4657865f86a0e74c12ddc55365ba49878b2b6e715e56125bda114a5dd30e3e6b51bc545dcd9fd25a1a56);
    RowIs(0x600000000000000000000, M10_6, Factor(10),
          0x38c77f684817194ed3cf12d0b356480843964233da95ab0e3903a51da300df4,
          0x1ef4fb159470636bd76dac63d10854750aa08b7877f63952f3c9ed80a2d54245,
          0x575ee92a4a0bff5672b2df349810219959590a4296d0cdc2854e5ee65b167bec,
          0x0, -0x1,
          -0x1f9ab905aed35a58d774745131307d5be43c7722dcfd247de3ce32393b33e32aa974315d906bf13a80ef3257e08901425c3cd6f5f5e870f8c0334dcc7d1a466a);
    RowIs(0x700000000000000000000, M10_7, Factor(10),
          0x43d4e7112cd3fd0005babd5752f733de30e170c299489dbdd4c080908a182fcf,
          0x200a1e7e382f581b389e3b262b8906c2c3af1227a533b9d85d46bc450aa4d801,
          0x50eca52651e4e38fe2b85d9567197f571bc989b056652c0518db967eaf93ac5,
          0x1, -0x1,
          -0x1b8598bc45548c9887c7bc011d09aa13a440c0fcbeebb6de50bebb535909f796857e50eb994db2221ecc13df0fa633c45282e9fcd26396d17b9d0598bade4be7);
    RowIs(0x800000000000000000000, G83, Factor(10),
          0x4b0ee6c21c58f4c6fcd97ac9ed847b3de9f5045eff703b9bc3431ade453f0c9c,
          0x6151c09fa131ae574cb179b534eca79f9b19bbfe153ab49797ac397660e668ea,
          0x1fef24fa800f030b11b2bb8712171709dd262ee02ab4ee7a3af55c0dfdf05d96,
          0x0, 0x0,
          -0x4cd579cfb44f7bc81cc5347c8e71cdf9df4801486b87e5e3a29e44676e7b0a479bba2046c1d51b82a77f479c118c9ae97a8c552f5932474870e1b0f36021588);
  }

  lemma Power10()
    ensures Pow(256, 10) == 0x100000000000000000000
  {
    Power9();
    assert Pow(256, 10) == 256 * Pow(256, 9);
  }

  const TABLE10: seq<seq<byte>> := TABLE9 + ROWS10

  lemma Table10()
    requires Fermat()
    ensures AreRows(TABLE10, 11)
  {
    hide Fermat, IsRow, Row, Mult, Pow, Factor, IsBlock, AreRows, ROWS10, TABLE9;
    Rows10_1();
    Rows10_5();
    Power10();
    Together(ROWS10, 10, 0x100000000000000000000);
    Table9();
    MoreRows(TABLE9, 10, ROWS10);
  }

  const M11_3: Point := Point(0x5ff031a9e8f4a9a28d7eb3a97fe4334433112299c6b825d0a55d144ba1ee3347,
                          0x67c7ce2874df5ab040eae515ee26eb81252dae3576ff40d732927f6f65c163f9)
  const M11_5: Point := Point(0x2ec34149929644706035f41d422942c1e1fab37c0d6ea35d040adb65174136b3,
                          0x2ecb17530e69ea2cc55c3c54a78160f272e4fc3dd40e3e39b3a33c31999aba40)
  const M11_6: Point := Point(0x1216d39000ebe44ca69d80a6ac293855e1cf96c550e2e20d518a520ab77d56f3,
                          0x374132be82d973bd7043aab912324ed03b4bd0d9a649e3823e78f4fa151fd1d4)
  const M11_7: Point := Point(0x3cbe5d79f358c7e60396980dd1058282ee0a12a7ac7eb90c6467f0362dedb022,
                          0x2aaa635d3e22c2e6390fda3222be6cc5aced55c60e849e2f696edd1a92e82034)

  lemma Points11()
    requires Fermat()
    ensures IsMultiple(0x10000000000000000000000, G88)
    ensures IsMultiple(0x20000000000000000000000, G89)
    ensures IsMultiple(0x30000000000000000000000, M11_3)
    ensures IsMultiple(0x40000000000000000000000, G90)
    ensures IsMultiple(0x50000000000000000000000, M11_5)
    ensures IsMultiple(0x60000000000000000000000, M11_6)
    ensures IsMultiple(0x70000000000000000000000, M11_7)
    ensures IsMultiple(0x80000000000000000000000, G91)
  {
    hide Fermat, IsMultiple;
    Powers90();
    Powers96();
    Added(0x10000000000000000000000, G88, 0x20000000000000000000000, G89, M11_3,
          0x7898dd0250952ddaecf16dc7f0f6234e066761e872a3e4a271dde9676076177b,
          0x184d0428422577839981b8a260e4e36649a3d1a13b5af6f5ff2d272b1d74f006deefdb1cae79778d9a63d0b64dd14979e0ae26f6bde1e9033b58f901baa2feb3479ee92510598fcc993c45f4c711a03c2f29726720147c6a3440d04f18d9f4e1c32bd7cd8a0cabd1a91291ff723d72fe5985019009e1dfb97924e7fedea0d87,
          -0x82f4b394af237418bb7f3fb4f2f3bee4bf19d3787355f903c42d5b3e73c0fa5,
          -0xd11db39508cb3c7429e911c56087c94361b5bc70e2b64d47f01db83e231c7465);
    Added(0x10000000000000000000000, G88, 0x40000000000000000000000, G90, M11_5,
          0x49395683adee462efa012b386e1438265a765ccf727c50a34ebfe21d9a751693,
          0x21647e40c810554011b99215ffbd8bcd8db5cfab4cccf931389a75fa5857888b9dfb79972a8330b85062569dfd4bc10c13fd94af3e0e06791da389eb15072725334974550d4e0114d4622599bdfe8aca5dc025fdd23f9aa8fb032942c4e70d66eae0fef886e4f241b9915f03660a1f4f9ad108bfff7fcfa91eecb6b86ae2ee1,
          -0x631ebdda4e506e60fc38fa5885b4fa2f39741a2341870b601495124e9e6dfb90,
          -0x8effe7fb1f3fff1dea6d1f5ee2b7680bf7e3d2ae35860e21e51dbf82fe2193fe);
    Added(0x20000000000000000000000, G89, 0x40000000000000000000000, G90, M11_6,
          0x1c4ba74968191eae4456aaeb0bb9ac321315e429fa8f0972ba4c4b44adc3c9e6,
          0x1eaf138d725cd3e276d7773d4dfa32ca289fc4ae2b286a9d5d09e2569efbd995e1a64c3acb7c9a47c0740cfea301a8c43e12c278ceee9a8bc9e1cc27e4cdf93c72ccdb351b0ce994446b1ab16e929d37963fc3d2eaa8f043ae30aa1e3b18a67543454117bf8fc14499fe732f2da6aece0e4ca2a6b1401a02524d82e31bb36f2,
          -0x735c93e1b331747e6de772563ad2203da9462a2ad1cc3d13f89a78076b26bce1,
          -0x7b53be2f983c5bd840f4d1416743534ac8d750e811e3e64e41b7b92bffc19172);
    Added(0x30000000000000000000000, M11_3, 0x40000000000000000000000, G90, M11_7,
          0x65d1f526429dc2666758278e7a16bf242c33ec5f7ecda51d80a0f0c6173abdd4,
          0x32899dc146c232e7a9f692b14cccc25491131e3843f3aab4a44deed1dc6cb51dda0d15f53c9e23d3686718501440155e3cfdf1f74ec8573ed2ff2e3ac586d948b64b90dd047948f316f479c514141c2ce1f3f225e7bfbcb6bfca8983dcd5fc825a3667b86bfeefdea2e8182d5865eaa946b6e040164aeda4467b1a4f2455bcc,
          -0x5eb843ebb46aff01f5c816fc3490c78cfe76485e33b7ec78cc3941e3b235ee2c,
          -0xb2b5727fca09e6e9d598199eeaf55ce75bde6ac6a3b21e260eda016e833b8fee);
  }

  const ROWS11: seq<seq<byte>> := [
    Row(0x544d49292fc8613ead200b09fb3a17b20f9495303fd7641837d653fb1aa73196,
        0x28005fe6c8340c17dca1896c4de5bae58d90b806c2d2460422d2aff530976b86,
        0x72e472930f316dfaf75bbbcd66d94b365c1bff9425107da16aefba9f34528688),
    Row(0x5a9d2e8c2733a34cfd9daea603efde02b1502a0b23450ee12695208c9781084f,
        0x1fee7f000fe064383c85e79728d044507aaa4d865f6566f007f3f635d32a7627,
        0xf94051ee0405437b4ad5cdd24a88eca4daf2491434cdbd765305da03dbf7e5),
    Row(0x7d79c7e8beab10db36c316c6e42b83cf21c8b9bb0471b068d356b23c3d330b2,
        0x47b7ffd25dd40452ce6998bf6e0b1ec5583ed0cf3db766a7d7ef93bb07af9753,
        0x1c3520a35ea64bb60d57242bdb1fc1bf8a066b3ae1eec29b87fbfb9cbc08dd12),
    Row(0x1c3d05775d0ee66f90c3b6019882e3963e61c3a13838219b80d253a6bccba34a,
        0x38750c3b66d12e55b4956a9e17c709901fbb231d12bcd87ecda86f40216bc059,
        0x621e2c7d330487c21014fe7744ce029cbc0c73c2b5df671692ef1409422e51a),
    Row(0x7d6097bd3a5bc6526483765581e3090ea48c1c69f9adcaf9860cc8259838d,
        0x5d8e589ca1002e9d25923071e9aaa3b454dfafb9e17ce196b7ae1796b0dbf0f3,
        0x1583d7783c1cbf860a961438bb51e2efb2d3c363588f2e3ec0bf1d950842a94b),
    Row(0x252a5f2e81ed8f70c9a62a126609167a597c3a1455670174eceea2ef5da27ae1,
        0x4958064e83c5580a16e12b5fbe5b87261d1b679ef72cc58f90034704cc9d28c7,
        0x79c170bd843b3881b53da780c1112fdfcc3f785307c8c6b0d2894265066e80d),
    Row(0x6dec05e34ac9fb003579422451b8ea42bee3431e6205e5230506ece464fa6fff,
        0x6768c0d7317b8acc3ca6723ff3c3ef489af7686dbb03573bcdd6cd50c0d5d056,
        0x51445e14ddcd52f4c22cbddc6d6b2600417bf3a7997b7b9194b625e5f155c1b3),
    Row(0x13186f31e39295c8b8bd6927166385db8e67ff6b444bbcb357502b4b3b144951,
        0x12e990086e4fd43d4b49f948be30f7a78c53a24f92079129893147ab2bbea455,
        0x77b2e3f05d3e99afdf1136c43a5b983f9f9a935e121ceaf9f10c96b37fdfbb2e)
  ]

  lemma Rows11_1()
    requires Fermat()
    ensures |ROWS11| == 8
    ensures IsRow(ROWS11[0], Mult(0x10000000000000000000000, BASE), Factor(11))
    ensures IsRow(ROWS11[1], Mult(0x20000000000000000000000, BASE), Factor(11))
    ensures IsRow(ROWS11[2], Mult(0x30000000000000000000000, BASE), Factor(11))
    ensures IsRow(ROWS11[3], Mult(0x40000000000000000000000, BASE), Factor(11))
  {
    hide Fermat, IsMultiple, IsRow, Row, Mult;
    Points11();
    RowIs(0x10000000000000000000000, G88, Factor(11),
          0x544d49292fc8613ead200b09fb3a17b20f9495303fd7641837d653fb1aa73196,
          0x28005fe6c8340c17dca1896c4de5bae58d90b806c2d2460422d2aff530976b86,
          0x72e472930f316dfaf75bbbcd66d94b365c1bff9425107da16aefba9f34528688,
          0x1, -0x1,
          -0x20ee6374927b83c9b3ea9d2f85c885af4f2beb34b64ec9b62262819a9be6b9a9db8f246ac62adce34ed5122055320619c587d9250a38361b66ec11f1d8aef00c);
    RowIs(0x20000000000000000000000, G89, Factor(11),
          0x5a9d2e8c2733a34cfd9daea603efde02b1502a0b23450ee12695208c9781084f,
          0x1fee7f000fe064383c85e79728d044507aaa4d865f6566f007f3f635d32a7627,
          0xf94051ee0405437b4ad5cdd24a88eca4daf2491434cdbd765305da03dbf7e5,
          0x1, -0x1,
          -0x1e428d4557fb536bb9ac598f6d3d167ad9d1834a6f0337fed5987df7d4444bc214f75630fe46b5bd94085be554bbf7a61aac27d81a28be706a4d646b01e09601);
    RowIs(0x30000000000000000000000, M11_3, Factor(11),
          0x7d79c7e8beab10db36c316c6e42b83cf21c8b9bb0471b068d356b23c3d330b2,
          0x47b7ffd25dd40452ce6998bf6e0b1ec5583ed0cf3db766a7d7ef93bb07af9753,
          0x1c3520a35ea64bb60d57242bdb1fc1bf8a066b3ae1eec29b87fbfb9cbc08dd12,
          0x0, -0x1,
          -0x31d6df41beae209eb907bc3d2e74452aa829dea266fed43a4f11b133dab92902a0e02fba4c631ae0cca29b296a163e4eeabbf2896d3f0c4676761827eb20c328);
    RowIs(0x40000000000000000000000, G90, Factor(11),
          0x1c3d05775d0ee66f90c3b6019882e3963e61c3a13838219b80d253a6bccba34a,
          0x38750c3b66d12e55b4956a9e17c709901fbb231d12bcd87ecda86f40216bc059,
          0x621e2c7d330487c21014fe7744ce029cbc0c73c2b5df671692ef1409422e51a,
          0x0, -0x1,
          -0x2994c787059d044b11a932a826035c66a0ad05995d24816245c29169a9b075cb0661b568a939c6896af80b83ac4ce992ff82778e9f7e33925ceb3ae4836782de);
  }

  lemma Rows11_5()
    requires Fermat()
    ensures |ROWS11| == 8
    ensures IsRow(ROWS11[4], Mult(0x50000000000000000000000, BASE), Factor(11))
    ensures IsRow(ROWS11[5], Mult(0x60000000000000000000000, BASE), Factor(11))
    ensures IsRow(ROWS11[6], Mult(0x70000000000000000000000, BASE), Factor(11))
    ensures IsRow(ROWS11[7], Mult(0x80000000000000000000000, BASE), Factor(11))
  {
    hide Fermat, IsMultiple, IsRow, Row, Mult;
    Points11();
    RowIs(0x50000000000000000000000, M11_5, Factor(11),
          0x7d6097bd3a5bc6526483765581e3090ea48c1c69f9adcaf9860cc8259838d,
          0x5d8e589ca1002e9d25923071e9aaa3b454dfafb9e17ce196b7ae1796b0dbf0f3,
          0x1583d7783c1cbf860a961438bb51e2efb2d3c363588f2e3ec0bf1d950842a94b,
          0x0, 0x0,
          -0xaf4111c873e387e0793f52dda0f5170ba060fec114a42d6c8e0b5a27083f970bd8deef0fe1fc72c5c78308f9f9b4cb1da8f406c04e3e32ab1171d3db16e0b69);
    RowIs(0x60000000000000000000000, M11_6, Factor(11),
          0x252a5f2e81ed8f70c9a62a126609167a597c3a1455670174eceea2ef5da27ae1,
          0x4958064e83c5580a16e12b5fbe5b87261d1b679ef72cc58f90034704cc9d28c7,
          0x79c170bd843b3881b53da780c1112fdfcc3f785307c8c6b0d2894265066e80d,
          0x0, 0x0,
          -0x500d520fb10a8042340e33ce66900f593f7476f84f5ac11fbb7f7b6e93212c31df52c878dac93cb62188a26b765a0199203d3b5489b4876db30a0862e5a9467);
    RowIs(0x70000000000000000000000, M11_7, Factor(11),
          0x6dec05e34ac9fb003579422451b8ea42bee3431e6205e5230506ece464fa6fff,
          0x6768c0d7317b8acc3ca6723ff3c3ef489af7686dbb03573bcdd6cd50c0d5d056,
          0x51445e14ddcd52f4c22cbddc6d6b2600417bf3a7997b7b9194b625e5f155c1b3,
          0x1, 0x0,
          -0xcf91baa709174168c631b14e2e319db6f5fc883c7581c17f7f018f62503957d305ce0c674cdf6c3506293313d38ff22861415ca8161cc4b88bc6f51e1775711);
    RowIs(0x80000000000000000000000, G91, Factor(11),
          0x13186f31e39295c8b8bd6927166385db8e67ff6b444bbcb357502b4b3b144951,
          0x12e990086e4fd43d4b49f948be30f7a78c53a24f92079129893147ab2bbea455,
          0x77b2e3f05d3e99afdf1136c43a5b983f9f9a935e121ceaf9f10c96b37fdfbb2e,
          0x1, -0x1,
          -0xc2aeb38c162a5bef2d33217abb7577a2a99d3010b8500093862a656466f85d6b314f1b13b516562519a3e3e3bd13a31dcd1775ddfbba4862b43287cb39a2c00);
  }

  lemma Power11()
    ensures Pow(256, 11) == 0x10000000000000000000000
  {
    Power10();
    assert Pow(256, 11) == 256 * Pow(256, 10);
  }

  const TABLE11: seq<seq<byte>> := TABLE10 + ROWS11

  lemma Table11()
    requires Fermat()
    ensures AreRows(TABLE11, 12)
  {
    hide Fermat, IsRow, Row, Mult, Pow, Factor, IsBlock, AreRows, ROWS11, TABLE10;
    Rows11_1();
    Rows11_5();
    Power11();
    Together(ROWS11, 11, 0x10000000000000000000000);
    Table10();
    MoreRows(TABLE10, 11, ROWS11);
  }

  const M12_3: Point := Point(0x4f2f4b477f6ca632750965a4f97d966f9bb1a9e6faf03f479fb206c8b59f5785,
                          0x13115f873b8a8439a16d3208a70462c16ae38525c23cccf25480269d9359e934)
  const M12_5: Point := Point(0x282a400973b64ed0a93070fdba88d599fa2fd0541f48df6e99fb0fb8f1eccccb,
                          0x5a8a95d8ceddba93595c9fe01ac6bfcd9acea0d1e0c3150c7f562dd27aa84686)
  const M12_6: Point := Point(0x7aaf48f59f15c20d43e5bcc0a9f0d58952bb338e8186376520c29d9ed297dbd3,
                          0x2765ba6a9e76638c36149c63bfe62de38a8f0ac8e8e0934dac69896bf1a58d6e)
  const M12_7: Point := Point(0x336498fbd2b4355ce5f8c55891b959133745f4cd49f7c39bd4d979baa2329b4,
                          0x653338b616279ce7e44b1c37969b109fafe0fd52fff48d9aa1e08a7c5dd5cbd8)

  lemma Points12()
    requires Fermat()
    ensures IsMultiple(0x1000000000000000000000000, G96)
    ensures IsMultiple(0x2000000000000000000000000, G97)
    ensures IsMultiple(0x3000000000000000000000000, M12_3)
    ensures IsMultiple(0x4000000000000000000000000, G98)
    ensures IsMultiple(0x5000000000000000000000000, M12_5)
    ensures IsMultiple(0x6000000000000000000000000, M12_6)
    ensures IsMultiple(0x7000000000000000000000000, M12_7)
    ensures IsMultiple(0x8000000000000000000000000, G99)
  {
    hide Fermat, IsMultiple;
    Powers96();
    Powers102();
    Added(0x1000000000000000000000000, G96, 0x2000000000000000000000000, G97, M12_3,
          0x67dbf69e058ca11d859da7971b51766c7d75e99de2f92e6ddf63efc31a0f4833,
          0x11bf580b04ae2d33d9217e7de1629d0217abe49a0eb4672dc3455614c0d9dbeb1b7ccf842ee63fb0f80f5bb415a604797dc52660433eba5d684d0efce767624fb717db716b329ef6a4da9632942acd81ae7bf155a7c602e3b5566a2a0d7c2c5d9e91439b9f9352a74a4f903bdc5bda239a8a2d8720ace31c58bd11f31936ee1,
          -0x14e2fa8a7c56edfcd145f62164da5a57eab1417d2415aa48f198c98bb465b3d1,
          -0x66e0eeacafa4ead8e92580dcbee3f4a9a495f2a848aa2f78163d657924287960);
    Added(0x1000000000000000000000000, G96, 0x4000000000000000000000000, G98, M12_5,
          0x1a289f8faedc4ce7a8be7104a15988b01dc04ba20973ca2281f8eaa868b9972e,
          0xb1426aaabc7ce4fd72d3dd50e42dc5a74cf3f073493f2ff64556d12035e2a112d098c1efec2dcd908c5ff294cb25731a057cfc9259fc13a8c44536967f8872c822af5cd00b07059a9f6aa88e097a351daacd66d9b9e8fae59e3cbe4d3a127ded284e01599d15d5e999ab7be282d46660267ef0cd1586613f797ef8893ef03a,
          -0x40c4c73cd6e7b6ad6675c06a516925a9bc229869abb97a1b24e189dfe3ba9019,
          -0x550a7c8722631a217e1540036460aa162ae0e1c600094b8ae53a6121ca691c9f);
    Added(0x2000000000000000000000000, G97, 0x4000000000000000000000000, G98, M12_6,
          0x3325998cf0a56b17db223571cfe4e1ba4597a1780e7bf187989dd7ab515bc941,
          0x10a0d7175d76991809585f09ef2361e6d8052266ec2d7d09ff120802927aafb7475d331e1a67ba3c58fe58977e5e94d70f11467c919ed7706fc39e3822974cc5ab7ef02cb5c4830ce661cbfec0e88a371b9209594aa75e46b636fb3020bfe8d05f56ef83bfb86dc7e4b865d8cad49c2e006e1df99af3009fcc98559fe2ed70b,
          -0x23e546d1fe3dddaad160b04c1737faee5bfff1280d0d7c74119bc52cce8aa10b,
          -0x62528302cb856b1cc134631567d91bccba0230d05b122868c976d0762f15f6aa);
    Added(0x3000000000000000000000000, M12_3, 0x4000000000000000000000000, G98, M12_7,
          0xf1fb1099be12fa7bf7fa4287fad9de99f76d62ac9076e7830ecb5aeca129453,
          0x3cd77b3cb0488f0fbbe0dcf509f3c0bf9276052ac3403f62c97ec89fe0f03c4baa34af00268bb6b1ae218804bc697742367d4caddc06730d002c1fd9955a31cae87e3c9a6af1ab93cbad8980543dc7019f59223243994ca2a0a4cd7ee419b1ffecb57b0f881ad999f80a2edbd17f885296d5835df04b88515b098245177e39,
          -0x38ff4087cce1215fde48cff0e69d6b5464ac4a9b4a8a30a604e5843662b581b5,
          -0x37a578d4b32c9f7708c87e6c43f9b676c9267420ee078d9c320b102c7196018e);
  }

  const ROWS12: seq<seq<byte>> := [
    Row(0x63b795fc7ad3255d1c7706d917a8f908bc8b61bf4f84f3cb296fa9c59c2ec4de,
        0x7a195152e095e8ad17c2f0358fce460a5d19f30c024866bd598639c12ddb0a4,
        0x3e8fe83d032f0137afa1fd5dc541264390433b02cf8de43ba8368f02389e5fc8),
    Row(0x75ba3b797fac4007de1c5ae161bbfd8494f24270670845492f8b15b90570a294,
        0x22d60899a6258c86a59d5da51260cde3dfc51a8e33e0373108704c8de8efd13c,
        0x904d07b87779e5eb38847bceb40126060fe8a8b6c7d8a9a6239dbc070cdd196),
    Row(0x43e2143fbc1dde072c63cc63ad86cc51cf31db3ec74c8daab4ce1fd4ddba919c,
        0x6240aacebaf72a6c167697ada081f93106952f0cbd2d0c39f4322d6648f940b9,
        0x56bdaf238db40cac66f13ba7e7c9316ad6947c5bca37d25af834749c5ba295a0),
    Row(0x1d24a86d837413189e0e14521d5a5572338568d56eb93d40362ab9e3f53533eb,
        0x3aa31507e1e57547c9b8591d7a14f5c062a6bb7622386b91310d36cc19d3bb2,
        0x43b261dc9aeb485988d225821d09357ce045eaf054ac8c1cf4ec7648ffd4ce1f),
    Row(0x326055cf5b276bc2b02c2ee2603dea33a09ed07dc17a359de55b1e1988bb79bb,
        0x2b4d5e242940964028d10ddd54f956794fe7126000bf47b19513d8b6c951364,
        0x27a6c809ae5d3410c49cf4936c824389eacc4646186ce508b4a155cb28d18df2),
    Row(0x2cb67174ff60a17ef22edfa315f5585a37d3d73a675a5be88ba6ebcd1f0db188,
        0x221503603d8c259979fa592469d7036cdd4a3e576a66cab2cd2c270ac43d6954,
        0x7b1df4b73890f43682891c667a94f0f4a9422044728ce3f159eecdf9390be1d0),
    Row(0x61fcef2658fc599215eb8fe20d7f7b0e7c6c9e062b551160e492f2e0b3b2a224,
        0x68698245d352e03db2aaa88d1fb6a630e3555c9fd49409d45f2e221807f8f58c,
        0x46cf4c473daf01cf44bae2810ff6c482f3e4aad386ddacd7dbb15d852a18187a),
    Row(0x29387bcd14eb5f4072b1a7f2cbe5cadc0e5eda0116903303426525ed9ec4e5f9,
        0x1065aae50d8cc5bb2488c38c5629ceba7c1e7ef8392b4854213c6ea7f1498140,
        0x69a198e64f1ce7160a07e7b1e18340305c3b2dd6bfca674a1c2c4525df200d57)
  ]

  lemma Rows12_1()
    requires Fermat()
    ensures |ROWS12| == 8
    ensures IsRow(ROWS12[0], Mult(0x1000000000000000000000000, BASE), Factor(12))
    ensures IsRow(ROWS12[1], Mult(0x2000000000000000000000000, BASE), Factor(12))
    ensures IsRow(ROWS12[2], Mult(0x3000000000000000000000000, BASE), Factor(12))
    ensures IsRow(ROWS12[3], Mult(0x4000000000000000000000000, BASE), Factor(12))
  {
    hide Fermat, IsMultiple, IsRow, Row, Mult;
    Points12();
    RowIs(0x1000000000000000000000000, G96, Factor(12),
          0x63b795fc7ad3255d1c7706d917a8f908bc8b61bf4f84f3cb296fa9c59c2ec4de,
          0x7a195152e095e8ad17c2f0358fce460a5d19f30c024866bd598639c12ddb0a4,
          0x3e8fe83d032f0137afa1fd5dc541264390433b02cf8de43ba8368f02389e5fc8,
          0x1, -0x1,
          -0x16051af9f2c42a9a80fab796f92aaf1fb5c25288e51a2b2388eefe90d0d895b80fc545f4c1762413dc9dcccde73abf22d0e23757b40ddaf4d9c4652f9787f878);
    RowIs(0x2000000000000000000000000, G97, Factor(12),
          0x75ba3b797fac4007de1c5ae161bbfd8494f24270670845492f8b15b90570a294,
          0x22d60899a6258c86a59d5da51260cde3dfc51a8e33e0373108704c8de8efd13c,
          0x904d07b87779e5eb38847bceb40126060fe8a8b6c7d8a9a6239dbc070cdd196,
          0x1, -0x1,
          -0x210cda57f5865f82ac2f8ca92dd3e0dbeebf392f33ee5d2e67ba3136649d9d622dc4e2cd0495978a9631215e10cfce62b9bed1f25a5c81092c834b8b7d6e3802);
    RowIs(0x3000000000000000000000000, M12_3, Factor(12),
          0x43e2143fbc1dde072c63cc63ad86cc51cf31db3ec74c8daab4ce1fd4ddba919c,
          0x6240aacebaf72a6c167697ada081f93106952f0cbd2d0c39f4322d6648f940b9,
          0x56bdaf238db40cac66f13ba7e7c9316ad6947c5bca37d25af834749c5ba295a0,
          0x1, 0x0,
          -0x78edabb0ce51b89b8a469cc7e80dbf4821f454c7275ebab340ccb9d53cf26d1e1cbcec71f2f664abed35ec9ac3b599b05d901c78dcd9a5d180b43f8045e2658);
    RowIs(0x4000000000000000000000000, G98, Factor(12),
          0x1d24a86d837413189e0e14521d5a5572338568d56eb93d40362ab9e3f53533eb,
          0x3aa31507e1e57547c9b8591d7a14f5c062a6bb7622386b91310d36cc19d3bb2,
          0x43b261dc9aeb485988d225821d09357ce045eaf054ac8c1cf4ec7648ffd4ce1f,
          0x0, -0x1,
          -0x14a1a103092d65c69e38b8935b1621e708696974d856c31dcb1c71498ef3ec1e023c0e25556af238ca5fe2984b6e5654f14ab374cd6a9fd1713fcf350504f501);
  }

  lemma Rows12_5()
    requires Fermat()
    ensures |ROWS12| == 8
    ensures IsRow(ROWS12[4], Mult(0x5000000000000000000000000, BASE), Factor(12))
    ensures IsRow(ROWS12[5], Mult(0x6000000000000000000000000, BASE), Factor(12))
    ensures IsRow(ROWS12[6], Mult(0x7000000000000000000000000, BASE), Factor(12))
    ensures IsRow(ROWS12[7], Mult(0x8000000000000000000000000, BASE), Factor(12))
  {
    hide Fermat, IsMultiple, IsRow, Row, Mult;
    Points12();
    RowIs(0x5000000000000000000000000, M12_5, Factor(12),
          0x326055cf5b276bc2b02c2ee2603dea33a09ed07dc17a359de55b1e1988bb79bb,
          0x2b4d5e242940964028d10ddd54f956794fe7126000bf47b19513d8b6c951364,
          0x27a6c809ae5d3410c49cf4936c824389eacc4646186ce508b4a155cb28d18df2,
          0x0, -0x1,
          -0x1234266abc3485132a05bb72edc56bec1a3510a873dbeed520a8d157a15193513a788ae62dc9f2a423ce545be675a2738aea66aa01fbf331e695dde963df0f42);
    RowIs(0x6000000000000000000000000, M12_6, Factor(12),
          0x2cb67174ff60a17ef22edfa315f5585a37d3d73a675a5be88ba6ebcd1f0db188,
          0x221503603d8c259979fa592469d7036cdd4a3e576a66cab2cd2c270ac43d6954,
          0x7b1df4b73890f43682891c667a94f0f4a9422044728ce3f159eecdf9390be1d0,
          0x1, -0x1,
          -0x1831e01b9e20a151fafa71ca8044697e994fe46c49201d09de6ccb10033d246cb144833e2758af7aef740b62e1d58863a35aa604bf7da337391c3f5bcdb7addc);
    RowIs(0x7000000000000000000000000, M12_7, Factor(12),
          0x61fcef2658fc599215eb8fe20d7f7b0e7c6c9e062b551160e492f2e0b3b2a224,
          0x68698245d352e03db2aaa88d1fb6a630e3555c9fd49409d45f2e221807f8f58c,
          0x46cf4c473daf01cf44bae2810ff6c482f3e4aad386ddacd7dbb15d852a18187a,
          0x0, 0x0,
          -0x1a08d520a7e4ed0fc5e3bec1eb7202a31e4ae7436341bf6c9f356cf3f4239d8f2dc5a31fb333d6c851914daad10c20197ea344bbe39f2134593a7b2b96c4d1e);
    RowIs(0x8000000000000000000000000, G99, Factor(12),
          0x29387bcd14eb5f4072b1a7f2cbe5cadc0e5eda0116903303426525ed9ec4e5f9,
          0x1065aae50d8cc5bb2488c38c5629ceba7c1e7ef8392b4854213c6ea7f1498140,
          0x69a198e64f1ce7160a07e7b1e18340305c3b2dd6bfca674a1c2c4525df200d57,
          0x0, -0x1,
          -0x17f76e7584695cfd799b4a4fbf57d591a29dd023ac7ec643a6a66870efc674770c0a727f7e59da3f4351aca9469b72341d544fdbf3e7b7cb9b3e788139d4c611);
  }

  lemma Power12()
    ensures Pow(256, 12) == 0x1000000000000000000000000
  {
    Power11();
    assert Pow(256, 12) == 256 * Pow(256, 11);
  }

  const TABLE12: seq<seq<byte>> := TABLE11 + ROWS12

  lemma Table12()
    requires Fermat()
    ensures AreRows(TABLE12, 13)
  {
    hide Fermat, IsRow, Row, Mult, Pow, Factor, IsBlock, AreRows, ROWS12, TABLE11;
    Rows12_1();
    Rows12_5();
    Power12();
    Together(ROWS12, 12, 0x1000000000000000000000000);
    Table11();
    MoreRows(TABLE11, 12, ROWS12);
  }

  const M13_3: Point := Point(0x59de4b2305d8b7af6da1769d1b27473ca5ced8b84b82a54cebfed2e98c19a76a,
                          0x4078b0875ce149844fe1a6462deca6e4316be1259c1726e94477e2f9f1dbe4d5)
  const M13_5: Point := Point(0x55eaf5fea101c94fc2b9234f2b62c5786056bfa6bc8a23e59979b303eaac5b05,
                          0x644f4f10c2a13c7e312a68927484d2041cf62a6b2e579ffb291e32fc1e0e6d82)
  const M13_6: Point := Point(0x5726e2adc5bbdbf0cc76250d1c69ed6f77f96d075a84616a35792093400eeab6,
                          0x79735f155fd92f05890ef8f0d6ef865e8498a950d9a93cd127ed7d966b0ee8cf)
  const M13_7: Point := Point(0x2fab7584f9ebafa144803f10de981adbfdce1f5eb97c95d29927c6b674fd1963,
                          0x27b70248f415f448daf44f5ab0b237645218ee698b29652bcf59da2698c7f981)

  lemma Points13()
    requires Fermat()
    ensures IsMultiple(0x100000000000000000000000000, G104)
    ensures IsMultiple(0x200000000000000000000000000, G105)
    ensures IsMultiple(0x300000000000000000000000000, M13_3)
    ensures IsMultiple(0x400000000000000000000000000, G106)
    ensures IsMultiple(0x500000000000000000000000000, M13_5)
    ensures IsMultiple(0x600000000000000000000000000, M13_6)
    ensures IsMultiple(0x700000000000000000000000000, M13_7)
    ensures IsMultiple(0x800000000000000000000000000, G107)
  {
    hide Fermat, IsMultiple;
    Powers108();
    Added(0x100000000000000000000000000, G104, 0x200000000000000000000000000, G105, M13_3,
          0x3926dd199575a9cc8adb2511e4fe241e42a0fa2e2d7d88d6c8d17ea09a0f6ba,
          0x12a9852f2fd83a4d0d93e607fa92a58c8a3ee59bc8722d38145699297a13662725ec6b1c2693bd217ac6053eb491dae2a181cc97d60f296454399247aca606235146e8ff0e7c39f11447dfb74eb07ed319769e5d6164d876f00985dfc1e2934d87cee97f2c0532ee0300deea729ee14117ec4ec32bd9f39aad793c338ccf0,
          -0x34d86ac69cdb6910fe955b4b5fb3ff7396ec1582c6e1f21844094956e64e73b,
          -0xaafbb398fb464c9437e7a85c78372a69726b3a8a70281e89765ae0adb2fb930);
    Added(0x100000000000000000000000000, G104, 0x400000000000000000000000000, G106, M13_5,
          0x24d37eef15b7c0fc0320e46a5408804bce8aafdc580a22bda23a65e7f12972d5,
          0x48bdd9ef34c837e96e24dd4bb9baaf19c5909a572f7148b5cc69df762c71425d1dcc26e8a9c13965be49590d83a525edd7b4e00447d36513d2406a9cf561a8eeefbbba10cd79759c82555f8d8eb7da9a576ffbcece29d68880fed912d9a0cbdd4ecfc5f5df382fd3e011d1d97d766b29b04a2a713477871e91ba28349093f,
          0xe0f650c64c93c4c085dc039392e5e70ac4c7705fcb7766d8393a86dfc3a1588,
          -0x29facc32f02b5be5f43fd37b7cb7304658547d2b2d09349f625dfb842cb9042a);
    Added(0x200000000000000000000000000, G105, 0x400000000000000000000000000, G106, M13_6,
          0x3a372e330a55f9bd6cd867e984d73a319e21a855b2d7500308986c6adbd40f84,
          0x5718268bdc4019ba2da90dea5835d49dfcadc32d3076e5909ffeb43de45008328acd8e983f89c5a774ecc954cba5284d496464ea737e48273681ba9d956e0c1522ee143b1ca402a0bb9678d3e4bfb445aae23368d9c8c6e1021d909b042aa03dcbfee15b169db6b4e2f454223cff408d29c736f7abf8146cd5c4f902860a8,
          0x1af4cbbd516727a1ce69a210d1cb0ddd9a597b63540c6d88e4594d7a519ead32,
          -0x4a0961772515ad7eaed0c212e4a5c1af6e87faff7a4088a31550a6354ff7fd2d);
    Added(0x300000000000000000000000000, M13_3, 0x400000000000000000000000000, G106, M13_7,
          0x29d4e98733d59dea2d1e55958eb7c508f43221d3eb9549d7beaa50d3f7bc49df,
          0x5372b8d12c0c8dafdac5e8fd76a048223ebc042d476341c5f131df50bb424e5e7248be181849c727b069dbcc8ef026607a57e014872673e87d0070dc31e61a31d66593734b3afce713595f2eb49b2773a616da75646cf7325e73783f66db0f7514160743474a1a136b67a148b04b1bdbf46ebd4ab180b57999d57dc3ed620d,
          -0x1e9dad1e843534ae31cb6498a4c0d6781e42bc5fc09e5dc99021ae33a35aac36,
          -0x4023fe0fb1681fd49e79ea14273549b5a62c478f0c0bb752af367f4d5c3be7c0);
  }

  const ROWS13: seq<seq<byte>> := [
    Row(0x7369e6a92493a1bf9df54a66405070b847c9889cc85096679062b2e0d91a78bc,
        0x25b2697bd267f9e470019576ed86a0e747ed5d963c84fb33e1014434dcc5caed,
        0x1420683db54e4cd2e04ecc3bdf273b5e3ca5fbd9415dc7b89d673ffb13986864),
    Row(0x60b63bebf508a72dfb02d32fccbaac5c620c35005e58c102b478bd1e249dd197,
        0x31e83b4161d081c1d3b0da49a66bde536a1b0ce99646ac8b34eebb6fc1cc5ad0,
        0x55cf1eb62d5503175bece14b6f18683f49e48f4f29320ad897e8c7129e062b4f),
    Row(0x669a6564570891d4e2402fa912c55fa78b9d086d5094819c5879101065c23d58,
        0x1a56fbaa62ba0133bd831ce34913ee20d73ab9dde799cc363076b5e37df58c52,
        0x13c4836799c58a5c9873ae5641347651302557bba77c371a943e6b505c9dc9ec),
    Row(0x66f80c93a637b60719f83664ecb5b9b6fc13c187c7f13f61423a5d465ab3e1b9,
        0x50bdc87dc8e5b827d4b2e883b8e55365deebc4ec571a4842c4dcfb6a5d8bd080,
        0x1dd56444725fd5ae64b03ac325b73b9632353e15f011abd9606d37836edfe111),
    Row(0xe645912219f732e6e71454349220c8bbc9f6ac471cd7c158fa47ff83362127d,
        0x3a3a450f63a305cdf3e38be19fe7977c7d4cea11eae1c3e0c297e60008bac89a,
        0x318c8d9393a9a87bd1e36c6d17996f80389d3183de94a510078f2f31d8394627),
    Row(0x224c7c679a1d5314bc98d3e3ba8598ef0c9f3c497f24db66f2745d032afffe19,
        0x509a41c325950af655851dfdf35973cdfc921658342d9e3b5d669e29ab1dd398,
        0x5bff02328a1138982ec12809d833e89793ef3f4641b1f33bdc06edca6f925e9),
    Row(0x780b8cc3fa2a44a796741049d21a1c88544acf0ad1accf593632137023cae00b,
        0x576277cdee01a3ea1f748e6b8f4a52404fe70dc844a5fafe6881a0dd0dc512e4,
        0x5ff418726271b7a15e82a51434e62a0d9a577fbd1405de081ef38abc234f305f),
    Row(0x106a03dc25a966befa98894c06bd035da7602025f3e778f5398e080c1789db9d,
        0x29d4db8ca0a0cb69ac1f26e938781276f35d2a3b432610e1e5db47e813b69540,
        0x4ab38a51052cbefa3c57658ac888f7f038669da5acd309e5d9ad0aaf333353d0)
  ]

  lemma Rows13_1()
    requires Fermat()
    ensures |ROWS13| == 8
    ensures IsRow(ROWS13[0], Mult(0x100000000000000000000000000, BASE), Factor(13))
    ensures IsRow(ROWS13[1], Mult(0x200000000000000000000000000, BASE), Factor(13))
    ensures IsRow(ROWS13[2], Mult(0x300000000000000000000000000, BASE), Factor(13))
    ensures IsRow(ROWS13[3], Mult(0x400000000000000000000000000, BASE), Factor(13))
  {
    hide Fermat, IsMultiple, IsRow, Row, Mult;
    Points13();
    RowIs(0x100000000000000000000000000, G104, Factor(13),
          0x7369e6a92493a1bf9df54a66405070b847c9889cc85096679062b2e0d91a78bc,
          0x25b2697bd267f9e470019576ed86a0e747ed5d963c84fb33e1014434dcc5caed,
          0x1420683db54e4cd2e04ecc3bdf273b5e3ca5fbd9415dc7b89d673ffb13986864,
          0x1, 0x0,
          -0x1948191f747f713ef483ff9e5b6d7ecfcb3338fd6d928668b7be50a7cc76114a274ba99b8729efbda9a79a549c915c06a20d7059690a32f5bc1a8af20d1b9c8);
    RowIs(0x200000000000000000000000000, G105, Factor(13),
          0x60b63bebf508a72dfb02d32fccbaac5c620c35005e58c102b478bd1e249dd197,
          0x31e83b4161d081c1d3b0da49a66bde536a1b0ce99646ac8b34eebb6fc1cc5ad0,
          0x55cf1eb62d5503175bece14b6f18683f49e48f4f29320ad897e8c7129e062b4f,
          0x1, 0x0,
          -0x1e451d8a3d835d0a1e85af83b2437a5d25dc4f3514a2aaace80daeb191551c7b18ac3ad03846e23c3e4fee335b1cae53dc863cef58d4df7cfbc48dba0abd0a7);
    RowIs(0x300000000000000000000000000, M13_3, Factor(13),
          0x669a6564570891d4e2402fa912c55fa78b9d086d5094819c5879101065c23d58,
          0x1a56fbaa62ba0133bd831ce34913ee20d73ab9dde799cc363076b5e37df58c52,
          0x13c4836799c58a5c9873ae5641347651302557bba77c371a943e6b505c9dc9ec,
          0x1, -0x1,
          -0x1d00b2d5d52c87ac922214dadb6b2e68ba6dc55cb025ccb2385f26999bf28bb3bd31f468891cc42a88dc60a59b11ac76bd62ea17fb77f51b5f18ae4fffe7eec0);
    RowIs(0x400000000000000000000000000, G106, Factor(13),
          0x66f80c93a637b60719f83664ecb5b9b6fc13c187c7f13f61423a5d465ab3e1b9,
          0x50bdc87dc8e5b827d4b2e883b8e55365deebc4ec571a4842c4dcfb6a5d8bd080,
          0x1dd56444725fd5ae64b03ac325b73b9632353e15f011abd9606d37836edfe111,
          0x1, 0x0,
          -0x75fc8e2738ee36ebcd24197782d6e66300ff0e98f711ebc43b99a79a08652d20b0ca1d406bd6f596340a316bbbfe258c2d3b54f769847777d020707277a1993);
  }

  lemma Rows13_5()
    requires Fermat()
    ensures |ROWS13| == 8
    ensures IsRow(ROWS13[4], Mult(0x500000000000000000000000000, BASE), Factor(13))
    ensures IsRow(ROWS13[5], Mult(0x600000000000000000000000000, BASE), Factor(13))
    ensures IsRow(ROWS13[6], Mult(0x700000000000000000000000000, BASE), Factor(13))
    ensures IsRow(ROWS13[7], Mult(0x800000000000000000000000000, BASE), Factor(13))
  {
    hide Fermat, IsMultiple, IsRow, Row, Mult;
    Points13();
    RowIs(0x500000000000000000000000000, M13_5, Factor(13),
          0xe645912219f732e6e71454349220c8bbc9f6ac471cd7c158fa47ff83362127d,
          0x3a3a450f63a305cdf3e38be19fe7977c7d4cea11eae1c3e0c297e60008bac89a,
          0x318c8d9393a9a87bd1e36c6d17996f80389d3183de94a510078f2f31d8394627,
          0x0, -0x1,
          -0x2b242025d58d0cab2f42c3b6e5ea195277cacee66d5d07024955eae5b9304b12ccdf6b699e4ad51c6e9fda1f5e647f1c490205c66709d82b4d8625b616a61949);
    RowIs(0x600000000000000000000000000, M13_6, Factor(13),
          0x224c7c679a1d5314bc98d3e3ba8598ef0c9f3c497f24db66f2745d032afffe19,
          0x509a41c325950af655851dfdf35973cdfc921658342d9e3b5d669e29ab1dd398,
          0x5bff02328a1138982ec12809d833e89793ef3f4641b1f33bdc06edca6f925e9,
          0x0, -0x1,
          -0x34fbcdc084a6e7edf6e0812216a4b212ec94d7f297f17619dcaf0c4f517ffa0b63ba23b1f2698a41b3fdb4a6a8dff71cb5f96e5c4017e723f027baadb2ae6b7f);
    RowIs(0x700000000000000000000000000, M13_7, Factor(13),
          0x780b8cc3fa2a44a796741049d21a1c88544acf0ad1accf593632137023cae00b,
          0x576277cdee01a3ea1f748e6b8f4a52404fe70dc844a5fafe6881a0dd0dc512e4,
          0x5ff418726271b7a15e82a51434e62a0d9a577fbd1405de081ef38abc234f305f,
          0x1, 0x0,
          -0x97a0e8a54687b0a4d3a30324e4c272439c0c6413dad5ab3fbafcec7667f4be373da5eea41deb9d6d6ae8b8e55c3c77676b7527db978dd171566e5f4efab651f);
    RowIs(0x800000000000000000000000000, G107, Factor(13),
          0x106a03dc25a966befa98894c06bd035da7602025f3e778f5398e080c1789db9d,
          0x29d4db8ca0a0cb69ac1f26e938781276f35d2a3b432610e1e5db47e813b69540,
          0x4ab38a51052cbefa3c57658ac888f7f038669da5acd309e5d9ad0aaf333353d0,
          0x0, -0x1,
          -0x23c1e178fc0b530574fb7c1a974899b02a8924152720dd0cb9bb748638d41d192c424aed431f3a7a04b62034ed5473dd45cfed231750392a25a8a07eef437a20);
  }

  lemma Power13()
    ensures Pow(256, 13) == 0x100000000000000000000000000
  {
    Power12();
    assert Pow(256, 13) == 256 * Pow(256, 12);
  }

  const TABLE13: seq<seq<byte>> := TABLE12 + ROWS13

  lemma Table13()
    requires Fermat()
    ensures AreRows(TABLE13, 14)
  {
    hide Fermat, IsRow, Row, Mult, Pow, Factor, IsBlock, AreRows, ROWS13, TABLE12;
    Rows13_1();
    Rows13_5();
    Power13();
    Together(ROWS13, 13, 0x100000000000000000000000000);
    Table12();
    MoreRows(TABLE12, 13, ROWS13);
  }

  const M14_3: Point := Point(0x33287cd3c57f3dcd485feb019177d1e96976c619395d27326d1a396aef810769,
                          0x70f3e2be1882489b3126ff2bf72cf74c5f70358f5633299eac146fea1c371cde)
  const M14_5: Point := Point(0x1c70927aa306eaf587c3ca6fc2d4c6f02af2119e03129631180e4d47a7c2e55b,
                          0x2e259ec780da033e55c0baf4c3b4d80268e870d26e6eb1c10cb5654a077444f0)
  const M14_6: Point := Point(0x1e22f8e8551eaea83b689b626ac089595eb5ff9c9bfb4c3c44e14989f13c72ec,
                          0x121fd5fd0c3ab08f0d82a53987aac64d85a071f32ef0d6daec0117e4d3609883)
  const M14_7: Point := Point(0x6237e93647e5e784102427171f6aace9270584072224661a326062a41118f91a,
                          0x438c3caf8e404f0c55d817948230e504be55872b056d36c7975d165245f5b2fb)

  lemma Points14()
    requires Fermat()
    ensures IsMultiple(0x10000000000000000000000000000, G112)
    ensures IsMultiple(0x20000000000000000000000000000, G113)
    ensures IsMultiple(0x30000000000000000000000000000, M14_3)
    ensures IsMultiple(0x40000000000000000000000000000, G114)
    ensures IsMultiple(0x50000000000000000000000000000, M14_5)
    ensures IsMultiple(0x60000000000000000000000000000, M14_6)
    ensures IsMultiple(0x70000000000000000000000000000, M14_7)
    ensures IsMultiple(0x80000000000000000000000000000, G115)
  {
    hide Fermat, IsMultiple;
    Powers114();
    Powers120();
    Added(0x10000000000000000000000000000, G112, 0x20000000000000000000000000000, G113, M14_3,
          0x7357067a9e3dec90b0c6003eb6574c1276ca6e7634a9c94e16e3a461be5dd045,
          0x1b511e32c17844eddb2e1bc6bffc25e824b6d17b767bf92ba6813d459ab6a1435a472e5dae2012643eb985383e55b3d2581cfa5347be6ebb6f8863743fab179d51bafd42f3ed8c4e6f9123cf0c5409e46b1130e2201dae9e18471cc64108d1625bbedcf2d754610c7dee5995adf3b1ae4eb23f7bfaad81765944cce0aa34d31,
          -0x462b30aa9138e900d3aa5b1c155eb1ca20c2c9a91d7e056d7bd2b89630da96f7,
          -0xce42cb4b6290c0c870aae5dc3b0ab3627f3e61ed641099df48c4c67da2356b23);
    Added(0x10000000000000000000000000000, G112, 0x40000000000000000000000000000, G114, M14_5,
          0x559a93067db37fbc225d52aa374b879c92d0c5340916f24bb75bf0360f080bf8,
          0x51ad10986d16b2d64bfb212e2abcfe7254f3643dd1eb24c138c13be809b7c4ed7904799db8b2e4e8226424519de5943c72c5669730aa73df058c10dc4eda12d5835d9b365ca8d3e23e4744314abf431b4def6bbc64721ca6ae2954098c657fba78bfb954b49b30c4bf4eade07d5c15ce471d5f93a4f1d60b25262995eb1ee0,
          -0x5b1ea43d2eb749d9cae844c9e62a8187ab40deb490b0951d0cb7daf5d41a063f,
          -0x67a3effa8ebc591fdaf5573cc4daf1e3d66d04029d8f0571f9748ff7b40ec361);
    Added(0x20000000000000000000000000000, G113, 0x40000000000000000000000000000, G114, M14_6,
          0x1ba92972b36ce68bf04d2e0b77ea7e0e8854b68e2c0fc8829b3357c7a86d28a8,
          0x43f69908964709addd804c712f4af067ce98f2daf24d206474911fe8d0d0e85b86dc6a3506ed4a9fba39cd85749de3c857f8e58851d75d486f17801bc78030e90585d31e385a647f14d21de99fc6ece734ce22b2c646b39870ff36f00c138d97ac26df48241357b49373c442f6cacaa9cd3ed0de916d8c1451c809723fd4cc,
          -0x3c8b2a3e18096ec3113fdfa889c164180840d2a96792bed1417f09d985610aef,
          -0x673a5e8d4d793cc0f623fdb2265d6447b6394977fb2bb1ceb311188bb9b9096e);
    Added(0x30000000000000000000000000000, M14_3, 0x40000000000000000000000000000, G114, M14_7,
          0x2c64ec45d47da5ef2b957767858d993f43672a932343a8ddb6fb6c1f84e56f23,
          0x4063d15c433d31be4634a170409d0f6e0e3b83414ead5afdf7a49e82a91f703e465e322a228f0177dd0cbac91794fdb7ad599ab3aa1e25168b51ebbaea01a037774d4d019df45ac09025e5eb6161fb02a9da8596ed868c7d8e6aadfa7b18041cae139334fd5cb0e93180456c0645d6addda0a0c8f01b87ad56118dc9ff0859,
          -0x4eb47c78e4199d7dbda65fe13ecd4d41928cf8a8f5e96216f7a50493fb7284de,
          -0x50f860654e1542c307f95d2d385b01a6a0216b1ae53ee46a8101dbcbfbf36a79);
  }

  const ROWS14: seq<seq<byte>> := [
    Row(0x29cdd1adc088a690f1a80bd5ca0ace1d98c1c0574422ca13da7c2b256768d593,
        0x3041c6bb04ed2b9b25d56b5d201634c2e82b3efdf7575dced6cfd1ef5fddc09c,
        0x104bbd6814049a7b1a4698bb5f6c025cade797759f356b2e0ff2f2f9d956e148),
    Row(0x5be8cc57092a714944dc5c4304d2f2de2c811dcdd86f3bc251f0fd3168f1ed67,
        0x204f2a20fb072df5b7f8024cde20f257e92be69d4cc75681a95d9a5fd67ff163,
        0x2570fb17c279161f653c3c318f6d5c317589155abd652e30c8143b3d30ebb079),
    Row(0x3dcb65ea53030acde8c7142a65b52562f5f96f761cd6026c3efa367f2cb61575,
        0x241c5f91de0186687986ea2d88a4c935c8e6fba88f9050d1192ea9550bb8245a,
        0x8420edd5fcdf0e516d7fcdd235b01d18fbf2cf022d9733a28d8172940de6caa),
    Row(0xd9a53efbc1769fde3179617fc39e62b57e118d4e21a3e6ecdff20ab8362fa4a,
        0x4d654f321db889c5d9670c7ebb91521b6135b5a276e06850358c34e04f410ce,
        0x4a7a4f2618991ad71cb608173334a2922954deb68da5dd2d5e7dc116ddbdb5d5),
    Row(0x11b50c4cddd31848cdfcf08500e011123df65f346b5c1b8ff4a718025fb15f95,
        0x4a96314223e0ee33dd84856486899ef293da8270718147f224c3b291af372a4b,
        0x4f4bce4dce6bcc51773348b63d02b3f2738e177e9c1576d9a6e8274408a4ffd6),
    Row(0x73fcdd14b71c01e6d21a09d71cea3cf426ea725692f58a9ea71fce5ae2242584,
        0x3042cee561595f3748eb409bf26b4fa6e456718fcaec231730e2616ec49d0b6f,
        0x389e740c9a9ce1d64cae76215f841a7c855ae36dbce2310a427e7079449bac41),
    Row(0x61545379465a678845b3f07d62c6381b97500323e348d0ad64fcb3ae34dcb9ce,
        0x25c425e5d626369065fc3eaba19b91ede55b0b3227919ce1c9bd78f6570eac28,
        0x6539a089154847598c14f6264e8a6c773ef976278e0623083f3e06a6f1d7de6e),
    Row(0x11c5e4aac5cd186c624e5ce8f9b99e33c150544125c46845e9d21f74c3d2f773,
        0xf65320ef019bd9048a89fd736ca716919b2bc3c98424f8eddc4dbd414bb4a19,
        0x4cabc7bdec33072a59a8af0dfaf2939a4f3fe6e3163b5181d486d1b1cafde0c6)
  ]

  lemma Rows14_1()
    requires Fermat()
    ensures |ROWS14| == 8
    ensures IsRow(ROWS14[0], Mult(0x10000000000000000000000000000, BASE), Factor(14))
    ensures IsRow(ROWS14[1], Mult(0x20000000000000000000000000000, BASE), Factor(14))
    ensures IsRow(ROWS14[2], Mult(0x30000000000000000000000000000, BASE), Factor(14))
    ensures IsRow(ROWS14[3], Mult(0x40000000000000000000000000000, BASE), Factor(14))
  {
    hide Fermat, IsMultiple, IsRow, Row, Mult;
    Points14();
    RowIs(0x10000000000000000000000000000, G112, Factor(14),
          0x29cdd1adc088a690f1a80bd5ca0ace1d98c1c0574422ca13da7c2b256768d593,
          0x3041c6bb04ed2b9b25d56b5d201634c2e82b3efdf7575dced6cfd1ef5fddc09c,
          0x104bbd6814049a7b1a4698bb5f6c025cade797759f356b2e0ff2f2f9d956e148,
          0x0, -0x1,
          -0x24b0c108bc263a83d615832ab9a0f9c5477964628195121dbdf06e22b4f6b44544bf0ea4aed0013863531b775b7584827f9faca0e2746bab3cd67ebfd3431564);
    RowIs(0x20000000000000000000000000000, G113, Factor(14),
          0x5be8cc57092a714944dc5c4304d2f2de2c811dcdd86f3bc251f0fd3168f1ed67,
          0x204f2a20fb072df5b7f8024cde20f257e92be69d4cc75681a95d9a5fd67ff163,
          0x2570fb17c279161f653c3c318f6d5c317589155abd652e30c8143b3d30ebb079,
          0x1, -0x1,
          -0x1e87c8e44453f409c389ec83100b8eab66a5cf7ee3226c0fe8502fd503df01c0d77c58eec8f2fcb20c1ae3caddb32cf3e61516f1217e1d1c55261c802db4e2b5);
    RowIs(0x30000000000000000000000000000, M14_3, Factor(14),
          0x3dcb65ea53030acde8c7142a65b52562f5f96f761cd6026c3efa367f2cb61575,
          0x241c5f91de0186687986ea2d88a4c935c8e6fba88f9050d1192ea9550bb8245a,
          0x8420edd5fcdf0e516d7fcdd235b01d18fbf2cf022d9733a28d8172940de6caa,
          0x0, -0x1,
          -0x1cecd914f8052781b25eff82c97e84458a83fed9056c077afe63dc270631cf21de10a105b7e181d83818f19dfdf2f5c8aeaf4092c5f43b2f8c802c631120de92);
    RowIs(0x40000000000000000000000000000, G114, Factor(14),
          0xd9a53efbc1769fde3179617fc39e62b57e118d4e21a3e6ecdff20ab8362fa4a,
          0x4d654f321db889c5d9670c7ebb91521b6135b5a276e06850358c34e04f410ce,
          0x4a7a4f2618991ad71cb608173334a2922954deb68da5dd2d5e7dc116ddbdb5d5,
          0x1, -0x1,
          -0x5b48cbdef11a9e025fa267f5226606c617f0f503245d8c250ed7b796b630adec7d2ecc08f79f0d4a69de665f2947756f86eb91cc319cfb248820a1bbe3c928f);
  }

  lemma Rows14_5()
    requires Fermat()
    ensures |ROWS14| == 8
    ensures IsRow(ROWS14[4], Mult(0x50000000000000000000000000000, BASE), Factor(14))
    ensures IsRow(ROWS14[5], Mult(0x60000000000000000000000000000, BASE), Factor(14))
    ensures IsRow(ROWS14[6], Mult(0x70000000000000000000000000000, BASE), Factor(14))
    ensures IsRow(ROWS14[7], Mult(0x80000000000000000000000000000, BASE), Factor(14))
  {
    hide Fermat, IsMultiple, IsRow, Row, Mult;
    Points14();
    RowIs(0x50000000000000000000000000000, M14_5, Factor(14),
          0x11b50c4cddd31848cdfcf08500e011123df65f346b5c1b8ff4a718025fb15f95,
          0x4a96314223e0ee33dd84856486899ef293da8270718147f224c3b291af372a4b,
          0x4f4bce4dce6bcc51773348b63d02b3f2738e177e9c1576d9a6e8274408a4ffd6,
          0x0, 0x0,
          -0x691cbca0cfc62f94d31fd64219c9aaaf8a2b6faccff186e0a421691f432a501ca9c0991d486aef5161c770aa9b107240d6e7941351015c479860d23ec2296f2);
    RowIs(0x60000000000000000000000000000, M14_6, Factor(14),
          0x73fcdd14b71c01e6d21a09d71cea3cf426ea725692f58a9ea71fce5ae2242584,
          0x3042cee561595f3748eb409bf26b4fa6e456718fcaec231730e2616ec49d0b6f,
          0x389e740c9a9ce1d64cae76215f841a7c855ae36dbce2310a427e7079449bac41,
          0x1, 0x0,
          -0x2bbf10c44889c43fdb68643279a05163faecfda562073ea22e9b87aabf9cb2bae742b7c9dc6ce2326e9a15f75f7560c1cf50579514d0394e42b54d16a40d5d3);
    RowIs(0x70000000000000000000000000000, M14_7, Factor(14),
          0x61545379465a678845b3f07d62c6381b97500323e348d0ad64fcb3ae34dcb9ce,
          0x25c425e5d626369065fc3eaba19b91ede55b0b3227919ce1c9bd78f6570eac28,
          0x6539a089154847598c14f6264e8a6c773ef976278e0623083f3e06a6f1d7de6e,
          0x1, -0x1,
          -0x2135c276f78a8155df0fd003d2fdcb6526becd0d8560bbfc733bfc8432ab478a7449f3575db72ecfc29d9cf6c14f12d04b288ed2444810bc7486ca97028ccd5e);
    RowIs(0x80000000000000000000000000000, G115, Factor(14),
          0x11c5e4aac5cd186c624e5ce8f9b99e33c150544125c46845e9d21f74c3d2f773,
          0xf65320ef019bd9048a89fd736ca716919b2bc3c98424f8eddc4dbd414bb4a19,
          0x4cabc7bdec33072a59a8af0dfaf2939a4f3fe6e3163b5181d486d1b1cafde0c6,
          0x1, -0x1,
          -0xa86fae6845796401a6d07cd977532861e659ac61d086ae61cd30e2bd1a5d2153629c2170ae9b7b143dc3c4aeb33cd932b2511b22640f0cae3666d1fb91551e2);
  }

  lemma Power14()
    ensures Pow(256, 14) == 0x10000000000000000000000000000
  {
    Power13();
    assert Pow(256, 14) == 256 * Pow(256, 13);
  }

  const TABLE14: seq<seq<byte>> := TABLE13 + ROWS14

  lemma Table14()
    requires Fermat()
    ensures AreRows(TABLE14, 15)
  {
    hide Fermat, IsRow, Row, Mult, Pow, Factor, IsBlock, AreRows, ROWS14, TABLE13;
    Rows14_1();
    Rows14_5();
    Power14();
    Together(ROWS14, 14, 0x10000000000000000000000000000);
    Table13();
    MoreRows(TABLE13, 14, ROWS14);
  }

  const M15_3: Point := Point(0x32beb4e36411f53e324ddbd920d42bd403e93f61e3957ca6fdf1bafd72fc5b92,
                          0x425a36157c40b8503cb9a0e61ada1359e9a6c43bd0392d6aa5101fc9e7901786)
  const M15_5: Point := Point(0x65f711807e58866defe3423611cca254bf4382fb1e50e54f50833c62b35f9f4f,
                          0x66f79ccc68c4d222542315abe148d5fa57f5ad3d0b2733fd35616d7f9d9637a)
  const M15_6: Point := Point(0x115b217ea5058247e884bdc6a11628b6b2122a7249abd7f6851aa4052f89d69a,
                          0xd6e86f3a086b7479bd12ef37dd90d3eb65f06e7a9e6c90bd2804137e9279f1a)
  const M15_7: Point := Point(0x1e90739a6bbf8455cbeccfe11a1fce59c64f2315b4c51d17ed1ca0b1d181a9aa,
                          0x43299d97384722ca513fd249d8d69fe0c92f1282ab313cd498a5f82287b7869c)

  lemma Points15()
    requires Fermat()
    ensures IsMultiple(0x1000000000000000000000000000000, G120)
    ensures IsMultiple(0x2000000000000000000000000000000, G121)
    ensures IsMultiple(0x3000000000000000000000000000000, M15_3)
    ensures IsMultiple(0x4000000000000000000000000000000, G122)
    ensures IsMultiple(0x5000000000000000000000000000000, M15_5)
    ensures IsMultiple(0x6000000000000000000000000000000, M15_6)
    ensures IsMultiple(0x7000000000000000000000000000000, M15_7)
    ensures IsMultiple(0x8000000000000000000000000000000, G123)
  {
    hide Fermat, IsMultiple;
    Powers120();
    Powers126();
    Added(0x1000000000000000000000000000000, G120, 0x2000000000000000000000000000000, G121, M15_3,
          0x137e53f47a7d47706967257ab8600acdeed9b50c650553dc1053329eaf19b036,
          0x7e256acddc6773df354f56f2724fbc71aad2ac0bc1ccbdec1dc498a65f76ba34b5c0383a892b3313880e64cbc859645b574a6c58b0d69cda75ec491a3d4eeb7aa4a949e0fdf1927fddc20fcdf79051ec5ce42e8e7f3931cea741115d70f47b7cd1835660075e33dc46fc60bfe45df2f48ba7f0568f477cbaab1c18219e52f2,
          -0x4132629141a261b9da8b36be3f0aafb6181ced5b557c7f7e4a24d29b0b6923e6,
          -0x44c839e0b3e723bbbeeca617d6960af55d69b25ce5c4b18c0f29fde19f7858fa);
    Added(0x1000000000000000000000000000000, G120, 0x4000000000000000000000000000000, G122, M15_5,
          0x4360f3a32b8852ede395b6e58912edade17fb74861d05de7897c9be1ffe31ad0,
          0xc054dbb74e97cf84e4e51ff13acb8f7fd6c676a3dee4cbad986674954e9ca7b7610b3ee0542c9c85a3e79862f63250949a8a47f0372d429dc7462b87b1c131f5c14a0a0d4359f8c9ab002c00525c7ff4ed2067c1563f12168aef8b0b6e7121cf2b6ed78e907cfeb00a81e889a89da4d2bef32027a15130fb119d9cfa9230,
          0x3122ba2968300aa79f3ee25c1e23c690da799840cae52c1d1ce05b0cce9c44d7,
          -0x7c41b23d393c3778b3b9bedd35b379b82feeee7c385c73b0018ab0a0d87afaa);
    Added(0x2000000000000000000000000000000, G121, 0x4000000000000000000000000000000, G122, M15_6,
          0x37d6c8bc873c1f55636fa01023c5857f650055d42a37ac1d9629fd60114b9641,
          0xa9b61c9020c082ed36d2ce35b176b2604478291171772abec41a9a6ffb17ebaed22e5ab96af1bc811cf57d6ef66e92686a8ac3cfae774ca9b60595c614bcf69fbe905d236d6663089dfa0c8c0f3106c11201baacf73ae4e5e2db84a5620c3564bf963fe225ceb2880f35a98de44b52d6afcebfe72c5ffc4c5f56ab86fddb,
          0x3168fd14cb814a5fca76f15b3dd96c26e9e3b068595b2baac2b3e6ca7865124,
          -0xab463ac1f91bbea76809a414fe6382f4937851bd0e63438751ef35cb205ada0);
    Added(0x3000000000000000000000000000000, M15_3, 0x4000000000000000000000000000000, G122, M15_7,
          0x5c825cab69b7edfff70cdc0213972a4c36855fa7f14f90006a498a27804316f6,
          0xa95a1ec0516161f0b318324e506491cb72537a60289777ae0338016090ecffc8c281140c0b601d3c94ba80a24de64458602e81aa5ae5385a3bf45d5d0c9ee150f4abbb68fe0268e493ec7d577c5652c1650c351dd8a6b6e2c0dc2288158fcfd63effe84532d8c3961da41d2150c55273cb2dfb0852468cc5a2075321ebb2,
          0x1204f5d8463cd999826c1ad3c20e1aa5ef01e553a441e81bd2972bc6230df8ae,
          -0x34b2d0bdc62ddcc84920db56a5ef46484bf054b9494745c6b076d59d7fa533cc);
  }

  const ROWS15: seq<seq<byte>> := [
    Row(0x639b93f0321c858217dbed2a764fa12ac748c4c03afe4738239e9624089c0a2e,
        0x7ee498165acb2021f2778bfccf65cc9dfe30a72ca1404d9fc08f788f3f78d289,
        0xedf493c85b602a6e7d2aec2ae72fd192b2b90d4809074897bd508e39111a1c3),
    Row(0x403b92e3019d4fb44fe41d7422b67f07ea574f0febade20eaecc8158599b5a68,
        0x4c00c54d1dfa3691c8fcffacae6bedea090403ff7f5f8356767c4d284764113,
        0x355bb12ab26176f4aee8bfad04c7d65771a0f35a1480eff84dc22f818b465cf8),
    Row(0xf9b8132182ec3120a6bc50cfa05e785e5bd84d9eca3b0c3a71e64cc7493bbf4,
        0x7518eaf8e052ad8e6f077cbf3bae3f2ded90039db3ceaa11a301dac75a8c7318,
        0x47c3871bbb1755c41815a929c9b1d1d90f2d60bcf4383298a48859c41b7f6c32),
    Row(0xb89b85764699dcf762c11a47c3c66bf805b17dc98c5d6e5144539771ec4f48,
        0x8fea02ce8d48d5fe53754ea441ae8e062ecc4b0b3a299b0fbe65d50c85066b0,
        0x473829a74f75d537b514cfcd5d89d665c86445204b685d23824ddd7668deead0),
    Row(0x2078684c4833c6b4355eef24ac47eb0ae63bd7d8b2618df082d2da754679c418,
        0x6c668b4d44e4d39015257390cfe12fb464c2ddceef03588f23d9533aad3902c9,
        0x7411a6054f8a433fa96c65a78c8eed7bf76a0ab281273e973b48cf217a78820c),
    Row(0x7c136574fb8134ffb34c712cdcc2e488044cdc75603af1154d659d32b99dc86d,
        0x1ec9a872458c398f8455ecba1eef35f568713159f392a102579ae53d18b175b4,
        0x3add88a5c7cd646057e7cc9bf19575619b81d7020bc882b4b8e6a4d400a2509b),
    Row(0x249929fccc879e7485530268beb6d18702dfef6cf66c1fbcab895770b635dcf2,
        0x61ba1131a406a7201d2ca22af2f66e3a8f7e35985ff659ec85c298d459393046,
        0x5620310cbbd8ece77bf15a3e26783307023b6b6cba7ebd89a3d0a0f116959029),
    Row(0x37676a2a4d9d97308f6d878fc3f41c22b9dbf806a51222f5528993434934d643,
        0x7ec846f3658cec4da6ec7311abb594dd40e8ff676c8f61936646b5f477e285d6,
        0x6daaf723399b9dd5214c8fcfa2989fb8130f1d776c01cd139b5e8f3f1da22ec7)
  ]

  lemma Rows15_1()
    requires Fermat()
    ensures |ROWS15| == 8
    ensures IsRow(ROWS15[0], Mult(0x1000000000000000000000000000000, BASE), Factor(15))
    ensures IsRow(ROWS15[1], Mult(0x2000000000000000000000000000000, BASE), Factor(15))
    ensures IsRow(ROWS15[2], Mult(0x3000000000000000000000000000000, BASE), Factor(15))
    ensures IsRow(ROWS15[3], Mult(0x4000000000000000000000000000000, BASE), Factor(15))
  {
    hide Fermat, IsMultiple, IsRow, Row, Mult;
    Points15();
    RowIs(0x1000000000000000000000000000000, G120, Factor(15),
          0x639b93f0321c858217dbed2a764fa12ac748c4c03afe4738239e9624089c0a2e,
          0x7ee498165acb2021f2778bfccf65cc9dfe30a72ca1404d9fc08f788f3f78d289,
          0xedf493c85b602a6e7d2aec2ae72fd192b2b90d4809074897bd508e39111a1c3,
          0x1, 0x0,
          -0x132433f14906b031e413001c609b4ec5d0ae6281a4a20036fff332c9637ea63e8ed262080a3e4843bb94d9371f48cd95fbc9f4b46201d07e3ab4b122a9b1cda9);
    RowIs(0x2000000000000000000000000000000, G121, Factor(15),
          0x403b92e3019d4fb44fe41d7422b67f07ea574f0febade20eaecc8158599b5a68,
          0x4c00c54d1dfa3691c8fcffacae6bedea090403ff7f5f8356767c4d284764113,
          0x355bb12ab26176f4aee8bfad04c7d65771a0f35a1480eff84dc22f818b465cf8,
          0x0, -0x1,
          -0x10e3e3dad9e3c024a77e59e231e3430461d6ba36d3150a19073a51ece598821fb67029f87130e118f5a93e4fb440dc46bce4278ca926c52a8c3f8d3d94827948);
    RowIs(0x3000000000000000000000000000000, M15_3, Factor(15),
          0xf9b8132182ec3120a6bc50cfa05e785e5bd84d9eca3b0c3a71e64cc7493bbf4,
          0x7518eaf8e052ad8e6f077cbf3bae3f2ded90039db3ceaa11a301dac75a8c7318,
          0x47c3871bbb1755c41815a929c9b1d1d90f2d60bcf4383298a48859c41b7f6c32,
          0x0, 0x0,
          -0x10dabc1b02b94452066524f3968386fbbb263378fb50db0620356a35f81571bd7f948dd6c7a192e13b4c15158bca2189b62ce4367ca2eedab046effe6fc3b3ee);
    RowIs(0x4000000000000000000000000000000, G122, Factor(15),
          0xb89b85764699dcf762c11a47c3c66bf805b17dc98c5d6e5144539771ec4f48,
          0x8fea02ce8d48d5fe53754ea441ae8e062ecc4b0b3a299b0fbe65d50c85066b0,
          0x473829a74f75d537b514cfcd5d89d665c86445204b685d23824ddd7668deead0,
          0x0, 0x0,
          -0x19c0833e178dd1f85048f3e16f4d09cb1966c7dc8ff22fa40a5835591e1393f02990631eace46d7084e3ef46119b3bc6084c08c0af0e08e1c58d838da5b790);
  }

  lemma Rows15_5()
    requires Fermat()
    ensures |ROWS15| == 8
    ensures IsRow(ROWS15[4], Mult(0x5000000000000000000000000000000, BASE), Factor(15))
    ensures IsRow(ROWS15[5], Mult(0x6000000000000000000000000000000, BASE), Factor(15))
    ensures IsRow(ROWS15[6], Mult(0x7000000000000000000000000000000, BASE), Factor(15))
    ensures IsRow(ROWS15[7], Mult(0x8000000000000000000000000000000, BASE), Factor(15))
  {
    hide Fermat, IsMultiple, IsRow, Row, Mult;
    Points15();
    RowIs(0x5000000000000000000000000000000, M15_5, Factor(15),
          0x2078684c4833c6b4355eef24ac47eb0ae63bd7d8b2618df082d2da754679c418,
          0x6c668b4d44e4d39015257390cfe12fb464c2ddceef03588f23d9533aad3902c9,
          0x7411a6054f8a433fa96c65a78c8eed7bf76a0ab281273e973b48cf217a78820c,
          0x1, 0x0,
          -0x348e1f7be0016b5791113c62df75d3c1056d29aa6e054dee9a6726b1a0c790d682882623bb62aa63c94c6d547b8caa87852d0517a36bb0cdab9fb3218142bb8);
    RowIs(0x6000000000000000000000000000000, M15_6, Factor(15),
          0x7c136574fb8134ffb34c712cdcc2e488044cdc75603af1154d659d32b99dc86d,
          0x1ec9a872458c398f8455ecba1eef35f568713159f392a102579ae53d18b175b4,
          0x3add88a5c7cd646057e7cc9bf19575619b81d7020bc882b4b8e6a4d400a2509b,
          0x1, 0x0,
          -0x12abc34d9b069bc406f2edf37144545e5ad59ade1b83372651c5a69f35713a1b4d47425b3726d52d041aedceb8dc25a5f90d87d766fb56f0eda1f599db2d591);
    RowIs(0x7000000000000000000000000000000, M15_7, Factor(15),
          0x249929fccc879e7485530268beb6d18702dfef6cf66c1fbcab895770b635dcf2,
          0x61ba1131a406a7201d2ca22af2f66e3a8f7e35985ff659ec85c298d459393046,
          0x5620310cbbd8ece77bf15a3e26783307023b6b6cba7ebd89a3d0a0f116959029,
          0x0, 0x0,
          -0xa468bd28c28609f51a0ab8e9af47ec078089cae64613af5d703b4c2da842fac03cb3e0cafd0ec82d41b1e5f8b0451133bb1bb73985e0a00d55da2ff78aba623);
    RowIs(0x8000000000000000000000000000000, G123, Factor(15),
          0x37676a2a4d9d97308f6d878fc3f41c22b9dbf806a51222f5528993434934d643,
          0x7ec846f3658cec4da6ec7311abb594dd40e8ff676c8f61936646b5f477e285d6,
          0x6daaf723399b9dd5214c8fcfa2989fb8130f1d776c01cd139b5e8f3f1da22ec7,
          0x1, 0x0,
          -0xd8515be1bab21dd6b7457f15bac390fc70c7c899e5d555d14a0fa50144808320763825c3dd27b006d98d3894d35ad1f8f52181074e50e366cd0a23bab33effd);
  }

  lemma Power15()
    ensures Pow(256, 15) == 0x1000000000000000000000000000000
  {
    Power14();
    assert Pow(256, 15) == 256 * Pow(256, 14);
  }

  const TABLE15: seq<seq<byte>> := TABLE14 + ROWS15

  lemma Table15()
    requires Fermat()
    ensures AreRows(TABLE15, 16)
  {
    hide Fermat, IsRow, Row, Mult, Pow, Factor, IsBlock, AreRows, ROWS15, TABLE14;
    Rows15_1();
    Rows15_5();
    Power15();
    Together(ROWS15, 15, 0x1000000000000000000000000000000);
    Table14();
    MoreRows(TABLE14, 15, ROWS15);
  }

  const M16_3: Point := Point(0x9c186afb833951ca2fd3aa58b84f09baea4bacc8756d94b3125ca89f193c7c7,
                          0x6137b0746027b353934695b149864a1e02a82a6bbed54ff11a349a357f7b062f)
  const M16_5: Point := Point(0x4a2e1f96eee4e082b813e0365c89c9e8eda10ce5973c99554919e3a2b12d4f17,
                          0x6c3f24822e185c5b8c951188bfdf0da8dc229e517335a66444d4b832ac846fc4)
  const M16_6: Point := Point(0x5dbd3bf95494d7466af195bd869d2435462530ea6d0536a0af41449ec0ec3464,
                          0x56f5f77776e9fbb0863cd8c0a8992ab9a342ce2a7b7b9f8c137ce1c737e25b77)
  const M16_7: Point := Point(0x4b3702044575d3c0f1f2d57df9771cebb58e011afd275e119370badc76ed5685,
                          0x54333c50acf332f52f427a80e5606aafe36dcb0fafcce292482027acd289b820)

  lemma Points16()
    requires Fermat()
    ensures IsMultiple(0x100000000000000000000000000000000, G128)
    ensures IsMultiple(0x200000000000000000000000000000000, G129)
    ensures IsMultiple(0x300000000000000000000000000000000, M16_3)
    ensures IsMultiple(0x400000000000000000000000000000000, G130)
    ensures IsMultiple(0x500000000000000000000000000000000, M16_5)
    ensures IsMultiple(0x600000000000000000000000000000000, M16_6)
    ensures IsMultiple(0x700000000000000000000000000000000, M16_7)
    ensures IsMultiple(0x800000000000000000000000000000000, G131)
  {
    hide Fermat, IsMultiple;
    Powers132();
    Added(0x100000000000000000000000000000000, G128, 0x200000000000000000000000000000000, G129, M16_3,
          0x5b7e70c6e4b801ef0394ee3b8b20e1322208542a11f7f55e30729f71844fcf74,
          0x35fcee00e0edec052746a0cd296ac6491086d7f2920fdea3fa28f96b45d1d5e6666cdc6a256c94e8dd4afd15530c054e9d0abd15e54506ec2803dbd9283463f26403a548517800dbaf32cdb139767937d858ee8bf7ccac2628061fbfc49997e6e885045a7da91d782463e63d0cb89f9b2bc8118a5dbb7fbbb73d158f9a66b14,
          -0x8ecadb2c8a0b68e21f4e7c7f63144ad699bbfe30b0a69c69ac22813578dbfbac,
          -0xd8679dcc7e6cd785ebb7dc48df22d55cbc88dafdaf45e5209c756f98402e098f);
    Added(0x100000000000000000000000000000000, G128, 0x400000000000000000000000000000000, G130, M16_5,
          0x71b350a757427baec5852acac4d263573380df12bbdd6ea002c74774d217e0d9,
          0xc0d3e568620774f2a9ababaa03562d1c740f85048f6c1112843d285a35df924baf061d056c098ac018576efc3c8053dbcbcc989b1e684b1796ea1803f46415ade294125c0e926e1bf23502147c6894134e40860603adb154987e2da7a3d790a656bd77b1d573fd2283924238a8a395c66e6fbf07f64088baa021cf8d5034e3,
          -0x7020350047eafbf661255e3197e2075be4dd5e5c2a838ea416f74d6a483ba67,
          -0xafe5ab8146a3bc8f2edc919d33cd28d8f7d1e09240bb8fa51db9d220a58ca7bc);
    Added(0x200000000000000000000000000000000, G129, 0x400000000000000000000000000000000, G130, M16_6,
          0x37ed17957aa4ecac2e9370e56051347559b3e6b7cdebed26b4dc8722b1b0a496,
          0x1444e8ad8d649c96113b189187b9ff5fa704f2e2cfc01a1a27e4fa8c01dc170b9db800185ee7c5d1bf8aa3008fb7fcdf81dbb0c8c56111daf8c91691db08e7e8fc4443d70ec45a6b9d29af762842b0726739b47c2df131c2ebac1d0ec2370a60ebed9e8558db5f1da74e6dfc5cb14ae694f936a5b6c51831bd882ea87c5b1d2,
          -0x3d3be7167f1f4761e45e84a0455c3e8f9baefcd1e18cf9e65c6ac3e88239e85e,
          -0x8547ee5c1cc97fceb400a10393ab61a965ec35a4247f8365677540168002ee6a);
    Added(0x300000000000000000000000000000000, M16_3, 0x400000000000000000000000000000000, G130, M16_7,
          0xb3d1358b6075e9cd58c18b2f54640f0733fae408b1eb9f0caeb023109f0f979,
          0x193b9bb8c9a93f28484a30ebfe866967c76f23a88eb45990983a8a5234878396659e48fea3d10aa4685d438ef2b68cc361bb66c3fb15f706645d1dc368c34a2d274c0ba23c362211bd16e57ee689635cf5b66e66227e058a2d4777f025230e3f3647489163a93d3bca686b9aea2fa3a96413a7912769e45511085afe1f7cc3,
          -0x195129b15d25046c059aa4bd6a5812a5e4df1661042c5d461ce47482be55f327,
          -0x46c76a2301e1d13841ecca8ff73665dbd536d87887793a89897d0d91cd357e39);
  }

  const ROWS16: seq<seq<byte>> := [
    Row(0x1304e9e71627d55100c3e53145747299f7ea38548ebda0b85f3a7562eb3dbe47,
        0x2b5449e58eb3bbaa2b1e583b0810c5db29b743e8148be884583b04bfacad8ea2,
        0x4468de2d7c2dd693da0fe1fff979c60a3c1bab3f8b48dd0b789814d26adc9cfe),
    Row(0x6cce7c6ffb44bd6393a5b6d6447f996233e6dc4c23ddc75451bb355e9419469e,
        0x5da6427e63247352d4a866c5657a772c21113531435d0c284b9ad8c6f86307ce,
        0x58f29abfe79f2ca888ad8c388d59580fb9066ef7bbae1ff81a94c688deac22ca),
    Row(0x577629c4a7f41e36f0495b0bbe01598254036f9f377e76a5e90ecfab8de73e68,
        0x6af93724185b48703643d056d50b3ab9b14ce538462c293c4b5a64bf710ecdf6,
        0x701f25bb0caec18f83e236233c33289fd2e036134b5589733220024509c6a888),
    Row(0x2e0c92bfbdc40be961e3061ff4bca59cf700660e9e25a87dc3a8b0f8e4616ced,
        0x720a5bc050955e5120f5b522ac4e60d6844a06e674bfdbe49d18f6d97cbec113,
        0xe9b9cbb144ef0ec691417f35c229346e84e8b376242abfc0c3f09439b805a35),
    Row(0x221104eb3f337bd8d4813152635543bfee81916bdbf90d0efbbad48ffb5720ad,
        0x366d44191cfd3cde44a8f1bf1c68d791c9c3ab370a723fb98dee9bd55db1beee,
        0x4167a4e6bc593244ccb82f0e68a7fb972eda26fcb5856c3b9e3c1743f2bc8c14),
    Row(0x7938bb7e2255246a1b4b430321fc06845d1d9d400e7668eb643b9d2876f62700,
        0x34b33370cb7ed2f6f12e6e7e2f364eeee967ff14e880d62cc2be2665f8ce8fee,
        0x1176fc6e2dfe65e4ed7485c158808883ce02109ced85a753cdc591ee8681d6cc),
    Row(0x8fc3a4c677d5f343d4fa502ebe94dc42ddfc9f4b2a58480b4af6cd05b9c619b,
        0x1f6a3e54f26906b621354ffeded7879b98fbcc2aacf440a3db90e28949770eb8,
        0x4f2fad0116b900d1e2333e23f759829540c085b631165cd660a4c199d30734ea),
    Row(0x445484a4972ef7aba61e6b2d368d04985f541c511857ef6c44beb24194ae4e54,
        0x3451995f2944ee816f619b39f3b61689e60577aafc129c08962cd91db73bb638,
        0x10b89ca6042893b7258e9aaa47285c404a816c94b0935cf69152fcd09fea7d7c)
  ]

  lemma Rows16_1()
    requires Fermat()
    ensures |ROWS16| == 8
    ensures IsRow(ROWS16[0], Mult(0x100000000000000000000000000000000, BASE), Factor(16))
    ensures IsRow(ROWS16[1], Mult(0x200000000000000000000000000000000, BASE), Factor(16))
    ensures IsRow(ROWS16[2], Mult(0x300000000000000000000000000000000, BASE), Factor(16))
    ensures IsRow(ROWS16[3], Mult(0x400000000000000000000000000000000, BASE), Factor(16))
  {
    hide Fermat, IsMultiple, IsRow, Row, Mult;
    Points16();
    RowIs(0x100000000000000000000000000000000, G128, Factor(16),
          0x1304e9e71627d55100c3e53145747299f7ea38548ebda0b85f3a7562eb3dbe47,
          0x2b5449e58eb3bbaa2b1e583b0810c5db29b743e8148be884583b04bfacad8ea2,
          0x4468de2d7c2dd693da0fe1fff979c60a3c1bab3f8b48dd0b789814d26adc9cfe,
          0x0, -0x1,
          -0x2448028c5ff55fbf47eb3c84862a6932888201c8187fec3c78889ced3e2c4705e596beb08c1c9759ab06097230445a9338e10c6791b93edac99b6c7cb7667032);
    RowIs(0x200000000000000000000000000000000, G129, Factor(16),
          0x6cce7c6ffb44bd6393a5b6d6447f996233e6dc4c23ddc75451bb355e9419469e,
          0x5da6427e63247352d4a866c5657a772c21113531435d0c284b9ad8c6f86307ce,
          0x58f29abfe79f2ca888ad8c388d59580fb9066ef7bbae1ff81a94c688deac22ca,
          0x1, -0x1,
          -0x3d050409b8ebc01b6ea1919846d5b36b4e4c34901364cc15e6fd8bdfa52a3cc0765c4e2d40dcb4ec5fd4d51b0cdc2dab01571780d0aee8b178cd869225d2a7f2);
    RowIs(0x300000000000000000000000000000000, M16_3, Factor(16),
          0x577629c4a7f41e36f0495b0bbe01598254036f9f377e76a5e90ecfab8de73e68,
          0x6af93724185b48703643d056d50b3ab9b14ce538462c293c4b5a64bf710ecdf6,
          0x701f25bb0caec18f83e236233c33289fd2e036134b5589733220024509c6a888,
          0x0, 0x0,
          -0x4bf6689e4ddd585d99be8458cb12de4e02ce88d9516067294db929be043fe37b3550dabd6a4b17c6df4e5b8b23ccf128a1bf31dcac8f4373268b7fa37da75e6);
    RowIs(0x400000000000000000000000000000000, G130, Factor(16),
          0x2e0c92bfbdc40be961e3061ff4bca59cf700660e9e25a87dc3a8b0f8e4616ced,
          0x720a5bc050955e5120f5b522ac4e60d6844a06e674bfdbe49d18f6d97cbec113,
          0xe9b9cbb144ef0ec691417f35c229346e84e8b376242abfc0c3f09439b805a35,
          0x0, 0x0,
          -0xd9f138d970b55717a21b865dd2208daf51ad4937d8269a2928801c95394f185e018314f3d597f30fd8cddae8c70ac51bc4fb031479198b1a6b2b0110e050b97);
  }

  lemma Rows16_5()
    requires Fermat()
    ensures |ROWS16| == 8
    ensures IsRow(ROWS16[4], Mult(0x500000000000000000000000000000000, BASE), Factor(16))
    ensures IsRow(ROWS16[5], Mult(0x600000000000000000000000000000000, BASE), Factor(16))
    ensures IsRow(ROWS16[6], Mult(0x700000000000000000000000000000000, BASE), Factor(16))
    ensures IsRow(ROWS16[7], Mult(0x800000000000000000000000000000000, BASE), Factor(16))
  {
    hide Fermat, IsMultiple, IsRow, Row, Mult;
    Points16();
    RowIs(0x500000000000000000000000000000000, M16_5, Factor(16),
          0x221104eb3f337bd8d4813152635543bfee81916bdbf90d0efbbad48ffb5720ad,
          0x366d44191cfd3cde44a8f1bf1c68d791c9c3ab370a723fb98dee9bd55db1beee,
          0x4167a4e6bc593244ccb82f0e68a7fb972eda26fcb5856c3b9e3c1743f2bc8c14,
          0x0, -0x1,
          -0x2831cd641e93de171b533a007e3be30fd678e2b1940fffcd3621256f2d58aa43f1d764367c94bcaa12c5f30e099e0fef50b07c5d3d79f29183c403d70f8efe64);
    RowIs(0x600000000000000000000000000000000, M16_6, Factor(16),
          0x7938bb7e2255246a1b4b430321fc06845d1d9d400e7668eb643b9d2876f62700,
          0x34b33370cb7ed2f6f12e6e7e2f364eeee967ff14e880d62cc2be2665f8ce8fee,
          0x1176fc6e2dfe65e4ed7485c158808883ce02109ced85a753cdc591ee8681d6cc,
          0x1, -0x1,
          -0x28cdfcf9cad6233aea2fb34cea70dff13e5648716b13c20abc1d720cb346ec5b997e3e6988864c11c86fb462a35aeca8dcc320f48a25ffd0a68dc675aff41c0c);
    RowIs(0x700000000000000000000000000000000, M16_7, Factor(16),
          0x8fc3a4c677d5f343d4fa502ebe94dc42ddfc9f4b2a58480b4af6cd05b9c619b,
          0x1f6a3e54f26906b621354ffeded7879b98fbcc2aacf440a3db90e28949770eb8,
          0x4f2fad0116b900d1e2333e23f759829540c085b631165cd660a4c199d30734ea,
          0x0, -0x1,
          -0x1fb39cb86367b509c213ad47b920a48958b6e8d558f3fa1683ca134a28b8ad45b3f9fae4939d88216d9d37b07c735ea0e9d7a9f1e9e61881ae8876213c1e6b6e);
    RowIs(0x800000000000000000000000000000000, G131, Factor(16),
          0x445484a4972ef7aba61e6b2d368d04985f541c511857ef6c44beb24194ae4e54,
          0x3451995f2944ee816f619b39f3b61689e60577aafc129c08962cd91db73bb638,
          0x10b89ca6042893b7258e9aaa47285c404a816c94b0935cf69152fcd09fea7d7c,
          0x1, -0x1,
          -0x243bf4e43e3a6607063d36716ce1da199c8c0b9c8f93f698bf5fed0241148c83a371b038c4c355a56468ffe78c22aefb6ac2ea73532efb3ef3186106fc447060);
  }

  lemma Power16()
    ensures Pow(256, 16) == 0x100000000000000000000000000000000
  {
    Power15();
    assert Pow(256, 16) == 256 * Pow(256, 15);
  }

  const TABLE16: seq<seq<byte>> := TABLE15 + ROWS16

  lemma Table16()
    requires Fermat()
    ensures AreRows(TABLE16, 17)
  {
    hide Fermat, IsRow, Row, Mult, Pow, Factor, IsBlock, AreRows, ROWS16, TABLE15;
    Rows16_1();
    Rows16_5();
    Power16();
    Together(ROWS16, 16, 0x100000000000000000000000000000000);
    Table15();
    MoreRows(TABLE15, 16, ROWS16);
  }

  const M17_3: Point := Point(0x3780a1d4b6b5ac99a5a263d5965a5a96a82361031f6a4c8e2a8ac70bc7009528,
                          0x3aa8dc131e63258cb6fc9f36900ef3b98de318d6652cef6d83b95fea238825fe)
  const M17_5: Point := Point(0x58458308ef6c0a563e6a18fd5dd19e38bec30919d58bd5a3e5f5571a8e1c47ff,
                          0x259d664d2b336b78964952d0ce2309727544e8326beee6860fd626fc2bb1c02e)
  const M17_6: Point := Point(0x333f8eef2b1f715f8f719c5733005103407d7994a7bcd3e50763ff13e0665cb0,
                          0x131883d8fc4cafaa36d64a9b19ee223097b2a1b287fc33b67087f4107b4c7b5a)
  const M17_7: Point := Point(0x7b10e1d26d95f4a3ed81d68d5b08e51dc82286e11eaa0224979e22afd443ec39,
                          0x36663875e8dd133dc940c67fd902b27f69f1a18d2489f1a8605e817ca6919549)

  lemma Points17()
    requires Fermat()
    ensures IsMultiple(0x10000000000000000000000000000000000, G136)
    ensures IsMultiple(0x20000000000000000000000000000000000, G137)
    ensures IsMultiple(0x30000000000000000000000000000000000, M17_3)
    ensures IsMultiple(0x40000000000000000000000000000000000, G138)
    ensures IsMultiple(0x50000000000000000000000000000000000, M17_5)
    ensures IsMultiple(0x60000000000000000000000000000000000, M17_6)
    ensures IsMultiple(0x70000000000000000000000000000000000, M17_7)
    ensures IsMultiple(0x80000000000000000000000000000000000, G139)
  {
    hide Fermat, IsMultiple;
    Powers138();
    Powers144();
    Added(0x10000000000000000000000000000000000, G136, 0x20000000000000000000000000000000000, G137, M17_3,
          0x26507f04df2684e747eb57e0ffd057bf8b26db1e9b180b8b05126d709a4eb55d,
          0xcf6af172196e6ed46bde02101b0ffdab15e89c74ce30c91aa0977c49f4740e6edc4d9f2f6fe2578f24b10a8813d7f34ffa0c8326a9731569e224bf9523e2ce7fe102db5a4b30e3f3850edf7593edae6418f8eae23eb61ab463d3e29189a99a80c6bfb5457dd0f1350bb7d6ddaf9f24d8f3f5ca19e107166078eb2c010d54af,
          -0x41cf7ac0733fbd4926b14121bcc951234584b2a03c8c88c02b5313102831979c,
          -0x7be5d369b537733c79967e93bb59157e2fea7a6439ad5edf45c12cc6b076b096);
    Added(0x10000000000000000000000000000000000, G136, 0x40000000000000000000000000000000000, G138, M17_5,
          0x25f8ba871a5d0ed587bde4acb263a87dc3435997d74113183497d4cb591f057f,
          0x6021e2bea6b8eec3ce04223e52292b0e8210c69da11d95ed54ace7259b1cd4da534bcaf381b40d6b8ef113947e496f48665b131ea5d77e06337f32fdf34c77a1d693ba2ab28ca2144ac34792e162169777fec4bfc88ce9776d1a708a1d30da2143a9f8f2b35508164075dcb86c1df2f9c2dd64a8c874f0c92db2aa7b334663,
          -0x42f4748364a37a7316b819997ede0ac00cb2ad2f6918718947617eae6e23c029,
          -0x3d4fdc2e66b148578e4330876a9beec3f61e7546eda3586fb10cf046cf67813b);
    Added(0x20000000000000000000000000000000000, G137, 0x40000000000000000000000000000000000, G138, M17_6,
          0x6fd0d43597cdd32fcf007f911e41e637a9a94782757738e79f819dbc430afc26,
          0xa726c7911a9941fda9f00bb3f5eac7a02afa1dba5330856d8f85ade40607ef354742cfcaa0779ea0c45616a427723a896efa06f67808c6b8299398701ecbf04709937a20ffb7fe4e922e5cdfd063588c15c063fecb0dfd7acf3f3e8e2c909159d095e072bb253bea03a1e1d65e9452826fc092de4ee193d87f42e3a76380f2,
          -0x25949fc1f661ba13c3d11716bede32bad874dff235281c35a68e3fde674f4dfa,
          -0x5488fdf43ecc8c96e31bf95f5c074d41ca051b2418c80125d5ea839cddacb020);
    Added(0x30000000000000000000000000000000000, M17_3, 0x40000000000000000000000000000000000, G138, M17_7,
          0x47f1c5ad2c0e1770603b32e7147c851005ad349af2548f5a9a020cda5e48ed7b,
          0x599a03906e9e7c7f238ba5f0e927186d37d606f6f55996fcc979442609bf36171711579f9927d24fb92bec2ed1b48913e83681499dca6be5b57b694140ab2cbf54d03c1f74c0117d4c15cd08753ef0b85dcbdb37964cab7ea9fc2b96309d860155ddf2fad47365ba3aecdd3302ee0ab1e0d430863aba517d38e156ecfec429,
          0x100250f5f9361ff2a4d0f031db1b902e3079fe48153d02665a589608031b9032,
          -0x55299a85d02ff55db4027723dcd555148c973efa7e1bd137f356b2b6900b71b8);
  }

  const ROWS17: seq<seq<byte>> := [
    Row(0x20b878d577b7518e0262bfcb14c3ef1512ebf8c524533f263d5947499718289c,
        0x17d2d1d9ef0d4da911776b9c72ff51b6d07caeed6d9c5f65753941be5a45f06e,
        0x72214f63cc65c6a722e3b72c3ca60022fd3fe519d752106927f2af18073f3e6a),
    Row(0x5fdf48c58171cbc9d6fbd0a773761099aba714d72f336795b4e37f405307a693,
        0x1f24ac855a1545b0f2c072bd312f9dc4d605824a4f518f751d9db7b9f43b29c9,
        0xba739e2ae395e6c7ffe45c06fb25a24748c1d10c1420ee24d608328e9505aa),
    Row(0x3283a3e67ad78f3115a3b60f9b49922e5bfb7d345c2a2df592e98de5c8790d6,
        0x72297de7d518d2265c9f030c26694e50360679d984973bfbae4426f5ea88bb26,
        0x5e1296846271945d3dfc90d0228930832f19b4d8b63308048241dc7be0cb939),
    Row(0x39c00c9c13698d9bb02dabae93b5d1e0ceefc8fcf12bb97cba82eeb32d9c495a,
        0x78cf25d38258ce4c843566a6f5c8df92bcc80cecd03081d9adbfbbc8242c4550,
        0x6b52076b3ff832c9a75a97f04efa05aa851cab9c2bf08715ae6b8e31489d68),
    Row(0x4d57e3443bc7612257df39d370516b39b681df18966310e229e0cfe19d95781c,
        0x7de2e9561a9f75ced4b36bce2bf4a7ab3407f14c417abc29f5cb7e16b9ce082d,
        0x6b2a90af1a6029eddbc9c440d3ee9a814801527f5d85db99de70d4f4b6a55ecb),
    Row(0x5fd8f4e9d12d3e4aa764ae43e6edd12d5735281de03f5fd16923f4fc9ae61e97,
        0x465812c8276c2109c647e6f24cee7333d8301b472fb9079b77ebf3245bb2d80a,
        0x5b32c2b1cb16790180d4a7bde2968d77065fb753831dc164d43beb22a1062d9),
    Row(0x3b5556a37b471e99dbbeeff27df9cd61a1cf1aac05dfef83c8c05eccd24da8fd,
        0x31771a48567307e1b6c29d0d340b979d3214286e4333f3ccf7fca42c7ad58195,
        0x4fc079d27a7336eba3d16048282b5af3edb351541a2ba4b632b0c524e14dd482),
    Row(0x124567cecaf98e92ffffc09c7880e4532497bd6502dfe9a751c938b089bf2f7f,
        0x241170c2bae3cd086422f74d643e3cb91337cbc9cc94e651dc348b440c86c50d,
        0x3f8612966c87000d4ae75060ebc6c4aff0911dee0113e4353ff9ab860ac473b4)
  ]

  lemma Rows17_1()
    requires Fermat()
    ensures |ROWS17| == 8
    ensures IsRow(ROWS17[0], Mult(0x10000000000000000000000000000000000, BASE), Factor(17))
    ensures IsRow(ROWS17[1], Mult(0x20000000000000000000000000000000000, BASE), Factor(17))
    ensures IsRow(ROWS17[2], Mult(0x30000000000000000000000000000000000, BASE), Factor(17))
    ensures IsRow(ROWS17[3], Mult(0x40000000000000000000000000000000000, BASE), Factor(17))
  {
    hide Fermat, IsMultiple, IsRow, Row, Mult;
    Points17();
    RowIs(0x10000000000000000000000000000000000, G136, Factor(17),
          0x20b878d577b7518e0262bfcb14c3ef1512ebf8c524533f263d5947499718289c,
          0x17d2d1d9ef0d4da911776b9c72ff51b6d07caeed6d9c5f65753941be5a45f06e,
          0x72214f63cc65c6a722e3b72c3ca60022fd3fe519d752106927f2af18073f3e6a,
          0x1, -0x1,
          -0x117c348921daae9eb80348bb15d7d251b2245fb9432cb80696fc71f625ecf8ff88ec8aa3c0d50c805738e6b874287129622b31f2520f9a3cdb39bcad410ad792);
    RowIs(0x20000000000000000000000000000000000, G137, Factor(17),
          0x5fdf48c58171cbc9d6fbd0a773761099aba714d72f336795b4e37f405307a693,
          0x1f24ac855a1545b0f2c072bd312f9dc4d605824a4f518f751d9db7b9f43b29c9,
          0xba739e2ae395e6c7ffe45c06fb25a24748c1d10c1420ee24d608328e9505aa,
          0x1, -0x1,
          -0x1e67105549f8ff3ae06b2f2cc746e321567bcd286f63664cc8f3fd30e95527b37b940982133186ecb4c3ac2321893058f6050372a2e7fd411c195abbf86b260e);
    RowIs(0x30000000000000000000000000000000000, M17_3, Factor(17),
          0x3283a3e67ad78f3115a3b60f9b49922e5bfb7d345c2a2df592e98de5c8790d6,
          0x72297de7d518d2265c9f030c26694e50360679d984973bfbae4426f5ea88bb26,
          0x5e1296846271945d3dfc90d0228930832f19b4d8b63308048241dc7be0cb939,
          0x0, 0x0,
          -0x104c1d46a5fafe2e6ccee1aba9e61be4268af5917a58eb4d9815ac5cb2be0a892367e7f8a119cb66b43b0a0f1142adfedc046b470bc6beeca0e7f45612c435a3);
    RowIs(0x40000000000000000000000000000000000, G138, Factor(17),
          0x39c00c9c13698d9bb02dabae93b5d1e0ceefc8fcf12bb97cba82eeb32d9c495a,
          0x78cf25d38258ce4c843566a6f5c8df92bcc80cecd03081d9adbfbbc8242c4550,
          0x6b52076b3ff832c9a75a97f04efa05aa851cab9c2bf08715ae6b8e31489d68,
          0x0, 0x0,
          -0xe173be480402a9944adcc3429d573f5a56ab29e9ac828e08c08df9dc7c3ffdd164f9616ceb862e8bdc2f2f43fecdad6f688d8c046f7a17880b112cd9adb24aa);
  }

  lemma Rows17_5()
    requires Fermat()
    ensures |ROWS17| == 8
    ensures IsRow(ROWS17[4], Mult(0x50000000000000000000000000000000000, BASE), Factor(17))
    ensures IsRow(ROWS17[5], Mult(0x60000000000000000000000000000000000, BASE), Factor(17))
    ensures IsRow(ROWS17[6], Mult(0x70000000000000000000000000000000000, BASE), Factor(17))
    ensures IsRow(ROWS17[7], Mult(0x80000000000000000000000000000000000, BASE), Factor(17))
  {
    hide Fermat, IsMultiple, IsRow, Row, Mult;
    Points17();
    RowIs(0x50000000000000000000000000000000000, M17_5, Factor(17),
          0x4d57e3443bc7612257df39d370516b39b681df18966310e229e0cfe19d95781c,
          0x7de2e9561a9f75ced4b36bce2bf4a7ab3407f14c417abc29f5cb7e16b9ce082d,
          0x6b2a90af1a6029eddbc9c440d3ee9a814801527f5d85db99de70d4f4b6a55ecb,
          0x1, 0x0,
          -0x109eda93d6819e6563a28e59a0945ab3bbbace41622bb9a511785c453c60a25277a100a7f4ab7b0175c5c572284300356545ae42426b2bcdabd926db19f92305);
    RowIs(0x60000000000000000000000000000000000, M17_6, Factor(17),
          0x5fd8f4e9d12d3e4aa764ae43e6edd12d5735281de03f5fd16923f4fc9ae61e97,
          0x465812c8276c2109c647e6f24cee7333d8301b472fb9079b77ebf3245bb2d80a,
          0x5b32c2b1cb16790180d4a7bde2968d77065fb753831dc164d43beb22a1062d9,
          0x1, 0x0,
          -0x4e611547c5ac6f8fce302c1c9288230880dcf9e7935341de08752ca4c6a0a7863147e2d7ebda92619856187e8fbc4eb6e10d01071b76c367e6afecb6375e723);
    RowIs(0x70000000000000000000000000000000000, M17_7, Factor(17),
          0x3b5556a37b471e99dbbeeff27df9cd61a1cf1aac05dfef83c8c05eccd24da8fd,
          0x31771a48567307e1b6c29d0d340b979d3214286e4333f3ccf7fca42c7ad58195,
          0x4fc079d27a7336eba3d16048282b5af3edb351541a2ba4b632b0c524e14dd482,
          0x1, -0x1,
          -0x2182fc4ffccaa97039ec8ffa877e0587b2bcd457bca03912e6f487b937f0f09fe30da61267b46b760817f066ec85e42252f3f7effb254f95b44082e685f144d4);
    RowIs(0x80000000000000000000000000000000000, G139, Factor(17),
          0x124567cecaf98e92ffffc09c7880e4532497bd6502dfe9a751c938b089bf2f7f,
          0x241170c2bae3cd086422f74d643e3cb91337cbc9cc94e651dc348b440c86c50d,
          0x3f8612966c87000d4ae75060ebc6c4aff0911dee0113e4353ff9ab860ac473b4,
          0x0, 0x0,
          -0x135d12eae9d86763b2f18a22c668942995705688512303c1f1f8b94af766495a3379ccd9c18aaa838d0b8e0d97a1d67aad9eb6dc0225736ec82a2d43f8d7768);
  }

  lemma Power17()
    ensures Pow(256, 17) == 0x10000000000000000000000000000000000
  {
    Power16();
    assert Pow(256, 17) == 256 * Pow(256, 16);
  }

  const TABLE17: seq<seq<byte>> := TABLE16 + ROWS17

  lemma Table17()
    requires Fermat()
    ensures AreRows(TABLE17, 18)
  {
    hide Fermat, IsRow, Row, Mult, Pow, Factor, IsBlock, AreRows, ROWS17, TABLE16;
    Rows17_1();
    Rows17_5();
    Power17();
    Together(ROWS17, 17, 0x10000000000000000000000000000000000);
    Table16();
    MoreRows(TABLE16, 17, ROWS17);
  }

  const M18_3: Point := Point(0x1e2b1d5578437b24454be3005d3fe26af5a83ca079baef777ab98fc98dc1aeb0,
                          0x41c6747ff756a8d26636c73ff49f128b2f773731a7a458e1b915a06716d6b801)
  const M18_5: Point := Point(0x233475488522f3b085400f1056f312186b541c4c21761e46b7e92e2aef773c8a,
                          0x37e8d773be2a47153e03b94795d65eb7c01ab125bde0fac72a9d6b97a812b288)
  const M18_6: Point := Point(0x318ac05007ad4d2d9a4a5e75f9a9a73cd0ef25238d9ee25f10bf037bcd22844c,
                          0x6bf5a299dfb3f82734752a977bd9b6a42c0f19cd1c2cf57f1d53aac8823222a2)
  const M18_7: Point := Point(0x1b76bf6bdb2579ab5efef8a6a3486f82fa109f44c95d04c02c73fccb0d152c96,
                          0x502f67ac28825e30f3173e20d3f03eed459a686f427275365706761efd0c3948)

  lemma Points18()
    requires Fermat()
    ensures IsMultiple(0x1000000000000000000000000000000000000, G144)
    ensures IsMultiple(0x2000000000000000000000000000000000000, G145)
    ensures IsMultiple(0x3000000000000000000000000000000000000, M18_3)
    ensures IsMultiple(0x4000000000000000000000000000000000000, G146)
    ensures IsMultiple(0x5000000000000000000000000000000000000, M18_5)
    ensures IsMultiple(0x6000000000000000000000000000000000000, M18_6)
    ensures IsMultiple(0x7000000000000000000000000000000000000, M18_7)
    ensures IsMultiple(0x8000000000000000000000000000000000000, G147)
  {
    hide Fermat, IsMultiple;
    Powers144();
    Powers150();
    Added(0x1000000000000000000000000000000000000, G144, 0x2000000000000000000000000000000000000, G145, M18_3,
          0xf966245750e7d4da117aaad916c30c3ebbb8fe568e7b505510f62665282696e,
          0x1150eb37a458486f9816be7ace658c1cc831d9976215aab898874f23dec1387700cf0af417ae1be5b7ce7baf05a04fb63505f05376bf1c2aabd8379cafcca86495030cf95c5bd1ee683e5723e75eabae416a519e2c6f6bbdd8c29161934e43d78fc9b30291ec9e5cea00a4fad6dd1f40e864332278f428e29f18adb5785407a,
          -0x55c9184fef99e0c23c52e8b24fbcdd9ea58399214ce086d4720b75f154e0187e,
          -0x6e1842818c8d7b6dbaccdda88466697b6b2cd037450f8d9cb19ef6280d90cb73);
    Added(0x1000000000000000000000000000000000000, G144, 0x4000000000000000000000000000000000000, G146, M18_5,
          0x115508b4c0056b37cd8ab41bbb8900dd58125a3c6640ae815ccc6d65dfa7441e,
          0x1fcf93ac3f9fdda4623980358f60a9e1232585e388b022d547a09a713a6a98ac58673f9977e324e6a98ee710c975d03b3883ef4d1cbcf48c19fce2d35da27c03395697b4da541df898697706c74830401c6359af33b93b4eca290a7f849dfc14699330f4d1c35afcb412f89d3953cd565dac1d6d294180a60707d3e9ac6d6cf,
          -0x7afdc0cb950a76d9ca6776d86f3903799cae82b1c15f8d42226463fdb498d81e,
          -0x89007a8b3df1860bd732abf14721ad5b4d59e6da77bc85af1e137df2a3c3231c);
    Added(0x2000000000000000000000000000000000000, G145, 0x4000000000000000000000000000000000000, G146, M18_6,
          0x77a30a9d34b049e48a46cc70ed36e6903c46ae76180fc14c5bf5aaed5090104f,
          0x1f694444ef1b34375b224ed8ff8653c460d514cc422316e8f4ef1fbef25028878c462bf78d278e7b88f1069f3286ffd650df94d0dcc700b484302291e1da2c0ef75f4bb2a3fdc3c8637ef752c221987becf103924dbaf1112faa75a21fca6da931179fdb11d743ccad070153b692c597f37339bb68c99571f5b9a110a83aef5,
          -0x42972960758fd8328be3491da3447aed31619d990342dd45f76e3fd5adb68062,
          -0xd63881e0ba5d41442de0ee9f53e13ee1009e9b1f0528a78280bab622abeada36);
    Added(0x3000000000000000000000000000000000000, M18_3, 0x4000000000000000000000000000000000000, G146, M18_7,
          0x2a8be7021f6a2e79d75a9ba412043dbd2a72fa42041e2260f2d6905f6bdd8296,
          0xbc874fb0b379bcd64ff027494742f5f564321c740cc68911a5de1c2f58ddf2af2cd56c7012df3e2e7271e1f80fc2cee8bf19d7ee6cf9f085e1821dfd45d706f3a8ad032b34614a17a4f53af6c38df9bc7438b1eacc5afdad17f9368d1e6cca9d3e4cd749415f92fee0684b409691baef3c2fba3ac33a09db045ebeef80f862,
          -0x4065ce6018c02cc964eca1774362a7f1c9cc5347096f7b3442aefc29f337e2ff,
          -0x64ebec6991ca5a6e7823e4f71d8d99ee933525a7c23748ed7cb1c3d018dd0495);
  }

  const ROWS18: seq<seq<byte>> := [
    Row(0x504aa7767973613d7f62865b31ef238c551dcdb2ea718385559a0cc9782a0dde,
        0x26f57eee878a19d4dc9f350b9f92d0aa29159db373899ddd9c18fcfa36048d13,
        0x4041943d9dba306985c15a344f5a24675180d162247af17b0cab2cd55687efb1),
    Row(0x1420a1d97684340fd9fa95ee1c77ccc68d749c9c26ea9cafc3c0eeba43ebcc96,
        0x12d931429800d019cb1d4f7a03fbc9e347a6b424648ab7ce4b217743a26caadd,
        0x1b4f92314359a01244182854e35ff3955e3c5140b23aa47b00c67799d337594f),
    Row(0x239b572a7f132dae20eae43f975f302039cefa912de9696a3e5c109d89150951,
        0x5ff191d56f9a23f6ab82aa4051def4f6251f73d2215f485933cf3030a49866b1,
        0x20c526a758f36cbef4572805593eb3d2883ab795fc98523819ed433ac2d9068),
    Row(0x2aacc4615313877a9524cdca3e1b074c8f2aaf9dc7ca46c779834f89ed8dbbc,
        0x452cfe0a5602c50cadc8e18aaec759972c589c9d8e124bb6e931ef59f042cc89,
        0x4cfb7d7b304b877bab17ea25f1fb11c9bbc464270e607c9f86a0f7a0647877df),
    Row(0x14b4622b39075364b8c3aa373ee34c9f54c694d99c6adc8072b43d6cb89b75fe,
        0x5b1d4cbc434d3ac5c343c857ecc970d02b6ecd71df57190de28699c29789ef12,
        0x2f98f71258592dd11301498b3369a7053a4f0e2bb88dcce5b6fb2615cc0a9f26),
    Row(0x3a6ae249d806aaf99a2acc2182300f675b1ff4a98e8e13200c94a74cb50f9e56,
        0x1d8062e9e7614554cebf890d75835de0fcfe3ef0a9cbd7de2e12ae444f54a701,
        0x298b8ce8aef25ff38d0e1dfbdf34b4e91a0ea8b591b90f62657ada85a9907c5a),
    Row(0x34b8a8404d5ce4859418457a30a7cf6a4b89c92a791570762a927953eff70cb2,
        0x6ba6271803a7d7dc521636c77738ae703fab07b40bcf79f6837a72ea0a2165de,
        0x71d62bdd465e1c6aa293aa9aa4b22573d5a813df63b5fefdc26eecb583693335),
    Row(0x74d5f317f3172ba4e3645ff9f701da5af6db43790a0fa4b46533cc28d378df80,
        0x1c333621262b2b3d14571fea3f49f085d77f95cf16b065f5cd2db5dab1f75ef5,
        0x4aebcc4547e9d98cda6d0892e3ac623b398b7c752b298c37a86fe55467d9ca81)
  ]

  lemma Rows18_1()
    requires Fermat()
    ensures |ROWS18| == 8
    ensures IsRow(ROWS18[0], Mult(0x1000000000000000000000000000000000000, BASE), Factor(18))
    ensures IsRow(ROWS18[1], Mult(0x2000000000000000000000000000000000000, BASE), Factor(18))
    ensures IsRow(ROWS18[2], Mult(0x3000000000000000000000000000000000000, BASE), Factor(18))
    ensures IsRow(ROWS18[3], Mult(0x4000000000000000000000000000000000000, BASE), Factor(18))
  {
    hide Fermat, IsMultiple, IsRow, Row, Mult;
    Points18();
    RowIs(0x1000000000000000000000000000000000000, G144, Factor(18),
          0x504aa7767973613d7f62865b31ef238c551dcdb2ea718385559a0cc9782a0dde,
          0x26f57eee878a19d4dc9f350b9f92d0aa29159db373899ddd9c18fcfa36048d13,
          0x4041943d9dba306985c15a344f5a24675180d162247af17b0cab2cd55687efb1,
          0x0, -0x1,
          -0x1ad0f4171d885e82af71846060404dca148034d2a54a2e687c37f39e20e5ff1c7c1117d7f5b2ddf5d02fc666a2e87a6383292eaec106aa65d94a41e6c41c324d);
    RowIs(0x2000000000000000000000000000000000000, G145, Factor(18),
          0x1420a1d97684340fd9fa95ee1c77ccc68d749c9c26ea9cafc3c0eeba43ebcc96,
          0x12d931429800d019cb1d4f7a03fbc9e347a6b424648ab7ce4b217743a26caadd,
          0x1b4f92314359a01244182854e35ff3955e3c5140b23aa47b00c67799d337594f,
          0x0, -0x1,
          -0x1a7ab5000bf39665f5a0bfb3c7756006ce9dc2d260092b28bd438946485aa1d2c5edaa70251cc63db357dbff6cc8f4d94a2694faf5c15e46a2a505781fe6cd95);
    RowIs(0x3000000000000000000000000000000000000, M18_3, Factor(18),
          0x239b572a7f132dae20eae43f975f302039cefa912de9696a3e5c109d89150951,
          0x5ff191d56f9a23f6ab82aa4051def4f6251f73d2215f485933cf3030a49866b1,
          0x20c526a758f36cbef4572805593eb3d2883ab795fc98523819ed433ac2d9068,
          0x0, 0x0,
          -0x9eed7c91cfd17caa032bb4002f2d5448745bf63f80d416fc1960bf8189570a2106757f2c3af02ecb7759e8b5e36b613cd683555f82be7a8b8f0767eb42acb98);
    RowIs(0x4000000000000000000000000000000000000, G146, Factor(18),
          0x2aacc4615313877a9524cdca3e1b074c8f2aaf9dc7ca46c779834f89ed8dbbc,
          0x452cfe0a5602c50cadc8e18aaec759972c589c9d8e124bb6e931ef59f042cc89,
          0x4cfb7d7b304b877bab17ea25f1fb11c9bbc464270e607c9f86a0f7a0647877df,
          0x0, -0x1,
          -0x30a4f380c3e717c086470d94ba089063734ad17c7279bf727dc2ae9f50855f4be5a0768d2f9703bc3cb3bc19bdde7f4d7c442d8dd3d51115cbe78dc8ece2e27b);
  }

  lemma Rows18_5()
    requires Fermat()
    ensures |ROWS18| == 8
    ensures IsRow(ROWS18[4], Mult(0x5000000000000000000000000000000000000, BASE), Factor(18))
    ensures IsRow(ROWS18[5], Mult(0x6000000000000000000000000000000000000, BASE), Factor(18))
    ensures IsRow(ROWS18[6], Mult(0x7000000000000000000000000000000000000, BASE), Factor(18))
    ensures IsRow(ROWS18[7], Mult(0x8000000000000000000000000000000000000, BASE), Factor(18))
  {
    hide Fermat, IsMultiple, IsRow, Row, Mult;
    Points18();
    RowIs(0x5000000000000000000000000000000000000, M18_5, Factor(18),
          0x14b4622b39075364b8c3aa373ee34c9f54c694d99c6adc8072b43d6cb89b75fe,
          0x5b1d4cbc434d3ac5c343c857ecc970d02b6ecd71df57190de28699c29789ef12,
          0x2f98f71258592dd11301498b3369a7053a4f0e2bb88dcce5b6fb2615cc0a9f26,
          0x0, 0x0,
          -0x9da48a1d2da5e917f9872fa61a1f3f444a85394dce766dbc7232c2a24347210f1d0570a350a1e940db70f58039387a74eaeb64883deaca5dfd87d8fed352c62);
    RowIs(0x6000000000000000000000000000000000000, M18_6, Factor(18),
          0x3a6ae249d806aaf99a2acc2182300f675b1ff4a98e8e13200c94a74cb50f9e56,
          0x1d8062e9e7614554cebf890d75835de0fcfe3ef0a9cbd7de2e12ae444f54a701,
          0x298b8ce8aef25ff38d0e1dfbdf34b4e91a0ea8b591b90f62657ada85a9907c5a,
          0x0, -0x1,
          -0x1ac5ec0eb31936f3bfe757b95b0405e7c4c58eef10baac9818162dd15d6e8d0f19409e8f2a36e3003c4aebf1fb521950892331a731efd6838f18de6ddd28284e);
    RowIs(0x7000000000000000000000000000000000000, M18_7, Factor(18),
          0x34b8a8404d5ce4859418457a30a7cf6a4b89c92a791570762a927953eff70cb2,
          0x6ba6271803a7d7dc521636c77738ae703fab07b40bcf79f6837a72ea0a2165de,
          0x71d62bdd465e1c6aa293aa9aa4b22573d5a813df63b5fefdc26eecb583693335,
          0x0, 0x0,
          -0xb06059a1b6721a170aefb25e840a39b0f973d9560c67f486f58ec3971339c179621e28401d020657a7825dd713e8465378ff92dae5385e468abb1689878a637);
    RowIs(0x8000000000000000000000000000000000000, G147, Factor(18),
          0x74d5f317f3172ba4e3645ff9f701da5af6db43790a0fa4b46533cc28d378df80,
          0x1c333621262b2b3d14571fea3f49f085d77f95cf16b065f5cd2db5dab1f75ef5,
          0x4aebcc4547e9d98cda6d0892e3ac623b398b7c752b298c37a86fe55467d9ca81,
          0x1, 0x0,
          -0xd6d652d12fcf0b9fe712d3294e737790c453903d28a619ec9d3407b63b047c898bd18a01ce4f81210c068f4cd8cd8d88212103e3705386651439308cbdf813);
  }

  lemma Power18()
    ensures Pow(256, 18) == 0x1000000000000000000000000000000000000
  {
    Power17();
    assert Pow(256, 18) == 256 * Pow(256, 17);
  }

  const TABLE18: seq<seq<byte>> := TABLE17 + ROWS18

  lemma Table18()
    requires Fermat()
    ensures AreRows(TABLE18, 19)
  {
    hide Fermat, IsRow, Row, Mult, Pow, Factor, IsBlock, AreRows, ROWS18, TABLE17;
    Rows18_1();
    Rows18_5();
    Power18();
    Together(ROWS18, 18, 0x1000000000000000000000000000000000000);
    Table17();
    MoreRows(TABLE17, 18, ROWS18);
  }

  const M19_3: Point := Point(0x5dc17a1192ddf8b87994675371d8535a425cc54d3acc37195e2da501bb5309c5,
                          0x68538e31bee79120e2f97fd30121edd15e38acdc2b9884b63e86f21cad653d78)
  const M19_5: Point := Point(0x496222725424359a98342deffb0324830e99572c6c578ed90ff3883000762536,
                          0xb370634de2b0ce61aac36ee698fd3c1c45dbf61c9df9fcb2fdc1925fd7ce64f)
  const M19_6: Point := Point(0x2201bfeff751535d6b14f21329c1512e84a619f174e5a6596e7d4ca8847818fd,
                          0x2af4f8c0bfb0380a171fb165f5ba2a76687c12bdf2fc81f20772fde64c624ba4)
  const M19_7: Point := Point(0x13e4b9507e542650b23268777e255c6253a91d6ade2aaa93368e9e8a4550bbb3,
                          0x79cf2e8f8e6b970a797a8b9b4aaa5bedd1d695916ad5fded36dad4bb274a03d8)

  lemma Points19()
    requires Fermat()
    ensures IsMultiple(0x100000000000000000000000000000000000000, G152)
    ensures IsMultiple(0x200000000000000000000000000000000000000, G153)
    ensures IsMultiple(0x300000000000000000000000000000000000000, M19_3)
    ensures IsMultiple(0x400000000000000000000000000000000000000, G154)
    ensures IsMultiple(0x500000000000000000000000000000000000000, M19_5)
    ensures IsMultiple(0x600000000000000000000000000000000000000, M19_6)
    ensures IsMultiple(0x700000000000000000000000000000000000000, M19_7)
    ensures IsMultiple(0x800000000000000000000000000000000000000, G155)
  {
    hide Fermat, IsMultiple;
    Powers156();
    Added(0x100000000000000000000000000000000000000, G152, 0x200000000000000000000000000000000000000, G153, M19_3,
          0x308f8f4d3d00e44ece817169097fd52f5575fe0089e63d6a7de06fd9b41758a0,
          0x776393efed435e47bb00b3544a89f830bcc87fdd1711b739b303f9418bc737a1b2953b5453b8735d908eaea799f00c008fad686b9361094efe5e5359141c1ca554f9d8de01c58add4d1d02bb006e266c387e6457c66432b6e5505525cfe1b869087bfb681ef40be054d3082415f5d94817f11266e2296a686c52bd931f4a70,
          -0x15dee78ba35c4bef8b30634c13c1f642bfe64c600ff423ccef6f265f3e2f07c5,
          -0x847621ae32d3686714340b6de362bcaf23adf97dd11a6258a19c81db3cd06a4d);
    Added(0x100000000000000000000000000000000000000, G152, 0x400000000000000000000000000000000000000, G154, M19_5,
          0x62e590fe47acc649f3134028c843c8444eee4db1bebc1108c26fb3575d36cd1e,
          0x264fedcf4599a4c6db64bc405158231abbca6611929ec97a684be5252ffeecc542e1d48f60d978e1b9c9ef74d7dda6d90acbe4aa848f0c0a9efe8f16cf906de5447dddb736f3e5da6e9e2bd08a2b6864eaa89bb9dadafd55504fb1aba2de28b1ad66707ddf5d23df4f7248fbd189c125d3b4791d837e33e7e092ed697576c2,
          -0x50b67a048b85be2bb9e2ecbedd387e82924e3e52e5b8896f694045c67a25080,
          -0x27dbe3359a538ada8d4527cd50aa8309516b9745718704dfc048f5815caaeddc);
    Added(0x200000000000000000000000000000000000000, G153, 0x400000000000000000000000000000000000000, G154, M19_6,
          0x5ff3dfc58acca95eba01cde9be22749cc99a9c605f086f0beb86e933f5973aa0,
          0x2587c31f8975c8bab7aaa8177c950ecec22a410879098b0a39daee61f890a4eeba3686b8290d4c48e23b0a3ec87e10158d547388cdd5961c2bde8089fd9af9cd5ce0a70fadd2282e801c4fe8c8220b538486aca5925217bdc2c0a2655881d14a78661e874433859515268f9438431b9d7475d73d3b7f82f388694f054b1780,
          -0x158529e3872df55c885144756ff7baa9aee5a8063e75315b140b9707c9ec5853,
          -0x3f5fafebf5aba7a2c640cbc8318973b898b381406f03485e1fa93820684f8089);
    Added(0x300000000000000000000000000000000000000, M19_3, 0x400000000000000000000000000000000000000, G154, M19_7,
          0xa1a2c45c08b86c050eebebcf35b3be7103dd9b0100c6fabb0362ae7f24df1c,
          0x6a2319fcb953e727d7d83c1a5a18014ef3cce11c42f15cd66f6b82db24ef2ab833ed379cb190977e885c32deb29dbee469deef00b8272a35eaa72109a417372a2c636d85cd6c0ca59e1f2b8d17d0934eea916799febbb255bd05b4928933e64f8f186191fdbcf950053021bfa0643d9701939870254d43658a0c206fa380d4,
          -0x3e7dbac1faf5e61d0c18f87b0059879846ba3bab48084ccb9d1cddf3cba25400,
          -0x3bbcdaf585022a58c7813e56f252403b21c53f7a437b6244869e8aab4c84f294);
  }

  const ROWS19: seq<seq<byte>> := [
    Row(0x5d88fbf95a3db7925308129b71d6fba9e7b8bac586c48c7012f0071b276d01c9,
        0x173bd9ddc9a1df2cdbe63a034a58a207806b32535ba85b6e0b408d9e7354b610,
        0x6e1cd13b19ea319e6ed278ec9673ae058d6582ed43918c12b500f1efe5872df),
    Row(0x3080603526e162663fe35e14a04d088e118e32931fab6abe40d0ad516f166f23,
        0x7f3a6a1a8d837b130c785f469643bf273baa0b90278d0447472baf629e5b0353,
        0x30d0fded2e51307e68cd7830592c633995a8d555c901edf6f7e644395d3d800b),
    Row(0xa9214202c0998686965187f8f499a771bdbe78ef0cc4d9ce0594d1af21233b3,
        0x4615084351c589d95c8de72672fa412ba09572296664bbcf9cb4971e68b84750,
        0x3bca0d2895ca5dfe0e6df501659932ec55c7110d16034caebc9019c0aeb9a02e),
    Row(0x5631deddae8f13cd98183da2130fb54519fc8b3ecff07a6040f031bc3c5d62a4,
        0x4ea8b4038df28241ca2d955f5f7a9fe2f0bc83ada644896f9c688eb69ecc01bf,
        0x24ce0930542ca4639121774549f11a5f46305305a48cee832aed460af1cad202),
    Row(0x41d4e3c28a06d74b827808fe6e8caf3eb5c468355d8810f21fe890f5fd06c106,
        0x549928a7324f4280b2e064de6492f844d2f7168e36372ea43fcfa155fdf30b85,
        0x491b66dec0dcff6abc3bd33bd17f4d69ae91e4b7d25ffdeaf26e32a763ee1a2e),
    Row(0x8f338d0c85ee4acac0abf52cbf8d947e3d5f8cc7e16db9898f5b13dc7ea32a7,
        0x4cf6b8b0b7018b678234a3791f7b7ba4ed222caf67e2284b75f04a8ed0da64a1,
        0x530d4a82eb078a99c13d331b84777063ab27bc01df320c7ac383a821991a73bd),
    Row(0x65ea753f101770b9c7482323cc84ff8b7e2d78268cab535a004c3630e1f94825,
        0xdb3e7e00cbfbd5b2bacf412c8cfb850257fb2fc4900a8806d6973456c9abf9e,
        0x2a4ec1921e1a1db0fbe044213443b1a81d62c7f61b5cb6b3d66fc3ee2096363),
    Row(0x3d143c51127809bfcccbe6e88ba07037b8577acc45afa0b85ce6259a3b24b8a2,
        0x36d12b5dec067fcf172124851c063578118c861926ee57f2f5c86162f1cf795f,
        0x2ef517885ba8285936bdb6e8df179bacd5e48f5cfc783a0a126d279179154557)
  ]

  lemma Rows19_1()
    requires Fermat()
    ensures |ROWS19| == 8
    ensures IsRow(ROWS19[0], Mult(0x100000000000000000000000000000000000000, BASE), Factor(19))
    ensures IsRow(ROWS19[1], Mult(0x200000000000000000000000000000000000000, BASE), Factor(19))
    ensures IsRow(ROWS19[2], Mult(0x300000000000000000000000000000000000000, BASE), Factor(19))
    ensures IsRow(ROWS19[3], Mult(0x400000000000000000000000000000000000000, BASE), Factor(19))
  {
    hide Fermat, IsMultiple, IsRow, Row, Mult;
    Points19();
    RowIs(0x100000000000000000000000000000000000000, G152, Factor(19),
          0x5d88fbf95a3db7925308129b71d6fba9e7b8bac586c48c7012f0071b276d01c9,
          0x173bd9ddc9a1df2cdbe63a034a58a207806b32535ba85b6e0b408d9e7354b610,
          0x6e1cd13b19ea319e6ed278ec9673ae058d6582ed43918c12b500f1efe5872df,
          0x0, -0x1,
          -0x11ac765dce652f48c3e6fc7d5fbd597a67666526b900ebb5a171a33e1bb19045ed5d37e0daa685f1551656022be077114a780752824066337d01d062b4a32429);
    RowIs(0x200000000000000000000000000000000000000, G153, Factor(19),
          0x3080603526e162663fe35e14a04d088e118e32931fab6abe40d0ad516f166f23,
          0x7f3a6a1a8d837b130c785f469643bf273baa0b90278d0447472baf629e5b0353,
          0x30d0fded2e51307e68cd7830592c633995a8d555c901edf6f7e644395d3d800b,
          0x0, 0x0,
          -0x11501fc6e200e4366527d92fbb80c827b9857b7a107d6b12062a9b40af3de563815a10d47f317c04f16242046eccac5b14f746456ff3fe6be383cca877aa9519);
    RowIs(0x300000000000000000000000000000000000000, M19_3, Factor(19),
          0xa9214202c0998686965187f8f499a771bdbe78ef0cc4d9ce0594d1af21233b3,
          0x4615084351c589d95c8de72672fa412ba09572296664bbcf9cb4971e68b84750,
          0x3bca0d2895ca5dfe0e6df501659932ec55c7110d16034caebc9019c0aeb9a02e,
          0x0, -0x1,
          -0x30f635601a8e72a7ac612fc0b53b819ec7fcd1ce87a20fca9b05f113c0091e0c44c92f93d7b9244ddcc93bbf714ebceb05ab033119de9c2dc7fa8abfec5b552a);
    RowIs(0x400000000000000000000000000000000000000, G154, Factor(19),
          0x5631deddae8f13cd98183da2130fb54519fc8b3ecff07a6040f031bc3c5d62a4,
          0x4ea8b4038df28241ca2d955f5f7a9fe2f0bc83ada644896f9c688eb69ecc01bf,
          0x24ce0930542ca4639121774549f11a5f46305305a48cee832aed460af1cad202,
          0x1, 0x0,
          -0x58e479f04cd5db912cea13ceb04f445c3208ac4604d1de8971dcc3804e9c2dab63d13c48c1cd022b6b7b70eec1b4e59e3a8d9ebf468ec6acc23360e5b57d2de);
  }

  lemma Rows19_5()
    requires Fermat()
    ensures |ROWS19| == 8
    ensures IsRow(ROWS19[4], Mult(0x500000000000000000000000000000000000000, BASE), Factor(19))
    ensures IsRow(ROWS19[5], Mult(0x600000000000000000000000000000000000000, BASE), Factor(19))
    ensures IsRow(ROWS19[6], Mult(0x700000000000000000000000000000000000000, BASE), Factor(19))
    ensures IsRow(ROWS19[7], Mult(0x800000000000000000000000000000000000000, BASE), Factor(19))
  {
    hide Fermat, IsMultiple, IsRow, Row, Mult;
    Points19();
    RowIs(0x500000000000000000000000000000000000000, M19_5, Factor(19),
          0x41d4e3c28a06d74b827808fe6e8caf3eb5c468355d8810f21fe890f5fd06c106,
          0x549928a7324f4280b2e064de6492f844d2f7168e36372ea43fcfa155fdf30b85,
          0x491b66dec0dcff6abc3bd33bd17f4d69ae91e4b7d25ffdeaf26e32a763ee1a2e,
          0x1, 0x0,
          -0x41ea0a516344a341113da9b9b1cee46517ced454203e3d48a79ad255a5291b7afea7ec06e32e1d2845b245c5b351379d76de7a18ea5bc12be705433f94da3c6);
    RowIs(0x600000000000000000000000000000000000000, M19_6, Factor(19),
          0x8f338d0c85ee4acac0abf52cbf8d947e3d5f8cc7e16db9898f5b13dc7ea32a7,
          0x4cf6b8b0b7018b678234a3791f7b7ba4ed222caf67e2284b75f04a8ed0da64a1,
          0x530d4a82eb078a99c13d331b84777063ab27bc01df320c7ac383a821991a73bd,
          0x0, 0x0,
          -0x74ffe1274b9d44b462d8063fff23e2c422151b0274a8b9be29105b9f2c5b595a02396ea8bc26fbe4114183499925f8c76df30b1d11489d446bf091ff9b41547);
    RowIs(0x700000000000000000000000000000000000000, M19_7, Factor(19),
          0x65ea753f101770b9c7482323cc84ff8b7e2d78268cab535a004c3630e1f94825,
          0xdb3e7e00cbfbd5b2bacf412c8cfb850257fb2fc4900a8806d6973456c9abf9e,
          0x2a4ec1921e1a1db0fbe044213443b1a81d62c7f61b5cb6b3d66fc3ee2096363,
          0x0, -0x1,
          -0xc213dcd0891ee955af0cea7929de81779fc4e386d639ce69b5d0a3cf864761859e347ee8d6554240393b22f320d4e502e5235f576c6dd59285e419282393661);
    RowIs(0x800000000000000000000000000000000000000, G155, Factor(19),
          0x3d143c51127809bfcccbe6e88ba07037b8577acc45afa0b85ce6259a3b24b8a2,
          0x36d12b5dec067fcf172124851c063578118c861926ee57f2f5c86162f1cf795f,
          0x2ef517885ba8285936bdb6e8df179bacd5e48f5cfc783a0a126d279179154557,
          0x0, -0x1,
          -0x2528169a9c95609795f2363f0217e9951fe9b050bdf836f5a555a551887940ce4c927ad0814c48d6cf3c66fdf36a3745620ae74a4995c16a92f282d7dc325707);
  }

  lemma Power19()
    ensures Pow(256, 19) == 0x100000000000000000000000000000000000000
  {
    Power18();
    assert Pow(256, 19) == 256 * Pow(256, 18);
  }

  const TABLE19: seq<seq<byte>> := TABLE18 + ROWS19

  lemma Table19()
    requires Fermat()
    ensures AreRows(TABLE19, 20)
  {
    hide Fermat, IsRow, Row, Mult, Pow, Factor, IsBlock, AreRows, ROWS19, TABLE18;
    Rows19_1();
    Rows19_5();
    Power19();
    Together(ROWS19, 19, 0x100000000000000000000000000000000000000);
    Table18();
    MoreRows(TABLE18, 19, ROWS19);
  }

  const M20_3: Point := Point(0x2d2dd667a240fe9e15052c0f442e4f59a3788c3ca3989002f3b3a6db62a039e9,
                          0x377bd9db79c5d85227ba6d4639bf0c8d64aefd115cb838db76e8791506554dd1)
  const M20_5: Point := Point(0x1caeba6f06a2c5acfb1587850560bfb1e47f47bfb9bcda01adc46a6fba4bbef3,
                          0x65fcdc11e7ea75774a0fcef54225dc51a91ec180c6bbd59d39656a7be98d85b8)
  const M20_6: Point := Point(0x60c2952bf5adef4c8c4eac720dd0967c6b9e902534c8c8cac50f5d51935a5c7,
                          0x10ef5d494482524977c653dbb01fbddf2b2cc571b01caa4734a84b4205427f5b)
  const M20_7: Point := Point(0x5d41698923f4e95516a15fdcc07651f9902e3591596e892c45a537b4701f0c00,
                          0x2d92794a28e9f2e8bedadeaf0b8298fde48aee327dd41077c5364780eef8bc11)

  lemma Points20()
    requires Fermat()
    ensures IsMultiple(0x10000000000000000000000000000000000000000, G160)
    ensures IsMultiple(0x20000000000000000000000000000000000000000, G161)
    ensures IsMultiple(0x30000000000000000000000000000000000000000, M20_3)
    ensures IsMultiple(0x40000000000000000000000000000000000000000, G162)
    ensures IsMultiple(0x50000000000000000000000000000000000000000, M20_5)
    ensures IsMultiple(0x60000000000000000000000000000000000000000, M20_6)
    ensures IsMultiple(0x70000000000000000000000000000000000000000, M20_7)
    ensures IsMultiple(0x80000000000000000000000000000000000000000, G163)
  {
    hide Fermat, IsMultiple;
    Powers162();
    Powers168();
    Added(0x10000000000000000000000000000000000000000, G160, 0x20000000000000000000000000000000000000000, G161, M20_3,
          0xb45fe7da081ee68f8def7ed35c5aa2a0db51484af25227fa237575cade2e5f6,
          0x3174fa76c7a0762ffa226b14f2b6f77a4700b9e8961a5ec5162d40a88d7a111ad569b58801b56d665280fb351cef4e5e143f84b0e5c3b9b85ed6c25057ed25470355857aa96ff750282d57548537f3f9cfbdc52f03bda25d785ae0745325bfc940ca4116103504c5c0662d24e76f0499c0e9cfe9c90218cf661c8b89512,
          0x2d4b6e70f45bb59d3a6c4b1be05e2767c705d77dc669871c075bc4958489988,
          -0x6b04eb374b030aa239a82dabc53b02eebdee82f4ca768f866e53db47bedcace);
    Added(0x10000000000000000000000000000000000000000, G160, 0x40000000000000000000000000000000000000000, G162, M20_5,
          0x4b44c1378071f8e7bc3a366b26cc61c7e665dd67fcfc8d10bb15ae3104b41e76,
          0x9520215b81115dcc7380b3f4a9635d8dc55d2226036fff012a647f117a978bd0b67390bc2c55c3f2911c9a90d24d72f49dc742ce8a9853e97b007bd83a4e5cb540dcd5e5c3f389f00da77df1b5b95dbfa40ab27f7caeefdef6bc4bd19364db0d8bb68a7d369102f45c3903f31dd20ee5aa933067ba7149d4479934f858d32,
          -0x27ad77bec44b41dc77fc2461fd8ee0b950978ac0e171fc9806371f6923c794ad,
          -0x588fd961c915e4130b2ade399fa4f9937b4b0ed0676da7c29a638e43064cbc07);
    Added(0x20000000000000000000000000000000000000000, G161, 0x40000000000000000000000000000000000000000, G162, M20_6,
          0x55ee20458cb889b2772733f323ea060945e5491ca52c70508c0c1fc8dd40ad37,
          0x250dbfd5896043892c07f1f81d22e251030489e0388304f2f1d114cb407415e21b72276712e0f95c7237ed92fe1bcf3fd9b8633793ea77d84f01238d08f228861d9901e2dd94535c40c1603bd47f21ff84f30a74e997d06a1e15784dcf12d109dc12796bebf64ba7e2035db953af7999de7be3ad7b4259ced75f7c10f2f7,
          0x1c92a2950f7b6b29f7d2f89ed8e0310284e15bec1243819ec1e1e58b2e96b89,
          -0xd4915fd65b01aa191638bdccc392be0edbefdf33ecd3479ad83c03bc8d4bd93);
    Added(0x30000000000000000000000000000000000000000, M20_3, 0x40000000000000000000000000000000000000000, G162, M20_7,
          0x7a4a93b3e7abfadaf8ddf3aaf16894674310953f42dd073fd8c9bf99042ef0f3,
          0x52d8ee8a8befbc1122bf832360e66ed9d41a504956276b3d1e139f7c17e3251bfad64837f1bcd781f3dc1b059459cfcaeee6fb9d636baad6fd9ade34cf96d7c0cc13e7d72bdeb7561d3aaeb07ccafc0319be5d0b37ee509f4568c0c43c6e7d774162a3aaf890a329236b85eea8bd908cd17007196ae98a300f3aab9c8fc3d7,
          0x29f4b989a93561447bdfaa7a5a33c25437c2d4a294f3e4bb6ea914af1c9ca90b,
          -0x5e3dbef431da7a463b3e460e4dc215789cb35c9adf63d0682c5fce6a8a20f0e7);
  }

  const ROWS20: seq<seq<byte>> := [
    Row(0x2f1b78fab143a8a6e185d956e980718ab9ef22fbabf041a44637974e8c58aedc,
        0x57968290bb3a0095f0f52dc746d5dd25d3f938ad889596b896eebffb305b2f51,
        0x7dc43e35dc2aa3e1cf7509a86ee2eed1f393658d24f0ec47f71ab8430a20e101),
    Row(0x7ef72016758cc12fc6e08df8ef2079b1c90f9b314bb0535585966665887dd9c3,
        0x44fb81d82d50a990f2ed8051f237d3e3576c6995e4efd945a782a5c273e9718,
        0x7f79823f9c30dd2eca704534b201bb4957b3371dce4c6359c1df18c5a907e3d9),
    Row(0xa4e0373d784d9b412b54136f590bd33c13670d4b91fa8d88334d239a3b513e8,
        0x64a9b0431c06d6f03cbf99557ded5be70827894e0050c8de6a9c1ff068f587ba,
        0x71a7d0ace18346c7156ce4389a45d47b0b4f6a0d53a82352eb3d6a15b7d2919),
    Row(0x2c3bcc7146ea7e9ccf543002c0ef768b01262905bfa562eed3072daac887ba0b,
        0x7c69bcf7617755d39af5621b209d5f360d65950709b15141cc0c355220e14431,
        0x6f5a9a7322aca51de951a9a3171798d710db18252f50f37d07f0d7eb04e8295f),
    Row(0x494e21a2e147afca4efa47703cc51c9fc49f79c10cfefb9b8ba1000c2f41c6c5,
        0x2ab9680ee8d3b244525567a47869c038d9e09408078af9ee729d4eba3d944be,
        0x6b5d76cbea46bb34fa091f1dd91ef6d9219a224e0fb9a249efa48a85dde50d9a),
    Row(0xae333f685277354af0169148f42b4776472dc6f5cd01dba8857556cec0cd994,
        0x16fb869c03dd313e408b3ea2d0fcc746f1e6ae74036936d3e0f941171e782522,
        0x3f81e38b8f70d0754811f7ed0991d03e24fc72b4d8abe133288e199733b60962),
    Row(0x50510fc104f50993a8397ed24b0c4704545cb8a12465874b7f910fcc7ed9affe,
        0xad3e2d34cdedc3dd57c3e8bcbf8eaf774b923c3d74299a40adb7f355f17c824,
        0x127c158bf0fa1ebef2d6fd0009eefe1c745ede19c331cfd96f0c0fc5336e249d),
    Row(0x354ef87d07ef4f689b413fc14b4eaccba44addd452ca3647f6197c422e9879a2,
        0x4ed82479d167df956240680b873848a81d9973d3744dfe96dea28fc4ae51b974,
        0x302d92d20539236d8808ac30a9f6653c50352efceb41b0b8fee3b52260c5d975)
  ]

  lemma Rows20_1()
    requires Fermat()
    ensures |ROWS20| == 8
    ensures IsRow(ROWS20[0], Mult(0x10000000000000000000000000000000000000000, BASE), Factor(20))
    ensures IsRow(ROWS20[1], Mult(0x20000000000000000000000000000000000000000, BASE), Factor(20))
    ensures IsRow(ROWS20[2], Mult(0x30000000000000000000000000000000000000000, BASE), Factor(20))
    ensures IsRow(ROWS20[3], Mult(0x40000000000000000000000000000000000000000, BASE), Factor(20))
  {
    hide Fermat, IsMultiple, IsRow, Row, Mult;
    Points20();
    RowIs(0x10000000000000000000000000000000000000000, G160, Factor(20),
          0x2f1b78fab143a8a6e185d956e980718ab9ef22fbabf041a44637974e8c58aedc,
          0x57968290bb3a0095f0f52dc746d5dd25d3f938ad889596b896eebffb305b2f51,
          0x7dc43e35dc2aa3e1cf7509a86ee2eed1f393658d24f0ec47f71ab8430a20e101,
          0x1, 0x0,
          -0x16960a51416b7363401968999143f4857bd07e01c394832a934112144b3cd0538b8966202ed23b7a15bd252e06722a33006753794de56de6476dc73126a4edb);
    RowIs(0x20000000000000000000000000000000000000000, G161, Factor(20),
          0x7ef72016758cc12fc6e08df8ef2079b1c90f9b314bb0535585966665887dd9c3,
          0x44fb81d82d50a990f2ed8051f237d3e3576c6995e4efd945a782a5c273e9718,
          0x7f79823f9c30dd2eca704534b201bb4957b3371dce4c6359c1df18c5a907e3d9,
          0x1, 0x0,
          -0x59caec3ded7422a3efa17bf543a18ac0ab5411ffa922d8e670f8a5362d0ad9c94a107b5ef6f883ea458e3af402a6fb9b376c0ccd2fef299e52fe2fc0ae595);
    RowIs(0x30000000000000000000000000000000000000000, M20_3, Factor(20),
          0xa4e0373d784d9b412b54136f590bd33c13670d4b91fa8d88334d239a3b513e8,
          0x64a9b0431c06d6f03cbf99557ded5be70827894e0050c8de6a9c1ff068f587ba,
          0x71a7d0ace18346c7156ce4389a45d47b0b4f6a0d53a82352eb3d6a15b7d2919,
          0x0, 0x0,
          -0xc8c3d7a5415cbbb1b2cc3e8c63d8bbf417b300d6d1d040d96295d7dd7d025e072393fdd47c963f6b72eeda6ddcc20c8f56cbb6ba286c98421045ee72b8203d1);
    RowIs(0x40000000000000000000000000000000000000000, G162, Factor(20),
          0x2c3bcc7146ea7e9ccf543002c0ef768b01262905bfa562eed3072daac887ba0b,
          0x7c69bcf7617755d39af5621b209d5f360d65950709b15141cc0c355220e14431,
          0x6f5a9a7322aca51de951a9a3171798d710db18252f50f37d07f0d7eb04e8295f,
          0x0, 0x0,
          -0x10ebf873e15e138b1353861b464a14db8f75388d4a11e305862e7905dca75f5ee4cc14eaece611fc7acf9886f5490432891c36ecacb410f1001f88259943e6d1);
  }

  lemma Rows20_5()
    requires Fermat()
    ensures |ROWS20| == 8
    ensures IsRow(ROWS20[4], Mult(0x50000000000000000000000000000000000000000, BASE), Factor(20))
    ensures IsRow(ROWS20[5], Mult(0x60000000000000000000000000000000000000000, BASE), Factor(20))
    ensures IsRow(ROWS20[6], Mult(0x70000000000000000000000000000000000000000, BASE), Factor(20))
    ensures IsRow(ROWS20[7], Mult(0x80000000000000000000000000000000000000000, BASE), Factor(20))
  {
    hide Fermat, IsMultiple, IsRow, Row, Mult;
    Points20();
    RowIs(0x50000000000000000000000000000000000000000, M20_5, Factor(20),
          0x494e21a2e147afca4efa47703cc51c9fc49f79c10cfefb9b8ba1000c2f41c6c5,
          0x2ab9680ee8d3b244525567a47869c038d9e09408078af9ee729d4eba3d944be,
          0x6b5d76cbea46bb34fa091f1dd91ef6d9219a224e0fb9a249efa48a85dde50d9a,
          0x0, -0x1,
          -0xea49bf6a37cf77f55eaad885d55f2239e695c80754ea9d59306af2f7582cfc14cb8087a8f770d85cf9f6f6a514f2aeb2f92c56367e131f641ef4414a0e1a8ee);
    RowIs(0x60000000000000000000000000000000000000000, M20_6, Factor(20),
          0xae333f685277354af0169148f42b4776472dc6f5cd01dba8857556cec0cd994,
          0x16fb869c03dd313e408b3ea2d0fcc746f1e6ae74036936d3e0f941171e782522,
          0x3f81e38b8f70d0754811f7ed0991d03e24fc72b4d8abe133288e199733b60962,
          0x0, 0x0,
          -0x833d7949016df8da2fb7c2f00eb8ac37a0920524ae7d7f5df308e43963c1e1239e373dbc5dd9d26e7af53cbab042c5950747c3b14ed0480b1f276faae806fc);
    RowIs(0x70000000000000000000000000000000000000000, M20_7, Factor(20),
          0x50510fc104f50993a8397ed24b0c4704545cb8a12465874b7f910fcc7ed9affe,
          0xad3e2d34cdedc3dd57c3e8bcbf8eaf774b923c3d74299a40adb7f355f17c824,
          0x127c158bf0fa1ebef2d6fd0009eefe1c745ede19c331cfd96f0c0fc5336e249d,
          0x1, -0x1,
          -0x1546041cc821b27614a32ccf360bdc1cbcef69a60b4dc707ae67bf6134592acfb826aa5ce5e96e98a0cf8e44600cb99dd1606dce51f340ca9956a31124cca68f);
    RowIs(0x80000000000000000000000000000000000000000, G163, Factor(20),
          0x354ef87d07ef4f689b413fc14b4eaccba44addd452ca3647f6197c422e9879a2,
          0x4ed82479d167df956240680b873848a81d9973d3744dfe96dea28fc4ae51b974,
          0x302d92d20539236d8808ac30a9f6653c50352efceb41b0b8fee3b52260c5d975,
          0x0, 0x0,
          -0x4391ce0291b777cccbb870b63cf83643b95bc58d1520d761b21e6d67c6026b85e6b0974da1b97bb05813fc767e292e15b24c6aae6416ad192d51ef80e015d31);
  }

  lemma Power20()
    ensures Pow(256, 20) == 0x10000000000000000000000000000000000000000
  {
    Power19();
    assert Pow(256, 20) == 256 * Pow(256, 19);
  }

  const TABLE20: seq<seq<byte>> := TABLE19 + ROWS20

  lemma Table20()
    requires Fermat()
    ensures AreRows(TABLE20, 21)
  {
    hide Fermat, IsRow, Row, Mult, Pow, Factor, IsBlock, AreRows, ROWS20, TABLE19;
    Rows20_1();
    Rows20_5();
    Power20();
    Together(ROWS20, 20, 0x10000000000000000000000000000000000000000);
    Table19();
    MoreRows(TABLE19, 20, ROWS20);
  }

  const M21_3: Point := Point(0x6db3c0d1a1f27fb0927da458c5094175bfabadbadebd785ee99ac3cd228bac21,
                          0x7b499ecb9b1bdb3f12e8ff00f1c4ed63d34986f92d8b8d77776ba7775d04f62)
  const M21_5: Point := Point(0x73d4d9f5b9708fbdfa3457f84ed45d4fd9bd95f1a91f076407b07c406ee8b4d5,
                          0x256e14cee7d41e0a865df1a6a2d03716b20fa52b32cce3736a17c7fcc669e516)
  const M21_6: Point := Point(0x5c3370c184b6f61303b2b6a3cbbbfb9a2a154ed321328b0350bf43a6a211a8a9,
                          0x292a52d9e93324005d35aa45dd11ab1105896dd9390331387e76d7269a0ad07e)
  const M21_7: Point := Point(0xf9df8eef9562ab6f14c70c8bda2f490d3b5f23743fb6d40f8bf09f014389c99,
                          0x42ddc05b73970fe43751b75a52f4c842b509ee407430296edd9a674eb33be730)

  lemma Points21()
    requires Fermat()
    ensures IsMultiple(0x1000000000000000000000000000000000000000000, G168)
    ensures IsMultiple(0x2000000000000000000000000000000000000000000, G169)
    ensures IsMultiple(0x3000000000000000000000000000000000000000000, M21_3)
    ensures IsMultiple(0x4000000000000000000000000000000000000000000, G170)
    ensures IsMultiple(0x5000000000000000000000000000000000000000000, M21_5)
    ensures IsMultiple(0x6000000000000000000000000000000000000000000, M21_6)
    ensures IsMultiple(0x7000000000000000000000000000000000000000000, M21_7)
    ensures IsMultiple(0x8000000000000000000000000000000000000000000, G171)
  {
    hide Fermat, IsMultiple;
    Powers168();
    Powers174();
    Added(0x1000000000000000000000000000000000000000000, G168, 0x2000000000000000000000000000000000000000000, G169, M21_3,
          0x19c4058adf746e8d83a5782d712925f17b4d37190cb505159e4ee8cafb1e2a7d,
          0xe94094dfdd48c1b191e87c93fd4fb9f6672bc3aeba0394f39019e56635ca337b820dafda6d36b644d11584bd80dc89d4c4ab85bd1a27b6b3655fd361e18fbb50379d709af2858a05f88b3b259aacfa475a54ca22aff8aa06f192eb3700ccb18911845ace2a9d69be9d8204f57bd5a3f77e22117899e7c29f46e35af55229cf,
          -0x7346448d0fe00855c811898dac31b428ea73d03fc504e19b6a480ebe9931621c,
          -0x6ddbc30fdcbf742fa88dcac8da528c0b4fb2d623615c890ce8b1d1fa649aa97a);
    Added(0x1000000000000000000000000000000000000000000, G168, 0x4000000000000000000000000000000000000000000, G170, M21_5,
          0x3fa7e49f86fc1d7ce0f2b819a4bc5d1ab1b9329ef391c9a3d80df7cdcb331a8e,
          0xe8d7050da0af7ade9ba08b7c429e2f4a989f5bff124791b6ecd30171c2373b163f855ad7011b9b39160431829fc278b389f96cf6f508206b103f1beb2002b58daf2900e4a14d7525111b58852c8bfa4870b2b7251fe616a14b4ce2118e9f6515fe0d7d56012fb5a0c011156e552203f3dd813c2146a3a5ea491682c2048c7a,
          -0x3d0361e4cbbd8f1f8ee146e19172ac2115262f0419aa36bda6987ad70979641f,
          -0x8eb10e1823b69c39fda1e384afc410c8ec29a4f751b357f89fa8b00c1891caac);
    Added(0x2000000000000000000000000000000000000000000, G169, 0x4000000000000000000000000000000000000000000, G170, M21_6,
          0x5451879c2b39b10d17231f04756e4289f35b60d69f8e250d66c6864f44bc6b73,
          0x5564bd7ee2b3919a4cea04e944f7b9a61ca46951872900a2589f5555479495040483a75719ffc8b4039ba63a6624fbc91658c7689ce1102c93b84284a0f374c000e7efcd4bde977185fc70aebb7d8d2644baea8daae32cdfb4e4df6180f4ec4148470d63a9c4f22a75bdbfb47a72b79ea626380d6eb261ae67c8d73aa584021,
          -0x7f0c9b3dfcfb21240ecb10636e8eab1cd794b18d3ef700b07d218206db33a4a4,
          -0xd5420d3a789999906f73a2d995dc96aab6da060b91178d1f40793fd84b2510eb);
    Added(0x3000000000000000000000000000000000000000000, M21_3, 0x4000000000000000000000000000000000000000000, G170, M21_7,
          0x1fbd1fd5768470ef53dc0282fd0f993291b8ec0d60f862ff50094f267038ec4a,
          0x619c7efe677639118ad8634e63a78aa984f0fc0122511fc4fd1a60adf7942bb4029258fca0548e57cffb29110c61f07d466619c9b3f639936e636a1b9aa89a1685b8d3b80e724efe5e29e0b32664f1396c6db13fc20e571f57d82591c65c7b7868cdf0d58b9f7ea4f29d559fdfc6de519cd2aad5718492601d44bf313b6d8e,
          -0x5d593ff9e35eea9e1ded40bc7d357d5df46a9d20476120b98e3fab671be8fc38,
          -0x76d03cacbaf0a99b85e51e74b69e198a873d66254e22ffdae09bbd60c424e69e);
  }

  const ROWS21: seq<seq<byte>> := [
    Row(0x10e5d3b76f1cae4caec7bcb8c268fa86ed62f091a1863dd97813c1a2bca4283d,
        0xedc5f5eb426d0605e1966d4787af6e804e1bf29a4bd6a932dbc6fb6e4e0f177,
        0x45b46c51361cba72bf87263b03578a23e9dc1eec24a9f6415453bfd653da8e67),
    Row(0x2177bfa36dcb713b1dbbd54b23a8be84e257f1dc8e8cf450a9402abf314f7fa1,
        0x5c1c0aef321229df4b594f7bb30e9958ab13645676620e30ce9d4ddd8a7fe3e4,
        0x4ae619387d8ab5bb087a76659c8324876048811ec25f59b337081bbcfa79db8f),
    Row(0x1a00d91b17bf3e035eb0eb974a130d607d88eab4b41b40788ddbf6aa5344a32e,
        0x75685abe5ba43d6483ac3448d425904bfce0462a7196313661117e44985bfb83,
        0x135529b623b0e6aadf7275107af66569543d0fa8c9ff49526e960933eb61f2b2),
    Row(0x79b5b81a65ca3a018732e1f07114759b979f7888cfc11f1118f0dbd7add1d518,
        0x5972ea051590a613ec9da63714254aaeb42beb19e80985c1f5c716bce22e83fe,
        0x4f7e9c95905f3bdbc01b2d64b33604349a9ad294ac4d4fa80fd4ac20dc8f7811),
    Row(0x31993ad92e638e4c8c2999ae53fbd9c6d8520f3989addc0f62674bbc5781302e,
        0x1942eec4a144adc88092499ef1a494668bcd3b1cdbebead771c8443d355299fe,
        0x2a0a65314ef9ca75553ce494253c11222c1b3d910cea3e927dac5319ae234992),
    Row(0x4cf6e218647c2ded5982f3a21155af76db741f0617d0a6352db7937ff7f927c2,
        0x55dc39b6dea1a1360e860e9a8cda6ab2f9ebcac5a35bc3bcf361acd3c1c793a,
        0x121a307710aa24b6a83c78cee4a32c8907e24ebc774dffabb119227cc28d5bb6),
    Row(0x333fc76c7a40e52d460546919551d3b1e153fc093034bc2de4db5d5e9f034a97,
        0x527bb94a6ced3a9b289e28231097bcd388bfe077b82b96afd659713ec77483c9,
        0x6b89069b20a7a9f7485035de2f64d8e53405d07c6e383801563d992a995b482e),
    Row(0x23bc2103aa73eb73ffadc4ce5072ef05995a89faf9245b4e812aa0416270220d,
        0x473d308a7639bcf29e6c8d9f6e7a57e068686f8c734c1554082fa8cb5c7db77,
        0x102f73bfde04341a02a1ef74e601a94f2b4b421246dcc492caee792603589e05)
  ]

  lemma Rows21_1()
    requires Fermat()
    ensures |ROWS21| == 8
    ensures IsRow(ROWS21[0], Mult(0x1000000000000000000000000000000000000000000, BASE), Factor(21))
    ensures IsRow(ROWS21[1], Mult(0x2000000000000000000000000000000000000000000, BASE), Factor(21))
    ensures IsRow(ROWS21[2], Mult(0x3000000000000000000000000000000000000000000, BASE), Factor(21))
    ensures IsRow(ROWS21[3], Mult(0x4000000000000000000000000000000000000000000, BASE), Factor(21))
  {
    hide Fermat, IsMultiple, IsRow, Row, Mult;
    Points21();
    RowIs(0x1000000000000000000000000000000000000000000, G168, Factor(21),
          0x10e5d3b76f1cae4caec7bcb8c268fa86ed62f091a1863dd97813c1a2bca4283d,
          0xedc5f5eb426d0605e1966d4787af6e804e1bf29a4bd6a932dbc6fb6e4e0f177,
          0x45b46c51361cba72bf87263b03578a23e9dc1eec24a9f6415453bfd653da8e67,
          0x1, -0x1,
          -0xa17e7b3718a7aeb88749bf5d952ff22731ef74b28d95deba5321feb520ef7329c69e7b106459cfa070c7b724409bb646274d6d92929ac9a5b24e066b6855655);
    RowIs(0x2000000000000000000000000000000000000000000, G169, Factor(21),
          0x2177bfa36dcb713b1dbbd54b23a8be84e257f1dc8e8cf450a9402abf314f7fa1,
          0x5c1c0aef321229df4b594f7bb30e9958ab13645676620e30ce9d4ddd8a7fe3e4,
          0x4ae619387d8ab5bb087a76659c8324876048811ec25f59b337081bbcfa79db8f,
          0x0, -0x1,
          -0x3b3a430b4f71e22d11faf794fe8c4781f3dcc2d2b8f0b08e8d7bfd9738ad93e1733db17684a96b4bdc96e29804d6b6de92c9ac7d80738eff989be0fe4ade5665);
    RowIs(0x3000000000000000000000000000000000000000000, M21_3, Factor(21),
          0x1a00d91b17bf3e035eb0eb974a130d607d88eab4b41b40788ddbf6aa5344a32e,
          0x75685abe5ba43d6483ac3448d425904bfce0462a7196313661117e44985bfb83,
          0x135529b623b0e6aadf7275107af66569543d0fa8c9ff49526e960933eb61f2b2,
          0x1, 0x0,
          -0x43b39fa613fb2397909b7660dd8b26d273a00cbf9b2f6ef50e5ff01223b346bda13d9cb6455398e0022fdb9f4f99c7cd305d9b42f8ee090bfe0939bb88b6cc2);
    RowIs(0x4000000000000000000000000000000000000000000, G170, Factor(21),
          0x79b5b81a65ca3a018732e1f07114759b979f7888cfc11f1118f0dbd7add1d518,
          0x5972ea051590a613ec9da63714254aaeb42beb19e80985c1f5c716bce22e83fe,
          0x4f7e9c95905f3bdbc01b2d64b33604349a9ad294ac4d4fa80fd4ac20dc8f7811,
          0x1, -0x1,
          -0x3b1f7522cd78f2a80863bed584305b74f9d9acb8a20dc48755d2d89f218c6208e67abdaa16d75be1e42b3cf92ac12b8dba6a6dfc25a5120db6e0f8061540058b);
  }

  lemma Rows21_5()
    requires Fermat()
    ensures |ROWS21| == 8
    ensures IsRow(ROWS21[4], Mult(0x5000000000000000000000000000000000000000000, BASE), Factor(21))
    ensures IsRow(ROWS21[5], Mult(0x6000000000000000000000000000000000000000000, BASE), Factor(21))
    ensures IsRow(ROWS21[6], Mult(0x7000000000000000000000000000000000000000000, BASE), Factor(21))
    ensures IsRow(ROWS21[7], Mult(0x8000000000000000000000000000000000000000000, BASE), Factor(21))
  {
    hide Fermat, IsMultiple, IsRow, Row, Mult;
    Points21();
    RowIs(0x5000000000000000000000000000000000000000000, M21_5, Factor(21),
          0x31993ad92e638e4c8c2999ae53fbd9c6d8520f3989addc0f62674bbc5781302e,
          0x1942eec4a144adc88092499ef1a494668bcd3b1cdbebead771c8443d355299fe,
          0x2a0a65314ef9ca75553ce494253c11222c1b3d910cea3e927dac5319ae234992,
          0x1, -0x1,
          -0x15b3db99b27f90270ef780eab5f0994b6d3b7d4505bb51f66f42640e5d41116bf3bee6e9a647ecc4904fc5effb820a27236d961132ae9e37d693f113e52b8e8a);
    RowIs(0x6000000000000000000000000000000000000000000, M21_6, Factor(21),
          0x4cf6e218647c2ded5982f3a21155af76db741f0617d0a6352db7937ff7f927c2,
          0x55dc39b6dea1a1360e860e9a8cda6ab2f9ebcac5a35bc3bcf361acd3c1c793a,
          0x121a307710aa24b6a83c78cee4a32c8907e24ebc774dffabb119227cc28d5bb6,
          0x1, -0x1,
          -0x12ffc12c98f451faa7d6e384c783282715d31fc6ef0e9bb460393cadc7f06196972bb79e7fe2cbe7dc1b5778db417f317345ee2b5f168a7d13e0d842782b2c96);
    RowIs(0x7000000000000000000000000000000000000000000, M21_7, Factor(21),
          0x333fc76c7a40e52d460546919551d3b1e153fc093034bc2de4db5d5e9f034a97,
          0x527bb94a6ced3a9b289e28231097bcd388bfe077b82b96afd659713ec77483c9,
          0x6b89069b20a7a9f7485035de2f64d8e53405d07c6e383801563d992a995b482e,
          0x0, 0x0,
          -0x53a2b8aae1f1e793b78fbad91c857e695ffd7e233311c66d589f57a9c9a4110a89d14d5b8b6139898b1fd29b8e38c729ad4dc6d747744cd45a5a0e04c780f7a);
    RowIs(0x8000000000000000000000000000000000000000000, G171, Factor(21),
          0x23bc2103aa73eb73ffadc4ce5072ef05995a89faf9245b4e812aa0416270220d,
          0x473d308a7639bcf29e6c8d9f6e7a57e068686f8c734c1554082fa8cb5c7db77,
          0x102f73bfde04341a02a1ef74e601a94f2b4b421246dcc492caee792603589e05,
          0x1, -0x1,
          -0xb4d261bf8b7e90395b835a90b4e5bdbe6f44f509f917cb9dec50643ae981787195e2b817d8bf0381f6384473a937627e5854735aadf683a619f3ed0605cfd7f);
  }

  lemma Power21()
    ensures Pow(256, 21) == 0x1000000000000000000000000000000000000000000
  {
    Power20();
    assert Pow(256, 21) == 256 * Pow(256, 20);
  }

  const TABLE21: seq<seq<byte>> := TABLE20 + ROWS21

  lemma Table21()
    requires Fermat()
    ensures AreRows(TABLE21, 22)
  {
    hide Fermat, IsRow, Row, Mult, Pow, Factor, IsBlock, AreRows, ROWS21, TABLE20;
    Rows21_1();
    Rows21_5();
    Power21();
    Together(ROWS21, 21, 0x1000000000000000000000000000000000000000000);
    Table20();
    MoreRows(TABLE20, 21, ROWS21);
  }

  const M22_3: Point := Point(0x7d7225dafd9c43b59f53de50a2232f2079fd512ec2cdc0401d094d528a5f7598,
                          0x63e030388d50aaffa92ef62ddd0c7c6977336f22ff2ef9ede19db18d4eebfb4e)
  const M22_5: Point := Point(0x148a7d88b200dc224b62a923b9f58c9e323f4767053e57cbeb3b3f7e95221da8,
                          0x4f4f0b1a20843403c646345be083da0f8f802af55314659e2b1adfead4e889b4)
  const M22_6: Point := Point(0x130130d18b59ca9d78a8dd09fcf85f147e1975a56930e1cb1c933f84ff1f58e9,
                          0x29c224fb2db0a7452b55d9dceffe465a8911d9d59c7059007099894bc50376ff)
  const M22_7: Point := Point(0x36c2e3fa23db337fcb93fbe309f54f2ef651bd54bb708fd5c9f838d46484879b,
                          0xc5c488542844d3587d1934428ef0eb27c2f08a72787757c7de13ce53eeb864d)

  lemma Points22()
    requires Fermat()
    ensures IsMultiple(0x100000000000000000000000000000000000000000000, G176)
    ensures IsMultiple(0x200000000000000000000000000000000000000000000, G177)
    ensures IsMultiple(0x300000000000000000000000000000000000000000000, M22_3)
    ensures IsMultiple(0x400000000000000000000000000000000000000000000, G178)
    ensures IsMultiple(0x500000000000000000000000000000000000000000000, M22_5)
    ensures IsMultiple(0x600000000000000000000000000000000000000000000, M22_6)
    ensures IsMultiple(0x700000000000000000000000000000000000000000000, M22_7)
    ensures IsMultiple(0x800000000000000000000000000000000000000000000, G179)
  {
    hide Fermat, IsMultiple;
    Powers180();
    Added(0x100000000000000000000000000000000000000000000, G176, 0x200000000000000000000000000000000000000000000, G177, M22_3,
          0x73af169a962fa17ea1ee53afd7b24bd60c2ac72178430d7292e75510f9353921,
          0x8d6acc0302d072f0e458962e69132c5f5fc8e5412a140accb6b1821ea50329c7164a2673a535bd504048162d9cf81483d1de6cb25205adb09357cca2514d19b8e2e432090b7e083258783b97dca7278ec3fb83543e09e507e11ac925aa62f491a3d11eac57c764150746233958daf4afc2200e4b3cdf3c5c7556ab336b27b,
          0x439e6788dbe98c40076efc2bd8203e4f82860997448da39771c5d181959cc848,
          -0x6dc93a3f2a4ba68b66b1433951b7c06fa1319265daf370c011156321e1fca128);
    Added(0x100000000000000000000000000000000000000000000, G176, 0x400000000000000000000000000000000000000000000, G178, M22_5,
          0x4d2f3ecc9dc13924fee9b85656f078cadf8782a20fcc0877ddc9fb00fe32200d,
          0x1006afd7d095466e691be70bedf6f2cdba59d9a7b8a4d447f64c49a4a9cf47a3907518e1fb1c4ae32750bba219321586eec734716f38109ec24e8f1aa8a4fb336df930a909b7b39a336f0a21fb326a35e733edec275427603e0b552e28937d609d1b16f586bff62e2c6a81f29c3706cdc3279fbd4afa10de3d479f2c79df9f,
          -0x17c7827212393cefbfde8baa9b820068d13fefe9715c86384e7c3b5fe8fa287c,
          -0x598fb61226913fabc784213085bc979bd3984dff05771aa6413fc6dfc045b59e);
    Added(0x200000000000000000000000000000000000000000000, G177, 0x400000000000000000000000000000000000000000000, G178, M22_6,
          0x52696cc640d0b1f4bb2b3f70b3227698421d6ee0cd192242d99ce59e1d26ec45,
          0xcb168a90883dd08cca27d408c7c507162d77ef8bcd46f487918e0c899e9b88ed84cc00d2239d968fab256406ddd338863f24dd672461e2a7014101659c93c993960bf53beb1a9d0188db83c0c3d69d530e20acca4489fccad48c2cee2f0e6fcfc56d3408d15c6c7b8ba6707acac6f1990b5a9f420b76671b605751f737ff27,
          -0x47d8aa450409d399cbf5b6c61daede6b40a10f22bdae782dbe3415eadd042fc6,
          -0x68a2114d60501d54b997eae350a3fc1e097bebdb8f440abe72281cbcecf73320);
    Added(0x300000000000000000000000000000000000000000000, M22_3, 0x400000000000000000000000000000000000000000000, G178, M22_7,
          0x692fc5af73ebd8ad2e10d465fb75ea7738e947246b6b463ed08eb006b0235dea,
          0x2efc286ef5b502b4d524f0cbd24663ab7fdecbbe3b64e9964738de97fb8c1a461dc44d77f1e51cf2fc83ae3f246e226f51c12d99e93210484323bbc01e7e6b48a838bce8c548960a6b09823056c4647674dfdf8306705623ef7baed2d577683cb8c9a6734a54deba89c933c5a5212e30bf34344fad1c139279867e59905570e,
          -0x5eb24bc6eedd171e4b5c549c4e6d4300b5d91c0d5a7940332a6418376029bb5d,
          -0x933bcac73e1484fcddfd2808b604d73b852951cd9a9a46e1d37d5bcedcaeeac5);
  }

  const ROWS22: seq<seq<byte>> := [
    Row(0x36597d25ea5c013db72712da2df7afa9023a8aee5787c690eb18b9ab7f5745c6,
        0x3f6bd725da4ea12d981f375df55042347ac860292bffff06a2b4dae0b5511c9a,
        0x7b7ecc19da60d6d06466f8f99202932dd940579e6fc6905f734d8d7b106058ac),
    Row(0x4235ad7601743956951d44444ae12bd2dd252e660642906e78c2373c695c690d,
        0x3bedc661bf5caba09bbffcd8f2d82db82263654e7a386506dae4a51a77cfa9b,
        0xe7ce2b0cdf066a1a0cab423e2e36ee4492942549189f2986258cb0d078975f5),
    Row(0x666e0a5d8fb4674a09db17dd3ae94d48fd361df43c6139adc494643ac48c85a3,
        0x615256138aeceeb54882d47e7f2fab89f130c051c1fcba2dfea6fedfd94b70f9,
        0x7f0bc810d514dee49abe4eba75e8985dcd65bcf0aa458b6b2abbf64e4870cb0d),
    Row(0xd1f8dbcf8eedbf5cbc8dfd94f463c288d67369e57e03035b9006ba426f4136f,
        0x1d3a907ddec5ab75311e2edd43ec69579ff6f8ba2ef72e9883ac9dad737213a0,
        0x11b44a31bfde30128013c030321cb29329fad851b3480ba1693313ed081dc),
    Row(0x3ac48d916e8357e17ae38b38268e4d715d40e38e4dd60dd23fdfa06c3fc66c0c,
        0x63d988a2d285102611a8dd7f9a7966adc1bf725c5852bd6a16561f696a0aa75c,
        0x33fad52b2368a066f81669b384e72b91e92bceb8fdd8f68300120753afbd232e),
    Row(0x16c0f429a256dca7b2acfcd2f305e7460af86430333f7735540649c6c5e41e16,
        0x3cc355ccb90a71e2a3feb6e6ecf6a56f072b4f7b05a13acb8d2cc8d0c422cfe8,
        0x631eaf426bae7568c87cd1a4baba9244b8a494cb7a5637cee9b69443903e9131),
    Row(0x5599648b1ea919b5bc3d97611ef9bf8385dd4b526c16e5a6b3e90410da66fe9f,
        0x431f2c7f665f80b553658f2732e45de17280c5fbe2f8055247d975b9a3700de8,
        0x7b04715f91253b268900441a2090a9d714ab352fa1ea514ad6026344858f7b19),
    Row(0x59b37bf5c2f6583fc0404769b7eb2c4486357c8b7d5c7ab483edbd28acf6ae43,
        0x48d0acfa57cde223b09a9558450bf944970ed3dd6d1d9b0bb376c280c4e6bac6,
        0x16234191336d3bdb4208ce7ee9960394f1d1a197622f3a37b60f26e47dabe671)
  ]

  lemma Rows22_1()
    requires Fermat()
    ensures |ROWS22| == 8
    ensures IsRow(ROWS22[0], Mult(0x100000000000000000000000000000000000000000000, BASE), Factor(22))
    ensures IsRow(ROWS22[1], Mult(0x200000000000000000000000000000000000000000000, BASE), Factor(22))
    ensures IsRow(ROWS22[2], Mult(0x300000000000000000000000000000000000000000000, BASE), Factor(22))
    ensures IsRow(ROWS22[3], Mult(0x400000000000000000000000000000000000000000000, BASE), Factor(22))
  {
    hide Fermat, IsMultiple, IsRow, Row, Mult;
    Points22();
    RowIs(0x100000000000000000000000000000000000000000000, G176, Factor(22),
          0x36597d25ea5c013db72712da2df7afa9023a8aee5787c690eb18b9ab7f5745c6,
          0x3f6bd725da4ea12d981f375df55042347ac860292bffff06a2b4dae0b5511c9a,
          0x7b7ecc19da60d6d06466f8f99202932dd940579e6fc6905f734d8d7b106058ac,
          0x0, 0x0,
          -0x1564571956df9033f2948595ad181018fa71f971c9fcf42befa7b1ac8aceaec3c6f80a79205dcd290a80d13ace1b739f8895673d19b757463c4a2a3bfc6c264);
    RowIs(0x200000000000000000000000000000000000000000000, G177, Factor(22),
          0x4235ad7601743956951d44444ae12bd2dd252e660642906e78c2373c695c690d,
          0x3bedc661bf5caba09bbffcd8f2d82db82263654e7a386506dae4a51a77cfa9b,
          0xe7ce2b0cdf066a1a0cab423e2e36ee4492942549189f2986258cb0d078975f5,
          0x1, -0x1,
          -0x10f15e8cc7a2d674dcceb4b5197fdb6dd9f92f66db7b9a85457cb61e23e3885b50b67cc6ede58e083ae67da921dc719cef19a14b2698564e47b7634089502ab7);
    RowIs(0x300000000000000000000000000000000000000000000, M22_3, Factor(22),
          0x666e0a5d8fb4674a09db17dd3ae94d48fd361df43c6139adc494643ac48c85a3,
          0x615256138aeceeb54882d47e7f2fab89f130c051c1fcba2dfea6fedfd94b70f9,
          0x7f0bc810d514dee49abe4eba75e8985dcd65bcf0aa458b6b2abbf64e4870cb0d,
          0x1, -0x1,
          -0x3eb766c96b21e441a7142be43a0a3193db929f05553b9e9b5cbed7fe159e612cf977c1573b0d5f7b3313f4fc31b15bc4444ffab35f5d57953eb9ede986a7f5bf);
    RowIs(0x400000000000000000000000000000000000000000000, G178, Factor(22),
          0xd1f8dbcf8eedbf5cbc8dfd94f463c288d67369e57e03035b9006ba426f4136f,
          0x1d3a907ddec5ab75311e2edd43ec69579ff6f8ba2ef72e9883ac9dad737213a0,
          0x11b44a31bfde30128013c030321cb29329fad851b3480ba1693313ed081dc,
          0x0, -0x1,
          -0x1eb8870ba8abef2e6577ca3ed5e830d79573020d8a6f012d6c9f432f71ed6a331fb9c533bb595e412ae1c314716909070a268a771741e591f542f93730dcc0b0);
  }

  lemma Rows22_5()
    requires Fermat()
    ensures |ROWS22| == 8
    ensures IsRow(ROWS22[4], Mult(0x500000000000000000000000000000000000000000000, BASE), Factor(22))
    ensures IsRow(ROWS22[5], Mult(0x600000000000000000000000000000000000000000000, BASE), Factor(22))
    ensures IsRow(ROWS22[6], Mult(0x700000000000000000000000000000000000000000000, BASE), Factor(22))
    ensures IsRow(ROWS22[7], Mult(0x800000000000000000000000000000000000000000000, BASE), Factor(22))
  {
    hide Fermat, IsMultiple, IsRow, Row, Mult;
    Points22();
    RowIs(0x500000000000000000000000000000000000000000000, M22_5, Factor(22),
          0x3ac48d916e8357e17ae38b38268e4d715d40e38e4dd60dd23fdfa06c3fc66c0c,
          0x63d988a2d285102611a8dd7f9a7966adc1bf725c5852bd6a16561f696a0aa75c,
          0x33fad52b2368a066f81669b384e72b91e92bceb8fdd8f68300120753afbd232e,
          0x0, 0x0,
          -0x827994a1b37810725157b80bc2c7bf67cbc874e4d8c70266524215d95866c07cf0d8eef0a0fc994d3b3034aaca85527c900f122f28b6cc2fe355feed21cf19a);
    RowIs(0x600000000000000000000000000000000000000000000, M22_6, Factor(22),
          0x16c0f429a256dca7b2acfcd2f305e7460af86430333f7735540649c6c5e41e16,
          0x3cc355ccb90a71e2a3feb6e6ecf6a56f072b4f7b05a13acb8d2cc8d0c422cfe8,
          0x631eaf426bae7568c87cd1a4baba9244b8a494cb7a5637cee9b69443903e9131,
          0x0, 0x0,
          -0x3f8f862ecb343b5180b4f56b6154db6450a643ff7dc2af096ae22a9cabe2133f6f71c8be14df7aef519e9e9d9c05e6476b64aa5c8483f4680bbc2e492d7235d);
    RowIs(0x700000000000000000000000000000000000000000000, M22_7, Factor(22),
          0x5599648b1ea919b5bc3d97611ef9bf8385dd4b526c16e5a6b3e90410da66fe9f,
          0x431f2c7f665f80b553658f2732e45de17280c5fbe2f8055247d975b9a3700de8,
          0x7b04715f91253b268900441a2090a9d714ab352fa1ea514ad6026344858f7b19,
          0x1, 0x0,
          -0x3636388b370e07469b5785a4c89c608f75e3801bc23ee6df1f6f64dfef63974a790170102fdabaf84491adfac03db2a12260b59b5752ad05c7acaa4043870c5);
    RowIs(0x800000000000000000000000000000000000000000000, G179, Factor(22),
          0x59b37bf5c2f6583fc0404769b7eb2c4486357c8b7d5c7ab483edbd28acf6ae43,
          0x48d0acfa57cde223b09a9558450bf944970ed3dd6d1d9b0bb376c280c4e6bac6,
          0x16234191336d3bdb4208ce7ee9960394f1d1a197622f3a37b60f26e47dabe671,
          0x1, 0x0,
          -0x4ccacf6c40af1fd1c07e8841bfaa0eff1b7443cce8a5e8e2a462904c49730508fd96fe3b7d6f5bff02ffc0b1afca2fce25811fab81cb8bb4088c369b387cbcb);
  }

  lemma Power22()
    ensures Pow(256, 22) == 0x100000000000000000000000000000000000000000000
  {
    Power21();
    assert Pow(256, 22) == 256 * Pow(256, 21);
  }

  const TABLE22: seq<seq<byte>> := TABLE21 + ROWS22

  lemma Table22()
    requires Fermat()
    ensures AreRows(TABLE22, 23)
  {
    hide Fermat, IsRow, Row, Mult, Pow, Factor, IsBlock, AreRows, ROWS22, TABLE21;
    Rows22_1();
    Rows22_5();
    Power22();
    Together(ROWS22, 22, 0x100000000000000000000000000000000000000000000);
    Table21();
    MoreRows(TABLE21, 22, ROWS22);
  }

  const M23_3: Point := Point(0x70231a092565f0c7b906e37b3a2987d2b2d01cf9efde53f402c033c6e4ad2af6,
                          0x1df8dc634575bb9652a7c14badf523565c5b6ae551176ee1a4610642c985a6c2)
  const M23_5: Point := Point(0x34bd49edfa2dd7b810ca6bae43163dff4f4f945d01075475545652250ab38365,
                          0x73feaa96bbe61e5e37897c4dee6d4c8eeb3d675a060e0b678d1a217edfd34c25)
  const M23_6: Point := Point(0x70d99008ffcb5d61ae39921364a5a374810cd0e2157fe6f0bb5a8e8a83744eb5,
                          0x56b125243a0695932e329af9219f827103983b62141df7e8bc8ec54e726c32b9)
  const M23_7: Point := Point(0x7b50476b0a33709bf8dd3260cbf7f16c2d41e6051131ba9ca3f3abc449a3d1a4,
                          0x2448c3ec7026fd42509d9012a2f18623b4ddc9d21d8bdf5e57b12a1e8baa33cc)

  lemma Points23()
    requires Fermat()
    ensures IsMultiple(0x10000000000000000000000000000000000000000000000, G184)
    ensures IsMultiple(0x20000000000000000000000000000000000000000000000, G185)
    ensures IsMultiple(0x30000000000000000000000000000000000000000000000, M23_3)
    ensures IsMultiple(0x40000000000000000000000000000000000000000000000, G186)
    ensures IsMultiple(0x50000000000000000000000000000000000000000000000, M23_5)
    ensures IsMultiple(0x60000000000000000000000000000000000000000000000, M23_6)
    ensures IsMultiple(0x70000000000000000000000000000000000000000000000, M23_7)
    ensures IsMultiple(0x80000000000000000000000000000000000000000000000, G187)
  {
    hide Fermat, IsMultiple;
    Powers186();
    Powers192();
    Added(0x10000000000000000000000000000000000000000000000, G184, 0x20000000000000000000000000000000000000000000000, G185, M23_3,
          0x50b2973c0ee0915b8618457c8d285179f98192d04fa8226a0bb87e07f6d2546,
          0x217dbaa6fc259581b13a62782cafa277ce5f4e2f1866049ec46a81570d3bce6da94d56bba641f3a1e5ff46e0b16df122538c8f0b55218a6abee71d5984f8f395c8ca7d89db85ba6bf0fd3246c9430baef681cabe610d8d4d7d7aae50ab92ddb18418accb61293ff0b3326299f617630c03941ccdc66682d885f33259db1d98,
          -0x28d719042c0b22622ea32e311b59d27bd2908803e21ab55a674bc080ed6c6b37,
          -0x2042f55725dee0dc16df419aa806c983089b904863961d98dcc1be046132a2d9);
    Added(0x10000000000000000000000000000000000000000000000, G184, 0x40000000000000000000000000000000000000000000000, G186, M23_5,
          0x3b686c64100e0f6c37475804532319ddd3fd56f6a5587b33b1003cba53097066,
          0xba8c8522f4566ced037ea7a956b04374fc45e902176f2f5698f9d2fe5762ebe4b518ff10a1cf229cdb856aba54a054281744b9cc18fdbe254d41c36e3f10e5b147838a072fe2da0107aaa2f9f7a0701038d7d9fcc98713e1eac9ae832a1899f1c73a9694db24f09fd9c61b1ea704a51d5633736a6746ebfdff143f3b49ded,
          0x75911435c0f419044ac9f486686fcff52fa075053a0886bcd00404bc2e036d1,
          -0x57e2c21eb52417de434f98cd491c7cb451e1add97e44da6209998d352d19d5df);
    Added(0x20000000000000000000000000000000000000000000000, G185, 0x40000000000000000000000000000000000000000000000, G186, M23_6,
          0x2b1406f53fb04b3c4e8d79eca1ac8491bac29dc699980850d9c71bd9c0b2ef3e,
          0x34a5fe4e72234b0678908736e8a3aa201c295551ace8ff58c98b8eb72af2f1a04cc94aa913d4f98db63f066809da41fe53fdb987e27d2996239ce63d0d54198f0faca71a9a49d846e265c27c89af38aebec486d01b7d2e9f00260ea1df7cacc45f9c262e979eefc82d566783369c24435e2a5816eda7d120ad741dad2062b8,
          -0xf20a9494997656dc3e55d79ef92096481057df40b11ab363e7acfc380ba6fac,
          -0x4308ccf091d7c05dd02e14f4dc38537fae1c4b22a8938c2a67ec5be2d71c3e32);
    Added(0x30000000000000000000000000000000000000000000000, M23_3, 0x40000000000000000000000000000000000000000000000, G186, M23_7,
          0x2a56a4f26c6342033393f6dd8b416466339ec3a4496e5aa2eaae28ca626cb70d,
          0x2cfdc3dec9e0f3a1bebac0cd1cb06540f10e8686d6001294395d25414fead65076edb2295312e0b335ced54721ac4be9966036a3433099a6a5c2ed68cc13448422fd99b869bebbfe013fea00d9c0b8bddb9c88c2b5e6b344b3c8d4e5098b1fac862dc39834a85e2b35f762c84e2f86f87239f525cbd29b1f838385eff21e9b,
          -0x17bf57e81b2f4e481a6abf276574cab5e7db473f80da49a2c74d660ff686f4f4,
          -0x2d8e9317d64f3ce372a9741fd4e886622344d7c244d8c5b7af06eb487176ebe4);
  }

  const ROWS23: seq<seq<byte>> := [
    Row(0x2cdfdfecd5d0500623a0153fe9a4f2b17772ca7b742c0843b9e499def6267ff6,
        0x4a25707a203b923151e2d8023dd73dc329cd9bc3063625a0dd499cd61ff38640,
        0x5721896d248e49fc4000144c3ae20161304242581dd170a12ab7668a53f6ed6a),
    Row(0x578edd74f63c13da5509bce9320646259022629f2bb963b40b6e5517fd181bae,
        0x3c935afc4b030fd63e5177ce19393b34baa6fa7b5fe3e08285d5091a1d0da4e,
        0x3ec2ab590288c7a2dcd29b84dd623a3c47ccc2c4dfe205fc997276c6492b0c3d),
    Row(0x2dd5c25a200fcace99a0ddd073cb9b83a98b4deb61391aeda1a0d27be4d87bb9,
        0xe1bf66c6adbac5e0baea4c6e81eab290f2b87df40f5c2d5a7213a09ae32d1cb,
        0x730548b35ae88f5fbfba69cdbaae5f1e1a020018cb926d5de2abd5e9792c887e),
    Row(0x3043443b411db8ca760f4f52ab8c385065a26f1db2115f16c43551a3cba8b8ee,
        0x585a2277d87845dd423f06cb0622702bbf3ef17709353f19805b094ba1d6e334,
        0x7656278950ef981fa78e6fa5373e41ff6698c4b5ec78257fa18a5f8233d48962),
    Row(0x3f4160a8c1b846a626bf109fab570e8f9bedd2fd0506b6f238c3cf59d51fc8c0,
        0x28bbf484b613f6164853e7fc31838a8e3a8cfbb707155fdce17073a3ea86cf9d,
        0x1e79cb358188f75d527e9ad213de6f33afead107f6dd11bef2612f5c6f136c7c),
    Row(0x65d7951b3a3b38317ff908e5bcf9defc828b6a7ffe9e10f8013436c3eef7e3f1,
        0x478ab52d39d1f2f4dc6c2d0c864525e584a50c44299dded977e953d8f5e08181,
        0x16d87a411a212214b82c6b40a6c1c96fe5dde1bc871ac80766a6a4d39252d159),
    Row(0x28f87c8165f38ca657c05db1d6f994b7879be3cd0c5a24c1b3bd7e5a42066215,
        0x1f990b577a5a6dde497ac2736ee9778fe21fafd72ebd99fafba4d5e2d54e0583,
        0x45882fe1534d6d3e77c6569e520de0527d1e50ebacea798fa3344ead1be8f7d6),
    Row(0x688fe5b8f626f6dd7ddd1857985e128f62b6ed1117aa11a66669345d757983d6,
        0x7dcf843ce405f0742699db13bec89af3b5f9f161a38392a2d8ac9929943c6fe4,
        0x6739687e7327191bb3be28c3915dc6e1d52143fdca5632996c90d6484a4732c0)
  ]

  lemma Rows23_1()
    requires Fermat()
    ensures |ROWS23| == 8
    ensures IsRow(ROWS23[0], Mult(0x10000000000000000000000000000000000000000000000, BASE), Factor(23))
    ensures IsRow(ROWS23[1], Mult(0x20000000000000000000000000000000000000000000000, BASE), Factor(23))
    ensures IsRow(ROWS23[2], Mult(0x30000000000000000000000000000000000000000000000, BASE), Factor(23))
    ensures IsRow(ROWS23[3], Mult(0x40000000000000000000000000000000000000000000000, BASE), Factor(23))
  {
    hide Fermat, IsMultiple, IsRow, Row, Mult;
    Points23();
    RowIs(0x10000000000000000000000000000000000000000000000, G184, Factor(23),
          0x2cdfdfecd5d0500623a0153fe9a4f2b17772ca7b742c0843b9e499def6267ff6,
          0x4a25707a203b923151e2d8023dd73dc329cd9bc3063625a0dd499cd61ff38640,
          0x5721896d248e49fc4000144c3ae20161304242581dd170a12ab7668a53f6ed6a,
          0x0, 0x0,
          -0x45c220d77985ab7dcbe6323f16e6b9c39938884ff2a4526e654e76ebf1ac044c0769644215fe097a63b2c27db816b6b3a62dd8c63b03e503375ae0da9ebadc0);
    RowIs(0x20000000000000000000000000000000000000000000000, G185, Factor(23),
          0x578edd74f63c13da5509bce9320646259022629f2bb963b40b6e5517fd181bae,
          0x3c935afc4b030fd63e5177ce19393b34baa6fa7b5fe3e08285d5091a1d0da4e,
          0x3ec2ab590288c7a2dcd29b84dd623a3c47ccc2c4dfe205fc997276c6492b0c3d,
          0x1, -0x1,
          -0x13aff9f684e5de66d4b4e1a0ed7cd4dd1faac262ea92d230efb1d0e7e8fbbe65742dcf7ddeb1d372f3febc7c5590e490eb22806cc6b369c3a4aa9b7dcdf90523);
    RowIs(0x30000000000000000000000000000000000000000000000, M23_3, Factor(23),
          0x2dd5c25a200fcace99a0ddd073cb9b83a98b4deb61391aeda1a0d27be4d87bb9,
          0xe1bf66c6adbac5e0baea4c6e81eab290f2b87df40f5c2d5a7213a09ae32d1cb,
          0x730548b35ae88f5fbfba69cdbaae5f1e1a020018cb926d5de2abd5e9792c887e,
          0x1, -0x1,
          -0x10d2f765ad6a274d7a4dcf0863c185df5d59b2e0f5093992b9c352ffb26f94b6a429f00166c68b132cf8c2631090f0ab630c592e5b624b9b3414dff605635bf2);
    RowIs(0x40000000000000000000000000000000000000000000000, G186, Factor(23),
          0x3043443b411db8ca760f4f52ab8c385065a26f1db2115f16c43551a3cba8b8ee,
          0x585a2277d87845dd423f06cb0622702bbf3ef17709353f19805b094ba1d6e334,
          0x7656278950ef981fa78e6fa5373e41ff6698c4b5ec78257fa18a5f8233d48962,
          0x0, 0x0,
          -0x6da92aecc8d7777f11fc46c87c4d56335347929c2d424d1cfdd8df56d4909a6fee3affa0b79bc2968c918626806c1d215328de79137bfe41e3e829f2db5c590);
  }

  lemma Rows23_5()
    requires Fermat()
    ensures |ROWS23| == 8
    ensures IsRow(ROWS23[4], Mult(0x50000000000000000000000000000000000000000000000, BASE), Factor(23))
    ensures IsRow(ROWS23[5], Mult(0x60000000000000000000000000000000000000000000000, BASE), Factor(23))
    ensures IsRow(ROWS23[6], Mult(0x70000000000000000000000000000000000000000000000, BASE), Factor(23))
    ensures IsRow(ROWS23[7], Mult(0x80000000000000000000000000000000000000000000000, BASE), Factor(23))
  {
    hide Fermat, IsMultiple, IsRow, Row, Mult;
    Points23();
    RowIs(0x50000000000000000000000000000000000000000000000, M23_5, Factor(23),
          0x3f4160a8c1b846a626bf109fab570e8f9bedd2fd0506b6f238c3cf59d51fc8c0,
          0x28bbf484b613f6164853e7fc31838a8e3a8cfbb707155fdce17073a3ea86cf9d,
          0x1e79cb358188f75d527e9ad213de6f33afead107f6dd11bef2612f5c6f136c7c,
          0x0, -0x1,
          -0x1e9f525bfd0f722da8af6ce7152292021904034d76627eed9401e2668ff06bbd6c14b174d386125824bc732139bd9725fce87c6c94e4e5c1a1b775bcd69ebe82);
    RowIs(0x60000000000000000000000000000000000000000000000, M23_6, Factor(23),
          0x65d7951b3a3b38317ff908e5bcf9defc828b6a7ffe9e10f8013436c3eef7e3f1,
          0x478ab52d39d1f2f4dc6c2d0c864525e584a50c44299dded977e953d8f5e08181,
          0x16d87a411a212214b82c6b40a6c1c96fe5dde1bc871ac80766a6a4d39252d159,
          0x1, -0x1,
          -0x30f8bd85b172ec77563c9a467f7e0edc2e06a9f7401b934c4e492082267d96a3bcba43b6bfa5849222067ca536e52b11aba466518d7d317034e6e59e646775e9);
    RowIs(0x70000000000000000000000000000000000000000000000, M23_7, Factor(23),
          0x28f87c8165f38ca657c05db1d6f994b7879be3cd0c5a24c1b3bd7e5a42066215,
          0x1f990b577a5a6dde497ac2736ee9778fe21fafd72ebd99fafba4d5e2d54e0583,
          0x45882fe1534d6d3e77c6569e520de0527d1e50ebacea798fa3344ead1be8f7d6,
          0x1, -0x1,
          -0x1665aef2847b4e732fb3d9dcbd371a655224eefbe0241c5a5512cc66d89350e95bc3b2ce31804359260834161076672c631a6ada55b7a8e6ac825853be5be832);
    RowIs(0x80000000000000000000000000000000000000000000000, G187, Factor(23),
          0x688fe5b8f626f6dd7ddd1857985e128f62b6ed1117aa11a66669345d757983d6,
          0x7dcf843ce405f0742699db13bec89af3b5f9f161a38392a2d8ac9929943c6fe4,
          0x6739687e7327191bb3be28c3915dc6e1d52143fdca5632996c90d6484a4732c0,
          0x0, 0x0,
          -0x62035d95a00f1734d87e96da996c557882750d8a874a1af0e2436faa8bb51ac32f9193a2ce014bc39ffd8f3fdea6eb907767c40f394ab145fd93eafd197d60a);
  }

  lemma Power23()
    ensures Pow(256, 23) == 0x10000000000000000000000000000000000000000000000
  {
    Power22();
    assert Pow(256, 23) == 256 * Pow(256, 22);
  }

  const TABLE23: seq<seq<byte>> := TABLE22 + ROWS23

  lemma Table23()
    requires Fermat()
    ensures AreRows(TABLE23, 24)
  {
    hide Fermat, IsRow, Row, Mult, Pow, Factor, IsBlock, AreRows, ROWS23, TABLE22;
    Rows23_1();
    Rows23_5();
    Power23();
    Together(ROWS23, 23, 0x10000000000000000000000000000000000000000000000);
    Table22();
    MoreRows(TABLE22, 23, ROWS23);
  }

  const M24_3: Point := Point(0x7665908aaf4445ef643c3ac9c27ffcb40cb0ef0eb7dd6eee7ebd89041b29662f,
                          0x4ed18a7c50da4546ce17f8064f02b40965221938b8afa4137083a00e4b704ca1)
  const M24_5: Point := Point(0x1c71ce37638e6d6a80c8b5a8bf5649860ba162d2ba6e7d20919cd5451113735e,
                          0x7880cc1c2003b2cd243dbad79aa0cfb7d40d183f447a972ce3e8fee129e406cb)
  const M24_6: Point := Point(0x3c607a84c1df2f7d897a82f895c2cfe5120e79446c852cb1931b9e7f74cbc8d6,
                          0x34518ad109941a3a2384bab489dbee184987e0a1731a060cea779a86ba3cea68)
  const M24_7: Point := Point(0x89b6cd02000bc663ff938dd616ef7f13a17fc66a638e39c310af417ffbe2da0,
                          0x66ef7206aa36dfd8b438defd11ca657e43cbe4a7cdbb12a3e78816f13e8ceb88)

  lemma Points24()
    requires Fermat()
    ensures IsMultiple(0x1000000000000000000000000000000000000000000000000, G192)
    ensures IsMultiple(0x2000000000000000000000000000000000000000000000000, G193)
    ensures IsMultiple(0x3000000000000000000000000000000000000000000000000, M24_3)
    ensures IsMultiple(0x4000000000000000000000000000000000000000000000000, G194)
    ensures IsMultiple(0x5000000000000000000000000000000000000000000000000, M24_5)
    ensures IsMultiple(0x6000000000000000000000000000000000000000000000000, M24_6)
    ensures IsMultiple(0x7000000000000000000000000000000000000000000000000, M24_7)
    ensures IsMultiple(0x8000000000000000000000000000000000000000000000000, G195)
  {
    hide Fermat, IsMultiple;
    Powers192();
    Powers198();
    Added(0x1000000000000000000000000000000000000000000000000, G192, 0x2000000000000000000000000000000000000000000000000, G193, M24_3,
          0x4891f01472f5d663d987ebccdad6b7c26aac07132df5518f96c69e334ce9e247,
          0xaf31c3329c069a6e71fb185e1aae3324ab8ba16f934ddefecf47a0c6b3a23ec77e5c47aaf8951794f6d5b62e8c060ab78bbe8308a651cb5ec4a6555e6ec938e05b04f9342785a3d7e60a3ec71582a22b56d6e43126946e72c1366b73506faaa83dd2a46e6502498c5f606b115e5d67e19715ec8ebcdaf1b6539f32e550901,
          0x30b4045c3da127edad39ffc8cffa7361fa56f7459d88228fe33bd3c599d655e7,
          -0x5ce5057e5372e50f7f11962865aa3d7561f94b3bd12f0c5702ea4d6445b485ed);
    Added(0x1000000000000000000000000000000000000000000000000, G192, 0x4000000000000000000000000000000000000000000000000, G194, M24_5,
          0x789c8de93d352d8b1b30816b9a21069ffa4794d6bc9a7e58972d4dd2f18d071,
          0xfa4bcb3bbf4372de310db760ada01da069e6ba3237f00f645bf63c3398f8fe824149dbcb4000b71a6807d3e0e78ee61940cacecc86a4d4203f89232425a9f612e8a8f812dcac7b8df474e75b1fbad2be5ba6054cbc8272f965ef583408248f52d6d58789ac02141f80d5ee355c5d4bbf3260cc9ea094c2edec0e1dae16e85,
          -0x12b9b6695af6ab14cfc8745f9547b661239498d83fdbd44812401089d1252983,
          -0x361a8f0c5a33ea2798c56036921f7f7c44db0587ccf652dc511184fbe6412b81);
    Added(0x2000000000000000000000000000000000000000000000000, G193, 0x4000000000000000000000000000000000000000000000000, G194, M24_6,
          0x4069d741fe438588ec4a4628500f21849c55ad9385e1a8139fa8a754e96fb13,
          0x25f086c3fecbcb738ce477ab813fa2814b37b5401981bb150da356a45174d9a726c5b85c369cc45e2a8cc1bd81d362a1d12b1146ff3d94bd2751fe56dd90ed6c3920b3b4886e0c5e4085aaf240224dda0feb591661022ff246bdca82ee27da0909fbb514c10eef6c215759489a4e369f633acdf03d8f2bd0da0d330406199,
          -0x5fbc301241cb46d9dff0c7c76d37508307659e90c14f058eed2ba19c7b8659f,
          -0x1e3098990a8841b6362cedc0c3437ea42252aab5dd30fa40f988c1b1be6ccb82);
    Added(0x3000000000000000000000000000000000000000000000000, M24_3, 0x4000000000000000000000000000000000000000000000000, G194, M24_7,
          0x6aa9bb36ffbc5770ee5f3b62a5c6102f0f8c349e053f5959b1fbb15eb31cdf67,
          0x35b499422da75663d718bec520ca8a96ec21f3c65b7aa8bf9981fd0b3e36f85e2cb8e8386f5695cd5f852560088a5fe55b911178ef79534751aec6811c62d923e6d119704c295775c8581611f49f5d1da5b78f7361d2e3e03ac830eb425e2e189a412bf3c04f7c416427f0f66ca7a28a9c35ca7b96ecfeb1882f19fed843c7,
          -0x35406600ac64f6dd99fd9e72c0172c7cd7e8f2e3d7a2702b8a22ae364af05975,
          -0x832bef7907268a1873a2878917ce4f2a70af61d29e20191a5bcf22a6dc063a4b);
  }

  const ROWS24: seq<seq<byte>> := [
    Row(0x46115aba1d4dc0b34cd1eb505cdfa8cba2649f30aafda9e8ef782014385675a6,
        0x7da0b8f68d7e7daba7ebf3be95dbd7c697a05cf41b38a436a66dcc9dc80c1ac0,
        0x5a5f887e83674b4b03cc6021feb259601dac6f7321119e9bd40f1953c3b5da76),
    Row(0x3669b656e44d1434f70297d4a4bca47ecfceb815350dd0c48f6301cf70a13d11,
        0x43e37ae2d5d1c70c9b5302897c2dec32b5c3cb00e6c320649e9628d3a0a643b9,
        0x6a21e6cd4fd5e9bebd5ad8f83626381167301d5199a13ac0387e3f06eda6e133),
    Row(0x586bf9f1a195ff5769dbbd3c8c82b75558712a2a00d23524f1c6170a3046e65f,
        0x45371b07001e8b36325432d01182b0bd71d30847708d1301ef4129126699b2e3,
        0xeafb03790e52179ac0349d261a16eb85278f0dc610937e5a6db088d5ef8790b),
    Row(0x309acc675a02c6611c81f73873486d0c219a41e6820baa11960555c13748042f,
        0x44ae3344c5435bb32cebdf1eea92396dec02fbe32662cc305140805e0f75ae1d,
        0x62d5221b7f94678f1d82e5c64f9360aaf3760e9d5ac971429cf289b9bba543ee),
    Row(0x5c0efde4bc754562a375052edb4a8631c86bb56c8a0c1a0c524c299c18d0936d,
        0x14f29a5383922037a506708059f7193ddfae7b11fee9144d7585d4263af77a3c,
        0x5e72365c7bee093eda9234b7c3ed4c6221f970db99b53040df717edc25b2d7f5),
    Row(0x77f1104c47b4eabc9a0a37bbf4191e333779675d0694d95b575bfc074571217f,
        0x70b20555cb7349b7acff3dad1f9ebdfd5b9659e5df9f32be7d9339062f08b33e,
        0xe34398f4a06404a446677855e503b476688423a9a881fcdbe5113c555112c4c),
    Row(0x5e5405368a362372743fa61fb05b6d8d09b3e84127822f07b67d22d93ecebde8,
        0x6f8aded6ca379c3ef43217da73395d6f7de3e10e73f3f64018930b093e4b1928,
        0x780de72ec8d3de97f9967d02fde6949e487b97e1a21ab291e340123dfdb7b29a),
    Row(0xeb28bf671928ce438ac15510a4811b8388ddecf1c7f4d060ae28545089ae7bc,
        0x1defc6ad32b587a629a17fd7973732928f72eb2a2a8c41aa671feaf300f42772,
        0x467d201bf8dd28672991f7fb7ae5da2e148c1277917b15edaf5bbe1aef5195a7)
  ]

  lemma Rows24_1()
    requires Fermat()
    ensures |ROWS24| == 8
    ensures IsRow(ROWS24[0], Mult(0x1000000000000000000000000000000000000000000000000, BASE), Factor(24))
    ensures IsRow(ROWS24[1], Mult(0x2000000000000000000000000000000000000000000000000, BASE), Factor(24))
    ensures IsRow(ROWS24[2], Mult(0x3000000000000000000000000000000000000000000000000, BASE), Factor(24))
    ensures IsRow(ROWS24[3], Mult(0x4000000000000000000000000000000000000000000000000, BASE), Factor(24))
  {
    hide Fermat, IsMultiple, IsRow, Row, Mult;
    Points24();
    RowIs(0x1000000000000000000000000000000000000000000000000, G192, Factor(24),
          0x46115aba1d4dc0b34cd1eb505cdfa8cba2649f30aafda9e8ef782014385675a6,
          0x7da0b8f68d7e7daba7ebf3be95dbd7c697a05cf41b38a436a66dcc9dc80c1ac0,
          0x5a5f887e83674b4b03cc6021feb259601dac6f7321119e9bd40f1953c3b5da76,
          0x0, 0x0,
          -0xd9b478dc69fc87c6ab71f9235ec2dea42681829b20da75dfa1510103ef657f3c2cc81dba3ef28958759c209901a07e0079b5f80271c49cc61748ef19a2487a4);
    RowIs(0x2000000000000000000000000000000000000000000000000, G193, Factor(24),
          0x3669b656e44d1434f70297d4a4bca47ecfceb815350dd0c48f6301cf70a13d11,
          0x43e37ae2d5d1c70c9b5302897c2dec32b5c3cb00e6c320649e9628d3a0a643b9,
          0x6a21e6cd4fd5e9bebd5ad8f83626381167301d5199a13ac0387e3f06eda6e133,
          0x0, 0x0,
          -0x20ffdb3ffc0d479b2a2e38e826d4701a3aa22fb93dc3ffce0e63b9f9345566610e42b5c3945ddc5cd7abf4858dfb1196ef4f675a355dbd7781b3b4df99cd899);
    RowIs(0x3000000000000000000000000000000000000000000000000, M24_3, Factor(24),
          0x586bf9f1a195ff5769dbbd3c8c82b75558712a2a00d23524f1c6170a3046e65f,
          0x45371b07001e8b36325432d01182b0bd71d30847708d1301ef4129126699b2e3,
          0xeafb03790e52179ac0349d261a16eb85278f0dc610937e5a6db088d5ef8790b,
          0x1, -0x1,
          -0x2eb664135aab609e2e6788223ad857180a86b6bccce089e12653871bd8ee9af6d7d7ca39c38876d5caa7180c6d22865f8ef2672cb9a7a41fe63ca9ec285bfb6b);
    RowIs(0x4000000000000000000000000000000000000000000000000, G194, Factor(24),
          0x309acc675a02c6611c81f73873486d0c219a41e6820baa11960555c13748042f,
          0x44ae3344c5435bb32cebdf1eea92396dec02fbe32662cc305140805e0f75ae1d,
          0x62d5221b7f94678f1d82e5c64f9360aaf3760e9d5ac971429cf289b9bba543ee,
          0x0, 0x0,
          -0x2f2540a42fd3fa28b1bf73fc1c0931db79ab1abdeadd589b8f7748de17dc8ed79e22bd8031fe414705948ff5c1b3a3f1ce5e541b5237eef781c61ead7cc1306);
  }

  lemma Rows24_5()
    requires Fermat()
    ensures |ROWS24| == 8
    ensures IsRow(ROWS24[4], Mult(0x5000000000000000000000000000000000000000000000000, BASE), Factor(24))
    ensures IsRow(ROWS24[5], Mult(0x6000000000000000000000000000000000000000000000000, BASE), Factor(24))
    ensures IsRow(ROWS24[6], Mult(0x7000000000000000000000000000000000000000000000000, BASE), Factor(24))
    ensures IsRow(ROWS24[7], Mult(0x8000000000000000000000000000000000000000000000000, BASE), Factor(24))
  {
    hide Fermat, IsMultiple, IsRow, Row, Mult;
    Points24();
    RowIs(0x5000000000000000000000000000000000000000000000000, M24_5, Factor(24),
          0x5c0efde4bc754562a375052edb4a8631c86bb56c8a0c1a0c524c299c18d0936d,
          0x14f29a5383922037a506708059f7193ddfae7b11fee9144d7585d4263af77a3c,
          0x5e72365c7bee093eda9234b7c3ed4c6221f970db99b53040df717edc25b2d7f5,
          0x0, -0x1,
          -0x112867067500b16971edee1326020d342140abdcb5c6e18509d1f554b4d01e95911b4a3324b99ef55b640c90373152851e5fab187f537667275fdc80b7541a03);
    RowIs(0x6000000000000000000000000000000000000000000000000, M24_6, Factor(24),
          0x77f1104c47b4eabc9a0a37bbf4191e333779675d0694d95b575bfc074571217f,
          0x70b20555cb7349b7acff3dad1f9ebdfd5b9659e5df9f32be7d9339062f08b33e,
          0xe34398f4a06404a446677855e503b476688423a9a881fcdbe5113c555112c4c,
          0x1, 0x0,
          -0xfcfe8e468809f378d03fa85c1b5264fbf3520311ef520e116e966126d8238d502ae2be43e1f801fa2957feb8a1c17075e44bf5c1b4bb555e44dc46b740b0424);
    RowIs(0x7000000000000000000000000000000000000000000000000, M24_7, Factor(24),
          0x5e5405368a362372743fa61fb05b6d8d09b3e84127822f07b67d22d93ecebde8,
          0x6f8aded6ca379c3ef43217da73395d6f7de3e10e73f3f64018930b093e4b1928,
          0x780de72ec8d3de97f9967d02fde6949e487b97e1a21ab291e340123dfdb7b29a,
          0x0, 0x0,
          -0x46f581bba258c1e728b05fc651777ecbf47a81accb7299a237748d75627c3f0e0eac43f60d07dbc59e68f02c72f88f137b16f785b812ab39119f58ca156403e);
    RowIs(0x8000000000000000000000000000000000000000000000000, G195, Factor(24),
          0xeb28bf671928ce438ac15510a4811b8388ddecf1c7f4d060ae28545089ae7bc,
          0x1defc6ad32b587a629a17fd7973732928f72eb2a2a8c41aa671feaf300f42772,
          0x467d201bf8dd28672991f7fb7ae5da2e148c1277917b15edaf5bbe1aef5195a7,
          0x0, 0x0,
          -0xd9e86619a38c60c43127e2986fed60d93995c0c8af4868867c9fffc349a3fadc2967f2af9f8f6f1d75abdf44dd10361776016f4e66baefc9465a2afb20b963);
  }

  lemma Power24()
    ensures Pow(256, 24) == 0x1000000000000000000000000000000000000000000000000
  {
    Power23();
    assert Pow(256, 24) == 256 * Pow(256, 23);
  }

  const TABLE24: seq<seq<byte>> := TABLE23 + ROWS24

  lemma Table24()
    requires Fermat()
    ensures AreRows(TABLE24, 25)
  {
    hide Fermat, IsRow, Row, Mult, Pow, Factor, IsBlock, AreRows, ROWS24, TABLE23;
    Rows24_1();
    Rows24_5();
    Power24();
    Together(ROWS24, 24, 0x1000000000000000000000000000000000000000000000000);
    Table23();
    MoreRows(TABLE23, 24, ROWS24);
  }

  const M25_3: Point := Point(0xe2606a00097a415aae791b2311244cf33136b90a93aa9fd236c1f5395c68f4b,
                          0x2dda446c4a628f1cb38fad43d13b649b6b2b9d883b97a9890ad150dbc87749c3)
  const M25_5: Point := Point(0x6a73b1e2a603e5fde97eb6040168ec42f0699cc8829997f59ced5142c59d25f5,
                          0x6ea5ccc1efdb4511057187354b075eb5fd814ebebc00f19b915c3f6ebcfaffcd)
  const M25_6: Point := Point(0x728a71912cf9ff30cec3335c38712a0186dc63f7f7167ea22645224fa7c36d4e,
                          0x4ce95d59305cda0f62dd69c1a39357c7d2ff5e9ac64584f38fc923d52809448c)
  const M25_7: Point := Point(0x5ca076f131f17330b476512bd0c5b4db4d34765a46b672dc794544cb218af30c,
                          0x314d831f8052d08837917b9ee34cea2d110db638bd1859d0d33c4971a4ebf223)

  lemma Points25()
    requires Fermat()
    ensures IsMultiple(0x100000000000000000000000000000000000000000000000000, G200)
    ensures IsMultiple(0x200000000000000000000000000000000000000000000000000, G201)
    ensures IsMultiple(0x300000000000000000000000000000000000000000000000000, M25_3)
    ensures IsMultiple(0x400000000000000000000000000000000000000000000000000, G202)
    ensures IsMultiple(0x500000000000000000000000000000000000000000000000000, M25_5)
    ensures IsMultiple(0x600000000000000000000000000000000000000000000000000, M25_6)
    ensures IsMultiple(0x700000000000000000000000000000000000000000000000000, M25_7)
    ensures IsMultiple(0x800000000000000000000000000000000000000000000000000, G203)
  {
    hide Fermat, IsMultiple;
    Powers204();
    Added(0x100000000000000000000000000000000000000000000000000, G200, 0x200000000000000000000000000000000000000000000000000, G201, M25_3,
          0x4944b7f2ed2cc7f7cd47df08baf9f76af640d21e17228cc88e04ab1d5d8b4779,
          0x13d5fada84d9aa2dc0ea0fa86c22b567e13f91e6616ee81bceaba6d6f5cc8d8a4bc099c8abd2b66d3f50964bc8f7a1acd92b8cf4149eef4119bcff143bf320b03c24c9e24ed35def0c01d393eb822a99091380054e681f74e276e41972738e3f517b38a96cdc914f5f58d6a9e7c26a390b20cd069cc10c9c49c16281a8e6d61,
          -0x5913336e25f37cd4dadae7ecf500d50751cb89de2cdf3050f6f605ff2a96de41,
          -0x7655c9cfb2882622bace22ff3a42611cf634988450cd188e6b35a6a90618f6ff);
    Added(0x100000000000000000000000000000000000000000000000000, G200, 0x400000000000000000000000000000000000000000000000000, G202, M25_5,
          0x6d7d3113e7dd7f0804ee853f9033a48f127b4255145c896602a144d76fbed95d,
          0xdc9f098dcc60fa5f9e45a27e3647c36ae059a3b9e5c49af308c3c6f561652ef0d70be0487a800e59a7808bf493c4645aed5c8a266fac5cab92f0b262c392188d3e286360b30e42bff0b83b94c04f3e9e02b563053c69aee69bcb9de1afb393dfdbf4a87e07a34599b3f98ec038457d93fd92499d451c61b8a7661a49199f19,
          0xe5e5644fdff077641968070b1f6fe667f2ea639b19f739df86a23c56c80a159,
          -0xaf83cb5598d5d1bff92183482f062d3daba50ac26410b8189687033b93309fd1);
    Added(0x200000000000000000000000000000000000000000000000000, G201, 0x400000000000000000000000000000000000000000000000000, G202, M25_6,
          0x596ebc28a21d80ca588b047bc473f9850de2d4d340b377c90c1d02574856aab9,
          0x7be126444b3e5d3ee241b4ff91b0f5244c45c440ed9b8a734f9f279b67b9fbdde67747ecffd3b3453d05f3930961a5779360c125a3c4dbd614c5cce2a30d1925d0924c873f4d3d763397590d4bda91d7f0b38c4415fdad1ad40c9fc167260fe8295628a4e7b5614d2693f96d68faf68ce3f1b996e855194e9631f416d2ec57,
          0xafabcac4f2201e50aa0457643495106bceb73623d1e1df5114c34bdf4d0b4d4,
          -0x6d5b63a88834a5b7a01c95128349fdff72b43fca8b20767d5c91af436c4c0df7);
    Added(0x300000000000000000000000000000000000000000000000000, M25_3, 0x400000000000000000000000000000000000000000000000000, G202, M25_7,
          0x118638e0d910de113c58cf6af88e4b5255298e29c73ed76b2dc66aac00812af8,
          0x12d2eebf6c0c6b02cd5a7cc0589040db5ac108c76bdb8d92ac00812fa58c1749acf98ccccf138c52c8d42dc3daeb5f26d12c2cdb7192cfa2f3fb20aac102e2530e8358c05e2d58f697da4995a2a91d786d4bc43db25681f37c698c01564eb4b500a5d4e0dabb7dc4218a12dd0389a49040543e2ebc5ad747d8ce4c35ae0882,
          -0x12fcf0c7e2c91ec8324fe17aa8678dfdbba37fc3cb2d18df99d6bdde46fc47c9,
          -0x1d1bd58faf85258d76e9a04fe51dcfce0e020a07923d0486c5e2692fb5e926c6);
  }

  const ROWS25: seq<seq<byte>> := [
    Row(0x71c43c4f5ba3c797964e01d309a47b013a827becf6a308a295fe919a74ef4fad,
        0x2ef9c5a5ba384001e41064d22c1f4ec83f624cb2d64498bdbc1ef4bd567ae7a9,
        0x5a758ca390c5f2938255b3d0f1ef990ef18278bce4af267ab6fd6df6fa9e74cd),
    Row(0x2dbae244b3eb72ece3d400bfa0b487ca3aa8c6d2d57d5003a2b72710d9462495,
        0xa738027f639d43fd4e6a829afe8aad38ded36469a8130668ce0918b1d61dc94,
        0x2698ca635126a69c105c3f4a49fb15fd00670d0de1839843980f4a2f57ffe1cc),
    Row(0x1fb43dcc49caeb0708a81b91a0291fcc381831f7925cff8be765318832b0ba78,
        0x3c004b0c4afa33325e773ef6024da96a9e3f0918e4d253862e3d702f5e3dd90e,
        0x6b43fd01cd1fd2173ed3265fc6cd47871ca284a5a806c4f39aa946ac06f4b82b),
    Row(0x5a68d7105b52f7142868b9ebaa46785a15fdf848df0fffbfc7a75d4b4697c544,
        0x73420b2d6ff0d9f0bf1427c2072b923f75dc52b9ee0ab990b5c742583e760ef3,
        0x3db5632fea34bc9eda8ab89699fbf3738f593913c62238c4af2cf6cb9e851e06),
    Row(0x4321adf49d75f131bf2d131499e72730d17b1f6396759a5f46eee2bf75dd9d8,
        0x59197ea495df2b0eeef03d394c704af8edeaeb873e9a89912e4990b1829825d5,
        0x45eafdc1f4d70cc0c7ce2dc16f159aa4e77b437a7e2f92e904e16019e4e55aae),
    Row(0x5a5eebc80362dade941a36656b222dc64c22faa2cf2f0651698401858045d72b,
        0x3f73ceea5d56d94031a09d1ddc0481c959dbc292bd5c0395b60e4624cfccb1ed,
        0x26058891266218db60c1207f1557aefabe57007e44c9b339b7a7bfd10a4e8dc6),
    Row(0x54ad0c2e4e615d57831b2a7312873551c3d93fde7661e6f459f704a68360ff04,
        0xdedfa10b24443b8ec07cccab4129f085e422c9303ceccad4c818e3cc676e542,
        0x62ecb2baa77a9408a5b4d2f26ec19fd336f163469fa5c1ebee3b67d5b82b522a),
    Row(0x2e59f919a966d8be7482c8d0b96b4c714962357d0eddd7d1e5ed795261152b3d,
        0x61913d5075663f985aad01adc630a14a5fcd5e8579e104a592072836afb62874,
        0x3ddbc2a131c05d5c02d801513f9594cefa475832942002700dc62d361a3231da)
  ]

  lemma Rows25_1()
    requires Fermat()
    ensures |ROWS25| == 8
    ensures IsRow(ROWS25[0], Mult(0x100000000000000000000000000000000000000000000000000, BASE), Factor(25))
    ensures IsRow(ROWS25[1], Mult(0x200000000000000000000000000000000000000000000000000, BASE), Factor(25))
    ensures IsRow(ROWS25[2], Mult(0x300000000000000000000000000000000000000000000000000, BASE), Factor(25))
    ensures IsRow(ROWS25[3], Mult(0x400000000000000000000000000000000000000000000000000, BASE), Factor(25))
  {
    hide Fermat, IsMultiple, IsRow, Row, Mult;
    Points25();
    RowIs(0x100000000000000000000000000000000000000000000000000, G200, Factor(25),
          0x71c43c4f5ba3c797964e01d309a47b013a827becf6a308a295fe919a74ef4fad,
          0x2ef9c5a5ba384001e41064d22c1f4ec83f624cb2d64498bdbc1ef4bd567ae7a9,
          0x5a758ca390c5f2938255b3d0f1ef990ef18278bce4af267ab6fd6df6fa9e74cd,
          0x1, -0x1,
          -0x260f8a5270bfd6689a9ed6bcae0ebd3171d461bc2eb7c1ab3c3f1de33922da02682aac62adf5c945e057ba2687c17d182c535a3d5fce7b43418d284d5b403a4d);
    RowIs(0x200000000000000000000000000000000000000000000000000, G201, Factor(25),
          0x2dbae244b3eb72ece3d400bfa0b487ca3aa8c6d2d57d5003a2b72710d9462495,
          0xa738027f639d43fd4e6a829afe8aad38ded36469a8130668ce0918b1d61dc94,
          0x2698ca635126a69c105c3f4a49fb15fd00670d0de1839843980f4a2f57ffe1cc,
          0x0, -0x1,
          -0x155f06f8033f9f8566b9bd2d159f86be625ea74713158ac70325250d307ac01b5ddd77e300393f6e2b48e715b2bd188f785f80eb62e0d158b7add9abfd3a38a0);
    RowIs(0x300000000000000000000000000000000000000000000000000, M25_3, Factor(25),
          0x1fb43dcc49caeb0708a81b91a0291fcc381831f7925cff8be765318832b0ba78,
          0x3c004b0c4afa33325e773ef6024da96a9e3f0918e4d253862e3d702f5e3dd90e,
          0x6b43fd01cd1fd2173ed3265fc6cd47871ca284a5a806c4f39aa946ac06f4b82b,
          0x0, 0x0,
          -0x33f57dc98b3d09adcceee11cb03efec4c3eb5bf8a4dfd31fc05115720f82e1327e0168ed0e31443cfd2a2e12ee16abb35c9c3ad8f352a3be7b221f4d8ff6de7);
    RowIs(0x400000000000000000000000000000000000000000000000000, G202, Factor(25),
          0x5a68d7105b52f7142868b9ebaa46785a15fdf848df0fffbfc7a75d4b4697c544,
          0x73420b2d6ff0d9f0bf1427c2072b923f75dc52b9ee0ab990b5c742583e760ef3,
          0x3db5632fea34bc9eda8ab89699fbf3738f593913c62238c4af2cf6cb9e851e06,
          0x1, 0x0,
          -0xedb2a50cf31308653daf6560691fc28964b6e6423b3bd7f7b6c0f45af617fc5118a0f96bf9b5d8c676e711f6f2fbadb17c94d43771e98f2297944c08527ecd6);
  }

  lemma Rows25_5()
    requires Fermat()
    ensures |ROWS25| == 8
    ensures IsRow(ROWS25[4], Mult(0x500000000000000000000000000000000000000000000000000, BASE), Factor(25))
    ensures IsRow(ROWS25[5], Mult(0x600000000000000000000000000000000000000000000000000, BASE), Factor(25))
    ensures IsRow(ROWS25[6], Mult(0x700000000000000000000000000000000000000000000000000, BASE), Factor(25))
    ensures IsRow(ROWS25[7], Mult(0x800000000000000000000000000000000000000000000000000, BASE), Factor(25))
  {
    hide Fermat, IsMultiple, IsRow, Row, Mult;
    Points25();
    RowIs(0x500000000000000000000000000000000000000000000000000, M25_5, Factor(25),
          0x4321adf49d75f131bf2d131499e72730d17b1f6396759a5f46eee2bf75dd9d8,
          0x59197ea495df2b0eeef03d394c704af8edeaeb873e9a89912e4990b1829825d5,
          0x45eafdc1f4d70cc0c7ce2dc16f159aa4e77b437a7e2f92e904e16019e4e55aae,
          0x0, -0x1,
          -0x3af5dde01f151b63920f88264a228233ac6b605787aebcc823bcb031b8f5566b1003b59622b442715e3b08c6941c844d91d7011fbf1650b0da82a68bff599b98);
    RowIs(0x600000000000000000000000000000000000000000000000000, M25_6, Factor(25),
          0x5a5eebc80362dade941a36656b222dc64c22faa2cf2f0651698401858045d72b,
          0x3f73ceea5d56d94031a09d1ddc0481c959dbc292bd5c0395b60e4624cfccb1ed,
          0x26058891266218db60c1207f1557aefabe57007e44c9b339b7a7bfd10a4e8dc6,
          0x1, -0x1,
          -0x2c1907fc00a613da3a497c872c5af14e5214c1b474c3b0bb991e62b8ed3e9c97d29fb8f3bd1752392e0968d3859d155982188d52bec5294509e7e94db2c68392);
    RowIs(0x700000000000000000000000000000000000000000000000000, M25_7, Factor(25),
          0x54ad0c2e4e615d57831b2a7312873551c3d93fde7661e6f459f704a68360ff04,
          0xdedfa10b24443b8ec07cccab4129f085e422c9303ceccad4c818e3cc676e542,
          0x62ecb2baa77a9408a5b4d2f26ec19fd336f163469fa5c1ebee3b67d5b82b522a,
          0x1, -0x1,
          -0x16dc1d99850654b5a9ef6f23a5c8eb47a840d350a0bf2f715d5cc1af98436bcf45566823d1498f79b42e45dc3c176da6706949d74da465881d40aae0f2c133a6);
    RowIs(0x800000000000000000000000000000000000000000000000000, G203, Factor(25),
          0x2e59f919a966d8be7482c8d0b96b4c714962357d0eddd7d1e5ed795261152b3d,
          0x61913d5075663f985aad01adc630a14a5fcd5e8579e104a592072836afb62874,
          0x3ddbc2a131c05d5c02d801513f9594cefa475832942002700dc62d361a3231da,
          0x1, 0x0,
          -0x391f81c27d151451ccf5134a6fd6b02d23e6ae151606cf1fdb8c4094071104923f68db303793310fb6c4a73d4f14172f71afffa5001cac49441ed1c4e7c7ab6);
  }

  lemma Power25()
    ensures Pow(256, 25) == 0x100000000000000000000000000000000000000000000000000
  {
    Power24();
    assert Pow(256, 25) == 256 * Pow(256, 24);
  }

  const TABLE25: seq<seq<byte>> := TABLE24 + ROWS25

  lemma Table25()
    requires Fermat()
    ensures AreRows(TABLE25, 26)
  {
    hide Fermat, IsRow, Row, Mult, Pow, Factor, IsBlock, AreRows, ROWS25, TABLE24;
    Rows25_1();
    Rows25_5();
    Power25();
    Together(ROWS25, 25, 0x100000000000000000000000000000000000000000000000000);
    Table24();
    MoreRows(TABLE24, 25, ROWS25);
  }

  const M26_3: Point := Point(0x65a10ff6a067cb76b0b02af443c57243e6e78fa83379224172f3143712372646,
                          0x3607014f6a64ecbe1cbc8f1e297eecc6b94b13509c41e5d55ea669777c684d1b)
  const M26_5: Point := Point(0x579ac4b5218480a533397a94f4d3103725e654d0a8a53c31642748fe1a825c77,
                          0x62bfb93d6971cafcee57119862fc77423e0a1cb064fa2d095ae2b413d28a281d)
  const M26_6: Point := Point(0x61eee376f0dc885c9e95a047434c8072d23e2a4df019163a72119eaf801c2154,
                          0x1f2abf8d3ed6ec53f47428c9c745e01b8aaf781928f25cb833a97efbf8b38931)
  const M26_7: Point := Point(0x3d12191c75243c03d0861ac632e434b3e88c30e657b6ace19257114d8a25906c,
                          0x467965880e34c78bc99b4e3c57eb5e3cc07fb918632c5fdbc5c44e5e9acdfe83)

  lemma Points26()
    requires Fermat()
    ensures IsMultiple(0x10000000000000000000000000000000000000000000000000000, G208)
    ensures IsMultiple(0x20000000000000000000000000000000000000000000000000000, G209)
    ensures IsMultiple(0x30000000000000000000000000000000000000000000000000000, M26_3)
    ensures IsMultiple(0x40000000000000000000000000000000000000000000000000000, G210)
    ensures IsMultiple(0x50000000000000000000000000000000000000000000000000000, M26_5)
    ensures IsMultiple(0x60000000000000000000000000000000000000000000000000000, M26_6)
    ensures IsMultiple(0x70000000000000000000000000000000000000000000000000000, M26_7)
    ensures IsMultiple(0x80000000000000000000000000000000000000000000000000000, G211)
  {
    hide Fermat, IsMultiple;
    Powers210();
    Powers216();
    Added(0x10000000000000000000000000000000000000000000000000000, G208, 0x20000000000000000000000000000000000000000000000000000, G209, M26_3,
          0x3c38898f2b369e9e9ecf19f0a98e01f9f30811d805c22b5494ac9cedb5a62ce6,
          0x2bc78429c823af02c3ef5287ab5e6dbbd47c45de74e95f99b30d91db33d8e546632e2f6d091243dd213f258f40913a6bc277d16ad29ff27bb7b1d83e5c1b64de84acee3db29d9507a7fe9b1acab05ba353aca162df87ca758f929b64b9dfb89ae4bcbad762e9a592b746c02a078dd13a847673f1307ab24d3658bcae478436,
          0xe87c38422dcb120858f24b2cb990070e434e5cc99b0a2549a98b75a472742f7,
          -0x3bb5e5ca20cdf7d466468bf010bd60eed0c01a94596e1424bcb7f7dd13ec93e4);
    Added(0x10000000000000000000000000000000000000000000000000000, G208, 0x40000000000000000000000000000000000000000000000000000, G210, M26_5,
          0x500b2d45eaabc061406cd5b3d096372c2b94b02f0c064fce71fa4a4a2a2c798e,
          0x999a6eff3a3907a69756eb68f74a598ace15509ad615be7ee336c731fc5e797ab52282da0684d1690130ab51ae0a1f5a50ffff7f1f48832e45bd87342a0d3488c07d591f87acdf84faa37dd1c1c0b5d817441631590d58ddf18add90ac490f0987cb903b4e00608dba1bf6a8181d7606a9558b726a538bdb0746c4d684d6ce,
          -0xc771c75c5ab83b2b32ca6e20208b15dbf2f1fbc2c3ae3a55a4223d244becf58,
          -0x7db50c6e59673c6f46a9136889bf1e59ed32435bec65853570114835a82aaaf4);
    Added(0x20000000000000000000000000000000000000000000000000000, G209, 0x40000000000000000000000000000000000000000000000000000, G210, M26_6,
          0x30b57aeb72cf775b17c8ee3627b4de36a63093c83547879a0fbab42547ff994,
          0x8951b5ca3384580ad01187a0d1703984a2f76eb86aa50d48aea5880c1bb468012d39a5a371e1a34c593b31dedcd16cbf52ffd71c96f6ca6fe17bb63a6810cfa5bccc15357ed99bdebb1a9af0ca4d9b219c9ad474edeba556b5206b80bec9a40537b8dc937bc850591fe5dcb6a3b84bbd2384c5d5fffcc8fcd6760361fa540c,
          -0x4089486bfee99145b12935b356aac4576c18bc59dd1f944fae9e753748792e4d,
          -0x3bdf2e2703b716ca4f34d93e338143210bfe86335445c27452fd6d1044f07497);
    Added(0x30000000000000000000000000000000000000000000000000000, M26_3, 0x40000000000000000000000000000000000000000000000000000, G210, M26_7,
          0x3b7d1c57b9983d1fabfa62b0b99978ddac8c521a7e492d56af6c6ee569ac2dc7,
          0x178d7d640aab50e2c289b7ec916ab74f300cbcdeb6601755d1b52b16cf229e2f1b4f0e0527d0656a377942a00bc8110e65582d7143b211fd349932d21608eff6a557a2c7baf2e59d4457741ce387f9c8333c4a0eb64cbdef3ed30fe2994cbc6531e02d26fc77b113768924771917dc3817f5fff1a88e96e6c05fd79e49875b5,
          -0x59c8a67c2c3f34adcde9ca72f987082b2ad6aac39dd77e29dd3dc5ab562098e6,
          -0x81c64bf5ea738465ba8bed3802ebc0314b45e35f3fcffaa13dab55ab3e0279cb);
  }

  const ROWS26: seq<seq<byte>> := [
    Row(0x78968314ac04b36b028007c7f0f89515039c2a6b8c2f130d9adc0ff9ce5ec54b,
        0x5ee7fb38d83205f9e54be21831a0391c883abab79b07da21f3aa57a22796bb14,
        0x61d0633c9bca0d0946af908d263c8c78a5acfda9434937f9538dfdcb41446a8e),
    Row(0x6e965fd847aed7f56f1b3280553eec03c5bd6b89780b68bb63744935ffdb2566,
        0x5b23ac2df8067bdc637fb4db38c2a909ee84695da6f037fcada328bcf8fc73df,
        0x79b9bbb9dd95dedc0e711704150e82cfe88f19aafade6d8d9ad2b953ee80527b),
    Row(0x5065f158c9fd21476c0c6429e5b97a82d26383a868c8c393ebb355406a3126c2,
        0x1ba811460accb834cd6cba126d445f0aa032a2f8cfbb0816d1997dae8e9f7374,
        0x3981f39e58a4faf22eaab98a70e645bae14600acd76ecf67708169fb0c429954),
    Row(0x38dc083705acd0fd3a85a94514a93cb51d168f6960e6f45d18fb8a7559230a93,
        0x30f4452edcbc1b65e9d2e163c7b4f632e152a5002c40483ac845dfa56de66fde,
        0x632d9a1a593f24698844fc73c0ea4e71fa134569f99cbecc856d2782c5759740),
    Row(0xb24f48847ed4a57bb1d97036e29670b1823c7dfbc54f0d7f6bb6b15b807cba6,
        0x3a5a7df28af64ba221908c2d57cf877963f071810d9f693abf09fd11ed0c84a7,
        0x34fcf74475481f63e19cff9f005f9a65a4538075ed26ccf2dcdad4be511beac7),
    Row(0x3d3bdc164dfa63f755de888283f95fa8b8714dcb38d9467dc197e04c789767ca,
        0x119a3042fb374b09309c9110a92608e5ceda267190b72f2a5bb1dab78cfaa98,
        0x56c088f1ede20a73f56598e5b282a2b0669da5f66895d0c167a2d89ce8c2177d),
    Row(0x9674c6b99108b87f915337625072988d7f388320b75b2fa336d3d1110a86e17,
        0x38b7ea48359038f9a2169028acf92f0a90be9febae30cbd581b5fac24f38f02,
        0x6e5e31025969eb650971a5ab5aef31742f49d282eaa78d4f9f4ef82199316ff8),
    Row(0x8f5114789a8dba8b491c1e014cc3e6d4999eddeca5d3e71b16c62f587e593fb,
        0x3058ad43d1838620bd1924778c1061a3fb35068987acba3f3304fb0e63066222,
        0x26549fa4efe3dc99bdc78abdac994f9a05c3df38a22ea610323c0ffde57663d0)
  ]

  lemma Rows26_1()
    requires Fermat()
    ensures |ROWS26| == 8
    ensures IsRow(ROWS26[0], Mult(0x10000000000000000000000000000000000000000000000000000, BASE), Factor(26))
    ensures IsRow(ROWS26[1], Mult(0x20000000000000000000000000000000000000000000000000000, BASE), Factor(26))
    ensures IsRow(ROWS26[2], Mult(0x30000000000000000000000000000000000000000000000000000, BASE), Factor(26))
    ensures IsRow(ROWS26[3], Mult(0x40000000000000000000000000000000000000000000000000000, BASE), Factor(26))
  {
    hide Fermat, IsMultiple, IsRow, Row, Mult;
    Points26();
    RowIs(0x10000000000000000000000000000000000000000000000000000, G208, Factor(26),
          0x78968314ac04b36b028007c7f0f89515039c2a6b8c2f130d9adc0ff9ce5ec54b,
          0x5ee7fb38d83205f9e54be21831a0391c883abab79b07da21f3aa57a22796bb14,
          0x61d0633c9bca0d0946af908d263c8c78a5acfda9434937f9538dfdcb41446a8e,
          0x1, 0x0,
          -0xb33fbc777b0f3a8c91bfdb3c04c99b1c13696b6a51cc53932e0c476e77ed29f0e24bc484ca693f94a77234710e9f2d0041e4f61598f120a85802dc17f0a8054);
    RowIs(0x20000000000000000000000000000000000000000000000000000, G209, Factor(26),
          0x6e965fd847aed7f56f1b3280553eec03c5bd6b89780b68bb63744935ffdb2566,
          0x5b23ac2df8067bdc637fb4db38c2a909ee84695da6f037fcada328bcf8fc73df,
          0x79b9bbb9dd95dedc0e711704150e82cfe88f19aafade6d8d9ad2b953ee80527b,
          0x1, 0x0,
          -0xa03effe44e4740e67aab9d67c6a4301e26239d732f12be6ebdd12600f57b1006e25aa2ce5ad4363adc51e07ae2f332f4d083e8f77a4243fa9cb111006aabaf1);
    RowIs(0x30000000000000000000000000000000000000000000000000000, M26_3, Factor(26),
          0x5065f158c9fd21476c0c6429e5b97a82d26383a868c8c393ebb355406a3126c2,
          0x1ba811460accb834cd6cba126d445f0aa032a2f8cfbb0816d1997dae8e9f7374,
          0x3981f39e58a4faf22eaab98a70e645bae14600acd76ecf67708169fb0c429954,
          0x1, -0x1,
          -0x1b7c2d8a20e18c33b7baa8290b0d75442ebad217348f3bfa7f1d933cb67a278eced41fe9b7155a4a439f25d9b0960f46b5e4593c559387499ee166e9b164e458);
    RowIs(0x40000000000000000000000000000000000000000000000000000, G210, Factor(26),
          0x38dc083705acd0fd3a85a94514a93cb51d168f6960e6f45d18fb8a7559230a93,
          0x30f4452edcbc1b65e9d2e163c7b4f632e152a5002c40483ac845dfa56de66fde,
          0x632d9a1a593f24698844fc73c0ea4e71fa134569f99cbecc856d2782c5759740,
          0x0, -0x1,
          -0x2323c5a1f6c20569845204e7eebf4251b8dfdd5a0d39be6b5c892ff8dc629d39ce62c654d4bb0881dce50dfc42055e07acfbb95c6a707b38e2828094a83d90f8);
  }

  lemma Rows26_5()
    requires Fermat()
    ensures |ROWS26| == 8
    ensures IsRow(ROWS26[4], Mult(0x50000000000000000000000000000000000000000000000000000, BASE), Factor(26))
    ensures IsRow(ROWS26[5], Mult(0x60000000000000000000000000000000000000000000000000000, BASE), Factor(26))
    ensures IsRow(ROWS26[6], Mult(0x70000000000000000000000000000000000000000000000000000, BASE), Factor(26))
    ensures IsRow(ROWS26[7], Mult(0x80000000000000000000000000000000000000000000000000000, BASE), Factor(26))
  {
    hide Fermat, IsMultiple, IsRow, Row, Mult;
    Points26();
    RowIs(0x50000000000000000000000000000000000000000000000000000, M26_5, Factor(26),
          0xb24f48847ed4a57bb1d97036e29670b1823c7dfbc54f0d7f6bb6b15b807cba6,
          0x3a5a7df28af64ba221908c2d57cf877963f071810d9f693abf09fd11ed0c84a7,
          0x34fcf74475481f63e19cff9f005f9a65a4538075ed26ccf2dcdad4be511beac7,
          0x0, -0x1,
          -0x2b4db7d41c68decc90fa6f2266c4f78478a3bb81e7a6dd43169936a5a88248d5290c2827f50bdadf2f8fd2ef9aacf1dd9330b26942daf98418497ab8c9677de7);
    RowIs(0x60000000000000000000000000000000000000000000000000000, M26_6, Factor(26),
          0x3d3bdc164dfa63f755de888283f95fa8b8714dcb38d9467dc197e04c789767ca,
          0x119a3042fb374b09309c9110a92608e5ceda267190b72f2a5bb1dab78cfaa98,
          0x56c088f1ede20a73f56598e5b282a2b0669da5f66895d0c167a2d89ce8c2177d,
          0x1, -0x1,
          -0xf475fa394a3b49f3521b6a77144fc98ed64e45e374c87b694f2a603d8481e8bbc6478faaee2a94534e79a5fe0aa60f2e561d7252ff03b7e6974c883bcbbf287);
    RowIs(0x70000000000000000000000000000000000000000000000000000, M26_7, Factor(26),
          0x9674c6b99108b87f915337625072988d7f388320b75b2fa336d3d1110a86e17,
          0x38b7ea48359038f9a2169028acf92f0a90be9febae30cbd581b5fac24f38f02,
          0x6e5e31025969eb650971a5ab5aef31742f49d282eaa78d4f9f4ef82199316ff8,
          0x0, -0x1,
          -0x158b486ec2130d43533bcadf46336f2e933a6fb7fa604061f0d86b354e85164f7cd7622bf432dc7e8a00c11ceaa48a5c44da2873fb8950076edcc934e64a6f20);
    RowIs(0x80000000000000000000000000000000000000000000000000000, G211, Factor(26),
          0x8f5114789a8dba8b491c1e014cc3e6d4999eddeca5d3e71b16c62f587e593fb,
          0x3058ad43d1838620bd1924778c1061a3fb35068987acba3f3304fb0e63066222,
          0x26549fa4efe3dc99bdc78abdac994f9a05c3df38a22ea610323c0ffde57663d0,
          0x0, -0x1,
          -0x26d104145460d08fc170f0111034fe9e80e0c1c371648d7768042129f64008e84e98f13f119ce0d2b1132aa00d74fbd31fabac0a8e3ca4699e4989be65b695cc);
  }

  lemma Power26()
    ensures Pow(256, 26) == 0x10000000000000000000000000000000000000000000000000000
  {
    Power25();
    assert Pow(256, 26) == 256 * Pow(256, 25);
  }

  const TABLE26: seq<seq<byte>> := TABLE25 + ROWS26

  lemma Table26()
    requires Fermat()
    ensures AreRows(TABLE26, 27)
  {
    hide Fermat, IsRow, Row, Mult, Pow, Factor, IsBlock, AreRows, ROWS26, TABLE25;
    Rows26_1();
    Rows26_5();
    Power26();
    Together(ROWS26, 26, 0x10000000000000000000000000000000000000000000000000000);
    Table25();
    MoreRows(TABLE25, 26, ROWS26);
  }

  const M27_3: Point := Point(0x1eade2fa113b19d45106b3018d462efb62e3e4cd9fde382880da87be2808049f,
                          0x6cc8d8212e6cca64a97c8d6d8055434354879c85b780644e70a3ae0a699920a0)
  const M27_5: Point := Point(0x4af6009911d4f531a9ff4cfb6949f6e0becb4c0c8d61c0a9539dd57ccf82cd76,
                          0x1ea69bf6f0ee10457e3ed9ec0a54fa577c695e93a320cb086fe9a6e40365167c)
  const M27_6: Point := Point(0x1ed4bfcc333a75f7fa18b2fabed6f3fd969279b611d11b8de6b7a92bd11bba55,
                          0x73d969f556be73a2317109388e0a18c9f9a0ff26b34b97818cc3506e47909a5f)
  const M27_7: Point := Point(0x3a4ba693d760ae2bc9a2c8e4241f9ed15c258b50162a3665c333683fcba71031,
                          0x438b99022fc522fd174dbcba6422821762ba1d0120aa1ff9790f961ef3ecbb5d)

  lemma Points27()
    requires Fermat()
    ensures IsMultiple(0x1000000000000000000000000000000000000000000000000000000, G216)
    ensures IsMultiple(0x2000000000000000000000000000000000000000000000000000000, G217)
    ensures IsMultiple(0x3000000000000000000000000000000000000000000000000000000, M27_3)
    ensures IsMultiple(0x4000000000000000000000000000000000000000000000000000000, G218)
    ensures IsMultiple(0x5000000000000000000000000000000000000000000000000000000, M27_5)
    ensures IsMultiple(0x6000000000000000000000000000000000000000000000000000000, M27_6)
    ensures IsMultiple(0x7000000000000000000000000000000000000000000000000000000, M27_7)
    ensures IsMultiple(0x8000000000000000000000000000000000000000000000000000000, G219)
  {
    hide Fermat, IsMultiple;
    Powers216();
    Powers222();
    Added(0x1000000000000000000000000000000000000000000000000000000, G216, 0x2000000000000000000000000000000000000000000000000000000, G217, M27_3,
          0x4ac9884bada9b31b20f30e5ca5a70d869a10be80f64808c0e3c71ffa572980dd,
          0x166312b15b977c1b7bde2a7d1e684892f484bc648d23d9c54d5d254fa361a3fa38d43d3d691ed929c72c2b8ae9ee536f3b63f005164fe1d0d0f72ba3aac0bf8d9e110afe1d81f829a0276aae1656f7879338f5a19037a3f235b9a1008237ea7e48da95ad5450b89aa55e3fe1396b7bb8e891eaad4811442029925b0a1e478f,
          -0x93f3d1b5fadbb8f018e149ce973360195e231baaaefbef6ded229b55042c614,
          -0x5901380aabcb86d6f8634651ad193c9c5408fd2876d07c85b3ae828141d59e64);
    Added(0x1000000000000000000000000000000000000000000000000000000, G216, 0x4000000000000000000000000000000000000000000000000000000, G218, M27_5,
          0x23621ffabd3b70d8f44a49c03c6ccaa6485d457f4c9f80e6c6f2e26bef4057b1,
          0xb635a0695e28c9f2a4120a236aba491f83d77aff603c887a6a5f3704071a4791ff1a99caa8e6bf416c28cd21cffcd2ebf7cf4214d7282729401203dffc9256fa248388024f4d79807eac24a8166caf9802e9f863b10437ab4a255c9156a391d4b4b183d5093ddbeb942730aaca7b50ce55efb50ecc6c85a71ba4a95b0b49b,
          0x20238898e49936587ad80dcfc330652e9040f0bfe1de786efad87c6686498a,
          -0x19f916c902cb457c8bd57425abbd6f40429100b5b669ac2b99c1ddb83f2d5058);
    Added(0x2000000000000000000000000000000000000000000000000000000, G217, 0x4000000000000000000000000000000000000000000000000000000, G218, M27_6,
          0x2cbd952d66dfd797b28c852a06df3ece27f1535b417f70d0f60c6a039820a382,
          0x379cf75264c78e13427210d2326c6bc71798a5526faef82bf8b0b53ea36635192b00ca30b94047cf8c40bbae226acd86de6120c2cc7cd013d59f2f8ab9c3f0a760351e9ff1622e40cf9d500ec4cbed3aa21e0d34a0372b638f73da9c82c5797d1755d147c08b9a63c623787c044eec69d384154817cc4ed5e0d1f6a6bc07c6,
          -0x1abb3cee3573df5095c2fd3fcba69e5bc39cef2047419031d441dec1baca33c7,
          -0x4f1562165f00ee125947eefb8019dfdc3d48e92f4408b2039ecdbaa1a6a19b1a);
    Added(0x3000000000000000000000000000000000000000000000000000000, M27_3, 0x4000000000000000000000000000000000000000000000000000000, G218, M27_7,
          0x482478886990a70c659ba1f18e1ab4d1e0edcefc1cb42df138588da957d40285,
          0x37811092a5021300c7f991eb0ea43ce210381a1a76f1379fc4e2e9d0180ba85c636cd9296fffb6aef54fba663e72789c24142773a449d47ddcb470546d6e750c370c5c8513ffd54e8a91a8969364e8e0f30976361a6abd612c1fe2cd50aed18218025792db55532823bc5745437928becdc30f27cfeabca384dde3678a4fc7,
          -0x11b370a76dcf36de9c0a5d5bde5371c238c93f5933a6b8660b34deaaf9895a14,
          -0x4f0334f23a85fe4146007397dabcdaabfa880da281109e549f6b9ea67f1fa46f);
  }

  const ROWS27: seq<seq<byte>> := [
    Row(0x1926e1dc6401e0ffd45574a26474d3d92305b3fc7777a581741d5a461e6bf9d6,
        0x3a10dfe132ce3c853df23ff7a4ba0c47d77fcf04f14a0ea5db468549af3f666e,
        0x1fa1d01d861e5d15175322fd31f2c0f12fd515463a1fc1fde07f4e8aea17cea0),
    Row(0x773563bc6a75cf3399f6f7744e0593201e4656da37f15520cc8055947d599832,
        0x73fced18ee9a01e57f13e93efdd5e2622e712bddd1080de938dcac00d1df94ab,
        0x1f426b701b864f448d77cec8ad638932a493da67c5a03ecd06b1e90863139cb3),
    Row(0x4e1af5271d31b0905875da6bf30f1447f1a3b7b817a22c25efc9264c41911c01,
        0xb76bb1b3fa7e438fa83406f0d9b723eb76b8153575e9c76f17e35c891a12552,
        0x7b6dd61eb772a95522e5646399bb8017be6771cbd444ab6e08b8c1f97f92939b),
    Row(0x703e9bceaf1d2f4fad962dbd8dfc5bdb7998fa4f608cd5cfb7adc1e850f33d92,
        0x53fa9b659bff6afe866cbe65a0cbb28116fb76dc40143b185730abf9ab01d2c7,
        0x398d93e5c4c61f50181bb73ebcd65af1843a5d6665aed4e56c14c8e994885455),
    Row(0x53b09b5ddf191b13d43f8cf0a10b0376bd9e128715bf0a5f1c4bd16733e248f3,
        0x699c9c9002c30577283e26e7739ef1383b34aaa030828bb1c3877c60d2e7e3f2,
        0x51caf30c6fcdd90728cdd24781b4e975921718b5cce5d97df306a7235946f1cc),
    Row(0x5504aa292383fdaa3758563dcf3324cc630e8570a17a7bf3a60ba7427674e00a,
        0x12ae29c189f8e99a2b89bc334ce10cc7903378dcc51cb30f737af99a18ac54c7,
        0x5fd14fe958eba5ea55ca7521d09c4e220dd1efcc3a34f7aea99ec0cb1f0d01cf),
    Row(0x93ff26e586474d14daaf3d64002e346069491b10a7fe993b5dc2ddf2845ab2c,
        0x7dd73f960725d128e0f0859e884220e8bedfa85136d4565f3c42fe5ebf93cb8e,
        0x2f59bcbc86b470a41367253ab457ac2975730672dbaf23e5b10d24fe68059829),
    Row(0x5458b42e2e51af4a7e7748d9be77aad1ad1b911f567d03d783847d429917135f,
        0x2aa55e3d010828b116c2e1631133558585201b3fadd7e71e7041d560b691c301,
        0x13e9004a8a768664352b4c82fdb5c86442c54e2d74421d10ed5192e60c07444f)
  ]

  lemma Rows27_1()
    requires Fermat()
    ensures |ROWS27| == 8
    ensures IsRow(ROWS27[0], Mult(0x1000000000000000000000000000000000000000000000000000000, BASE), Factor(27))
    ensures IsRow(ROWS27[1], Mult(0x2000000000000000000000000000000000000000000000000000000, BASE), Factor(27))
    ensures IsRow(ROWS27[2], Mult(0x3000000000000000000000000000000000000000000000000000000, BASE), Factor(27))
    ensures IsRow(ROWS27[3], Mult(0x4000000000000000000000000000000000000000000000000000000, BASE), Factor(27))
  {
    hide Fermat, IsMultiple, IsRow, Row, Mult;
    Points27();
    RowIs(0x1000000000000000000000000000000000000000000000000000000, G216, Factor(27),
          0x1926e1dc6401e0ffd45574a26474d3d92305b3fc7777a581741d5a461e6bf9d6,
          0x3a10dfe132ce3c853df23ff7a4ba0c47d77fcf04f14a0ea5db468549af3f666e,
          0x1fa1d01d861e5d15175322fd31f2c0f12fd515463a1fc1fde07f4e8aea17cea0,
          0x0, 0x0,
          -0x36d7d62c2aa6e5bfe373a4b2900c56ce533207b1fc758f80bb13d55a2a41ce084a976d107227a07a35a2cb1bd52a9efa4d07c872242052d335ee798bed785b0);
    RowIs(0x2000000000000000000000000000000000000000000000000000000, G217, Factor(27),
          0x773563bc6a75cf3399f6f7744e0593201e4656da37f15520cc8055947d599832,
          0x73fced18ee9a01e57f13e93efdd5e2622e712bddd1080de938dcac00d1df94ab,
          0x1f426b701b864f448d77cec8ad638932a493da67c5a03ecd06b1e90863139cb3,
          0x1, 0x0,
          -0x10bd2cd3af9edeffd6067b5bec16fb2f12e5c669d9117d2af13ce6366086dc767a7a838202da78c65e2abe3d6a4daa0a33d1ac537ab9e498d52e86e0853e4a11);
    RowIs(0x3000000000000000000000000000000000000000000000000000000, M27_3, Factor(27),
          0x4e1af5271d31b0905875da6bf30f1447f1a3b7b817a22c25efc9264c41911c01,
          0xb76bb1b3fa7e438fa83406f0d9b723eb76b8153575e9c76f17e35c891a12552,
          0x7b6dd61eb772a95522e5646399bb8017be6771cbd444ab6e08b8c1f97f92939b,
          0x0, -0x1,
          -0x10b4c6ef800e0919772c13f6777fb17a8feeb547d5bc8cbc845a35ed78201398ee98f4d6e43e41b12bd7a22e1cb4833a1414f0292e0c5a8179e882161ac6d499);
    RowIs(0x4000000000000000000000000000000000000000000000000000000, G218, Factor(27),
          0x703e9bceaf1d2f4fad962dbd8dfc5bdb7998fa4f608cd5cfb7adc1e850f33d92,
          0x53fa9b659bff6afe866cbe65a0cbb28116fb76dc40143b185730abf9ab01d2c7,
          0x398d93e5c4c61f50181bb73ebcd65af1843a5d6665aed4e56c14c8e994885455,
          0x1, 0x0,
          -0x883d5b502168d45fa0d2ee4d65fdfb436f486717278aa8f3ec39a37c0a8b93b9b5af6d1d80fa0429ecd9454f5131db8a09854b363a8fd7029a2ef91023a858b);
  }

  lemma Rows27_5()
    requires Fermat()
    ensures |ROWS27| == 8
    ensures IsRow(ROWS27[4], Mult(0x5000000000000000000000000000000000000000000000000000000, BASE), Factor(27))
    ensures IsRow(ROWS27[5], Mult(0x6000000000000000000000000000000000000000000000000000000, BASE), Factor(27))
    ensures IsRow(ROWS27[6], Mult(0x7000000000000000000000000000000000000000000000000000000, BASE), Factor(27))
    ensures IsRow(ROWS27[7], Mult(0x8000000000000000000000000000000000000000000000000000000, BASE), Factor(27))
  {
    hide Fermat, IsMultiple, IsRow, Row, Mult;
    Points27();
    RowIs(0x5000000000000000000000000000000000000000000000000000000, M27_5, Factor(27),
          0x53b09b5ddf191b13d43f8cf0a10b0376bd9e128715bf0a5f1c4bd16733e248f3,
          0x699c9c9002c30577283e26e7739ef1383b34aaa030828bb1c3877c60d2e7e3f2,
          0x51caf30c6fcdd90728cdd24781b4e975921718b5cce5d97df306a7235946f1cc,
          0x1, 0x0,
          -0xb804c76053eac511337cb10af8343c93aad3728b4fb4ffca46750d5e6a26c7aef172972ddbf48703d7ad2565dc074a2b056c353120c731c1efc5ae9ba7e8734);
    RowIs(0x6000000000000000000000000000000000000000000000000000000, M27_6, Factor(27),
          0x5504aa292383fdaa3758563dcf3324cc630e8570a17a7bf3a60ba7427674e00a,
          0x12ae29c189f8e99a2b89bc334ce10cc7903378dcc51cb30f737af99a18ac54c7,
          0x5fd14fe958eba5ea55ca7521d09c4e220dd1efcc3a34f7aea99ec0cb1f0d01cf,
          0x0, -0x1,
          -0x11e10ec9075eb278b58aad38c2f8acd78ace32f5a578c610219d0b13e87b7736c80ac3375fe54f51de13ab6ac7ecd5d304ee95ebaec36035d03dbfe2843da99f);
    RowIs(0x7000000000000000000000000000000000000000000000000000000, M27_7, Factor(27),
          0x93ff26e586474d14daaf3d64002e346069491b10a7fe993b5dc2ddf2845ab2c,
          0x7dd73f960725d128e0f0859e884220e8bedfa85136d4565f3c42fe5ebf93cb8e,
          0x2f59bcbc86b470a41367253ab457ac2975730672dbaf23e5b10d24fe68059829,
          0x0, 0x0,
          -0x13b5db99e8679a4ed289f174dadca4f93594286623d03103ec8117b04f67fe030d8e778857e9c64f31385a98ed73dc7497217063e1fce5fc8bf179addf9ae9d9);
    RowIs(0x8000000000000000000000000000000000000000000000000000000, G219, Factor(27),
          0x5458b42e2e51af4a7e7748d9be77aad1ad1b911f567d03d783847d429917135f,
          0x2aa55e3d010828b116c2e1631133558585201b3fadd7e71e7041d560b691c301,
          0x13e9004a8a768664352b4c82fdb5c86442c54e2d74421d10ed5192e60c07444f,
          0x1, -0x1,
          -0x220e8a7c5743361783ae71d1ab26a51a933f8841109af934203fa9d4182754aecef81c34ea8646614bf0e8716e79f6cc7102674f615ac57de037f014b4eff315);
  }

  lemma Power27()
    ensures Pow(256, 27) == 0x1000000000000000000000000000000000000000000000000000000
  {
    Power26();
    assert Pow(256, 27) == 256 * Pow(256, 26);
  }

  const TABLE27: seq<seq<byte>> := TABLE26 + ROWS27

  lemma Table27()
    requires Fermat()
    ensures AreRows(TABLE27, 28)
  {
    hide Fermat, IsRow, Row, Mult, Pow, Factor, IsBlock, AreRows, ROWS27, TABLE26;
    Rows27_1();
    Rows27_5();
    Power27();
    Together(ROWS27, 27, 0x1000000000000000000000000000000000000000000000000000000);
    Table26();
    MoreRows(TABLE26, 27, ROWS27);
  }

  const M28_3: Point := Point(0x7d04264e36e8889ec5d591851013b99f3fa909b44e6b6d1c823b9f2d199b0017,
                          0x6cc9f269424b827f9c777978a9a333fabc278f15bf93fd8de1a3319ae930f866)
  const M28_5: Point := Point(0x1723bcb3e1d150c695796bfce98ed8d56ceba30daa119302db211af2b10518f5,
                          0x5d4ba682e08ebb23403980db0c7ebd78aaf775fb480250f556e689807682b3ea)
  const M28_6: Point := Point(0x456bdf4c7423eb00e4455b4a695e9574304fbfc4aaa7a01593570fe618e77933,
                          0x579782c36c68e87c2bb0378ee474638079c7d097349b5c29c0dd0b42c46c2997)
  const M28_7: Point := Point(0x2269a46cdf0aa2113b456bbb165d9e458d4588a83ab75cf5852ea339f4412193,
                          0x489cf3771fa997f21b8a11d9d82e1fa1cea1e03841ffdfc027b68f85514c514e)

  lemma Points28()
    requires Fermat()
    ensures IsMultiple(0x100000000000000000000000000000000000000000000000000000000, G224)
    ensures IsMultiple(0x200000000000000000000000000000000000000000000000000000000, G225)
    ensures IsMultiple(0x300000000000000000000000000000000000000000000000000000000, M28_3)
    ensures IsMultiple(0x400000000000000000000000000000000000000000000000000000000, G226)
    ensures IsMultiple(0x500000000000000000000000000000000000000000000000000000000, M28_5)
    ensures IsMultiple(0x600000000000000000000000000000000000000000000000000000000, M28_6)
    ensures IsMultiple(0x700000000000000000000000000000000000000000000000000000000, M28_7)
    ensures IsMultiple(0x800000000000000000000000000000000000000000000000000000000, G227)
  {
    hide Fermat, IsMultiple;
    Powers228();
    Added(0x100000000000000000000000000000000000000000000000000000000, G224, 0x200000000000000000000000000000000000000000000000000000000, G225, M28_3,
          0x1024ffab588de48287e3915c5c340ac850b754dc90cf158b943ce8231363e308,
          0xb107b8fed78c975faf8107265dcc5cfba65968215a49f67017e905fa56cd94e33909a76a3ee811a6d078d4c2e6b816549ebd1900bf45e496749c56ee6447203733d945fbd21abc28772dfe0c3c5a46c8e75812e9053a172eaa1523b230f78aa9281e204b2b414037949029c432957e4c4ead1a88ed701f6dabcec2b732f990,
          -0x565ed81a34f7618466be1c53e6789ea0af99dc065e015b782a59844cfa4db963,
          -0x7d2668fed5210117c2d3550cc583a4391f27c6f06c6806d1088be09f9adf80dc);
    Added(0x100000000000000000000000000000000000000000000000000000000, G224, 0x400000000000000000000000000000000000000000000000000000000, G226, M28_5,
          0x30211ac9b46506aff3675fb48dd41ae2ce325ce8b49195a086af0ac95732f0ea,
          0x6332b16d583911b1fc1e0e0fec0956e3d400cfca2e8810728ff38926c102f258c22291e1a2dca06c4235eb4da2cab97b05a350e2154d59a527ad17299216a60157ef0e44d20e62f3066db48a9702a23b77669664bcc2925fceb0b875e50145ca46201593d202ab6a9f3d9e556927ecb16d1d5617cbcd5467b7454739363e06,
          -0x2b1573f4785ef90a9f871863822e80e0f39ff67b555740a1b5b305e0f8cdb323,
          -0x5596fee55b0703952a43a24b39ca3524314933a7dc0d50de784b7cb5666db0f4);
    Added(0x200000000000000000000000000000000000000000000000000000000, G225, 0x400000000000000000000000000000000000000000000000000000000, G226, M28_6,
          0x1828f5ac02d7a1a65012146cd67766ae84902af2e7cb29ebd02dbbbd66a5ebd8,
          0xba2ee0037286ba632965db70d04ec3233c9f402b9a39e7c4feed8e381b3196d936c873bd9537f4dd12424e3a4df6c636a2acc94a72f193a168c5e384fa15c56ca12a71ea9211d0ceb0e7f95b15093ab541a1a022d75496ea65868a18307b5385a8e1865267dd273fd15547fe04df2490bf294f896b52da28b5e913fb00e88,
          -0x13dab9ee1367b366c23d13c9a953dca2404c5fff0a18ae622d4a321261af6ac9,
          -0x27ab822041851bec73d50e207c439939391c65f51563667538ab540b4c600509);
    Added(0x300000000000000000000000000000000000000000000000000000000, M28_3, 0x400000000000000000000000000000000000000000000000000000000, G226, M28_7,
          0x465a906f4cc2d1ca08f98be84b6ce1773b8f396e56ed3f490654bf1db376cde1,
          0x6c96cdd7bc0e191fdce10bb51bdbcf419cc837e1b75f894e61b231b587d882e7eb7dcc82c50f34f86f3b9417e900a023c94c54397ad6b55e097b1abb5472565ae86c0ebe9b8e3be0c7a5f42af97d8179a30ce15543f2559fe412f3282eb3711f05dcb0d22254893c3205c64a1a681ea5eec4fe7ac3fc6b7c69910cd3ecbc8b,
          -0x237a491e1051778ef3046b623df70429dac816bef65f6ff9386bfa24e7ae32bc,
          -0x5ca35dd4bbcea97446a9fbeff33e88bae5028f7ae530668356758e0a225d7050);
  }

  const ROWS28: seq<seq<byte>> := [
    Row(0x73937e8814bce45e32bc0dcab74ffef7fa38d6c9ae6bf863739d8845832fcedb,
        0x5f46040898de9e1aecf3b7c036de649fece3a890e0dc506bbb2e00c9193b877f,
        0x2cf8a4e891d5e835e19715574696bdc6a9d13b22d4f06834b9037116297bf48d),
    Row(0x2049bd6e58252a097cb16a4cc2736a86dd4c09d37c38b5496d93fd8707110f67,
        0x7a6f7f2891d6a4f6d7659c8185978a3024d2381c3950196b2cb5487e17d06ba2,
        0x6011aadfc545941d4c21b52c519ebfd4f0ee60be5b3db90b7d09fd8d6a9aef49),
    Row(0x6fc5cc1b0b62f9e0d6a1e7f3998f7a5b7c7e8561712890715f67926dcf95f83c,
        0x69ce18b779340b1e624d0afdb9b6ed99fbd098ca0dff6aaa63ded0c802cbf890,
        0x15596b3ae57101f1127e0442189f2352dd1aae3cd47e9092d1ef5528b29879cb),
    Row(0xd2237687b5f4dda1307deb553f2148aff83123197d6ddcf462739d23f9179a2,
        0x3aa4e241afb6d138292b7d227ef556e50be4158bd9c745df09ff31167e5124ca,
        0x32fcaa6e4687a36c083ab1a25549d2eb48583f8fa2e926c32cc138bf2a3305f5),
    Row(0x4627e9cefebd6a5caac014de22efe4a33e0bd2ed9df0bdf27bc56e8dc57d9af5,
        0x746f6336c2600be9d5b2ecd7f60d964e17e31908f213e3f83207a4732787ccdf,
        0x7b4917007ed6629333596a8a0344186de288eb729943731f3f4af345ab6c971c),
    Row(0x122ba376f844fd7b476adc447b15ce0c497810d289f3bc142d85fb5cab84b064,
        0x1d03620fe08cd37d0ff592d94dd2f8f4aa17905bdf42fc3f54341b28dd53a2dd,
        0x2c70bf52b68ec4c2eabb4be7dd479d99ed0fd42115d187fc20232cda2b4e554),
    Row(0x26334f0a409ef5e0e044a61ec1d0815c415c5790074882caa287ec4b5d0b2fbb,
        0x6b0697e3feb43a0356cf7d94ee8bbde75be768e07cb73cb5ace532bf458d72e1,
        0x1cc37f43441b2fae9c9cb95849f0d2a93ef000ef076da45db6c8f04adf62a3c0),
    Row(0x6c6809c10380314afb18abdb5c45ac19d061c4c0e506a922508f565a5cc7324f,
        0x3a346f772f19683826e72832844c23341c5b15f818e5656ad76656f1c9ceaeb9,
        0x5911b9f6ef7c5d0960746dd8ec67262e9bd0331b1e851edd2d55112e2da6ac8)
  ]

  lemma Rows28_1()
    requires Fermat()
    ensures |ROWS28| == 8
    ensures IsRow(ROWS28[0], Mult(0x100000000000000000000000000000000000000000000000000000000, BASE), Factor(28))
    ensures IsRow(ROWS28[1], Mult(0x200000000000000000000000000000000000000000000000000000000, BASE), Factor(28))
    ensures IsRow(ROWS28[2], Mult(0x300000000000000000000000000000000000000000000000000000000, BASE), Factor(28))
    ensures IsRow(ROWS28[3], Mult(0x400000000000000000000000000000000000000000000000000000000, BASE), Factor(28))
  {
    hide Fermat, IsMultiple, IsRow, Row, Mult;
    Points28();
    RowIs(0x100000000000000000000000000000000000000000000000000000000, G224, Factor(28),
          0x73937e8814bce45e32bc0dcab74ffef7fa38d6c9ae6bf863739d8845832fcedb,
          0x5f46040898de9e1aecf3b7c036de649fece3a890e0dc506bbb2e00c9193b877f,
          0x2cf8a4e891d5e835e19715574696bdc6a9d13b22d4f06834b9037116297bf48d,
          0x1, -0x1,
          -0x3e3112a880156b733b0798004555acc5d7333c4b36323549c6a79d56d3e7abd3a5f447441cfea97f15c6ded65fa88a65b717230650acc02fd9f9beccc7f00399);
    RowIs(0x200000000000000000000000000000000000000000000000000000000, G225, Factor(28),
          0x2049bd6e58252a097cb16a4cc2736a86dd4c09d37c38b5496d93fd8707110f67,
          0x7a6f7f2891d6a4f6d7659c8185978a3024d2381c3950196b2cb5487e17d06ba2,
          0x6011aadfc545941d4c21b52c519ebfd4f0ee60be5b3db90b7d09fd8d6a9aef49,
          0x1, 0x0,
          -0x74b9fee1ca83063381c7de933f165648919b32627837d25548e3de631abc3f82768a40cdf306425a4cbb551ce53ad3363224848681f6133e4d1deceba91b783);
    RowIs(0x300000000000000000000000000000000000000000000000000000000, M28_3, Factor(28),
          0x6fc5cc1b0b62f9e0d6a1e7f3998f7a5b7c7e8561712890715f67926dcf95f83c,
          0x69ce18b779340b1e624d0afdb9b6ed99fbd098ca0dff6aaa63ded0c802cbf890,
          0x15596b3ae57101f1127e0442189f2352dd1aae3cd47e9092d1ef5528b29879cb,
          0x1, -0x1,
          -0x44145166a87fd95cd6ae38f845d8b8e86372af6a67c5937ed9cca538aec5d365e66c88ceea41eb00c9aeaa692ec84b2f6d0032b819e4eb6163805c8c641a6855);
    RowIs(0x400000000000000000000000000000000000000000000000000000000, G226, Factor(28),
          0xd2237687b5f4dda1307deb553f2148aff83123197d6ddcf462739d23f9179a2,
          0x3aa4e241afb6d138292b7d227ef556e50be4158bd9c745df09ff31167e5124ca,
          0x32fcaa6e4687a36c083ab1a25549d2eb48583f8fa2e926c32cc138bf2a3305f5,
          0x0, 0x0,
          -0x41683c482319a6f3b88297182143cc937a9a8b228e4c2e1bf5c97ccb9b0b76a50af221395fa991f1206100814dacbdb501965e7eeb34ac0d303d5cabedafb67);
  }

  lemma Rows28_5()
    requires Fermat()
    ensures |ROWS28| == 8
    ensures IsRow(ROWS28[4], Mult(0x500000000000000000000000000000000000000000000000000000000, BASE), Factor(28))
    ensures IsRow(ROWS28[5], Mult(0x600000000000000000000000000000000000000000000000000000000, BASE), Factor(28))
    ensures IsRow(ROWS28[6], Mult(0x700000000000000000000000000000000000000000000000000000000, BASE), Factor(28))
    ensures IsRow(ROWS28[7], Mult(0x800000000000000000000000000000000000000000000000000000000, BASE), Factor(28))
  {
    hide Fermat, IsMultiple, IsRow, Row, Mult;
    Points28();
    RowIs(0x500000000000000000000000000000000000000000000000000000000, M28_5, Factor(28),
          0x4627e9cefebd6a5caac014de22efe4a33e0bd2ed9df0bdf27bc56e8dc57d9af5,
          0x746f6336c2600be9d5b2ecd7f60d964e17e31908f213e3f83207a4732787ccdf,
          0x7b4917007ed6629333596a8a0344186de288eb729943731f3f4af345ab6c971c,
          0x0, 0x0,
          -0xace70b41d775f89843fbae8a4dd8136dbb2efbf90a75b9899d8f2bfb4fd23f3b9553324a07a17ea5e1005b50f26a21086bd779586793c26f8137863b91fb350);
    RowIs(0x600000000000000000000000000000000000000000000000000000000, M28_6, Factor(28),
          0x122ba376f844fd7b476adc447b15ce0c497810d289f3bc142d85fb5cab84b064,
          0x1d03620fe08cd37d0ff592d94dd2f8f4aa17905bdf42fc3f54341b28dd53a2dd,
          0x2c70bf52b68ec4c2eabb4be7dd479d99ed0fd42115d187fc20232cda2b4e554,
          0x0, -0x1,
          -0x1e703a263c0044177e1b9601ea9ba5de15d298688dba452cf57ac408ca565c5b16afbae6f112b25523184c10ab56a0a53157d7053fe75ec606d5a97c4531d9d2);
    RowIs(0x700000000000000000000000000000000000000000000000000000000, M28_7, Factor(28),
          0x26334f0a409ef5e0e044a61ec1d0815c415c5790074882caa287ec4b5d0b2fbb,
          0x6b0697e3feb43a0356cf7d94ee8bbde75be768e07cb73cb5ace532bf458d72e1,
          0x1cc37f43441b2fae9c9cb95849f0d2a93ef000ef076da45db6c8f04adf62a3c0,
          0x0, 0x0,
          -0xc821f68f466e4f07f557ce412f865d6c79cd4a3cdfcc103bf2581abf33e9b013d3c88d3fed41d30c608a1f088efd0c6d50da12a871f0ed05f459c2ff5aad1ec);
    RowIs(0x800000000000000000000000000000000000000000000000000000000, G227, Factor(28),
          0x6c6809c10380314afb18abdb5c45ac19d061c4c0e506a922508f565a5cc7324f,
          0x3a346f772f19683826e72832844c23341c5b15f818e5656ad76656f1c9ceaeb9,
          0x5911b9f6ef7c5d0960746dd8ec67262e9bd0331b1e851edd2d55112e2da6ac8,
          0x1, -0x1,
          -0x2ae8c5b36cb715e60a35290bfd540627a3dda96f3250a5929b5b63f702d1428b9c36a9a62c78b2c143de7601f793826883bba6c462ecc6e6998159e3565d3d08);
  }

  lemma Power28()
    ensures Pow(256, 28) == 0x100000000000000000000000000000000000000000000000000000000
  {
    Power27();
    assert Pow(256, 28) == 256 * Pow(256, 27);
  }

  const TABLE28: seq<seq<byte>> := TABLE27 + ROWS28

  lemma Table28()
    requires Fermat()
    ensures AreRows(TABLE28, 29)
  {
    hide Fermat, IsRow, Row, Mult, Pow, Factor, IsBlock, AreRows, ROWS28, TABLE27;
    Rows28_1();
    Rows28_5();
    Power28();
    Together(ROWS28, 28, 0x100000000000000000000000000000000000000000000000000000000);
    Table27();
    MoreRows(TABLE27, 28, ROWS28);
  }

  const M29_3: Point := Point(0x158af2b74882820fe0d48c352012a9c0e72508f00f08b496b362d8352e175264,
                          0x627e7cd734b0381d7d75cffa833aeed64d2e0228cd3795254c72530bd1561746)
  const M29_5: Point := Point(0x7d5f6473e7c2f3943b367cec6de48d986dc0cea56b0f6cff9b5940abde7555f6,
                          0x3c49c73bc2ba82e625b27d7d595063f58544f85577b49be10061179993df2540)
  const M29_6: Point := Point(0x5dde3f530354c53c981ddbf84741ec31fee533b10f88b9da312a4e97e3f868a1,
                          0x759527498e0c4f3629c2c5cdeace1048c641349374822f8aed2c84800427a7c8)
  const M29_7: Point := Point(0x3d5a995a523d9d0503bd7090da2084f7f34481462bcbb3ffda87f4fbb4aa85b4,
                          0x706663d330b1d1a7534a73a725eb5d2bffcd5f6ac4a613b190ecb566edf58220)

  lemma Points29()
    requires Fermat()
    ensures IsMultiple(0x10000000000000000000000000000000000000000000000000000000000, G232)
    ensures IsMultiple(0x20000000000000000000000000000000000000000000000000000000000, G233)
    ensures IsMultiple(0x30000000000000000000000000000000000000000000000000000000000, M29_3)
    ensures IsMultiple(0x40000000000000000000000000000000000000000000000000000000000, G234)
    ensures IsMultiple(0x50000000000000000000000000000000000000000000000000000000000, M29_5)
    ensures IsMultiple(0x60000000000000000000000000000000000000000000000000000000000, M29_6)
    ensures IsMultiple(0x70000000000000000000000000000000000000000000000000000000000, M29_7)
    ensures IsMultiple(0x80000000000000000000000000000000000000000000000000000000000, G235)
  {
    hide Fermat, IsMultiple;
    Powers234();
    Powers240();
    Added(0x10000000000000000000000000000000000000000000000000000000000, G232, 0x20000000000000000000000000000000000000000000000000000000000, G233, M29_3,
          0x650e00adf97f990754bbfb748bba37f1fd9fec32ca6f5c25f04a252e4804b670,
          0x567978c744ca1910f0f6e94ffd1e7fba8cc62ba439e31e2212bbe7ff44d665937ff43d76a0bf8c6ec73e86a8dc6155a022b3b0c8facabee94b2e254c38539cba54ce1c399e7e69848cc20cc1fadfe0292ded66bfdfaa5200deef4c798a4b89851d2533bf7565932696c469af0ccab3ce58acff24a8dba5e5829295178b95ab1,
          -0xac18de24f17d7f99d1b90d30f1612bd758684d8a85505d8c3c8c783d04ec3d54,
          -0x107a530ae331dea828dffb021c345db51a216c6a562878df58e3b706b548079f2);
    Added(0x10000000000000000000000000000000000000000000000000000000000, G232, 0x40000000000000000000000000000000000000000000000000000000000, G234, M29_5,
          0x6e04962d0c3ee5887f3c1d9f3c8e5e7351a61074435aec1ddf326e74f2dd14a0,
          0x2cd34954fd51742486783f433eb5c68c1a79241b662d9bdf8f65f347675a52f78245abf438c599ba52705d86eb162e31a58ff5aea13957987ae14ec15f7b38440e39442a1a865d8a55ef5e5b9ab6817063d0ff1ab228b4b469d6660ce373b5e763a24400415be68ce0a12ebb47d2a0d4d0556675998ca77d4139d014a309f91,
          -0x1ab9f4267f8628b7fa48d187fccc5d01b715ac461b261e5bb49fd6ed85d0dd9a,
          -0xba4373b752ba34ae4585a86466a3ca2b6e5eb24cab493317c120ec06dc931710);
    Added(0x20000000000000000000000000000000000000000000000000000000000, G233, 0x40000000000000000000000000000000000000000000000000000000000, G234, M29_6,
          0x3927cbf050f6011b0f186ba1d7016ddb272d79bacab1f55b77a6ef071dc25350,
          0x31e8b0822bded7162898edf767c95c24e273ab4ca53d4b174fed0c44e4a124390dc0132339078e48f14cecb84607e6b0d37cb8effc11f48bc388847b9c74543f8d75634d84380d684d76b61b2b1fdb19493062eacdfd14ce34897a82ac190066ccd09a908fa0b99c151ad73544eed2ce5ce81bae42244333363024fa335a7b7,
          -0x63d4b59dbf0121649d4a978c4e463cbdc88fe8fd4e899884fce9be43ae8b590d,
          -0xc249e9fe8d5d2a86243aeccc861aefbbd04b0ae64a2d7733693132394bd7bd8a);
    Added(0x30000000000000000000000000000000000000000000000000000000000, M29_3, 0x40000000000000000000000000000000000000000000000000000000000, G234, M29_7,
          0x1a23faa476828d05a4eb5464be31b4aba04e2636b34beeb9b676073b89f1b8d,
          0x86fb670f02099ba6bb740850b9f9d778ef29154c9de2dc6a8008cc6703b9e7b6db7f7a971615a97e587b8cf7ceb0d8f4eea6c348515dd0f7f5be563038283bdf4f4ff4a57fd47cab4e053edbc95318e7db9104aae04c2545006c91afe9745699bac259bd80de1623a9d9b269b2ab5324f533773cc6f1a241ab52533bf51ba7,
          -0x4ac98d2c361c6d74083827ee36fba18a0724c9beca8d221a0f9a7bfa50833e06,
          -0x4d285a31274a2faf826534663876f48b61ecaaac19e272ffdc53a2c7ca5ff616);
  }

  const ROWS29: seq<seq<byte>> := [
    Row(0x6b3cecf9aa270c622cf1130a0bb398e1c0f3758f512c4cacc1339983f5df0ebb,
        0x555ef9d1c64b2d1724180c07a99a688d20c141d31cc1cb495349acf3512eeaef,
        0x675f4de13381749d5737ff98b40946f2624aef08a3afbf0c36a770ba3b73bd08),
    Row(0x13d99df70164c520d0dcbdd96964073e64816c816cad83b40e2c52036b1782fc,
        0x60f450b882cd3c43019c4ff39abe94870725d80f9d652dfea12ff6d93bdab31d,
        0x1c06de9e55edac804e5f1c18750023a04fcb69c9d719bfa2014b5ec321e5c0ca),
    Row(0x4cf38a1fec2db60d9ca143c5632845156608f938be2ee08e990f7ad6a33ec4e2,
        0x78096f8e7d32ba2d5e4a5c2fa34d989734530b18dc4049bbffd52b40ff6d69aa,
        0x373cad3a26091abe4f09cc7d7003725bf9c49e2a48b5478ca0aaaa650dfa5ce7),
    Row(0x40f3d9454419fc9e9c4db3418cdb5a1fcbfde124934536b294634d82c9f57c,
        0x21547eda5112a6868f58a7bb1f9b8d9d3bcb2cbc61aeaecbf1bea8fb89ddbbad,
        0x63550a334a254df4b72ba407bb3119b9f4272c89510a380cdefde939fd5986d3),
    Row(0x3eea62c7daf78f51ea7c0090eb6bd65d178429b00ca52ee16507d6edb569cf37,
        0x39a92bafaa7d767a60e8fa69c734f18df305c6fae2c408e09bba584572547b49,
        0x68436a0665c9c4cd70525560eb8ab39a5f63857768dbd3759d24c713e693274e),
    Row(0x17b6e7f68ab789f991a4e9d5a38c2416c75c00e264f975b0bc0235e8202f3f27,
        0x5373669c91611472c1e0a1c6320ffc7ac5266844840ae9651e56d317e820107c,
        0x1cb4b5a678f87d11afcaf5885b2d1eca908f2084c9cab3fc5d2814ab9a0e5257),
    Row(0x330bca78de7434a24f8d03164bcad8340c88de2498da5fb1b664c06b394afc6c,
        0x2dc0fd2d82ef6eac5707e438000be223f311e0b0f071c7b16b74aa62a2a007e7,
        0x3c31be1b369f1cf5c58ac14fbfc953fbf9695e962b074724982eff841119744e),
    Row(0x330b61134262d4bb7975cdaea6aca15807dc19ee91ba1c6fb0f4864d08948aee,
        0x41cec1097e7d55bb7f0e52aa34ac8d7aaeb8711fc7cedb98c168bc93f9cb4272,
        0x26b44cd91f28777d73d7c36cdba1df27bb1fd49e1d9e156df79619d7a26d808a)
  ]

  lemma Rows29_1()
    requires Fermat()
    ensures |ROWS29| == 8
    ensures IsRow(ROWS29[0], Mult(0x10000000000000000000000000000000000000000000000000000000000, BASE), Factor(29))
    ensures IsRow(ROWS29[1], Mult(0x20000000000000000000000000000000000000000000000000000000000, BASE), Factor(29))
    ensures IsRow(ROWS29[2], Mult(0x30000000000000000000000000000000000000000000000000000000000, BASE), Factor(29))
    ensures IsRow(ROWS29[3], Mult(0x40000000000000000000000000000000000000000000000000000000000, BASE), Factor(29))
  {
    hide Fermat, IsMultiple, IsRow, Row, Mult;
    Points29();
    RowIs(0x10000000000000000000000000000000000000000000000000000000000, G232, Factor(29),
          0x6b3cecf9aa270c622cf1130a0bb398e1c0f3758f512c4cacc1339983f5df0ebb,
          0x555ef9d1c64b2d1724180c07a99a688d20c141d31cc1cb495349acf3512eeaef,
          0x675f4de13381749d5737ff98b40946f2624aef08a3afbf0c36a770ba3b73bd08,
          0x1, -0x1,
          -0x386f357640779f0cfa83135a04e30ef4d2a5a3e1edd7027fbfaf9ecd78a401a2693b1fb25dfebeda4eadd21826eb8cfbde179fab66a6c86cdccc1e5931700712);
    RowIs(0x20000000000000000000000000000000000000000000000000000000000, G233, Factor(29),
          0x13d99df70164c520d0dcbdd96964073e64816c816cad83b40e2c52036b1782fc,
          0x60f450b882cd3c43019c4ff39abe94870725d80f9d652dfea12ff6d93bdab31d,
          0x1c06de9e55edac804e5f1c18750023a04fcb69c9d719bfa2014b5ec321e5c0ca,
          0x0, -0x1,
          -0x3ed5a7bb5c50b9464489a621ffc627d0cca0d2c17cae77c3a3cd3464e86bbf46762c88ca6bf4d4765ef0dd50b5afa5410466d51a66f9f54903ff22b997ff8144);
    RowIs(0x30000000000000000000000000000000000000000000000000000000000, M29_3, Factor(29),
          0x4cf38a1fec2db60d9ca143c5632845156608f938be2ee08e990f7ad6a33ec4e2,
          0x78096f8e7d32ba2d5e4a5c2fa34d989734530b18dc4049bbffd52b40ff6d69aa,
          0x373cad3a26091abe4f09cc7d7003725bf9c49e2a48b5478ca0aaaa650dfa5ce7,
          0x0, 0x0,
          -0xa9f0b82bb15fcb0b0156838ceecdfe16731fe06559a04c089ae70cd72beb8442e64484bf955105a128670a2c6397fb8951825e65e1e8cd5b06b3d9480bcfaad);
    RowIs(0x40000000000000000000000000000000000000000000000000000000000, G234, Factor(29),
          0x40f3d9454419fc9e9c4db3418cdb5a1fcbfde124934536b294634d82c9f57c,
          0x21547eda5112a6868f58a7bb1f9b8d9d3bcb2cbc61aeaecbf1bea8fb89ddbbad,
          0x63550a334a254df4b72ba407bb3119b9f4272c89510a380cdefde939fd5986d3,
          0x0, -0x1,
          -0x20923cd809f3556e6f244b9008d3f41f4753db765d8933088d270fa0d2cea8963db0a6374d1ce015aeae7c5c4b570463eaa690dfa8247052bc92de1f04b94017);
  }

  lemma Rows29_5()
    requires Fermat()
    ensures |ROWS29| == 8
    ensures IsRow(ROWS29[4], Mult(0x50000000000000000000000000000000000000000000000000000000000, BASE), Factor(29))
    ensures IsRow(ROWS29[5], Mult(0x60000000000000000000000000000000000000000000000000000000000, BASE), Factor(29))
    ensures IsRow(ROWS29[6], Mult(0x70000000000000000000000000000000000000000000000000000000000, BASE), Factor(29))
    ensures IsRow(ROWS29[7], Mult(0x80000000000000000000000000000000000000000000000000000000000, BASE), Factor(29))
  {
    hide Fermat, IsMultiple, IsRow, Row, Mult;
    Points29();
    RowIs(0x50000000000000000000000000000000000000000000000000000000000, M29_5, Factor(29),
          0x3eea62c7daf78f51ea7c0090eb6bd65d178429b00ca52ee16507d6edb569cf37,
          0x39a92bafaa7d767a60e8fa69c734f18df305c6fae2c408e09bba584572547b49,
          0x68436a0665c9c4cd70525560eb8ab39a5f63857768dbd3759d24c713e693274e,
          0x1, -0x1,
          -0x25d5e51ec6ccaa7bfa254a4e6ad022aec593d9e101d28cd3869c6dcf5b2ebf7726e4abe7989ac7c8cd36006490e836e95f2db05911db54d5c041cd08d4b54a3a);
    RowIs(0x60000000000000000000000000000000000000000000000000000000000, M29_6, Factor(29),
          0x17b6e7f68ab789f991a4e9d5a38c2416c75c00e264f975b0bc0235e8202f3f27,
          0x5373669c91611472c1e0a1c6320ffc7ac5266844840ae9651e56d317e820107c,
          0x1cb4b5a678f87d11afcaf5885b2d1eca908f2084c9cab3fc5d2814ab9a0e5257,
          0x0, -0x1,
          -0x373fcd7f25afc6df722d46f97badb904122659689ffed6e5a4cf42c2edff52279925690d595885015bec6f30c15ddbf05a2f2863c21fb3aa4818d8c49e2b109d);
    RowIs(0x70000000000000000000000000000000000000000000000000000000000, M29_7, Factor(29),
          0x330bca78de7434a24f8d03164bcad8340c88de2498da5fb1b664c06b394afc6c,
          0x2dc0fd2d82ef6eac5707e438000be223f311e0b0f071c7b16b74aa62a2a007e7,
          0x3c31be1b369f1cf5c58ac14fbfc953fbf9695e962b074724982eff841119744e,
          0x0, -0x1,
          -0x22852ae928dae020dbb05be43aa279cc93a0b8fbee9cc4cc7aeb8176290942af8565d4045d330ae4b6176446594fbdb0ae64a8dc773dca4acdc13601b794233a);
    RowIs(0x80000000000000000000000000000000000000000000000000000000000, G235, Factor(29),
          0x330b61134262d4bb7975cdaea6aca15807dc19ee91ba1c6fb0f4864d08948aee,
          0x41cec1097e7d55bb7f0e52aa34ac8d7aaeb8711fc7cedb98c168bc93f9cb4272,
          0x26b44cd91f28777d73d7c36cdba1df27bb1fd49e1d9e156df79619d7a26d808a,
          0x0, 0x0,
          -0x228a9feede3039bf61081d5943b96380579002c117619fa8c9dc3631aea9f7f256c585afc24c1e436a574816cdb5114ac76627c48b328333822a0d860f8ebce);
  }

  lemma Power29()
    ensures Pow(256, 29) == 0x10000000000000000000000000000000000000000000000000000000000
  {
    Power28();
    assert Pow(256, 29) == 256 * Pow(256, 28);
  }

  const TABLE29: seq<seq<byte>> := TABLE28 + ROWS29

  lemma Table29()
    requires Fermat()
    ensures AreRows(TABLE29, 30)
  {
    hide Fermat, IsRow, Row, Mult, Pow, Factor, IsBlock, AreRows, ROWS29, TABLE28;
    Rows29_1();
    Rows29_5();
    Power29();
    Together(ROWS29, 29, 0x10000000000000000000000000000000000000000000000000000000000);
    Table28();
    MoreRows(TABLE28, 29, ROWS29);
  }

  const M30_3: Point := Point(0x190bb443a02d3cd6de2f5e1779b552a0efff52516904ceef9b827eb68d4e5bfd,
                          0x5a601f556239715dc181f5303a8bb714a3e0f2f22fea2d51189ef417484861c0)
  const M30_5: Point := Point(0x30d3831392a57aeefb5ee5a2459e4d493d45a8933070387e8f0e9d00957c9907,
                          0x50e644a29bc8581ce7dc02008f6002ec89843fb2229e3afb82edcc64cff559b9)
  const M30_6: Point := Point(0x18b612324ccfb5f047ad256dc97f916cd76fcb9b9579f9ebdd1f3d7b00d6838c,
                          0x4b6dafa36309cc7dd128036930b3d3617474f1760d0d1da20553d75788f5a8bf)
  const M30_7: Point := Point(0x6e847af3ae32676a9cea02217661091b33b24bfe6073c4b1d587b2eca0b600c4,
                          0x362ea253baea269bc955b28365bbb4e83a6751cdeb917476e0d999f7a2182148)

  lemma Points30()
    requires Fermat()
    ensures IsMultiple(0x1000000000000000000000000000000000000000000000000000000000000, G240)
    ensures IsMultiple(0x2000000000000000000000000000000000000000000000000000000000000, G241)
    ensures IsMultiple(0x3000000000000000000000000000000000000000000000000000000000000, M30_3)
    ensures IsMultiple(0x4000000000000000000000000000000000000000000000000000000000000, G242)
    ensures IsMultiple(0x5000000000000000000000000000000000000000000000000000000000000, M30_5)
    ensures IsMultiple(0x6000000000000000000000000000000000000000000000000000000000000, M30_6)
    ensures IsMultiple(0x7000000000000000000000000000000000000000000000000000000000000, M30_7)
    ensures IsMultiple(0x8000000000000000000000000000000000000000000000000000000000000, G243)
  {
    hide Fermat, IsMultiple;
    Powers240();
    Powers246();
    Added(0x1000000000000000000000000000000000000000000000000000000000000, G240, 0x2000000000000000000000000000000000000000000000000000000000000, G241, M30_3,
          0x476ebe0ed7c95666c0fe4d3fdc0f7b634bb457848cb456e5d04c9bf9ab7fdd1c,
          0x1f0d9c02731386d53f572331100ff7cee8defe34538910b79280e7f76de8f9ee39742aa66de3c4f3b85a46ad8c112664f3435e453dcf68ab733dcf0499df3e56bdca544b4a718418c921e49561594380ac558a4156a8bfbf192738dda4fee1113feed8722310f93c37edb570d736f52daf673a313572be986b8401aa42dd6c,
          -0xf90b2be39bacfc1cfda8616ecdc982e8e6b609ccbfb438bb664a7fbd01df994,
          -0x605691a91124070d027012699688d22822aafdfb521e2497ebf16ddc4eff7936);
    Added(0x1000000000000000000000000000000000000000000000000000000000000, G240, 0x4000000000000000000000000000000000000000000000000000000000000, G242, M30_5,
          0x63a2f4fe671685ff80f1642d3fdf41f909dfd2ca1b3b350a7375b939014d084d,
          0x97bf1b2be78c1061433d79a366bc19d40f7ff19af41f64e6142fb8f31253aeed6ad6ae627f74bce533a3d1966f6733fa80e359a818bd15f9629b36bc2ad003edcfab1f24914fb2eaa538a1c16494ef797016e46e447709d2d94878a6b134b6d435f35abc056efda11e0faee3b35fd3a5e112d5a3d00ded007924afddcfb547,
          -0x18f4df6c9f68d6447aeb844020e9d7dcd143e02794ab5103c70c0016d8e6311c,
          -0x852f8b2a7e8a4677c3128e7e181667c67f16995498f5279a8e7dd3f53130df73);
    Added(0x2000000000000000000000000000000000000000000000000000000000000, G241, 0x4000000000000000000000000000000000000000000000000000000000000, G242, M30_6,
          0x53c0bd054acadd94a3dcda5a5f3b9419f74358ad7af57c71caa25dd595bd04c6,
          0x28069b2fbc5a3603a8c7aad45e6376deeb92cf124af5ac6fa2cf550c01d8c38ce7f0ca498b8f5668f1c5a32c49628e48d9fb012bc42afab6b10f5a27303ff7a156dd3df7e9fc8f78c3e8253689773e4f4a94b722414b28591d485c3f5548a4809b90448f2c3bdcac4b8f170e17d16189038025529ec09a9b18e9983be06236,
          -0x148b40eeec3de4127e097f2a6489ad7bf8a13926c819031f57a560c7239f0f9b,
          -0x5dc10fe3206d8588690fcbbb88ba5a1da56447676d28fab32d783c71f3b2e46f);
    Added(0x3000000000000000000000000000000000000000000000000000000000000, M30_3, 0x4000000000000000000000000000000000000000000000000000000000000, G242, M30_7,
          0x7a09b564935d485d86656c5afc2fbde17fe1652909d26fae0a23c3b70eb29ea0,
          0x62fb7ef599fa5c5348b05dd3b6eaf824f8247b74ccf673448008d8b26bace5778192e8bc0e62c5023babf535f6177e0fe79391c4ff00efde366abe832e0266e5d64803cbbadaa89566b1853c491fe892084a16d3a67ade581964bd2683cf1877c55d98590203511c142f36d5236847f10b1e0e243f9b9f5555369361541260,
          0x31a94684abf1844ac04271d045c4f07da3eab4bbbcc420cfef9d9c71f27666e6,
          -0x760621562aa233239adc17883b3e974ba59426e579254856bde5f2dd36cad18d);
  }

  const ROWS30: seq<seq<byte>> := [
    Row(0x2c709e6c1c10a5d69aab1244d99f2055b25dbcf49cbecb3c51f048478f387475,
        0x7deb10149c72610fdafc778abfd413144b5279ffebca8a2ce1b7f29362730383,
        0x8e68e9ff62ce2ea588001380f0be4b566cbec045553cd0ecb62af6a8766ee7a),
    Row(0x2f1f3f87eeba3b09a25c3d98500a89be8d38db493d0bd49c34ad500a4bc130ad,
        0x4cb13bd738f719f54a8f342673766cb9acb9218dc55923df2f2d09d50ab8f2f9,
        0x19a1e353c0ae2ee8c20d313f3f751b50a59501badb4a9038f7848c75e515b64a),
    Row(0x41546b11c20c3486e3529718c0d66473b3e1a0a0c6e55e617d1c7560bafa05c3,
        0x736bd3990266ae349fb15347b44109b593e0454398eefc40b42172cdd596bdbd,
        0x412295a2b87fab5ccc5f5f30425c837546fd114b6081657385532d509334b3b4),
    Row(0x14e153ebb52d2e345cee3213b30ad2735393cb266df8c82519c99b88f57ed6e9,
        0x760bb8d195add80460975cb7900996b845a92032133acdb2e655261e293eac6,
        0x6b34be9bc33ac5f22cbf268f46caccb157156da9ed69a084413e1a17cde6818a),
    Row(0x2012c18f0922dd2dec7d1c5e49c1b5a34c3e971ef22e027cf3df2f643a78c0b2,
        0x1b9c7b62e6dd30be33ae7a2d4fe5035c6c9e845530e737a11fc69656571f2d3,
        0x8af5b784e4bade83d36efdfc2e76c1f1483241f45a0a763880b55e55ac89d29),
    Row(0x32b79d71163a168d897addfb673441f49d0525da779323b6283499dc881f2533,
        0x6423c1d5afd9826e18d528d6fa3364ce4be4bd11a287178de27314d289cc2c4b,
        0x480a5efbc13e2dcce49de338f9e5d3cd22bcc28f3746e5f9cc85f8d9edfcb36a),
    Row(0x47aa27600cb7bf312c6bb061ef5aabcd06b505cf8b1dafc50b51e70b01622071,
        0x24b31d47691c8e06663fb4a4dc1cbe036e199dcc4c053928b6614ce442ce221f,
        0x545b585d14dda094f0af66134ea278d611a4fe7e7c693f7c2a541eedc015f8c3),
    Row(0xf62f9c332ba54544289134cd479e72eade68e34089beebe67bf275ea0d43a0f,
        0x4d22dc3e64c8d0710b0ccffd5b99bd9e3baa637a28ff1e956204e4d0e3b321e1,
        0x1c0fa01a36371436febac2d2953afa055cae6a3f57cbcf61fcb46589d63b5f39)
  ]

  lemma Rows30_1()
    requires Fermat()
    ensures |ROWS30| == 8
    ensures IsRow(ROWS30[0], Mult(0x1000000000000000000000000000000000000000000000000000000000000, BASE), Factor(30))
    ensures IsRow(ROWS30[1], Mult(0x2000000000000000000000000000000000000000000000000000000000000, BASE), Factor(30))
    ensures IsRow(ROWS30[2], Mult(0x3000000000000000000000000000000000000000000000000000000000000, BASE), Factor(30))
    ensures IsRow(ROWS30[3], Mult(0x4000000000000000000000000000000000000000000000000000000000000, BASE), Factor(30))
  {
    hide Fermat, IsMultiple, IsRow, Row, Mult;
    Points30();
    RowIs(0x1000000000000000000000000000000000000000000000000000000000000, G240, Factor(30),
          0x2c709e6c1c10a5d69aab1244d99f2055b25dbcf49cbecb3c51f048478f387475,
          0x7deb10149c72610fdafc778abfd413144b5279ffebca8a2ce1b7f29362730383,
          0x8e68e9ff62ce2ea588001380f0be4b566cbec045553cd0ecb62af6a8766ee7a,
          0x0, 0x0,
          -0x115ed1f21b7484868238905acc1001f9ca051d510974ae51d6df45b9f043a0218dc03be83393a089aa60dd42380b3ab7b402b6fee3c72ea5e85636a2e8903196);
    RowIs(0x2000000000000000000000000000000000000000000000000000000000000, G241, Factor(30),
          0x2f1f3f87eeba3b09a25c3d98500a89be8d38db493d0bd49c34ad500a4bc130ad,
          0x4cb13bd738f719f54a8f342673766cb9acb9218dc55923df2f2d09d50ab8f2f9,
          0x19a1e353c0ae2ee8c20d313f3f751b50a59501badb4a9038f7848c75e515b64a,
          0x0, 0x0,
          -0x494ed46fe803546a89b76b2b30d9562575c33432e32a1ab198fe552fd81ea1c15f0e416e68cad6fc41137fd9e7bc55d8db8a27cedf92468a082962ef721926a);
    RowIs(0x3000000000000000000000000000000000000000000000000000000000000, M30_3, Factor(30),
          0x41546b11c20c3486e3529718c0d66473b3e1a0a0c6e55e617d1c7560bafa05c3,
          0x736bd3990266ae349fb15347b44109b593e0454398eefc40b42172cdd596bdbd,
          0x412295a2b87fab5ccc5f5f30425c837546fd114b6081657385532d509334b3b4,
          0x0, 0x0,
          -0xb549b56a0f4d28763960e2c034d0353212705754beb64bb9c6f39bbbf8835ee51e4071b6512e3777e978d79258a843a83afc650d356bb53b714d5c7bbe6be7c);
    RowIs(0x4000000000000000000000000000000000000000000000000000000000000, G242, Factor(30),
          0x14e153ebb52d2e345cee3213b30ad2735393cb266df8c82519c99b88f57ed6e9,
          0x760bb8d195add80460975cb7900996b845a92032133acdb2e655261e293eac6,
          0x6b34be9bc33ac5f22cbf268f46caccb157156da9ed69a084413e1a17cde6818a,
          0x0, -0x1,
          -0x1663b46d8bad47a38d73350ccb401fd49c0a4905bfd98765a1d0ac1ac3f7809eb62c3247058a75de81564fe83bf1530dcfeef46ca7aedf2f0f64a70d2d58f2c2);
  }

  lemma Rows30_5()
    requires Fermat()
    ensures |ROWS30| == 8
    ensures IsRow(ROWS30[4], Mult(0x5000000000000000000000000000000000000000000000000000000000000, BASE), Factor(30))
    ensures IsRow(ROWS30[5], Mult(0x6000000000000000000000000000000000000000000000000000000000000, BASE), Factor(30))
    ensures IsRow(ROWS30[6], Mult(0x7000000000000000000000000000000000000000000000000000000000000, BASE), Factor(30))
    ensures IsRow(ROWS30[7], Mult(0x8000000000000000000000000000000000000000000000000000000000000, BASE), Factor(30))
  {
    hide Fermat, IsMultiple, IsRow, Row, Mult;
    Points30();
    RowIs(0x5000000000000000000000000000000000000000000000000000000000000, M30_5, Factor(30),
          0x2012c18f0922dd2dec7d1c5e49c1b5a34c3e971ef22e027cf3df2f643a78c0b2,
          0x1b9c7b62e6dd30be33ae7a2d4fe5035c6c9e845530e737a11fc69656571f2d3,
          0x8af5b784e4bade83d36efdfc2e76c1f1483241f45a0a763880b55e55ac89d29,
          0x0, -0x1,
          -0x13c5c8a644d342c68f5fc2de2f80896a5a724eda19558625170559d23bfd24ecc0d34cbb81e1caa08bc41d28859d954c1ccfd5958a7997025d6ba703eefbcb95);
    RowIs(0x6000000000000000000000000000000000000000000000000000000000000, M30_6, Factor(30),
          0x32b79d71163a168d897addfb673441f49d0525da779323b6283499dc881f2533,
          0x6423c1d5afd9826e18d528d6fa3364ce4be4bd11a287178de27314d289cc2c4b,
          0x480a5efbc13e2dcce49de338f9e5d3cd22bcc28f3746e5f9cc85f8d9edfcb36a,
          0x0, 0x0,
          -0x9548c747af8c0c2f821d4107222a591c3f4a2629e63ce23824c79faf88223f931d945e7dbb39de8540d370c893351ebe008869870a4afed99149e0056afa1c6);
    RowIs(0x7000000000000000000000000000000000000000000000000000000000000, M30_7, Factor(30),
          0x47aa27600cb7bf312c6bb061ef5aabcd06b505cf8b1dafc50b51e70b01622071,
          0x24b31d47691c8e06663fb4a4dc1cbe036e199dcc4c053928b6614ce442ce221f,
          0x545b585d14dda094f0af66134ea278d611a4fe7e7c693f7c2a541eedc015f8c3,
          0x1, -0x1,
          -0x1df979e53f971c3c05d07d5afe6e3bc48a9ab15872cb2d7d861985c4b7131e1194081801e7f76c135cd96fcd8c436c8121cc89b56f617d044621a5f78b4b3851);
    RowIs(0x8000000000000000000000000000000000000000000000000000000000000, G243, Factor(30),
          0xf62f9c332ba54544289134cd479e72eade68e34089beebe67bf275ea0d43a0f,
          0x4d22dc3e64c8d0710b0ccffd5b99bd9e3baa637a28ff1e956204e4d0e3b321e1,
          0x1c0fa01a36371436febac2d2953afa055cae6a3f57cbcf61fcb46589d63b5f39,
          0x0, 0x0,
          -0x726523653e806637892bb0fe33a6f923667663431422134f431732c5a0f6c60df23ba8d3774064f8da1c798d49be2033ae276b6340d1634fd59a6a48bb0f293);
  }

  lemma Power30()
    ensures Pow(256, 30) == 0x1000000000000000000000000000000000000000000000000000000000000
  {
    Power29();
    assert Pow(256, 30) == 256 * Pow(256, 29);
  }

  const TABLE30: seq<seq<byte>> := TABLE29 + ROWS30

  lemma Table30()
    requires Fermat()
    ensures AreRows(TABLE30, 31)
  {
    hide Fermat, IsRow, Row, Mult, Pow, Factor, IsBlock, AreRows, ROWS30, TABLE29;
    Rows30_1();
    Rows30_5();
    Power30();
    Together(ROWS30, 30, 0x1000000000000000000000000000000000000000000000000000000000000);
    Table29();
    MoreRows(TABLE29, 30, ROWS30);
  }

  const M31_3: Point := Point(0x633198a5af64eb253d99ab970c5962bdd15e0aea2cc5bc27439b720f2c76158f,
                          0x888e9e9da049e768f20844740c28268f1ec273d0307cbbc4dc40de64a7b0c18)
  const M31_5: Point := Point(0x1deb18e4d05b2cdded11b25b88d03907396596ecdafe8685c8a5cd31fd1e41bf,
                          0x4ac1d5c8cb78e44196a3f4bb6a0a807210348f2159fe69903a820912f604fd5f)
  const M31_6: Point := Point(0x1e0990d03bcf64411334692cffd1efcdfd0c997e8fb4ad4a938086057c2be1f3,
                          0xea9350f1881f5ea52c029b67d6284268ca29987345caa15f4aa45e680d6459d)
  const M31_7: Point := Point(0x1cb7a40c1d8d48c456fd58d2486de95c65763a1ea5574c60f22bd3fb9791b943,
                          0x2835019689be911d2041a2a561ccecc3137a695249acce48383edbaec67ef776)

  lemma Points31()
    requires Fermat()
    ensures IsMultiple(0x100000000000000000000000000000000000000000000000000000000000000, G248)
    ensures IsMultiple(0x200000000000000000000000000000000000000000000000000000000000000, G249)
    ensures IsMultiple(0x300000000000000000000000000000000000000000000000000000000000000, M31_3)
    ensures IsMultiple(0x400000000000000000000000000000000000000000000000000000000000000, G250)
    ensures IsMultiple(0x500000000000000000000000000000000000000000000000000000000000000, M31_5)
    ensures IsMultiple(0x600000000000000000000000000000000000000000000000000000000000000, M31_6)
    ensures IsMultiple(0x700000000000000000000000000000000000000000000000000000000000000, M31_7)
    ensures IsMultiple(0x800000000000000000000000000000000000000000000000000000000000000, G251)
  {
    hide Fermat, IsMultiple;
    Powers252();
    Added(0x100000000000000000000000000000000000000000000000000000000000000, G248, 0x200000000000000000000000000000000000000000000000000000000000000, G249, M31_3,
          0x37e9dc4b3673f24334039995051784bf295706edb89e91713d66ee601e5d41cd,
          0xbd73968f7a9087105ccf55280980581579443ef4ee0990f8f340338ad62fb9e8f5c6ad8a5e5242aeca18eb02267df8dba49a8f94840937c615af8f3c287dcd780f368de690247b2e1ea02a2280b3da5c5ceb283efa38e5e656c069598b3715fc8521e073ee2e91b638b415b945fd774930a6b278a48a1fa60ac0a8d4445159,
          -0x226e00fe822f18991c806d7bf30b5b8cdb95f1dfbe569fff2dcf42210bb88b8b,
          -0x58795f3cc15e7181762b35785b18a4476a7d7268aaa36a1e8b5754bdbcd6fecf);
    Added(0x100000000000000000000000000000000000000000000000000000000000000, G248, 0x400000000000000000000000000000000000000000000000000000000000000, G250, M31_5,
          0x50cb7a778120f04e8f42105c4524693fa871dfda92737319d497a2ab8489ecbd,
          0x7633fa71f9a57f194d53249508c8d78feef605c0dcd18b6a57a1fbf3fde362f466a7b5e6553d148cd9a4a4b931bcd734ed4b0de9ae34b3a7a43ba9029b9f2dce5d08bcb732a002648849ba8c33bf6577250617bebc02f30588785b512145f562e0c65e2b345840ddf4fbe4858a9980447c3a5cf6f6a737543113cb5c80b87,
          0x54d38d1b6e25b2fbab63e7db1fc87896656faa17b489b9638a9fdc5c9d5be9f,
          -0x3cf970178d44f80d8ec8e4099d57213d714787c8f446ff63347166267af2a2b6);
    Added(0x200000000000000000000000000000000000000000000000000000000000000, G249, 0x400000000000000000000000000000000000000000000000000000000000000, G250, M31_6,
          0x105cfb30e75fb8bce407ca040810352fd86527bbeb35db215cb8bc0ed1d75b8a,
          0x1b51494b33969fe93a16c5ec5c9aae18cf3e8864bf3dd16f965e9c4d01b988cb6be9396cc3a26464e1ee2ba230329d7a4dbf7169c2919669efb9130bbd89d7827a740a07e11541854e20918994cbf2ce6375a894fdc1151be66dea9cb9761fd18b2cda53c4740252dd690a12d3b5fd5dca610ef35870b6a35c5e26f4d8c32,
          -0x381f701b77793212f89aef363c69a36fd9b4e2f96ceb8660896dbbf7a38de3e,
          -0x9f790957f0886872a2d03b98710de193c869458f0ae9e06208ce9c936d96b7a);
    Added(0x300000000000000000000000000000000000000000000000000000000000000, M31_3, 0x400000000000000000000000000000000000000000000000000000000000000, G250, M31_7,
          0x346095dd289b238e9e5b06e3737a0b3d2b9d3eb6330e8e99539e296f9df29ae7,
          0xaedb47214a5f74a479cbeaf3af5e0b09be6513777e521c2b5a72456f10ed631d9f23b8dd58b1f4d3e52996103412c335e5dfa1c42a75bb60e8362a2a3f25c4674789743d0a27ae1818da53aef6bf86d82850c8056996a2979ebd585e54be78164f37d86e1c87cbf6f8ad0aae5d09f8f646289918efe5871b85cb2e38053d,
          0x37b8d7f1786235cc425d49fa7e856594c89b2c22d1f7b2167fe5254ef3e3155,
          -0x178a1bebeecfe701d2877ed36a9ad143c5d9c6ccbade5cf7b0203009a57cef28);
  }

  const ROWS31: seq<seq<byte>> := [
    Row(0xfa3614f3b1ca6bf5d254ff397808678bc8cbece44cfb3a0d2c604b622943dff,
        0x4005419b1d2bc1406fb73e54c4dfb634f9c9a035c1dac5b669082b0e8c936a50,
        0x1fba218aef40ab42f8499f911954fa8e2089c1af3a44ac90a003febdb9be82f0),
    Row(0x392e3acaa8c86e4274fd6c7d6c2b5e0181f6e89a7ba63741ab549448fac8f53e,
        0x6c535d13ff7761d5c839c6ab99dcdef1a81d3eee08daaf7f4f3e57043e7b0194,
        0x25e17fe4d50ac13b19319c76f29ab0ab2e0781445887e8164cbd34e93e8a35af),
    Row(0x255751442a9fb3515186d8b034691fab208e1c52d6420f950a289bd71e04f676,
        0x6bba828f8969899bccba2fde4d1be526c34a32272fcd87e3915f7ff576f121a7,
        0x559d504f7f6b7be4971d6914af8460d44cb54a18a0997ad5e2d1bc6690fe3901),
    Row(0x1ab12d5807e32170a26cf62f92800ba1d69d366a5553c7ca7738378b3eb54d5,
        0x123ea6a3354bd50e88388f1d6061e23b0744a19b0307781b9c4891e7f6d266fd,
        0x4a3961e2c918a1541eab4271d83245d9b9ede3c2d8315848118d189041e32d96),
    Row(0x2cd6bce3fb1db763a992425fe13a476ad6cef8347effe30a71dc3be0f8e6bba0,
        0x68aceead9bd4111f83b5a716f2dab979499a260e34fcf0160327d644f3233f1e,
        0x595760d5b508f5973860d9f1b7e73e23308e6e24b7ad040c38b4c90ef3d7c210),
    Row(0x709fa43edcb291a93f8bc0897d9094588f960008a4a7fccb6129bfe104aa6397,
        0x2cb2c5df54515a2b65f492e37d3473f489af3305c4115760882acbebfd022790,
        0x70f029ecf0c8131f2723f36ef8cbb03ad22bc1662e694effeb0a5d8c63fd2aca),
    Row(0xb7d5d8a6c314858c94449d3195f0366ae042f33a45581e7461307b32eed3e33,
        0x44eca5a2a74bd9e1773efb77aa3ad61f78f0a370ef041aa92a6aafaa5e10b0b9,
        0x272224512c7de9e4de1c531c60e1c52b70d38300a3340f1d25d448327b95d543),
    Row(0x11b5df18a44cc543efa28c8dfcc84e29ffeed811b2e6fad01abc92af49c5342e,
        0x19735fd7f6bc20a6e27fc76fcdedaa488c5c397796ada358bf7bbb8a42a975fc,
        0xfef911191df895f2503a1d065a497b9eb848e0f7f19547ee3ab90d042c84266)
  ]

  lemma Rows31_1()
    requires Fermat()
    ensures |ROWS31| == 8
    ensures IsRow(ROWS31[0], Mult(0x100000000000000000000000000000000000000000000000000000000000000, BASE), Factor(31))
    ensures IsRow(ROWS31[1], Mult(0x200000000000000000000000000000000000000000000000000000000000000, BASE), Factor(31))
    ensures IsRow(ROWS31[2], Mult(0x300000000000000000000000000000000000000000000000000000000000000, BASE), Factor(31))
    ensures IsRow(ROWS31[3], Mult(0x400000000000000000000000000000000000000000000000000000000000000, BASE), Factor(31))
  {
    hide Fermat, IsMultiple, IsRow, Row, Mult;
    Points31();
    RowIs(0x100000000000000000000000000000000000000000000000000000000000000, G248, Factor(31),
          0xfa3614f3b1ca6bf5d254ff397808678bc8cbece44cfb3a0d2c604b622943dff,
          0x4005419b1d2bc1406fb73e54c4dfb634f9c9a035c1dac5b669082b0e8c936a50,
          0x1fba218aef40ab42f8499f911954fa8e2089c1af3a44ac90a003febdb9be82f0,
          0x0, -0x1,
          -0x2dd61b486eabab259368a400ac82a921c7e35eaea26ac7896ba6438010278952887036b1800c81b05c630025539913c2ae0a07ddec591092420ded2a877f2f4c);
    RowIs(0x200000000000000000000000000000000000000000000000000000000000000, G249, Factor(31),
          0x392e3acaa8c86e4274fd6c7d6c2b5e0181f6e89a7ba63741ab549448fac8f53e,
          0x6c535d13ff7761d5c839c6ab99dcdef1a81d3eee08daaf7f4f3e57043e7b0194,
          0x25e17fe4d50ac13b19319c76f29ab0ab2e0781445887e8164cbd34e93e8a35af,
          0x0, 0x0,
          -0xa97d4e6ce4cc962797af1394e7749fe7417300a45c2058339e244e8ea5cbddb5eeaa01a38197bec1d28407179cc794c08a8718b14464dc29fed00968108570f);
    RowIs(0x300000000000000000000000000000000000000000000000000000000000000, M31_3, Factor(31),
          0x255751442a9fb3515186d8b034691fab208e1c52d6420f950a289bd71e04f676,
          0x6bba828f8969899bccba2fde4d1be526c34a32272fcd87e3915f7ff576f121a7,
          0x559d504f7f6b7be4971d6914af8460d44cb54a18a0997ad5e2d1bc6690fe3901,
          0x1, 0x0,
          -0x43ce24f76cd264fe72488069cabfb58d770e63d712e2b43491dbd5f937629def174d92f17108cf1d35123033dc14f42ab143a4c864ad9be0fdcdf018d28234b);
    RowIs(0x400000000000000000000000000000000000000000000000000000000000000, G250, Factor(31),
          0x1ab12d5807e32170a26cf62f92800ba1d69d366a5553c7ca7738378b3eb54d5,
          0x123ea6a3354bd50e88388f1d6061e23b0744a19b0307781b9c4891e7f6d266fd,
          0x4a3961e2c918a1541eab4271d83245d9b9ede3c2d8315848118d189041e32d96,
          0x0, 0x0,
          -0x69bf8f2458b9d2230bacb7dff7da9102d483ca70f102cddf81bdd28273c25e0f081612db657264c097c3f794dc6031074f8838a1ad9aae24ad5c5be36410ea);
  }

  lemma Rows31_5()
    requires Fermat()
    ensures |ROWS31| == 8
    ensures IsRow(ROWS31[4], Mult(0x500000000000000000000000000000000000000000000000000000000000000, BASE), Factor(31))
    ensures IsRow(ROWS31[5], Mult(0x600000000000000000000000000000000000000000000000000000000000000, BASE), Factor(31))
    ensures IsRow(ROWS31[6], Mult(0x700000000000000000000000000000000000000000000000000000000000000, BASE), Factor(31))
    ensures IsRow(ROWS31[7], Mult(0x800000000000000000000000000000000000000000000000000000000000000, BASE), Factor(31))
  {
    hide Fermat, IsMultiple, IsRow, Row, Mult;
    Points31();
    RowIs(0x500000000000000000000000000000000000000000000000000000000000000, M31_5, Factor(31),
          0x2cd6bce3fb1db763a992425fe13a476ad6cef8347effe30a71dc3be0f8e6bba0,
          0x68aceead9bd4111f83b5a716f2dab979499a260e34fcf0160327d644f3233f1e,
          0x595760d5b508f5973860d9f1b7e73e23308e6e24b7ad040c38b4c90ef3d7c210,
          0x0, 0x0,
          -0xb3220207b16e8aa9f45a1744cc8fd2ddb39d9d9a516dbabf5aa1a01003f71e318fc99d629e2807b33264b61a70e3cdc17643120a9ff1e627aa44f05c817838e);
    RowIs(0x600000000000000000000000000000000000000000000000000000000000000, M31_6, Factor(31),
          0x709fa43edcb291a93f8bc0897d9094588f960008a4a7fccb6129bfe104aa6397,
          0x2cb2c5df54515a2b65f492e37d3473f489af3305c4115760882acbebfd022790,
          0x70f029ecf0c8131f2723f36ef8cbb03ad22bc1662e694effeb0a5d8c63fd2aca,
          0x1, 0x0,
          -0x2345328e977d864fb22008d88e5236fff1f3830b160d98054c0d035b5202ec13fd8ca8e623cb3c8d44b3ee327102a34a4046bd38222183a46cef9f7f919a0a0);
    RowIs(0x700000000000000000000000000000000000000000000000000000000000000, M31_7, Factor(31),
          0xb7d5d8a6c314858c94449d3195f0366ae042f33a45581e7461307b32eed3e33,
          0x44eca5a2a74bd9e1773efb77aa3ad61f78f0a370ef041aa92a6aafaa5e10b0b9,
          0x272224512c7de9e4de1c531c60e1c52b70d38300a3340f1d25d448327b95d543,
          0x0, 0x0,
          -0x5c79fb522420ab7c3db558d4b35d2c95bbd2403e73d565dab5392162d57d37ffed01bb1d822a07ce27339a1443ae9d7b0cb1c6fbcdc03671cdaa2e208ebf78d);
    RowIs(0x800000000000000000000000000000000000000000000000000000000000000, G251, Factor(31),
          0x11b5df18a44cc543efa28c8dfcc84e29ffeed811b2e6fad01abc92af49c5342e,
          0x19735fd7f6bc20a6e27fc76fcdedaa488c5c397796ada358bf7bbb8a42a975fc,
          0xfef911191df895f2503a1d065a497b9eb848e0f7f19547ee3ab90d042c84266,
          0x0, 0x0,
          -0x6b06d66ec01995302dcd75a1eeecb164916b133723bb79bcce6b9f51a0aea47f5e1c9f65275a9a2e311796920c615a7e29a40994911057963fce3b88b94bbc);
  }

  lemma Power31()
    ensures Pow(256, 31) == 0x100000000000000000000000000000000000000000000000000000000000000
  {
    Power30();
    assert Pow(256, 31) == 256 * Pow(256, 30);
  }

  const TABLE31: seq<seq<byte>> := TABLE30 + ROWS31

  lemma Table31()
    requires Fermat()
    ensures AreRows(TABLE31, 32)
  {
    hide Fermat, IsRow, Row, Mult, Pow, Factor, IsBlock, AreRows, ROWS31, TABLE30;
    Rows31_1();
    Rows31_5();
    Power31();
    Together(ROWS31, 31, 0x100000000000000000000000000000000000000000000000000000000000000);
    Table30();
    MoreRows(TABLE30, 31, ROWS31);
  }

  const BASE_TABLE: seq<seq<byte>> := TABLE31

  /** All 256 rows. */
  lemma BaseTableIs()
    requires Fermat()
    ensures IsBaseTable(BASE_TABLE, BASE)
  {
    hide Fermat, IsRow, Row, Mult, Pow, Factor, AreRows, IsBaseTable, TABLE31;
    Table31();
    AllRows(TABLE31);
  }
}
