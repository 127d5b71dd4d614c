/** The table of odd multiples for the sliding window (ge25519_niels_sliding_multiples), entry by entry. */
module SlidingTable {
  import opened PrimeField
  import opened Field
  import opened Edwards
  import opened Points
  import opened ScalarMult
  import opened BasePoint
  import opened BasePowers
  import opened TableSteps

  const ODD0: Point := Point(0x216936d3cd6e53fec0a4e231fdd6dc5c692cc7609525a7b2c9562d608f25d51a,
                          0x6666666666666666666666666666666666666666666666666666666666666658)
  const ODD1: Point := Point(0x67ae9c4a22928f491ff4ae743edac83a6343981981624886ac62485fd3f8e25c,
                          0x1267b1d177ee69aba126a18e60269ef79f16ec176724030402c3684878f5b4d4)
  const ODD2: Point := Point(0x49fda73eade3587bfcef7cf7d12da5de5c2819f93e1be1a591409cc0322ef233,
                          0x5f4825b298feae6fe02c6e148992466631282eca89430b5d10d21f83d676c8ed)
  const ODD3: Point := Point(0x14568685fcf4bd4ee9e3ee194b1d810783e809f3bbf1ce955855981af50e4107,
                          0x31c563e32b47d52f87ce6468dd36ad41f0882b46f7abf23d12c4c4b59f4062b8)
  const ODD4: Point := Point(0x357cc970c80071651bf336e06f9422b886d80e5c2e4e0294d3e023065185715c,
                          0x7f3d23c2c2dd0df4b2befce956f2d2fd1f789013236e4430c74e44845522f1c0)
  const ODD5: Point := Point(0x14e528b1154be417b6cf078dd6712438d381a5b2c593d552ff2fd2c1207cf3cb,
                          0x2d9082313f21ab975a6f7ce340ff0fce1258591c3c9c58d4308f2dc36a033713)
  const ODD6: Point := Point(0x107427e0d5f366ccdb33adf0282d304f8843e3e88d22b7b83780e073b7c05fed,
                          0x12dbb00ded538b7478466022d2da89b83740cfb2289a272387efe1aeea401f80)
  const ODD7: Point := Point(0x4f162deaec2ec435dc5ac6f95d20419ed9631374770189cb90617f3e66a18dc1,
                          0x12cbfb2d04ff22f55162f70164d29331ace5af18a19a9aa1946d4cc4ad2e5cdf)
  const ODD8: Point := Point(0x7dc52d5a7db816e9b850741ea2fd72918d94985b85a20b4dc5597853a876df6a,
                          0x6f6d2bca60003ef9f24ac245cc919fb717b188723b34f901cd6cfe9bec97be04)
  const ODD9: Point := Point(0x1d81f74a5ba45c7022e8c140d763b9c1b0e281a5304696e74f791a3a04a94472,
                          0x3f185a93d95a4347227c5bb6ddd65cf42e1830823f435f3083fe6102691d55b9)
  const ODD10: Point := Point(0x6f0ac78e5eb90e87958588f9d47541edf252cb1dde3d073cc45e3e7ef9365716,
                          0x6628d116b7975ae5f323e5ddf4f8cc35ae06d5c5c7d8a56effc66051336d289e)
  const ODD11: Point := Point(0x2188ac423c67db5625915e05222a391bcaf91f05d9b7cc2cab5798b2d2e14d95,
                          0x23240c559c57b79a4df69a23fc46e50504277b1fa49369ab663d79782b33c0ee)
  const ODD12: Point := Point(0x794241471ed9ceb009384b370cb8790fca98552ecb822dc06b19362c36353455,
                          0x71e918c03cdfca7207772e8d18ee8f9d92d79a0a83f378912362bc68d311dcd0)
  const ODD13: Point := Point(0x163bc180c22dfc5da23c5c052107bba93a88b4360aa1d4e729611d8f5a7f8079,
                          0x631107a6ba83f7458194b9766a0a54f638ca20daf800384dbae1498677501939)
  const ODD14: Point := Point(0x39a32a30f3eb1da0eb7e3903b8ace3da3890b24b61a3a9e79db663b5db0f7a5d,
                          0x4d4c54675dc1f1c9a1af9ca0010045dc803c16af345823136dd203715d67c491)
  const ODD15: Point := Point(0x38085391a0e2831f59c33fcce7591515784d359925f11ff958e0e4658efac0e9,
                          0x42918001a829f49b5634e34ab7fac21b30e24660669ed91955cc31944a19e62a)
  const ODD16: Point := Point(0x5e3573b049d6135ffbbbbd9a480617434f2455b4a591f719e91153eeb75a32a1,
                          0x54bc665420c789da1105d53983c1a0fc33bcc2690cd9b37d6566e21a85892871)
  const ODD17: Point := Point(0x7ed068b25b82c05fdc0e46bd80a357f3acd2f5c3b9330bc8d474e5b28270f6eb,
                          0x1da83a187da8ccca704d46557a462551d70df7f943a681c3b97b1db6a21b7d3)
  const ODD18: Point := Point(0x5ca3370e7516f6686111b72650aab4c5484407f14b515ade03951c6a14a0aa3,
                          0x6f407fc537b95277966e7f0f5e64b86904bf7baee091cee6011a3611834c6903)
  const ODD19: Point := Point(0x624cb312b698bbd6dbca79b8d2b53cb5d8b3ab33c19306e87c18211f095ab9c3,
                          0x5b3336b2751e97c793731ac9b9a2243b6229f6d0bbea6b619395d0e5200bd8a3)
  const ODD20: Point := Point(0x1ddf6ece608fe2901b34b7e4f47cfcb75e947e293c704d8121b11a31a051b5f9,
                          0x5e2dc58e9a48a749ce5296d229cfb34f96a147a8246d2e9844d52b52112ea94e)
  const ODD21: Point := Point(0x396b384f3d61cfc060308fbb1c941ebc9418e2d9abd81316e08d625f48c0e101,
                          0x7223e5f7b66d1ca24962bac273a7aa6618cc60cb8a64a8837e0261107e7ad644)
  const ODD22: Point := Point(0x53cc3dca3410277fb38d75e4ac0dde8e77a99c817170dbc9696cffe7890fbd50,
                          0x2592a3aafce64d7c69f4de468d5d5aa19845f5ca08f64a0a40e37d23ececbbe1)
  const ODD23: Point := Point(0x34705fe600f5aed77b29d3eacdffcd45d886904156d43dc550bb7fc889cc1368,
                          0x299153c141a8950ffbcc8e9352993e642fa39a476200dd4acf42e158dbe3b01e)
  const ODD24: Point := Point(0x5969255bd089181b991fce96b1792ba330a14f8a0b061f8118c9c336b8504618,
                          0x680a805fa0ae93c2a12b193517fb1147d355547e4ab18a9d6ca21575bbb4d7a4)
  const ODD25: Point := Point(0x27d1d57fa8808d3d452df14bda4248b37902752163b1fd499a92456c59918ecb,
                          0xa42f1c0f4c5d7de9e82904f0b4ff63988d31fedb8aad9d8ae009c7a1dff09c3)
  const ODD26: Point := Point(0x811d14bfdfdcf2144edd9cf55bce584a9ba17aec3eac8aaa82987ad703d9b8a,
                          0x42bea70d46f3ee0df0ec77d24c5495ea56ada2e0415920470c4746b68306376e)
  const ODD27: Point := Point(0x4de090761b863cb0f0650297f154a8e66d00c5119c38e5dd05303d905d527a4a,
                          0x5eef0efd105361ce198a30e09e7e7edffbe3d70189e63ca68cf6057b9772baa8)
  const ODD28: Point := Point(0x1d45517858ce45556aaee056ebab7e0ef3dc9ae3740aed570f3e76bfb4fc4817,
                          0xb5a9d8fe8b7ccb04c0a5ef77798a3ec6e1bc1138604eb05e83844f0d4c5c699)
  const ODD29: Point := Point(0x4285edbe9117f30aae1ef5ee419eb1d472106c6b3d7f3ce3701e39324b0eeafc,
                          0x503aa6104a682bcf2c0a60c84f4c22b50b0caa0fed8db87dedc7173eae04bdbd)
  const ODD30: Point := Point(0x3ef830cbeff9b79039b1b6bd9bb52bbcfa56d008d91b9703ea1c80351f8687d6,
                          0x62349ff5d8dbd216a874769eec152ef9734bea9240eed623992c7553dc8ee4c8)
  const ODD31: Point := Point(0x649a996e6d4d3b60ccb526939ed8929134107e03e2fd4648eaa2fa9830822c1a,
                          0x1648311b942fe95d492a1ace5e5235c1aea860d036d2475cc8964cd1acedee9c)

  const N0: Niels := Niels(
    Fe(0x03905d740913e, 0x0ba2817d673a2, 0x23e2827f4e67c, 0x133d2e0c21a34, 0x44fd2f9298f81),
    Fe(0x493c6f58c3b85, 0x0df7181c325f7, 0x0f50b0b3e4cb7, 0x5329385a44c32, 0x07cf9d3a33d4b),
    Fe(0x11205877aaa68, 0x479955893d579, 0x50d66309b67a0, 0x2d42d0dbee5ee, 0x6f117b689f0c6))
  const N1: Niels := Niels(
    Fe(0x11fe8a4fcd265, 0x7bcb8374faacc, 0x52f5af4ef4d4f, 0x5314098f98d10, 0x2ab91587555bd),
    Fe(0x5b0a84cee9730, 0x61d10c97155e4, 0x4059cc8096a10, 0x47a608da8014f, 0x7a164e1b9a80f),
    Fe(0x6933f0dd0d889, 0x44386bb4c4295, 0x3cb6d3162508c, 0x26368b872a2c6, 0x5a2826af12b9b))
  const N2: Niels := Niels(
    Fe(0x182c3a447d6ba, 0x22964e536eff2, 0x192821f540053, 0x2f9f19e788e5c, 0x154a7e73eb1b5),
    Fe(0x2bc4408a5bb33, 0x078ebdda05442, 0x2ffb112354123, 0x375ee8df5862d, 0x2945ccf146e20),
    Fe(0x3dbf1812a8285, 0x0fa17ba3f9797, 0x6f69cb49c3820, 0x34d5a0db3858d, 0x43aabe696b3bb))
  const N3: Niels := Niels(
    Fe(0x72c9aaa3221b1, 0x267774474f74d, 0x064b0e9b28085, 0x3f04ef53b27c9, 0x1d6edd5d2e531),
    Fe(0x25cd0944ea3bf, 0x75673b81a4d63, 0x150b925d1c0d4, 0x13f38d9294114, 0x461bea69283c9),
    Fe(0x36dc801b8b3a2, 0x0e0a7d4935e30, 0x1deb7cecc0d7d, 0x053a94e20dd2c, 0x7a9fbb1c6a0f9))
  const N4: Niels := Niels(
    Fe(0x6217e039d8064, 0x6dea408337e6d, 0x57ac112628206, 0x647cb65e30473, 0x49c05a51fadc9),
    Fe(0x6678aa6a8632f, 0x5ea3788d8b365, 0x21bd6d6994279, 0x7ace75919e4e3, 0x34b9ed338add7),
    Fe(0x4e8bf9045af1b, 0x514e33a45e0d6, 0x7533c5b8bfe0f, 0x583557b7e14c9, 0x73c172021b008))
  const N5: Niels := Niels(
    Fe(0x75b0249864348, 0x52ee11070262b, 0x237ae54fb5acd, 0x3bfd1d03aaab5, 0x18ab598029d5c),
    Fe(0x700848a802ade, 0x1e04605c4e5f7, 0x5c0d01b9767fb, 0x7d7889f42388b, 0x4275aae2546d8),
    Fe(0x32cc5fd6089e9, 0x426505c949b05, 0x46a18880c7ad2, 0x4a4221888ccda, 0x3dc65522b53df))
  const N6: Niels := Niels(
    Fe(0x7013b327fbf93, 0x1336eeded6a0d, 0x2b565a2bbf3af, 0x253ce89591955, 0x0267882d17602),
    Fe(0x0c222a2007f6d, 0x356b79bdb77ee, 0x41ee81efe12ce, 0x120a9bd07097d, 0x234fd7eec346f),
    Fe(0x0a119732ea378, 0x63bf1ba8e2a6c, 0x69f94cc90df9a, 0x431d1779bfc48, 0x497ba6fdaa097))
  const N7: Niels := Niels(
    Fe(0x3cd86468ccf0b, 0x48553221ac081, 0x6c9464b4e0a6e, 0x75fba84180403, 0x43b5cd4218d05),
    Fe(0x6cc0313cfeaa0, 0x1a313848da499, 0x7cb534219230a, 0x39596dedefd60, 0x61e22917f12de),
    Fe(0x2762f9bd0b516, 0x1c6e7fbddcbb3, 0x75909c3ace2bd, 0x42101972d3ec9, 0x511d61210ae4d))
  const N8: Niels := Niels(
    Fe(0x386484420de87, 0x2d6b25db68102, 0x650b4962873c0, 0x4081cfd271394, 0x71a7fe6fe2482),
    Fe(0x676ef950e9d81, 0x1b81ae089f258, 0x63c4922951883, 0x2f1d54d9b3237, 0x6d325924ddb85),
    Fe(0x182b8a5c8c854, 0x73fcbe5406d8e, 0x5de3430cff451, 0x554b967ac8c41, 0x4746c4b6559ee))
  const N9: Niels := Niels(
    Fe(0x546c864741147, 0x3a1df99092690, 0x1ca8cc9f4d6bb, 0x36b7fc9cd3b03, 0x219663497db5e),
    Fe(0x77b3c6dc69a2b, 0x4edf13ec2fa6e, 0x4e85ad77beac8, 0x7dba2b28e7bda, 0x5c9a51de34fe9),
    Fe(0x0f1cf79f10e67, 0x43ccb0a2b7ea2, 0x05089dfff776a, 0x1dd84e1d38b88, 0x4804503c60822))
  const N10: Niels := Niels(
    Fe(0x021d23a36d175, 0x4fd3373c6476d, 0x20e291eeed02a, 0x62f2ecf2e7210, 0x771e098858de4),
    Fe(0x49ed02ca37fc7, 0x474c2b5957884, 0x5b8388e816683, 0x4b6c454b76be4, 0x553398a516506),
    Fe(0x2f5d278451edf, 0x730b133997342, 0x6965420eb6975, 0x308a3bfa516cf, 0x5a5ed1d68ff5a))
  const N11: Niels := Niels(
    Fe(0x5e0c558527359, 0x3395b73afd75c, 0x072afa4e4b970, 0x62214329e0f6d, 0x019b60135fefd),
    Fe(0x5122afe150e83, 0x4afc966bb0232, 0x1c478833c8268, 0x17839c3fc148f, 0x44acb897d8bf9),
    Fe(0x068145e134b83, 0x1e4860982c3cc, 0x068fb5f13d799, 0x7c9283744547e, 0x150c49fde6ad2))
  const N12: Niels := Niels(
    Fe(0x1863c9cdca868, 0x3770e295a1709, 0x0d85a3720fd13, 0x5e0ff1f71ab06, 0x78a6d7791e05f),
    Fe(0x3f29509471138, 0x729eeb4ca31cf, 0x69c22b575bfbc, 0x4910857bce212, 0x6b2b5a075bb99),
    Fe(0x7704b47a0b976, 0x2ae82e91aab17, 0x50bd6429806cd, 0x68055158fd8ea, 0x725c7ffc4ad55))
  const N13: Niels := Niels(
    Fe(0x02bf71cd098c0, 0x49dabcc6cd230, 0x40a6533f905b2, 0x573efac2eb8a4, 0x4cd54625f855f),
    Fe(0x26715d1cf99b2, 0x2205441a69c88, 0x448427dcd4b54, 0x1d191e88abdc5, 0x794cc9277cb1f),
    Fe(0x6c426c2ac5053, 0x5a65ece4b095e, 0x0c44086f26bb6, 0x7429568197885, 0x7008357b6fcc8))
  const N14: Niels := Niels(
    Fe(0x39fbb82584a34, 0x47a568f257a03, 0x14d88091ead91, 0x2145b18b1ce24, 0x13a92a3669d6d),
    Fe(0x0672738773f01, 0x752bf799f6171, 0x6b4a6dae33323, 0x7b54696ead1dc, 0x06ef7e9851ad0),
    Fe(0x3771cc0577de5, 0x3ca06bb8b9952, 0x00b81c5d50390, 0x43512340780ec, 0x3c296ddf8a2af))
  const N15: Niels := Niels(
    Fe(0x34d2ebb1f2541, 0x0e815b723ff9d, 0x286b416e25443, 0x0bdfe38d1bee8, 0x0a892c7007477),
    Fe(0x515f9d914a713, 0x73191ff2255d5, 0x54f5cc2a4bdef, 0x3dd57fc118bcf, 0x7a99d393490c7),
    Fe(0x2ed2436bda3e8, 0x02afd00f291ea, 0x0be7381dea321, 0x3e952d4b2b193, 0x286762d28302f))
  const N16: Niels := Niels(
    Fe(0x58e2bce2ef5bd, 0x68ce8f78c6f8a, 0x6ee26e39261b2, 0x33d0aa50bcf9d, 0x7686f2a3d6f17),
    Fe(0x036093ce35b25, 0x3b64d7552e9cf, 0x71ee0fe0b8460, 0x69d0660c969e5, 0x32f1da046a9d9),
    Fe(0x512a66d597c6a, 0x0609a70a57551, 0x026c08a3c464c, 0x4531fc8ee39e1, 0x561305f8a9ad2))
  const N17: Niels := Niels(
    Fe(0x2cc28e7b0c0d5, 0x77b60eb8a6ce4, 0x4042985c277a6, 0x636657b46d3eb, 0x030a1aef2c57c),
    Fe(0x4978dec92aed1, 0x069adae7ca201, 0x11ee923290f55, 0x69641898d916c, 0x00aaec53e35d4),
    Fe(0x1f773003ad2aa, 0x005642cc10f76, 0x03b48f82cfca6, 0x2403c10ee4329, 0x20be9c1c24065))
  const N18: Niels := Niels(
    Fe(0x0e44ae2025e60, 0x5f97b9727041c, 0x5683472c0ecec, 0x188882eb1ce7c, 0x69764c545067e),
    Fe(0x387d8249673a6, 0x5bea8dc927c2a, 0x5bd8ed5650ef0, 0x0ef0e3fcd40e1, 0x750ab3361f0ac),
    Fe(0x23283a2f81037, 0x477aff97e23d1, 0x0b8958dbcbb68, 0x0205b97e8add6, 0x54f96b3fb7075))
  const N19: Niels := Niels(
    Fe(0x5afc616b11ecd, 0x39f4aec8f22ef, 0x3b39e1625d92e, 0x5f85bd4508873, 0x78e6839fbe85d),
    Fe(0x5f20429669279, 0x08fafae4941f5, 0x15d83c4eb7688, 0x1cf379eca4146, 0x3d7fe9c52bb75),
    Fe(0x32df737b8856b, 0x0608342f14e06, 0x3967889d74175, 0x1211907fba550, 0x70f268f350088))
  const N20: Niels := Niels(
    Fe(0x4112070dcf355, 0x7dcff9c22e464, 0x54ada60e03325, 0x25cd98eef769a, 0x404e56c039b8c),
    Fe(0x64583b1805f47, 0x22c1baf832cd0, 0x132c01bd4d717, 0x4ecf4c3a75b8f, 0x7c0d345cfad88),
    Fe(0x71f4b8c78338a, 0x62cfc16bc2b23, 0x17cf51280d9aa, 0x3bbae5e20a95a, 0x20d754762aaec))
  const N21: Niels := Niels(
    Fe(0x4feb135b9f543, 0x63bd192ad93ae, 0x44e2ea612cdf7, 0x670f4991583ab, 0x38b8ada8790b4),
    Fe(0x7c36fc73bb758, 0x4a6c797734bd1, 0x0ef248ab3950e, 0x63154c9a53ec8, 0x2b8f1e46f3cee),
    Fe(0x04a9cdf51f95d, 0x5d963fbd596b8, 0x22d9b68ace54a, 0x4a98e8836c599, 0x049aeb32ceba1))
  const N22: Niels := Niels(
    Fe(0x67d3c63dcfe7e, 0x112f0adc81aee, 0x53df04c827165, 0x2fe5b33b430f0, 0x51c665e0c8d62),
    Fe(0x07d0b75fc7931, 0x16f4ce4ba754a, 0x5ace4c03fbe49, 0x27e0ec12a159c, 0x795ee17530f67),
    Fe(0x25b0a52ecbd81, 0x5dc0695fce4a9, 0x3b928c575047d, 0x23bf3512686e5, 0x6cd19bf49dc54))
  const N23: Niels := Niels(
    Fe(0x7619052179ca3, 0x0c16593f0afd0, 0x265c4795c7428, 0x31c40515d5442, 0x7520f3db40b2e),
    Fe(0x6612165afc386, 0x1171aa36203ff, 0x2642ea820a8aa, 0x1f3bb7b313f10, 0x5e01b3a7429e4),
    Fe(0x50be3d39357a1, 0x3ab33d294a7b6, 0x4c479ba59edb3, 0x4c30d184d326f, 0x71092c9ccef3c))
  const N24: Niels := Niels(
    Fe(0x0523f0364918c, 0x687f56d638a7b, 0x20796928ad013, 0x5d38405a54f33, 0x0ea15b03d0257),
    Fe(0x3d8ac74051dcf, 0x10ab6f543d0ad, 0x5d0f3ac0fda90, 0x5ef1d2573e5e4, 0x4173a5bb7137a),
    Fe(0x56e31f0f9218a, 0x5635f88e102f8, 0x2cbc5d969a5b8, 0x533fbc98b347a, 0x5fc565614a4e3))
  const N25: Niels := Niels(
    Fe(0x6570dc46d7ae5, 0x18a9f1b91e26d, 0x436b6183f42ab, 0x550acaa4f8198, 0x62711c414c454),
    Fe(0x2e1e67790988e, 0x1e38b9ae44912, 0x648fbb4075654, 0x28df1d840cd72, 0x3214c7409d466),
    Fe(0x1827406651770, 0x4d144f286c265, 0x17488f0ee9281, 0x19e6cdb5c760c, 0x5bea94073ecb8))
  const N26: Niels := Niels(
    Fe(0x5bf0912c89be4, 0x62fadcaf38c83, 0x25ec196b3ce2c, 0x77655ff4f017b, 0x3aacd5c148f61),
    Fe(0x0ce63f343d2f8, 0x1e0a87d1e368e, 0x045edbc019eea, 0x6979aed28d0d1, 0x4ad0785944f1b),
    Fe(0x63b34c3318301, 0x0e0e62d04d0b1, 0x676a233726701, 0x29e9a042d9769, 0x3aff0cb1d9028))
  const N27: Niels := Niels(
    Fe(0x5c7eb3a20405e, 0x5fdb5aad930f8, 0x4a757e63b8c47, 0x28e9492972456, 0x110e7e86f4cd2),
    Fe(0x6430bf4c53505, 0x264c3e4507244, 0x74c9f19a39270, 0x73f84f799bc47, 0x2ccf9f732bd99),
    Fe(0x0d89ed603f5e4, 0x51e1604018af8, 0x0b8eedc4a2218, 0x51ba98b9384d0, 0x05c557e0b9693))
  const N28: Niels := Niels(
    Fe(0x1ce311fc97e6f, 0x6023f3fb5db1f, 0x7b49775e8fc98, 0x3ad70adbf5045, 0x6e154c178fe98),
    Fe(0x6bbb089c20eb0, 0x6df41fb0b9eee, 0x51087ed87e16f, 0x102db5c9fa731, 0x289fef0841861),
    Fe(0x16336fed69abf, 0x4f066b929f9ec, 0x4e9ff9e6c5b93, 0x18c89bc4bb2ba, 0x6afbf642a95ca))
  const N29: Niels := Niels(
    Fe(0x0de0c62f5d2c1, 0x49601cf734fb5, 0x6b5c38263f0f6, 0x4623ef5b56d06, 0x0db4b851b9503),
    Fe(0x55070f913a8cc, 0x765619eac2bbc, 0x3ab5225f47459, 0x76ced14ab5b48, 0x12c093cedb801),
    Fe(0x47f9308b8190f, 0x414235c621f82, 0x31f5ff41a5a76, 0x6736773aab96d, 0x33aa8799c6635))
  const N30: Niels := Niels(
    Fe(0x7f51ebd085cf2, 0x12cfa67e3f5e1, 0x1800cf1e3d46a, 0x54337615ff0a8, 0x233c6f29e8e21),
    Fe(0x0f588fc156cb1, 0x363414da4f069, 0x7296ad9b68aea, 0x4d3711316ae43, 0x212cd0c1c8d58),
    Fe(0x4d5107f18c781, 0x64a4fd3a51a5e, 0x4f4cd0448bb37, 0x671d38543151e, 0x1db7778911914))
  const N31: Niels := Niels(
    Fe(0x352397c6bc26f, 0x18a7aa0227bbe, 0x5e68cc1ea5f8b, 0x6fe3e3a7a1d5f, 0x31ad97ad26e2a),
    Fe(0x14769dd701ab6, 0x28339f1b4b667, 0x4ab214b8ae37b, 0x25f0aefa0b0fe, 0x7ae2ca8a017d2),
    Fe(0x017ed0920b962, 0x187e33b53b6fd, 0x55829907a1463, 0x641f248e0a792, 0x1ed1fc53a6622))

  const MULTIPLES: seq<Niels> := [
    N0, N1, N2, N3, N4, N5, N6, N7,
    N8, N9, N10, N11, N12, N13, N14, N15,
    N16, N17, N18, N19, N20, N21, N22, N23,
    N24, N25, N26, N27, N28, N29, N30, N31
  ]

  ghost predicate IsEntry(i: nat) {
    i < 32 && IsNiels(MULTIPLES[i], Mult(2 * i + 1, BASE))
  }

  lemma FromEntries()
    requires forall i :: 0 <= i < 32 ==> IsEntry(i)
    ensures IsTable2(MULTIPLES, BASE)
  {
    hide IsNiels, Mult;
    forall i | 0 <= i < 32
      ensures IsNiels(MULTIPLES[i], Mult(2 * i + 1, BASE))
    {
      assert IsEntry(i);
    }
  }

  lemma Odd0()
    requires Fermat()
    ensures IsMultiple(1, ODD0)
  {
    BaseIs();
  }

  lemma Odd4()
    requires Fermat()
    ensures IsMultiple(3, ODD1)
    ensures IsMultiple(5, ODD2)
    ensures IsMultiple(7, ODD3)
    ensures IsMultiple(9, ODD4)
  {
    hide Fermat, IsMultiple;
    Odd0();
    Powers6();
    Added(0x1, ODD0, 0x2, G1, ODD1,
          0x1caa6ffe57fd754e2c30aca032332e9da0891927e376befe3aec73292028d1b5,
          0x3edd5801b1e29dfd8390b3ec00b6649cbbbfdb551e7c84291d770406e94fa4deebe1eaef2342874604063f726ba9730ab710e57b964ec87e43b1adb138f4d07a1f949440390ffdb1b6a798c5720094bb17030957156a123c934aeff886b8ad24fdee95c9e16f13d05d632dab4822b869313cbd075fe7294587cc2d63ec53f7,
          -0x1d7d2376311dae8ffa434e503891f07aac8a62653902a9cca367c70d2f9babda,
          -0x2de4e9dd8a70fed14d3f21b04b50f933269a27270dfc85bbcb2a515b1f1f3364);
    Added(0x3, ODD1, 0x2, G1, ODD2,
          0x56352ef94e6c5b3ce0f226ac0498b5d8d824b02dd771d9ed3d03510355c38399,
          0x23104f10c72d1ad713491f00b4e439527239f15c47de5dfb9e36a8d767ba1040926b295c0bb20168f4142cb0dcbeda5845cb0c18e63a553771121972358fb44e9af0b36e157800dddedb9ad97b8430b03b123387cb81b51517de85ea86e3e3fa5d7a97dc312dff9080557f93cac79bc8c18067e1e1906316b352acb1768583,
          0xe20019ce6f6fdad426a59c13bb5fae5340bf81c889c57935bdbf6bbf851ca02,
          -0x7165e197a9b05830a81b6f8c5b90bc058e597638bc650499b29d9c4d54925184);
    Added(0x5, ODD2, 0x2, G1, ODD3,
          0x3b0caca70d4d282dcd4c8468665f680d842bd525c1593472cf1e234aaf7baadb,
          0x818a5284503bcdfe072a1a51f54928658852a73854f0676ac7963e5c98c5347f45ce539792b268fed6bf26e2694bda7098f9854a09855de7261bbc4e8ba111acb94885e2ef777bb62a4d7c247f708380f45903ac49f0b7c9dc87141a37ff5798b7b8b472028cb8a86dc7675cc5e0e0d74e246dffec0a0f622c2a7f0b616727,
          -0x332f545bf00ab562ee64f359e1c674858813ef4d0dac30d5db9af2c2cbb0a451,
          -0x50271f1395e419f212c38e2b597af7e074b09a6f9ca4babedbf46cf275c4d4eb);
    Added(0x7, ODD3, 0x2, G1, ODD4,
          0x1006b31ae75b0dbfdcac800131eaa6ecf1fb69aadccbe12047aa1d49e416d889,
          0x12997a833db286dd4bfd08e511a99e26a482cdd44a357e89bc1726ca644edc6501927b798b1a191760c03dec050105c233b205b313b4f37a49494fdbaae6e672338e92c6112c6b16c015f98da0305594c96026ad20f0674b1b1aaa587d03fe14edda8db81c82f0b87704ffceb5c526f003ca7a9b29e2145a473dc657334183,
          -0x1405d135d1701299c12f3820cea1f5d54bbea7ae1d4515d22e0e12685abc90f3,
          -0x25fc15526d4b3fd9e585e3cccdaf178c8a19363443f9bf5cbc9f9eefd32d4d02);
  }

  lemma Odd8()
    requires Fermat()
    ensures IsMultiple(11, ODD5)
    ensures IsMultiple(13, ODD6)
    ensures IsMultiple(15, ODD7)
    ensures IsMultiple(17, ODD8)
  {
    hide Fermat, IsMultiple;
    Odd4();
    Powers6();
    Added(0x9, ODD4, 0x2, G1, ODD5,
          0x116a7e9f05a7d8d7b86972f51607fe9848cda21e4fd170da4c8773783ef3fb4c,
          0x7d0d27ebe05a26ca9b000b71141231118e90856b436ab8bdfdb7a8e59d476f7aef966a96ce4555a6ea44d8672be1760dc084aed45ebb63ccfd57a043d17fb907bb4757b19a19f392f7b40c2b4ec716dd358e6a6a565e9bfb027430aaaf8277b4c5b6585b27993adaf33b7fd338e6d1a449e650c291c15e4571d94639da1b04,
          -0x41ddc60a8caf28782464d8395bf4b2564c73db1d7b000b478b8e5dffae3d1bc1,
          -0x3f37c35494f5399599fbd634887fbd5d209bee7c24aeebe0c3730b47e844429d);
    Added(0xb, ODD5, 0x2, G1, ODD6,
          0x571c6fa460a967f170f735bfe25359e0b6ad18317ff98e7c38e53964357a9072,
          0x117e7678e6837f2be9892cb590ff8b5111a1562bc5474cb6d4bd8d2b961c8545a15ec05fcc37fb17cbffc341cea75750d68c887a1d34ae6d83c27caef5d9423958cf95840354a29495dcfa624f59eb9cca01402a4dda69a596c0a2c8a8ac85782d0d7ef1b3f25759b1cbf09eed0a0edd69a3c27a21a9658ec05a5fd6aa9b88,
          -0xddffb740ba695ea5d941cf9e1f81676022f3e55f5a81f3a5ed81a7872269a0e,
          -0x21fefaf137fc878e8a2e6662aee3dec416afe74e163e9e9d16396318aaad00f9);
    Added(0xd, ODD6, 0x2, G1, ODD7,
          0x654b6a6e402abf8afc6ac7b3aff76ab83dc7b7d6184a4db1db4ee888c3c9c4bb,
          0x5b38e35117349a223abcd23075be791746c12e513f51659aa184508f41bfb5abc12b48ea9314bfc29b76d46c57ff21838f15bd9b9c7339aec1fb571a5788a6437a3ae7c53d698dc6e9c33c3ee470c1bb26b4eaf4892984ab5c1825f325b9e65ae09fc33c1fadb732f0796b2178d8179053a660f5cfdce2cb5b1c3f4bfb0b9,
          0x321ce4bf62101ea57a86d2fe6054fa28370583d36863e1db35f1005152484463,
          -0x1af7a873fe6d68cd774a06423a5e345134b7654a0e3d2762754b1621d2bc58ec);
    Added(0xf, ODD7, 0x2, G1, ODD8,
          0x5631274576be5c159879f28b6d9d06cd42b1a747fae626393c3b7b2dfedb0d17,
          0x1b50af93e0cab7fd798fd3b1bf3baedd3aba16052b83bd7de8f91f6090b90ed3ed1ea29a10f4c06b0301156449e3e1460ba895fa1e1f7557f429c0dc33d870202f0ed3c49231d053e4e677dece6c9aa5c178f88fb65f695cf0dc30abaa87311b8f7a7905869d53a6bb0705cf627cb2e0f8d74a71a87a78bd96eb2b371dd64b,
          0x376bdfb8ed04a4cce774962b065d4699f2178bf28dab851f7910c83657657e69,
          -0x71dbaf22aeaef87116557ac6dd86d51cf8afb24ea63269afc9a306e0b992f951);
  }

  lemma Odd12()
    requires Fermat()
    ensures IsMultiple(19, ODD9)
    ensures IsMultiple(21, ODD10)
    ensures IsMultiple(23, ODD11)
    ensures IsMultiple(25, ODD12)
  {
    hide Fermat, IsMultiple;
    Odd8();
    Powers6();
    Added(0x11, ODD8, 0x2, G1, ODD9,
          0x59aded9b2cbbe81165b02a3b4d755295bd16caa0104fc0ade5619928c72e2347,
          0x10180e451f86963ab4d050e8c9a93bd660fe659b0dc82f0525405b9b70c5249b4ad9f41542cbc4da5deba99b9c55b7c7bc9e7c179502b6316655d1d85b741034df3509da4491ce838423bdf1fd35edab3acda8f5423ee0931af3d7949ca13a8394e719cf5023910ec94e0f3147dcacf53ff6423463ca474971b58f2305de8cd,
          -0x3cb2233ea4fa3af94f67b22bca0e5bf4a1f8f627f8ece5325dc92a029d7847aa,
          -0x7fd95bae22401328379c2f647a2102219d8271e9da28b57604c4c67c7986a1de);
    Added(0x13, ODD9, 0x2, G1, ODD10,
          0x3bfc52e5784a4faadc200c919b07f20f011e0233e9054dde99137a0e66453df7,
          0x2235a7d72552635d46113ef437fea373813b66f4a66bae40c64967a97adebe8875b2f5a891f194e88f2c332f04b3653759ccdab0a4f4b07f086305e8797fb9828aa1766a5ac76f60d07a130b679286c7842f337ce62e6d54602749c4716285520fcfc40498cecd451d6361347c27c809e8091dd35690ebb2851795f24b2a91,
          0x112a59fb4694dadf6487c691dd576a3ec00f754c62e03c315848ef65a2158a70,
          -0x4d6cafabacd783b3abfe6eb0d25f237b76573f0a87c146ac32dff75574413275);
    Added(0x15, ODD10, 0x2, G1, ODD11,
          0x3ebc3dd69bfd0e02df16f4b13034c069191dbd344578dcd15c00e96aa163a5e2,
          0xd070e694caf310ec58e98f30cc477317ad849da52872ef8aa92c88c9d4515681a2cab4b8789f13e15162eadb9fa28b1132666190ecf5caddf304bebb52558fe6997d83e20314d6ba00b4e9d0e81939816ee9c521e5f570f8da693f6d5e710197d69965b20c21390d7092389cd9ae73375c1fc1d9aa9cd63d3253b465a7e57e,
          -0x3905330d109faf715c47a39b11e6998a5b0928797969c48c4e69b8f52b280e97,
          -0x5c1653d9b7ffb0148e4b171f5bd22cf50b52f7d900bdd782eeb16e7b9631b030);
    Added(0x17, ODD11, 0x2, G1, ODD12,
          0x1a9ab3466785bf0c9440660910bfa77966cf42f93e4b2e35c31c57af265be142,
          0x15a7190bab1530d45f9e82fc417dba257f76fa7255f84c96cb0a6a4d94a67e08462de466c98c84690497784edd1a42bbc648313201f136ef8388392f437cfdd36690c5e11c66ab7fbc66bba0b09d2d427169fe7e5a99938c77a2679785ea69bf1860adf3e664b4c6c98eed65dce5edb52606ca3e9c696118739198d6c2cb42,
          0x13021c59515939b7fbb1e3beba9e89d70e97e5648f512ce6d8b37c871342e76,
          -0x2f6fafdfd6880eb34ea4b77718aa3611698e456b001a27b02a1bced6faaaaea4);
  }

  lemma Odd16()
    requires Fermat()
    ensures IsMultiple(27, ODD13)
    ensures IsMultiple(29, ODD14)
    ensures IsMultiple(31, ODD15)
    ensures IsMultiple(33, ODD16)
  {
    hide Fermat, IsMultiple;
    Odd12();
    Powers6();
    Added(0x19, ODD12, 0x2, G1, ODD13,
          0x39b086682a1864e9a6d7a5aa2ecc88788d22fc00fb46b3276ee7e9931c74256f,
          0xfdcd2e85d5a9ba97b16435c5e4bdc6cbb011f90d8aeb5a21d97ad6f8b8df677b78ae68506cfd75754d80aa8b658eb18a9016cc5b794bccf833835ca39198fc020b7f69cc371cb54edfb75203775f791026c9c330b1fd3cf487b3bc26a60f710c96e3ac494033792e247b90ba4dfb588c6634d3ae54ae5efe459ea64a77c0d5,
          -0x4732be667a1ba6f126230ec1f7a8e0f3e18781db02ac40a54058750a42746c41,
          -0x7f086ce93a42a88f93d5727edc298c1ebae9357540430feccd4a69a6667584c4);
    Added(0x1b, ODD13, 0x2, G1, ODD14,
          0x14027dbe4023a8ada254c71fa30a7846fe7fd48fedfa43148697174a66a9667d,
          0x2878b9be02c4a519bd9371529197a2566951f2eb50b7c1de7b83ed995ed2a572ec7111d0ed60a3712bce8ad34ef780ab5d14258cfb28fc3cd0e421df6350cc5423012d82d4bb385a70d11fade6541120bf7bb7480e2f8426a89d2864ab63aee837b5bac14207b7eecbfced68e1ed819c99cf5561fad1be1253e139ec5c7e71,
          -0x2745c5c73e24436e8e93d5372b0fea6c8465ef6556685aec5f9c386a2229019d,
          -0x302fd3c294b8809b3e97582f032507457f9378393b85c19326ce08f051ebdea7);
    Added(0x1d, ODD14, 0x2, G1, ODD15,
          0x2f00e94eb9fba97cba7865da03ba8058c0aad7ca79c6c7e79e0d3751e7dcc602,
          0x51dd0db2e63035bcc3ed221e1657454607e9d61c9c2b5a992ddc527f4c3d784a872df5ab355d315d769c70eb089e1db199e8f2f4569dc5b435ab74304fd279a82d2d86c17a6de9de92232e02b21d2e00b0859dcfe69fd2bae2e7a9ffa3c417a4f11f464927c7700c111879bda79702f57012f9fbcb3ec09bd1ea800134cb70,
          -0x1beb1314576365cd817b918daec56027e1b2d2a895cb53d7ceb9e521d8132518,
          -0x45d2918115928d03438f96f9bac2b281b89c5176271b4906a9e2dbccbe43dd5d);
    Added(0x1f, ODD15, 0x2, G1, ODD16,
          0x7c2002b44ec12217b85715754ea8e1f67d2b09ba75a7e49387b0e7c863aeb23c,
          0x4489783f9da4814512432fd1e230d3cac8fed1674dd1562af0c7e0f64734960aad4a970e8a7d3d3918b9f10202792941eac435e271d552c61091f584254abee92aa9d25b8691e1224df354b5824bad74ca4610d98f193abed31e7134601527cfcff4e78ab966f3b73b6f03e44ce7fe6f900f839de4be6c17efcd34a6d2f088,
          0x2fe0532af282acd780c8bdc39b9661e74205afe83d1a42277538191d5ce402a0,
          -0x7bfb2947850a650863df5d5dcd9392060c711e7147797507b316bf0d1ce49c6f);
  }

  lemma Odd20()
    requires Fermat()
    ensures IsMultiple(35, ODD17)
    ensures IsMultiple(37, ODD18)
    ensures IsMultiple(39, ODD19)
    ensures IsMultiple(41, ODD20)
  {
    hide Fermat, IsMultiple;
    Odd16();
    Powers6();
    Added(0x21, ODD16, 0x2, G1, ODD17,
          0x4f1c6564e089aa09c90ada91e6935c5978dfd8340365e36707c4a45253d38609,
          0x92ae86fab67bbef97b2699602bdc456d1982336151889c0132913a8e7697b4ffd48f2c45dc102cd2ab2bf7820aedabc9af2b4e0a27f88b58650deb5cdca037cbf8a8d8f2a91592535deacc66dd4ed038fad7a5510e65d84f54eb316bab1cb1aafe8fe4ce5486edd9ebe1a24d98e6330a1d0f17642bbb1d5f3f2f7440f8c075,
          0x10e27c21f3bb59fc975f23f77554eae57df5e985d0ade1c3db9673ba0e982513,
          -0x4023f8facab5d35103a2f7fcd6cf93652e3114c31027d7d1ea8709e76b29b9bb);
    Added(0x23, ODD17, 0x2, G1, ODD18,
          0x47f2cec55f03e0c46eb663d342af10560034988e7dcc163d479e1bb8366af94f,
          0x451b0dc1446a4d10372536f705a15996a246f60e2b294739b0f5a5e2083edbee02c0ce40fa24a6b0294cb1a6612729038338978b2076d34a247170e9c5129c774f1de0a3d6cb9b483afde8725c0b8f597b78491b7be979f46b325032d2bdaeece455495d2e8582de1f4f8818ca412aa3c74c03958ce9a1020f603e7cce017,
          -0x1f98ca40f126e51723c5a6e1ddbb7eb177611fa6653540bde872906de9a757f1,
          -0x7531d0bba09384ed2d263e5f36545f56d77d4e8554a1b4de59567f06a0d8184b);
    Added(0x25, ODD18, 0x2, G1, ODD19,
          0x372d66fced1a3177be5dada7b615f59f7fe21bb2e7da3fdb7cbfda47c5c68994,
          0xbd5ec7b5cad3a5a7966aa11a37ceb45a5d98ec20ceded2ae5ac590112f615e958beac5282f409cf66e392d90a3f9c3b6728daa1e4d308ff839fe4e707c1b4151aba0af6e81d8c5f465633714348f532910f27bc5da4216c045db7bdc57e1efd011357f3d88beefc4edf7bcafe0d86b6cd69258d335e7316519d6f8932bace,
          -0x6b24aa1c1a32023b34f0f87c93237d862c72e9995f121af1fb0fe9114abe77e,
          -0x47aaac93f656cd539a233700e5d859b1bef297450b6c6d4d79f2cc5dbb530396);
    Added(0x27, ODD19, 0x2, G1, ODD20,
          0x6e82ba1537d74e44395fde0566b5eba3e1c0c2de9ed153134debb72f53ccee5b,
          0xa4ba0599ea9877e690b9dde13cda3737157108bdbbb0d543d95f494746e1441ddd6670b19a6431c5b5f311aa2bb4f78346b9f9c66daf4001b004720ea53fe4810ddc225536e3d86e0e71007326f7c216242f839fd97ae910f2398d7b810ce901c2f001e5ca1c5f84d2c28f3a02feee4dd6945ee23a6ff9c67cdea3dfdd624b,
          -0x278fcb48985d79102311ed9bc42c75d48c584612c6e6c3db738482524427418d,
          -0x93c9f21a73ac67c75116fdf56889b02f7af3b5056992d82cade38d6d247ee535);
  }

  lemma Odd24()
    requires Fermat()
    ensures IsMultiple(43, ODD21)
    ensures IsMultiple(45, ODD22)
    ensures IsMultiple(47, ODD23)
    ensures IsMultiple(49, ODD24)
  {
    hide Fermat, IsMultiple;
    Odd20();
    Powers6();
    Added(0x29, ODD20, 0x2, G1, ODD21,
          0x4d9815696e8c65a464fe86bcee05ab57436c332ddd0b803489d02cd8c7bfbe84,
          0x33b1d656177c6c08cea7f14c3677356619c2d49d684d1cefef1a62f50cd8d7e7aaa129d49448f46720c934ecdcfc4331c2ed58ebab7b5ac776b874d74abc6321a49a4939c1e78fe4d4c8ec04e7d2f612ae659c0e7fe9675c1880fbca571a9c43b1e1eb4babf0537ea43b7e0640237fe7089098372e3653649d73a3ad3cc2e8,
          -0xd70822f8cd8f05be80011996ddd94234a2dd675285169c229e5be9c8b21bf40,
          -0x6b3ed0c6e86179b0a06bf63b9debc00951974346fbb5c5508abe35ca2611bc48);
    Added(0x2b, ODD21, 0x2, G1, ODD22,
          0x62a006f690c122c689b457eff7c04d968721471a0dc3a6c124bf6d065ec0bfcb,
          0x786c54a737363732f5d9afae239fc690d82388b83c6da21ff2cf5e3576fa03e2a7e42c1c0bb6281c44eac4cc43ea2b9957cbdc613477e78fdb0fb0eed586971aaa13f502b3ffc819842a163540844f967917f84588bdbb1286b5dc858676ae90a82b47edef65609b26f3ffa0f82b41090069dfd70939c6c7a5aa60ce40e271,
          0x65683b43533ad88a240f55c76057618bdbd5d455e5cfd13b2eaa4206336e5b,
          -0x5421248f2bba99bfbd519f1ca681ab1d4f6cc690e137f473a0f541c98c74b26c);
    Added(0x2d, ODD22, 0x2, G1, ODD23,
          0x59bd8d30abf305b094356035b81799060ec018dfa523b6b2560a1ebfe390fe25,
          0x39da484061505a6c3c735d0ed69d83a8245cff083fc06be29f7f2b5e2a549cac88cabc237b3842db63f7b741c7d3e8244da978af09938b66eae458823cede6c89280d91ae3b2f8c21fe20e741dba71e35ea7a217a2eb30189d2fe2532f865e4bf526bfbbc1cb51e0877e6f1443b5f6a5a12fa2648edb227c0802d196aa5487,
          -0x1c9f572723a303394534f330af6f9d41b4fa3fd7d69a1a6b3a83b1495fb0fa6,
          -0x4b063a5baaefba2712e1827fcd933c4a28d41eff8f2fe888e051cbb6b417bc25);
    Added(0x2f, ODD23, 0x2, G1, ODD24,
          0xc174aa2ef56ea138d2d686b7b74b7d0b558773bfed61478b52adf1cd182940,
          0x280d603906de41b6c339719223d0d1205b6a6da6a617a79c51ed0ba3e3389275c178aa20b6494732db9e6dc09dee50ac7931bd0175dfe051e09972b15f7091c5d0cefa1a19b246fdf6fe7ff4e3093b4bd0c0913db208434b0433f574152f2270674a295ad8f32def09e96062dbb8fc06e61d4ae25f36e34efe9acc5f8cc820,
          -0x1f4f49dbf33d1919d002a704a94ea383573a4102ee01c0066af950942e2f2084,
          -0x222cd66eefa9d82edb7924c9128022df041f3904d218904c1f01e8c09bc4f9c2);
  }

  lemma Odd28()
    requires Fermat()
    ensures IsMultiple(51, ODD25)
    ensures IsMultiple(53, ODD26)
    ensures IsMultiple(55, ODD27)
    ensures IsMultiple(57, ODD28)
  {
    hide Fermat, IsMultiple;
    Odd24();
    Powers6();
    Added(0x31, ODD24, 0x2, G1, ODD25,
          0x57cba224b5f52118a3432953ec679356d15100a2c5565ff139a5f597142238cd,
          0xaaed5dea4765370599cc98219847889549d5c9e5b5e3c24956a23d433a2e1c78d0029f3cd8ddeb7760812dc03e33f2272358f36707c85216f263fb8ba9cf37263c20c6ee4bd5523d5cc985ed2aaa5e5fd5dda94dc4919ff2ffb3e4a85460f85524b0f45f0424f2e00bed94ad8b2816bc652713d57cd73b479eba6b9e85c25f,
          -0x29232e40eeba2044ccc198193edd53b84886412a3b5b092e510a448838e62b8e,
          -0x492b426a6fda8498b603a47cf9f405cb7d56fe2074393781be6605aefb9ad358);
    Added(0x33, ODD25, 0x2, G1, ODD26,
          0x35942aa946b173b29d1e40c7cbc942626142a7e111246e3172af18a7423583d0,
          0x7820dab7022cee939c93031421c2b226485ebc7e946d71bffcc7c4f2ce56451c72f63501370558bab4521750d60980bf32acfec39692da490ff27ef0122e04ae3414e03569fd3202c5b136d0f27501ed9caecfcd2279684cbabb0275752c02c8699376f1a30709b5b896c77cc4866eb59e9626d6282795b8ad82d5e8dfd92,
          -0xbb31a238545cefd6d06d3739957d089b6114f72775e348c9255e27be0760a8f,
          -0x2fb388b37611026a6eebf6faf90c116845a588d3526c7edddf0508cc257fade3);
    Added(0x35, ODD26, 0x2, G1, ODD27,
          0x45d45c41b567a2b5ff86196a7031c843862b3a011178ef899a8d4d62b0009cc,
          0x9e587908da6053152516a2a786e6e4e552de2fa323d6ca4f9729dc66819b7dc93e2f59b303d1da9cfa2ff383814f22bc699daf2669c6956f060f538564559b6adecdec60c3c01e66d8b1042085a36b6e4399634a6139891ba48d4e1482a279808822ea8aec86fe5196de8bc34874c279c1bebe6ec181a240234b4a165f79c,
          -0x1c04c85a2211d4f1f2fd11079857efc04a43c5b4e3217f52d6b8a1ec5ea8af0c,
          -0x189c144e4ab6447ef8b95b06ece9e6fdf36677586b826f10f7be7596157a506a);
    Added(0x37, ODD27, 0x2, G1, ODD28,
          0x330a004376ed55336d83245ac4803be4e30bacbe01169a049a636fc39689b36c,
          0x87d8b13021c80dfe0be3aa8f3f1d8e675d21279b96f401d0a8151efdffc19f814b47e8533f3f58aba06e5db4ed2dc05752074155950134e83f73958cfc18a9cdbc5e7910a3ad19a0760bca1a92bb83ca156f3c71955f07262ed3884c794611f425c9f1be501ef9b25a5a277bb1240f565e7bba2efcc6013b48cf5bb1031384,
          -0x31ca7b9bb285447080ee2f5ba1bfc5cbbb95e68c6079d233a280bec127487c9b,
          -0x3f49331ae596137435dd7c2b95667eac16c4aa69d78bdd6ddb9f2521a7ed97a3);
  }

  lemma Odd31()
    requires Fermat()
    ensures IsMultiple(59, ODD29)
    ensures IsMultiple(61, ODD30)
    ensures IsMultiple(63, ODD31)
  {
    hide Fermat, IsMultiple;
    Odd28();
    Powers6();
    Added(0x39, ODD28, 0x2, G1, ODD29,
          0x6ae1de082e96997ac4f5ba15cecab9c6e7ae2eca763b28c547ca3e3525a96a17,
          0x61b4987a177e0066dc71fdf5446a04bad481ca2451e2caac66b33e18a23896251255ed3cc0e2319ace390e5453b4de3de336796d00e08f7556499abcd4495121fba8888d85d106fd9bf7ff0e226c493f6e0fb75aa38f0f0fbe5bc308e915a57cde95afb435e17c918904fcf6059e4878545659620c24514329b1970e5d28b,
          0x2ad65472f2bd700a4a2f214a21cbb3c9896190000066136a237dee59af26ba9f,
          -0x528b31b6c98cfdd6b1fb647faeeaf11b1c01325894b6a902ba1237e6058d3105);
    Added(0x3b, ODD29, 0x2, G1, ODD30,
          0x456aed23322035c8efce59554add6c6cb9d735812fa1dc8218ffbd31d8fb715f,
          0x6211160c3948d8277ef605cd4e18c276541b9345defacd5a67ca5881e615880d3b324fa72b2ff11fd5898f4dd2feaca359158085dd7ca62fd14ec3717a4af5e77ecef3f4919cd219fba2c0e9739c914d1327f2095726eda4e734e228bf26136b66b56da94b7f178cbaa8ebf0b2ad2f0adbf5718c23cc06ba305934bc0e039d,
          -0x11fb8dd4f09eb0783f979db455e065c554effd0df396fd3238e3c7cb0da6a17a,
          -0x67382568feace7a39d47783535d935643e3555df419dfd747f01e02bcc78d471);
    Added(0x3d, ODD30, 0x2, G1, ODD31,
          0x4b1f425723caa8421911af0fd0c2a788425480a5758dc242e774a40dd2b7dd6c,
          0x71a0a12697c8d6b688a018d716b00b44c98f41c43bbd5651a61737b27b0b7c06ba41b9649b849db02f76d5e58dc37fac526b93b022b2d9c02b3b02dfe4603524a3d83ad490a663bb5070f023f5754860e6c5d7773d87183398cb8137d9ac95dac0ea93282dbaf9bc6ee0990928a6b3168faf17aa6c7a8bd84342e226e6c2c4,
          0x300a15052ec57686a9e35915ae6d00ff017dec87559a3d006dc4682715960c,
          -0x4258ed9ff8026cf2803493ef9b3e033741fd2866f7fae65fd4abf9291dd46bb0);
  }

  lemma Entries0()
    requires Fermat()
    ensures forall i :: 0 <= i < 4 ==> IsEntry(i)
  {
    hide Fermat, IsMultiple, IsNiels, Mult;
    Odd0();
    Odd4();
    EntryIs(1, ODD0, N0,
            0x44fd2f9298f81267a5c18434688f8a09fd399f05d140beb39d103905d740913e,
            0x7cf9d3a33d4ba65270b4898643d42c2cf932dc6fb8c0e192fbc93c6f58c3b85,
            0x6f117b689f0c65a85a1b7dcbdd43598c26d9e823ccaac49eabc91205877aaa68,
            0x0, -0x1,
            -0x11203cd187d6fae64cec18f6388dc58d3dd5c68fe39d5826e59bea1d1385b7b20688edf184d11d4588e7fb2be95391af74c9fbe7ca8a5f2661dc25eec8acd518);
    EntryIs(3, ODD1, N1,
            0x2ab91587555bda628131f31a214bd6bd3bd353fde5c1ba7d56611fe8a4fcd265,
            0x7a164e1b9a80f8f4c11b50029f016732025a8430e8864b8aaf25b0a84cee9730,
            0x5a2826af12b9b4c6d170e5458cf2db4c589423221c35da6214ae933f0dd0d889,
            0x1, 0x0,
            -0x98d6028a6f6a063d4c7174627a0e9000d81449548876d058bc86b5520e90017eb219b55bc8aa1b9bf8a91d8de2fc2131f53b0af351a52ca6f0dc921ab7f7613);
    EntryIs(5, ODD2, N2,
            0x154a7e73eb1b55f3e33cf11cb864a087d50014d14b2729b77f9182c3a447d6ba,
            0x2945ccf146e206ebdd1beb0c5abfec448d5048c3c75eed02a212bc4408a5bb33,
            0x43aabe696b3bb69ab41b670b1bbda72d270e0807d0bdd1fcbcbbdbf1812a8285,
            0x0, -0x1,
            -0x234a435138fc75120166c31a789bc266dae325965c051a0f008deec7861d217be2345e089f3d93ec819cc9d761c9cab4d2d3b4b02a468180a2b6d171fb07bcf9);
    EntryIs(7, ODD3, N3,
            0x1d6edd5d2e5317e09dea764f92192c3a6ca021533bba23a7ba6f2c9aaa3221b1,
            0x461bea69283c927e71b2528228542e497470353ab39dc0d26b1a5cd0944ea3bf,
            0x7a9fbb1c6a0f90a7529c41ba5877adf3b3035f47053ea49af1836dc801b8b3a2,
            0x0, 0x0,
            -0x51125f5c88b8cedd95d300967ec0172ee2d2caf9d71bcdf30b7eabee60bef1ff930dc847b4246ff21633edd41a61f685512082eeed6c843bacb2f44d3105d06);
  }

  lemma Entries4()
    requires Fermat()
    ensures forall i :: 4 <= i < 8 ==> IsEntry(i)
  {
    hide Fermat, IsMultiple, IsNiels, Mult;
    Odd4();
    Odd8();
    EntryIs(9, ODD4, N4,
            0x49c05a51fadc9c8f96cbc608e75eb04498a081b6f520419bf36e217e039d8064,
            0x34b9ed338add7f59ceb233c9c686f5b5a6509e6f51bc46c59b2e678aa6a8632f,
            0x73c172021b008b06aaf6fc2993d4cf16e2ff83e8a719d22f06b4e8bf9045af1b,
            0x0, -0x1,
            -0x221133616cb6c7912ac03208468b873faf58cd26fa474f04fa7577cb6a9b51f8031452ece98f2d860ae0ff8af5ab036cf1a25d1d5455133f4356c898b69a23d9);
    EntryIs(11, ODD5, N5,
            0x18ab598029d5c77fa3a075556a8deb953ed6b36977088381315f5b0249864348,
            0x4275aae2546d8faf113e847117703406e5d9fecf02302e272fbf00848a802ade,
            0x3dc65522b53df94844311199b51a8622031eb4a13282e4a4d82b2cc5fd6089e9,
            0x0, 0x0,
            -0x4c40c2cd9bd098072332457b1d0eae8bdf24c53be124a411179128031e72565a9742fda457137a371952d922b11ecf244f93ae0c65fb5ee425e9c224abc8711);
    EntryIs(13, ODD6, N6,
            0x267882d176024a79d12b232aaad5968aefcebc99b776f6b506f013b327fbf93,
            0x234fd7eec346f241537a0e12fb07ba07bf84b39ab5bcdedbbf70c222a2007f6d,
            0x497ba6fdaa097863a2ef37f891a7e5332437e6b1df8dd4715360a119732ea378,
            0x0, 0x0,
            -0x18d9ec34e268b4f2b75fa8253d68c09331c70f8fa67e54eb463cdb60124a82e92f6edd1424c98e9446fd80351d340143ccaba60225d4806729a686032a00aa8);
    EntryIs(15, ODD7, N7,
            0x43b5cd4218d05ebf7508300807b25192d3829ba42a9910d6040bcd86468ccf0b,
            0x61e22917f12de72b2dbdbdfac1f2d4d08648c28d189c246d24cecc0313cfeaa0,
            0x511d61210ae4d842032e5a7d93d64270eb38af4e373fdeee5d9a762f9bd0b516,
            0x1, 0x0,
            -0x770fc70653719385d85bbd7e8862463934fc29851843d96647821183059fc64270140ceb2de901d4a54eaabf70adbfe5fd308b839f34690e3d60b4e26bf0974);
  }

  lemma Entries8()
    requires Fermat()
    ensures forall i :: 8 <= i < 12 ==> IsEntry(i)
  {
    hide Fermat, IsMultiple, IsNiels, Mult;
    Odd8();
    Odd12();
    EntryIs(17, ODD8, N8,
            0x71a7fe6fe248281039fa4e2729942d258a1cf016b592edb4081386484420de87,
            0x6d325924ddb855e3aa9b36646f8f1248a54620cdc0d7044f92c676ef950e9d81,
            0x4746c4b6559eeaa972cf591883778d0c33fd1479fe5f2a036c7182b8a5c8c854,
            0x1, -0x1,
            -0x46268889cbb3233eebc587883c1582cfb4ff2c684ec36ceb4b41ff8b5ef4d579eabc04a9948bd74f24d5c070013b55e1e893bc6fde9d1b6914555c0dc487468c);
    EntryIs(19, ODD9, N9,
            0x219663497db5e6d6ff939a760672a3327d35aedd0efcc849348546c864741147,
            0x5c9a51de34fe9fb745651cf7b53a16b5defab2276f89f617d3777b3c6dc69a2b,
            0x4804503c608223bb09c3a71710142277ffdddaa1e658515bf510f1cf79f10e67,
            0x0, 0x0,
            -0x951cf1432963128d10264a627eec709b9a9a1932eb646f002cf15d27fc188ea4e38fb0301692b27c5c6bca1cbabb79436f57dd87e2d211e522ecaf62e256959);
    EntryIs(21, ODD10, N10,
            0x771e098858de4c5e5d9e5ce420838a47bbb40aa7e99b9e323b6821d23a36d175,
            0x553398a51650696d88a96ed7c96e0e23a059a0e3a615acabc4249ed02ca37fc7,
            0x5a5ed1d68ff5a611477f4a2d9fa595083ada5d7985899ccb9a12f5d278451edf,
            0x1, -0x1,
            -0x38c8df0775de6e18d5d50f05b1a5b420b74dfd5e0f71f5c65fb858044ea1a217ff944963c915e46454449d4733cfb2183e17c2a1cab836141573a697212468dd);
    EntryIs(23, ODD11, N11,
            0x19b60135fefdc4428653c1eda1cabe9392e5c19cadb9d7ebae5e0c558527359,
            0x44acb897d8bf92f07387f8291e711e20cf209a257e4b35d81195122afe150e83,
            0x150c49fde6ad2f92506e88a8fc1a3ed7c4f5e64f24304c161e6068145e134b83,
            0x0, 0x0,
            -0x5e614d14d73f3580cb9e961c2c02edb11d1a88acf1ad99443b570fa4aa0e13d52cd1df131c2f9ca8ca7097ea7c399b0c381e9ea116694fb6fbb5a17583a4d85);
  }

  lemma Entries12()
    requires Fermat()
    ensures forall i :: 12 <= i < 16 ==> IsEntry(i)
  {
    hide Fermat, IsMultiple, IsNiels, Mult;
    Odd12();
    Odd16();
    EntryIs(25, ODD12, N12,
            0x78a6d7791e05fbc1fe3ee3560c36168dc83f44dbb8714ad0b849863c9cdca868,
            0x6b2b5a075bb9992210af79c425a708ad5d6fef394f75a6518e7bf29509471138,
            0x725c7ffc4ad55d00aa2b1fb1d542f590a601b355741748d558bf704b47a0b976,
            0x1, -0x1,
            -0x45245a591414b32c8cd2eb301e27f1b18611c05392a3e6bd8238bed28270766ab937f325e9a5363b1cb48740eb6a73079e94597aeb447c8f5ff6807d1cfc4352);
    EntryIs(27, ODD13, N13,
            0x4cd54625f855fae7df585d714902994cfe416ca4ed5e636691802bf71cd098c0,
            0x794cc9277cb1f3a323d1157b8b12109f7352d51102a20d34e4426715d1cf99b2,
            0x7008357b6fcc8e852ad032f10a311021bc9aedad32f672584af6c426c2ac5053,
            0x0, 0x0,
            -0xb0686ac1898ef914bb1af8e38103ff04c20dfbda300ff79ab656a7bf984c1cd9bf35bc09ded785f9fd63ac2392d0fbbac0c6ad780da440d1f8f1b937a37d67f);
    EntryIs(29, ODD14, N14,
            0x13a92a3669d6d428b631639c4853620247ab6463d2b4792bd01b9fbb82584a34,
            0x6ef7e9851ad0f6a8d2dd5a3b9ad29b6b8ccc8fa95fbccfb0b88672738773f01,
            0x3c296ddf8a2af86a24680f01d802e0717540e41e5035dc5cca93771cc0577de5,
            0x0, -0x1,
            -0x164d3c79ce8fd45f8f9e0b9f6a4bb056f7f5492ee140da699879c4d662fa603b46d7abc72bee59222d92970e54ab7ce8803be8c2520f194458cce1fa666e5ced);
    EntryIs(31, ODD15, N15,
            0xa892c700747717bfc71a37dd0a1ad05b89510c740adb91ffceb4d2ebb1f2541,
            0x7a99d393490c77baaff823179f53d730a92f7bf98c8ff912aead15f9d914a713,
            0x286762d28302f7d2a5a96563262f9ce077a8c84157e807948f52ed2436bda3e8,
            0x0, 0x0,
            -0x12abd56ffdf71fa5195fe94ea3a79d90ae76a344f73a6e5e15bbecf9e3588ba37f8ca5f969d1aee65cf73eef9b5a5ce222b87ab91ccacb4a3c785c396bbf5f44);
  }

  lemma Entries16()
    requires Fermat()
    ensures forall i :: 16 <= i < 20 ==> IsEntry(i)
  {
    hide Fermat, IsMultiple, IsNiels, Mult;
    Odd16();
    Odd20();
    EntryIs(33, ODD16, N16,
            0x7686f2a3d6f1767a154a179f3bbb89b8e4986cb46747bc637c558e2bce2ef5bd,
            0x32f1da046a9d9d3a0cc192d3cbc7b83f82e1181db26baa974e7836093ce35b25,
            0x561305f8a9ad28a63f91dc73c209b0228f11930304d3852baa8d12a66d597c6a,
            0x1, -0x1,
            -0x27f5b8d361ba8ed06b591b5e3404b0d399c1473f429f34dca4697efacd22762f34a73945d79b09c5cd99db364352e2e7c92ae0fb3ef68872e1347e4c3ad8ccac);
    EntryIs(35, ODD17, N17,
            0x30a1aef2c57cc6ccaf68da7d7010a61709de9bbdb075c536722cc28e7b0c0d5,
            0xaaec53e35d4d2c83131b22d847ba48ca43d5434d6d73e5100c978dec92aed1,
            0x20be9c1c240654807821dc86520ed23e0b3f29802b2166087bb1f773003ad2aa,
            0x1, -0x1,
            -0x12d37e9a29fb196cccb0a35c068e6eed4b1012272f14ceeb4747c95f9454287a6f94497fb84beded54fd287459595d30cabe874e16601d506e30c224a20ca2c);
    EntryIs(37, ODD18, N18,
            0x69764c545067e311105d639cf95a0d1cb03b3b2fcbdcb93820e0e44ae2025e60,
            0x750ab3361f0ac1de1c7f9a81c36f63b55943bc2df546e493e15387d8249673a6,
            0x54f96b3fb7075040b72fd15bac2e25636f2eda23bd7fcbf11e8a3283a2f81037,
            0x0, 0x0,
            -0x3396db61b03bf42ccc546ee3705e9e8bdeddfc0aab9956d4790aa91a96a694e86578b481f238f1aaf8f0d219e48d4dadd462661fa04d93284877d172939b09b);
    EntryIs(39, ODD19, N19,
            0x78e6839fbe85dbf0b7a8a110e6ece78589764b9cfa576479177dafc616b11ecd,
            0x3d7fe9c52bb7539e6f3d94828c5760f13adda2047d7d724a0fadf20429669279,
            0x70f268f350088242320ff74aa0e59e2275d05d43041a178a70332df737b8856b,
            0x1, -0x1,
            -0x2ce030b154bfee863ed0c9dfdaa161644951a61aea64fdf6dc216fe664c513bbb00d73bb525a19a5be84a339c487d2de2a0a32c3885e5402774e275252645497);
  }

  lemma Entries20()
    requires Fermat()
    ensures forall i :: 20 <= i < 24 ==> IsEntry(i)
  {
    hide Fermat, IsMultiple, IsNiels, Mult;
    Odd20();
    Odd24();
    EntryIs(41, ODD20, N20,
            0x404e56c039b8c4b9b31ddeed3552b698380cc97ee7fce1172324112070dcf355,
            0x7c0d345cfad889d9e9874eb71e4cb006f535c5d160dd7c1966864583b1805f47,
            0x20d754762aaec7775cbc4152b45f3d44a0366ab167e0b5e1591f1f4b8c78338a,
            0x0, 0x0,
            -0xe153c29fd6b35b50cdb92a67e47a4eda77d37853a31d0b3c9c9ccf7190965eb86f986752f3e0eca2e75c0f6200442d38699bb4e5eacf4e1bfcf083fb09eb692);
    EntryIs(43, ODD21, N21,
            0x38b8ada8790b4ce1e9322b0757138ba984b37df1de8c956c9d74feb135b9f543,
            0x2b8f1e46f3ceec62a9934a7d903bc922ace543a5363cbb9a5e8fc36fc73bb758,
            0x49aeb32ceba19531d106d8b328b66da2b3952aecb1fdeacb5c04a9cdf51f95d,
            0x0, -0x1,
            -0x20ce6c8f77a63f7a3e8d4e1a80b602414979c3a131356132e3c8c99d62460c2dd30b23e4bc98e16072a1903e382ce56a4c0429c74e945009b8e102fe1e9268c7);
    EntryIs(45, ODD22, N22,
            0x51c665e0c8d625fcb6676861e14f7c13209c594897856e40d7767d3c63dcfe7e,
            0x795ee17530f674fc1d82542b396b39300fef924b7a6725d3aa507d0b75fc7931,
            0x6cd19bf49dc54477e6a24d0dcaee4a315d411f6ee034afe7254a5b0a52ecbd81,
            0x1, 0x0,
            -0xfc2b2e89e3b9f6a8e7b6c98ae1a0f67b3cb55d6682304933e8fb2431fa237021155bc2fc6e6e2caaeb28b277a1bfc7d1d35cd2175dea1077b9a77368bdd81fb);
    EntryIs(47, ODD23, N23,
            0x7520f3db40b2e63880a2baa88499711e571d0a060b2c9f857e87619052179ca3,
            0x5e01b3a7429e43e776f6627e20990baa082a2a88b8d51b101ffe612165afc386,
            0x71092c9ccef3c9861a309a64df311e6e967b6cdd599e94a53db50be3d39357a1,
            0x1, 0x0,
            -0xae94801460cbdb54bb23158212037d33b1ed5d6cd0ce3c5b7252578946a1f0fde6d3640c2018aa4f5ee686f22220eacbaf4fad63966615d79c88725b447c99b);
  }

  lemma Entries24()
    requires Fermat()
    ensures forall i :: 24 <= i < 28 ==> IsEntry(i)
  {
    hide Fermat, IsMultiple, IsNiels, Mult;
    Odd24();
    Odd28();
    EntryIs(49, ODD24, N24,
            0xea15b03d0257ba7080b4a9e6681e5a4a2b404f43fab6b1c53d8523f0364918c,
            0x4173a5bb7137abde3a4ae7cbc9743ceb03f6a40855b7aa1e856bd8ac74051dcf,
            0x5fc565614a4e3a67f7931668f4b2f1765a696e2b1afc470817c56e31f0f9218a,
            0x0, -0x1,
            -0x2e909f9cf8ab3e465ba775cb9835ee196bc9187d6165aa0bd0df537a9fed4e5095aa347e3e2900cf0c607c7b5138470d551bc3d0ddfac5188ad693df91bc4ace);
    EntryIs(51, ODD25, N25,
            0x62711c414c454aa159549f03310dad860fd0aacc54f8dc8f136e570dc46d7ae5,
            0x3214c7409d46651be3b0819ae5923eed01d5950f1c5cd7224892e1e67790988e,
            0x5bea94073ecb833cd9b6b8ec185d223c3ba4a0668a2794361329827406651770,
            0x1, 0x0,
            -0x20b9dcc573c11fd7e0eadd2fca52e22c112c20abddbefe1c52a19f0224e1f187cf15d180b356c5f18b7254e34b87e533b483e9a02eb240bdd9c0947c2dbbf2e);
    EntryIs(53, ODD26, N26,
            0x3aacd5c148f61eecabfe9e02f697b065acf38b317d6e579c641dbf0912c89be4,
            0x4ad0785944f1bd2f35da51a1a2117b6f0067ba8f0543e8f1b470ce63f343d2f8,
            0x3aff0cb1d902853d34085b2ed39da88cdc99c04707316826858e3b34c3318301,
            0x0, 0x0,
            -0x2b232b744d86bd22a007e56aaef54e52161639287803b0f390dccfd4bdde213ab0a8285b8e5130c286290b7bec8111e43e910821a7c4ab9444e3293da8fc003);
    EntryIs(55, ODD27, N27,
            0x110e7e86f4cd251d29252e48ad29d5f98ee311efedad56c987c5c7eb3a20405e,
            0x2ccf9f732bd99e7f09ef33788fd327c668e49c13261f22839226430bf4c53505,
            0x5c557e0b9693a3753172709a02e3bb712888628f0b0200c57c0d89ed603f5e4,
            0x0, -0x1,
            -0x25020ef98e56440f8eeb5f4ea2d1746939f9f6e1e8570d00d4b9b91ff91d4c18da4afcd0340309c1becfaedb0fa79041b6d0315fcb5b39b27d12616fcb6537ec);
  }

  lemma Entries28()
    requires Fermat()
    ensures forall i :: 28 <= i < 32 ==> IsEntry(i)
  {
    hide Fermat, IsMultiple, IsNiels, Mult;
    Odd28();
    Odd31();
    EntryIs(57, ODD28, N28,
            0x6e154c178fe9875ae15b7ea08bed25dd7a3f263011f9fdaed8f9ce311fc97e6f,
            0x289fef0841861205b6b93f4e634421fb61f85bf6fa0fd85cf776bbb089c20eb0,
            0x6afbf642a95ca31913789765753a7fe79b16e4e78335c94fcf616336fed69abf,
            0x1, 0x0,
            -0x1a9e11c498619a8934b6b30d26ab31a098d29d7c5bc7295648c5a7084dc28ac91696d17a64058b475335ca6a3dc5f69a34dc4599c5b26cd3df7505083948f07);
    EntryIs(59, ODD29, N29,
            0xdb4b851b95038c47deb6ada0dad70e098fc3da4b00e7b9a7da8de0c62f5d2c1,
            0x12c093cedb801ed9da2956b690ead4897d1d167b2b0cf5615de55070f913a8cc,
            0x33aa8799c6635ce6cee75572dac7d7fd06969da0a11ae310fc147f9308b8190f,
            0x0, -0x1,
            -0x1ab744247d08bd3a8dcf314abe62d696f1efd6afc2235f1b1aa3d56ecf4992974ed8ac6b22cfc64f0cb5e8ba0648b267c1f12a1e35de344d7ba21f2e1b333dfd);
    EntryIs(61, ODD30, N30,
            0x233c6f29e8e21a866ec2bfe15060033c78f51a8967d33f1faf0ff51ebd085cf2,
            0x212cd0c1c8d589a6e2262d5c87ca5ab66da2ba9b1a0a6d278348f588fc156cb1,
            0x1db7778911914ce3a70a862a3d3d3341122ecdf2527e9d28d2f4d5107f18c781,
            0x0, -0x1,
            -0x1ef47c2d0ca817456d7ec54f4091bb766ef0343fc002ee1047df603fbcee8e4addf5e402433ca9c524dd0efbf2160fc2c525a0f736c172ef9eda6519cc3b143b);
    EntryIs(63, ODD31, N31,
            0x31ad97ad26e2adfc7c74f43abf79a3307a97e2cc53d50113ddf352397c6bc26f,
            0x7ae2ca8a017d24be15df4161fd2ac852e2b8ded419cf8da5b3394769dd701ab6,
            0x1ed1fc53a6622c83e491c14f25560a641e8518cc3f19da9db7e817ed0920b962,
            0x1, 0x0,
            -0xb38972fd0a599d5052f91d7ebc13bedb89e36da67cb20a654ebb0aed56a5ecc17fd3dc6030f87fc8f2bd83d7606e830f8e8b0ffc2fe65115acffb3a544588a6);
  }

  /** All thirty-two entries. */
  lemma MultiplesAre()
    requires Fermat()
    ensures IsTable2(MULTIPLES, BASE)
  {
    hide Fermat, IsEntry, Mult, IsNiels;
    Entries0();
    Entries4();
    Entries8();
    Entries12();
    Entries16();
    Entries20();
    Entries24();
    Entries28();
    assert forall i :: 0 <= i < 32 ==> IsEntry(i);
    FromEntries();
  }
}
