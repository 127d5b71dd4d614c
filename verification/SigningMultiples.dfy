/** The multiples of the base point that the test vector takes. */
module SigningMultiples {
  import opened ModP
  import opened PrimeField
  import opened Edwards
  import opened ScalarMult
  import opened BasePoint
  import opened BasePowers

  lemma Inverse(n: int, q: Point)
    requires Fermat() && IsMultiple(n, q) && 0 < q.x
    ensures IsMultiple(-n, Point(P - q.x, q.y))
  {
    MultipleOnCurve(n, q);
    OnCurveReduced(q);
    ReducedIs(q.x);
    NegateIs(q);
    MultNegate(n, BASE);
    hide Fermat, OnCurve, Mult;
    ReducedIs(P - q.x);
  }

  const PUBLIC_POINT_UP0: Point := Point(0x14ef9a1b51bd53546218e0c508d7ed3b37d3a68962f97143a56b435a605bd395,
                            0x7a379c248591903ee38bbb27d0a3994b3475167d2342ffab4ee2f6a32174631f)

  lemma PublicPointUpSum0()
    requires Fermat()
    ensures IsMultiple(0x1002540000001000, PUBLIC_POINT_UP0)
  {
    hide Fermat, IsMultiple;
    Powers12();
    Powers42();
    Powers48();
    Powers54();
    Powers60();
    var p42 := Point(0x328718044c3d81d35d6408f40f0280ecd5c72a95a04f53d00b6089f08255e956,
                   0x18aa4cf0d66c71b9a959ab02688f535c234e4278f894267d63c7ed6e0f975127);
    Added(0x1000, G12, 0x40000000000, G42, p42,
          0x36804b5a6994294298850dd739079ace6c28e7b2e3d1ad2721e50a5949a9e163,
          0xa77ce008c5c54b9858cbd24fae86a3e7d75fca48404a3fa4d0ea76288f44c29ba327a7165f2e7541dcd8b88a9f7bbc7c71b20248b4e1944fe0d244c8f6cb75512c5e612222ca5273f2d7dca168767adb4c717dc39e4df6fa1136048a7eff9b554f6ff316ded95d26e1e4a6b4e26148190371ae36ec701314fb288112c000b1,
          -0x38f22e8c67cc65c48c3f82262a723982738c2c67359641ea2a2d433da0169d7e,
          -0x4e49714b89efe63c881e25c1589bf5591e51c940df9820b8e1fff7b0e8731471);
    var p44 := Point(0x3cc225b96a826a97439eff56549755ffce4ee90907b470227818a38f45c225fd,
                   0x17e3abe68e58bb96275804dddc379ed5f6e60788b9e92eba5ed49c498dc02ae1);
    Added(0x40000001000, p42, 0x100000000000, G44, p44,
          0x4d2a841f1d2fa486dce1447567f0252335a7bd9448fc5d583605154af623c4ad,
          0x80046dc37ce3bec074844fd7f714eaa9c90d11238148302cb9b5a2e41e531cc85b11eee6c3f9bbda2911e9de177352b3f578aed875413b3e9d400a8bda679043d0a2e4a63f97f44450fb8fe1260329fa90194cecaa29b02cb63db00eb78f7175cc0bc54aaa5573e3b2abe324a3a8c3a49683b45a6fc67eff68c897c0dc0d9b,
          -0x1d5cc234e1c396e39f1d31ef8d0eb9052fc5e0fa6d9274d445eaafd4f2793036,
          -0x478d3177a7e12759369d7412b5941123a10e553fb57c61fb08552e9fdeb53be9);
    var p46 := Point(0x43580eb7abe280c39363f7ea940e03d9010da324833f3254e8ff0fe6c5162a7f,
                   0xbda67ad192ce974d5d45901a0ff6373b4dfdcb06048643ac6b72ee9282466fc);
    Added(0x140000001000, p44, 0x400000000000, G46, p46,
          0x90051396e82e979632353f3dbdc5ed85d9734ff29d9b3799c2b8f1569a2ba12,
          0x25ce92538adb6bab6be45696ac913699055d15cdca34ad9892e08b7128225014cda616c14561fb2147a8941118206f8148d54b45bc8a657381f51136178ef9ae0445963073b3c048a03706c49264cd15996e35b852487723b03dffabcae666f4271275d41eb551a21752b3c14047145431289a0475b209a176112c946d71c6,
          -0x1f8bbd1d4bf02c0e41fec2b72f07494cfc0e7667f3148c6db6ca837eb0f7e0eb,
          -0x215ca02b16692d0c5e15c2bb59367fee95ea3e7eda20a2e0decc921c43a7bdc8);
    var p49 := Point(0x1464848473b404b6c2c9378b1312e7ab42379455b307bd5fffcad00f48976d18,
                   0x616cb891e41a2cbba20908c9105318a5e69b42ff7273e8e0a53029d0733f0151);
    Added(0x540000001000, p46, 0x2000000000000, G49, p49,
          0x78db04a6c51b947bc70a1bcff59aeceab316d4d08e961b44e7d7991562430703,
          0x202ebd728f7e74b627ffcb5a05703289bf508e6bc02ced66bc3bb2a59447744c3fe93400657f48a779501d821b2017051f155f3bb20134c063768d7f7351eeb957bb9da9c729c7c1421f654046a4aef8d66b45ef42e2af5e0be6848a2310b3949cad0c56a24ca67fd96a814d7eed6898e1314170b9bac01b1145a943207a11,
          -0x14ee70e19d1acaa9569a6a23a8bc78c46c743bab576e23a259f018e3d1f922f4,
          -0x8346c01ea36251b39465eb13f2ef458388215dd920c9d505d394ef7f40c9f66b);
    var p60 := Point(0x14ef9a1b51bd53546218e0c508d7ed3b37d3a68962f97143a56b435a605bd395,
                   0x7a379c248591903ee38bbb27d0a3994b3475167d2342ffab4ee2f6a32174631f);
    Added(0x2540000001000, p49, 0x1000000000000000, G60, p60,
          0xdb506ecdf20e836f2f749d3ecf0c6ab0a23aa9ac6f416e590690174004c6194,
          0xb5d17019bc7e488fd96899d9d086a0e5b79d426a3478335eee5c90c6c2f4b0c9b16d14986941ffc10d97b0e32225f3fbc12de8aaac7a3307e072f5730f76b7ad34e536b4373de327aff90377bb8467f3c38ca5f89b68b82622145f3784e7b4627b995d5c7d2a7e205ee58784ce580fc89bfab92e3c1b0d2bc2e82b2bea9c3c,
          -0x5143a24f07608063ff314a5cdb8e67a614b6e5b10529284a7d5281b779e029dc,
          -0x6ca352e8497acb2a81890ccf0528dc1303d10fcf3cc4ea76859c6ca62ea2b8fd);
  }

  const PUBLIC_POINT_UP1: Point := Point(0x36eef72567fc016083280d18eb94f8cdba347d9371478c4d67f3d4015d49343f,
                            0x6fa65e6ff73664be0794c3d0c18fd94bd622b6e96627b76fba0b4a855b456f4c)

  lemma PublicPointUpSum1()
    requires Fermat()
    ensures IsMultiple(0x504029002540000001000, PUBLIC_POINT_UP1)
  {
    hide Fermat, IsMultiple;
    PublicPointUpSum0();
    Powers66();
    Powers78();
    Powers84();
    var p63 := Point(0x70995ddb111917a3dce69104486c93a498cc909f7afae7781951246129e1d1fa,
                   0x79f98ec53c586a7c664447bccc881655dccf5c20a5d0f17a563e90e2a0bc347d);
    Added(0x1002540000001000, PUBLIC_POINT_UP0, 0x8000000000000000, G63, p63,
          0x5eacb2286b7efac65e485882753595ae76eac1cb885b76e81522873ef9bbb875,
          0xbbf68f256348a22c8d602ab3b9ee88e7cb3c7385a0b5269ed3bc47a1e951ae593d44ef7c165be19b9d10bd1977849f75c33f0830551853d64e418b56df2299f0caeb0f0a669b992da53d0c38f123420be11a6de12d38eb7796e3d6dc79d21b4af1c701510cbf00db15501c8e42d3d544a2e3311dd57f6c09dd8ae1a1aae11,
          0x3cab2428816ba178b352b5f09f8c0fcbe09ce2c00e958d7381e913a1a9e979c5,
          -0xc800b5fa67d863e775e88f96a0e3384b89dde699ff29f805f5afa4361d3df579);
    var p65 := Point(0x7c3143b0a302a9151d410ca7dd9a0900d9997a7755711f21f013e06aa496be24,
                   0x5ff358caae95bfcb115ccf016888b7864cb7ae9a73a3a20e2425945b1ee93672);
    Added(0x9002540000001000, p63, 0x20000000000000000, G65, p65,
          0x761c78a13c10787c84bde67d9082807067a1a1d424c256b17229a4fcf75df4bd,
          0x1724df2a8423826b1d79eea7ca3b8643c0ae8e849620ea18fe774668fb5d752d68e92274dd9bb7ab495e66d7a00ff9214c0b481cb3616b6ffedd04060d7a925dc6869816db34fbe4f85cc8d12d2c72a9efb0669a632f375d140ba7eb1e71bcc2a0cae0bd969b32f8c5fbcb3b3862a7bc25f9fc39d335aa453e0bca5382d44b,
          0x2c95914c5ae1e500f1648958f23eba8c0911b3323c6def1aeabc98deb971a9b5,
          -0xa40a538ddfa9026f6e4640e2f0fe1094ea993a0b0c86cdcde5b749754cacc274);
    var p74 := Point(0x368990e1c3d8e3f47be292f9d36bbc3979669e00a2ac2dbfeca5d7fef5285944,
                   0x6b990c6a3958910ba09d45cdbea262c85cd84439c135efe832ce246f29caad50);
    Added(0x29002540000001000, p65, 0x4000000000000000000, G74, p74,
          0x618ae7516e2ecbbf148b94c725a59f060d5dcc7e079fbeae03032443b2eaabbb,
          0x16cd2839c463c5fc4ca167f63aae876ebaa29fb4ec23b37be6bfa41269bec0941b30ff20239466ee5c7deba114be40d14717e015ba28e2722305abd239e3f6d7517459e19de7088ea35fb5f2a6e2c0e09e38ddba420b19511a84fc0f9a09f2b376bd0adf3d32b14a36a9aa29419f9ea9ce76d1dac80b30ce4264caad06db059,
          -0x4e5ae15b9d6ab3be9274a40df7afb92132b655f7ae50b0cdb9ec4f81d39a06f4,
          -0xbafc91c46042041f3957d9b63fba19df4900d121f3bd04879c83e647442b660e);
    var p80 := Point(0x1838ee5d7500212eeb012928673f8ee0ad2f49676134f49ab572fcc5f58f8f71,
                   0x119d22e2750c3300a865f65b0c8351a9043c7ad606f247d7276c823f36e78c91);
    Added(0x4029002540000001000, p74, 0x100000000000000000000, G80, p80,
          0x543ce6e2b11485b9b935592ee8bccee26b74d4cf3700f20b90d07d8558f92680,
          0x147e741798776bad93a485ba336aad1f56bda2b2e899af245e1efccbb238e75f5408d4c5f8cf7e22059a132dc151eae78e9068d02a2480883cd12fd81c5cf33af41e18a183fcc695d1b700b1b87b730fd837aeb7cee02cd798f89631e74959e81cbf1050193dfe76982645467a5bcb5e018205d8ac0f939cd0b6ebc50e29580,
          -0x5a71cd8cf4e3429ec61cbdfefb6749790f74a5601c8354ca972493372c149cb3,
          -0x667d8c3885ea40aff267128f94bafa018dd23ade152ae572d72a1a99e17da07b);
    var p82 := Point(0x36eef72567fc016083280d18eb94f8cdba347d9371478c4d67f3d4015d49343f,
                   0x6fa65e6ff73664be0794c3d0c18fd94bd622b6e96627b76fba0b4a855b456f4c);
    Added(0x104029002540000001000, p80, 0x400000000000000000000, G82, p82,
          0x2af54f48e45b1463f9c1a0306254811d97fe66ca7c67c7533bc950643362c432,
          0x49eb1047a3231f8ce00dc5b46710651903e2070cf32ed38d2482350bb116807fae31d8ec35e4b8bffd94798aaba390bf85216c980e9cb5739a659e7ca0faedffe80cbae8cf79fde3d36577edd359c5e14e6071009ade92c07caac0039370a19cc91d18533955a7c2643b77312d00fbfdbd60e428f0b0167f32c32f8735822,
          -0x1d6bf4d2ebc2a94f5ff9b96976a6cdaa209fc45ac238b49741d2acc95677166,
          -0x353645a1f3a2ce05e1075267c9b8328bf648f1465488283f41248f110ed9ebe3);
  }

  const PUBLIC_POINT_UP2: Point := Point(0x2819baa755307243eec65b55dd4a64c7b1fcd0e375c4385565bf4f2af27f0a2d,
                            0x5c2d36b3e31ca23f84dd4ad1c39976d14ec411512e6a8f2f29bb90a55e14efbf)

  lemma PublicPointUpSum2()
    requires Fermat()
    ensures IsMultiple(0x22054504029002540000001000, PUBLIC_POINT_UP2)
  {
    hide Fermat, IsMultiple;
    PublicPointUpSum1();
    Powers90();
    Powers102();
    var p86 := Point(0x134ad428e487288a1912efa94d787f3f33ade59075ee99d4fb11f1e8f6c5efde,
                   0x794a0d6745f7372202fd625fe7e93a2eaac0a5fecefd853c81c2800173589757);
    Added(0x504029002540000001000, PUBLIC_POINT_UP1, 0x4000000000000000000000, G86, p86,
          0x48ebe4d7c67dfb9a626e7e7aea0a201e0ad1ef75a35194907924b7cc1a3aa24d,
          0xde48cf2c0c08f5a0c7ccba2eb8c5b2c098b661cc46ca9a15b2c209b1d29460ac5ae8ef5f1817ac583e7ef071ddf6b42ea96b403935b7836f15d713a45607cb7691acc236bf241d047ed3921fdb40e97dceb923d5e6e32717419978e6213455b9e132bb028bb4062b4aef2b8e9301e8ccea6e36bd352f617ddfa70857324283,
          -0x4023e283bfa40bcf3fc78c91ba8977c44dfd9b1e127dd4ed86a0f548894db72d,
          -0xab64ebdacb3be1709a4dfac88edb97da72d5b38ffaf9f0c32a60445b9ab8b597);
    var p88 := Point(0x6c64ff85e1f28da555dbbd8ceb1f84f27678534f3bc70416c3ccb5c2e696215a,
                   0x379287453e664f333303637d5368689ff4a0c625680154f9a855f130b1288c29);
    Added(0x4504029002540000001000, p86, 0x10000000000000000000000, G88, p88,
          0x5c440c0fdc0e5c9c26e8f2a1d68c7999c3d07a34ea720b002d9266c6e1a549b9,
          0x9680ab276426e681e2f6614fafb39af1b73b3f356b66aaee0b573de07ec22fd7b4d1d0c507b974329ed56184141f4216d3cc9b0f4785ab91623cecd2850cd1301ca069241f2e19dbd0a98ee6c8e97cdcac62ac80a7d796962555d250b0773530a2b8d7378f61d51e76a6ad80604e4a53f68ca4cfadb1c96eb1c2d6bb481b97,
          -0x1f88c416085faa5fac6943c4e93927b8a492201d46af1d432acd1904919e627f,
          -0x72e7b2128792c9c5f08d47fa63d3510e71302ba4a0f7c3d6d025be13250b0390);
    var p90 := Point(0x1ab667069bfeead95a87cbcf3eb8b5ee53d48b118493b78a111dbce3d462dd5b,
                   0x4066e8a4535b87e073d64d45a7232b726b1ee3b065cca0534963a33ffb79e20d);
    Added(0x14504029002540000001000, p88, 0x40000000000000000000000, G90, p90,
          0x446285608aaabb73239480a81459c67f9e3dffc7f7209d28912eaaa6d0efe982,
          0x1e9351aae874b9506716fcfa441107fd2d6f51d7d7eb4b5f4d47e98a449dc7848238c268189f053812167ccf166be1dfeb4d1c667a729d20a7446cebfb6b71e8b65bae5e7df0d550ddfaf5f8b15e3b446b988df7b084bc7934f54ec0b8ff63288626a28f18ebb6cc56077a2f18bc45f4edc33ccd4cdd1b7401aa331153ac456,
          -0x6db3070ea64191f23a015b1ab65d401e1cbd5cbb853d49a5eb833e7ba25ad201,
          -0x92b981e6b4675cd68cfeaea2a8076eedb918d321ab49fcdf1f4ec8ed94c97a45);
    var p97 := Point(0x2a1a53db8e191d86d09735455c7751aaf10d583ed314baa7db2ad87c1a0c6b5b,
                   0x1fc8f417bb418c21d8a0dec79e1eea0415987ea0e09e822bdb14887e429c2fb2);
    Added(0x54504029002540000001000, p90, 0x2000000000000000000000000, G97, p97,
          0x77995eafe15a1de4a5c833c2c6e200c79809e64c27e741f0119d103abe362314,
          0x6f0cc659b1ccc79e9f8d1f817b91110dd0e88e255265ca18bd294c0a0046385828313fb87c9ce4c87bea351d4e0aef56089e65c3030a2ffa462b4ef3e9f99c65439a5f090f5b71b412e558674444d935dc71ab34a371f7691a6418dd96db9b508b52248efaade821e12ad9d8230eb020cb33d1cb563befc06fff9a4dafc184,
          -0x1420f7f8dd71dc58d6c1499fc7aa8b22c13214286c22d315ae65c34807f211c6,
          -0x5624780d69b7f5cdd8dcb9eb260e53eb573ec73ef85e941b99828f0c06d18d5d);
    var p101 := Point(0x2819baa755307243eec65b55dd4a64c7b1fcd0e375c4385565bf4f2af27f0a2d,
                   0x5c2d36b3e31ca23f84dd4ad1c39976d14ec411512e6a8f2f29bb90a55e14efbf);
    Added(0x2054504029002540000001000, p97, 0x20000000000000000000000000, G101, p101,
          0x123ba1db96c783e6441b5d0ee75d0267de4085f8a50012a522cab0c08798edf5,
          0x1ca1cfa84ef68e493e3cf40f41bcae24f962533e778d555aa0742ef2cddcd2338c724bc4ac80412c3c34e9e59508b63c73ff6189fe76fe64add0fabac758c8d87f39d0e736a515abd5155a395729f8e100e517ab49b94b1f51187c50f296e73d6a13fb0f2519818ea80d10bb31c3730eacec7fc2a6ff9d0724b39c32178881,
          -0x1525a8c63919a8086dd4e1a3fc553dff3c89369154f85853f2400c54b8e7c81f,
          -0x2855d7dd6e65c4813899c15603c6ae915a82be6f35804089979f77258655a4c1);
  }

  const PUBLIC_POINT_UP3: Point := Point(0x2bd17410895e34a33ffddaed8e4b7d0ce6de0df1b2ef0455bdefc6322b3df42e,
                            0x19d1f5c76dd30b71656876bbb8f34ce1ec0657ab39b4ae834c8a72df1d6546f3)

  lemma PublicPointUpSum3()
    requires Fermat()
    ensures IsMultiple(0x240242022054504029002540000001000, PUBLIC_POINT_UP3)
  {
    hide Fermat, IsMultiple;
    PublicPointUpSum2();
    Powers114();
    Powers120();
    Powers126();
    Powers132();
    var p109 := Point(0x7cad004799ac5bcfa3d501fb049318c21e099f2690ad51ba120652a5365ae389,
                   0x5c09e17b25fa1f5d9d3e4576c442ec68018cc4ad63391d3dc03f7ac48beba3e);
    Added(0x22054504029002540000001000, PUBLIC_POINT_UP2, 0x2000000000000000000000000000, G109, p109,
          0x1e1a12bd96159fec5efa2144dc53deb52f1b0d554eb8f5c90c674868b6e9df2f,
          0x127cc48f944c864021c1be85b22a2cc0f963cd7e662a0de028a547e46d2b1abb74dff253fba0141625aa48fa470dc2849ed0648b09403d789cbdfdb548c70c43f48b4bd7a6bcf41c692753c695035172816abc9e910b0136cd841f6df61ad46bdc13f4bbb071e146e017ecc94724da55fad65c48e270da270d16bb233057123,
          -0x44f0accf18841fe94b6f8d37e000bd65f3bb0d39ba77069054f654754c2ed439,
          -0x5b4723b40a7e23127f042f8025f275789d03db5f24e671204c34795e6173e26f);
    var p114 := Point(0x79249261e0f1ed2af849dcad41330eca50452160bd957d5537c9816220dbf526,
                   0x51e55bf62adf6d249e979eff2cb825c107b5b437c743263efe3193e4c196d818);
    Added(0x2022054504029002540000001000, p109, 0x40000000000000000000000000000, G114, p114,
          0x26ff9381ce4579f16d773e5616dda4ee9379b091edbc0655d1eaa06ddb3bd5e5,
          0x7fddf4e6345a72d8e7c217d86dc9ff9a9d122a746c61ffc48de8561336752433a1e81fb841dafa83a6757c84aa39ee956addfb725004f7e4342d703c870424ab2e8d446f7312c1a63c5fbb02d2d341da9b3561755edf29235ba55a3a84f4b5ce6f59c9d3d564b15a94e18aabb5fd0f36ba7dd20b6d54a54694e919cd2f44f,
          0x165f84429c02d304d7f224b1cf39a2ad40635b03a042b7d377aeaf603bb14b6e,
          -0x91c5d4188e35b19c36d5ab59c3de6067060fbfa36a497e9b1f360673c722dc4b);
    var p117 := Point(0x2da40296ed78f369e0168a72dc65aba3ac462158cd92cfa4c6631978f371f691,
                   0xc2fc0eb7b419b5537c4ef9bf0375e0a3ddfec5347fee766bb474a7a77c2e96d);
    Added(0x42022054504029002540000001000, p114, 0x200000000000000000000000000000, G117, p117,
          0x57ecdaa880c64cdfb44b66fee4093f97299a3429fa03fab7b76d86b214526a22,
          0xea87ed50bb7bd022933b039edad630643e66cdc68bc9160bd5a1670d233adb5280561cefb62cdb96813ba5a4af6f2a7253b332f234e8a21798780d0e739f81e8cc9b00acbc197c304fa175e2720ac4c6a4316ec4e33525fff584464384f6066d389ed8e11b49244969fd52e07440871d3b67fdc91adee78e61a213ddea47b6,
          -0x4a2cc27695d4d828865be7e5110e741d1bc66994a8804f39f567ab971776cddb,
          -0x5ce8ddd8f9defcf4fb6e2c60b9d972a7da25e65af0bbfe468c603510bb018135);
    var p126 := Point(0x7e4063479b8a71b72ac29381a4da108168baf5febaaa5861cf7636c780211950,
                   0x607f0ec3272189748742b000b0585f805d9339978d614ba0bfbc81d403dc3fe9);
    Added(0x242022054504029002540000001000, p117, 0x40000000000000000000000000000000, G126, p126,
          0x1c82c8e637c8d6db4c60befbc8668de1038116754a83312e1eb6a8d25ec4fe2f,
          0x1145159aa6e55201fed8684b5add26680f6992071a64326bd3886f5fef5c031058207cb9dc6dd5eeb8deafe5f7cec8a220db62fac3f4391e06a38a52a28179256d3b7f30362b10a4f3a60e3ec651e3b17e341c5fa82bcccaecafc432c819c8e1a7ba768f05d7ab53d8d99161d92f50759484d3787bd0d376e1b2f7328a0155,
          -0xb4755f5b11e6ef8a3b7d1e5aa1c62984ce0be30843015005e0b5962df979b0c,
          -0x2a4de153deacfd862aba3dbd20ce3b7e57c1c7fe18913344661f628e72630052);
    var p129 := Point(0x2bd17410895e34a33ffddaed8e4b7d0ce6de0df1b2ef0455bdefc6322b3df42e,
                   0x19d1f5c76dd30b71656876bbb8f34ce1ec0657ab39b4ae834c8a72df1d6546f3);
    Added(0x40242022054504029002540000001000, p126, 0x200000000000000000000000000000000, G129, p129,
          0x6dfbcb0cb5cd22f010ee124843fcba97f789dff00d42de43bd25257c505d75f1,
          0x5abeef1e71b601a8bf3a7109908693cc99a2ad2621dc68d8ce710434ffa7dbb608a5e07d818842847fda843348bbc1c974ae9471ae3c0c468f483083a624e3b032d0af82c690fc57ca03cdbe435f22e810aa84f23523198e424e0e74aee2b74395cf4b6f1e63e269280e0e8ba8abd74f314f03ce9c9ccd1a17696adb687df0b,
          -0x98fa45ceae0a14070345dd2419a2daf4c6abbe1c8ff0f6549d016c7493ec6f15,
          -0xd9469ffd933435333f0b37f037706b43d95ab545390beb42007c6cc574d954de);
  }

  const PUBLIC_POINT_UP4: Point := Point(0x6c85eea9b0671c38e4970d96a929fd4e94c636a9f1bad1486dc5548d759d6cbe,
                            0x4a57ed9dda1dd473de8782f64a2f039ca41209262a96eaa9e8d07d13a5da986c)

  lemma PublicPointUpSum4()
    requires Fermat()
    ensures IsMultiple(0x828800000008240242022054504029002540000001000, PUBLIC_POINT_UP4)
  {
    hide Fermat, IsMultiple;
    PublicPointUpSum3();
    Powers138();
    Powers168();
    Powers174();
    Powers180();
    var p135 := Point(0x5aa91e205e0c682151b28c67d54b3b7b3be84292d6b92cd4ec5c3d56022c522c,
                   0x30e351cd81c2230f6b45bb38e96bcfc52e53b367295c68e5c4983b295f90d0d3);
    Added(0x240242022054504029002540000001000, PUBLIC_POINT_UP3, 0x8000000000000000000000000000000000, G135, p135,
          0x3a37ac06570ba2433e1fb937fdb8ef6d5dd9c9723ef9cdbdaa47cd11f9671d3c,
          0xf7b2eda6b33102f49f0ed2c6c3e51871e08b43fda30826f5551076e97c1a8857c1d3884849fd263e2f41b92e3271ab103a7161c7d42148d377696e325e25c6dc13e9ecb111b8f7f4755e659f21eb567eada894d80ae7f1e55392a330fd5f55dbb7dd7a40ceb3255a09b4e3b124069b946b2a257dc4a03677ea88a54417274,
          0x142246824f8d85f811e90bbdc509a209772d5ee14501f8815bb13edf067f93f0,
          -0x2a1d64c794747b29e0b862c52165581f148f875811bf18e38bbf7cecfebd3b7f);
    var p167 := Point(0x64cb7ec6672cbf0f319450d8f0791dfd9e60d74d68bd921bfb079239e5fcb4e3,
                   0x302aacc6f97028cd87c99d9763d809b6e73d0f4ec79a812c31df5a3b5051bcac);
    Added(0x8240242022054504029002540000001000, p135, 0x800000000000000000000000000000000000000000, G167, p167,
          0x7626f68554249eb12e781ec6d09e14c7de246015bb2e00a4ccf15a2c23bf1aec,
          0x12a6953ba048cf0e14fc8433a09e5868fcae772ac60318a5dc489dd69698def75fb7cfed17b219c272f3aa39347172f4e9ef7e3c11dbcbb7e56b5418948a92349d9a319b17afa3d7b718dce933527d25a8b81779aba313724839a31f07f0b43867d390b179d5cc22438221c784ffd26f2c8636e4b260b523c3d9913747e00cc,
          -0x10927b0d86ad41dcb6988e51916b0bb316d03b3194365cee9c4f9297d7c47e4f,
          -0x833a881e4346f69a66468773eb0f4a10431ecf220af6ec7566af3b5e3ce8fa19);
    var p171 := Point(0x5d2179616c4e298b1ae66d663a8129cfbcadad184b1352d43d6c78a20a258b52,
                   0x1fcc71ebbb56d5e87fad6e8ca3eef63c3d622fcd8aba43fe92dcce5f6726cd6d);
    Added(0x800000008240242022054504029002540000001000, p167, 0x8000000000000000000000000000000000000000000, G171, p171,
          0xebd5afdbf0a84a542cb3069e76c449d396d315d79554a6abe359da32120c4dd,
          0x6b29d1bfde930ee6e6b82b7ef438d15dd111e153fef7951e5da1ce6789c9d27d1f020cca07b5e70087a48128200f48efd95fa87157e19a3e92debba8596603300924ef6a2c0fda036efc77e45d132ceb45f39b6fce1d0895dd37b951c1a3e155a95cccc076e6642970221c3a3e720469f3e44164d94f157a9c70be650e353f,
          -0x2f61258843d25796495dafed01d5f49dc59e5ec9b999c6fca67caacacc18448a,
          -0x63b37a2d44d35e679fd06a70656b89926e0a2df2718f43d47e207a9d81574112);
    var p173 := Point(0x9a665c2340d4843edd0e0a89cfacb04621c4144c513a4db45b21c9e0854924e,
                   0x68effd7f1bbd74413fc5c8e0bcbb5953fd9e9f73ebc8f57118a0cdaf00bac483);
    Added(0x8800000008240242022054504029002540000001000, p171, 0x20000000000000000000000000000000000000000000, G173, p173,
          0x448c8a34ded53a2fd39104a147aceab56ae5609c4eb29558612a1b65a4addc11,
          0x6892c4dd4ff5855645b781e859e61e672da84107cfdb71adfacd9950b3e403d6c161f3bcb71769f4137ea8950b4e6a436d78bc2f8c8692107066099ef82041c8b3bf8341a7e0aeb6590ee59a79b15c3feec07b92ae2f90aefe9b8afb9bd3fac0520c6c25e133511d710e8a78ca666bc78223e203b95a6a340e8dbe5b20c48d,
          -0x3825f0634c84432c3b86df20bc60d57fad799a41a0f745f1e039a0e15ba779a9,
          -0x709e4890335ce09f9cbf748d647a2b27479479e162120199ae999c356075ae47);
    var p179 := Point(0x6c85eea9b0671c38e4970d96a929fd4e94c636a9f1bad1486dc5548d759d6cbe,
                   0x4a57ed9dda1dd473de8782f64a2f039ca41209262a96eaa9e8d07d13a5da986c);
    Added(0x28800000008240242022054504029002540000001000, p173, 0x800000000000000000000000000000000000000000000, G179, p179,
          0x335c5155840bf6522901cc9589bfbb1b27e2e03bfc655dedfac0aa5d10e2955c,
          0x97e1a6a99062967c5a7a22a3957d53fd0f5e858dd9338ed06b1b0f6f2ef0321970a78ff03ab61233742cb00f903f1ad8170580401324497ebcfa6ce162018962dc1950525665dff0423b020f355c74eddc3ceb5c6efd1a36117eb6121cf83e2ada9dfa0630ab5c9df7157564de4aab28132aab69528570e948440dbb15e14,
          -0x34d78bc8c7e513bbcf817d6dc2c2f227cd1e4eb688b47dc69b9e6f357ec79be,
          -0x302af32041dd7e4337259a47013802ce30a208cec80287a8efd33a48e596bcd6);
  }

  const PUBLIC_POINT_UP5: Point := Point(0x646eb0d3f1526028344b897667ae44b44776e28e170c2eeed3443688bbb8485c,
                            0x5cc51a38408debe2f19c196a98f22a48cf8e0e927c8b70f8ff4816bd2b0176eb)

  lemma PublicPointUpSum5()
    requires Fermat()
    ensures IsMultiple(0x102004a828800000008240242022054504029002540000001000, PUBLIC_POINT_UP5)
  {
    hide Fermat, IsMultiple;
    PublicPointUpSum4();
    Powers186();
    Powers198();
    Powers204();
    var p181 := Point(0x3c53f3439a5b90a64efab6864bedee3e73ce5e9bdd6dcb5294c54ffad7dcde1c,
                   0x2d242997480c7c25bdbb3373aedd72e1c8e76a8a03230aa0a438b8e603023405);
    Added(0x828800000008240242022054504029002540000001000, PUBLIC_POINT_UP4, 0x2000000000000000000000000000000000000000000000, G181, p181,
          0x570c3864a9dfbdf6d6912d4151d4e2fc77c99160987bf6af03ddb667843ce024,
          0x84eafb74fdffd467637f5aac765fcc9f931d88b87a0daee2c20c3036bb36fa335c49b6c90d7b83c269f5dc3882c6142abf57d37125c0c68b2bcb4d9e3466b308522fb664c2560f8dce7a2cafceee0166519d4089c5f42f8f6fbb2bd39decfeae40b6f0608c624cca0698667afb3936fb83ebe2af03a22cdfd25767dd8dd9cc,
          -0x25fe9eb58ea79c75de8fff10e70c12b65bc4fb667f3e6800b27c4406b9078ed4,
          -0x88642885a95d57a70ad3ec1451df73e8fb874ef2388ea24a8a5683ea5e0e0e5b);
    var p183 := Point(0x69dd8522f2c2ac919a06ca3631165facf459566b5513bd94cbecd2050066946e,
                   0x4771afcd081372f35c396c2f86c330633ccb1e2c19b44860f791a28290bff006);
    Added(0x2828800000008240242022054504029002540000001000, p181, 0x8000000000000000000000000000000000000000000000, G183, p183,
          0x43be0610f8eb02e5d037d0f714cf13345ff621757723d6cf744a6fe7b79e0945,
          0x5a3491a56cc215870acf0982c5eb0da59a14124b4915b7d0668be6a1d93df74d4e457985909ca1027cb1a121911a6d083846be54820c5afc308527abc807539dc54bc74cb7969bddfc42a93622f75653bbad23c1ff50f8a98cf23c643965fcd5f3abf812706ed36c694a9b673fee1b93a96353c580a5586c97984a622e3c7,
          0x2c0ed660ddc952fa4b7b078968f62515f3e3bd6e83d743f265d60cc59cb8aeec,
          -0x31d2c55dfa2038448cab7f93712567e45e2a69e7e80e2796faf7a52a81a6ef16);
    var p186 := Point(0x54addd79dfd42b1e7b05657715e7798e49c42435d59cb656fde3bcd4f5e485cd,
                   0x6c20ddb205ef99857f3cff65d923d36d7e079b9d5455b2a00b8ceffd4c3e465c);
    Added(0xa828800000008240242022054504029002540000001000, p183, 0x40000000000000000000000000000000000000000000000, G186, p186,
          0x7c4846e93da40f6d3d876d7460266761a2601be951138c154709283b9d776a4f,
          0x653f313447dd3f4c74edbe552d4b3b8a1ed3f720c6ac7b588e2e53226e3f9aa38eb574f32bff5bf0cf831ffd21f4cc0172c89a7bf8b42c435faf649b89368d9c792c562745a4ae32ef0639ebc98ab88c542e14b65848bb0394aefd07367753d6fc68e6ec194e3b1cc66ba380b654e7f555453e79fae8d3e3ce787cb6dd9719,
          0xe8953f3d8a398b1ee913beaa17a05e25d5f2e00c87fa175ac8b1c7bef0935b0,
          -0x9fb149ad3ea260ba29ca5e606701dfd965171facebce4e879736b01f3ee0b458);
    var p197 := Point(0x4e6169103a115d96d6a8c035d5606dbb7e4710229795fa1a3a1a0b4373a0e74e,
                   0x44d77251a046e1d799959b8c0178f1ccc8a8af95fa685fc355fa2673b3834f31);
    Added(0x4a828800000008240242022054504029002540000001000, p186, 0x20000000000000000000000000000000000000000000000000, G197, p197,
          0xe7c6564834b474d381f09dd544d100369a11879814b851e01e1b3fe8227f693,
          0x31abfbe99cdd7bdd2d247a136dcb47c58ee5fa6a07fe48fc31bde354edf68e623461172b2df7dc0af2c697a3ec85937acb889b38577a3e29776e4687e7a73908cc615f562d6e2ed752a913cf5b9d313de0aea27493558e7db174503ff4740322cf95929c765142916e4bd2aaf1bf7d5c608991d57fff5ef620170ea0365d71,
          -0x467e05bec363929a78d0de2f5472eba7128c8e529f43df0017d79951840e0416,
          -0x47fa48cae061e2f4c46f422f8d403e7278c833fdd63a5802c439cca1165d2ed4);
    var p204 := Point(0x646eb0d3f1526028344b897667ae44b44776e28e170c2eeed3443688bbb8485c,
                   0x5cc51a38408debe2f19c196a98f22a48cf8e0e927c8b70f8ff4816bd2b0176eb);
    Added(0x2004a828800000008240242022054504029002540000001000, p197, 0x1000000000000000000000000000000000000000000000000000, G204, p204,
          0x48dee111ae7af051f72178cfac7e4aa933521e87066332d4628dc2080abccb9c,
          0x3fcef2e8cf8c0adc89c77f5e6b5546baa4601407f86805de1960945b111e765451099be1b3d495a977f1ed8216bf2986374c3dc9e3430b3ee5ab35f9f533a2bea90477431051db6e33102b97d41891c45c4320eed0242b72d088abd80e737716ab297b71a1e8f2a95e9c8f71d91ccd15da77dbe2ef15a09af72acd9da03f34,
          0x5ff609e79f0ab8a5fb32fadabdfac8a8dff4fa215fc53b272db029fac6770d7,
          -0x64419fad3807cc22098d6b24ea3782f6a16eeee48e47577e4ef3cbb69fe94b13);
  }

  const PUBLIC_POINT_UP6: Point := Point(0x75133ff24b15f9e91c71b85d1c302d9f9e055366b4423763843c21ab69d1049d,
                            0x9a43f56394793728aff6e8fd95995788c1345e5db9978cb5ded737abc2dd640)

  lemma PublicPointUpSum6()
    requires Fermat()
    ensures IsMultiple(0x852902004a828800000008240242022054504029002540000001000, PUBLIC_POINT_UP6)
  {
    hide Fermat, IsMultiple;
    PublicPointUpSum5();
    Powers210();
    Powers216();
    Powers222();
    var p207 := Point(0x480bcda0639b27622f3aa715a32cb1c8d89b963cd27729731a425e5b138a9a1d,
                   0x449b01f7f01d2dd9e5b747233a7bbd5a36c52dcf3bf60a242f5e8cd957d0cacb);
    Added(0x102004a828800000008240242022054504029002540000001000, PUBLIC_POINT_UP5, 0x8000000000000000000000000000000000000000000000000000, G207, p207,
          0x44b720511035a1c3d342a7f3a769be3373f7b3780a4b29df412d5814048e750e,
          0x326b716e8663bc437b7317a843f66fa6f973da37aff7854199c29e0fb7cf911981fd0572a82326be937eed0c899ee87b3c518cf7468bcc117bf79ec5858e339180cb7c7a05f647710bb7c6ed77ada20088f0ba61c18e27c8373eea5a8a97a69a7001e4d416f46713a93a3cedafa15af8cc44c8c90f7826d04f4c3f2045a115a,
          -0x6a94a35865b908c1e221d73c0b1f52d87ce4159fadb6dd5e4dbd86e7ac93366b,
          -0xb4172cf6ec5e630aa37bbcddbc0c3e1e9ca00c2cb7b18b738cb2fb97a65bb6f7);
    var p209 := Point(0x7733a7c056109a0509f19086ecee88f47f346443bd95aed171155c21b30a56cf,
                   0x5d64bfc7ddde9c8958d29179c76b18ef778b478882dd07acde1a7cd0c591938e);
    Added(0x902004a828800000008240242022054504029002540000001000, p207, 0x20000000000000000000000000000000000000000000000000000, G209, p209,
          0x48b4b44b7c1ac021ae04e41330c06b29fbf570591b451e93362a6ae6c290987d,
          0x60afce977e494d9fc0d26427fadecdfb14e5338a1bbf1d5aa435fe98268aa76d336604544c580e30d8578bc95252d6df1b4ea3049991a76368386a9bfbe1ac393ca3cc64316a77ae00fac23be608a2ecaa47fb9f2dba77a16762eb5542c4f6f80a8acb7c7e81425d94363ef407fada57bc17f66f94cf3b3cee897053ee5e33,
          0x11de5aa4e9ad52bb36173b023030e6bb1dcf5242743ed3bc4c1f2c28026c9229,
          -0x675b533e7b80f2eff500ac2cbf12a72b105d898741347e6069a23e90b925df5f);
    var p212 := Point(0x37f0f2ed3f4e2b175c36b44ddc18387f44a73fc71d1d0574526b9b2ec1cd7b0f,
                   0x3fbeec20aba427cf2d677aee6030ca05d52e14e51dbf86785a561f55544ee3d3);
    Added(0x2902004a828800000008240242022054504029002540000001000, p209, 0x100000000000000000000000000000000000000000000000000000, G212, p212,
          0x36ebadc3c8a76e1aff28d3b20ae36a7e8a2f9a7b026213c1ab615002292105e8,
          0x6b78bc0b597cb7c3a550a5b558a7fc38ef1086cd7d1ca8535a34c9819e233b16e53bf6d6dfbfb4d7a2cfc247de74599749177d04b679b310925edade2272e4f166123fdf0d4c359e0dc1fd927f8b859d8a95e1c8bdf7722f8e0fc0d89bf16d06ca0e80b9c44dbbd9a371befb4d32cc305b2a1f4c54b74b1dfa1a3488fd9dc8,
          -0x3f674e9944c48d806399cdaf6edf97882152c30b3595c0025da493e9bdc72eb8,
          -0x6406225918e36ad6bb12d51c48ec8456e2bd5d614ed86862eedffd7f22b71ea7);
    var p214 := Point(0x37489c7dde2afb534517ccec6d472cb7c7902acbd953415296ef9677cd793211,
                   0x18ddfcec1d9feaa4706c1dbbc17aec56b9e23723670b28d70b7639df38b5c830);
    Added(0x12902004a828800000008240242022054504029002540000001000, p212, 0x400000000000000000000000000000000000000000000000000000, G214, p214,
          0x26478143158ac0506f11ce40c16051da0e625c8eb45771afbc7376c46ed2871a,
          0x145f6e0f35e09bd1dcc6fb506b0a9409c0698aa22f10a280e77f0b19e072b008a1057dd0a78a8222854f9fcec729ab4045e42814fad8dd69d0e683c156a9f06d00e7716b8d06fa72abd4d4d1f629e5c44ad710d2727ca60b9ecff0f50a01021000b9decc17e5390a88c3a7d515a1b3761224a0b940271ed7d4459589df2de26,
          -0x4bb153c62e7574b2a6da6fd9fe43a5886a8d03b8e961c53ef04e9e9b53949c0b,
          -0x66f46cfbaa3d0ffb5bd5386a52b1d5e2c74fbc16815137f3375d0833563d456a);
    var p219 := Point(0x75133ff24b15f9e91c71b85d1c302d9f9e055366b4423763843c21ab69d1049d,
                   0x9a43f56394793728aff6e8fd95995788c1345e5db9978cb5ded737abc2dd640);
    Added(0x52902004a828800000008240242022054504029002540000001000, p214, 0x8000000000000000000000000000000000000000000000000000000, G219, p219,
          0xedc61e9dead565e5d6ddb13e2ef643f2f3dfc4370a0089f3c53f1bcbad5f7a6,
          0x5b71b99f52192c9a046e13c24ff295276e5422a3bbcfa60046640466e4c957fa192e3bf5cbad83656becdc9becc61b7d924fa8af3daea07c165cdc5fe6d38827b52fa5589ecc0aeb565e92e447861adcbb6f467156c196453a0489e85bb5f6698a45ba127c6562391ebce849cf24934d0b385ae11c4849b42567e25b820c82,
          -0x22a5f141e2691a821d8d1a7b3b9908b34e34da83ed81d10c7df768c79c1f3759,
          -0x3bbbc23aa6b6bbda7d59c7a37333c42f32a42b2a6030e9a56ded5cd37f2eb796);
  }

  const PUBLIC_POINT_UP7: Point := Point(0x5ac5d5f6517563079d5e96834cf61f97c35bb0bef47160f3fac1714abd249b57,
                            0x13eb5405896a274e457d3d3d563edbe43d4205f0f5bbe4c18751a37e5669fb2a)

  lemma PublicPointUpSum7()
    requires Fermat()
    ensures IsMultiple(0x80042040852902004a828800000008240242022054504029002540000001000, PUBLIC_POINT_UP7)
  {
    hide Fermat, IsMultiple;
    PublicPointUpSum6();
    Powers228();
    Powers234();
    Powers240();
    Powers252();
    var p226 := Point(0x2611f02fd5df73f528bef7614757caeee4e3c1bd6fae8e12f56313cab68f46bc,
                   0x31b55784ff187069f4b892eaf412759a33d124da2cd2a45236c4988189952555);
    Added(0x852902004a828800000008240242022054504029002540000001000, PUBLIC_POINT_UP6, 0x400000000000000000000000000000000000000000000000000000000, G226, p226,
          0x3a7744cfebabfd1e32e3d1db0e5e541850e13030a24fcead4fae273db0310851,
          0x903384c5e016242bf1ae6a4556486a48ae02a2a36228023b3932532a9a8c10224a49d53fd33f7d9480979c07b04d8b186b4af9f9d7e601c2365094a9ffe390c4a3757bd7f41171e6e84084672544d62b247d5543a50140e149ea07a5703ad2e2d9c80b326191cf1bde97ff7d69d07804246e03b8ca26a2636d3662190448b,
          -0x1126956ed5ed32c5e7d5f86df0908c4082ed0db7f4465a2a077c5f299e396bbe,
          -0x2e38ae547d4373bf296950df1d1dc26225226d5b9549853d35f357b3f16b8ca4);
    var p233 := Point(0x335217d370b31556f59df84d2920c16d1ea7c6030338234e3f15303cba21f352,
                   0xdc90027eaa7a330359c62ab47bb1b1d1682ed588a507b48cdf68d660a5650ee);
    Added(0x40852902004a828800000008240242022054504029002540000001000, p226, 0x20000000000000000000000000000000000000000000000000000000000, G233, p233,
          0x1424f4b56923ab8c580ec55dc88caffa8552e23e893b6b31210da367d61253da,
          0xe83e1f79d4666a9db48c7fd421e796a9011bda27632ac34f8f1d48752e30fa03bd1a6dbe1d03101fedf540a278c43ccf48d42f7b6066e943a60cebdc69a1f1f604834ff162dc482bf1f2e222c0e898ada05cbee4d05147e1ae3a8c9bb214069b8048dc4298c9f10d77fb03500610bc1782ba8d05995c505d5fce2ec84ec1e2,
          -0x44277a12cc1e1e4bceb0f7a5050f6892bee44ba4419509aee0e42589fccd73c5,
          -0x50348ca171460dede944d5de2737994d3f14afb2d59cd65bcf7791ced533db45);
    var p238 := Point(0x38b98c4a46eacc336637cd166e93d083a1d6628c9a76ebab25e73dd12e868f81,
                   0x170cd9e289fed40659b81e154fb7989f6e64f6e89918cb6ff060d1b4320e0905);
    Added(0x2040852902004a828800000008240242022054504029002540000001000, p233, 0x400000000000000000000000000000000000000000000000000000000000, G238, p238,
          0x3d48792e944fced5855998bf581729ab48b30b7111f276335c9a46bcdbd2c190,
          0x340fa9463195d4ef5c8ae49547f56f474f07169d62b80dd72bb342311b0155e8d809213fb760b58431262dafc7ac124786b8b0c233f0820d4398c9dec2f01d82a57fb7fe26851d3db357ab166e756208f035452d01e563be24a3e7c8821cbc90a83a491ec7c878c67fb39876530b7b6cde35b1f498a78bbbfba8782f38b54,
          -0x8c87f0712bd8bab6e1d1c1126ba8fd216ff8a619105c0ac7f11dd53afc1a94b,
          -0x16ac8c7b13a4fd01d6a5b6e8ac0235846ba3e86feb72d675a1daf3b9f1105097);
    var p251 := Point(0x5ac5d5f6517563079d5e96834cf61f97c35bb0bef47160f3fac1714abd249b57,
                   0x13eb5405896a274e457d3d3d563edbe43d4205f0f5bbe4c18751a37e5669fb2a);
    Added(0x42040852902004a828800000008240242022054504029002540000001000, p238, 0x800000000000000000000000000000000000000000000000000000000000000, G251, p251,
          0x5c72c533541ec8a7af9263978ad0b52c1a789e5fca2c9008fe61cf54c6f001a2,
          0x11151ab3de38d636b6a085ec085527b6e747fa5a14439f212875c6b11b0dd886a7bbfbb06c2f9bcf428b3be3a0b618cd513d9a969444b9f4c6a268ddc70aa23079eebe5934199e7aab317545424313bf5fe5cbe703de7cfd4372eda38595328ab5f77ecd09dbb42c4739ad2dec068b3eb5f2f0f40e93a3d9787a5704b4207,
          0x374cdd9094a47c5ff95c29bff830dcfc2fdd3a603e267fce936752a01a787ae1,
          -0x13fcf0577aba37b535c1df22725655fed6a0f06718da9e13b68add6b071a84e2);
  }

  const PUBLIC_POINT_DOWN0: Point := Point(0x3194d59bc993bed2050b11635eeb66b568db8dbc7b6048f730bdc71dccd783e3,
                            0x4321a3eab0b67f15f727dfd5eedd47f5c1d2249b2895f877b74993a8d35b1579)

  lemma PublicPointDownSum0()
    requires Fermat()
    ensures IsMultiple(0x4088284, PUBLIC_POINT_DOWN0)
  {
    hide Fermat, IsMultiple;
    Powers6();
    Powers12();
    Powers18();
    Powers24();
    Powers30();
    var p7 := Point(0x75d58688b7f66cb20f4ae95b02579aa96068c7645d76cc1d5bc5a5f9d86e51e6,
                   0x707b8cb23d018a576d6bb321629b54ec8216299216b9e043fc7ece80d95a7275);
    Added(0x4, G2, 0x80, G7, p7,
          0xf09c562f2d0757e2f495ed24c6225cb7891290d2ff93a62a5c390db2414aac8,
          0x3384c31e4fd045e54ab3ef61c00150402ce3c5377f4afab1b21371242a2f0d9678c2148afe4e5a305df8b54e3799deee5680f939626e5ca43677f00b1f45dc12f19ac7c7576244df78885f7abb63eac5af5066bc2b89785a5790b8a4fff2e10d0c53da48b6713101190a05b2dc8d823f0f4886bbc607f9bf798eb6305f36d8,
          -0x1baadebbff5784b8931e4e003f6da41c1a216955e9c4ad4ae2b59d348c4438df,
          -0x322ec6a35ca1866b726e69ef8461d4d43a1212d77d9a4f718ba7102918861c83);
    var p9 := Point(0x52f3ab4da9904263d2f52fded1e9275b733dcd2eecc3ae1e39016a47cd38bd88,
                   0x2858777ffa65f9171889cc438115242f6dcf3106f79705adb878b08ac9a8d2f1);
    Added(0x84, p7, 0x200, G9, p9,
          0x18972e09bd5adc79841f53a9b750fcfccc85110f4f8ff80c013f0f7fef771990,
          0x203c98b0ed4c6aa87ff3e810bef377da2f94ba2f6b7d81ca2a41ca245da541d346327ed30889a58654e1ef1e2cd8cee847a0e00b77bcff0d3412074937aaa9f147361058e146916d45cdc7e550134a1ff891492ec873dfd73a56c264a51b598645327afdd2d546f30c068e9881f2ce7a6d16b4f94cf4090bfef1a9fe565c450,
          -0x67630688b7f295ebbd1c4c0b66b7d2686cac144395679f2d7e93930c1a7295a2,
          -0x7d7d4c2147d3286f19241d39cfaf438d3934d1e056f2b4c163bbf7ad4a4d25cf);
    var p15 := Point(0x6f73ce8af76463929fe2fb3ff1623cc24fa37c92aa2db293a822f075152e6f62,
                   0x5a6e173c7a8cbb92cc08af7cd20cb0e5f92d6d6261baab7aa3b5bfc8bb8c86a4);
    Added(0x284, p9, 0x8000, G15, p15,
          0x2f2c4ee49eaf85ef010722bd90dd6ad3d6f4e274e5556e9e9e7ace985270152,
          0xc1f7d90809ad3b7d60c277a3a11dfa926d614e7188bde2c84c9c314e329ee7f930eb58825c129e319b5907d4aa8ce0da13ec01bff9b1af8100731df5f8887a573129afec7874523debb7754bb9e99b48317db0815a82d371578e319051b9983c2dde5b59ec00d16162038b49a1b484e6260f4df2f22f85ba306c59a95c2546,
          -0x444987283fb5670625f9663e434e6cc266035b5a2013d773797579e7178d94fc,
          -0x51b8c72542f4741761b9a21afc7675b5eeee831a6fb5b3e3476b36e754388c02);
    var p19 := Point(0x2517403b2c98622689b19a9b094ed3e1d672b58ca76c8857b55d6ff0b187b33e,
                   0x6e5957ac125584adb6dcb6abbd7183ef7e7527dcdc0cf02ccd77827184945d9b);
    Added(0x8284, p15, 0x80000, G19, p19,
          0x206700ad9bd5396bb4bfb210b046926cb0f8be2a2b858542ad780f2d00eaaf4,
          0xc61ea428ec0d58f30f558d5baf9e6a7e48bd1f12f58269a7810e2dbd60a6805ce742f93a7221a3d6403980293922f0a021e1f97edcd6c26be22f9b260d053367360e16b03be083a09b72e1e31c09d2cd5233b0f7e436eb2e1e2a5befd682bee74ac3e3cfce6e6b1f413979649ae427e909329ec6138d2a5012b714f0c241fc,
          -0x4952491d6492f4267bc08ada6688569d712bb79c5fb5346e10d75b0ad60f82fe,
          -0x487f025100005b7f419a58bfee8a6592654cf036c6298ed37eccedd9b9983605);
    var p26 := Point(0x3194d59bc993bed2050b11635eeb66b568db8dbc7b6048f730bdc71dccd783e3,
                   0x4321a3eab0b67f15f727dfd5eedd47f5c1d2249b2895f877b74993a8d35b1579);
    Added(0x88284, p19, 0x4000000, G26, p26,
          0x5f88084dad9000c4d008589a23ea9fc70e84bbaaa5ab006c6a5fe896add70cba,
          0xe9d42099b0cc8386153446fcc1561e379452fe905d2b17b7b2a1a427fd0d18cced95b24b147e3d35ced5f6df58568c9de49727c0ed17ad9fec89aeb9273273d1204a2687bed4e6fb994968e9ad0d770c45ac466d1bb746481e291c8cb972b9b9f96bde4b18bf5b2504c9005c17059417196b467d0c35d2ffb00f8610464fea,
          -0x44d5e87df47adcd258a307696728617ec84176f83ad41e18782ce073464855fc,
          -0x80b3ed5a9081df4b3dc872120a5077b23cbb84017631795e0cd30f862b8e3441);
  }

  const PUBLIC_POINT_DOWN1: Point := Point(0x2572d308f88769c0c04494e09e2633d2dda27f889d741a2a0eac7c003aac8ff2,
                            0x4f2f48837489410a8ccc6134e550a7d674038a2978d0f7e21788cc7a799d571e)

  lemma PublicPointDownSum1()
    requires Fermat()
    ensures IsMultiple(0x500400001024088284, PUBLIC_POINT_DOWN1)
  {
    hide Fermat, IsMultiple;
    PublicPointDownSum0();
    Powers30();
    Powers36();
    Powers60();
    Powers72();
    var p29 := Point(0x6f051c96a77ae2a8be821c2483311441cbbc839fad5d18e64a3421cb24025b6f,
                   0x439e03eb133509a526442d1b494eefb70ddb82b4eb534bc3fa9d178584a131ee);
    Added(0x4088284, PUBLIC_POINT_DOWN0, 0x20000000, G29, p29,
          0x1d28c992b96e11f408c03bd0fa00f30d117db6c97d5d7c26259c097d7283c74e,
          0xb4398767d07e8711f771280e19fdd768647b4c04cbe2b152056a16384ec6cb32704b6babe53bd27f4917eab0ee9934c24a0c80427956c54eca33c8a091cfd5ae6aef9e96597d5740031a238b7661955852925de047f57338b1ec096620bf24b707168ea79d6edea44c1ad3330f5b0172377a2ca5f05c57a2c6ee1493430877,
          -0x2fd431fe94050012a1a52e91fcde451cfa00e978a7c73c64ffa4d7e3ca972bc7,
          -0x52f4f83f8887879f961f056855834e585d2c23ac17f025e7944e10a03cd360ba);
    var p36 := Point(0x76b8d4da3c70c6c1ab25567c60523e3505ce1503784c3407a5af1d9b723e1d7f,
                   0x5c5b67effc840a6253698ce0163883c43f388ca5d5927038ae5fdf1eb577e179);
    Added(0x24088284, p29, 0x1000000000, G36, p36,
          0x49aef98069b0b5d4358a608a572dfb83b358c63d9f486d5521e2c9cd729e3a3c,
          0x19512eaf0f604427e63d64ada77bfdc8fde9fe565db15d05153fe7dcf93f780fc2729d01b5d667dabbce3ddbc6579c7c5d9c54c704402155c9669868fe06b2da9efa6d2b2a835645a207794a94141457fa781bb86e4452dd8697930c38eb9f4260dcf8d15d22a3e5dd8c233c532b78c763d9a9dbe0ad2b8c5f7962c1b73c114,
          -0x40d860ead397b8efc332424d3023e629b533befc89bd2a90163b1e48a9895c77,
          -0x9df972f8d6ab552dda7e587b7475743c580023a1090779f854826210715a5aab);
    var p58 := Point(0x1ab322902185a1a686e9345846d95aca005a8392b925d0cbdde055b13bb2cfac,
                   0x32bbe7087cbea59c461abd7bbf29c22aad66598d61a9825607e6db0b18c70073);
    Added(0x1024088284, p36, 0x400000000000000, G58, p58,
          0x728c4d708e270990657c7f1fe221f55971fe35b4bffec03eabc7345dbada2b25,
          0x31f28c43ecb5f61e2e3260c81dea64e3c88305eca549eb445c9f519f57a0423c921c511d8644172e7d0aaf0a7e398aeba795071aa138f4908cb912e532d3e65658f2dab5bbb3a4ef1da622afe5b9318ecef5528da08e73172190b69edf8afe5f8e2b118afdf0ab98a18f88fe80a6f9a60c15b851465b0bb7504af51b0858d8e,
          -0x8035b0e8492bc864864c54578317315517bd1c22b2ba7559f0c740e92693b2ea,
          -0xbc04a826a26e4576c03138c3a2129d4cc80b43ff0eaa3522d7164fd7887750ca);
    var p68 := Point(0x642113579b0fa5f3b41136a58932163c009c3c7c419e8b4100d19f9aadedf46b,
                   0x44cdfeb9b0d7218c3328671d743ca6d169211cbb665f23938b5bb1067bb93240);
    Added(0x400001024088284, p58, 0x100000000000000000, G68, p68,
          0x24fe0b6b78d0e692d923c495b93fe2fd6df29a2071a9c95503eb01d02bd5364f,
          0x5833b58dcfee9fced8cf5e570aeeab9d3fe158f5c23cd2d93dfe592659d5580a96ef2c1df0dc4b75c14c8cc7452d69b3ba2719146cd7e55e792dc7ae5cae0b200c17fe759c56018676a27736337e8fba42d0103a691d52ee92c4376532d18138181d4efb22439229672e0c853404c98b33e56f79508e20d14400c2c6c3905d,
          -0x1c56e173d5d4f62f76ae98c60f00914d043ee707a77ca0dd298ce30425de0db6,
          -0x42d189d97a38c18363863fb0a8338546a2aaacbe769077a44f61d0c3d168d063);
    var p70 := Point(0x2572d308f88769c0c04494e09e2633d2dda27f889d741a2a0eac7c003aac8ff2,
                   0x4f2f48837489410a8ccc6134e550a7d674038a2978d0f7e21788cc7a799d571e);
    Added(0x100400001024088284, p68, 0x400000000000000000, G70, p70,
          0x442eed42132b417d8b7e51cd17f4e8e77d91cb40d8894aae60d560fb3a01fe20,
          0xa6190573f698ad046b319f970d63c5dfe0314509eaaecebf73d25418c4de7f9bbc0dff9c23dbe0c052d9e53a7b6f85446de682a2248b1aa61e03001111716a0c9b74705c9fcbf4282526aa638864a6a635669cc210da4cc5b5b59dd736c12b8757dd6752691a8d78f3d0be792bb3818d987d329c03bf7ec5737e08b902f760,
          -0x3fcb7d1e759a9e4e73ca6b51a01a9693627842ee60143cd9995b6686d4c5e689,
          -0x6f5459e52cf5d2acff81230a41a06cd02f850ad1b1dd9931dc8c862c5672ffc2);
  }

  const PUBLIC_POINT_DOWN2: Point := Point(0x61e36738df80fcb0f5cb76c6d1d439b4a6c46b7dd8db0b411d4f420f93699b18,
                            0x6707a99e8621da5c68fde2f062529250460cbdbf697af5a9d14886a9d7c6ea04)

  lemma PublicPointDownSum2()
    requires Fermat()
    ensures IsMultiple(0x1000000a01020500400001024088284, PUBLIC_POINT_DOWN2)
  {
    hide Fermat, IsMultiple;
    PublicPointDownSum1();
    Powers78();
    Powers84();
    Powers96();
    Powers120();
    var p77 := Point(0x334be8a8afc9b46b758ac4b63bcf58f1c974bade63c587bf05ea06b2ef00c05d,
                   0x193902e8e839d4da7c249c9a7db364c5d20cbc8e93e96dd1b5d0b74c2551dda9);
    Added(0x500400001024088284, PUBLIC_POINT_DOWN1, 0x20000000000000000000, G77, p77,
          0x6df017bac6c854f678c1941b99ec92c19f4a449e46a84059b7e925d73df31786,
          0x180a56d2a7f459002c84bd519fa638fc5fe3e24217734d99c8efa1be133eb457da196a42311ce1019fa011133107af1626ddf8fb4acacc0fe350af69e82b48a198ef3fe02d9527613ac5e2c47a7bfd92c48b88ae41bab2f24a19c5e2f2c0f23b7be52b0186aa1d5b3b49b9a2b48da5d3f4e0edc54515d1ee4677d315b88346,
          0x128a576b92c4b8438c991dc6b6d82120a17194b2fed6906b4e5cf2e451ccb3f7,
          -0x30d30f63e2277357fa58333dadee427142c875987873c87975726e2c3ffdd521);
    var p84 := Point(0x68c3b61fc023f5001032c70ed420d63e96ea86e6253c9132517023239a4cc3a2,
                   0x564f20f71489c1ce9bd6d5ca9909489c28859a71d227380671c071d69c6a9fbe);
    Added(0x20500400001024088284, p77, 0x1000000000000000000000, G84, p84,
          0x60a1db02e9b1e46c9fec20740878cbc6a8f6069a3e4c2ab0ea18a817ab2f840e,
          0xcc8f342aa74dbab39f75d2e9c6bab7aa4d14aa0c4183fe905ecafeae23d2738b10414acf032b9dac411c629a7238d959bc81618d2da324b490affe6137895f4cb7d77a60dbf0a1f915c8912f92157086c97ef1a120644227c5fe3ebd9d1c2271460a3e68bf65a0b107fefd3fbd45db408f881fab8b15bfa7457e72c99998e,
          0x3c34256a689b9b4aad3ba4c682a53edd83d0886c18ce0127574aa165cbb28a9e,
          -0x5dba080c1222e37edaa1d7a137aeb9f8deea09d536e226c6efcd14a84b3acc26);
    var p93 := Point(0x2bdd6b40fbafc1727da1e6c265b313a0f00de34c1c7dd2829e6c7e718c809f10,
                   0x4ae3ae5e8d686ca9faf41032d5c363f5ac864dde3dfa7ff642414994be69095a);
    Added(0x1020500400001024088284, p84, 0x200000000000000000000000, G93, p93,
          0x2d29f34870ba8af4bd053b8b68f89c88d9582db69c286ab73883ccd4d851f9ac,
          0xd28ff41454790aa731de0e7eba7326fb18370595089fc69c1e8cca2930e52155ab3efcbf01759e659bc30f76bb061bc495807aecd823ee6ef9f9a48dce10a623a3742ff5a063bbd4c1f17720d245f2fc463bbf72620351cef466f01869d58e5b6ad4edebed70061b1a19312b63e52ec718bc374cdb7203e6a029402d0627cc,
          -0x3da5b4c3cdb0bf7a0a93eae72a3eda15d3b0faf5a2fb208d14c0e7a71da45cea,
          -0x6e1fc76ea022ff9343b85715362132d578984327dbe0fad739c6d837f3a3303c);
    var p95 := Point(0x59e78d1d4dec8f5b5b558eb6506799f067e1976cc1191e95e037de90b7877d83,
                   0x4d4513ef9dccf17eaa1d3cbdf1989172d53448d76733cf75a0c761ca39ddee64);
    Added(0x201020500400001024088284, p93, 0x800000000000000000000000, G95, p95,
          0x2bc53fa1e17eac2433d6ea356270c47d5fd67257d6f509b86a9b53e3437f1425,
          0x8d6a9f0a5cb60ae476613c99c4fa43c0625545834843249307cb362da996e77ca60754c883e7bb67131142d0a2063bdc6a5676ca153925ef64e8b79fd7d72ab5a22bf6ef5d43e8a37c8e837c89d02654f9e40503161de3f26e9adeeaaf185ed9df197bef7c33809009aed21a5b6ae09cf2ebb10fb0bebb8514448207ffd67,
          0xfb81fd29adf70929ebdd384054e4d1844be23cb72fd77b0accfa69189ffa172,
          -0x2ce77aed5b529684066a8cfa1544892a2cd9a633ef2c897180d1d27b8833929e);
    var p120 := Point(0x61e36738df80fcb0f5cb76c6d1d439b4a6c46b7dd8db0b411d4f420f93699b18,
                   0x6707a99e8621da5c68fde2f062529250460cbdbf697af5a9d14886a9d7c6ea04);
    Added(0xa01020500400001024088284, p95, 0x1000000000000000000000000000000, G120, p120,
          0x6705a2adb34e3319cc7a99e591c0447803feec7d6c1415bf109024acb29c57a4,
          0x103b6cfb390f4f5a361709cd96f1dcd1f2531163ba7c3a88e623788a26ed4fa2ec78c7996aaf6bba551a9277e04017ce0355e56bfe832ebf60a3292193b74e164c87526e14b90bfb10c68f3a52a92619aaed84429e1801f4bd09877fca013f67cbebe3cb77a8e6e87d48219a1862c222a220a835c72bb29318be1183441b45c,
          -0x2ad37eccb2d4cd4f4890c78179be3601e085218c4fc5f4e1a2d5191acfa9083,
          -0xa730ac1e3fad147f7ed497721f82c1ba24872596ef64d494fdddadb90e88409c);
  }

  const PUBLIC_POINT_DOWN3: Point := Point(0x82ed8c48049c1d586e38fdb7a49d867f73919817950aa91328c0b1e3cf444eb,
                            0x5e8e672ddbcc9fbf70a791fce7813083c9ae3bc9fc30c706a5198fe40a10ae09)

  lemma PublicPointDownSum3()
    requires Fermat()
    ensures IsMultiple(0x24281001000000a01020500400001024088284, PUBLIC_POINT_DOWN3)
  {
    hide Fermat, IsMultiple;
    PublicPointDownSum2();
    Powers132();
    Powers144();
    Powers150();
    var p132 := Point(0x625cd12dc192df6c8b4b1cbaefd26d45fc26b413098b79ac65238a5e0a234dbc,
                   0x399e5e8bd5b21bed1d7281aa48a65e20ee67a1c56f8eda9934b5d7ae5b06f910);
    Added(0x1000000a01020500400001024088284, PUBLIC_POINT_DOWN2, 0x1000000000000000000000000000000000, G132, p132,
          0x746207a1db4aab120e7baa776681e7a800635053a570474025287b774dfba799,
          0x2e98e7fa869255372d19d9ad78b39ba6f375a8db62c53406474c10fb3b39602768e30065d84106b9c71b9c98d4805ea93d9cbd82c992e4bfce2578d6525337b1444e80c40883eb4fc0270d1fcfd942368b64f92201d2e4fa620fdc259c9292d28ab3c0844eb259a979e37a020901f2bc300d01218dcd43f0f951bc76f0b27a3,
          -0x2f04c50e9aac09c60f5330a8d4161f923b730bf1740301d895022ed585d47b50,
          -0xbd1828f3bd296b7ed06e3b9631ceeb98f2d535e5b13b42736f40a8da62f18054);
    var p139 := Point(0x73819009038bf7797960e8de647beac19390b61334e52a6fe173a3b260c418a7,
                   0x20a91eb98c065f12119ef3a1ef795a145d0808f4dda09604ba10a76b863d2afc);
    Added(0x1001000000a01020500400001024088284, p132, 0x80000000000000000000000000000000000, G139, p139,
          0x317109df719f50be0203e07b1af0c4b0d882ea5d876c94daa63e13e10cf63185,
          0xd657acb3adfd6517fbe3c7ac145b90d5c400cfced8042ee4b0fbaad9541d357b08f346e8739007ca8b987baea6c130e0ac1b4bb98dace557ea8e8b2c0b87fa20521a4f180fa78e485376d2ed23940ccbef7a3bae2caeff7f08bd09e1fe1c5d86f8ae75d46f49a00e3dad9c35513d18ac960abadbe8161c4dca87bbd248d87,
          0x13bb376ab817403795cfb4fc30640515c16f6fe1ec0d8c31d1f967fd4b4e899a,
          -0x1faf18c40cfe3a19bca9a13a1d3bd67be8a48a8f4a38d7d38b6a3cc3c98b44c4);
    var p141 := Point(0x7b74bf80c7b75132d7bdb2f60635a57af9da29d5b2e718a924263f235430c406,
                   0x77d8d50877c1a81639cb4588c882d3970178b3ddf1830e43249accf1c7484fb9);
    Added(0x81001000000a01020500400001024088284, p139, 0x200000000000000000000000000000000000, G141, p141,
          0x479193b12bca3f50ea56ce05d6f81f0239bc7d52c8fbd589cad0ff665df7bcee,
          0xa1aff1fdc2cc1072419adedb9d096f91caf7e069defa1b43e978075422ff94657b2be537757455576ea31ed35374d82b0888c8c36e7337fced4bb5e6ebc782d73a9e7973171c7d9ec8cb9834aa4d41205b1e83d767be84958c372afc01613efe271e50b948d187c3e54515b154be0caa1778fc0c30b5e6422f374b1c6e1b2,
          0x3484385e8760ea45e38b04332db4cbffc41f2c04a9de99350063245410c9ab0c,
          -0x5b36f7a5441c0e67481f0381809796e1d26c89005c28b8aa2b89c434affd051e);
    var p146 := Point(0x58db28cf8ea3b61ed16cf00f22571635f5dee8947755a0ee736c82133a45964f,
                   0x3ef9707b505d14cf50b82a6a9a62d4ef06ed54554411533f0b05643cb6468af3);
    Added(0x281001000000a01020500400001024088284, p141, 0x4000000000000000000000000000000000000, G146, p146,
          0x7166d15dd500e937eca6987dca406c97e689c89eabc1a01a51c60b99e19c1161,
          0x57dbadda893883746c0a072e2344336363c1dbbe35868b361af178d29eb2993adf03d8dec283de02f008d6a3a9b780f896526861fefe0d8dbc6fae7abb98e733f76759fcd381c1357c02a52680e51e8b4f51b75d2fb17cbd0c178e60850f4397e65ce0c5e3eac1b4ff9fd965b4d841c275b8665a65d0df5892d44aeb292eb8d,
          -0x6cb63c5114d316efdcac30af35cc58efb7081f79dabd0134c56d4269effd1421,
          -0xf326a0e804310113a8de201c553eec18510ea6cd038999196ee916d9586424fb);
    var p149 := Point(0x82ed8c48049c1d586e38fdb7a49d867f73919817950aa91328c0b1e3cf444eb,
                   0x5e8e672ddbcc9fbf70a791fce7813083c9ae3bc9fc30c706a5198fe40a10ae09);
    Added(0x4281001000000a01020500400001024088284, p146, 0x20000000000000000000000000000000000000, G149, p149,
          0x58a2a4cc05b528aeee689c08a1d32ecc8a659aecc8a85efe8dc0bfb377a56e02,
          0xc17f1d1e8afe2a73e09a3e23997903df897ed3362b0afd52323f756f3527ade1adc8b31b10e498f6169d834d64e37ab283ab65c4606fbaf71fe5e0cfc8e60f7bbc5940146b6ce683fc27f18d6aa1289f209499d67742f2e14b8db69e08a00fa8dffb8049c6d4610801df01b46f38a0e7f555a94621a09d74f8e3ff4b8f8f1f,
          -0x4e07e8e54cbae288bf2b2df194a15694a274c351fc1e3ec1bbcd556edcaaba83,
          -0x89d07afa971161c8f425bacdf2dd9351c62e5931fe53a73b93604bcf5d6aa40d);
  }

  const PUBLIC_POINT_DOWN4: Point := Point(0x24fffa82c57545e4b9e693abd1994198896a9adab7bac44e3677dfb6f94d4579,
                            0x56fee2d778396b3b531ce7cd4aee542878b801db6ee6530ae38e0c19c3e288b0)

  lemma PublicPointDownSum4()
    requires Fermat()
    ensures IsMultiple(0x222924281001000000a01020500400001024088284, PUBLIC_POINT_DOWN4)
  {
    hide Fermat, IsMultiple;
    PublicPointDownSum3();
    Powers156();
    Powers162();
    Powers168();
    var p152 := Point(0x2dfb490e69612b3ef68b2ee1e3cb00dbee66f064a183b7859e58b605a946d7e,
                   0x4f484fab4ab6eacd4a44f742f1a26b690e8b63a614cd2446fcb746ae89b6f9d7);
    Added(0x24281001000000a01020500400001024088284, PUBLIC_POINT_DOWN3, 0x100000000000000000000000000000000000000, G152, p152,
          0x7de40822b9eeb235d797c7e64837a8a1cd587deb005d9a1833b7ea19405a89aa,
          0x1ab58922b2cfe1634d9976860c3aeb716a62608b3ff740618307a04256d2f06318ff7e06f4e2292ec23d7e4ff4fe18dc49676044d24005a5a79cb97c884c48671e48ecf5ff975ce1d5c34358b21b57021bff98b4c049bad3e1dd7f6a01c018d999d23e83e2b59e6bae94399e95358df3245b6724eda4bd6a847099a9060264,
          -0x1a4f224378453d453956e5e07bbd545bdd1f9ac96fa36a8ea246a0ddfb782985,
          -0xaa3a6fee1656f42da372f4865d4f8e3c4305689ae71a83e4cfd13231c7dbbae8);
    var p155 := Point(0x7a6cfc511927db25f8bc02281b18cc4d352c48838415fcf3376038c1e22925f9,
                   0x11cac7bd0d0eb863871eace17a76158a402240d90c4c803fd4ca28f85bf177b0);
    Added(0x124281001000000a01020500400001024088284, p152, 0x800000000000000000000000000000000000000, G155, p155,
          0x6eaa35c4376279032879e1822c696dd3d2a79cf61d3ca1db8d143670ef6873f1,
          0x1088fcd637716395f0a8e4b5637d9adb164a315801e9d6018b395436df7a42a3d65d8a3f1172e4021fb71fe89c9c40fad1caa99579f226d668432f82e7808d551329e07223c5e8618d8c2a28b4f4f58973d6afe29cfaf59ce9b897102f435e50a5559ba7b6e6a3e41dc4e2ded3e522f94c8297f2cc4370b993af31457977d5,
          0x4167d88a9b5b1919fe8dd162426c4f9d8f6868d2c9be7dbb7c316a51342ba581,
          -0x5c48772c3748a49d2a3e69c43b9c32f63d948bb417485c4b662800feeb17a083);
    var p157 := Point(0x2f2d72f5d246bcd29b0b373809f2cf0327f47939809b3bb04d9d8029910812a9,
                   0x59b8cec2d6695f39ef6d65837338bd0a2222f6d8b4e6a37125e576c3d81fcd59);
    Added(0x924281001000000a01020500400001024088284, p155, 0x2000000000000000000000000000000000000000, G157, p157,
          0x360accbd70754ee4ab6b8a2dd00c3cac3cd723515f6bdc53761890539ec6af9a,
          0xa48917de7661a485cf0f09976e14785055566c0d43f8ebd23c182a6832521c28256af26bbb6453a368d06ee2f2d5d217008815b20e5056ae63be68fa36e33c248264ad7e7e524887dd8e2b9cc40684706b39283fc46e651cc2629785c29912c372c1741bc2a997452e86234f33de32b08b7f726922b47cef72eb5a46e9ec8e,
          -0x5311b4eee364b3e9246c9efbae838db0c30891271aa133c7a8b0928cb98e8c56,
          -0x8037405fe6971e2a22c399d9ebb39bfc958730257b4043d733977bd549759202);
    var p161 := Point(0x587d35a8a9b641706301d190e09e94454f0b82b18ab54a44b2134cab50708f45,
                   0x4d44a4627baaa3ac7452e932752c00bac476725062a21b9da97e06b9c42bc70c);
    Added(0x2924281001000000a01020500400001024088284, p157, 0x20000000000000000000000000000000000000000, G161, p161,
          0x54fb16e0b77758eff2900a03d56046582c6ca6593ed5acb765f5bc902dcdab4e,
          0x2e657d20de724092a44fd6d9607d8e973dfd8b4f99e98c6f799ff9b8e52250ede82f1c3906f7fa618fc5dc925e3d7ef757e6252e4dafc7819a58409c3a92f74ae7618513117b4bc750e2a106ec5e99aabef7228ba82e6b6d357e0da31509cf6964bb68c265c97c24f9f83e447bfd0b69bd8f7af8c034c57857a49288fad3,
          0x3845811775244c4204c77ac9c84eeef2b110381e49d932101d9c38d021b5966f,
          -0x356ed3e7ff126a45da25a55a3777eeb2df801fe0df2cde2b32f614c5e0cb2dd4);
    var p165 := Point(0x24fffa82c57545e4b9e693abd1994198896a9adab7bac44e3677dfb6f94d4579,
                   0x56fee2d778396b3b531ce7cd4aee542878b801db6ee6530ae38e0c19c3e288b0);
    Added(0x22924281001000000a01020500400001024088284, p161, 0x200000000000000000000000000000000000000000, G165, p165,
          0x66e71f9cb597f58dcb380285604e5142921b8dcf18cde8593bc8ac92168fae1c,
          0x124ec60540bf4095ab59f26f26dcfb1eef8d39a17d725a7fc3bae8cded1e74bc670c292fc9c77870ab71120e9dfdebc77fe88fa9d5fe13e024d75e5264c55453567fdfca68d0e9ae31487a0ef8ed359f47a90ce21cc79915eae1ee1b1dbd2939aef091e38cbf43403909611488637bf4c55734c810ca24188fbc684e1c6e4d4,
          -0x39f1a4d191ebd5db125fb26dda7636d6ba89cdacebccc30b3f4429e115d5f17b,
          -0x9bcd5cdb90b72ad720b71830cdfcc12a228276b666e2e130c36898acf5aa65ca);
  }

  const PUBLIC_POINT_DOWN5: Point := Point(0x1157093fd488f53aeed99837bce1bdd70af5d48509b4e09c1e90b1c99dbc1eef,
                            0x3d7bcaf8a1a8bdae121e9b4ccd70d8164adf53b1974ee0bd57f14aafdecf20e7)

  lemma PublicPointDownSum5()
    requires Fermat()
    ensures IsMultiple(0x5100280222924281001000000a01020500400001024088284, PUBLIC_POINT_DOWN5)
  {
    hide Fermat, IsMultiple;
    PublicPointDownSum4();
    Powers180();
    Powers192();
    Powers198();
    var p175 := Point(0x483c5ae58ed7ccec411cacbaaee02298946029cde5862282ec4d0d8a62f1b0cf,
                   0x104d7796bcb5ba3a65633e86685166d56fafaf4d1f217ce1ef63012725f3716a);
    Added(0x222924281001000000a01020500400001024088284, PUBLIC_POINT_DOWN4, 0x80000000000000000000000000000000000000000000, G175, p175,
          0x6547de3eecd8479636d5a22f3dd7b09d1353abfc15f16dd48d4428410ab3eb04,
          0x6226c9c3954e94bce05e94ffad297d862bf2bfd653cb590c771bf736b5347b5429d520d22e25660f5351899e0d71b426f0057a249dc03de1f6dc8027ce7c3cf5d43defe5a6892526a24113d640a8c8760f4a640b30e785f73388adde6986fa207ae50e4dc18484e915ad7596010b44314229a69c62f1edf4bfe750594c1a4c,
          0x717c24552f228e0a94a2f1ceac23a7abd0526577464243f4edf221264405305,
          -0x4b3bafa4fd074e3d087e09312abc13f640a1ce426b06a595d32c5e24715c1121);
    var p177 := Point(0xd2672b4fdf8079c5db9d9ef5ad32ed333d03624c8179a7f3b79e561d83ffa57,
                   0x964bd6476a948f1a028ce299b32d17f583912d2059f00007627ba635bab11eb);
    Added(0x80222924281001000000a01020500400001024088284, p175, 0x200000000000000000000000000000000000000000000, G177, p177,
          0x29857a9e5cd325008537ce375a02804244e4bb7d65853895327ec2ccdcf6fbf3,
          0x26f836a8f9a4c644a7231042c27dda716b29b93e46d75e1946b9dd37f87860b91f4d6e6f6f70f3dfc741b953883e2b2a6d8b31af029e0d78f4accb6918dcdc1cc2bba0c30c2ece4386830a52a63e1d55ca803e9f515dde02b25148b582f88d28a675bb389268c3984492bce67bb6048016c163286524f285bacc088d78fd41,
          -0x1bcc613db11c94215136044c44376562f4b0ba4c44f858e0cf05b0e2a1818428,
          -0x3e1cba41fffd0f9df147081883a54face2beaa8323dbafeab1667d38a6c42722);
    var p188 := Point(0x3e05ce3d980cc9fe06cee9b480cdb5dc542cbdfc63b369343466e589e39c66ae,
                   0x7b207463e75b3a3534b05302817299e9267614492b507e2167572283bbd8c14c);
    Added(0x280222924281001000000a01020500400001024088284, p177, 0x100000000000000000000000000000000000000000000000, G188, p188,
          0x7e42fed20dd1c57ff16c9f41858cc0cfddf6483c223f7fd4d3d564b05a022677,
          0x4eae0857732904e06f55a8d7013da3d7509b814394aeb7285c67eb50881f7a709ebbf1e248e027c9c3ca6a2a7d4a6f31556e7b444492ef7fec24f653c221fcd8cab335eaaa512922e0c989eb1e090f1602009bc81f0277439c2a6213a63915bed238ac0e4fe0bd5c1dd57193d593b1a97b0435d64015e7a561c6499c4dd5,
          0x3a5cee6bec04e9d89bffa33aa322d745d5a311353ecba51a50e0ec824900f1a3,
          -0x7c41db55453918ea84faa04898d0e8ac4f44b9fcf900bf1c2054a27118d45231);
    var p192 := Point(0x82003a7521a5a94c676f33f4cd0626cd7bbc7f5b3443250610054101b2789df,
                   0x3d85bc444140e4325e805b4b95031f03866abf3c801267cd1ba01d2541741073);
    Added(0x100280222924281001000000a01020500400001024088284, p188, 0x1000000000000000000000000000000000000000000000000, G192, p192,
          0x626cdfd8a705a0af3503f8e4cc9430c1e933bf116e7b3e636b2215c6bc9c7a58,
          0xcaf2496aed9a04dea8db679810c779b6705c8e18c2d04171794139bc42df026e1b20d314bf1e43997e81c7246199cad777fbd97e125b3b459d50ac2476e8737744f20c61a4f4fc5a6eb4605bf8e70a46c16dd09ea5ee1a56a614c4e4f9729e96dbdcb37ec00ac29eee825b3ce3e4ca10147499721a42e8257637469f523cb0,
          -0x43e312584d1c5a9b31630bbf54c28acc0a1f1bddf31289ccb1a979ac0f2ce51b,
          -0x9ae412a5d9a319194d5b792256c15a993ad50dc2478787833475114a7c50dd6b);
    var p194 := Point(0x1157093fd488f53aeed99837bce1bdd70af5d48509b4e09c1e90b1c99dbc1eef,
                   0x3d7bcaf8a1a8bdae121e9b4ccd70d8164adf53b1974ee0bd57f14aafdecf20e7);
    Added(0x1100280222924281001000000a01020500400001024088284, p192, 0x4000000000000000000000000000000000000000000000000, G194, p194,
          0x325703f1d97ca30dee199dcad4655cc285e8985ab13b908d3db23fcfa967972a,
          0x2e07628005ed10dc7f66a001446297a30fe863980083876187d02053678733ed76bf11907d4567cc65a237644dd8bbe045d3ee12df149de22a09e759058d530d974149fc1f0656aa6f856946e9c6eef93849d1bb18645d60896592580e1b4a9138e7a773cec781df4a5b5cdee157afb0d7dd1a336cade85c9e75722266a2c,
          -0x1ba45d6a12b1bbc494255732924b9dcbfe95bb33618c4bb0d0c67b462adc452,
          -0x3500ef58ffb17476973e915c4ca3dfbb891f5b9fa39aa50beb34f0536e3069e2);
  }

  const PUBLIC_POINT_DOWN6: Point := Point(0x3ad40a6686d0fa6ff18bf9de0befab5d3efae284634642cd3d7e096efb31e369,
                            0x387a3bbc4746d0ea4dd641a9387d43d1c34ce1f741d77757886b5df91dea1731)

  lemma PublicPointDownSum6()
    requires Fermat()
    ensures IsMultiple(0x1141000105100280222924281001000000a01020500400001024088284, PUBLIC_POINT_DOWN6)
  {
    hide Fermat, IsMultiple;
    PublicPointDownSum5();
    Powers204();
    Powers216();
    Powers222();
    Powers228();
    var p200 := Point(0x12cf90eb53980e713056fea1dedd9663d35c600930e74ac4f9757cbe4c79f7c2,
                   0x45ce4fb0cbd1b770a7a4534ecabf274b5ccd44224f5f1ceefbc29ec5cf0487c3);
    Added(0x5100280222924281001000000a01020500400001024088284, PUBLIC_POINT_DOWN5, 0x100000000000000000000000000000000000000000000000000, G200, p200,
          0x6429c3cc599dd628bf8686a125d12dd980dfb06bd68971d8bd52efd59ebd2b91,
          0x4f40b796c26f865c6ed870cf56981623a2e9d587a2e9051e9a2aaf8fa4e3a6de55b3b9aeb7b9c126818aaee9c37d143914d29c871c61579c84ca81377326b07a87b32d477a4465fdff4bf9147ad9da40cc005cb9704dd61618099f67ea65926f7705ddfe5ce635a17bfb86594eb6b8c30de6e4a29ebd9bcac2ea31938995ba,
          -0x299c387ec25453b60141fcc8467db8e06942f690aa26e8465267cb4190802386,
          -0x6a0bd87a3ec10fb3b0722d658a5a17094b3ee4b7467a4335ba21bd5fa5b481aa);
    var p216 := Point(0x6e04b558831a6c63cc7d660754808547faa62b0137ccfd05d649c5ce118031f3,
                   0x22aeac4d3d9a8e6b17921764e22aa6d1ed8f93ab1eddde1b1b12fbbfe96bc902);
    Added(0x105100280222924281001000000a01020500400001024088284, p200, 0x1000000000000000000000000000000000000000000000000000000, G216, p216,
          0x32af3e549e8d42edb5d9469be79a57d79f9436f461848d10ca6c92bf085155ed,
          0x8ca763851f4baabf79eeec549a36ec8ffe4a633b676724af34b1d587cbd31d69b59dc2f79e0de8d835ac346d3ec77047107ff76749348755d740afd6aec3cdf8547f549e872e10d871deff59c055c1d7ff6e16a4129f62d3c654f71cd469010eed4438bd15b9d353bd046f54e5c9f26483586ba5d60f01108be2c7166006f,
          0x1c797a08081ef97ee81fea5cbae53e178a0d16a9cc4eefde5314eed7a0a3880a,
          -0x26d7f2b191286559df51976ec3a82f144f0b29c115504c4c0d01e6fa35f4a7ee);
    var p222 := Point(0x7c0c4f7e601c1e76135751c0ed906e3ebc968b92507ad5aeac22654a64131bbc,
                   0x7abb2b33bbbfeaed7b523db0249a01afc3d83ed7d70e0500e9e11f0a3ea614fa);
    Added(0x1000105100280222924281001000000a01020500400001024088284, p216, 0x40000000000000000000000000000000000000000000000000000000, G222, p222,
          0x57e9840d251814e147200cae256768602cc5c54979e2c3022407ba6c11a8d14c,
          0xa2d3ded0185772aab84f11d484dbf9e7438262e71e0cab8925709d06a1b3cd1aef628897ef2c1de4ee4ee6ce4546a5936d87b2bef00651ea93a227c17f1ecf4d5dc1fedce905edf067636cc8048a474e38bb77a45e569357705a11d154db6adae06d57102fa21350a0cc2592754a2401f84474bf9eccd921a02fd168d2fcf8,
          0x156dd9486885414e3945f63796c99eb85c3ed348ef944ae882565dd463bbfb64,
          -0xc46713446d8edd6874d426cdd43e0f1d52381cb6e37f0f2e381253653265437b);
    var p224 := Point(0x508b3fc349fc3107bcad29485f7b6e16ec308ddbd493593399294072ee3a2de4,
                   0x35cbeea98628bd9757350f012ab8e0680c69ef1d59668ab485377a0e1c40786d);
    Added(0x41000105100280222924281001000000a01020500400001024088284, p222, 0x100000000000000000000000000000000000000000000000000000000, G224, p224,
          0x758cd2d74cfdab4e731444c76cd89e4a53bac9bf06b700c38511ca9615cc0c8e,
          0x7394c9eb126efaf0b448b864b7d42c5ba5ac7a4f61d3822e4394d5223ddc94405c41cb2ed15e10096d3f540f74e2c4016eaa38ab3b139d79ccbd353f198ae0866dbe767292bfc0d3d627372010caeaf2ec26dc8cb03e4d62379d25d2d5e08dcffc707629d888501db38689243b45ac89ecdf0b61f212cd70b6641b661f62f32,
          -0x8d3300749be5bc1f4fa97a0dddbcecff2e0ac1d8db4d759e86e7bb6a77e1ad4e,
          -0x108b336ba7965999debc010357d714ca800e32114ffe38fb571c73a5fdcaca85b);
    var p228 := Point(0x3ad40a6686d0fa6ff18bf9de0befab5d3efae284634642cd3d7e096efb31e369,
                   0x387a3bbc4746d0ea4dd641a9387d43d1c34ce1f741d77757886b5df91dea1731);
    Added(0x141000105100280222924281001000000a01020500400001024088284, p224, 0x1000000000000000000000000000000000000000000000000000000000, G228, p228,
          0x7f48db374f0af01efec193e6d333a25844b8f7eea6732d58eb5e2d37c5b1d7b8,
          0x41c8c57558b72422641ef71949c49477990f17ca80913e94d27b2020acc7ad2e7b60eddedd7aba683e72b0b24a47bce3f8982d6ec37f080f729463d06e6e214dd12b8982f65aaba5fdaaf04c185217b38dcd3eccd694ce7dcabd86012bef2de193d838ea7049b93a613fe21abc07dd87523c7f3f17af45bb04b0ad5acb8d98,
          0x8ba95179c0b87ca33db7302a5bd9f31a292bb2ff8efe355b95928783fde9d13,
          -0x7a04b62e470ad3ff495120bb9137acfb9593c41afdae21979c2d3a7efe8550b5);
  }

  const PUBLIC_POINT_DOWN7: Point := Point(0x6340397aaa53b99bb7649a27299e2d74ad08a3323e3060699d732122a0ce9b7a,
                            0x742e41c60f6357cbc0e247356689355d3fdb1ca08a1e6fcc03c8395c60d7e4c4)

  lemma PublicPointDownSum7()
    requires Fermat()
    ensures IsMultiple(0x24a009141000105100280222924281001000000a01020500400001024088284, PUBLIC_POINT_DOWN7)
  {
    hide Fermat, IsMultiple;
    PublicPointDownSum6();
    Powers234();
    Powers246();
    Powers252();
    var p231 := Point(0x4694bbf1392d0d8102c8bf1939a0aa324116a09b77952045631d4b95b86f2a15,
                   0x428adf0cc87c9f43be0a08330ab48f26d60d3717ec23158a4cbde702aae46620);
    Added(0x1141000105100280222924281001000000a01020500400001024088284, PUBLIC_POINT_DOWN6, 0x8000000000000000000000000000000000000000000000000000000000, G231, p231,
          0x23fef05bf4e0d51fed13bb14ac69b5fe2c079940136563ad7dd907c7ac6d80bc,
          0x11f580658b914ed96a5369721d27aca03e387048ee4a3b35b49e380ee7049b833b8b1cf264247320c4a2977fa9ac14727dc6f5e829882894d9b74ac374f10dcdb02646baab37420fd8e31b6a30e7494d27aef62475fc4abeef500a3d17696f60b9bbc0b4ee5065dd69fe327a4f942b5560b1c013fefefd356d5cdd87f95d7f4,
          -0x44f078e7fcd907816f89dcc679c504a119a3ca0bda52f2658606c050b5ad7af7,
          -0x6a7d49156cc413b1ae8c02768de11df14a4df2d27ebe897fe51da19e40806a9c);
    var p241 := Point(0x7855175c218369967c2b7066922d0f4a40eeefb3f671f0bda7e9a1247faf8f16,
                   0x39612b52324f743ccf6c1fbb9daef80e353b62e1e669b21aeaccf90a06d1fd21);
    Added(0x9141000105100280222924281001000000a01020500400001024088284, p231, 0x2000000000000000000000000000000000000000000000000000000000000, G241, p241,
          0x710dbd20c07b1a2cc96d40960307820a6cddaa035f9339904d26f76f7976a38,
          0x2a0763b0e1dd34c9571cf55d0a65085a2dac06cc4fd632ad94bd32d5dec52df8464d6c8be1670492768599ae87d9e1c5dac5e52ff4e77c226d7f497bc778425366d29659e1baf3a60d455117e5eec553587a7e51a7af74d50bc014fa0e7d3242815ca0e1aed9354b2f3b5df7a8dfbf3fb50ccda91e747b4284717292e394a8,
          -0x232e1e1a6357cf58cec37a622bd438d2fe29fd173edd777ff8d9141b6f18faad,
          -0x2b80e239322b8d94f7933a8fee6576a9a23647517e40e3e57b24fb57dfea1a49);
    var p243 := Point(0x195a35d3e427eb6c458c2cc798ddda12314cf4c05a347ceb0a1f9c4ddd221add,
                   0x7db5a8143e31664363effa60e643f0411a4302b3413d7638eb1d2a458de93700);
    Added(0x2009141000105100280222924281001000000a01020500400001024088284, p241, 0x8000000000000000000000000000000000000000000000000000000000000, G243, p243,
          0x5779a06106d21af1757b9866a0fc7ea3bce8ee8c944f5dd5b56c09d9effb3df0,
          0x606af4496a17670df31d6528e7d3f15aa2cef881f61ea62e18e76e28e775498cb0afdafdeb22cd8bb74d35b1b577e0a336471c95ba7dda21db9c5eeb34c1157318f39e7e2d650a871477abb3a58c9abc75e2ed29392b1e6a478bf5ebf24ee74bc51193d8c54e17d7c05081ec2e6109fe81f7f22ef6a7cb6deb4c25751deb80,
          -0x28013f268b13574c10a901e0ffe3143bccb38e40addef50e4aa85852863cf5fc,
          -0x87ac4f000bf67d3742d98f7c1bf96c8a4ec29ca4e172aa459dd27fa36fb51b36);
    var p246 := Point(0x70acb6bfc870a5ccf08779f5b079120cab0cedf5a6c72ec8f488799ea5cb8247,
                   0x3b88a9740bba96407d62bed193c038c19da7c7786acd8a0166d51afe24afd5bb);
    Added(0xa009141000105100280222924281001000000a01020500400001024088284, p243, 0x40000000000000000000000000000000000000000000000000000000000000, G246, p246,
          0x3d2eccb1128c17a9688e2132a154812e8dca68ba86078cf509c03cb24b30a86a,
          0x346aaf344522cc9e0ae658e9aedbadbf854a7d536affad45a246958c35ad325db0d9affd25b06887c527873005a3db0376b5c8757651d73a45fc84c0d43e0d2fea3443950aaf7843de6ff59cf2bf4ac0c96b662f8dc0c00e33a4e4f80dd62152d147e5814e8bd966617a2b7ff401477476a57c5bb28c292d57f4d9c430602e,
          0xf6bd736a804cf2a33d004c089669a3c1e1bc64119d2d221391709206f0e931c,
          -0x60c26e100315cf5abb08e1e265e4d56376df308d2f0820ed7d3f4d728be40d90);
    var p249 := Point(0x6340397aaa53b99bb7649a27299e2d74ad08a3323e3060699d732122a0ce9b7a,
                   0x742e41c60f6357cbc0e247356689355d3fdb1ca08a1e6fcc03c8395c60d7e4c4);
    Added(0x4a009141000105100280222924281001000000a01020500400001024088284, p246, 0x200000000000000000000000000000000000000000000000000000000000000, G249, p249,
          0x474d343b6cd79c4e9ceed7ef864eb31916fbd3b58d3323d93b6dd894023dc6ca,
          0x8ac8fe3156376f8670b9158fc88fbc23f55d4bf0db437405fc5c37804df4e24fdff6345d5d8665147e1708aaeb7af959a0ae694e2d87d24eb1e204edbba62a27df5aa0e1fb007421130c02acd3b59d82e61601e54219c3ceabb2b9d5e40027a07d379c049a7b77d01a93b77b5dfaa47f4659728ae6656439aae83ebc545747,
          -0x1d73bb2099933a90bc11d38e7b79831f02f5a2251d5607c0412cfffd9b392cb2,
          -0x7db7b4949176fb53fad907fbb90b06d141e16b96b21ebe95b3673878cfcc1e14);
  }

  const PUBLIC_POINT: Point := Point(0x58b401b9df6f65a34625400a43fa6e89dd5ae7440e9899c9c96eea995b72fc2f,
                            0x3fe267346819f8eb644dfd2eef6754c3345024e1702c93f43b565ead932b17ec)

  lemma PublicPointIs()
    requires Fermat()
    ensures IsMultiple(0x5b64172c7528f1af4a5a85dd6dbd8723f2420216534e3b28c0253efdbf78d7c, PUBLIC_POINT)
  {
    hide Fermat, IsMultiple;
    PublicPointUpSum7();
    PublicPointDownSum7();
    Inverse(0x24a009141000105100280222924281001000000a01020500400001024088284, PUBLIC_POINT_DOWN7);
    var q := Point(0x1cbfc68555ac4664489b65d8d661d28b52f75ccdc1cf9f96628cdedd5f316473,
                   0x742e41c60f6357cbc0e247356689355d3fdb1ca08a1e6fcc03c8395c60d7e4c4);
    assert q == Point(P - PUBLIC_POINT_DOWN7.x, PUBLIC_POINT_DOWN7.y);
    Added(0x80042040852902004a828800000008240242022054504029002540000001000, PUBLIC_POINT_UP7, -0x24a009141000105100280222924281001000000a01020500400001024088284, q, PUBLIC_POINT,
          0x6fa95258ce0590b676bb38d8128a374c246d4db8c3cd243ce9dc19bbeefc300c,
          0x3b0b7bd435f484c2db4355a8c145ae87b2bda85c6ad713593ade1878f1233e49f64d5b4173b64b52f1797dadee267920051f153b585def9f9626f9ebc83283f09141d1c1b6ca9e60071ae697bed99f610dbf6bb3a5890c112c3a5f149dc2bfb7fd32f104b2936ca26a4e8f717204bee63f1a95b8dbc1dc672a18b61c2d4c7c,
          -0x97bf9d8134724b82504c9316da46623790e729b14c7c094552a563f760fff93,
          -0x5e32954458552a4a010ba28e27ec8aaa1b1a960282ade55e8b6192ab2a0646c5);
  }

  const NONCE_POINT_UP0: Point := Point(0x5354c008d231280eca0526a1e5abcd019285425e7e8f7da576fa585991fb142a,
                            0x239b8bce190ee3790e8e042f9d8e6edf4c103f8c6e93b29d10baabfc925e093e)

  lemma NoncePointUpSum0()
    requires Fermat()
    ensures IsMultiple(0x1200854, NONCE_POINT_UP0)
  {
    hide Fermat, IsMultiple;
    Powers6();
    Powers12();
    Powers24();
    var p4 := Point(0x673c65caedd698b94f5bbd757df73a9e6985150ecd4a2135a058e273ab4cf9af,
                   0x136cebacb6260a9d5e6a3e3171c535f0be71cfbe16a960b9dd317bda6f3c5a38);
    Added(0x4, G2, 0x10, G4, p4,
          0x62eccca36a086ae2bdb1a8a7dd6d4348550d1c80bbebdfcec204032ce453a11e,
          0x5ad785bf8256f4ea4b6c74f8275ff42a606384a6707ef787937ff4e49320fdf4fc2815bbaa4923c0866b0ce19b8dbd7c1239bc176cd729f1a7688ee3e82948e2bdf6f8adbb47558f77ad021ccfec37d0d8bc6ec7089eebe3ca5f86c61212178e2ee50b4cab94bd5a6a17aff60a76b153784f77a5334f8dabd7016e203753aa,
          0x1f6de9f97adafc9078d6211d628637fa8cd1eaa0f556928d92ecd7652783da1d,
          -0x5728e9e353583f3f8277d541eff95e2ff10ea99c6dfcc1eceff4e56507c9ca51);
    var p6 := Point(0x6c66a539bc140a776738efcc8b959420e0cfeb6ab2514b122e80077f6e686374,
                   0x3ad3bff438d509f9088564765492d4f039281d2853d603351170d0ac3a0c9db6);
    Added(0x14, p4, 0x40, G6, p6,
          0x7860b2316718c051e00c87e4b43c9953bf0d60d6b19dbd7c8d5f98a0de40e09a,
          0x729555da46c8559a55edca825a4e867e78a7803a9662fa67359925c5879f74297bc839c192ac7ad7cf80a2a18a75da0f60b944881e5d8aa36a8dbdf067ead31ba396d3d42caa76e7e31bd2f4bce63817d8f966b167bc26a164dd24c240912da061ce33613aa9f638fdb148c308786f4e531e71846a1f3b36948bb498363ae,
          0x33c26b2cf6656283814d6540b1ff836b927d94ae4c933d05e49ced1ef172c002,
          -0x456b0f10501ed8a24bd8812ad2ab5c07e93c1bb2f1be6e4efc9c52261b26a5a7);
    var p11 := Point(0x3d38dd4acab6597fe42862f7568775574c6e954bc03bddefc70f2fed62ea1b3a,
                   0xad57efd92c85d00913d84f6c04b0356b00a1350078f8425065bf7dd2393ee71);
    Added(0x54, p6, 0x800, G11, p11,
          0x5abc6d32fca586c820495631d05e30cf621a999cd7bf733497f6a6a998704e7,
          0x132795e6dfd800b3177e4127340a20a191a26fd93c864675f383e932a75f97875bcdcde7c897f436f1d6644693d9ae62ad186c43b53ef04cb99982b89da122b26469424d6aa31fbaf41a3295f3b3bdd38bb74959da8de8c18435b906d7e18788cf071be3500c04cb4f7f5f57fd5644d2cb46514c3323a87c34a720b300d66d,
          -0x1d3d71f2a0f275a98957ae84e6320a330e21f1666daf10b1d86fa1874c698aaa,
          -0x35bb2e04db3c36acc7ef6753773f769ab9a945212c99fbba624de0b7c66296be);
    var p21 := Point(0x24f6b6e4c964dfdf93d38bfd41f85d9d8678d6bb6e07b622cfaaa468e36c1fcd,
                   0x1c3d36d72ab561a2ab4e39a230c19f17fb89de8a048e01f8a9613087530893cb);
    Added(0x854, p11, 0x200000, G21, p21,
          0xc0f35bd13ea2a0ad53145acd7b18839eaf86fb55ecaf281ac81e8edafdf7f05,
          0x3615534a2f555355921ddb3758fb9dc54a4bae73cd4501b6c4cd564f632bd94777bd47981ff7ec34d1cfc46524191cf938258fd9148d12b6657b96d866a1b174cc27749513c6cfaf6196cf647247e5d5433b5e7f395310dc6f5fbdd074ae54258520bfa0872b6b6cbf049d7a3c81cfb6d21f791198ceaa12c5cce3f55864c1,
          -0x39e701f51f93b626c69881047740ac29be6935c3f1faaec5f2e62999e92b9831,
          -0x2ef578d499dcf3773b9927f35161899dfc9061ab90b182b129866124ba0cf5dd);
    var p24 := Point(0x5354c008d231280eca0526a1e5abcd019285425e7e8f7da576fa585991fb142a,
                   0x239b8bce190ee3790e8e042f9d8e6edf4c103f8c6e93b29d10baabfc925e093e);
    Added(0x200854, p21, 0x1000000, G24, p24,
          0x62d33a209f42b56d57251d1fd5829455f217609256b7b9380abce805ba73b04c,
          0x3b1f5157ebe49bb427c8ca8b756fc628af154bc243d1b282dd8efde55c3f44d7d8cb92454b3b4efa9a562a679faf2a682f0bef43a2f0a58d1ad9cda817200c1bef40f54ffaca38ce7c6848b4d66a0ecc57ea12afbff9fb3f9fbe51200286638b66c446b23b1c3c27b5e83307aab361895c62c097cd31b8a84b75c50ae4877,
          0x345f885a9aa974aa84bebc32756594d95f3ff96e784ef8c19fbe5fae7d69e014,
          -0x25f2d9361a3c63c43ec6ea4abdc53273e6d6a394c97334d88275d7000aef1fdc);
  }

  const NONCE_POINT_UP1: Point := Point(0x60d89ade201c391e013441309b25251a2b6b0b59bf5f29342463993cdc07c6eb,
                            0x250bb6c31a2cbe51620ad731c6098a088bc76c4a152344a48241357eb8b2b28c)

  lemma NoncePointUpSum1()
    requires Fermat()
    ensures IsMultiple(0x8a1100001200854, NONCE_POINT_UP1)
  {
    hide Fermat, IsMultiple;
    NoncePointUpSum0();
    Powers48();
    Powers54();
    Powers60();
    var p44 := Point(0x723020d54ac0023aa4b400f411a2f9d091f9e036ebc979ec498d2b7de23f2416,
                   0x313b993cf552d57714780af850119fc315245fc7df8f30cb90749f87660d7028);
    Added(0x1200854, NONCE_POINT_UP0, 0x100000000000, G44, p44,
          0x2ed3375758598684ae328274423661673baad335ef95cfb7ea34ddca48af28c2,
          0x130cab790c57f41191e6c2bf6fe483cb16323f044aaf32aa77a6b644a9b98d90329b44947b838f3cde6f29175fa87d9253489ed30eaa25ac35510416171c65e0571b2c5be10cc4c524ec5e010ce1de1456455ddb226f5482b0715f1da923e0fbaf68454371ab3ec587ab8733a3b2230fdf4f58afe1e5e13a79ba0e53115bbfe,
          -0x3fc6a46e3b003ce4b8f59816bb796ad5a52364b378c288f7443f8eb7db833740,
          -0x6b3e5c33d2dbe118771db151082eb0ae720e8f01d7c1f21ac933f10c2b942d06);
    var p48 := Point(0x46430f8ac30fb01932adfa9a52a43519530b7eb22139f4a4230efc5ae29cb49a,
                   0x769cfae86ea8d346c5d2051a48061abe00d361fee1c5051c7b48828b59573425);
    Added(0x100001200854, p44, 0x1000000000000, G48, p48,
          0x43d789b6a571960d872a9195a2e041099bcaaa9ec25615d892fd6126a649285d,
          0x16f3faad7985e62c972e42d9446e4ac24f3503b7bb34043ff3814e5c64a12210877cc95dfafca01302a52388080aedce4359b5447e2f74661bb9625e996da8bb678a142ee9412e634a10389a576ec7d6b2d58b080dcf6c7c152fba9f6b91ee7a883b90e08ca8e8858afc791e5fdc1efc0a7af57a6b36e86f1629b1c54b1fe8f,
          -0x42aab2e562ba8dc0208de5f63f3946752f8728f4e7c6ce843a99b929c6fef6c8,
          -0xa7b276e4684a5cb3747a0e6667a2e0434b8ce563bca88afa8f5af49a8af5efe8);
    var p53 := Point(0x68bbb53b1afc929bd692e2636407b9c493b6a3db8643ddeda27d0e6b2e05a3f6,
                   0x37125e79d7eb78b6cf19e0103279c1c01b10dd9822f3288e12d83e923b99b97c);
    Added(0x1100001200854, p48, 0x20000000000000, G53, p53,
          0x76dbe1e338c67ea192f87258611d244ec13d3750c94318ad39bd6253c7d8d8a3,
          0xe6f67de919a667da71f5ac81f041a853ed8cd24d7f42e60c733089753caa0f319effe166cedc18e332ed4d3dfc169f6ccc5863784319e0ee5601cfd052355a37efcb0011f15e3a8e3ef0fb3d5c75acf4b9f809efb838b90a77d08bd266ca9472ff5fc53857f1cf174f19baa9458da221e17714966dcb9f5eac926cf765d2f1,
          0x128aaee4a8d111d9be11d6453c5b57da22ea4f56311997521a2ffb03774bc448,
          -0x983a1e13ecc365d659cb738423ca979564d32bf4ccdbb28f3bbf8502e7e7d1f4);
    var p55 := Point(0x16fa87fbec9b726b931f85460d195166dafc9c4416e0d958c788da53736befa9,
                   0x7ef577543096eaab0fc34439d95319cf52dd1940fe95dd7a24e8aab3968be540);
    Added(0x21100001200854, p53, 0x80000000000000, G55, p55,
          0x58072a2dca5756e9d91c3f21f85ced656d9023ac61c95f9fb3fddd79d00acaf4,
          0xb01e9d2af20532aebcf0ef1b040eececefd3ed98d1c21b7df4af922b79c1bddb8b41700abc14641df18f32a0774d427a414fad4eae0c673e96716f9f61f0c47c53fd549d324ee5edf4322339c0a539161da6d3ece49d1a6b6b0b1c74a662e6b7be8964b14e31b72a0b8fdbe85901a2b4cc04eb6327bd8f5a3d02509dbe751c,
          -0x5d34053128704a6e3bba51eef83363f5ab51d23c668adf18a3c59ac252b2fd45,
          -0xa01b058c0225483b93cba0a10be0f683e395b647a104d645117f648c6a42a1f4);
    var p59 := Point(0x60d89ade201c391e013441309b25251a2b6b0b59bf5f29342463993cdc07c6eb,
                   0x250bb6c31a2cbe51620ad731c6098a088bc76c4a152344a48241357eb8b2b28c);
    Added(0xa1100001200854, p55, 0x800000000000000, G59, p59,
          0x6e018b25d8158608bd1c913c8d8f0f5b736a8397c8e0288b6d027dbaa16a744b,
          0x4dbd056831af8237bef8dc9cd8651f930c337683663b23b4d853d4bcd27299ca5669fe4e6710bfb51876afdd38f47c0fb93052c0cae3c84a6866cc803c93648b4ce522242bfd1b921a143cd8c48f410c6b4fd3d4063df6bdd6fcf2ea9e96c544aa9938cdf31031cb1d09c77ed8ef120a082ef7279a05069acc2e913f781869,
          -0x1c7d1135048fa19068dbb20fbd9cc67263febe35e9426be039ec48a97be78b7f,
          -0x4c40f11dec39e6943c66c5005d035419da1f76c2f1838dcd029cb49d3150bd72);
  }

  const NONCE_POINT_UP2: Point := Point(0x35d29f1e7afbcb5695212d2ba3ceedd2c12db12dfeb664eb2935d117858253a9,
                            0x13e38e6d1cd0c68d8ac10c760aa1d7fd3c9d9b759437c22cf4f23ca700d8c00d)

  lemma NoncePointUpSum2()
    requires Fermat()
    ensures IsMultiple(0x4000a8028a1100001200854, NONCE_POINT_UP2)
  {
    hide Fermat, IsMultiple;
    NoncePointUpSum1();
    Powers66();
    Powers72();
    Powers78();
    Powers90();
    var p61 := Point(0x3f62a624f8a6696c5439df999f5ce8576644576753c04ec637a3e9f18854e8a0,
                   0x18b0e83bfdcd1baabda54782686b13f2698694c0c2d236a8f83101e9fe705437);
    Added(0x8a1100001200854, NONCE_POINT_UP1, 0x2000000000000000, G61, p61,
          0x5d629918035f18db4e5fef6b742833bc4f93f720e052d613d2bdc9c0bb8a42ca,
          0x38cacb735d0462b42c589156e8ac0cf2e76c2a0ea37716ff454b35e0beb178677a942abd56089da134446b954f4f096f445e2103a2296b5c4e95f2df21a0938689d92552d2960479b3d636f78f19c33beb6a362217283a6bb4524000a4867992485f78fdb14ff2d280c941b1cc6977ed5541ac1332867dbe5eccb473a03e06,
          -0xfb9efa7ffb8b0fd931eb545f843828d0fc9612a0dffccab0159b2685513f92,
          -0x38fa0d3cf2f7a948f2863a97942bb0b166b49171068f19992402d1a8eda86786);
    var p71 := Point(0x57d09ebee61416af4b1195f0c13115da7d07c3f8343f069e759b415b59561676,
                   0x30b1a4d70d9e86cb212effcef66ea5d7228b5239f82c5d5642f3984190f478d8);
    Added(0x28a1100001200854, p61, 0x800000000000000000, G71, p71,
          0x6970d9abfe0fec06f729f2528e6a46ede6bd4d8a7f94e5d9df848f6b84874c3c,
          0xc594e0c3a298903ba6a870668a4199d5f45de576340cbd796d402e30d6b3e79eeaf50e95055e6b5dbc9601eb05aeb6f7aec906f26cd7b421f2d09a31534e2744985a6a48390222b2e79dd9bf2be04ce20093972554e259a79b6a355d73a73954f21f062bf2b344197b88148981137908883935e215ed25adcf00d8cf4b034,
          0x33f92c6ed90f6065d7b89661e7336ef4167f89343d417f43f5cf81aefeebe711,
          -0x517252344d990c0a39f940695650f9d2261979e6aae9312b52c520fd249759bf);
    var p73 := Point(0x5e5da3a569aec3c88b2fca808bbf8e4087b5703b086f8bd65a572a8d4133e5d1,
                   0x6eef39ed5395ae04e45faa6485d16003aee5e716c64e320fa07f8e7752d0fdd4);
    Added(0x8028a1100001200854, p71, 0x2000000000000000000, G73, p73,
          0x7211185dabf71ac0fb13f709a8e22e98b356d248f32cdffd551ed9e7895fa838,
          0x1f2748998ed52bb6651cf67905b77f38233ee20c23c77c203cf7f0326019fb22e2111a79a35676c1ed5646fd44b57691908f9483d32894e5815c77e3665909db61dae1b92736c80995afabb7d89234d65bb3777ae452465edc18ad7f848179797ca609e6a63baf0eba19626f54d14be5ea27b74dd34e414da538b7e7af2c168,
          -0x1fd05cd80b5034a149aad8dfcb1700afe663efd13ae445c9ff1835e47e145ce7,
          -0xd7e30ffa5a9cbef9f635c28dcdff698fb8848275ad22130bbbc8a75008707674);
    var p75 := Point(0x7e3fd917860b119273e3aed6e3984d870ae05c5d9c5c8387c56a379fbaec2996,
                   0x5c6f951925bf44530e836f32542fa25fc7d41a59405a4fb0bd2ab3898b23b9e);
    Added(0x28028a1100001200854, p73, 0x8000000000000000000, G75, p75,
          0x50935ecddfe4c9f581b325da42f07add728e332678c43677d8e27c7d83aeb39a,
          0x12a32f67184eb80df33d98df1777bccac1014dd6df949f6c15cef2cea917474139c72285a74df2bfccc7b913c94e61bbe96891deaf8e1569899c825512bce7db5cb07a44cd4658bee9602984eb1403e47c03247ccaa2317fe40dad7c792eb46a5f30e3be25c7811380b1bc355640e344d916084c2290dad3c7c950bff3b4c8e,
          -0xc9cee87155f28c0bfec4146e4449b6fd959c4e33e8d73248c20f486ab1f9916,
          -0x5bb53adcd71b39005efeb26ab32b1b344c7c63f37d5e4876e23dfcbc6d56c729);
    var p90 := Point(0x35d29f1e7afbcb5695212d2ba3ceedd2c12db12dfeb664eb2935d117858253a9,
                   0x13e38e6d1cd0c68d8ac10c760aa1d7fd3c9d9b759437c22cf4f23ca700d8c00d);
    Added(0xa8028a1100001200854, p75, 0x40000000000000000000000, G90, p90,
          0x676f3cf03dd2f1fc7989a81fe261e041b790de9bfc13516a138658c416c9442c,
          0x3b3c1931784d34ba3a04e4b434e68cd78c6a6e9e778cb8fe2232a764c1cd3f7fd5a748645c3d2a6d53a20dffdfc8821506633e047dfbf5f344fee3851f9d3fe1c95fa505bdd004348525e1a6f07426132f58af9e2537c63a9d75f0db02f3a035e03efa29a4dee3856230a09f23d84733aa16478725eb4c38dd5fe8501843e4,
          -0x40ecf231e64f4517a4e720c0f807296113bf15fd394dad03b9945fbb2a99715b,
          -0x61e9ba3875b4989f22d2cef3cd37d40e99750e11ec87d8a128303907d584d4df);
  }

  const NONCE_POINT_UP3: Point := Point(0x174a26d8c3ae0ecf83551faa4159409e9d30ed67e88a00cfe9ff5e4736d2619e,
                            0x1227cd70d8cf7cfec4dbc0099a9f89850e6aaa5f60ec64893b70644a6b7117ac)

  lemma NoncePointUpSum3()
    requires Fermat()
    ensures IsMultiple(0x80400880014000a8028a1100001200854, NONCE_POINT_UP3)
  {
    hide Fermat, IsMultiple;
    NoncePointUpSum2();
    Powers96();
    Powers108();
    Powers114();
    Powers126();
    Powers132();
    var p92 := Point(0x5fdf14b7af9f6c8edd25238edb1897068bbf016b2ef7ae5b82cdd8b4be67167c,
                   0x6b78289e1359bbb3133676292859bcab0b481e2137703930fe81d4c253464ccf);
    Added(0x4000a8028a1100001200854, NONCE_POINT_UP2, 0x100000000000000000000000, G92, p92,
          0x66ce8ab960f825129c1eca29a223659fa88d6fc667bac2509415db99e57b6682,
          0xd1220f401f5af5b76a0438ba41e4be44208b2b58c460501b24ce7c081daadfe216f3e14f782eadd5ac1ac1643d7d285a446c2573eff237a644a4874768126adfa01ca9589c56edded5bc3d66047c12ee0156eff58fd4e64dc7da5f5325edf79c54eb15570db4eb610c8f2d7bee75a0f1521cddfbdc64aeebfa465e076f85c,
          0x36ebfb94bef05b42736ea35d5da9be99c61b6b218bddddc3cb80d90f219e991d,
          -0x697146e8a475f79f0c29898aa73a21e587d8ddbfb3fe0f809371252bde69d5be);
    var p107 := Point(0x21edeef901a508e9176f40246236a74b464609ae80b986fddc7c43f760808fd1,
                   0x14f246db607c1a3c87f3d98d5c28c9179b2ee2c742f0bf970f2bbf528d0528f5);
    Added(0x14000a8028a1100001200854, p92, 0x800000000000000000000000000, G107, p107,
          0x3df2238f4544375d3a0827ff58c0bebb780ae30393c961ec309fa693f2189005,
          0x2cf90432789721f88c50ea1d028e378560c3eec80c1f9a21e2dcc860cc35613e1b26a85f362706d60e0652104610b4a0e18dc59f0a8bccf422329931b9cceb292a83f53f3db76d38b63e0c820262a48a96f45416e75bdd0bf2b9a6bc5418c9aa30b2204a8cc22b5b328257efeaa97b924aac84c56c1662b8dde8ecd0dce5ee7,
          -0x75bbb82ad24c6465a9faf4feae977d65fe8b6108fb4c7cd088792101dd5fa8f6,
          -0x91c71e9159bd1b701ff5ce5fd46b54505ae66f714f39e62472e06c81d07591fb);
    var p111 := Point(0x4b1759de49f00303bbb10c1a4ec16e4c9424e626d940ebcc3826effe9ecc2f83,
                   0x7d01457e895a547a589790cb3c0876559232e93ceb4371a8bc18051ba08d37e3);
    Added(0x80014000a8028a1100001200854, p107, 0x8000000000000000000000000000, G111, p111,
          0x4ebdfea631643ec1f4a40fc6de94432d8ffa68304d20a93f321300f435e215a2,
          0x74cdad068eeccf4129f796c5fa99b9461aaf8576dab46f96503d5bb7b5be06e27aac69e3ea283b5cc9514c4456d5c647142b5f86ad77ded9efff4ff80363e3534c8e82c91e1350798082275aa3b3aa6f335be99b2b7dd4dff9f08707cd94ee494f6f25027c3c7555766b3dc694c7c1201f95cc9e97f37500a0c8e1a7a5bda,
          0x1ec1f135851cfc3c2aa5da9b566cafb9366737ac33ef10a689041bc09e7cd70d,
          -0x61ead40702519c5625ab2509350974f55d407551f7eea26cee3258e2ef4d7d9f);
    var p122 := Point(0x6125d4c05374068f583fcbd1335305649dcb39bbd152196e14140db03b8ce333,
                   0x5a2bfa08181a6820f49dc23b7222fb60a1fa15bd6900f499dcd16736f2ad9032);
    Added(0x880014000a8028a1100001200854, p111, 0x4000000000000000000000000000000, G122, p122,
          0x64f68cdefb39afd7836c7a569962020722544a5bbf3a3d4ba62ee651383f674,
          0x1d8201ffb9d431752a70913688fc2edc46ef2e4dc4258aa52f43ed9b5f00ca4fc3344be755b5f3ec342f205d88634383e55e483ed15b4159d1378ee2d94c33aa1da08d9335078a1548e2fb2cc6719005f659b57f25f587febcb103e0332dfe14ac51ff93883b082831413bb06c35122ae4443041e5a97ceea0dbdc53b588c,
          -0x219c14a241a50a7e026eae8f2611b89a598f35b7fa3b51cb46957639cd3f225,
          -0xb9dc9c1058632b94c03473a1fcb1352f4a335e250710419eaa9d113807f045e);
    var p131 := Point(0x174a26d8c3ae0ecf83551faa4159409e9d30ed67e88a00cfe9ff5e4736d2619e,
                   0x1227cd70d8cf7cfec4dbc0099a9f89850e6aaa5f60ec64893b70644a6b7117ac);
    Added(0x400880014000a8028a1100001200854, p122, 0x800000000000000000000000000000000, G131, p131,
          0x553c50447741ece58d84c9629fa93a9fae86f067f3daac64cc38004b1cefae05,
          0x26bf19c2ebb6d9ec6b68fe1364c8ff7e965c04b9f9a149bcd817ebee900a5202c649ea89e6f54537f61ef44c79612f5c36bbd43733340450343dc93880e02cdb072f3c35cfaf9c465c103250fbc0bfe176442978d76e65a45f662565095e414e55dcc5451ec7e3b8ad03758d6e7cbdc477427d6e22d5ba2aa966b75b1c9df0b,
          -0x72cec1add1c21db7a78fda248b1cb5edbb75d78a9f68086f9aae009a4a1adf7c,
          -0x91a878a2cb0370e4922a1e4018b2c169c7bd229039e4a782353cf58c754b62cd);
  }

  const NONCE_POINT_UP4: Point := Point(0x217408936a6bed0b06a6f6dc024ba49aa149c70d322bee09b0ec044f28c1d524,
                            0x64e7d9873cafcd33e57e748eb30058f6887f12f812183bd23d83abe244e2a032)

  lemma NoncePointUpSum4()
    requires Fermat()
    ensures IsMultiple(0x2014001480400880014000a8028a1100001200854, NONCE_POINT_UP4)
  {
    hide Fermat, IsMultiple;
    NoncePointUpSum3();
    Powers138();
    Powers150();
    Powers156();
    Powers162();
    var p134 := Point(0x581d69177b7c16d4ccf9a6fbdeaa6df5a84c85ae9cf1723849bdfaac67128621,
                   0x785b01a180b70998bfb2eef7e571bcc730b7305f9edb332125c3bdc0ad368361);
    Added(0x80400880014000a8028a1100001200854, NONCE_POINT_UP3, 0x4000000000000000000000000000000000, G134, p134,
          0x241f06485505444138c279a978a0a6519bb1c382db7f9550f8aff97c5e1ac886,
          0x1d446a9eaf78eedcd6ee2b1481a6a7052f3706324921de009571f3ee49e01433801bab7dd844ae7a83644ea5746a7e0bc80cb3a6b0177c95350c59815d880caf1a6f39e55e974d44bf7d6c98332ce774aa37233dcb9815999ad2b5ed6f069cd3394390c010661f8360e889acd0832a92b015d384046d0aeff50049c4134552,
          -0x24c2d96a451ec93c6fbc5789fee2ab12d80e3cb766eeafb4d0b3bc624a25f63,
          -0x3d4eefc4180e081c55e9d52639582eaea2cda6c7cc1e6be7452f7cee9dc1d881);
    var p136 := Point(0x444ebcd69c0ba4907a96e9a586560bcc75f496ed568c33ef3c527fc8e4ce3b42,
                   0x4e0603ac7a68e4df069878b2d35ad85a92358bff43cbee21237127c7dfb3d4a1);
    Added(0x480400880014000a8028a1100001200854, p134, 0x10000000000000000000000000000000000, G136, p136,
          0x73f28752c8e400006522b99dec6be96217ba3e29c839f765cb951408f65d4a9b,
          0x16a2c1d6298fc26b62fc4d855b4c6822c1a7a9157819ba4efe70b9a1dcaa2fb1f47f1f6b1c81acbbd13119bb26e4d9319c5127ebd0a9eca9e98ce1a29ec8a2a90123f90cb890b5f60f02bca2b83211f775a5a3b79fbd9348142a14857dc235188ab077a018dfec5b913dc9e5c8ab31904ee31961c356cc493d0d56357f6ee8b,
          -0x49c26797be8c49b11a72df39879d81a72dc3923355c450b60b905ca4f32de6af,
          -0xb6501410c9b21495bc1c4e04a4ea2903d369be3abe3f48804ee03a708d47c189);
    var p150 := Point(0x352046bce7d7ee57f75539e352bbc90fc3222d8f4a07a9c9e8346b7d25a615c7,
                   0x76d8a648865ecf188f1b01564bf632344854c661edb0a5559b253c2facf57719);
    Added(0x1480400880014000a8028a1100001200854, p136, 0x40000000000000000000000000000000000000, G150, p150,
          0x1734734d835a616dc92677f9a2b286d5e1898894c9efaf709dc9ca65f2722333,
          0x1851f5e63d4b60086949e6c711bc0353df6ac20844a7550139cc620a60543c82178671b207c3e96c4ba56b3d55b4ad2b953c5492c01211cae2a5369588172d4e702b7b1a37f13c9d012ec0112c98ba337b1428a220a72d4d6f329612075b5b0cd9156b0b1645e689dc9e69a03d7a0a2cdac2f5d45eef4e9a8c53a7b6cbc4a7d,
          -0x58f8f3d492c4c21b8001d4ba5db391b4f229f553e3268a4fc4829b39b7f06275,
          -0x795719e29fe14392fe682c1e9038deb2af84bcf8b4a6da85a91fa3b543ddd58e);
    var p152 := Point(0x464025df58f1b8122abd001668143e257b7bf47c9689632e9eca4d81d5371f99,
                   0x15ac621f830405c47e697351cc77583973d71605697b5fddb6fdf85ae376777b);
    Added(0x4001480400880014000a8028a1100001200854, p150, 0x100000000000000000000000000000000000000, G152, p152,
          0x616a55f73590a1cf6031f59ebf7a9d9adca8c8e2d72050eed1844d448987e161,
          0xd9f25f9d47d90de777f95228f860f8008ba6bcd8fa4c9442ca39d82527cd035b2aec91d3595a1a94b1c5b36d4d66b846497b71f20a11903420563970ff0ebb54a5bef903de13876ad75474b74b410e9763fb4e92790e6f58fb2e72dcf93479f941b9b1082d1243fab30bf3c20d8de0db05d43a407adb483905c76bc1be7cc9,
          -0x181dea2ea9e1377aecd87b193e0041de8ddcc7c5b6bd5edecc33eaa2926b2381,
          -0x8e19d18b8eb67bb1710e1055e26b834bd4cb97e82347fa9647cd71622f7fa765);
    var p161 := Point(0x217408936a6bed0b06a6f6dc024ba49aa149c70d322bee09b0ec044f28c1d524,
                   0x64e7d9873cafcd33e57e748eb30058f6887f12f812183bd23d83abe244e2a032);
    Added(0x14001480400880014000a8028a1100001200854, p152, 0x20000000000000000000000000000000000000000, G161, p161,
          0x247b22d88d56fc1026db319b31f9e58dbbcf35648df4828426bb0ca1c97c674f,
          0x10b05ac312acf445f8bd4078fce6b3e0e6aec487ee418c16e1ee594aa04817df65f858e32a9365c759f3db7fa289cc88cf4775c2a3379be5b2df16856577a6a4b05c92303ae28cdb384a116d659dc4e01f9d2275cb1c7a914c05c79fa54796fe5e0ae77f6496b276e2280566e614507d6bfa6a757832f3e5ec470e27e260,
          0x82ec1a9771d4a27fae3aa222372ab95ffaeb15ba21bf5c1d38e0447020ccf1e,
          -0x1e80dc8ad12f0d69bcc83ac5b35fb46f5980c93888bfbecaa893345b1b32b6ea);
  }

  const NONCE_POINT_UP5: Point := Point(0x2792641a0327dee5748da8a57691d50611d09282fcc85135a493a571b062a4ae,
                            0x1251d7b63b3de943c3b2c53e08a688d9246cb81401061ac0dfadba35131694e5)

  lemma NoncePointUpSum5()
    requires Fermat()
    ensures IsMultiple(0x54052014001480400880014000a8028a1100001200854, NONCE_POINT_UP5)
  {
    hide Fermat, IsMultiple;
    NoncePointUpSum4();
    Powers168();
    Powers174();
    Powers180();
    var p164 := Point(0x13781b529166fdd1b354eaabcdbf8427add106f54af22779da64dd90b09ef483,
                   0x142556767c9ac85baa6303efcdfd1fe080aa2e9c83d034b8620007b6da9bee7a);
    Added(0x2014001480400880014000a8028a1100001200854, NONCE_POINT_UP4, 0x100000000000000000000000000000000000000000, G164, p164,
          0x5d89e42e4015fdbbe4d4b2168cc51587c7ebc4ee46194e1e2a3b6d169d023b30,
          0x8352971572db140873e7a7444452e6f95b92bc58e435243751342c0fde055bda68e7a2182db8528ef06e6fd5da25840eef4aa6fc88bfd6b12e95c4e8fa6ded1d35bf57992020a05a46ca177bab7df4c1591ddc1e3c98fba177245c1b26af2fea33581a0649d266ddb730b6b3551c92abb17ae1bbddc908bf52f90e812de30,
          -0x2dc509a39afeba4a0a115f15d578ee7e277ac93841303765d9dd0d0b458cdd,
          -0x24adf7123d549cfdff025336f024d8fab2a0971960b90834f2e2dc6b5556f902);
    var p166 := Point(0x303bf677798471e0043c7d3d972a8355aaec848329e327b0f0322b9dc8a9daa2,
                   0x17f43081306cfe594f28a85932e49375d7c110c062e4b4e16e7f639597130052);
    Added(0x12014001480400880014000a8028a1100001200854, p164, 0x400000000000000000000000000000000000000000, G166, p166,
          0x3f58bfff00ffc4e98f7d68f3e4fbd77d0705eb6c81dad73c56d1c82d20967583,
          0x1e24da9a0472c1f3c1556c58e437bb34d030eebc354b2122aaaecd88cb0166ccc81eec577e79c6ae624031649048c66cfd279115f6ad21e89c6dc272fc5a4606007799a344d4eaae375288ab80b8b8ee604e628aa2197eec801fd48a61c8dec49611991a0d9212f5819c29ef52dc00fb5f980700be5787664a0e7e55dd44b7,
          -0x407bd99cf45f36de3593d98eb5315b45648d81a855122032431b237bbedb2e9,
          -0x27994893a1f6af8d2381b8edb8362a7affe20e50e5bf71925892532aced40ae7);
    var p174 := Point(0x5f2a2e7b0a2d1c634d5c18195e7ad2d764dab4cf47a82edbc4adbae3af1153ec,
                   0x1a7333b82ec54dcfe172db7470614dd64caf937b5b90a0b493522d8d7c629e05);
    Added(0x52014001480400880014000a8028a1100001200854, p166, 0x40000000000000000000000000000000000000000000, G174, p174,
          0x7b7a8d630250bb7e2137715908b4e5a9b82ba4f815e73051f2b1f58c79417db2,
          0x498b64eddcf70bef2fbb097f08d8c3932ceb3e887247db24f74b76b3b781f9874fe661d96cb489dc2c27877746db18e424d68809fb56976840001de120cb0f2e17597f0c27f77907fd59bea430c62ef9ee8f0060b6aa510899d96a1c8d5675d0b9934b3d89cbacb126ac8035cef5c5056cbee6ce530688d385f43c38d0efce,
          0x27ccf79dc72e6b0cb11afb0230ebc2d503a710f2699a2d22a0c58a5388f88f1a,
          -0x447109d84a33bd73af57a32deb62494b270b24061f0accb1c8e41061056ddf73);
    var p176 := Point(0x1da42a2a80a7c400b72d4e7d7113c2f00e9c1f2dfae841f45d336b6552587ed2,
                   0x4a506a89a7b46e8b3ff80e12b6d96f4e143ea6750ed238e73b5c127bf5ab2213);
    Added(0x4052014001480400880014000a8028a1100001200854, p174, 0x100000000000000000000000000000000000000000000, G176, p176,
          0x174cb33cacd4a302f26ec43c4cf4c24dd68a9c26219cbb0c90354b2d010a4f66,
          0x692af08caf17aaed2312b01f9bc64694b48fb93c6041c95011684958ecbbe54a6393bec56f3db3f9774b166585b0cd3e39bf9ec3070dceb4602b44a664117f597193c116bc9dc8b3f5836bde0fe3807b919bab0b41d1f1ee3ddac7e3e52f34ceeeed1c9cbe603489ae02f20f676c87b726f96264f75cc968fa024a9f3ef42,
          -0x275251b350dffc1db26158edd839655cd4563948b5e5556ef0dbaef5282019a4,
          -0x1d115301ae6c7b9b4c16e58a9ef0584ae4a03a1673295a1d41f6fb3ce97d9de3);
    var p178 := Point(0x2792641a0327dee5748da8a57691d50611d09282fcc85135a493a571b062a4ae,
                   0x1251d7b63b3de943c3b2c53e08a688d9246cb81401061ac0dfadba35131694e5);
    Added(0x14052014001480400880014000a8028a1100001200854, p176, 0x400000000000000000000000000000000000000000000, G178, p178,
          0x1e5dadf8b0957adbf13050780580d2fa73a0c21894c883c76d906cadde9bfd33,
          0x842b5cc364b9357978db1d4dd1f9174f3029952a088da518371a676e5e0fea61acf49ff43ce1bf7de213e41873d3ee6ae082625211c8cd1bbe4677a85041a3a23626406ec895e68e052d0bb79e536ff973516b98a5a3cbda82fc4646938726a76d43fe869116b834576586af199766e629218f56526a569d02157b82164eb5,
          -0x342b40d0d30c27fb531a16216d73db82d9428631c12514708f475d83cdfb0585,
          -0x467b9f10fdad53111235cfa4b4bc6611d15992294b560a6a1bd00cadcf636baa);
  }

  const NONCE_POINT_UP6: Point := Point(0x5437e8d4928078a480e81caf71e20359b19ed308463e7a49c003411bcae0ce40,
                            0x6d88e9bc0150d43702e30925345afcea763d2627a3858bb55492b1fd38a1a671)

  lemma NoncePointUpSum6()
    requires Fermat()
    ensures IsMultiple(0x41090454052014001480400880014000a8028a1100001200854, NONCE_POINT_UP6)
  {
    hide Fermat, IsMultiple;
    NoncePointUpSum5();
    Powers186();
    Powers192();
    Powers198();
    Powers204();
    var p182 := Point(0x7d44f63664bdb2edd2edefa1ad2b2dee9b0a8501e6b22dde2e533dec5a0b5b3a,
                   0x16237e3c84c73b111882f781bfa4a08c6720f70b3051280997e8c4da3ef32b4d);
    Added(0x54052014001480400880014000a8028a1100001200854, NONCE_POINT_UP5, 0x4000000000000000000000000000000000000000000000, G182, p182,
          0x7c06f84e8a83ef95dc72200f3ee3374a0c209c1c76dc297548ee93119cf9847a,
          0x4dcd54214291a6934cea7c75f74a478bab2cc932d733f46dae3af5e6a29ccdab34749b3591795ad9d97e2bd9bb557f2386fdafc3315d1aabdd495daf4b19d17f6d44a9864a81bfd96dd33d9e5fc2d46f7b4c29389a5eefe6d32548d73ff0fe0e1c61fbc3c46b20a69dbbf09221a817f8d110168095991e17634ed6142b5572,
          0x46f6cc1a617ac8f514cec696560bf05c02e6c065f6d7a86b45359ea1b2b0b46e,
          -0x42ce153da3a931e3b6a94b8516e868d4df3702ca3913386551901738195fa51e);
    var p188 := Point(0x4efae3675fe942eb62166ae7fc4230fa061d5f44da24e6cdef47e85648a9c267,
                   0x263e8c192c338a5fb589036b1c6ffca7fa0503af4b4e177e5363033632101b14);
    Added(0x454052014001480400880014000a8028a1100001200854, p182, 0x100000000000000000000000000000000000000000000000, G188, p188,
          0x4df3a47699da5dccfbf2959ac01fe68dbdc5ebdd89e97758e40aa1ead12d4d27,
          0x6e670fa87886978b1f89b836b6b67bf57f8e381a3dc41298b44040d756e3b6a317d5208817c1c2cb0402ade9319fc92a68bab2aca0fd89df33d01b777104567915045b8b5c17fb33e80ae67b2535ce41acef503f5f3e280b565830ba5396fad97c2906886a17a6c50e558c573e4dfb77fc5eb3332f65185ead930166a7a6d,
          0x1d85a6ba79539d38fbeb1c7abc338b6c45a8c3e9b78819b771c541d42e776842,
          -0x29763587c4e7b895de0619ef9535cd31de47f0079e2cf21764fbf7006424453f);
    var p191 := Point(0x7e19c5f311fd545cdef59f7077632ffcede9ec8ac80b4a8dca01dd182aeda3c2,
                   0xe7ca1bb1251119d32a75ffb23df28b2bd45b2b70512db0c72720254f6c31e0e);
    Added(0x10454052014001480400880014000a8028a1100001200854, p188, 0x800000000000000000000000000000000000000000000000, G191, p191,
          0x760aa91081ae814fe22a4321477e947c1b2363d7445c9dfe511bd82397418755,
          0xad41b1b78222287de9bc2f2af97722a83fd868ddefc0fb47e8744832586a728f392847818f98bfe510142c43c515b8e1873421b7d85fcb99e0064b3404ef2c4d8f1c926ab95d76bec6ad5bfcffac5144ff71355b5df8e1463e36be250464e8ff9612aeaaacb7f51e70e7d433d5d62b09519593fe338eed67036812fabc7937,
          0x2810217c0c43ade67203f53677c25828d7b264cdb2418d94ff560e5e8fbf4285,
          -0x5012eaac7b8154937681b6da44ff2a278e9ffb002a2052129ecb5ae49d2e6dbc);
    var p196 := Point(0x7121cf654cb61f277df6b63fb0f91e50469a12d251fcaad3f630c25743706513,
                   0x2738ab7887533a16e93cd7c0abd160707a38a5fd652b9c88cc503541e1a14cb4);
    Added(0x90454052014001480400880014000a8028a1100001200854, p191, 0x10000000000000000000000000000000000000000000000000, G196, p196,
          0x13e3f4357db9eeefc23428f73fff15eb65ad595bb3c0ccc3bb41a418f03b5380,
          0xe576dd916e06b2babfc794038dc79aad0153da71fcb7af9842f904d314c8807db1d38e0e893d571b13da85ae235221b902e007846984ea0ef0cfa1d9a260895a3d5b1899dd27d9b50c42168ade4fc5edb2983a12cf314fdaa232cd64be3c94d8dd2e968bf79c9170c7c3f4bd41178b5775a514f2b08b19d4ffe5ff699ee9c,
          -0x19d5f354976da52224730528468c54ef2171da9f640b88630912a278862463d,
          -0x4cf28a1c3c77013d8bf3c595526e04089ec05fd494d5dbd06e6c361915ffbac0);
    var p202 := Point(0x5437e8d4928078a480e81caf71e20359b19ed308463e7a49c003411bcae0ce40,
                   0x6d88e9bc0150d43702e30925345afcea763d2627a3858bb55492b1fd38a1a671);
    Added(0x1090454052014001480400880014000a8028a1100001200854, p196, 0x400000000000000000000000000000000000000000000000000, G202, p202,
          0x74bb76ef4d99b1a76e711d6a2f28fc6becdd9ffcdc6b05b37980b158dee4c3d3,
          0x80bfbbe38fc0cf6e3d275835c360123fdd19975c64680c5f19b51089a1204494717e8de149fa5808d189d80aeeefe16dbd0a2cbc4af5c6c9cb9298c81fa10f10e5761592f10cedae6b4f326fc1150582816eaa713b306dacec51115cd1f7d50d8d9f1a8a188ef7503e02a70f049bbee4fdb1d91b8837a2cd314e836c40a499,
          0x1310664a8f2bebd57cc11d6f3889a664fb83799dd17871936fa97ebc3f278ced,
          -0xb356c952219feed29328d53494a28748b8622e12227abf65973e10b6f2bbc700);
  }

  const NONCE_POINT_UP7: Point := Point(0x666e2d1dd51c59b4128d9625228c40f4197754ada8dcc53925f44f1b70a7d49,
                            0x74431112a1be0bc1993efb034c82adef66f37b75551e4ee8cb316b1233fa3ca)

  lemma NoncePointUpSum7()
    requires Fermat()
    ensures IsMultiple(0x45020141090454052014001480400880014000a8028a1100001200854, NONCE_POINT_UP7)
  {
    hide Fermat, IsMultiple;
    NoncePointUpSum6();
    Powers204();
    Powers216();
    Powers222();
    Powers228();
    var p204 := Point(0x49a19d9c53e015ed5acaf6d72ce63ab6dd68b293bccaba168aa8804398f07613,
                   0x5f5770183dd4d2302d2b6c89a98d25ca77294fd865a3e84ac8822face3d8ea0);
    Added(0x41090454052014001480400880014000a8028a1100001200854, NONCE_POINT_UP6, 0x1000000000000000000000000000000000000000000000000000, G204, p204,
          0x2ac5f941d02f76a56b2be40b2fa7c3f544895ec7b20cd44078a68f67c7089e7a,
          0x6d16980c1ca06d247909d0b549c3771f9e2b412123da5f6d3d6e175cb900c95d3eb27a009a056c4f10fd5e4b554f114c5fba6790791e865151b405bc624abbf7e1918c23d48d6951d38d65b8ac548c3187d68ea750b8f4f56a5289766c96ebf950614f7338f42b210ce5995eaabd6d09afc484664c9dbc1101d3fe586e42de,
          -0x23550688c719c99f70afda74e6c8208cf9ed18361ed0cec019a04b14f15fa540,
          -0x47d861735798f0015dbf7f7cbe5aa53322def7033935f73ac38ebb39805db0c0);
    var p213 := Point(0x40e4ac6d366e539333b985c73cd545079c88ce1db258c24425fc88b7bf2d1dad,
                   0xd615fc81f94f2972f1112bfdb0cd6d33686da8a99e046578354308bef672f25);
    Added(0x141090454052014001480400880014000a8028a1100001200854, p204, 0x200000000000000000000000000000000000000000000000000000, G213, p213,
          0x4ff6839c546c7371fff147938497ef99551add14219c13db55d11e4124eda4fc,
          0x172fae8b89d5a62dc2121038c65512a5709ff8be89f82f83f7ac023fc249f63c5e134d428d5751945006bfb13ec5b0e2fd28b5cb584b7752f2f108103078eb8c42f68c1b297c44cd3cc830e5e1de605df9d9d3bfc503647fee9f484cd52557169f36804a21d4ceae01632171a377cf259708af9bc8bfc0ce37871f4ef2d094,
          0x73d6316bd3e651230cad31c8a54aad251f1ad546ebb16a746379b6943c3eaff,
          -0x4a27bf8b9d155364a4de5a1311d188758321cda3163d777e0835ced283d9e07b);
    var p220 := Point(0x7277ac1b952444c33c41493a4e2bced19cbd4bf1d60933e66167fd6b2cb5389e,
                   0x275272f924f2682e5cd36f2618eeca048abdb1b76285ba5a37200a9e3283cdd8);
    Added(0x20141090454052014001480400880014000a8028a1100001200854, p213, 0x10000000000000000000000000000000000000000000000000000000, G220, p220,
          0x5775266055ad32bf9c7489ff028b640f9e244b7dab295815c2eb51b4d213dd3c,
          0x799cb9a73d6aea3eb84bc75a295525ccec903d692ebf22a92b011f7d9aa098d4e5e76e47a149269d13598cf83d130f77ccbb15dbf00940e769a6f2aae5502dfe586e792962794d0e226b269f4b27296cccc4a1603d9cd93bc65009781b711f3b332c333d5598086f6c2c56c492a276ed7d05f201793609cb00b1f2664b911,
          0x3e4745ef9aa6770bf9ecfcf0a4d5b68048fd5620d51ba8cc65de90448817ebca,
          -0x309041e8ff311102be60efa1d148cb9c088b7763d2004910e1efc5a3270b4ecc);
    var p222 := Point(0x172b019fe698db3ceadcb8f4e1890570abb70dda947d2aae01d2015d6cf07f1a,
                   0x44609abc4775790400027200385082c57bbd592dfe371ef2bcf298dadf5cc36);
    Added(0x1020141090454052014001480400880014000a8028a1100001200854, p220, 0x40000000000000000000000000000000000000000000000000000000, G222, p222,
          0xf2cc3ae59d298e62f05bf81582cbd3f6b0eeabf470b452530e95ce9d38eda7f,
          0xc01374a61d35f0d49a1549b90caff6a320fe0b5759e74cbbfca616946d83abad68cac1f3ffa4dbaec075024d0ce21026dc464d275492bcbc0b1da36705f443bce1cdbb462c020ad13bcf074f91c273db3098fb794905270a4e173fb67c6d5dbda8b04fcb8cebef12d91effea59e6dc7089bb886c3d9dd34908d516ff0cbcc5,
          -0x429b5fac6f38123795c9aa92ec56afe44c31a9087d2be63f02ef127466fb93fc,
          -0x761407194039e90b3e627cb0a42de7bb2a833f86231d5f5f2af108940e94bd0e);
    var p226 := Point(0x666e2d1dd51c59b4128d9625228c40f4197754ada8dcc53925f44f1b70a7d49,
                   0x74431112a1be0bc1993efb034c82adef66f37b75551e4ee8cb316b1233fa3ca);
    Added(0x5020141090454052014001480400880014000a8028a1100001200854, p222, 0x400000000000000000000000000000000000000000000000000000000, G226, p226,
          0x1cff989e8fb397a1eb131ea7e042e6542ecb19e84d394acba1b020e6565ae11d,
          0xca5fea7135fa8628ec598c47a5bc1138e0e4847132567f8fb59a84d905c3a7990dba161a502ec71990f11d6aef7cd941b37a3374c946ec1752c014ddf185c3a5dcbe82a293858bac1f45c2c072579bc6e67d4cc85f4fd60a06252b2a151da8b3e5dc2a99278649b589baffd0cf8a55054bcfabb100f86623253f8c83aaef,
          -0x5ce261a91415844610d06063f5712121fa461957e4a22e0dd623fb77f2f86fe,
          -0x6f68f637831a6cf9a6331522c2da9e0a48c62517094ab9ff21f136675f19014);
  }

  const NONCE_POINT_UP8: Point := Point(0x2847fdfb000ed36f49110cf45299f0f6bfba5453fdf0e4fd4850c53fa88a66cc,
                            0x66126d9a99319f638a1052431116d6562b90ec3bcbc64f4a4ca3ab5446b6fd77)

  lemma NoncePointUpSum8()
    requires Fermat()
    ensures IsMultiple(0x80021045020141090454052014001480400880014000a8028a1100001200854, NONCE_POINT_UP8)
  {
    hide Fermat, IsMultiple;
    NoncePointUpSum7();
    Powers234();
    Powers240();
    Powers252();
    var p232 := Point(0x2b3a656b895d24c3e0db8a65f8acc4e9ad185067146a717cb729c0c0841144bc,
                   0x59fa99f907cd433797425de62980809a9a485175fd2436502f7b8c6e17d32817);
    Added(0x45020141090454052014001480400880014000a8028a1100001200854, NONCE_POINT_UP7, 0x10000000000000000000000000000000000000000000000000000000000, G232, p232,
          0x2697c7e496eb80039f471785257e4ab205eafe761511557a6294411b94129bdc,
          0x5209fdea45accc9d79dff693dd96955e6bee7f86751ab202842637802106734722add8096007a19ee736d60352710515c65070cf412f942cf7bb2d386a3172b424cd40fb41a9f90425e1e0df08b1af865b1c559f7b644b77b4d1bd63c23c1f2b2fff322009b6c4dc70bca923d60901d9991b2f40d9ded4671fbe32e61b2a6,
          0x1923c0dc3a92145faa85dec8ea68b0aad92e319e4f1b9a61e9e99e06e2c970d,
          -0x26738ecfab971cb2036989c65d491a358fa6c1c554ccc1fbc22f661e21d9e9f6);
    var p237 := Point(0x107c85703a241a68414783075ad952b292d4c01bd5312efa12c93febeabe073c,
                   0x5397de89819ef1f593450f229e496e13c29ba85b6b84f16f5e08805cd891d22f);
    Added(0x1045020141090454052014001480400880014000a8028a1100001200854, p232, 0x200000000000000000000000000000000000000000000000000000000000, G237, p237,
          0x2f0285d18bb32d10cccaec8951a48311a833da9c6f52140245f23e3c149d20e5,
          0x39088f66428eb0f6a4ba229cae1d80dc80e7cf5c71ea4c38c5c53da8787285031c432b589834681bdf573407481ba69cc4c4f72188a8a838ead5df21522bd30c3db4bd16f54f04dd3b65a74600f21d2e57fa2e6aa37e259be6940aa14683371ca877e5c9e7596f08eeb3d8540ff1d78349ddec6630ba0771bb1331a9a4123,
          -0x14879a7798c2ebdde0c478b4b392dba14a87ab14ff81795e39605d35c1aa7e13,
          -0x2cdba742ca714ee7d4c13b14c036685b3db97b91fd5e69639838d97a65c75927);
    var p251 := Point(0x2847fdfb000ed36f49110cf45299f0f6bfba5453fdf0e4fd4850c53fa88a66cc,
                   0x66126d9a99319f638a1052431116d6562b90ec3bcbc64f4a4ca3ab5446b6fd77);
    Added(0x21045020141090454052014001480400880014000a8028a1100001200854, p237, 0x800000000000000000000000000000000000000000000000000000000000000, G251, p251,
          0xe1a1e4a3322bf42ce56fc47fba44baef826064616c1ac1fe21093659b6290d,
          0x12015906e72e5a23863c42322c664eee8b818ec5194bf90ceea654ecd2ff941676e9dff104fd19699386466389bf3ae7a5db5a29b25d91aa878d02fb168799b9142f0ccf0aae4cc8292d7ae6e2ec2e6712ea9e39ca8afc5ab6b47db84a1c6ac86c83e5dc42287836b84a6e1352d21efee7af6edb21c74b95f7a280c5f9053,
          -0x50799296212c6bab3236d4f63cf563f484a3118fccc87e51d807517a28c1e41,
          -0xf4b839e6aa655e107f1adab74dc918a638b9fa32a50d65eb76b3078b2b3027f);
  }

  const NONCE_POINT_DOWN0: Point := Point(0x16c9bc0d0504e0f91661b3495bb4837db93c5737056ed7df2ab25833818c53f6,
                            0x737536d22ead10a6125b39d6573ea3ee126da6b6817968725a24fc22cf6c0eb7)

  lemma NoncePointDownSum0()
    requires Fermat()
    ensures IsMultiple(0x210048101, NONCE_POINT_DOWN0)
  {
    hide Fermat, IsMultiple;
    Powers0();
    Powers12();
    Powers18();
    Powers30();
    Powers36();
    var p8 := Point(0x6e8ce4ff435b7f78fd959b956096f7b9dda31809cd4e948377ee6f3f24c4d7ce,
                   0x20ab65593c0c68857a0a0cb0a22f1625fb81e49ff0bef0b2ccabc8e4eaba452c);
    Added(0x1, G0, 0x100, G8, p8,
          0x61f1062093a62cb8a0c4d9f55605b7feb5f7e0ec173be29d9329379ad8b43719,
          0x30771ed1313acaa4c2795c7cbc0ad5c07cecdd088a1efd69c60995fd1a6198fbc54ce49b63c285c30762812161e719195e206a850524d9d769d18704c21a7ab7403deb5769c2763f4790a44da392ee60c3c803407e1bf8fe6bba57ab25bfcb05455b4853a34b20f26bbd548cac731fbe4b49e146e57c3a07fb404ea8c40343,
          0x4fe46d66597516cff180f11a8a5af2878a1f76110b19136bb30e6534dca2ffe,
          -0x3dedeedd751c4f4ac4f4a5a24208bfbd061ca241cdc457a5db0d1751db8573d4);
    var p15 := Point(0x15c3ab8823ddf5b05f6f734750153af7e038970f6af3d1b053e32d6b4a273dc6,
                   0x7e7d5302f7d9d15d3ced137f44257e4027dd26c9e00bc27930d9872864a3b9d4);
    Added(0x101, p8, 0x8000, G15, p15,
          0x1ed293225698e2eb0f57f4d6b872b91d54545da6a3e20f9f2c593639178f9f9,
          0xd152023dc24fd0cd73105f8baaae0679af5513c824a40e7b80953913459af29cc834c2be8dc75a5337a27b0abcaac82771aebd9d8ea33afa048ec07de45d6c8be8b571514870d25cc0e91a5833b141f18e39d49b8290ce490c59285700fea6517b0c3b1a390c7bb695363970556430517c5224910f3a285300d98b88b59863,
          -0x4f0c7e9f7e1611d12983365e229d890f6867402199e4df9eaf157e002227d890,
          -0x61565c21e209390c980ddaa24e4bb5bffd1a907b2cd788a1512ee0d784dafc94);
    var p18 := Point(0x2da209c1ba4f41c4dc5728084d7ba8cc2543015b9ac31092850c303dffc99d49,
                   0x5404496740e81701f839de1a13e6d0fd64c74cbdeed669b1f97dfd99f2653d3);
    Added(0x8101, p15, 0x40000, G18, p18,
          0x1c3726634131134cee45a14db91aebc02608043b9493199326f1d04dd1ea481b,
          0x41c6dce39d88d8cd193d54c5881219b200ec9b609583dd583926e547de0578b5062f2c2bb25909cd3b1c21259d5d49b66bf8a58e99c35688c90534268ba6fcdd2cd54a1dc5f12be59a7bc98037304ef845f8a2d353671f239bd37cbf34f09cc9dbcc87cdf9d8c912aea91fa834ecf9a8fc19e6ecc1db937fcf1470e69f3679,
          -0x63068d4b4898d43483645dc686d7b87f44dde57591e38dc345587d102d501622,
          -0x29f1f7a7bd3efddb47a54350e86ee1b20bd155e37382ccbc782cb003755e0be2);
    var p28 := Point(0x7d56c31699991ac98da2258652faebfd80ce3d3b8a60b3beb32e31c5d537ac1c,
                   0x5db08946dfadbfc2fc2a03254c7322a7e031585e42b6df6e169957dd0dce2833);
    Added(0x48101, p18, 0x10000000, G28, p28,
          0x479af00d62fb301f2a023c914f5ce9bd5c8e2837a18438e3db93baf7b264b85e,
          0x1065519623512ee77d2c05037591e631f45b0963dc132f421f6da5d67147031933c0ce00adb3eb2210e0f481d5c7699f9b15c2388717c433b52877e04927a50aba7bc1cdfd03f59b0ba7c78a9cca7de5a20d13224ff9032bb9a5c01530652934f7f65fe16cd85df0c75807bef329e5482b58e9fd7299e47e1fcfc0ea34084,
          0x3fb92e9e5d2a2bb986156a68e28f653156cedba45f72b8b1acf3bbb97cd543e1,
          -0x3fcbe2dde21afc80270f49a1579b59ef38e2dcdf8834a871f6626b99b16097bc);
    var p33 := Point(0x16c9bc0d0504e0f91661b3495bb4837db93c5737056ed7df2ab25833818c53f6,
                   0x737536d22ead10a6125b39d6573ea3ee126da6b6817968725a24fc22cf6c0eb7);
    Added(0x10048101, p28, 0x200000000, G33, p33,
          0x61daac8a3d59e89bdbd804f8ee17429be97a663ea979a35b8c8e0aae5b5c64b0,
          0x3e7f6f71d88c004c2e0a2a901dda3ef8970fc383d20207439e1e2e5f6db45e543d1942933ded93b7adb63b908c14252c2d010c87a80f5d9c9cff05c03016cccb6f000e619e9575f5ec6b8980b1fc344eed2b246ea75a2bb2cb934b5ebaec96ebba1201d1e3f65af4f2eee3731256710817c549518f9e4bcb9b1581da83df8c4,
          -0x96ea10c16046dd92839e81666c8fd837fe19699c7fcf962aaf7d75265f0171e1,
          -0xf6a7f5feedf3a091533e47d95b6c853e369f9a40d1331ec9be5b2877aabf5f6e);
  }

  const NONCE_POINT_DOWN1: Point := Point(0x5c8d4dd09ac82eb919622ac6f84a05fcd7152a8b098602414f23aa64fc6c7fb0,
                            0x28c81649d62cfac8b2c9fcbf16e97365aa1e4ead1c39c427b77da4a9b476afc6)

  lemma NoncePointDownSum1()
    requires Fermat()
    ensures IsMultiple(0x8004414210048101, NONCE_POINT_DOWN1)
  {
    hide Fermat, IsMultiple;
    NoncePointDownSum0();
    Powers42();
    Powers48();
    Powers54();
    Powers66();
    var p38 := Point(0x741f595d395de19e47b85441f1961c9a18534f159c8ce54dc7563bdeba2d72f7,
                   0x112e29ab145f2af77272192ba0236c93317924dbd2d76f2bef14d7d87f88f4a1);
    Added(0x210048101, NONCE_POINT_DOWN0, 0x4000000000, G38, p38,
          0x1b52880791f8ce7ff42c6996b02e40bbd02230c7c4cfc73900dd94960e3bf39f,
          0x38ea914c19317e44b797dd0cbedbcad3b7b3f543c5ed0c128e8e01231fa1b6d9db089cf44159f7e75e7fa3a8bab5dd909cde3916a75712b5591662d161e6c7f9a42aa5e47d418c2e84fed3b032282f398fe0b8845134797762fc9b3302f4e332ef81117558df3fe0bd3e5ae4807cf1211fd0d88d56b99881359ae835f18e3,
          0x36ea69e4ce678c32f698ebdb3a3e18a652aa3d29add88834fac241ba4758b31,
          -0x6a86a5ffbc24714fc9b1c670ca96163bbaed9ced19e98e9791127b5d9022b2e1);
    var p40 := Point(0x660d84498967f3fa8eb9bb6bc8dc0e5158ac777ba2f9c50d3e5b7e2cba012707,
                   0x7d484030a28b143901bd3abfdd4ed73bb120d0d26a8d141500039f2215ae1977);
    Added(0x4210048101, p38, 0x10000000000, G40, p40,
          0x3ba9603b03abcd8032027ce0b45bb690a02a22de3612f5b7b718f57fdc254528,
          0x127139d7a5bb280b21e8c2d77e002b006417e062d76a3dfd09cb49d14f2fe085d2f01f46c480a68308bcc5f4d10ab39637e6d27b954ed2c02a6b218f1fc376abde5d24b8d60dea8da342ea7f6748257aa8ea783cb78778861573b53e8e84c1673c157a1e7950e1ae1a4579a25541107a71b49642be43ef7aa39bd2a44a996a,
          -0xa1ee7a1ffa9cb1c434afb64721b730551004794839f098bbc03517a3306042c,
          -0x509d7d9e4ea5ab25c1dbe0d81e6814446e24934f779906ec7d44eb1692ec57a6);
    var p46 := Point(0x21fdc64a478e16cf9c4af61ecdb5faf2dd91e81d0eb626864dec0ae862de3502,
                   0x47c670312abd323c44db5266500321090ce55a36f9ba6924504433c4ce9bc026);
    Added(0x14210048101, p40, 0x400000000000, G46, p46,
          0x5504886de396c9cfc9ee1a098ab8c332a24d7e9eb614063676c8a437e3cedc02,
          0x14d0617bad786d048c7dd6517f17bca6975534ca20fada326bd8f4e091ef2a17136dbd934e625e54f3966b3cd1c9682bfb0abcd408419756f71d993008a6ca684b6495c61a0b8a97e47f429d9398f1e6533c1e9736262327da24127f443dc461bbc1f8be9653c770b1626a4fcb9d02c29f4a9b285dd484f41537e88229a1796,
          -0x44a3fb7b36e66b1ea21721fd814e33ce13e9f5a07d856dd14cbfe99e39a704c6,
          -0x8d416a815026358bc6707ce133dd19845d13d8226302647b690fe230a47b6e62);
    var p50 := Point(0x6ed3f955c561ba2cc018ea49b3c87da7652aed879588187ac44ac3c7139557f6,
                   0x30bf833900927d8377ee8ace14362d30d1bd5c6099a87b2c5df7e0bf950901d9);
    Added(0x414210048101, p46, 0x4000000000000, G50, p50,
          0x38fd2f830b22d6d990949cceef48ba312c8b16b9c801182796653cd7850c8071,
          0x1a70bd6a0c503b4757054d624db2ce092dea3e6b859228adba90fe84b6d03a17d4b9458f3928e2db59f53bd24c3fd0b3f77a8d009b0b02e1f2ee5ecb1119b7ad6184b497a59cfb07f117b2208fa17d7a504581642e08e28df7941077dc37dc449140035364c86b3d4231d51646c31cfb6dd2fa97096c1deb4ad59d17cd28b,
          0x27d51393559c072b803c2d88ac7632ad220c6be17ac4133e78a7836bb4948bb0,
          -0x1c40e14d90a52df52d85d60f8a0c95e12f728b1c2c8b65c39c66b93413d152d4);
    var p63 := Point(0x5c8d4dd09ac82eb919622ac6f84a05fcd7152a8b098602414f23aa64fc6c7fb0,
                   0x28c81649d62cfac8b2c9fcbf16e97365aa1e4ead1c39c427b77da4a9b476afc6);
    Added(0x4414210048101, p50, 0x8000000000000000, G63, p63,
          0x35de69b122949aa9e975bd7696cf1c08c2d936df30ca9b77ff811e1d375fea17,
          0x18ce04531b721fa291420df6db72eb6bb30d188dee08b067aec5e83c09b8af07e011a3d303cc2b1591370c587ffd190e25b03a2e302d131e6d69cb154a3bd3502ff653f94e7391e6c0414e978eedca600c4d1cac1369ba64854140777ad3ab48763d443e3975ff21ae0a8f24b4ed0ea834cc4665c5670936b8f091b0a66401,
          -0x3d8f1fbaa3dd25374d96b2d351535ec5349e134bcfcec6f964bf3e314f37fed8,
          -0x403dfd57247258347e0a96b9cd686c92787ba938bec62e8428a256db83e950f5);
  }

  const NONCE_POINT_DOWN2: Point := Point(0x488d8ffd423103a4faf031edebb7aaa4283f81b3c9c8d34c549bc1ee737cbb1b,
                            0x4ea32255ca06c9c28a459a877a292fbcae24501758a63c8b8d261fcb1b39dd37)

  lemma NoncePointDownSum2()
    requires Fermat()
    ensures IsMultiple(0x8a0248004414210048101, NONCE_POINT_DOWN2)
  {
    hide Fermat, IsMultiple;
    NoncePointDownSum1();
    Powers66();
    Powers72();
    Powers78();
    Powers84();
    var p66 := Point(0x7c7c3ed8da65da509a2d2ca67d9b343472b8ad97fe065721001610e344e49a05,
                   0x22bd20dc0781f88958d812acd6b2504459ab1243f55e06d64083d06e9b78e188);
    Added(0x8004414210048101, NONCE_POINT_DOWN1, 0x40000000000000000, G66, p66,
          0x622845d06479a87ebba66f9b25e0e9eb37364b4535d3c3441c4d620a1464974d,
          0x155cca674303123c2997de6eb618fdc779f3f36156c1a49139219c263ecab8089e8d8d0283dbf5c4e423f5068ae6e9d94796ef1315d366abb01fa3ac58e346bf8ee47f1a4093d649c1c2bc6f686c245e8ad422e4c164854271f14ab3b93676b645263d4dd4b1bb091088ac17c944247dd53ccd0051e64bba371d0eaa545013f,
          -0xa20d4a75c3bea04696bfca8a50ce7339883272e605766fe137f99695dda080,
          -0x84ad41f0d73cbba8f5257430aa32a8616a97b778ef9a5fd5bb5596e3f9568882);
    var p69 := Point(0x65e0020c0bac967eef58e0273aad0a6517ace73ab01a409da2f9d166dfe04ac0,
                   0x40d8d7a39b799423cbd4818f3a3d63538a600f4a9872b2ff7273d2a3ba3dd17f);
    Added(0x48004414210048101, p66, 0x200000000000000000, G69, p69,
          0x3063279f9d0c4dfc93c7920e6cddaac838831ba383f186746b9ecf161f3eff02,
          0xaef02f610c151e2fa19e9240dc60a7d8351efb5ca0f8a525d2312cda3927569169bdb9ffa6488b5067f9d0dceadcd435c28f08ae1156a72c4a25a51247d12e06c593c82943f7eb7551bd5a6d830103f22e2f98f742d99ffb0a8a5b39a598732bd2b57f019ee459a4e020bd11f64e78f414488881b5dfcd9235c82225067656,
          -0x58bb9214f2af3ce5bedc5d4bca64b338f5d06a4f40acfeb0650a0528cd307c5c,
          -0x5a9bd7c52fb474357e6093298e31fbdff6a9971e621fca4daa1b75e6b526a58e);
    var p77 := Point(0x22b6ba50ced285e8962685192c66b7c186a542459eed34f0f3e8aed402629d2c,
                   0x4b458a1d52bde6139a1722eadcc5884963858acca1fe37cde378aa49109f153e);
    Added(0x248004414210048101, p69, 0x20000000000000000000, G77, p77,
          0x4036edc9d001410f0d17869aa14db48ebf59420454d5f8b174cc6b610def7f86,
          0x358ed0894204a17f1b03687bdfd31203ccbf4ba8e4cfc1e644f8014debd70a3e7f2ed4b7a1ce8d35738acc80cc57b28afa8ae9c3acf413fbe3d373c8d84aebb0f7645ae046be808692ab02446febd85131c6f5cd4cb9825ce319514fa5a5f59b906dff6e284301f5f5beb8cdd77895b951cb9fa05989e136f8b965bbf771e2,
          -0x14f6f909d77f253c9e1425787ad2f53c2c36adeba387bd365bc1a9997f18ad2b,
          -0x4aaf140bcdef67aa944aa5991da4bc936cc1709c783851e2a9956932283a6755);
    var p79 := Point(0x3ef812a95586d311cd2cb529b9ce698c118fbfef0b98897247117d29de80d401,
                   0x47d6d503471bab5349b17959bc5d7314f4c3bd266c1d61cb77f7145d4a973023);
    Added(0x20248004414210048101, p77, 0x80000000000000000000, G79, p79,
          0x218f920ecf8ae4b2824ac3da0608d026a835637635031ed9ddc2ff814ddffcb7,
          0x9438b22e82a176131ff902b7e51382ecf2bfbd2bec4d45c6988423fd1a41cfd54e19b73842ed6d01b3164fbe635569835fb4daf3e4744173fd975b22aa11796e3605445feeaef5954b1aa395ee622efe80090d151afb78db9118beff266437294600a57451a96e5e389aac89cfa65fc4d098f43640fbb70699051626bb40d,
          0xff4c9e39ceb8c5d227c6dcda548bba87dd46118fe378ebb4b26df252addf9c,
          -0x24a052085f756096090e925390ca0ce124710f5bf45fa72996180be03eebb6ba);
    var p83 := Point(0x488d8ffd423103a4faf031edebb7aaa4283f81b3c9c8d34c549bc1ee737cbb1b,
                   0x4ea32255ca06c9c28a459a877a292fbcae24501758a63c8b8d261fcb1b39dd37);
    Added(0xa0248004414210048101, p79, 0x800000000000000000000, G83, p83,
          0x63550a48bea61fda57fe23bf684bf3920949531f113c0917bec4c2ad4b388400,
          0x2a6d8983d99e05fa9c396c41ab77a936c39c48bca5af6471bf9729ce07f4e86393911095a6c299006ec980da0e7fc73ed4210ef705781d42c93fbe52c5e9c1ba58a2c85afc35ae3088a1aac4a6985dcaa40f5bc8cae1c28be1dc5a285e1b5f441fb1484e8692a078533c02c31c5917ab84025e252f3da91d5fc53d84b00371,
          0x7a805a2af4d874983bd8aad0432d370769660572013053c76c24cf31ed716af,
          -0x72dfa5016001c1cfc2ef2616f41f8a7d50e1f5fdb232ac6b4d98315eb0c9eadd);
  }

  const NONCE_POINT_DOWN3: Point := Point(0x36d699361058a6ac4dadfb0983e6ceef4edc2c9822cad24097894b1f82ebb702,
                            0x588efb342c4cc2c57d3aeba5889283573b93d1aa9a994bdd9ad78f831c4e56f8)

  lemma NoncePointDownSum3()
    requires Fermat()
    ensures IsMultiple(0x294028a0248004414210048101, NONCE_POINT_DOWN3)
  {
    hide Fermat, IsMultiple;
    NoncePointDownSum2();
    Powers90();
    Powers96();
    Powers102();
    var p85 := Point(0x3c252ca7a64f90fbe0dac51816a8d212f2a63b75c1a3d45fe68d39df246f1c7e,
                   0x28552461262f57065f40ec475ceea7c1d614401f3f85152ecb400e1f71046139);
    Added(0x8a0248004414210048101, NONCE_POINT_DOWN2, 0x2000000000000000000000, G85, p85,
          0x28e1f3a5b879409a5c359c3277ef9b099a8f982060a37760fb6b77a1e53aa0ad,
          0x1c33c372013ced12dd8fbd21ed9afe37894db5cbd6dd5f5e37ce56c402cf0a0090eeb28e0e9ec2ea46ed51ce4c25ada41951c9730d765da9cee1be578e963f38052e94dcb2135c16624dfa0a150dbab6b2b8d6525290e4224eabc1d386cb8a27ebfac1312c195423257b3c67f39cbda0a157c6aef3b527992610ef33055dd1,
          -0x12579a5a5a5a7f804560d9fff8baf2f3d8c6a69ba62abe0d9470ba372b50a8a3,
          -0x34b2b4d04b0cd709c63ab1277903085c3c1a85659fd44e8700e3ff2d18dd2c87);
    var p94 := Point(0x29ee2fef82b560c84e9f00f2c8575effa34cb362bc6e4b35c05c9757d405c1ae,
                   0x2d3ba90448dcd71927f68db14d70fa8bbc024f5c3e4976376bdf3ceebb98a921);
    Added(0x28a0248004414210048101, p85, 0x400000000000000000000000, G94, p94,
          0x59c25ad89d87cb6fdec5fce5e4f2bd6bfa890208d56b5b3e0c32daa68278ea0a,
          0x2c9a4d2f78a722f19bafef696d07887bb163b5bf5bc397d894f18750fb0f322b4dad3c6c315af6f16f9d05ed21454290775236a4de22ca1e790076b41e32eb7fc339da59f2ab3c1ff0dea2b1864e821a626802e33e8dd49a2929382f18f0b0adbe138cf0a92374c921d4b9c5ea6d5e181405bfebfe89f6dd5f7314183a10,
          -0x9d334a2c99fcd5192a7e14eb83a81c779527b9dc44cdd0a0e3bf509408a6097,
          -0x5a320174f59a1c44bffda329b03b801fa19d30f1ed8fd02551609b99d8196036);
    var p96 := Point(0x28ba4a7b72754d5db280d0b39b629331bdaae57d784a45e934d1b4e137e3ee93,
                   0x1ff62c726216f9bf1070151f9b619ef1a6a73b3ff5f81785de5240cee55d327d);
    Added(0x4028a0248004414210048101, p94, 0x1000000000000000000000000, G96, p96,
          0x5e9cafde5a85e76a5148dbd41581286143d741d4c3d842811091791044d1871f,
          0x5191f5944015f610583193e5d0c351f9c630026f59e047e6c3782c3c35784f2b58d843ef0d11e41271d5ad47f206c6cfdb04c1fc937d7d03c23a9754e31e800d99aeaa71fa798b6f867f767b28ce1336257d96e35ce0f30b2b793d01338c090cfbd2d96cfe6a67785bc7943ec02e150bcf74b3e7dfdee9b7ece6399372bce5,
          -0x1070d43026183efd2a4b219f155e09cd184afe56a5916a582db11e0b95213b56,
          -0x457095aa618c0ee8196ab46278bd4696c45765b8913190d6782490fd2148a5a3);
    var p99 := Point(0x69387f139bc37c2993dcd269831746659678c86299f736bca890e2c49f9e1093,
                   0x5260bc5183b0e000a6e96503118aaa3f827e9e498249f633bf01dc354d173fa3);
    Added(0x14028a0248004414210048101, p96, 0x8000000000000000000000000, G99, p99,
          0x598aa2af8473a52cc4746453c70d55fa3dba30a022a8119e551611f1462cbe8c,
          0x3ceee4556e11859216be4aafd18e83602e73ff9d6e5c006de12aa9502497a9cd5faedb1acf99dd558f2e919febee7264660494e13a422763e5536a84820e5d8531b720af9f4435534582a606f53b692e6d7aee4018771579c49383c8e329d5ce64db9ac05f8e2929e24228cd4f39b40d2ac7583ead607c896e427382a9bfe2,
          0x1f31c6023a883ee93395fdecded886d8ae491d941d64444aa22bf44cb7cde54c,
          -0x61374506bf8e521dccdae89e38bc26ad95d16a952eb273b767cceb9dba7e33ce);
    var p101 := Point(0x36d699361058a6ac4dadfb0983e6ceef4edc2c9822cad24097894b1f82ebb702,
                   0x588efb342c4cc2c57d3aeba5889283573b93d1aa9a994bdd9ad78f831c4e56f8);
    Added(0x94028a0248004414210048101, p99, 0x20000000000000000000000000, G101, p101,
          0x73eadceb0de915d8d4de6083d71bb76351f713637cfd78b43241516617c4a365,
          0xb973aee7197579168e67c57a3f870ab9c3a74592fcebf24a5bea676d2661d45f8eaaa5e54e16f27763a75dcda0019ea52d0256512c15ea29d77b43619c6dfa07c9c79e3ae232cede653dad60f1f4abc547ded03ee3d2dfc0edbe819cac9bde08d0a9fd6a3e090f216424ac374ae0ad389ef5555463a70774f3a8cb7ffb4e76,
          -0x1296ca96b05a407644ee7889aa32e21f9cfbff2900cbae0d2c44b60542a1e4ba,
          -0x953748557b14a37c77beb78af3717e3dfa64d251978e46cf55306fc8ce1aa096);
  }

  const NONCE_POINT_DOWN4: Point := Point(0x60c78e784349eba338fea25e3ea10798b341e7d928662f01a15a7e0c02738608,
                            0x58661879a8eddc7feb67fc14d8baebe3043d0e8ea535b3faffd846f79cb297ae)

  lemma NoncePointDownSum4()
    requires Fermat()
    ensures IsMultiple(0x1411001294028a0248004414210048101, NONCE_POINT_DOWN4)
  {
    hide Fermat, IsMultiple;
    NoncePointDownSum3();
    Powers108();
    Powers120();
    Powers126();
    Powers132();
    var p104 := Point(0x1b31417bad3554930d541024baf0f3ec216f7453260e6d3db19e6e4907c71edc,
                   0x6a72706554fda67e359bd340fbb16d8716fe1b6ad122fb46d8c7863cf787e87b);
    Added(0x294028a0248004414210048101, NONCE_POINT_DOWN3, 0x100000000000000000000000000, G104, p104,
          0x76e7070937c026d33e73528a81b9614f1a4a9d0e98611b7e648261167ad33e93,
          0xefccd17927d93ca268aec8a4bdf4f8644902ca782981d815cdbd026a457147487a62641a5a76532bf29cb48e546efad1fd589ba7eb59436935e66f7617f87a06f2e445687d8ac6efbf408d5d82fdf9cb3276336a230dcf2c1cc31246f998870810e4e93c86b74dd3b267d74b598a72bfb6fc0ed9ecd239efa48b49c8df1a1,
          0x27c749e7efa036901d07b7fb0887d26c402edd5110ea7f16f3cc80b6a62671c,
          -0x7656d430f955978c08fb686dca0d83bbae723fd548f0844fb75c4a5d4d9ff524);
    var p116 := Point(0x6f57e5b523170fc3eea1639b56403be66d6ad2be81a92cbd1288ea499cbfa1fe,
                   0x6bac8ed6919e1c51f484a0c00e96cdd9c407811c29baca3e25ef5d491337af9);
    Added(0x1294028a0248004414210048101, p104, 0x100000000000000000000000000000, G116, p116,
          0x543e453ee6da169b4c67fa20055caae3c68e96181cec0022de6775f5b972ae98,
          0x870d86f34efba547339ad57d6f53794fd4cb944ea4e2298916a253cd020d98492d868a9967157553bf0b265eab572d2d6332b4d47cb3c9dc8c95371547418265a1b6299a725dad975ee877e792690eecafdc2626747b01c1837abd590a6e70c53b5e6f57d8ba65556259c9609f544687d801401a7ab14b7e496ac965ef1a60,
          -0x19cfa0061b167c0d7e7aa8db765edfdd14ac6f3e2ac47f9d56e9c347c2d8fd9f,
          -0x4023a171b0c51cfc2bf8e29916f0af55a910638b8163d93105ac73d27d8e1bf9);
    var p120 := Point(0x125e0d4b0b794fdef570950cc1811c64b6c91f8c7c1cf1ede8bfc82af4ef1f97,
                   0x2d0b0a1d401c778e672fbe3d571f51992130c20d54c1cb9dc00990d8ac90ed34);
    Added(0x1001294028a0248004414210048101, p116, 0x1000000000000000000000000000000, G120, p120,
          0x711a8f07bb5da13139509b5a48d84f5da375c5e8b7ebf4a8f2645faf1cc8e3ff,
          0x1c035374e1b636c790b40611dc3546813e5b718b62291bc3ab5f40616437fa5e50aae4201b5154e0076a20f48e72a95e2996d349fed1bfba5c8bd0ff70149b0cbdfa2d1272c91e770c4b840c91028a407fbc0ee26f9b1916b0f07131e3367acd746ea61bed955ec2f1248b7872b7b152e71b388b7d9ce52232997bba15b28d,
          -0x1eb190b1fad7d43c1aed63f85764056cb721c8cf3e53437053fb4c1a184cd5e2,
          -0x6dedf0ebb3293e4b39bd58800723a712f94ac7e409b8061c3ebb761c10d7a221);
    var p126 := Point(0x101ba31d9defd2a985577553b59301aa267a38dd9d5e01b98492ceaec806d122,
                   0x4ec0ecd776183eeefc43ac3ccdbc02c918fedd9576799bc907cd7680919ad8de);
    Added(0x11001294028a0248004414210048101, p120, 0x40000000000000000000000000000000, G126, p126,
          0x667dcf78a040a497bcba8093fe87daca1baf9c91302b154cef70077c2d978fae,
          0x19b02955f039442efea85d37d454a26961ebee174f91c74605a91f563906be55399ee165827557add91e70063a871bc4c0cc2d8850d13e12c391119444fc53987bbc321808ddc8d5748cea3a85e685eef58e71f345c5d1f4e9f1e4d45cfbb0c77ba75d1169d29851533814bb579792415a96c79169954d4af9bfdd1bba6dda,
          -0xcb3e0111ed42b8957944a3cbbb97c0fefb3f524d5ac3f9bebc0e9905d8a0f72,
          -0x677b8f78cbf7856dd98ee328ce996adcfb5bc11fb2fe58c3f8e6e5baa705a12a);
    var p128 := Point(0x60c78e784349eba338fea25e3ea10798b341e7d928662f01a15a7e0c02738608,
                   0x58661879a8eddc7feb67fc14d8baebe3043d0e8ea535b3faffd846f79cb297ae);
    Added(0x411001294028a0248004414210048101, p126, 0x100000000000000000000000000000000, G128, p128,
          0x79d1cc28a78749440f16dea2dab0c0163dec378aea2c0e463b60e20d77671c8b,
          0x59e47e675aca0abcffd96a1ee9430d9c361a9aed8deda6cf7cecd99a83d6d2948853ba7559e8b8b5e06e78b18689ac8040b173b382b0ca07249c890ca516bc2c704f14f103eb563f9e4cfa38cc8b53a560b5063d45aa817ee4b8b76568bd1d624742c73793c89c3198b35b1605781a50e25f5031347f1ad6fa268f60dadbd9,
          0x21462d4220a805e0ed10beac86f3362f35bbd2ddf66b147d7ed1aa5a9c35357a,
          -0x98456f0a97976e0e7b0e79ee03b632084fa15e2094399eb6c055182c74ec3b16);
  }

  const NONCE_POINT_DOWN5: Point := Point(0x74ad33f5c5e30ae505dbd63e6814dcc2af90948f1c19660066bb6b080f13cc3b,
                            0x63fe00c71e4f3fc5d5ec0142a69693750b1e52e3fd5d7fd17f35338d98a183e)

  lemma NoncePointDownSum5()
    requires Fermat()
    ensures IsMultiple(0x48104401411001294028a0248004414210048101, NONCE_POINT_DOWN5)
  {
    hide Fermat, IsMultiple;
    NoncePointDownSum4();
    Powers138();
    Powers144();
    Powers150();
    Powers156();
    Powers162();
    var p138 := Point(0x7a0e0d03e5a6c1165580e4d07998a326db549ed17b302c6af95dba362e960b1,
                   0x71b4cd5baa350d1634480a07cb39dcf7a9df354f76715413435f42e6938654b0);
    Added(0x1411001294028a0248004414210048101, NONCE_POINT_DOWN4, 0x40000000000000000000000000000000000, G138, p138,
          0x7723d5dc38a3ed7fe5b14bf90eb60534ab0bae07df0988d7a8c7db25dc079641,
          0xeb7295a9f7cb473e3ab7b81003ee6e56defddfe8cdeef2d21898cd344c0168c91153565336705e5985fdb4beef961f05c28f9100a0ca6ac6d9658923c9d5e6be6ac8ecb125100c0e83b0f163e476f8d3b681b8b9182e28a240dc0b4f3ee5d76a1f899efcac01e95aec11d616a933db73be84082fd5813bf96f34cea432a2cb,
          -0x522d8691f05dbc11cafb2e74843b1c64b433f9b0a7373c33cf10664f249e3920,
          -0xbf552d15fd9c6c81c34eae5a3202e6127d25bcdd32fd18a78c3e0c2d1316ef56);
    var p142 := Point(0x7dd81aacf666fa8c3861b5bef9a593e0103c8da2d8e0c6426740670b0be1e371,
                   0x10daf78c5cd41789fae804b7d362af0f8c095546bac0e7b50114a14b3070a5fb);
    Added(0x401411001294028a0248004414210048101, p138, 0x400000000000000000000000000000000000, G142, p142,
          0xae7006dfae677ac8676d387725e42f1e34a699069509e8dd57f736f2d25ffaa,
          0x309fe679c9f817ac45008e8e5d1d4e71a32fca46252883c76bbb39d56fedb017653f994296deb14aa318d740171dc5f2d68fa1c3cf06a8faf8fc497195feec1bc133f65832e60d399c521ea27e1b17d1fc638a55b5afc195e8a92748a4c6703b51deeb894badce9a3b698080c66c4cdce1ac756f3bedbf2eef2be887d6ee,
          0x84c306f07e44952ff57076953399cea19cf8074040b0c28b210b74bd9274137,
          -0xbb6b4506cd1769f9afaa3d2d414a1476e4950a670e9b97bb4658a8cfbc830ab);
    var p148 := Point(0x150efb91268e0ab90f47bc306817507a3b1c908a50cde165a764770293353f36,
                   0x6f25345a2842280050132150e4b27d42a20c03397a1b33caa1c7567003e847d7);
    Added(0x4401411001294028a0248004414210048101, p142, 0x10000000000000000000000000000000000000, G148, p148,
          0x14a4f2e8f5d92d7e5df7de5c0765b0f7e3c87fe7cd31017dfd683bb9ecfa2c05,
          0x74a1f64981192a9998ebd5b7a5278f6b982472c4f10a2835514805bac84aada45ca57b37450ed7167677dce7d057d741a4ceadcdf431da3edc4505f3edbced6c2e8c9675e01a7df6665b322c1d1964cc1d931a7467fd62a287f00d02913ece02c975d086f9ca57158aaaa50c98a71698a18ecc32e5bbdc90ecd8ec8a1fde1,
          -0x1502baeac651efcfb37f46a7bea11d07fa0ff5cf710632fa6efaba21fd3726b3,
          -0x241be7a1f334b2ab25a98935bd566edcb31097a839e48c1c8d309544fa283dd1);
    var p155 := Point(0x4676083f9ee51f3163765ee6ae42af7154ba9587768ef4ba3648f0d6cd145f28,
                   0x5e8bc6dc5a02c4756a83e49b0d471318323184134eadc6687c7be2dcd75a148d);
    Added(0x104401411001294028a0248004414210048101, p148, 0x800000000000000000000000000000000000000, G155, p155,
          0x5fc4937e6ed9976231d1cdf2845e8a97eb7e1a28430ef367f87c3d2bc81973a7,
          0xa9db8fa3e34402dad6a119c430c7886032e08df3718c5839d62cd2107f78068c62b8d91f5b2f8b1a9d8c50209c50af3eeab6c4e7c1cdb5de312676fffc6e95e0af8ba137fe4b4d1066e7c08bd0d74e6b27322856ff022ec9863964eb886ff8438a9f2dc2a7f35a778bb14766cb23e6d0e22328c63e5665b7e82a3a0ca5ceef,
          -0x1432e4869c0e11a5b8c9535ffebcb8ca95daf34113b49d7c92938c7a0adec891,
          -0xbaa47a21b60d3b0d67bbcdb5f475cf8599f912b3515126d1703fcaa3f1bc2361);
    var p158 := Point(0x74ad33f5c5e30ae505dbd63e6814dcc2af90948f1c19660066bb6b080f13cc3b,
                   0x63fe00c71e4f3fc5d5ec0142a69693750b1e52e3fd5d7fd17f35338d98a183e);
    Added(0x8104401411001294028a0248004414210048101, p155, 0x4000000000000000000000000000000000000000, G158, p158,
          0x7cf07696ab44c0f7d118387bcc7123348bc87e65d9e19f24cb85cf2a6fd1b316,
          0x7b10af39f769012716d6bad3dbc81f88f8a6cad760b238b296a5212882f13f1975e1757668f7910d1fb81662602b335324627c4e0b3ac9de7f72bf7a6444467092fa0abd78575591fdd061c6e47b2c83141159c6b0266b955d86584c8de6a35791d2cedd6fd90331d671b54e6dea8a921c9b0f3bd8c1349a01393a1653fd32,
          0x3a6dbf1815ab5a8f1d9e6f5cc5b8a14cdd7daf36efa198cba23986c5bf2aad7e,
          -0x4070af5972a85fca422704f3d9fae952d2829d2977c4eaa84a9174ea09c738b2);
  }

  const NONCE_POINT_DOWN6: Point := Point(0xca6f07e3cb3cf34518aae6189d3baed813e4413f49453540cc70d2d1fa8a322,
                            0x212949521f360bd3cae6cde732431fe973ee144512d0a7e8ccaebb3c7dc6427b)

  lemma NoncePointDownSum6()
    requires Fermat()
    ensures IsMultiple(0x401020400010048104401411001294028a0248004414210048101, NONCE_POINT_DOWN6)
  {
    hide Fermat, IsMultiple;
    NoncePointDownSum5();
    Powers168();
    Powers186();
    Powers198();
    Powers204();
    Powers210();
    var p168 := Point(0x274c3dd53f77ab8b7ec4fb50a18fedb3443897ebe60a7dd8006e74ddcef73d77,
                   0x427a74d4829032f1100f1dcb73301044edb0c8b9e62d04a5ce464f244883d8d1);
    Added(0x48104401411001294028a0248004414210048101, NONCE_POINT_DOWN5, 0x1000000000000000000000000000000000000000000, G168, p168,
          0x2cc05bb59802c524b06df96a605952ac525a06de7a68df9e890c99cabc14c03f,
          0xe5fe73c3e73c406dd9cdef9b799f15ef5dd704cbe47828749f351ab9a9c820a78922e2a9edeabd50f9c4790d7e94cdb824da62237ea6b3292899951b644029a6b5fc8572b44cce75d52fd4f8d179710199629c19d6b55f4c9366ee123d901a96b412fdedb45f8c304bb6afde7a0a52ed55269b12d8eff8f599df7d4772cfd,
          -0x6ef5d4515eaa69d31ec0322a84087f9f2ff6b93bdaf0994a91e90da880a6052,
          -0x8bc403b2546de3706763657b5f7e2a4daa01eea6d78a3c653a98848953ae2918);
    var p186 := Point(0x8ee9a269a1808300bac7b941cb7b385d34dc758cdc1318767b2f8d70764ca0a,
                   0x328b73c0d85d827e47121266aa0bcdad061026eb500986b92065d3df0fbbc0a1);
    Added(0x10048104401411001294028a0248004414210048101, p168, 0x40000000000000000000000000000000000000000000000, G186, p186,
          0x74d6c7b288caa5349877c092f75f96c5198feaba88d44b159899d16797e4bd16,
          0x22f89e8cb5fcde9a64809723492e232f7a9f2356ac470190c5777d10d4758b1c4f47964b88374b039df9188c8d1fdffdb373b97e9069656a89fb8ffaa3c045db662f2256312f7f5d37eb18319ec30503fd75ad5e3d1684b139a2adfe6c6921fdd0ef0a2d32657e0a3dc1dce256b3ddcf480e572f79d0aafd3afa835d2465bd,
          -0x173a84502328e4b29c89805b65586a67de92f3747623365adc7b5c0cab0bbb64,
          -0x57c48b117dded7686b19f6d849623516f70f5db2d350b01ac325390dc9b33067);
    var p193 := Point(0x3d53300d3114c863e880321fbb96bc6474738b50b4e2c5669165768f908022a1,
                   0x1c12163e898be88b1c721c5f3ee669f6f81dd9fa1e0f56f3e4c39b7855ae248d);
    Added(0x400010048104401411001294028a0248004414210048101, p186, 0x2000000000000000000000000000000000000000000000000, G193, p193,
          0x4ebeefeac49dcb579836b53655fccf1609f4c13e8e26c47e1db730a51874805,
          0x1d1916a4454e3234d5c4e4466fb1854775bd3476ed9e53cb706dc76c6daacaceba12003bc0c42a930f5f51c2edf626ad3a7f4eddfeec491327733ef8d570394310b5b527ccb1eb932d7dbf7134ec299fa04b993e5e8ef40fc1d73658da6adcc92af3ce8e74308e29be777b6db9c305b67a27f5272a783100a878f98a9d49f,
          -0x491e3d0069e219899ac35bac6f15b85dea8c5d87ad8eee3a21864b2702fce00,
          -0x19b25e9a774a1f1606ec109703fd7ae9bffa29fe2a463ef70609d5706ccac4e5);
    var p200 := Point(0x182d7f9c92bc94542f12d40d2b75bed7e2cbd5b4b4246569e333ee7ed903f307,
                   0x1c444820f1693e15a09d7d239b5067b14c82d3d5243b3b36cf2e4e20f599b421);
    Added(0x20400010048104401411001294028a0248004414210048101, p193, 0x100000000000000000000000000000000000000000000000000, G200, p200,
          0xd1c56d3c9ed62ea3d9521c27ffa929d864c971dd2de1bf19e0410e5972c5775,
          0x7ff7720844b8038b4304d718b7f45a8cccc10be76daa7da1be393ab619a51b414f944be558925f8f40023617343636514bf95d22179670579a16bba29deb2d949b1ce212e8884c567f6f44dadc2bbf1fbeab7c3ea1fb3d1be9daccc9f6adc26bd9025f709bf3f41ddaf841b3006e49027c4f347a708176927a15a7b1faf722,
          -0x38c6c2277a508581b5a3d3185dcf3e2f430ce51d1d122afd732f358d533885c0,
          -0x41d8929334cbaaa8f4793adde630b1098e4f8f5b03960a1571d7220fd98199e6);
    var p210 := Point(0xca6f07e3cb3cf34518aae6189d3baed813e4413f49453540cc70d2d1fa8a322,
                   0x212949521f360bd3cae6cde732431fe973ee144512d0a7e8ccaebb3c7dc6427b);
    Added(0x1020400010048104401411001294028a0248004414210048101, p200, 0x40000000000000000000000000000000000000000000000000000, G210, p210,
          0x107567b3c9732853e86e24cbaf947841ae88b3a91c17c928a9964cdcd6bbddf8,
          0x2ee7b0b5cfe959cce297ae5581558aca70f04ec38e5f3e4a89e9675359f4992c9cfce30ecd25320cb2896da8af67349cd9a82e2a8f3cb65a774725bc9a0f64ab674bbf40a4a08f2fc5e0580fb5cb84907fbcda74dcb5bb6b1d4ac08ca9dd88d41f934bfa064d9fce78ffe52319bd6c359d2058c18e2307d3a5e46aa374abec,
          -0x21b74b765c674d7795cab21889473916fec3ca1d3ea1579f55d2a24895a8b63f,
          -0x296c5748e3985d315b1fc8f7364be6edd73bb27175446f2ccfb6e8c580bf7d00);
  }

  const NONCE_POINT_DOWN7: Point := Point(0x57a406ece92091194d5991e89539d229510e7fe14b3f2fe738579dcbdf53383d,
                            0x2bbd128a813e5e5ccc2144ad1d68b02d3ee0b99a6f46d8097ccf4fcaf3895f0e)

  lemma NoncePointDownSum7()
    requires Fermat()
    ensures IsMultiple(0x411028401020400010048104401411001294028a0248004414210048101, NONCE_POINT_DOWN7)
  {
    hide Fermat, IsMultiple;
    NoncePointDownSum6();
    Powers216();
    Powers222();
    Powers228();
    Powers234();
    var p215 := Point(0x421e477cb67ad292fdbf3b4ce7a785edbed1e0490ddbf9bab4cbd31657dbacd1,
                   0x7a114f9008d6557009253dc4576c05553349ceaf237aaa47329047b238807546);
    Added(0x401020400010048104401411001294028a0248004414210048101, NONCE_POINT_DOWN6, 0x800000000000000000000000000000000000000000000000000000, G215, p215,
          0x7fc3629e727550923c8c42f15a5c73cbfbceccbd4948fabf836709adca8b274,
          0x20b625ded9f993d27afdce1d35841c6d6052818b6473fc880f70df1068f24080822d3f67e05bb7d49a91ee2421f87abf0d3dfba49363e62118fda4e899bae7c386fef8ee7d88bcc331b60516df7bd3631bfa512a8aeadd6cc40b05e86969a30e214c6b62d2227556d931e743ee314e83021c76df37fa976639a59a92cf8fc,
          -0x479ee332c60ccd3aeae5168cf5556c6c0ed14e9bc1c275b9d36317106c79891,
          -0x19e38a68b14b00efc97dc8f9bcb27d79febb73254a92580bdbbe813cc9927041);
    var p217 := Point(0x6fd49db0de835e6ca9ee8a6a85203b83b65b66b5a28d69b7c2b0a73d6f387a77,
                   0x2031c4248206647f4828f2470c759b5f07b98fd589c9c54ebd6402604b613be7);
    Added(0x8401020400010048104401411001294028a0248004414210048101, p215, 0x2000000000000000000000000000000000000000000000000000000, G217, p217,
          0x3a98f2e753e9b8cddd4b7fc24685f93f1c60b590f1c3947d08b2c47ed75a450d,
          0x107dd43c8dbb9a5a301342c52bf65cdb219db9fad2aa087146aed0fbf7d43998940211c25fd89704972bc49cfa2058ffce25cbeea1ba21e58785dd1d57544937d0d72e8b9ea60e5273e256305d1df10e4c800f6d75b7373feecbb6b8f205f988ebf34b83f253eaf26b2368c70c36966067325d2e5331969a42b878c769dfcef,
          -0x23fd36022934c92236b6c30f2dc83cf17fc45c5d8df95878a9819cb5552d1408,
          -0x621472e3b12e2bcfe201e2624e4771ffe2ec10677f839fc6f0dc6074288bf483);
    var p224 := Point(0x5946d90388819d352045c1a3b6da8432839d042d076f439c91e457394c0c9fee,
                   0x21bd07b71b3fcf0c19990d2b4fa779ee354ce187ddaa52b89609169087ed9585);
    Added(0x28401020400010048104401411001294028a0248004414210048101, p217, 0x100000000000000000000000000000000000000000000000000000000, G224, p224,
          0x62a73d8d895f2a29e3cb910313d0f989f66adff6cda194e9c946862e3fc95a07,
          0x1b552e4c02a3d5e684f78da8e340ec14025f47839a1ef95cb1ffb8ff8b3b2e7f15be7d5fb399779c9d28dfce832f9895c0c1490bb9d4d1e7159e6c31eac196e24b9129436b29265a4d8f1d76538443f0eb12341d96b67bc373f0b4381a85c6d89f0163698e6b2911fe5a91ebb2e457ab786b749303140addd0d49877b9b38fa,
          -0x34f0ac8b83b673538f9ad4ec2449c099db408049d542b35e442b051d66897124,
          -0x9b7b252aee1a7e8d0a985b43fecf15bbae526a55227ed04e404c316b9b2906ca);
    var p228 := Point(0x70b52812874e553daed07a419abf2cbeca0c828ca65e571a6074eaead916899f,
                   0x2ca32695b69a35710c601b76f4f6baf135560ceba81373d3d941d1deab148b67);
    Added(0x1028401020400010048104401411001294028a0248004414210048101, p224, 0x1000000000000000000000000000000000000000000000000000000000, G228, p228,
          0x271dedc05bcaafc4d5030e74d73aaa428d96cde98b719af90dbba8755369d1be,
          0x2dbac4ae5a9aee70647d9dee8b83a6557c69b6da3f29756a39845f4976cb285978ec636f3980596141b79ef187663967a08d23a2e1d04b6aea71c73710037e5bcfbbc85f1ab035f0e202a02a790412f574836daa5247492ad3cede092c8d48f3bce338a03a5e2c7cabf499f1d5fa8037010aba50aa53d46a7864042e061fb2,
          -0x1cbb208b9710fd08562f29785fec424d82003e408220eb50ce7ec3b9dbd8311,
          -0x534809ab72d2a68542bba23dd857c1258cce97637afcf032a1b1dab6deb120ad);
    var p234 := Point(0x57a406ece92091194d5991e89539d229510e7fe14b3f2fe738579dcbdf53383d,
                   0x2bbd128a813e5e5ccc2144ad1d68b02d3ee0b99a6f46d8097ccf4fcaf3895f0e);
    Added(0x11028401020400010048104401411001294028a0248004414210048101, p228, 0x40000000000000000000000000000000000000000000000000000000000, G234, p234,
          0x583b2e4852bc20b93e742dda5cab2ac3148ab9bc981e9c9a81da0288e61fdba0,
          0x1400c65e2f4c41c1464f4a90aa8fefa5b5414a129398597664fa2b37c3bb44f8aed3e2c5742416b324869195e6fe3a51d3eda6119ecd11763a7dd1da71aeaecb607d8cbbe782dcc5d0434d9f990c5b75eb578e00bea2355c1de98f313c503efb77435cc8ccb0efaf0e3839856f28123bdf757c7bc972b410e91b6863897c373,
          -0x26d073b1f74cdb2c3363c34da010656b6b2fbab59e120cf4160e0e288d1ad9e5,
          -0x813d68c87591f16a6e30d88c889240200d6981854b5e3e5464f16647811bb3b0);
  }

  const NONCE_POINT_DOWN8: Point := Point(0x34fb5312522c83266dd1c835399a82c3f99931a2f424e3111d1b3494c4ea8547,
                            0x3205e242e2eecd07c61fb826d1396d2ea4349c31ecbb0882f3700fa311735cb3)

  lemma NoncePointDownSum8()
    requires Fermat()
    ensures IsMultiple(0x1200411028401020400010048104401411001294028a0248004414210048101, NONCE_POINT_DOWN8)
  {
    hide Fermat, IsMultiple;
    NoncePointDownSum7();
    Powers246();
    Powers252();
    var p245 := Point(0x2a17c97886e3e4b321db7e3c38e0d4254caa3799018296f223f34e81eb622094,
                   0x47dec598c34f2212b3fc0e8af5f4173b0312f3d43155fa38a7091f792387e783);
    Added(0x411028401020400010048104401411001294028a0248004414210048101, NONCE_POINT_DOWN7, 0x20000000000000000000000000000000000000000000000000000000000000, G245, p245,
          0x298f11bc05bebaed513c07db4c816b2f5db9dfc51aee9a5d531390708aa964d2,
          0x3935ee27bf585c9aa90cb660c5f96b43e59e2624c21779e1c1c3d7a54a580c152baf240b30bed6d17f812d245206fd07178df5f3bc9d2e7ac1f2213d03bb6b9c3ef0ce8de55280fd0a948453803d731cc5883a37dc85590cd5150597b49f587c96b3c0d4821ddbfba042245cf9070ee36772961d85e2846122e30006ef16d6,
          -0x19fa60020df01af2b6d2b79d387d2c242d7aad130a4e86ee6febd4ac90fd361c,
          -0x51f1e432049a521dc390b5b4bbb8fe879dbdb728e0a4bfdbfdd7b3cf70bc0b21);
    var p248 := Point(0x34fb5312522c83266dd1c835399a82c3f99931a2f424e3111d1b3494c4ea8547,
                   0x3205e242e2eecd07c61fb826d1396d2ea4349c31ecbb0882f3700fa311735cb3);
    Added(0x200411028401020400010048104401411001294028a0248004414210048101, p245, 0x100000000000000000000000000000000000000000000000000000000000000, G248, p248,
          0x429d8900263ece67736e2b7beada65909811f444e3e0e5a55c1f2b5b155c8dc9,
          0x10ed4ad519be5938a6119f7aa51941b70027726abc53a134b27b57919427cafd691535747b8f1bff30b85638f4c9f08fe91ec49fc37b5c36287668c12726e55a24158cb5363d89dcc3576c88d1c0737ee2e5b66e2a1fb4459e819bc32e53f2f25768efa16828a70d0b3a05ae9dbea0a8834be37059fdd7791337759ac0a1ebb,
          -0x3816ccb9fc1e370b674ae18323f1400a99eaba0dfa697dbc7870010903a0880b,
          -0x71558588d1a17737a14a5222a138e57d60f8e2c537ab62b742ef2684e71082d6);
  }

  const NONCE_POINT: Point := Point(0x3f348ad8e75b7612eabaecef94d73a99fdd28f85bb46ebf17c2ed453356b1687,
                            0x9b5266c18a2be69cb3ebfefa3091020009a8377f21b2ba5339636e759442adc)

  lemma NoncePointIs()
    requires Fermat()
    ensures IsMultiple(0x6e01cf34d9c130e8c453f51b92fbd46c2f086d6d3d76a5ba89ccebdf11b8753, NONCE_POINT)
  {
    hide Fermat, IsMultiple;
    NoncePointUpSum8();
    NoncePointDownSum8();
    Inverse(0x1200411028401020400010048104401411001294028a0248004414210048101, NONCE_POINT_DOWN8);
    var q := Point(0x4b04acedadd37cd9922e37cac6657d3c0666ce5d0bdb1ceee2e4cb6b3b157aa6,
                   0x3205e242e2eecd07c61fb826d1396d2ea4349c31ecbb0882f3700fa311735cb3);
    assert q == Point(P - NONCE_POINT_DOWN8.x, NONCE_POINT_DOWN8.y);
    Added(0x80021045020141090454052014001480400880014000a8028a1100001200854, NONCE_POINT_UP8, -0x1200411028401020400010048104401411001294028a0248004414210048101, q, NONCE_POINT,
          0xe0eaf53fddb6ba3d8f76a73375e9ae6921e2fb1a9394919222d410ae32eaf33,
          0x96d92de44a307fc501de8db782b432a6efee01105c147ec620bfd747143dcd53df0256d93f25b530fabd0aee5fa29a6552ee2a426fc0b36bdfccf1a3da7699f87f80254ba556573d75443fdbb708cfb940b9231a0bd2a58bb5eca95e974547479d285652b3925b77723f4e07fbb1af872048b9ad99b67e559f10c22e6035f9,
          -0x449f806a372031448caa362faf2c613fdd222eff34718865dadfd8a76ec7faaa,
          -0x409078c326cbca8847a6275867ed232e85ab566ef168381a290979fe8dc8a6a9);
  }
}
