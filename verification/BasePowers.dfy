/**
 Multiples of the base point, worked out: its multiples by powers of two, each the double of the one
 before, and the steps that add them up. A step is checked by the addition law, cleared of its
 denominators; the numbers that stand behind it are the multiples of p that are left over.
 */
module BasePowers {
  import opened ModP
  import opened PrimeField
  import opened Edwards
  import opened ScalarMult
  import opened BasePoint

  /** [n]B == p */
  ghost predicate IsMultiple(n: int, p: Point) {
    Mult(n, BASE) == p
  }

  lemma MultipleOnCurve(n: int, p: Point)
    requires Fermat() && IsMultiple(n, p)
    ensures OnCurve(BASE) && OnCurve(p)
  {
    BaseOnCurve();
    hide Fermat, OnCurve, Mult;
    MultIn(n, BASE);
  }

  lemma BaseIs()
    requires Fermat()
    ensures IsMultiple(1, BASE)
  {
    BaseOnCurve();
    MultIn(1, BASE);
  }

  /** r is 2p, since on the curve 1 + k == y^2 - x^2. */
  lemma Doubled(n: int, p: Point, r: Point, s: int, t: int)
    requires Fermat() && IsMultiple(n, p) && 0 <= r.x < P && 0 <= r.y < P
    requires r.x * (p.y * p.y - p.x * p.x) - 2 * (p.x * p.y) == s * P
    requires r.y * (2 - (p.y * p.y - p.x * p.x)) - (p.y * p.y + p.x * p.x) == t * P
    ensures IsMultiple(2 * n, r)
  {
    var x, y := p.x, p.y;
    MultipleOnCurve(n, p);
    CurveEquation(p);
    KIs(p, p);
    hide OnCurve, K, Plus, Fermat, Mult;
    var k, e := K(p, p), y * y - x * x;
    CongSym(e, 1 + k);
    CongScale(r.x, 1 + k, e);
    CongBy(r.x * e, 2 * (x * y), s);
    CongTrans(r.x * (1 + k), r.x * e, 2 * (x * y));
    CongRefl(2);
    CongAdd(2, 2, 1 + k, e);
    CongScale(r.y, 1 - k, 2 - e);
    CongBy(r.y * (2 - e), y * y + x * x, t);
    CongTrans(r.y * (1 - k), r.y * (2 - e), y * y + x * x);
    ReducedIs(r.x);
    ReducedIs(r.y);
    PlusUnique(p, p, r);
    Closed(p, p);
    MultAdd(n, n, BASE);
  }

  /** r is p + q, where k is d x1 y1 x2 y2 modulo p. */
  lemma Added(m: int, p: Point, n: int, q: Point, r: Point, k: int, c: int, s: int, t: int)
    requires Fermat() && IsMultiple(m, p) && IsMultiple(n, q) && 0 <= r.x < P && 0 <= r.y < P
    requires D * ((p.x * p.y) * (q.x * q.y)) - k == c * P
    requires r.x * (1 + k) - (p.x * q.y + q.x * p.y) == s * P
    requires r.y * (1 - k) - (p.y * q.y + p.x * q.x) == t * P
    ensures IsMultiple(m + n, r)
  {
    MultipleOnCurve(m, p);
    MultipleOnCurve(n, q);
    KIs(p, q);
    hide OnCurve, K, Plus, Fermat, Mult;
    var e := K(p, q);
    CongBy(e, k, c);
    CongRefl(1);
    CongAdd(1, 1, e, k);
    CongScale(r.x, 1 + e, 1 + k);
    CongScale(r.y, 1 - e, 1 - k);
    CongBy(r.x * (1 + k), p.x * q.y + q.x * p.y, s);
    CongBy(r.y * (1 - k), p.y * q.y + p.x * q.x, t);
    CongTrans(r.x * (1 + e), r.x * (1 + k), p.x * q.y + q.x * p.y);
    CongTrans(r.y * (1 - e), r.y * (1 - k), p.y * q.y + p.x * q.x);
    ReducedIs(r.x);
    ReducedIs(r.y);
    PlusUnique(p, q, r);
    Closed(p, q);
    MultAdd(m, n, BASE);
  }

  const G0: Point := Point(0x216936d3cd6e53fec0a4e231fdd6dc5c692cc7609525a7b2c9562d608f25d51a,
                           0x6666666666666666666666666666666666666666666666666666666666666658)
  const G1: Point := Point(0x36ab384c9f5a046c3d043b7d1833e7ac080d8e4515d7a45f83c5a14e2843ce0e,
                           0x2260cdf3092329c21da25ee8c9a21f5697390f51643851560e5f46ae6af8a3c9)
  const G2: Point := Point(0x203da8db56cff1468325d4b87a3520f91a739ec193ce1547493aa657c4c9f870,
                           0x47d0e827cb1595e1470eb88580d5716c4cf22832ea2f0ff0df38ab61ca32112f)
  const G3: Point := Point(0x6742e15f97d771b642862d5cf84ecf93eb3ac67b80698b993b87fdbc08a584c8,
                           0x21d30600c9e573796ead6f09668af38f81783cfc621ee4931e2f5ba9fc37b9b4)
  const G4: Point := Point(0x23a4860627e53aeeb8e22b1508249c9109578d33e7bf237459b2596d6c28f9f8,
                           0x709696f2827fc3729f980f2e3aad6e78b06a11ff8e079c27d87aab37c16727eb)
  const G5: Point := Point(0x39cf6c6917421af98582561d0b39567de6033190f97852fc4fdd40f6977e4f26,
                           0x4434a90ee12cce6b7ade93ecc0f88b78b41205e74c8c4038f92d394f3a06d269)
  const G6: Point := Point(0x5fa64200bf829139cf290f9871d79a8b8e846fd6ad9d678f1517a0fb03ca40b,
                           0x3d199eeaf926002872f486796fa8aa4c99f1125e6e0d196afbd695af17da0926)
  const G7: Point := Point(0x379dbeb1a97b5f082402eabf1ad28bb78a837aa426237a405da2495bf0cfdd87,
                           0x28eb9fe001ce99d063f7995348559bfc233261c134094521fda0e7ee084b86fc)
  const G8: Point := Point(0x5e7e07ed4e1decbfe6e9cbc126905449d4b578fbb561576d20b8bcdd0cc2a556,
                           0xf55755c51f102796bf5ebaa81d3260e7d1b3d9ac127d9a80e142031566cf6c7)
  const G9: Point := Point(0x2eecbf81b3d084733331f9eefa70d42621effd9b303961d25409333c82cd340a,
                           0x54d2dc2da137827c4132d9b740a119b6484d4d4849e6e074b89cf764008b93e8)
  const G10: Point := Point(0x6b113a52f9f3fd0590ac7cb6c8cbb37abcf147c44b2ae11d9151c7d55b4a2b68,
                           0x1aeb017159697e792eb8da1805519c06296595f4f57996c590954359f327c13d)
  const G11: Point := Point(0x3c1ae7527612d38bb541f511fcc6283d8482afe93115b345ecd2bcfbbd1317f7,
                           0x51c91c3f9d7e57eb786116c8545f90fa67f5e8b62c32ac4512015a20711364e)
  const G12: Point := Point(0x7d13c0248b891b47eb524f2692008e2f97b199bac426cb5902b9003a29ded6ea,
                           0x59a976ab2c01a81a91f1a56c75ccc77a9e1e9e878e9fe9c3952080a6805b20d5)
  const G13: Point := Point(0x17d5a9ff7f338d8ee53c26531f9a5d4ad2718234b5d46a1435aa161031b1c9de,
                           0x73022287d3b73f6c43c3f9071cf0a87aac83dabd44efad1de010d564a4f6af89)
  const G14: Point := Point(0x7a8bc68bf5f3ed3bed79c11bf2d6b20cb84442dfe4ae185b0c2dabc38e74b8a,
                           0x7249d7c47afd427018b32d20a2a81307bddc3e039574c80329aa786a22288901)
  const G15: Point := Point(0x5b4fd9f4a9a79b1f34a4c426c1a467d36560338b1a5457e83254935c2b32ff02,
                           0x40ebd1230468fbf85a49aa47278ec1375a3cf9c2ecc5bbdf685b265433b08d46)
  const G16: Point := Point(0x5de7faa2ee4e70132f541f79ca07cd54a39fe1347a6844d19e9d678a8411a565,
                           0x2c9f23641e1c2e0aab8ea9926b432d92c0e8bc08901d6ff6df85e4cef854ec36)
  const G17: Point := Point(0x74e337a01c13b537323663602811d1d532d8747e81489415271411b172d04f27,
                           0x8648f02b3a4daf96ecffabdbaf3599fb2ee85dae253b2c21ce66796114e25f1)
  const G18: Point := Point(0x6a6fbd51efa6a855e82cb0142325ba473fd7554aba208a400737475464f29434,
                           0x16f5f8529f55fc2b7cf811161d7870ade1d1617e52c3c4f579ea06b27616d671)
  const G19: Point := Point(0x243eb188de73a5549b32c39d2ef1b29623709a9ead4c0e240314e0c5f69a9634,
                           0x3779298951f452d801eb7a0b7eb224cca2dbef041081cfa582afb25b1f4ce2f6)
  const G20: Point := Point(0x6b349eebfed4dad4a805b63a6ed2231a565cda752d9477ff427dd9a8c9ab5ed,
                           0x7a09289ff3e1f9aab68aa374c48df65f550c2323607b97744dee990608b64f8)
  const G21: Point := Point(0x482a4cdf57d9eadaab1c92b8edd4d15f66a39c16b2ebaaf9ec314ac0199c4f7d,
                           0x7391de4381c2f7a80b3c5fc6145192983f115fa525e4fd6abd513b116e4eb04b)
  const G22: Point := Point(0x3bad86defe0d244dcc4b246c137dcc68bf6b733d1fff688f33431f2a339f8f3c,
                           0x2de3cdf2fa86ba8c2b899f9fc04b8d5384145c3f68ea9b6ee05373dc01815179)
  const G23: Point := Point(0x45afc85dc571ed1bd5e8115a9622d44627cf19fc4a8626e7b754b005cb75be54,
                           0x6c0c8abfa60bfc771e39a18f57b8142f7adbcf220b81ee2339809e4957777b40)
  const G24: Point := Point(0xaf367956af630266b1cc760154256ed79da960dddca9d72a1e8cf27d8d43a77,
                           0x21108d900134d3b3708dd28ace96b0b23dda9100e4b6a62a8131bd2f2ba408c5)
  const G25: Point := Point(0x2b760154fc5ceb5a64141345f55b1b57e5b0b1d6c5a07dea8ddf074fbae70d33,
                           0x7dc81af96fed42e0373411203fa2ced7629fb2eb6a2054e24afe3696afc20c02)
  const G26: Point := Point(0x67dbc33418bbcd3878489398639484b6d6fa42f875b8c5af23bc92c69c5bdb6b,
                           0x38436fdf8589a33059fc92e7ca7aa2250cc9ea48391b1e517c6fb056093af396)
  const G27: Point := Point(0x29ea44a50a4b47b8b3dffa01dc5f2271d5439ba8a82a6ec0c454e9bd19448479,
                           0x6c775ac8ab2eda8cbbdb4bd1196ab24630ac6c1f97389de19e9d5f63af509005)
  const G28: Point := Point(0x1e45a60140a3b2dee9b8dc6ff307154a1b410bcd38e0e38fb10b2f6da1afbe2b,
                           0xe730da473dffd60d2f3241a85e68acb47d26e5043ad047d893f072c8dda0a76)
  const G29: Point := Point(0x61708161cb4660ff22c3c1eaafb1414244579864b07e73fb9bcd90aabec9935d,
                           0x38d6936d12e8157c0621bd2d8fdf95a1f84987ee724e0c98f5c4cd21feb9820d)
  const G30: Point := Point(0x48f451397792915909604c632c838021641749a67fb8e91301427defd951f791,
                           0x315385d3bd5a22b69068de89e52a3126525be7da886d693e99ff2f088322d560)
  const G31: Point := Point(0x7956a04df862178ee4c705ffbd30f9dcbccdfc7abe362f2c1da24b3cf9dcced8,
                           0x5eeac17f2e772f551e761978b395b6ddea37a16aa33cff34a30a8453baf6e782)
  const G32: Point := Point(0x4d1e116d136158c5ddabd4276832800f2c081c1072de6f2d931797a46abc0cbb,
                           0x6d415be49d4e35b65cc51354b5008f8c43e84b7b5e8a4b84f44e1efb10c9b91a)
  const G33: Point := Point(0x4b5bae5a77a867ddbee3944524f8e2ec8c2a6172c14bd432cd42148248127d15,
                           0x739476e0b38471219875a4580e6742ecb6aecba57b8c0fa0d923b8de209a77cb)
  const G34: Point := Point(0x33bfa90cc1b9df13e106ffcf6ca898d06b22d51df337243bf85b3f232869fcdf,
                           0x53b120db6327cae59fa5fff109017d2df4acef01d2f10981439d824fb2da81d9)
  const G35: Point := Point(0x444929347c2ded029bc19558b0f69a4492017a9c35b370711e08222bc0b9efc6,
                           0x77785ec5cbbdabd645a3251e7da57c8ffc39158c0d7b25a4211c2aff2e1d6245)
  const G36: Point := Point(0x2b6b892ae94b454b2c2d92bb947fc4d506d173d281779c2c153c001ded42d3d0,
                           0x7f1cf64e0e180fc4d6e12c1b5c5285f376e979616a52c94a0dea4d48c5880cd2)
  const G37: Point := Point(0x1b9175b7fc19a618d5848c5761c2b760529e3eaaac087b51112b1fcb422e04b4,
                           0x1730a59fff4717e258cc853dece7c5f70ecb52cc35320a53cc3838c844ca68e8)
  const G38: Point := Point(0x1371cf67fe47f8ef91246ae0485874d601e31984d854224569ac29e56a6ee87,
                           0x71cad7d8350661ce798e332a98ee5b62f8431fd9ac5a4a48856ce9c4c5b64c73)
  const G39: Point := Point(0x63bd671eca1e6accd0f980845b163ca4e927d2a74d198e78cccd8fcaa6aed372,
                           0x460cc32f5d27a15f4294faa20a99112392cdbdc8515e9caa1ff4887d22a6e7b)
  const G40: Point := Point(0xf6c3a96e0032a9394337a02ffb2c83ba70efb8f566feab530fc90fa3b4710e5,
                           0x3d4e97e286378675038a4b58e84224ee515e1d6697ac79389f78479be167635a)
  const G41: Point := Point(0x3b13c71c2a90bd24c51df6bd138c5d16208a9ceaaa8eb34a69469fade6abb440,
                           0x14890a7ab24817b2bba826792e8fd342a6f705af800252616435be180d16dc54)
  const G42: Point := Point(0x184b48cb455000542259174da9a6eb83a928b2835182278abb6ec091e388a820,
                           0x3ee0e07a03dc33a9dd60c2682380ef736679a5e383faf453fe324dba26e77c33)
  const G43: Point := Point(0x5a04ae1195edf508262196e9d23c259c937f81769b2258542b78e3c0fb135c34,
                           0x676667092118acccece87e75f0a6825c5952f92dd499943efe831f9712c5e8b9)
  const G44: Point := Point(0x52ee53b981dfbc41ddaa5ddc2754c4175f4811aa45f8e2b19a425657c238a83e,
                           0x7eb0a1be3400dec87b388cad51613957643cdf0595b891cc6f925fb36da7f1c3)
  const G45: Point := Point(0x501fe138924e05cc1a05129d241e6b5e9d46cd8b0bed38eb42ee20678a1d2425,
                           0x2f8022ecede0189c215882ca856dae0f7b4daf6675181a558ebd11e6911cee4e)
  const G46: Point := Point(0x2d8294fd94996032b73b4f09a0ff645ce8db39db5463f0fc57156a1d390a3b68,
                           0x3a8a6faa67c6dd905a4fdeb95ac127c9fde3ac017c847ceadb2c55f1445af624)
  const G47: Point := Point(0x56857d02674276af0099d63b04a39544a23b841cb2ef18688ba9500361e4da1d,
                           0xb543a6720e318d2647915bcd619efcdedcf7fed0657be45d27db284290e72ce)
  const G48: Point := Point(0x52a837bc7a7bc9459bcc2ecf80f74d9ed99def0342e18cfbe8e799fbc504fd52,
                           0x50d6460185d8924e5485f23f36a98c86053514d163547adab6fe91478a411196)
  const G49: Point := Point(0x3f30ee695b236bc74620afb10469324b45c8201a45cbd6954239e64086f3cd53,
                           0x414231531dd52e5555640faeae608c4a0c205a04f56d187ba80855dbc0478370)
  const G50: Point := Point(0xebc38c54fd6aa12dcc60ca5c72ed865b7c35a6bfcf98778c235307d306de6e4,
                           0x4b3a1d9f2ef40fdb3e31ddd56a08526dbda15a4f58d78162c7bf23886763ce2)
  const G51: Point := Point(0x3b75696730dc8d8cfb7ddb23241cc7ce78a13e6a377db5da527a1058e60e49db,
                           0x34d031744cd2d9cfef9f9ea654000016fb3e8b4a8c44198760f46016166deaa9)
  const G52: Point := Point(0x6b2bd5d00fab38ceca21a27d6aaec82626b14b555d859527718f8ca404eba4,
                           0x727340c27a15f6ab3d80547f0827c56ab1ba33bc30d1ef3909ea9a3af10c67e5)
  const G53: Point := Point(0x1f4e8938dcf3a6d5907d88572bfb36a8191aa9d05bae8f68d3f120ea165b2bd8,
                           0x5a8b0c6f649f8e191aeeca653774a6ddfc8cf8ae3d4d232e2148433b9bda19cc)
  const G54: Point := Point(0x8fe8df51b345989553484e20f600c2e46f4ed256f3c8dcc1615b872f0c2b925,
                           0x2738e06810f4cec5d894c91432edeab5ba632e54d06f494b751bba44bc93abf8)
  const G55: Point := Point(0x1a2403cc5ef2ad62b4f09afac79a48a5ba8ef74f3321b65a716164d49b141c74,
                           0x7779fbcd8be50c9b021180ac97a544ad0c21cd1f3bd263ce5903b9afe4fd76f5)
  const G56: Point := Point(0x71dd75fe35761c01a48597ec730bc33237902fd4ad8612cbed1031eebdf40de4,
                           0x39674a4532078e34378667beae5cb55f814ead9bbaf7e01b3b69533e9f88a411)
  const G57: Point := Point(0x300d6b0bd6734e6170b814d2f28c82de4a2debb1c5589bc8b2671e0320587090,
                           0x40ca073d0343190c7f042b83c7bcabd3fa997de98f4bf0e2bdc4a7bf5c55fc81)
  const G58: Point := Point(0x42545a6a59885c28266ae07652d24503c2fb5830c85817f6963981168cbec8f9,
                           0x706406cdbd1ce0bdbd9ea269bab2e060b129d6da0f1e6983fb9b15672c2eb507)
  const G59: Point := Point(0x6c1262e3f8a43b517673a0ce209f76cb22d7cd7e54fce6ac235711e441703a02,
                           0x193841cf1e0f528b9a8d508a276202a84f1fb096c5ed013a7f486f0d269c007f)
  const G60: Point := Point(0x57426aefc21be9ccf162e23d25ac3002ba8534351e65613f870f690f2fd46cf5,
                           0x6b45b002fb4e8a6f59a6ffb006ed71f75434217333b266325204c7d1ac2e1f34)
  const G61: Point := Point(0x205aa3463e7e41af60f5cff4853fbd6f748aa1b132fe5308807d22c5030b48f5,
                           0x320b08e8ec6153e2be9955058bd26993bf50353e040c556ef8976663448735aa)
  const G62: Point := Point(0x592c8b8843ca1f7d9ee692d5e29bc1612b0a98bea402c5c2e1e8253b65feea37,
                           0x42a352d8dc52fef9017cbe617cdbee3aaefed1935aa62f8679af6f2a1d00b5e0)
  const G63: Point := Point(0x41c030fbca90151ce0d0064a815e03825ed77a4ac634604ac7137bd3713af22,
                           0x72467625ee43fb7ac67dc71c655e5c16e4e97c2a3d4445e7e9b33fcf0780f989)
  const G64: Point := Point(0x6222bd88bf2df9d5d44b60cfb4a08a960078db7ed51a35eb3e0b6b8ff4eda202,
                           0x325bb42ea4ed025dd6bdaed261b7c4f5410b608ba902b068f1efa5782e45313)
  const G65: Point := Point(0x23bc7abc84cb4c4ae5fa62b25a0a8114e8406d9bb93f2091142aa2d8bdba597,
                           0x4d2b97a739eceb14c95020371d7206e904f94b8f2c620dceed8511df0f29c9ee)
  const G66: Point := Point(0x6d5066cf7137b4a5980aa453b672c84797fc6856f0ef5cf0c4be33fbbd39d169,
                           0x54bb8cd82a0a87c883abe35abeb81857f95200b4222ea95b5cb347115219a417)
  const G67: Point := Point(0x6b66159ac8702d4e34073b76629deab2d3aa50942db5b00e4a73e8be859362a9,
                           0x19dd4bef38efd504e49b3a5d584432b9ce630883226031e75fee1a22c8ca96c5)
  const G68: Point := Point(0x71ac99647b61b9eca6f0c23432a518f738aee708d5932d4ef0f172240250a226,
                           0x3a96c2c028ebe5f48913be30147e41bc5e1cab9595d5404138a9aa1b5574cf25)
  const G69: Point := Point(0x221b138a1bbb6548d2ef719bbaee436114e7cb6b3225dfb94c327667ec45772b,
                           0x7951b295fab7fbffa46c08f6979bb32060974fb037bf5998d0ba5a38180cad84)
  const G70: Point := Point(0x1c1b0d95db6a057eb34f28beeda9f6bbb5315285de2804d15c3b186bdb3f5c28,
                           0x57bd5de4e0056cbb4d98abef9d1e0ed6cab1628ac08e36073e31d00a9ac3c5d5)
  const G71: Point := Point(0x4f846fad2eefb8c948a8bd3a87d8b4dfa0a0ab643e724ebb1c91437c567c9f47,
                           0xa2640ccde505da1aa9227bacaca13d49a67a199f0e16aa9f86c2a7e1bf02d2d)
  const G72: Point := Point(0x1f6a1fd8cc0e05b2742ba0fc0369b5247670543637dd033e64dbce90b2f23e9f,
                           0x779964401ee869a9b31c0ef874a86440ba85d25c2ce932bd31a0865869605e19)
  const G73: Point := Point(0x6f0a87af6e0f4a05fa7067cfecd4f98dada3791f714a66648dbb5cbbfd4f326c,
                           0x6b6013813505927dcbcb6a42e887cc1d5fca175e4cd226be6009248c6c6e36c6)
  const G74: Point := Point(0x1f90c7ef4610dd083b3d64bac47574d9da326b536b9a6eb0f6c3134a847a0564,
                           0x63344ccbe4169ab97a13c3ccb097c0f4fdffbcf6284412303c79a1c8ce3a2f7b)
  const G75: Point := Point(0x47ac42e7c59481a928348d7aaaade88b00b7aae4e73ebe0dd20e33092dd34e07,
                           0x28a6c1d1356c10ebea15cbfd161ae974f3b2a4f51ed06403c2f09bb58f7a8924)
  const G76: Point := Point(0x22e2c039067920c42980dcb3a905fc91601c2b34e819ce1532ada4a5fc39d5cc,
                           0x631cf9945a09bf26d7e595b3f8e3390696870512820df63c5418577089e1a8bb)
  const G77: Point := Point(0x1a62e85ba4a14a3f24f9dca8529ca842f5c7f18a3f429886d6b13673649ad53d,
                           0x1f6d17d9a1e5c5d8cbb98100757e5183551d00091183e6a5e1eb0dd514c8bdc5)
  const G78: Point := Point(0x36b566a2c0f8e36e760992eb83d509238731939dd9dd0d19513f52e1e9e4f9ea,
                           0x1bde4ad0433ee4e19e734c558978dd945ed244e38414387a43e70232ed39bb3a)
  const G79: Point := Point(0xfc8f365bb4b04e275d358bd3c277745c565eedff84179ee72cbc5a3e38fe7b2,
                           0x16f91c8191db1e7817455b6a395de2b0f4396697920ba0cd4874e2b534937b24)
  const G80: Point := Point(0x608de273a9f6a534219d7aaede3cf65a81e4dc03d7a2765eced1d2b7be4610f4,
                           0x3b31d0113f98d81ab1312fb2837aa9c8dcc7960f84eb371358c6d841f67144fa)
  const G81: Point := Point(0x8d1e75a33bf363f2ef64faa0ab5f9582d1181b793ec9452ea93a3011634d581,
                           0x47dd939350f06a41ea9c3d889d127155d0275926d05b5bc43977b5ccae42cf1a)
  const G82: Point := Point(0xb2fcb60a19e6a0a29bcc1e5224ee0acfd648e6ee2143f90a5f5aa1c6d51c96f,
                           0x6301b568e9c613866d76b4c693de25e83435344795fb78c3c5e944a1f33239dc)
  const G83: Point := Point(0xb216ceec26c5cc827ebff75a3b41630d8925bcf8ae53c7dea348f4c0dd3ae27,
                           0x563053b0dec5518f24c57a3f9138916ec287602e8a557819ad77aa2a5312bac3)
  const G84: Point := Point(0x3f748617ca63ab3e44c6e34f63e7328ea56a2a146da34368a57dca181254fe02,
                           0xfed89e6420fc47b3938a2891ba9acee4cbb2899ee4e9ca15a13dc527dc1641e)
  const G85: Point := Point(0x8f050e6e4bbb5e43b756c82a0ffd60723f78c3fdfb49c50378a1083808c3cf3,
                           0x38900048f0768542b4b9354736b6880632a94601a17a15adf4f233924875ee62)
  const G86: Point := Point(0x2583374456f20c85e78e820263e1507524897a5232050bd0ebfc357d04b900bd,
                           0x62d1c4fffd5ac72c7e7dd52c2bc9ea4077ebb7032a39291e0212da60cbcea18f)
  const G87: Point := Point(0x5b4079d8c7a5a10bb68984233b2726bd95196ae2b50e6052441fc4e5b98881d,
                           0x2329432253e9aa57901c1369e57e54e4a363d2cfe69069108c833fa8d79f612f)
  const G88: Point := Point(0x69d98b5ecc35d56c97c0bf312955d199befe116b417d70f5f57e2dfd0af81ce5,
                           0x3e26d487fbfe36ab44e0ca3b248fe94bce92a69b8154d50e2d5481f8259f4e8e)
  const G89: Point := Point(0x62a8a839f45660759f741c7892703326e4ad11bd9e102c0770af6ad49dd4b6d9,
                           0x3d45d6c61b8a03c29d11cb1e9660112995fd3bc8c1553ae897448b613555bf3b)
  const G90: Point := Point(0x4e1c036204e123f311e8da4e3fa212fcf0acafbded425b71a66b0dccb2500e7e,
                           0x6a5908d961f00a62a2ac904fd824f6932f0e735f257a7d0d273d61736f1bb1c8)
  const G91: Point := Point(0x7fe8906b455e9f3a49464810d3e6b8e5fef5d17226ddea3b18f08e2ff8552d6f,
                           0x1300ff9d28f135030203b137ea4a3ec18d5dd0dd6b29a6ee7040b97b336976d3)
  const G92: Point := Point(0x1e34443347f9e627b3531157faab6eaca1bc3114df4a1423cc12bf8417b5d622,
                           0x295955a5ed061eca7f87b9485666ba9489ec20a9c484224dc920350bb4a6fc79)
  const G93: Point := Point(0x4cab819c06b2f861b4be5b06a918bc314bf29f56cff389ae2ba8abd5f1f5e156,
                           0x1f10fb18bd5ecfe633b53936f70ce8e58b6a864e679297770f2b38160176681f)
  const G94: Point := Point(0x7c686b90cf6ff6a3a59cc7d8a5e00a2c9b2204decf83f96bb56b53ef630df083,
                           0xf1deab1d3a4a3d2528d9103d118fafda873ccf0a518c45821d51a7fd71533)
  const G95: Point := Point(0xaecf4e5a0c4c4da709921a44dca45965f89a3215bb5445cf72dddf4ade53a2c,
                           0x19304020c00e6169712d6050734bf5c51bd0af80b5ba4a6a0ba008e965216807)
  const G96: Point := Point(0x51f4ff8c599b1c96da82941520a9f5abf4a31eb8b84fc95056145ceb3b5775d0,
                           0x35ac9588d46e41f3f6f99aee3852eeb4b12e807807d4bd1b7f8406b0d7863ac1)
  const G97: Point := Point(0x568de690133ca63f63c08161d852682fa5696c0ee66bf8f3ec729b6a71bf9741,
                           0x4c48220992e8e64741dcdc433a0e65b43a5bae7f4d743e3d1bfdb123773039e8)
  const G98: Point := Point(0x3342c4717d55221def46b89fdd237cf4e9528170f9b524bc6e730cc4663403da,
                           0x50676cdf00c935368d54ccf1fa7dd2671cd7ea46686e61fca49dc6a85b6937c5)
  const G99: Point := Point(0x3396978bfc50b33d58eb8dccc52201ef36dfd27b914d8aa86f6ba45d29424d9a,
                           0x5ccf1359113c127dcb9d35bf9107cccb453eac7ca7ddbdabb1d0ca4ac8073393)
  const G100: Point := Point(0x3faa2a093a19a02424f65a10955101f4dc015c43b2dfce8e001507abd741b845,
                           0x7a1de10dacfda389ca663b15574bdc8ae8c5b6e7cee647e77b11ddbfc6eb8edc)
  const G101: Point := Point(0x30f9cd3076c51c96a9baeda10ec893105d920f022947716064e32717aee8e3c5,
                           0x2caedfaa420120c6711921684f9f5a2b8079045fbf3a4efd7e4fa7bc8cbdb095)
  const G102: Point := Point(0x6070951e96e618be7d750fa819593ecbfe9c26972471ebed72c093714b7e6e90,
                           0x7bb8b8086b2c8f273841de642871dc22c7adb51944d64304c0fe5f4c1d3e6689)
  const G103: Point := Point(0x1ec0eb040164dd81f57ebc3a26c3e8606154303a1e5de3af27b1afd99d27703d,
                           0x3df62c38b3077c694268ed7aae9a3329999e190eb81f07326e5cc3a1d1a42cda)
  const G104: Point := Point(0x1924416956ea2c1269062588569b18178011ea7cba1a3266284f48aa01d5a90f,
                           0xc8e28127b7dcdd206fb6fee96eb88cfc7db7319826ac8cdb8b1fb8adaf021de)
  const G105: Point := Point(0x2898ffaab663ed49ec57038cecd898fb84076bf49bf6f5c4403aff28ce974493,
                           0x94f3b96ab6c9477e759d6bcb9934557e613a0f4fa4fb6c6f4b3bc46f335163d)
  const G106: Point := Point(0x34e2ddf5115701105d5d590f6617ccd7716c01b247948470c1514f12016bf75a,
                           0x1bdaea88b78eb71777558f7452cd868e6d7fc33a0f85c3d2038bac585c1fd926)
  const G107: Point := Point(0x4cb56bd83d7bb25558c34ece98dd878ca5fe850aa79f4bf656269fedfe165cc8,
                           0x5d1f6fb463251914535bd81a9f9a8aea4d5ea5309b86c4eb8fb4a7fa15a03865)
  const G108: Point := Point(0x49761c57ce3c8c4f1435d495903e2f536f3be3712e76af8d0b5a8b7d1ebc8fac,
                           0x3225035e1065094ef32d7f3e7a6f8ff2748025f96e0c0b44eb35576b61e150a8)
  const G109: Point := Point(0x654b39f4650804bfb7c76a3d254377050002240e2f794f8de21de5640fdc60a9,
                           0x50ce7be2f1011218849a34ce62654414a8dcaea8b4db9b45dce3b76a6b121996)
  const G110: Point := Point(0x91605b338ea1bd98bdfae06ba25bd540525a3b02efa65df30de5c6e8c637d0f,
                           0x1df405521e9a2232baf654aa3d2f66bdd6d57fd5bac96f5aa5f8ad2864bf8cc7)
  const G111: Point := Point(0x4606fdec56d46970938a8f9fa5f24624f5b9c6f488b72cb1fc87e4feebbb1faa,
                           0xf00d9e6656d8243e0350fa5b89beefa58e9af955ed650a6d90cce344ecf664e)
  const G112: Point := Point(0x4339fa86a23242851a16afc3ab05b352a7b4bf53599a49dd7e29d364fc3a757b,
                           0x6d07cc3462bae9160bbebb997510817040767faa9dbd13f158a5fe8a63a34b0e)
  const G113: Point := Point(0x62332ee4f8ee5e56398dd304eca6ffbcde556467ba2c0d5fabb64e9736c701eb,
                           0x3e1bfb3c0218cf9f7e6a2f47f179f29b0ad68235929b4921fda74bc89fb8ef65)
  const G114: Point := Point(0x7b9e0081b2e20f4f3d3f6d57f7bf977b2f192142a2a9e40b1aacd15140c88b2f,
                           0x93854716ef9794d2057036ff3f97da686fa3a1784c42279e8abf1fcc42b858c)
  const G115: Point := Point(0x7ecfa6b215265291f32d21771e88699aac3133fdb93ef3a479f95e2fa8742940,
                           0x10958b5cdaf36afe557b7e60184207ce6d81883edf035bea63cb7da46c4720c6)
  const G116: Point := Point(0x6bda13918dcbaf8529d6326ae7a9c278b72417c2188c5ea4f062fc50639295fb,
                           0x2c3fa803b162ee887d0d97a6734866f992f846625f314117075da54bb6c20a36)
  const G117: Point := Point(0x19af956d2b5b4ac28b0c67889f19ad66a40f4bca1625e2007963e8a98a70b14a,
                           0x5e228bb5fbae687754307287833c3245a1ab34684a5a69174f72b460ccb69d8b)
  const G118: Point := Point(0x45bf322997c4469aac6d1e4251fb3490e60e7c0cd5cdd6f5cfb9bbc53587b9f1,
                           0x529d884884075753fd9a2f9ba021ff427fea7b9773f0d4885da5edc024c69e66)
  const G119: Point := Point(0x39632228d7d1471800e549128f91a680c9a64e37ae27d919a2609ce21522c607,
                           0x6f59557cabbd86e8e4d546e2aae6ac26b27b671ebd049539991e9ef27e00e2e8)
  const G120: Point := Point(0x4da4821314574d4fed4dcf692c8b15b99b73f13633210333ce7871359b6e6424,
                           0x314016034673d2d20529bc93a2dab6e462bcb5f66e1f4a6bf2170759a40a6e65)
  const G121: Point := Point(0x22423cb8e82129da6655d94354181feb5b1c789806240b135c4da1bd156d734c,
                           0x627dcf9be9be798eb639f6b776ce9ef34573c7a7f1d1ed220b1a23156f08cdb4)
  const G122: Point := Point(0x4230253b946f9c176ea49e7fe2b913a35738999750b1e21555104dcab320bb4,
                           0x4db9dd92f8d939e6e4d0b0245ef57a62d793b173e977b8fa69558741d1e5afc)
  const G123: Point := Point(0x63b06e648bf7aa8e8bbf75c0f3e0bc5d438683b063be9f4f09de91589756d7c0,
                           0x1b17d88ed99541bf1b2cfd50b7d4d87ffd627bb708d0c2445c68249be08bae16)
  const G124: Point := Point(0xb2cea0029ee963c0034b61bf19e384435f14554a7d297b5144838c38e375586,
                           0x47ea95da28d39aaade5edb8ed941c687603cfdd1508776e96d6683199e99daea)
  const G125: Point := Point(0x6e3d157d1cd96bb4ed4cb069497e6041334d698b1640a59a44a45cde613aabd,
                           0x72f5ce3c9ce0c93d9339b91978f1d9c688b56b3a3850627c7d7f93c427456c7a)
  const G126: Point := Point(0x1f13202c95083f854583ff4cda13ef4b1e745a880460850e59e22c567d23ea24,
                           0x66336d356c381b7ef21109e7fdfd7ffa0085087eb55c4778ad42025c90275f48)
  const G127: Point := Point(0x1d4e70e7fa35c13ec61efe8d7b8ae9e621144c1eb2454c350920e4ac81360393,
                           0x7b2807a91ce09ff20a518d85be729e118ae448b51763e880abd15795ddc22e61)
  const G128: Point := Point(0x4c27afff3c45f32c952d3984e14e29a098e685c9c2e723e5fc8047ae60b7e824,
                           0x5f2c99e6526dc87d95f11eb626c29c3a90d0be1e51a4c49e5bbabd114bf5a66b)
  const G129: Point := Point(0x786be30733efdaf7a08157f7907d6ee4f6952c728fbfa269fcefd1b43224e085,
                           0x653a5f772f34985b34270ecdd4fd08472a7c08beb39d69be4eab0712c63e2736)
  const G130: Point := Point(0x21fee4804968a933df8957815bc8dd9cc6a4d06beb4d19b36cb822f04c2eaa13,
                           0x500b7740072cb51d416c5da150858339bda5367a8972c2313060d3e930901700)
  const G131: Point := Point(0x77fe8a5d490afb6ae4a198065e9488f8c358adacf1dd564e28b7136e1146b3df,
                           0x3c530f01e039f3168ac0033395218d9122acc9fe0a3545ba6d75c5afa5f50246)
  const G132: Point := Point(0x53e2a4ed1bbb48bd016c524a02f797654cfc969849f867681da94e341f377534,
                           0x5a2334fdda642732a3c9520ce06581aa7f0f082882554c37b8d390a25a9bd559)
  const G133: Point := Point(0x2618676f8fb18ef8c0ff9e057c9cca37104cbae666398a1fc8237bb34d0cb0b5,
                           0x2aa05b60a232ec56c8f2f51b1eb6cb7ebb2415fc4b1e8ba94ea41a235413414b)
  const G134: Point := Point(0x566dcd766740cb27bccff752ad6b8fd3c2f7bf3849c1131a4ae7323ebc4f6c0a,
                           0x51e9f19fc00f3d398f7539196f459ef37e0ab795233ade63b5f29bbead27b0e5)
  const G135: Point := Point(0x2151b330947c9f7b22fb8d7258ba6d9cd59ce0bbccb51a3e121194862414aa88,
                           0x2a01507ee46f38350a3dfc49fba49adc907025fcc96b237c031ed0aff23d74f6)
  const G136: Point := Point(0x7b8d2c823baafe0d878a55e8af1db150dec85b1424a4901f9beffd3a6196e3d6,
                           0x1c45a557b3624f9b89ed15b3c3e1a065f1b453d948f7cf45d9494483f8af0c85)
  const G137: Point := Point(0x5fa2b1dfec51bcf38de2510adedcc695952f36b9900f13efb45d1c3cd099c188,
                           0x3f81faa56dc388bd64de21b25252d72f40d64b90bf427b8569409b7d23a1682e)
  const G138: Point := Point(0x1f878c9bb777a0586a03dd7c310986d8f6ec21f7ef82642e799e668a7b47fdfb,
                           0x59479937cae12df41a31892ac4bf58b9c5dbeaf4e0ae1dab3421553da8e44755)
  const G139: Point := Point(0x8e60479f7f51f3ab2119b5875deac32f750073264da7e554535a949c163cac7,
                           0x1b2b6c48c2eeadcdb2115bf4ee5f90861be7c49767ba67fc96fee1fa4b22fa46)
  const G140: Point := Point(0x78877b5d8777410997dacaeea59400fc9db4421fac02c4282301c67d35fb7ffe,
                           0x341b46c328333e4484ce8607619014d41775c408c88856d2f9e19812d90fbf5)
  const G141: Point := Point(0x1787c129a60520114b3687d43367dab6a3ba1d1c7bca7edfd2f46e4f09c210ff,
                           0xba4e0f55131c2b6deb4a1fa4b5d6a2b47e28908fe7dcafc1ba738da2fca96f6)
  const G142: Point := Point(0x1f54318884a9a29932eb2d5aa126ed3a94fbeb7cb238538be572b8e04c6e55c,
                           0xb704f0aa8dd40ec8405ef01634d0dc797d01a872fae337ebd8d2159a2dbfc50)
  const G143: Point := Point(0x2fcd57c067c348aee6eabd76e66d27de79846089d1e0916906ad03e940e9263f,
                           0x1a3da7acfabf171a0b078f4d602a67bcf8c74dfb7a284b553d86bcc7b9dcc17f)
  const G144: Point := Point(0x2b556bbc070b5c4bae9e575836d1d68ee9fbe800448c0d2c233f78185eed3f91,
                           0x7ba01332807ebd892e00ddb368c0fa1b3f19b5b32efd90b178d984e1d7174d6f)
  const G145: Point := Point(0x3f5c47b490be4e04f8915cc5f3c1fe8e5d190bc41ed00d8f43b04444af406f1a,
                           0x537ce98e07428214d28bf2b41039cb54ea8da86045baaa3f077132fef32c3bb0)
  const G146: Point := Point(0x614118e22068c64a823b4a570572d49131b2f8d1d8cad3a538ccdd30a8b4f85d,
                           0x63ebe5283599fec22b8d9733a9548505faa5a3cbb5477811b0651229478dd419)
  const G147: Point := Point(0x13aea1849989ffcc18795ff824240b157052292b065060a0b3fcf4d8ef3f3fb1,
                           0x884949c8ca12b70fbddbff21b25e570672d6ca4106005551930c101c2b81f44)
  const G148: Point := Point(0xf72556998b0044799f0fd03210ded3d984e3843bbaf3c1d5d692bc94d43c4e7,
                           0x16c19c5037c103d447caef4efe6bd81a490e7c668f6870f1b080863b5315df5e)
  const G149: Point := Point(0x25aea0bc0827815b535d8c110e694b9247811ff43682e72a2cea9ef5e347371b,
                           0x5ddcc7dccc9e41754112bbfd9b9da05d50e2138b624dac59d200421105a13269)
  const G150: Point := Point(0x4eecfca39170c07de4669bae23b0068d294ed225ff7949285e8270460638e3d9,
                           0x5e9e7c4381074bea73e24638aaac0508e76a81b70e0d5c14fb1ef6306a371262)
  const G151: Point := Point(0x2884187fa61140983062669218c62a3017be9d32437760281f9b762e4f21f9fc,
                           0x3200426867df5f3d9f57fd086cc32a17850b08eac3492dca3ca1768af4d3ab3f)
  const G152: Point := Point(0x1cd96ef237b213cd446f13b3ec40d32ecc593bc6ea71e77efc284341a5f3da1a,
                           0x7a626aeb91efcb5f9777264f5e17ced8b411f68c713673ef0f184a5ccd60dbe3)
  const G153: Point := Point(0x275d04f2b3510c56664a8098fafb5b4c950dec7e83f0ccc4832d810897a24a18,
                           0x57dd6527da326ebca62ddead9b4863daa69c1f11a39c3782c3fe2e5a06b8b93b)
  const G154: Point := Point(0x3c3b6a92efb1b73a190aabdea635754eeb5ffc376b2a0787adbc2e7d31374f84,
                           0x126d49709e40cb07b122e980b9452a94055c87763b1a81e7eeac60396d94b23b)
  const G155: Point := Point(0x3cde77866cc73b07a52a9ece4832e2a02c9a85a6709f5b9d4c711de45b556055,
                           0x79f2b3d77f3f44c771f685b6d3d352d7e4f20072b64efc55a957437e967a18f7)
  const G156: Point := Point(0x31a75b21cb532622a7caf9e29e652ac4e47b1450edf6655acaf3797b55a7ca46,
                           0x77006e7cf104982f8865081a2ff8a6911546755e31c3586353b0bd0826c5d790)
  const G157: Point := Point(0x507fddb828993775917eb8d147c94b420e54c787736163ee92f14ef609612181,
                           0x5ffa5d8998f8df1974f1133fc878d7bb58987b3ace819df0a09fd65dbec08f89)
  const G158: Point := Point(0x247ab53368a2d4aff8eb158b291ea4796942c0ae4364ba270e1259e237612aa3,
                           0x33cbed49442e2eed384d45782a002d3dea88062b42f823b001ecab1bdd33192c)
  const G159: Point := Point(0x7300f956c862bb5c5bcedbef880061a0adef30aba72e901311f8918f41e868a0,
                           0x116d410aa365e041a43c071511113f1a4e09cc70e39f9e245828a32d82c1603f)
  const G160: Point := Point(0x543d84cb04fb2bf787b7aa382eaab5cd8d050ad8ee52aa8a285b945652014031,
                           0x358fdc5b63ed49e693d838f182b275846f42dd49a42ec2e6e932ba4de59ef20)
  const G161: Point := Point(0x2ac4c0386a424b4a4272506180181c6363395b4094f551f6a70e1fb4f605ea1,
                           0x1a36c19fc30e5e46b07b2ff0721fb77ff4330e554ffa874f0074860d7de3877)
  const G162: Point := Point(0x2816f8430d466b9b65d0990c2fd6f455861fb600a505f7297c8283d3ac2cc513,
                           0x5452c4b45430ea383524c90ef0c66ae08745df0664ab5a184f89b17e74b47f1e)
  const G163: Point := Point(0xcc495fe64bc4816637f94251df4cdee3ca74aff90c1e427744489c13fdc9fe9,
                           0x42138e7b6cab977efec0d3e669437ab9e0f228d3e38c1a6f6a5e06036e75198b)
  const G164: Point := Point(0xa2818f5f5d8937800c30ac6b847db2cdef655b864126302249144a5a15b205a,
                           0x187c76a49af10851bb049ba97c0fbbb14b2621522a4e8d9670ea46e56c9a1bd6)
  const G165: Point := Point(0x389973be3632bbbdac59f537aa63f28abf7a33b915d53682a9ebd7d040f794fa,
                           0x4d6bb19304a47533a460358e9f3eaef4b7984f8e99daf4d2ca993dd87adab32c)
  const G166: Point := Point(0x68c0bfb003eeb945d29ec91ba57d6462c36b42a8fdefa5e7b99d7b97cda89d97,
                           0x4b0ad6be2fccb3042e2189c9f3edac9f6279599756876d246ba1d3f62c84b7ed)
  const G167: Point := Point(0x3710538d7cd7971d68f19272dcfe0d7a577b7e889977526e62704dfcbe6b8c22,
                           0x7d10827db74ae0dc09323717542a2deaca18ab2a48a8e245e5a827ca02778853)
  const G168: Point := Point(0x7efb45d3a2851109d7a8d50ddb08fe308bbf674c019b965cdad4570a141e648a,
                           0xfe1198b11a1bf56867091c69d71f8b7792257dda321d43652e818acd0c28cda)
  const G169: Point := Point(0x5d5225a5e2235c5216cebd1847b2ed69e45db93cf3ea8cf012ae918f2c983218,
                           0x7ec9e5494feecd8d348a92636b5babeec6b5ab1982778140bbeebc4e5de7b1b9)
  const G170: Point := Point(0x6fde98f557e3360932b5622351886a898e4639488c2433586e6b1d729a2e5760,
                           0x6994510fbdad700ab9e84413c29ce02525e5b1d15be55269875bf94a48002c8b)
  const G171: Point := Point(0x705bd9027e77d82d951c8205d33a5b3c3695fe7ee70833035fac2d25a9abdca2,
                           0x1417fa0628ebc3a194ca46d423ad4a41cff08879e02c8e51e0d6cd670c1bfec2)
  const G172: Point := Point(0x472e960dd122a534f52377235350549df4a1dd7a08cfc580bff5fb4b0a70aa7b,
                           0x10585d04fc529fef4c0c0776154fc7ebbaedbae8a99937e47598d0578932b7cc)
  const G173: Point := Point(0x3734c7d50aa73403b92723a944d6c90cec86c737774dbc4418a1a6693dccc58b,
                           0x416c8b45805ea84fa8247cfc6a0b0d0fcdc566e2d811adff2899f9ee663e7ef9)
  const G174: Point := Point(0x3c3c51d3a301c63868a041b4210b71c3675effc0210360dbeaf2778df7ec1eef,
                           0x6c161ec4de54d51b1a839d13f50e0274bd11c93f722ec44ab21342ef4bd6f892)
  const G175: Point := Point(0x2a4ebd1072842b788ea22727c676cce2bdb6faac56c69c28c3e694aa63e45227,
                           0x49b857654a0e51927bcbbd26fd2dd718c3c8d1d196a56ec950806104ef23a7ea)
  const G176: Point := Point(0x4892cfff7f94ff7f07c1241e3ac4945bc46ea9d6a3c1c3adbce109a9afceb6a,
                           0x3ae2aa25e2555135a7a3251c11a3f8eebe81758bc1c3e2cbc6e6ca461a543130)
  const G177: Point := Point(0x60c497780d40c8b1ba4f5dc4a2262b84528083f770b07af0fa76098a9f1048b4,
                           0x22fa44ee0eb502084f6ca208ed0757572fa5b25d76f30b5f733840c7086cb1d4)
  const G178: Point := Point(0x480d816072eb67bfb2aaa781fa5316978947e10deb8b7f3165561904a63f000f,
                           0x552d0f1d6bda43b57e73875b499952c016af17ac436baf671e5684a8cd33137e)
  const G179: Point := Point(0x378e98824a6bc4f1f82d26f746906680086caba8f7e0902b97c482ac0bf80638,
                           0x114214780d621d31b86d6e60fe7b92c48ea22834753d0ae01bb23fd4b8eeb48e)
  const G180: Point := Point(0x2401d311a3abfd2583f1c6aa519c1f18ff730a0abf730ddcc9c9739b04d8a85e,
                           0x653224f3488cae1ae19a414a9932035a2bf2c46803b5532bbb645e62387ee34d)
  const G181: Point := Point(0x72964d278e0326e84801f12bfb0c0cb1edbf8bedf273e5b2b3f4ea8c3aaddde8,
                           0xeb4ace1c6b7220c4211bb023c76443304c2263ba1d49cf27c4d26c9603b09c8)
  const G182: Point := Point(0x5aa06a8b5ddb350d8c58306257ecbf219d0070caa4f986c78fdf8e42fa9b8ed2,
                           0x7920277cec6d1e37a5f267d8fce232dfe38bf858973b895f2611dd200d7c58c1)
  const G183: Point := Point(0xebb89efa79e3b56b75663d950362c441440ce1425792cf196234595fac0e9d0,
                           0xe5f7b80005248f80da7d738df4c11a70f30018d74e871780a1c82cc0adc7fce)
  const G184: Point := Point(0xea2c846a535a115972161612a192588d92d68a3c9050eae91b2817b94e68325,
                           0x3b82a8337b05f11bbac176a113be183a50a0331f3d3116f24b971b5a8b0d031b)
  const G185: Point := Point(0x561d2c1d673a0e91876dad49d7c6a6c6ddc4068445226d2a0e777dbcd25c5f3d,
                           0x2dac09925d76226bdc776a3309ccecec6de6692370dbd0de19e5d2d4cf747afe)
  const G186: Point := Point(0x140b6f1e4bad46896617dbbc2d4b1bedacce412cab91f0015e12dbd3eb171523,
                           0x444eb3598ccaff53dc272b0ed8d7543e1270b04a5da34f1822482d77b6bfce11)
  const G187: Point := Point(0xa9fcf41f6ef7ccb545e615e1335443229a1822845ecc07e3921b2660f617607,
                           0x732fb4faed1673a8d23b79b5ab9356c18c586f395d96d2249f8ae6c384daf9dd)
  const G188: Point := Point(0xfb3f87c2c6c89c65b74299b77f3736546a8b9e41b19197476bff27354e1c128,
                           0x1034d42c15a2bfe3e682fad49dbc2812caadf0c584bc30b51625b85d74e9d5f7)
  const G189: Point := Point(0x7b6a55657786383d359c5b5f2f6cc814790f8527d9d67f6c67a5310eba46b161,
                           0xcb7acea0eac739a61d526f6eddb857114a32d8f09995826f1431b60663ab0d3)
  const G190: Point := Point(0x5ad25870b2c161c671b014f548bfd24114e54bac5c675f43e79f100e17e5f45e,
                           0x65c775edcb82b0b26040f9f5ed43f8ed61ba00427fc92b50bddc94920716ba2d)
  const G191: Point := Point(0x3f18362ff22f583b16d40da2f5e67645ef65016e5183a44475b3ae5c3056b6d0,
                           0x5cfc7a0f0d2fec43237b88efc4fb7e9f0a95b6352bd4caa918c58c1e9be02ffd)
  const G192: Point := Point(0x1bc7af1e38185e7c2d8d04371c7e177d7a9ddee1b81d7d26db7ad644c7dad28d,
                           0x61d909d855661f2f7a5eef87795dc0491d027e12631b270fcaf2f65900314833)
  const G193: Point := Point(0x6bce245f8c2596bd228355a6bb8a3d9f2fa8975d8daa7d00799938218028354,
                           0x3d26989cdd0f6da0c92acd2f10754858c2c9418b0de8789496fc955188a3c065)
  const G194: Point := Point(0xa09b36eb5a04aa90834f3f33ba4e630e5345cfe522b910f5d9d954e6c16d4f7,
                           0x3aa47fd60fa3110a24b6eb2baeed533d06ce9ee4d4373b20f3a2eb0fa35ed926)
  const G195: Point := Point(0x79e9d5b60917d60f87ab5434677906d2b72862d87067a522e1eb2d6fc2c9fdb,
                           0x16512951d2240a453126ca9450bfa225640064fca385c7583901381c04c78797)
  const G196: Point := Point(0x469d0960dbd0ef9c91c4597ccf7c209549b187ff63bd378b7dac577198d74a4d,
                           0xb5f21c7f86832241f2157c288bdc9394f83f8d57457f6d9f6b345e4909478cb)
  const G197: Point := Point(0x5911ade9998930a4ceb0b66eb93d7e9e4d94ca0a3ae3f095c5c4ffa156776792,
                           0x63ad2432a173e9df4056a370db21b2625d68ad21c0030bba5b75f6fa19548f6)
  const G198: Point := Point(0x10b304ff67577ecb1c73a3e405d39a64b2d4f9dd4cb4bd16a9f3729ad1939932,
                           0x13b7faa0f91cc1419bb0e7cccd85e369d9ec65aaa934afb423616dd0ada44bb9)
  const G199: Point := Point(0x1b795d9be8dec6dd3617f3f9bc33c580debbc3cc19064f515209d00c3c88fd04,
                           0x6c87f61b675c50c01e862a53cfba384baefb8f95079b71087950ad5751be0a65)
  const G200: Point := Point(0x5e9ac4ab2f4a3c3526e1317f913d69e3826fe862efd0c80d9310319170c5cbeb,
                           0x505f00fa8aee03ccbd2f33529ae1e4e4bcf2644fe673d0b0290ec32be5b51bab)
  const G201: Point := Point(0x2e5c4ef1a12730a9788953b5079a1184a9a237b9e281f0317514b53d220ddbf6,
                           0x5c1731365512a3965c5d5474a84e994ee44afe8cb7ff403517cbdc4dfb54008b)
  const G202: Point := Point(0x4c6c9a0e8a4ef16e4b55b6eb2e728cf2afef2d38877d5ce8770ff2867bef24ce,
                           0x26d5711ee5a1e88273be70d6d8b9054cc5ed2581668d5ca83eb74fd1c286ea25)
  const G203: Point := Point(0x599ba21b65ffb36cf3151c6e8662aa6c8b35948435819669d60cd77227507e92,
                           0x7f59b350f668c2b6797e53f3fcdf6ddd497ca01445f6e3bbbfa50c48865a9e2)
  const G204: Point := Point(0x11cd80e1fdcbc565efed81d17f3f54643ffeed1cff38f3825e115adbd82759f1,
                           0x43f11943f7ef3fa68b980fee45e98134f1df22263b2d14419d61ffe62822dbe0)
  const G205: Point := Point(0x68c33d8f33219a980ef7a4a10edcd58b0d2314d3c8ce301b6c0de50a100f3ee,
                           0x1032a93593881da4de11eedf679416b57135344cf9061c393b12d830ff4f7dcb)
  const G206: Point := Point(0x1eac17c83ec7972fe82321bf2c4e6aa73565be5cef720aa9930c6fa3f0b1c087,
                           0x419a160079a825b1b3c51e57c6e5a257a86757c7a97bdd6dc1ecc40e521ef7b)
  const G207: Point := Point(0x4ee45ad6672f7b5dce99d4f64c57742640feb26ae734fef8493ae38faba68896,
                           0x7041a7fe4facb6c6904101f856fbff5b2bb15c7dc602a4936af62555bdb3825c)
  const G208: Point := Point(0x3328bc121616a9477165ed282053d203c24f4826076c638a2c6723d42c9bfadb,
                           0x2bbf3f26c21b5cb273e5f4f0114c6718c5eb7291939b7697c74333cdfafac039)
  const G209: Point := Point(0x3646a62ad82bd1f37a32412d71c1de8314637eea177267a0a5176fc37c90a733,
                           0x24dd06031fdaa9e8e94d73adc700ca86da20ea738f7dd05c088bb8f97c6bccac)
  const G210: Point := Point(0x3c0c1e7beb87a53457a69c0f5985dcbee21e0acb65aca9eed7a52a980a61b29c,
                           0x74e826b2f1347631922c45546e2f1973ff349a34c6939e4bf0a0b50d6384bd2f)
  const G211: Point := Point(0x53b1cdfe23ed553c0443b14bbba2119b58cd8c555ea7bde6c0cc4c0c6d90670a,
                           0x5ca6df45ad9630e4b8d5732bd06e5008a2677a342904fc587238af01f575fb05)
  const G212: Point := Point(0xba774bb605dd804cae6887e81f6bd2c59e024fac8bf5f5c48a841a037c28398,
                           0x54ba013ad2d04dcdfb5a151b7347ee9a10067ddd0a3907e9bc337a77bf911321)
  const G213: Point := Point(0x6e6b14df76458c45466bef23b9377cf147c97c495e8207a0436a200b4a39d548,
                           0x30f3b35dc952ba9d6b5fde2d131ab9b5b403f2583a7c2d8ada37764c29cac942)
  const G214: Point := Point(0x496490af4080feeb8e38f78e769308b124edc07985b1ef7148d7620c6bfe6f4c,
                           0x7f6410727b65cafa07e53ab1e775ef0408cd5f12b94bdb4e533c4498c1da884a)
  const G215: Point := Point(0x75bf0ea1fb606d05dd67e0f313809ac9792dc903159d032b05c96db7be967e0,
                           0x43ba373488c317aad659043f9bca4c85d9b081903e7767143522416bdec79f81)
  const G216: Point := Point(0x1074ff0267662dc2b4ce65aaa0229c375a3d0d843ce9349233949581c869b64c,
                           0x299be0decb680ec28923da4d049770107d42c180b460da13a7b1efc7e6d5b022)
  const G217: Point := Point(0x3e63c4ae42121958f28e78e557e827a108156a81cc8b5c64362e2b362a42fe33,
                           0x3599286aac87e88c8c857059a5edbac1265bc15c047cb18502ae80caa79c9678)
  const G218: Point := Point(0x31ddffcb76711dd76c6b48540967ab52ceb13e466fc3b2a44fc17508ad074a91,
                           0x221c9b9a258e4d271a0176119764072e484a3895d0508874076f36f0fdfa8836)
  const G219: Point := Point(0x6b265507695b3cb34c25cc44a95dd559ec0245102bad71a3765eac0f0ebd57be,
                           0x3f7f093597acebfdca9d151e67d5802b991dd62f822a757af9e32951a7d46b30)
  const G220: Point := Point(0x25ed76d78c87c3bd64b4331902c5a853734283e25f19f320295667b80a340d35,
                           0x179b5f92f545c7b326b3a63fb0b32a0f52b4159988436d5af50c1d0d76373947)
  const G221: Point := Point(0x71880463417e760ecb72e31789bdb017139aaf83eaf20fc20e423bafa442b92c,
                           0x7be598f9de5bd5dc434f938efd89e30d39e02cf1bf657054ee9fdd5786387875)
  const G222: Point := Point(0x76db1d03f26fe3e7dd73951d7a58abd8b6c1779e5c6f129463f2b2df11653be7,
                           0x24b91ba65c06f1df0b18d1030726681714e1ebbd27bea55a5abc1b522c4e06ae)
  const G223: Point := Point(0x3d09f11b74381d32b6407d2f5f3305c5b6ecc5ed60b48431878c480e138066c5,
                           0x45f4a22ff69fc1dacbf100959bab8026af793c58551855753634f88dbc8269d4)
  const G224: Point := Point(0x75d942c04210dcde5d1bd4fabfc732d3f95568e399382c0423c83c41cb05dc3f,
                           0x696cc14856cdc13c8fd7e2c5771731cbf38e3fad47a424679765c4874e35ab2d)
  const G225: Point := Point(0x6d12e0dd1cd8bd76ad5a191a61920fd4a3c317245e8bb210df90a57b885fae14,
                           0xd5c9e4b74fde7802a0b836724057a5b810f20f7dac4675a4d24a3028f70bd8e)
  const G226: Point := Point(0x16c1556c9a2bc1af0b11cf369581a12d063081ad20f83407e1ebfba21f5fd594,
                           0x23e38cd5158b0f891e19adebe973b5b805b393deb8cf11d7281335745ef14f36)
  const G227: Point := Point(0x66e632db15cc9b7695e73e2b94033b8d25fca89b99ef5e24436b804bb683be22,
                           0x534e3c9c194cccc190ffea06f048e7a6f65e6d5c7ef6074693fad6a6134af084)
  const G228: Point := Point(0x5d9324f56975477d5945599eeeccec67708c996cd3f3f2818bf2591507e3502a,
                           0x10985a3cfd573205281aec24e2c8b41f5cd8cdfc9d7be34675cf306bbe1b4f6a)
  const G229: Point := Point(0x3c08b09976fa5b99270e861a71c0ab1fe4d91e80e522ced3e19ac2d830f7dba3,
                           0x30a2ba28dfd74083de7aa9ecb4443a3773366abd33d1d1eea65d6a1b85d2932a)
  const G230: Point := Point(0x27d83b61339890b9c8fbd00cb8657e01e08fe7e02cf1cc0c991f3e184647ebb2,
                           0x2aa089af71e21dc6264ed78eebeecab46c08c7e4c593c801ab744b503a72bea0)
  const G231: Point := Point(0x4676d3812cc6b66e1f8c510f446ac562ff8a52086d52067482faa8dbdee40b98,
                           0x7d89e2b7744c57b1051450a0457fa0eb2a95c1bf8ed6bdf68f1aa7802e7429f4)
  const G232: Point := Point(0x7511066c0e12105a7b937c7ecef367d5afe6e621e5cabf4e490b09b7ada7ee07,
                           0x604df365b8391cbca8848f88daa700b770da5bb136f70bfb0a3ea33ba386fcd5)
  const G233: Point := Point(0x668d5960c0b43b91185fc90d18ad46a4515235c7185bd5254981d26ae8619807,
                           0x7a66f757c21900b1e93c86e682114de2b5d3a248850958d957ae246e53791b03)
  const G234: Point := Point(0x5089c58085e74644f85e2d03ef0759218dff976d9e8db4ca9f9522d70389e30f,
                           0x50cab959cb2b604196fa7ab73094347badcb954ec320fa01522986248653d88b)
  const G235: Point := Point(0x761affb1e0d408002cc427dc6fff611536e2b989b0a5f94883a1b23789b5bc2,
                           0x3a6d110e6070153b7c42102c6dac97695b4a45872cc47c04392ea170812fe6b0)
  const G236: Point := Point(0x2596e5b3cf5494e60d2a750d03c66abc2e0183af53620b893f9cf9fc3b76dc26,
                           0x68a0a7ac9a0cc093884a6b84f45a2cde595194e0f48dbd566fa78a3174b182fe)
  const G237: Point := Point(0x249651cc143249f875c53d5aac9cd3b818989387875c08c7ad104723c7d60d25,
                           0x28fdf17c15bb6b0c4dd06abd210155b2bdeca64a5f02a6934f00437f05d9c65)
  const G238: Point := Point(0x555439a0891500e49a25ccc1dc98fb600ad0f84600494322c44315cbf3d59bd,
                           0x5835c99533f44bcefffd61bc8926af99af9d0f669e428593ec19129bdf55935d)
  const G239: Point := Point(0xdec3676055d5dafe7544edd68b7a80cda0443b311638b16a8aad05972aeb417,
                           0x48fa8dc3a82049989f4cdca7c6545513f02906fbc4c37d5b7457553832827c6d)
  const G240: Point := Point(0x28bd38d44030dd9ca028b2a2f31a795f4c7a5e85a785df7847e3d525e99d4787,
                           0x552dd7405c4183733ad3c4e7ccb999b4fed81b7a4444aab499d41d6d78d5bbfc)
  const G241: Point := Point(0xec8fe27a51e6f75d4197b4711b5f17d8fc023224426a7a17d3fdce55f7be126,
                           0x3de83daf93d8aa7f7675b8df61c07b3c1cf8fe6b81327c3db1ed2cefab3d11d3)
  const G242: Point := Point(0x393fb3d0b216d7a5f48da1dbe2fae37c1863636e599d725b0a4ddb6c768a89e5,
                           0x4e2107bc674405da517bd3ef9605b5ef6bf72e94c7963a80241776f56c0960ce)
  const G243: Point := Point(0x1edff13d99073e0e6441de58438feb37c6e1eaa3103197eb7d22deb9216f73e9,
                           0x2e42eb00cbc19262a6caf1a51809d26674c878d718cd86a9e4e20617c243adf8)
  const G244: Point := Point(0x59233a3346f61135f431f96cf0197e24ad38240b222c010a6ce538cf4c24347b,
                           0x3cce55908611d2b93f221613f09cfc4dbcd2e2b609233eea5439ad1908a10b20)
  const G245: Point := Point(0x4b82eba78af08da395d2b48bf17f55f984d7991277777e29ec8e3c4afdbfea1a,
                           0x1437579645925f5d241c94c1c64c55c39f64033ff8234441e00adef63af4282c)
  const G246: Point := Point(0x1a2cd99d3d94ed5a186f69c4ebb16fb282a589f9237585a55ba076b96690cdc1,
                           0x4044babe0b4de497049f1a9e995ac6e6ef0bedd2e822b0f8e037b70673e6b035)
  const G247: Point := Point(0x24497c51a639670f653076aa14ee826a4241d6b20a89886f54bb1f5f919656c1,
                           0x3b80f82901f17808a3d7a986367410548092cb5120db4670d3750f11d178a335)
  const G248: Point := Point(0x5830f025f1078d408948f73096af97de1e9e70b3be85890acb21132c34ff961f,
                           0x67d451752c2433ffe66e47242e301e56db2b2f8203553cab9de717e25793d41e)
  const G249: Point := Point(0x19929124ab5779c9a99e2d1716d8c07813132b29c69a3c1ed1f4e15da1d9062b,
                           0x52c0cbef541fe80c1e9b999483041e79950a13c4424073607d4975a69ca1fb69)
  const G250: Point := Point(0x849c9e6da66d17bbf08dfdd339cf0c074ed671a2ed91dcf7a6a8737a1738914,
                           0x9f4dcbc5ae50392c92faf402cc4f17a92573a80d42e5a4c21de0ab0555edde9)
  const G251: Point := Point(0x3dec05fa937adb1796e9d70e892ae0f4636b0b2f1e35444525f946d7c7220e7,
                           0x15949f784d8472f5691129fee55afc39462588c4a4ca4f146d1c271cc6375515)
  const G252: Point := Point(0x6a0c8b194571e874b82d904da36d43096bbe36d512e24ff8dcb2b00b57ffd3ec,
                           0x5f85adb7749cc735ec838bcccfe7d4b52902c6132998d7ac8e032cad031c42b8)

  lemma Powers0()
    requires Fermat()
    ensures IsMultiple(1, G0)
  {
    BaseIs();
  }

  lemma Powers6()
    requires Fermat()
    ensures IsMultiple(0x2, G1)
    ensures IsMultiple(0x4, G2)
    ensures IsMultiple(0x8, G3)
    ensures IsMultiple(0x10, G4)
    ensures IsMultiple(0x20, G5)
    ensures IsMultiple(0x40, G6)
  {
    hide Fermat, IsMultiple;
    Powers0();
    Doubled(0x1, G0, G1,
            0xfa1b365fc731dd479d2d359f1b177546ba8e25a27f0fcaa6927ad37ca5781171ee0fa544518917ea5a570599f15d8532aff979b6bb3788a1392a37cfa4b9648,
            -0x9d471a513bf115e2cc568d23b4c42ff53c4cd88d782a192c9cb7ba443f1e3723574a642432021bd9b8bad0040e5e45d47420dbf31f7540db04d36e693a90046);
    Doubled(0x2, G1, G2,
            -0x1c71b1d50a55f520f24b2206207d25dd6324552b86e3b3aeb3635b81355ff5b691a5bce3f86355b6bf94e0b1fdb987f6b2cc2311d8d0dad94f5872f7e75d7fc,
            0x3f5bde7b8be712bb06074dc5951c5232c1082c8b9099b0dd935beb807e98e938ea1e590fa796648aa0b17cc311c58f78eb7129bc455fe334f8cb20f148afe3e);
    Doubled(0x4, G2, G3,
            0xcfa2a5655c0196708a8a79bbd8b42a620b35e50a01ea978f5458c19f66ce86889a6766b240ec1298fa9d31d77d6d0ce7092a8b21665b94e993e889603016e48,
            -0x44035d3553f0d3c34c2c1e2226cd614dc34b5175d0afa715600dfccc13e0ab8542e8aeef02995c2d5b79963ce958ff92210e4341e76a8b5af639b45df238c81);
    Doubled(0x8, G3, G4,
            -0xa5a970b0dd54488d4e672221d17faba62d79e483876b6c9bfc65818b84d4452717130c626af0e51da5693207e9d79a0d9e99c17e8029ce9039eb0c8ed9af2c0,
            0x20b4b25c1efe535ed3ad112d3646bcaa683790bfc3bd3a3920dfdac6e8db6113f2717a1799b2775542f5e2734f5f330430f9524f596094f802c264dfc4e46d2e);
    Doubled(0x10, G4, G5,
            0x141f4e14e2c4dcf2a9f67c4aa27f9cfbe97910319584b2a7bbe39a5290bc312806cc3134f323f72e3466653603319d492bff190002bb5ba4e92aab429467077e,
            -0x17bd9d4074fb829bcbdcb4ee2a35244554d906ea7776659523909f647dd46eef904a1114117c31a2e356abf61017f57aa0674887ba31b608f2df442d1a8ef7e8);
    Doubled(0x20, G5, G6,
            0x3d2e846faf3f00859700425097dca9c4d8b5df7f373d8764b92d6630156f90520a0929cbee7b68c3f79c9f6eb1f1ce46bcf889a5936d3f95e57c29ddd2d62f,
            -0x271516720164fccc0e261f20c8cc7766ab5e2ca76be89703e2fdff0d703a753e719e83d80699d0eba8220c66cc325541f74ff1c6c9286bbdccc6e4badd92713);
  }

  lemma Powers12()
    requires Fermat()
    ensures IsMultiple(0x80, G7)
    ensures IsMultiple(0x100, G8)
    ensures IsMultiple(0x200, G9)
    ensures IsMultiple(0x400, G10)
    ensures IsMultiple(0x800, G11)
    ensures IsMultiple(0x1000, G12)
  {
    hide Fermat, IsMultiple;
    Powers6();
    Doubled(0x40, G6, G7,
            0x6468fc4ff551746a4b1b69fb432c50059c51fc4151dc720305067df92ffbf6f4d002cf04160346d6900c15012ac7d88c84cb18c250caa15cbdbf5883551d1ed,
            -0x49e0cf986260ec6412d303c2cd406504a9f3bf62ede10c5f54f9c450a267b28ffa92291af834c11ad4f2efbfb7fc69cccdb88cdcf2866b95f5658c75a940d3d);
    Doubled(0x80, G7, G8,
            -0x4174cdd5ea7e3c94b074a170b69e4d12e18c1b99aec0b729e200ec491b2622bb0d42113464e8c52a9654c3a77ff30561f71b61b11a8fbd3d68c924cdd597b96,
            0xa9f399c1507ceb658a930db33ce34884ef311a93aefd054c9d271b15b9e060f7fb665affbd921ce21a4c01069879b059a991032a805ba1b9dd591e6ac73044);
    Doubled(0x100, G8, G9,
            -0xc73196d4e582c82033c3d0b2942d9dd07924f518f041d169dd2d3e173fbf33de467722d3a46cbf290f358b7a4a6562a05ad49045063fcbfde27242c1a2d023a,
            0x16812a125f0882edbef35853d8a6d2bc4ac5665f8f8f6a469e8b172c41047561a0119f8fed4ead58b3d24b8635da474bfd4ea1e41d6214baa681416369b898df);
    Doubled(0x200, G9, G10,
            0x10508f73d5f4c02196ae02faa2de936f3b0ea6b8bc3cddcf33daac452ba74f29effd7a1b9b37af26c5f6f4cb6eddef80d3f730dfd3ddabccf6a03410fcd29c40,
            -0x41a097328128d169f60d01f1535eab7306ffca0634defb421737d05320093f3f0d9e2ada63c2b6ad017435f274ee53de68e3eb0ea3b564027e313b636d1b52e);
    Doubled(0x400, G10, G11,
            -0x13b2a474ed717278b0c67dbcf45ddbddd74966380a3d6a302a43f610c9b0a32c9c782b2d91c7952f64110e1e660495516889e1a3f7309965a4c60ff986d21a85,
            0x1acd92a8a7cc8506427d3d8c6bf7874835e3603f14c01d763aeebc50e5473bca048803181b0ff5cfcd29aacde63aa9521eef21f75a0ca28ddbc4fccf3a3ab49);
    Doubled(0x800, G11, G12,
            -0xdb098d0d3d1bb15e026da8919d4ef6cae053c26d4367f7ce3c4d461398220232370e7bca60701d08bd70262fd496fae6c17d469bf3b1ceeffad28af517b5a3e,
            0x9d048270d84944c2a939de0081395a935d0b79f5558e7575b971e83af46d91c7613727a05e69a768aea04e9f527dd4ca558ef27d76a945cc10bd1e62a5b99be);
  }

  lemma Powers18()
    requires Fermat()
    ensures IsMultiple(0x2000, G13)
    ensures IsMultiple(0x4000, G14)
    ensures IsMultiple(0x8000, G15)
    ensures IsMultiple(0x10000, G16)
    ensures IsMultiple(0x20000, G17)
    ensures IsMultiple(0x40000, G18)
  {
    hide Fermat, IsMultiple;
    Powers12();
    Doubled(0x1000, G12, G13,
            -0x5881ddacb6846cb4e014f4d837134045f535b185ab72c3ac079c9fc4625113a4469ad2e18f77062cda08baeac740f4211ac52cad783211edefb19617debe1a6,
            0x1ab122a84b978a45c5a78cea0fd3277226e05f034668e77cbe328437cecd1aa2d1f0aee1468e1793f3f775d9d88c5eb723e02d9a6c0beefb7e81cb5a468bcf58);
    Doubled(0x2000, G13, G14,
            0x2f57719e75c2c48883e1e04fcc49afc3ce8971de9462eb83b0e81a740a4e3f72fd176920c03bdfc835450afec431c7a43df87ae290d3fee3b7d0219a116acbe,
            -0x2c26cbcd801a4e7b4a8240d70b7d2bd3a09f6ebbecd24f417dcb183c58bb559b868af511d4c2b6284db73b3e4e1c74476fdaad01b0aafaabab60bdf14b3ca420);
    Doubled(0x4000, G14, G15,
            0x243c23fb558ef345844a41c8268cb12a11d88ad97ecd92ad11eaf418ce11a209202b754cf78e2b0434921c3002e52ca30aeae8492f1f3f04e4fb09c4bde2cafe,
            -0x19c32c00c9ad61b0e942d2631e11bee4743b9445193310ad2a89b9dfc178c11fb95b25a7c68d73c95813e4c3e513142e45b6a597671531d9783b08ca59429403);
    Doubled(0x8000, G15, G16,
            -0xbd0e2da7c79c57b82365a2866dbaceaf3b69a3a5a5c99954310c188165fbf9c90278da7bc5bc0bb9134e374d4c5ed1511ae7da938fd9a31f66ef873ed0df458,
            0x59d57c6bbe2ac9f23d742198551929c78b4fef198ba20ac20fa1ece6bfaef49600362d58ad43e548fcbb91488e26cbbb4771361f9bfea5144cdc88d901d3e14);
    Doubled(0x10000, G16, G17,
            -0x185a8fe328c8f5ba066f07b25d58b62bdd8d4c7acbdbe30db7099e107b0445449f567cdd4e3d63679d3b53cba84d31d94f4d8ba4d39f6d685528c1f20e1c4f4b,
            0x1bfa80f2298a5bd6fcb99edb9785df2037fcac796c24d2100bc0c8eed0382a8835464b3aa2a510a28501a7922a2711ed593f944404ee94f7800ff8b62e9ddb2);
    Doubled(0x20000, G17, G18,
            -0x2c267196c5cadef65069714bfa0406afe0cdde687b5abe8b92e5a4b8091fdf8b3d52adc95da7d1e93b8f8b66fc9b8aee37a5bae223c9b4a1c7d6262982aa1da6,
            0x98633130b8c77ca15bbbfc4171f7c4f5db09793eac5912c79de8d878087497b3d5afd3b6eebf2aae5d723a11ee08f664577f02fd84bb0de1f0df4c90d976ea0);
  }

  lemma Powers24()
    requires Fermat()
    ensures IsMultiple(0x80000, G19)
    ensures IsMultiple(0x100000, G20)
    ensures IsMultiple(0x200000, G21)
    ensures IsMultiple(0x400000, G22)
    ensures IsMultiple(0x800000, G23)
    ensures IsMultiple(0x1000000, G24)
  {
    hide Fermat, IsMultiple;
    Powers18();
    Doubled(0x40000, G18, G19,
            -0xbf298599e3671ed4f39b703e69f9705ac1888847abc2c627653ab87ed087af535210d3a3f7b33fa8e399b03658da9e70b540fb689d68dd972dfa8cdcc127ac4,
            0x12493851a9ec4f5edaea345297e6bb6e775900d17ca4554a0a20f7be34bb561a53549e163b6b90fbb48a621eedb6d59172b4ccd396d1b6017c843dafd2353399);
    Doubled(0x80000, G19, G20,
            0x5c515ff8f7ebcfd9ca539d695e6e65e8056f33c5a4ac514383b9664ef6a78e80e8d9c9e1dd588214a69218df2610a166f96ce96d7836dc9ada314b77b35424,
            -0x6916af9d980e920661dacf969bb376df8fa8d442d958ad200e768d32a269cc98b90c835b0113e64143702bdfe14bd296a3eeb4b7b6ce6d49e1a0a0ac22bf74);
    Doubled(0x100000, G20, G21,
            0x77cb867cad0994bca6adcad0d05e5abc567193394b96f1aa49ab81da4f9b9a1b5276e3163b5487b1ccbfbe8c2ef3186029abcc83dd89f96188ca468f6e497,
            -0xbfd8d72b6f0dc67efafeff1cdc988538e6a7c7c4051c77d3b15803550f19d9da3e82e4aa8598656701ac5810161cc818fc31e8b06ab7befaf2d41fd70a850);
    Doubled(0x200000, G21, G22,
            0xed7208a8ac97005d1d821ebed95dcad3ad38cb79d908ed418d76a9fc8019b0cc55312bfaba0c77046856539a13685821e05c461d70086f7e967188702980cca,
            -0xb69604b758466ba4d25420917c6d30b0805bd3d78493a53402f956d5398d9c894551b35f463879a78974e82ed9c221f43019554ff54b188203ce8dc2b04cf80);
    Doubled(0x400000, G22, G23,
            -0x31872eb057551166e12c5344f75a452e7d415c18dc0436828280353ab43fbad8e1885a1889dd86d2058d76521a69831f992ebdd03d22a82a0123f48765814f4,
            0x4ccb0b084a260dc12695359ba89a25dd33440774881330de332a761da90575b02c5beec34424b16687c56e5fb42442aba2d891b39440df8a7411d2d3ef1441b);
    Doubled(0x800000, G23, G24,
            0x24754e1e3181966712f42336097656178fd0685d0d797f0c53bc1d4b4f8df8b61c8a7b43c478726488704bc53435edbf1c25300249777d598b4e602ebb8a450,
            -0x6e14d3459fd1833366d0ce38d29f0b3fdbe076be8444fcc4a5d493e4c63de5510d1ae3a3cea8dc589c77962e980522c07a84af634c4aa288c44d9a0567ba24e);
  }

  lemma Powers30()
    requires Fermat()
    ensures IsMultiple(0x2000000, G25)
    ensures IsMultiple(0x4000000, G26)
    ensures IsMultiple(0x8000000, G27)
    ensures IsMultiple(0x10000000, G28)
    ensures IsMultiple(0x20000000, G29)
    ensures IsMultiple(0x40000000, G30)
  {
    hide Fermat, IsMultiple;
    Powers24();
    Doubled(0x1000000, G24, G25,
            0x14a7d990d03164da0ba7763760e68060ff644e49b18e1eb17a04254718f889778a0c44991420369c1d73d986f05010ad39a9f6983ba12d68b5550c58b4a59ba,
            -0x3bc7b993015cfcadf5c71a24b24f7a32945068ec5e509e0c6ffaf61cb6211002711a290e92cb2aad666cf8e55b69288276b27a98c24cd4f1253c7a55aa2be8e);
    Doubled(0x2000000, G25, G26,
            0x2c287b6859d89707adc4aef39563dc39aabaa6ba1e82bb15f6280d6c195862bba47b894624046b1ab346b7f86b10066704415231939edbafb3547eef5b820e11,
            -0x17ebff66309da75ef8a5f6e0d75d37feb3545c4b9ddaf45a07319587da6a30c13538b746c6946ec74a3e82b8a86921ff4ff03392eca9e2286bcb78f710bd053f);
    Doubled(0x4000000, G26, G27,
            -0x9bf9670d121ce56472deefc785255721598283f9bf6e004c25f765727d80b21d326abda834386f3b261fd3490b84226f965b0e5ba8a764627820cb5e0f89a35,
            0x1939fb2127b3bef64b6066513a704aaf987769cc5a417f8cc18c60b471e78727c6b9db0fe15c7109cd4910febc9771e1986121ad7e530d41aeba232846a3832e);
    Doubled(0x8000000, G27, G28,
            0x93ee87291186c574948de126c818465dc64cd8713894c6755779f0190c26ccb9bb4d544dd93fed1c5c9eacf633ecbb0d164bc45560dcb3c07a470a4d41e7176,
            -0x469c511e298a3bb136a80fd33ac359339e57e54d7c5a1a0eaf05ba6ad071de9006b41de652c81bf33ec4f9919d0fc4ed0aefb5c3ac3f14522e9a13bb7c752c6);
    Doubled(0x10000000, G28, G29,
            -0x21aaaab9a9dbd55869abb705888d8a2c6fd086e097ff3c765bd5e8347d4c2239eb16d1515ed0a827b2c186fe9a923b6493fe2f17aa665d1aa74f6eb3c282179,
            0x13a36c2649534e77ef23c3167f75dc0070020a40d93d35e392535d497e90dd280e4720f7a053f26280f7d3790b8be6239e6cda1cf122d2de42a6e6152a522c6);
    Doubled(0x20000000, G29, G30,
            -0xdf2218be8b31ce98a3e40dd981481da9bdb38f7af762ce12b0019ccad409ec0110e59e6c64375202065175909480174f9c05131d6c6cba3fcaa2c2255e8249a,
            0x96ddabb22c45943513264b1b675df7a4df593722ea0d37b4d94a0c3a75482fd9e3d41b700b5a2b5db436612c55295185fa35a0c4317fe1bce123441ef7fc5c6);
  }

  lemma Powers36()
    requires Fermat()
    ensures IsMultiple(0x80000000, G31)
    ensures IsMultiple(0x100000000, G32)
    ensures IsMultiple(0x200000000, G33)
    ensures IsMultiple(0x400000000, G34)
    ensures IsMultiple(0x800000000, G35)
    ensures IsMultiple(0x1000000000, G36)
  {
    hide Fermat, IsMultiple;
    Powers30();
    Doubled(0x40000000, G30, G31,
            -0xab2e419f03ff8db3f25c47b8e0ae72ee69078c86587889d7dbdf689f09955fea81e5ab5127dfb2e84ead9d474770d39f68a55fd336f05295509eb9b22273ff8,
            0x85e7fbba128f1f6137044da5f5421dd7c7f257a704141e0fdb6fbf5201b5f90a1461bd04908cc7889a3654fd2294e1eff2a552ebff4d884b990eb113e33fe99);
    Doubled(0x80000000, G31, G32,
            -0xd726dcb246f41dd085e8eb16df1e8317dfbdf73119d909202c5e3c637b5925c1abfc897e2561ab01d55eaf71c407539e95817ef07d9c0887ee9c9184688b584,
            0x130d06013b110fcf934fe9b34087ced95fc6985504d5862d07126e25cc99c09df7aa3691bc585bdee078b1202c326e851964e695adc4a237cbcdac8612b5bf28);
    Doubled(0x100000000, G32, G33,
            0xdc64d3c64e66b9f4a9dea6de52b101b1581597617dda2e9eb7a7a9dd453d92cfe31431c4646eeb18df5865270524a4fa99c6566d624dd0d780309dac60ede37,
            -0x152070033b93d7860233d37ff4edb4528154a50cc61170c91990d703c833b220bf1fdc796269f57316889bdac76ee8fb7fcc819e92fc87807fb42cca314df0e0);
    Doubled(0x200000000, G33, G34,
            0xc20dea5d34933b85f58dccd1ee0b65a7eef71ea9e886fb67a3892f9dd39c811d94a3598a3a66d788fce3cf0c31485dd4e9af7865bb44d3fcf5b4592c6bfa6fa,
            -0x139d6eb82d8c270013a6591fba7b9a4de5134c088c6f7af1231e45a0660b232ddd35241937dc3ea3dc4262124d2a414c62ae1650a93d6dba3ec4919d4cda4940);
    Doubled(0x400000000, G34, G35,
            0x90410a2b7661551df6d8531aeabdc44e947f849fab2130973eb1687f032d3ee1698fc6003ed62c5b52f8edcae998e53623e65ee62078fdf0c3a60fb285a741a,
            -0xfc61a276f7afe3cc31e986c2c44c777160215600118c98123c540962b8adf3addb878d14b7beeacbc853f30e918e30ae62df4800bfde85874e0b252d6170f78);
    Doubled(0x800000000, G35, G36,
            0xcbbf528f35598d5d71dfa5f3436a5e1abaa319b8b8aa6c159d5e6caef90f57ebca98eb55e99b6d88fc7c0908ca0c89bb53884a4c685a31ef9f949d3d24b6824,
            -0x2547980325e25c27ef7efce16d898389167a2b0754c0e9cf0fba183c7445f82f3f0c0a040a147486db971b5703634f03319b58ba64d1df1da666a485578657ff);
  }

  lemma Powers42()
    requires Fermat()
    ensures IsMultiple(0x2000000000, G37)
    ensures IsMultiple(0x4000000000, G38)
    ensures IsMultiple(0x8000000000, G39)
    ensures IsMultiple(0x10000000000, G40)
    ensures IsMultiple(0x20000000000, G41)
    ensures IsMultiple(0x40000000000, G42)
  {
    hide Fermat, IsMultiple;
    Powers36();
    Doubled(0x1000000000, G36, G37,
            0xc01f3698eeee9960a40213c121df2379ad6991de78008055aa32a04a069f01766d30a2fc7ef9d3e122c463d0205cd06def150e2d4947b4eeaf80c9be29812d0,
            -0xa19c4dd5556dd0796897ed573ad83ae1028d80e6da93ef6c5e279c82da2b56e5c2db3f9779e5238d5fce596139509af35496fefbb749eea89d087134804e2e4);
    Doubled(0x2000000000, G37, G38,
            -0x21c245d692972d4738a1db41e1718bc82eaffb1d0e9391ca13266d274be55bbe0e8c47247fe4c7facdc9995485b7fb3225a78a5414f6bcc9176ba40778830,
            0xc58fcad0163239b9f9c53b39e79b944a212e004250aa214a218f5574018f41c16acc44f18658ce3e0c4be63dc587b314b85fb21d1cd2ae05d2e579bd7ab35e);
    Doubled(0x4000000000, G38, G39,
            0x2768b45b4957fa326e62bb609e912d0337f4720f6868b67605779dad3ade3b9bf67f28d71ad2eb39df71a746895e981725a4f35aa315b39d9f421599d18327fe,
            -0x1bad8e31f833cd6385b2d0a0cff6105f11232b49518b29440aa305c8f3fb51a635c0bd44602a6c4d0a4627e61c55fdfa199041bc7a500b9c2bd19b80fd2e83c);
    Doubled(0x8000000000, G39, G40,
            -0x4ac555bfbc133c34b8c100c4e5d07d31e22875da6c90ba1e17371af920abd18167fe605b38e6a6a1acebed8d1d67b3581dc9a4b3aa97835080905777de29b2f,
            0x12938aa7eeaf1acd5a70aff09f57c21069d8e74af520f0a5b5a05b0980c8998f5e0a2602b8e4c90853ed08eb547002e5bd0328572d2b4535cee4dc35d4e33b29);
    Doubled(0x10000000000, G40, G41,
            0x658f111a7a1977c3e7505e9dbc129cdc7628c2e1a7f587ba9b664ebcf210ab778507430c1f574ba6eb7ce70396babb551ce6d92147e744d9c97b57b6749df2c,
            -0x234d4d811eedcf70cfe7156f965c13836585bceeec4a14f83c56429d9ebce7d071a6c034ad9de3e1590bd0220534961d482a3db15e9a8b59edc47c58f61c015);
    Doubled(0x20000000000, G41, G42,
            -0x246610740155ce75fa26d6b9352d343603fc5cc4d2720e317fe5edc6c910464232d99f02e59b1d2af01f3738ae9e5bd403599d5de4fa2cc95d612e7af7eb800,
            0x5e35338d9d22ef221b24c02f790f4ad123c9b8f0ac4956bbca86a8fb0f69053f5f2a93a00f0e47fc76d091a24315d8d0f344548ba3885852e31b8bba3925afe);
  }

  lemma Powers48()
    requires Fermat()
    ensures IsMultiple(0x80000000000, G43)
    ensures IsMultiple(0x100000000000, G44)
    ensures IsMultiple(0x200000000000, G45)
    ensures IsMultiple(0x400000000000, G46)
    ensures IsMultiple(0x800000000000, G47)
    ensures IsMultiple(0x1000000000000, G48)
  {
    hide Fermat, IsMultiple;
    Powers42();
    Doubled(0x40000000000, G42, G43,
            0x93d6fe8642a299aed3fde0eea5641d3e5c6003cefcc8166ef7a24a54ff168cb1ca98c9f65d4b76a8c36b2d38dd558fc1defba307a1afa04c98e57585eb7e364,
            -0xa9d12a326254901ca42e778551211739a579e11a520bd5a3a83311bb293751d95d780f9f5fef40e7804e72f4883dfeb35604c92936feb941389be7b5c9b8eb8);
    Doubled(0x80000000000, G43, G44,
            0x68cefa2f19bdf56c594bf601b477355264095d898cbe692a36a7eb83c79a3908fa4e346e1e7af81b0ba109336cbbaabf2571506fb5885ef188d78be3fa4bb6e,
            -0xa01c7f5c45ef3e927c02902e4d1ddad81c4db65c1c66302abc4a8387e80edaca1e645786d2b13cb6f60f35cddc9f842dd36a1cdf6c84965dfd05d17fea5ff96);
    Doubled(0x100000000000, G44, G45,
            0x166ded11d1bebc98d4d7488e76abec8628795bbfce131da8368b91f146ee34e8918299063ccdb1e59e15e73bf5b63c999339c7c129988c89644295f40b85f839,
            -0xd4c02108cebfae3d6fed56e2f89ea10597fb335d6f9da66584c25dfccd64fd0f9bf2daff2ff8fdb6e0eac2f5980f94aa0e1e9c9c7518599b16777fc02613673);
    Doubled(0x200000000000, G45, G46,
            -0x5c85f3446f146f3b540ec58f57369e5d899370e62b9cdbc77751dc4282d989ddf1c1f9546cf0a5f2520f7949a642fd7885503df478e3967b3b33eab7032dbe4,
            0x7703d5279860f86e6db1e0e67ea26a53459f0c7a6fe9c37be022528a860e266670acaa19ed658f987d454af2f53c428fac588d7c718d93b4e6d9142193c14bb);
    Doubled(0x400000000000, G46, G47,
            0x3947cc6787a40771f18e1fe81f1a2c4bb3c106faf45d287fb1c8f4a8b2f238a0d688aa356337c69b5f98209cd1bc00a663db25f55ae352dc53ceee352c03b90,
            -0x7800f86887f87be4b46b8c38f886dbb29a2200f06102aecc03e37f0f90445d756afead74cb180635cab6850249e1c0aca5b585058405dc05043673fb78a6e4);
    Doubled(0x800000000000, G47, G48,
            -0x128f3ddf94d2744d83c659877d394fd416cb22eafd3d0ac8afe8f66bb452327b81f5134284a2c9f63bf4eccfca74938f14611892494660399857aa4b1059f49e,
            0x12269ec4bc5465e2fe2106df4d520f75873766aba4b27563f253df821fb7c783ba20883e33531b8ac3a52da2825dd40083b2173fffa9a9dd2e52b384a58a7fa1);
  }

  lemma Powers54()
    requires Fermat()
    ensures IsMultiple(0x2000000000000, G49)
    ensures IsMultiple(0x4000000000000, G50)
    ensures IsMultiple(0x8000000000000, G51)
    ensures IsMultiple(0x10000000000000, G52)
    ensures IsMultiple(0x20000000000000, G53)
    ensures IsMultiple(0x40000000000000, G54)
  {
    hide Fermat, IsMultiple;
    Powers48();
    Doubled(0x1000000000000, G48, G49,
            -0x92e82d188991d6b6054af80b757227bfa071454f70d8eaa8815a466375321dcb664353cf365a116e59c0b75fd3558952aaaab7dcf72eb9dc2f34ce398c3b18,
            0x97b69ac220e9572f995063e87eb41e3d0234f1ecd159d3d605b69504775a299cbc6d7562533e045a00101db8d4fcbefdaa59496370b2537a547a2f6acc3298);
    Doubled(0x2000000000000, G49, G50,
            0x1e923193272add147a5c7286cc7924ff8c06695eb8acfce459ff49b66e0812bfc1274110208268f22ec60f4f376d948297f91b64d25c9b26259a2a38da3fcc,
            -0x9c12a2839d944fed1d9e571a83b571c1144260498a01a618aca60fe5f9a053d9a9b52488b3e2d7bb465ebc6fa91a7709adaa45d927e58d1b0a0054c223ddf);
    Doubled(0x4000000000000, G50, G51,
            -0x5a976be7e7fa1ae8282fea7b32c3dcfe4ac1727220c76b9ec9232af605cd6c6e344561ea6d7b75c25ba6282fe4795e7a07eaa55177b0a149cdf8f9d7248a24,
            0x50776fa6e82b12e2b8a0a052ca144525c9fefc04a64500e13eb519c1436972971bcf116cca49df1f7581f423d91ae439336c2dc20f25cc865a390a6c721192);
    Doubled(0x8000000000000, G51, G52,
            -0x270aec239ef7dde43ea9f3da1fb310d3bc843d5f22b01aaf1ae5fbb4e062ee3a55431210ba733f9740dd6f914ea5210f87a43ec6893f0144655109039939e,
            0x29b1c4cc82ba542e384ed4cd748324989a4aa7066f12b2ff643222d45af2baf2ac41998115f5bd5b207a0493f4d0a65fff3b36ef00780a09c44271c3e1ff8e8);
    Doubled(0x10000000000000, G52, G53,
            0xc83baaef11e7bec4a786983fbe52c105e9bb4f7b360d213bfe9a8fd856a190335251b96c739397578ebbe9b6af855c0386a05f11423761cf6576ae675ed17f0,
            -0x243196bdc5e8676d20fe393e13b65c2a9b58d4fa7c92c4cf6583ee04b15ba7a8b80796500caba310cbc00916a269e791d7b4d020f70f234a17cd0c79471691d1);
    Doubled(0x20000000000000, G53, G54,
            0x1fb31922c28fa7213081c1c3af209adf1864c20d815fc7540f8fa7eaa6d935e4cb0d251814382c22df6a1590619a7668465bd626f3a1f26d209f21e46c48290,
            -0x8a3bf4e18bb8b62bc30211eaee2a0a113ceaceb6a38bfc243a75f6b6303dd34ca403d9a20a9b1963ee980f923dc1d4c09392a2d72f7f4d5c38d6271145a13e0);
  }

  lemma Powers60()
    requires Fermat()
    ensures IsMultiple(0x80000000000000, G55)
    ensures IsMultiple(0x100000000000000, G56)
    ensures IsMultiple(0x200000000000000, G57)
    ensures IsMultiple(0x400000000000000, G58)
    ensures IsMultiple(0x800000000000000, G59)
    ensures IsMultiple(0x1000000000000000, G60)
  {
    hide Fermat, IsMultiple;
    Powers54();
    Doubled(0x40000000000000, G54, G55,
            0x129a712eea69fcba005140998e52b9cd6f1716c99f2e4a1b70c9ed1ddb8292b6af2a557c9f391c4975065947bf57e68866803aa3ae378db1322b0a625e2eb6c,
            -0x5506d586b66969c0db016a915f8ea168d6a43e4a2f9b624e9ecba5884393d52d7331b8761952e25564b78de5692deea21edf51df0d0f4a53635113d7a9c5f8a);
    Doubled(0x80000000000000, G55, G56,
            0x2f3a6c999627c8868e3becd11fd84196f611f68181aaa73532215912c5b3728b7a6b7f8eaa677906d8de3c8f50ecbc29ef74408ed5dc4e8dcff1484f1d6d44ec,
            -0x17cf3791812ca777e29f47b57b6e775eabb925863ff32ac2d7893969d9b26bd597bc4ddb9cc0b939ad616ce715d5d771c93a92f529a87148795778c7adc098e0);
    Doubled(0x100000000000000, G56, G57,
            -0xe2e3f15838b4bae198ce5c99599c92fca63a5373b6245d4a54e827867d3e2921faa4048062a92117afc19378cf047f22b828c3c6e081daabc62e88ef54d9298,
            0x131eab4222bd401e45fd4beb792386b26ef7b2f0fd128626172694b0198364eb4d81a76bd6bb775420f7a3141118cb2b6553d1a294dc3315aecc1587a99b6340);
    Doubled(0x200000000000000, G57, G58,
            0x3d2ac1ecf4e7e59528da388048b005ac5b2ba58f8e26b215a94b3646e1334b510f023986f66c75df344d35c79cd97a882b1d19054432668df1b8e608aa24a1d,
            -0x67a4acba01e2b3051051e8bb281341e2fcfff2421d579435f21fc6b4e5787d5108a1d38b97112fc0a496d77a135bab179ae62b8f7d7c38e007a3ffb8798fda2);
    Doubled(0x400000000000000, G58, G59,
            0x1b266e30c30290241b20bec0ebd670e1ba7321d3ce74ca8b7f5220b54b83635645cb8ca86694e4f0c2075a48aa133e4eb499f572141a65790c93f3dcba3811aa,
            -0x655f5b397719253f29438fd637ccd64712309e4e5dcef535e0838ba4f2fe78f5150e452aa1b9e2c9de46001b1461c0d78bd64accc061114c1b8e333dabcbc74);
    Doubled(0x800000000000000, G59, G60,
            -0x1d68804e6e7484c01b23eb38bad2b385fc8507ff5e112c9f5681309d568894bbfac1557732a6111f727f605ebde5123cb7ce45f3a7efdc610092a1ce6850cfe7,
            0x242725b8aab533585cfd0877d221f71d094e9db8f4f19dc4afe6f9779a6835ec6940be1cec1920b5b74561c5f176865ac3900c94757fbb4a4f10c0938806971b);
  }

  lemma Powers66()
    requires Fermat()
    ensures IsMultiple(0x2000000000000000, G61)
    ensures IsMultiple(0x4000000000000000, G62)
    ensures IsMultiple(0x8000000000000000, G63)
    ensures IsMultiple(0x10000000000000000, G64)
    ensures IsMultiple(0x20000000000000000, G65)
    ensures IsMultiple(0x40000000000000000, G66)
  {
    hide Fermat, IsMultiple;
    Powers60();
    Doubled(0x1000000000000000, G60, G61,
            0x3d80c4b5bb043f4bc4f6e626cd1939453b0c2b046b58822ea5436a4efc2e7d062662288000a2cfe2697e462f43b4fbe31db3b2c8abcf29dc8c29cf678dd2907,
            -0x5f20f6a8fa3014b9fb0e974fba7cab3981639cc3ef9748992e4768876ddeb77d82b6f42c7a76b3b3f423f48f1b6dddd36eb35180f75bc86820285d65988ce87);
    Doubled(0x2000000000000000, G61, G62,
            0x3f76b21994a6f99c702493ca82cf0316bc6d843f75d920e3a16c82ffc0c56c70ccd3b501dac9aa150039afd71beffbc8a2c2f70aeac43ed113dc29acdac84dd,
            -0x2f6cd6386d692dc49a41e1f94118551ae566cf7ac86c24ea0ee718b5214fd41aaa188504cb7410b911fe7660a1b57adf26adf18c01dda1e6d7403e91f2b5f91);
    Doubled(0x4000000000000000, G62, G63,
            -0x70bb80387c5d3be98b8b4edf8b60900f64f7af7708545851f0f6a30e8dcbc94df62a82135686a4ee7d7e035b28fca48ce8e4f0d55d80dd09c235e467eb4eca,
            0xc3ee0194f652e4621b431814eddb4ce053b812e14ed3dfd2ef2724688868d4e7d93da89396e6975c44662ebd518479c2b624db45a020f15f4a828d8be34c042);
    Doubled(0x8000000000000000, G63, G64,
            0x270f1091ba3d701e0548378e819652710f179f9e2e03b96939c88091ac7a0cd67d7db76944ef6d4b51561d022690d6c3d6a8f9df2d4a3aaf58ed1bcbad26db4e,
            -0x140b020a56357ec8c80717e5557abaceb17d3a09692ead7d08fad1acac48adc4677cfe5c27e9149eced3f9f5ff7acf94195c3ee46175b79dce8620ee32498be);
    Doubled(0x10000000000000000, G64, G65,
            -0xa7e002f9138684ad497409acd1136479fac02ea5678f8ee0b22bab12ee801137667f6cf5770ffc3980877a15090180dacd2074909017d225a996d1e81d907d,
            0x16a841e497d2222b0721442b5afc9d1f289c8f97445ab09e3366a7efd3b400478700ce59a543f631242fb90b16609a88722a248cdaf79dd766f568444629168d);
    Doubled(0x20000000000000000, G65, G66,
            0x13d99f205405557426db5efe79c98701713f9c80927c236255f5843113c87fd4c9d8562f0facedfa7d1e9084b0f5356e2672e2319ec15b63d8b9ee919dffb0e3,
            -0xf62eae241c529aa732bac9a660f50017e20fec9541a1573b2ecb96eca3b70021a3668307cd2bfa53b741692079aafb783c96cc3d666e9860d58352f3c6f022c);
  }

  lemma Powers72()
    requires Fermat()
    ensures IsMultiple(0x80000000000000000, G67)
    ensures IsMultiple(0x100000000000000000, G68)
    ensures IsMultiple(0x200000000000000000, G69)
    ensures IsMultiple(0x400000000000000000, G70)
    ensures IsMultiple(0x800000000000000000, G71)
    ensures IsMultiple(0x1000000000000000000, G72)
  {
    hide Fermat, IsMultiple;
    Powers66();
    Doubled(0x40000000000000000, G66, G67,
            -0xfa23d4e261c5bbc4e3be96852e8bd00d41acdf0c9c8b7cca20af0a5e63fa6978681260cec9e8c355a1c553b57bf0daae360a06a9b277d68e6512eb5d85dab96,
            0x3c3d81fae995f2322e908067cfebcb8359f02c03cd3c4c80002751c7cd115089bb716a89a79b1fac16a7a66f11f31d0d80ef3644a0da7c7153dd59517a65e08);
    Doubled(0x80000000000000000, G67, G68,
            -0x25b1744673af5dc42502a921faecec23993b8d11389666e876e90329919e7d67e4bb92764cc59d35f156efd5bccd750bf6b2af85176e2b35c1396da40b805d52,
            0x136d6e9fbc6d6ae051c34c54a8c7da3b6486962357ac3edad6306590ade1d82a656ffab05462dc4cdfa04fe5b79f5f53e335a8d7766df02eb04e5a84dd0346d8);
    Doubled(0x100000000000000000, G68, G69,
            -0x9e066a2e8e79a3fbaf792b2264160e35692e10a7715a5521e7d36ba2d42e3ede18a64c3194f7ac9c52fea77400b6200d860586db89b2a9db92b19e5b216b849,
            0x2321e2ff19f9169d6bc52caad63692ba3e49481f406142593277063b1193cc7294a3b4a3d0c38338077b3cca1284b5b92c4a70678f73608c8634bef0b1c0e1b3);
    Doubled(0x200000000000000000, G69, G70,
            0xba0601686474ae1387b498f4a8458187f07b308fd8a56a89e95495b6416ff5fecacc848877233fb478526c2f021b83843973c91e6486e28bf0d2a575b96d840,
            -0x244b962794d16c6cd3f1e92f38d71beda7426a38376f351a6cd0ea7be9df6577eb9748cbb9dcac97c1759e7a914874996fa2482c38f2ab5ff19c5cf1c802db4a);
    Doubled(0x400000000000000000, G70, G71,
            0x10c3a7a451de13693377c1efc69a3403d4b04c6970c53b3601df90ee9714c5a703f5b3af199f2be0dddc458e9be3f326b9cbe17f6a4b90df4a61a93e8178d59b,
            -0x223c7239dc7b0f378c1f0d4392eab297a1fac23c2932c15bb7bc6486df4d5626d2f11b12a254e226be602a82596b1c12a69a1a7f55b2184b7926b8952af36f4);
    Doubled(0x800000000000000000, G71, G72,
            -0x5f68ca75c99b497e3aa9307e057b766789b23a330e5ff8b6e832b5703074a0bdf56f61af8a22cbe24eba1b05ce02a38083cb38ab0baac7428a63cab63609d26,
            0x16b3c49eff95f79aebd174f15ce353dc49bc5c7e432899635e4028896eb5c34a2eb8da900013d687bcb63beb1deb5517826480540024b31795fa84c92b153ba0);
  }

  lemma Powers78()
    requires Fermat()
    ensures IsMultiple(0x2000000000000000000, G73)
    ensures IsMultiple(0x4000000000000000000, G74)
    ensures IsMultiple(0x8000000000000000000, G75)
    ensures IsMultiple(0x10000000000000000000, G76)
    ensures IsMultiple(0x20000000000000000000, G77)
    ensures IsMultiple(0x40000000000000000000, G78)
  {
    hide Fermat, IsMultiple;
    Powers72();
    Doubled(0x1000000000000000000, G72, G73,
            0x2d20b1d66c540f5bc28d0514e200010a3af37e1c97992682baae608f3fcf2ed6d47608ef7f035cf91e740277e517e2d705d38b323cf33d54f6621295e19c01ba,
            -0x2ba34d4f822a6f49cf01d87122c708e90dc896c599745b9014a409b55a20b4e8d55d5e630e0857f7e78a0cbd1b8facbd7238572da99e4f5aca6b88d19114bc1e);
    Doubled(0x2000000000000000000, G73, G74,
            -0xc573b9b9995a160aa2f477825ccaaace79ce810c7d637be1578cc3ec16294f7eaa22db6a3f0b0fe556ee3841cd019b45d818cb85f2e7dad414d49ad0153240,
            0x26c8d86a80daf67c52c34c6ee36b99844e9f80bd1af5c6fb2526972c9a6e6aa2e16999e706243336a286ac74a2df9554429bc1a006723471118193779a02bfe);
    Doubled(0x4000000000000000000, G74, G75,
            0x1358c5154f617ef2fe0e405489205aa958b837f015f4a60f7eb144d36806ce88ad2e9ff45946e1e4a71905edba44fdbd4ec8e7584a6bb7350d4f61890529efe3,
            -0xaf91bff9b6e3250c340d72f546dd08d06a0173e78f8c0cb334e63ac7736b9fb28fe2bb8e1417ed00ea020cbdf8365447cae48be18b3862b9897e4b428dec619);
    Doubled(0x8000000000000000000, G75, G76,
            -0x3b5ac88fbf006767aeb2b45b20fde43fbeb1a633403d09f1533fb13782679d9f934c3a43446db9aa030410c42787b7cf2e4e020b3e3acba55bb41e08c600fd4,
            0xa8a197348ee3434237f274a2736a87cb4b0eb19bd39f606c222ecb7def161dc9ef08ce5611ff738cba7d62ea99cad2f15ab806dda406d9bd76ec3ad11acd890);
    Doubled(0x10000000000000000000, G76, G77,
            0x6ee27847d1cdbf5177166f820a2085e1168cbf4ebf9478ffc57f1647a2546233dc5dc5c67aa0b5d6120c4bf1861165135c1a981c253444ec2bad3249bf7fbf1,
            -0x841047202b4e5ee4b89941ef5d9cff5a7cb3dad67ac119507e4453325b199bc3313237bf29161581be0d33f26068f512652054968a4381590b42bac1521d63c);
    Doubled(0x20000000000000000000, G77, G78,
            0x7c8817300fd4445af5f1164030db8bbc500227a8b3a23fbe64b9205cc35e89554f40cc1d407ac400a54df68e6b22aff7caee010560587e78a9087675bdedf6,
            -0x3f6f957835dabb7771eb0b19e3caa71aa3031eec7ea53fefbe9f50c0786aef5218c35f3d059fe959f2f7ce6ed9139b7274ec2c9fcac4d6b7d1b7dc4bf9a0c6);
  }

  lemma Powers84()
    requires Fermat()
    ensures IsMultiple(0x80000000000000000000, G79)
    ensures IsMultiple(0x100000000000000000000, G80)
    ensures IsMultiple(0x200000000000000000000, G81)
    ensures IsMultiple(0x400000000000000000000, G82)
    ensures IsMultiple(0x800000000000000000000, G83)
    ensures IsMultiple(0x1000000000000000000000, G84)
  {
    hide Fermat, IsMultiple;
    Powers78();
    Doubled(0x40000000000000000000, G78, G79,
            -0x111532c5f76471f6dcc4499ecf922a3f8622b6f83dd2abedb4a370ecf98a41872b25ff25e4d8dace749e5aeaebef1109aeb0f22e8a6f1c2782c70b531899ca8,
            0x18dca83d5417651fb89e2b7533600cee72d9961790da73bb76a2b02f0fe0012200c8cbd0b126a7d7269bf69ef1e6b3376e860b4efe789a6771af95cb8e52f40);
    Doubled(0x80000000000000000000, G79, G80,
            0xd2279a2c3b3cc72987d2513fb856fe67da74d859eead64c0ed5dc579a116385da4667a25bbc46af844b6a1603c422efe11d299d8a67c7f1df5772c21c6e3e0,
            -0x80d6f6cda7e7749ad5dc669a1b3c11ff97c3b29e6ec683463ef26fcfba838d30acb5763efdba4d6cb267ac92b7d01a8f60c9ba6add40a064791846f78db078);
    Doubled(0x100000000000000000000, G80, G81,
            -0x190f184e88f58a64e8ef5b1e445ece3550a3585765100d3f0634101841bc47157699177efad5f4bcce8b76082b16dd5757d4a1e4472ae06f9e8bcbb1a5d076c,
            0xcc2eb247348119f1c4c784e0e70f8fd34178791fe8fcc7a5fe77b297c90524044637a94d9e80b89e545847805b79aa0b625628e0ba7076d7dbaa81e3f2e9b58);
    Doubled(0x200000000000000000000, G81, G82,
            0x1bc926739abf17495be5f0df5d2748d2cf5db1e8c9188be7fdc23bdc5cdb83123b0a3f4a56a7c57205e277017b0e02ee1a45ddd723349256efea53e92a9733d,
            -0xf5ea2e391faf6b193592bb288a642eda4da29230721438a055210ab00d6263a8a9a8d7234ceffffd9fb46172db15675ec2717d870ae6b717711fb272eb44ae5);
    Doubled(0x400000000000000000000, G82, G83,
            0x3498103b445fd3a2381ed771f508268516de795f0f4db743d30e0b7de0b7c88c838069cc84a11dc08278745e81a519cdfc63a4f02cfe67d00c28df720b75c05,
            -0x19742082b168469e7f0b84b2a5b7e40e4d9fbbc18c79bb70168bbf89fee4f75582193ae33796497b1119818ff0ecc75a07f4620a14c60d675ec56ca9151d8398);
    Doubled(0x800000000000000000000, G83, G84,
            0xe2537483075b6b659e80205f26c243c684e535d4f860d1a42c5672e4f15f7338767cca151caf768ed4e2bd01dad567d2a42a784abcc615b0230c978d14ab41e,
            -0x38cf62a386e3e614ffd7f00f39741ce9a2ef9d1faaf624afe00c4bb5a4d483680782bea3ef0c3250d10da884efa201c7cc20db052abdb52b31415cd0e44ea86);
  }

  lemma Powers90()
    requires Fermat()
    ensures IsMultiple(0x2000000000000000000000, G85)
    ensures IsMultiple(0x4000000000000000000000, G86)
    ensures IsMultiple(0x8000000000000000000000, G87)
    ensures IsMultiple(0x10000000000000000000000, G88)
    ensures IsMultiple(0x20000000000000000000000, G89)
    ensures IsMultiple(0x40000000000000000000000, G90)
  {
    hide Fermat, IsMultiple;
    Powers84();
    Doubled(0x1000000000000000000000, G84, G85,
            -0x10779357ebf25256b0abe6eeb9a790c281bfca0b27895999e39036c9ed76ff5c24a7ee704f9b7a0378c48320170d6a8ce16f3d75ea008337a401e13b9c2e6d8,
            0x68334f4e1e560c5f1cb6260af701a20d6485b637973f7ef662d822ca9f90c86ddc31be5bc5ce0e91e1a0bdec70840e2777e360a5a46b3e4a6b2d40a78b633ac);
    Doubled(0x2000000000000000000000, G85, G86,
            0x39232911ecd518b77c9dd5b2e8e22902ef9fef6f8f2b8adcd90e318dbb0cc8d81acbce6fd7b1b005551a90e078bf04cc98790029d7ecd824e0276890d240dcf,
            -0x96845b23ebbc70cef057cf3acd6448243e0777b47ea23b9ab2fedb0b0c47d82fb0ca0960b88f45d33c51231e62ea5e3d99a4f303438e7b9ef69833d756b3d74);
    Doubled(0x4000000000000000000000, G86, G87,
            0x174685651c812e26ca8b6c7a2cc6c7476cbbc0b21b7e93162a77397c65d9b834dd66cd5d60bee39add180ef65fc5f501826395a027c557d4eb357d5001e63da,
            -0x8f7f0327264e8e52cffca03d02ef72a6935a49642ee72df3ded9912a5762c002e1902814d1b7410797c856e3b113bd9bb3369496b973352adf2209b0c35e384);
    Doubled(0x8000000000000000000000, G87, G88,
            0x3e3780e2eaea439eb5f793079a762ce65260222bafaa5e937cc98bd7624d71b77eb1474dc95c0acc21bbae95c5dd9a14e9e25771785d26d1937b2060959471a,
            -0x248821b4a199d4651cd072c001f530d590175b055b5aa9da7292d471cc275cc90b14954786eb0dd783708a9609ed184412439ae76bd752cf54cad43c19ce656);
    Doubled(0x10000000000000000000000, G88, G89,
            -0x161a80daaa66a0f5801eb3415d80ffcfa432f13bb019bcb6a911b4f7192ab9fe450ea9db8393702465e49fb412dec88610c801b531161ffaf2febd529b27221d,
            0xdba41ab84f805d6beab512d18148d54e31a8c775a067d15c114233803a6915b7c5ba5a70e3caa94e3fdfdbaecdfd3e5bfe073540e7b45a5c963f7cf83f9e970);
    Doubled(0x20000000000000000000000, G89, G90,
            -0xe40b0908cf964b4115c1df3ae6dc8d8e8a7552d0d9053dcae423403594fa82643cf8e95e74628f3718b538254e726db7d9c7162c13214dcb4d1e8ef277897ee,
            0x1367c6834a554819457e6e8a34c513596f109831e37e3e8bd3240802766281684050327ae39376c8bd19fa36ff65c6c092482d85803daa31bb6bc7fba205c31e);
  }

  lemma Powers96()
    requires Fermat()
    ensures IsMultiple(0x80000000000000000000000, G91)
    ensures IsMultiple(0x100000000000000000000000, G92)
    ensures IsMultiple(0x200000000000000000000000, G93)
    ensures IsMultiple(0x400000000000000000000000, G94)
    ensures IsMultiple(0x800000000000000000000000, G95)
    ensures IsMultiple(0x1000000000000000000000000, G96)
  {
    hide Fermat, IsMultiple;
    Powers90();
    Doubled(0x40000000000000000000000, G90, G91,
            0x14550b7aa72377bb84731f3a8ee6cbe617bde12e854c4f266b1a781d0d69f39617eae3e8f3cbe1d7ccf869b967cea1771646d8b6f6afc2d745162f5630f6ef34,
            -0x30555e62aeac6ab3940aef70dea463debbdfbdcc432aeb7cf0dac8ff33efcddff45ed984fc0f93594b915b3988141697ba924062f9f10c4d5e6aaaecaabfa1a);
    Doubled(0x80000000000000000000000, G91, G92,
            -0xebf6285eefea287fd4facecb199d62a43274c319394384bba65de206dd3e9348fb20fd78a49b3bddc11265ae2d37efff1d0c36e733b637efdb4e58b777048d2,
            0x14306f35d34b9cf2e44c02ea98b00c9039cac1e9a40653962529e24f957b972b2b9c4c82a7a34c8b65c77fb2dee03a26782690bbc5c0a977671b7c01cf7fc0e0);
    Doubled(0x100000000000000000000000, G92, G93,
            0x1dda826974d6dcc0090f7566c0196f967ed354dc0999a39bbd57834730916ba8c001a1db92381eba75e71cc4b5369015012c14821a50c8b4c98239aa3508ba2,
            -0xc18b63af12d45016f63b56ca4221ba3cc51b1fca1f5b7d055ee7f153232ada691913700d87630974d20962780a88fc8d25a6a980cc9d7b1286176af0a46ed2);
    Doubled(0x200000000000000000000000, G93, G94,
            -0x12a748ae3d4bdb278d45ea5079a751e4a699d413074e0a0481c50abd0f816c14136f463434c61fa25b0a2d59e65ae4048fbc96f7c2658e59445b0282cbd5c911,
            0x2443f3d8ab598148b8d4dd7decfbb132002c1878ae088050569a37c940ade9b71c496e2e3ff71575457621cc821be5a3e322411a531a1255ab98cd274b262);
    Doubled(0x400000000000000000000000, G94, G95,
            -0x52916612f45618a850eb20a6b68647f2bd682cc56db2bba0f268ef44d3851b950c50192add00ce455d5a36a1a2e92fc2148166ba72751667c71cb7a9e65693a,
            0xbe5b44806b4011f240240b5eb83de41c97ff812230671e87fcc8000a2eee20d3be3c244af1884da43af99e3ee99bfacdaca26e008a7782b6bec5e8c5e5a6d6c);
    Doubled(0x800000000000000000000000, G95, G96,
            0x149ce8fe56e851ee0681e109369b0023a73547dcfa2e888afbb8d728fa3ecdacfd1dbfa43acd366b2ffe2d8a94919a429049aa5852c67d8e54eb80f87871208,
            -0xd7fe177a98f6573bb7d84ea697dd112841312144719421afddf5f30a43837ce2803fd950080f3f31f13e0831bac38d91ef839f27b9bae55b53eee988436020);
  }

  lemma Powers102()
    requires Fermat()
    ensures IsMultiple(0x2000000000000000000000000, G97)
    ensures IsMultiple(0x4000000000000000000000000, G98)
    ensures IsMultiple(0x8000000000000000000000000, G99)
    ensures IsMultiple(0x10000000000000000000000000, G100)
    ensures IsMultiple(0x20000000000000000000000000, G101)
    ensures IsMultiple(0x40000000000000000000000000, G102)
  {
    hide Fermat, IsMultiple;
    Powers96();
    Doubled(0x1000000000000000000000000, G96, G97,
            -0xa21f34a934e42281a6517953d6f0f71a454449972e82e4e968c2cd1c1ec380a0504756241da24c609960397aa573e60b070ccba238cad040d3e902365783d7b,
            0x8ee17a5303a7612dbada51a1790cb9c40e2f74e38ca3b307cd1f3e9681b82771ca4f169fb0ea4f5d4972e32e9d6f3872faf2bed7edd6761c55a47e933be4223);
    Doubled(0x2000000000000000000000000, G97, G98,
            -0x29de3d9ba51ab8418a0316d7ef24ca9c6a42f634ff703c5431994328f092b9456afd152f552314e4970cd20cb13f32a0764ef887a5034b7be5f7920698a2992,
            0x41abdbbb4d4afd569723668283bc5cd68e1af2c6fe2ee55494dc5ad633497056171711050a90eba66b767d347097ce46a244d99c01c6711c71efbce9552cd46);
    Doubled(0x4000000000000000000000000, G98, G99,
            0x60a7dfdcaf0e13f7ecef5d3fc244e5887949d05609bc99084ca4f3f0b17608b4fef12a26479e9eb4caaef64ed88860776d7f9fff5162f34fad652bab486dc96,
            -0xade302bdd49351d3c1d5055486d7af7a6f132bb252cde1e4d9ec97484318a137234f65faf989a46fe38eaa3207363eeddd30f144df8fe174c170842386d0b1e);
    Doubled(0x8000000000000000000000000, G99, G100,
            0xb907ac2892bedd00a4661e4197f1ec6ffb41049eda1ac4564809330054177480c7472d43e2064e1383ba6f98a68107a7a5a0d45fa3bfc6d09fcf7550d84ae91,
            -0x162e9024cdfe2a764df53cdcf085a35a76a95cb1b4cb88d158f8ccc66ab993b9c26115e74f0269c513fabdf2b71082a2b9761d574ac4a4a72cb4474f8697f905);
    Doubled(0x10000000000000000000000000, G100, G101,
            0x103b054ca5ffaf61360459e5910b02ccc21b3e7e2ff64e737b9ae7a24875fc9625377d96a3bcba286563ea254d533e197167bc95f93507d964d6f21322a20287,
            -0xeced62be95c4e47861c66cdb6683979b0bff8b96f01b77a205fa00454a7aff98efd4a09cee941991b2bdd414ea0d76c6e7b5f15b622604117591b8a1ef7a08a);
    Doubled(0x20000000000000000000000000, G101, G102,
            -0x12eeae3ed7363b26aa868ccbbefc3058ca85b791b90247035e7d26d7808e39f7629c0d07d562189520020b107a8029ee51f95e946a80d3d94eee23add2b485a,
            0x1849c13df469ef6b6db70c822f95659d9ba7fc02aad592f702dfe71ac3d7dfdda6247929b1e6a8e4246973886070c27f7e375033f2808db5770ff30ce320d20);
  }

  lemma Powers108()
    requires Fermat()
    ensures IsMultiple(0x80000000000000000000000000, G103)
    ensures IsMultiple(0x100000000000000000000000000, G104)
    ensures IsMultiple(0x200000000000000000000000000, G105)
    ensures IsMultiple(0x400000000000000000000000000, G106)
    ensures IsMultiple(0x800000000000000000000000000, G107)
    ensures IsMultiple(0x1000000000000000000000000000, G108)
  {
    hide Fermat, IsMultiple;
    Powers102();
    Doubled(0x40000000000000000000000000, G102, G103,
            0x5a31c49ffa49c96cf00072948951de30d48c7ecd39fed392e238a4b5f4d16fbd15e4d5bdc71dd2dd7931374c03334bd53c1f3aef4a33a7cc4b2a591f7129e41,
            -0xb5b8babcc663fafeaad8585f8044d8f4176a18366d7115a79b19291bc52dfbef6598ae715f4716e7c1fdd1a9b98f91a64fc6323ec5ffa763f288e8fd851c313);
    Doubled(0x80000000000000000000000000, G103, G104,
            0x238547a619959376b1085090344df80c65b7d74c41fc287a3e5ba6464e96724d349d59e98277a2041f6dba739d53340f22cff4ce9d475e231e8d878104df055,
            -0x11bd0780b2f623053900c7e0d63757feaa6977853497306200996672740791364bdb22c210c8d6051557e49157789757f161ee33729422501a955469472eae7);
    Doubled(0x100000000000000000000000000, G104, G105,
            -0x967c6265511b0fe91333b1a4e305dc9358166fc96344ec513db074ebc797925ba49c1689816890853bdb7ca8a324dd9e4ffcf66f8fad48611424bb0b8d05b7,
            0x228214501dec1691f20893b4ba8d312add2fdd86ba25330f6cbad1df48b93476d1dced343d777b36793062c7cc9d0b01a9b073ad634aac8823c8295597a876);
    Doubled(0x200000000000000000000000000, G105, G106,
            -0x2852bdb9dde41f35a28c04fd6b76b1ae48cc30d4a77c44b03ef340116e63f386f97fb8ea70849f478fe15443ea56b435aaa426fe9da4e6c24d7d86eff2c8046,
            0x153cfbdd8f769f24d06563da6a1f77dc5299bbfd0dc7a8985d5b481714a58be001fc9a67dac98a83e8e36df08e257d52eeff6260a5066af91f930e8db3dd5c2);
    Doubled(0x400000000000000000000000000, G106, G107,
            -0x4bb2eca4ab3a1176783d56ad3724310a4b04bc735b27e90160d6c3e5240171c759f7abbcaf7ac8f06533a022ed7abfce6e34c7b7ac1bdba354d9e5916181698,
            0x5be5a055ad5af4809f21d486b51f45482e360468ed44aa4bbd63b4fb23f7bc3c43fcfdfe93025c2a2f204dc5c0691c316d9f488d9714e8621496e09754a474a);
    Doubled(0x800000000000000000000000000, G107, G108,
            0x63fdee4274cdf7ac01a0fefed2c2a04fbcf0b914a115d59b41f8ed507c78502ce35c66cdab210b2c9344a0080c9459ff2ba94a030ef3af8d74c272b5defa46c,
            -0x44411882d19694d8108b0f5e9747d7786b8e62309f7761b59bb18ca8bb80704b8f9dcbae79edd13dc9d9597a4e9fb4d800b8b7723a79fc84792df7745886bd5);
  }

  lemma Powers114()
    requires Fermat()
    ensures IsMultiple(0x2000000000000000000000000000, G109)
    ensures IsMultiple(0x4000000000000000000000000000, G110)
    ensures IsMultiple(0x8000000000000000000000000000, G111)
    ensures IsMultiple(0x10000000000000000000000000000, G112)
    ensures IsMultiple(0x20000000000000000000000000000, G113)
    ensures IsMultiple(0x40000000000000000000000000000, G114)
  {
    hide Fermat, IsMultiple;
    Powers108();
    Doubled(0x1000000000000000000000000000, G108, G109,
            -0x8e8c4c103257b2d935b50527b62e909c68ac6d4bb15b736c7af39939077d3c641afd0b62136fd4301435879c5ad0721a1aa867802720ffac8a1f5ae9824d7d0,
            0x71b784284f6ddeca9a259394248be9775ecf648d33996503e4c156ac7fb0fefcef39c5d35f6c38465dbe6e59a2e99fdbb9637a7d33dff7efad563b29ef27fac);
    Doubled(0x2000000000000000000000000000, G109, G110,
            -0x108d338442c9c53d292740a2d66c87f8757d402147f72a2f950782f3a2e2246a73632c03d699d84964ad5eb0c5e214de9ce50471b9a7c35463cda417d54950b,
            0x3690758f03428f484c628b022685c74a1c7d54c754bb9ab3e42f835731cf97a05bfa526a66ad19813116efd35b60cc15882339e0fa3c0f7d5ebe8b892afd164);
    Doubled(0x4000000000000000000000000000, G110, G111,
            0x1bdadeb74d0964a2bc50495f9df23af6b3422b412f8ee326bcc80909ebffc926b89e5321f9b44a728e405f902ec960a95a2ea000f2091b3fa7cf6192f833846,
            -0x5f7c942a8740f5a64a82c1922b5e915181b722ea15cd100247ef61bb16e18ce1d93bdbad8eeaad26559d93a489340c801b86dd1fd7a22f7d284ef1082ca8ee);
    Doubled(0x8000000000000000000000000000, G111, G112,
            -0x9994c5f477fb81eb17150cb20a4fbcc94cdc4286afb4bcd5d9e58be30ef4a50889f25e779dbcdc569ab138764dba0f52a3329d146412bc084bf3e3d5ebdbad8,
            0xf91570119364ba5d5720601819e5d6451709e878a5d4a236a3ee610ebb9cbb067d13d83403b7d5292b8e4408ee9bb56d4977fb5780ecb2f7c477eedd44ec784);
    Doubled(0x10000000000000000000000000000, G112, G113,
            0x1614d1b19fa6430f0f7e4cc1588d60d3a683b6957b2acb2c79ea7fb307dbbe71a598bdefffa8d6a8fb84bafac3911af3fef81af476d5a1c101ee9b9d03d428f9,
            -0xdf748b274929497aa2b7002ce4dedaf388056f0cd864083774751f2002a98aec46870d11843155cbe8e935e03c92fb4cc53fceb57071ca08618fc640f780372);
    Doubled(0x20000000000000000000000000000, G113, G114,
            -0x15d38e891ed2553f9233d960ff56b2fb5282abf497f752d29ebf1b01836d780d09ae5c1af23223ecd352e9175897a2befc28152f7eb52744a9d6f56df008d806,
            0x1a0c00befbbe3df93f5cb2e834b9774d7fd2993b51acd1bfe6588ba72f6d4693bb3e2451313e50f1e5e5a82bcbe106351fa5083afa7aef4d99febb8ee52695e);
  }

  lemma Powers120()
    requires Fermat()
    ensures IsMultiple(0x80000000000000000000000000000, G115)
    ensures IsMultiple(0x100000000000000000000000000000, G116)
    ensures IsMultiple(0x200000000000000000000000000000, G117)
    ensures IsMultiple(0x400000000000000000000000000000, G118)
    ensures IsMultiple(0x800000000000000000000000000000, G119)
    ensures IsMultiple(0x1000000000000000000000000000000, G120)
  {
    hide Fermat, IsMultiple;
    Powers114();
    Doubled(0x40000000000000000000000000000, G114, G115,
            -0x3acf0f47435bc9da1b2d4f7259aea974e74cd11b633e281602a1c0a02e9f968bbb6b8953a13ed6cf3bf08255068dca8e3a00cefd3dfc1925b1208fd628fc2448,
            0x7b0e06addbf1fa5f7101735e836397c6c5a21639b4c35bf9309264f7e84574ac02fedce141a888f4f52a9337a93dc2e94f0c62c677de13b8386be0a4b3a5f65);
    Doubled(0x80000000000000000000000000000, G115, G116,
            -0x34060b8f6b367dd8bde8551c95031a126a5080c5d50ed4e21b4c43c6cf0bd90d799012e905d651fc97ff1eea08e7ddacbf6a7e4add10760ad58c6c6a0cde5904,
            0x1558073cb96a0be756a4e9b8f3ef804d46079f05f5a60a766ba521f5def8d11996d0cef5cd16be1fb8a87684fb09d72d59fc881f845ef3346040a3b24888d670);
    Doubled(0x100000000000000000000000000000, G116, G117,
            -0x7954e68d250622b4c0ec969bec4208c01cb744843d530ad058021e453e349634ebd66fe3792f67e7b9bc93c201dfb13f54611014e8a75ced94ab86e6384e54e,
            0x1bca9a0328a609f3fc581cc868488b8127985b2739a6d708082a24b33d587555932f98503b16c2d5a19099d7864e364a74a86d82b9eb850af115c84059a89660);
    Doubled(0x200000000000000000000000000000, G117, G118,
            0x11750af9ee78132ad3e635538dbf2ecd4b61e14e2ba05cd5454307efb2275d8026204c5ab9fdf2b668060cf78f116e74c3a86a8f4619d20b16815766fa6008ed,
            -0x14ad9830997d600f49d28a0d129f71a3a71673b44d5e35f9d7d289666104d8abed1bae7299238b97cb88aa962fa2d95126f55d4c5ad136823327d2186904e24b);
    Doubled(0x400000000000000000000000000000, G118, G119,
            0x36f0b472b4635b7d6f6df30c2c2541703b475b1e2a746fc59074da15688ab0594bae85a84560c2cb192c2ce8e36b85ba7f5602c613208516cfadf9bbd24ba4d,
            -0x6a99de80b4a49d3ab257ce346a0db00186b7f0f579ffcc668d998d42cf7f5ac4c815e27a78bec9789ce930e7b660e6a250cb613a302fd4ff73a1b3c16c23881);
    Doubled(0x800000000000000000000000000000, G119, G120,
            0x15931dd8c606cf4f4f669a8f11906fd4c5ab26262fca540f8701a6f051c00e537a69715551db872ed3f703377425b0dd6cda1c19972cd89e8fdc795a9d4d1d9c,
            -0xdaf6dbf0a4e9bcb8f66c3c05e9bc69ffd3f71e1bc3b0bc997ff15e99c5c3e8d157ad3afcf3dc2e5ae0e41ed9c3ca0543bf524c69311dd1b0679011fb574ef9a);
  }

  lemma Powers126()
    requires Fermat()
    ensures IsMultiple(0x2000000000000000000000000000000, G121)
    ensures IsMultiple(0x4000000000000000000000000000000, G122)
    ensures IsMultiple(0x8000000000000000000000000000000, G123)
    ensures IsMultiple(0x10000000000000000000000000000000, G124)
    ensures IsMultiple(0x20000000000000000000000000000000, G125)
    ensures IsMultiple(0x40000000000000000000000000000000, G126)
  {
    hide Fermat, IsMultiple;
    Powers120();
    Doubled(0x1000000000000000000000000000000, G120, G121,
            -0x3c445597fa2c4396c60284d63daf841befb328785ee98165b156f4eac6a28840e951a71dcc3f526f08507cbaddcdd6370d5e240a8abf98581024aea75d54d2c,
            0xad435e6e4efa718969ab62160821a74d29bce86b3214adaa0141e38c84f9dc3b13854dca57a50fe302b4ea4068d0b9051e3fb50e962c6ebf4e1986f7926d577);
    Doubled(0x2000000000000000000000000000000, G121, G122,
            0x113936a6d3666e484b5078947a1993231812e8d82d0d71bcf12b132acf8e3a236aced393c9ee52b0be383a30bab50a89d37fa7e60875f4d2e38f6dd41e875a0,
            -0x1439d4f810dafc03e8e5b7c05e48d0781e919de993fecf0cc0152e87301056a0025ce20c00d8eb6b56037626b6282327ee0d30b7360543af7b34569f77496c8);
    Doubled(0x4000000000000000000000000000000, G122, G123,
            0x50d3718782b575c12cb8fc1a4b7550109ab64c3e89ec92d9051c8c31e67d52ce6390e7c54c0431661e0de778bd86848f6771700aff5cbe29da5d8ed8d2820,
            -0x15f77124e13679009363cd9eb7b00eca9200ebaf98eff0d88cfd420d4e41c93b52bb131d409d69fb779fe4d74e83bcb5be5a373dd7aeebd6c54de47151ac4);
    Doubled(0x8000000000000000000000000000000, G123, G124,
            -0x32393404aae075b6c32a85d113df82f672f71b3abd6b811874dd4ab2fc9512c5c41e39871830d2d6eb48c1a0f4d7133a1ddfa9f7a3a90b2bc9d195b72899d48,
            0x14332d067da1a9aa6dcc6b6db5463310803ae9cf55572384e83d26e7dad5bbf512cce7b052022b57df29d5a2c4a14b2c8c4027f43c4228d569c5adefabef8ea8);
    Doubled(0x10000000000000000000000000000000, G124, G125,
            0x10fabc1a90c27fed5fde8ec51382273e93e38595185a103af43f9bfe4f414fc479e9a3d7e5c336b2c85994b9253889c00d45a207cf03d9985c4a6c36e5ad1e8,
            -0x11b4e849fc4c86d07fd81db5700b4a44c8b56c9c63d1d331d33f6dba8e5534bd1286279351aa67952c52728836345e218de6cafadf68ba31bce5e19dceca2864);
    Doubled(0x20000000000000000000000000000000, G125, G126,
            0xc7ce6a72cf2539f590ef1feca27b55d7e5b1c26a9de315f828314cb9364a9392c951e8eb22a61c099d243fd22c9a7d32e05804a76a87a18cad6e52270039148,
            -0x2912367ad3570f4f256156db09e890c76f47c58fcd9e82d3896e3bd6df99ca69abed27da4a7be01a94ac8b87b8696eb15035e096466b84a4fe759774d74ea1e9);
  }

  lemma Powers132()
    requires Fermat()
    ensures IsMultiple(0x80000000000000000000000000000000, G127)
    ensures IsMultiple(0x100000000000000000000000000000000, G128)
    ensures IsMultiple(0x200000000000000000000000000000000, G129)
    ensures IsMultiple(0x400000000000000000000000000000000, G130)
    ensures IsMultiple(0x800000000000000000000000000000000, G131)
    ensures IsMultiple(0x1000000000000000000000000000000000, G132)
  {
    hide Fermat, IsMultiple;
    Powers126();
    Doubled(0x40000000000000000000000000000000, G126, G127,
            0x87a5d6539fbb075a01af18e4e8c3dc8e9277d1cc38037ba14f981615682b6cf8fa17a075d02091c2db487c58891514a492aa6ef5b1f7157f7e862c192b80390,
            -0x23a0acd350e3bf9f2229b0524ca1f2164d8d869b73e5aed7c55ff5af8f1bea3d69600b9c91393824e18b77361e4c0f5bc8bff9fc2c850dade2171ab2fab750f6);
    Doubled(0x80000000000000000000000000000000, G127, G128,
            0x2141138393c8859c36af833ca325a09cadf758d02eb3c987992ee7b167c2814874608e7239a5009eabc9bd4e85d1cdc6ba38781faeecfd151a34ffb291d173a2,
            -0x298f288bda907a40c4cee0671e65ef5b90ff36805e5a500bf47ffa143e3b352246e5662a6b2fe804668a214cf345bf11c15e33c8895287148388a69b0559e60c);
    Doubled(0x100000000000000000000000000000000, G128, G129,
            0xbf99d261cfaaf4fdd791fdaee624fa4d6ff1664e0a09648c394c3b2a30c5fe5ee3b41c30bdad7e282e33b03602dab5eb99b31b17eb8fc980ee34d0bcce2aae9,
            -0xa10fff889186cf2159177ef9b7a172f10b2c085963404484be919f7c39b684c9b45544bf5cb3006e66baa22c8103a59f25995ad837fd086b7dc92be2f316daf);
    Doubled(0x200000000000000000000000000000000, G129, G130,
            -0x469e173047b7db1863127d750cb5aa930a24ffab525cba3da175a6301fc334f0cc8f6cfaf364f3af9f82d775bf9b1983def0edb2e5edc65dbf232f70dc18f57,
            0xa645e9ecf5c705621e146f384f027969140e67552ac16bb146d993b397800f404581cc3047ee757b3b93e1100862ccfa12ac3ff11f3c7c0b9358e0f62deb02f);
    Doubled(0x400000000000000000000000000000000, G130, G131,
            0x133b031180a3712084930c15593fc198901caf19ac028a3a4e5ac72f76f9747c0a371c254d4baaa303d30b6eff73b0425a0f5a3be064edc494e44f480ecab38d,
            -0x9aaef1fc79cac9ca436d9dad3ac3c1de600475cc8e431933527b64db731c58ddb3c7d8b83e1541acfd23e22b84d85b8b8d140dc2bd57639b1e98c18eeb6c1e3);
    Doubled(0x800000000000000000000000000000000, G131, G132,
            -0x1b8b57f4b0344e904c8ea262f71ac0ae7cff78ba7157463dc18e65ddd38efccade775c8aa2d042c123fd15127f8660b2430f678da948717eaab8105c4fb75d38,
            0x1d98e62b811b3c3d68c48147827b22781eaf00c86f87e5d13ab164999b732508831f630b2054050f6fd8e9e03bf5ea8c0c90fa8250fb16296084e09cca9574aa);
  }

  lemma Powers138()
    requires Fermat()
    ensures IsMultiple(0x2000000000000000000000000000000000, G133)
    ensures IsMultiple(0x4000000000000000000000000000000000, G134)
    ensures IsMultiple(0x8000000000000000000000000000000000, G135)
    ensures IsMultiple(0x10000000000000000000000000000000000, G136)
    ensures IsMultiple(0x20000000000000000000000000000000000, G137)
    ensures IsMultiple(0x40000000000000000000000000000000000, G138)
  {
    hide Fermat, IsMultiple;
    Powers132();
    Doubled(0x1000000000000000000000000000000000, G132, G133,
            0x143d15ea3d6cd611fe3392e8a1bfdde0e75e4e7a205839b51c0e3f724b8c0d647c8c7e60414390329fa7fa5d0e53cb7b1638dac11f195e3bda9f8ebb6a0ee81,
            -0x16a5533125360a4e57c0288573d94fdb8997d5a6850b5c25648fcb20a63f1742ef231346752aeb844491bd8eae3a6afd93486bdd26af268bd5c42aaf2b162ee);
    Doubled(0x2000000000000000000000000000000000, G133, G134,
            0xf6f7b1e7bf525e16b920cbf5af4d44de71f6cc5a39b9402cda3373534762a3e0574ea02aeb37fa7ca002eee8ec150af3df465888c44a4d698a1d450173217a,
            -0xea10dea0b328d4542a9c273449597f7feca8a0d6df2d04b7ad59eafefb7158b570a6609d967e7a3a5c43a332e89039e54ac11f63aaa622da9d9164ec1ee9c8);
    Doubled(0x4000000000000000000000000000000000, G134, G135,
            -0xc5da6abaeffefd4dcdfab91070265205d582868a52d01555bbb002173cf978132616cdcba56f78121e042c2ae836af7a6b36b689a69b4aca4abf678852912c,
            0xf96e84004b6571b4faf5df7e5ac43ccbd46b2bdffe5f8bf251cb11ac8c39800aeb09f515828db28c6bf954e07ae536a07af29104d5fc05504ca5d9a3dd1f25);
    Doubled(0x8000000000000000000000000000000000, G135, G136,
            0x27787170c299c5f11710ad8e0924e63a397b3e410e70964d6134e0592aa87a9767f15f572226ab46e15ba38d9603f44153f4c8c09e73004359d7f6ab47b5098,
            -0x9082e62e235b8c45263e6dfc3af23d234abbfca0697e8641e66dfedd9c094f8d73af4b4dcde747b9c38e35d7960305cdb82bf986ff6979a420cb9fde1025c6);
    Doubled(0x10000000000000000000000000000000000, G136, G137,
            -0x2a380cf03bacfd920a8aa49a75cadd1b9ab81b2494fdd2a95f337c0156c86e6ab0e8c403c78810b011ee14a67f7f9e19f920be3b2619c5022c34ccecfe444984,
            0x1c0931c2cce698bf253de1eb127ef5d9b391703e5da2ad4d20d99a4dd95a4fb60bcd426fea1538b8fd37163d9b7e89a536b24c9897799248c00cbe677091fd1d);
    Doubled(0x20000000000000000000000000000000000, G137, G138,
            -0x4eb6fa4dd3dd91f4e5ce27b96db70a253e51408f17c4b3341f988a43954c97b9695b37f9dbe50efe4d657398d3fd4a00079db29f315d3c4222bc8ec3febd244,
            0xdee401cc939ad5ac99f58da723f08151ec456b1c661a8caac25ac741a9c9cd30e61ac4b432f07bb3ec4c2edc4b5e189d76dcd4d2ec8ac244cca2f07c43915da);
  }

  lemma Powers144()
    requires Fermat()
    ensures IsMultiple(0x80000000000000000000000000000000000, G139)
    ensures IsMultiple(0x100000000000000000000000000000000000, G140)
    ensures IsMultiple(0x200000000000000000000000000000000000, G141)
    ensures IsMultiple(0x400000000000000000000000000000000000, G142)
    ensures IsMultiple(0x800000000000000000000000000000000000, G143)
    ensures IsMultiple(0x1000000000000000000000000000000000000, G144)
  {
    hide Fermat, IsMultiple;
    Powers138();
    Doubled(0x40000000000000000000000000000000000, G138, G139,
            0x1e5055a0cc4ec67254c4bfad649d616088b97235813893e22cd163887ae2def571c02bc170a362c63d8f300f453f3be99d787788dab0d64a51645aea47d9eba,
            -0x5c8e7767e533d46749fd687f975487d6237f6607e34dc20d7728a79b55c3d973a561d46f05de3a2793e24655a15e409059a6be178a028e3b26dbff75affabde);
    Doubled(0x80000000000000000000000000000000000, G139, G140,
            0x26c8ab3a0615b802d8b4eba27328aa0bbec30a599d89751466ff22f77b1241e0dc6d28429dd5409e8d8a727f49f14ece84ddb1f29719a32d82098a88bd73a9e,
            -0x10c44f115d681eb3978fe0f69ea027705b8f2afcafcd67952b163a08bcc29f09bda4ab8373268d550b379599f950bc3fd1a575cdc090069ebba12f9084ada2);
    Doubled(0x100000000000000000000000000000000000, G140, G141,
            -0xa6c9bd0e778d2a911626e25e100dd206e1465d84171b6be48a42e841d4e8e044eebca927e6cd8bc8900b7ba36c3e927d4d153c02b99aa21832909a33977b405,
            0x528925082d62e205434524698667e64131cc2bb64f6ca491417f2bb363ab23ccea13415265bd6b55fd844ac5d87759478bcbbf92ac21c4bb3b852d4fd97b8e5);
    Doubled(0x200000000000000000000000000000000000, G141, G142,
            -0x66549dd35b7974d96a69fef034b9c6298960f1706c406b1e1863baa3b5145d3b3041e5188ea1228d014d1510e690292ac107487fb3f1190d00e2196380180,
            0x255cd44b92fbdd6b59d73f9ba175f905c0de9a512a1c9cb556eae69bcb2be973352c3e511403b4290981e462e171b299461c036460499f405992430ec9a917);
    Doubled(0x400000000000000000000000000000000000, G142, G143,
            0x2f6eb23bd47edfdd55b3f761ec46dedd1118fb3500ace28259b4820d1032000bb02c4b6e0735921d68b33a335dfcff1f1fa1dbe4d04d40df1a9192d9485ad0,
            -0x1a09b2f329478ee05229183c63f899b7fc1e9d2721959d9dbff4fb71ba120b52a903ba36380a528f3e368af5e8cba278317ce34f30a1275e39b8ac29cb7b6a);
    Doubled(0x800000000000000000000000000000000000, G143, G144,
            -0x21c790c09474cc225e5c4ec090c700be3d86aafde1ed3b0b6534c3615aa176f8513cc164a4c5231a082b2232d3bfe5ff08d6e3cd8277c8535b65b8dfaaf26ca,
            0x605e5ec917f713095512a62a6c7a63137bef05e0b9402f74fc97a38ae3202b679f4a364ee240682ef314e2b92767dad0edb668f946ee9b5f86390d157f107cc);
  }

  lemma Powers150()
    requires Fermat()
    ensures IsMultiple(0x2000000000000000000000000000000000000, G145)
    ensures IsMultiple(0x4000000000000000000000000000000000000, G146)
    ensures IsMultiple(0x8000000000000000000000000000000000000, G147)
    ensures IsMultiple(0x10000000000000000000000000000000000000, G148)
    ensures IsMultiple(0x20000000000000000000000000000000000000, G149)
    ensures IsMultiple(0x40000000000000000000000000000000000000, G150)
  {
    hide Fermat, IsMultiple;
    Powers144();
    Doubled(0x1000000000000000000000000000000000000, G144, G145,
            0x19ebb994f353fd661bc93a702494e5552b421f5019cd4fa949701a41c4049df28b0d46d3fc7a45dc4a2e7badac1987820132f2a9d144db3f3f01b0cc8abb6f0a,
            -0x2227ab5f36cd1fd5dcb4161326d24ef5bfcc07f8bb37231ba3a55dbb4743989f8190e65e4aa9a1b0c3d7526530a32d99ef17b111c6c9e55a096aa7a78bd55a2a);
    Doubled(0x2000000000000000000000000000000000000, G145, G146,
            0x8c5ba6e94a5a478311cf5926da18ae2359ab0743ba4fba034f0b9909025fd49a6858d9ef96e9751abee5347ddd46864a3022758bd9a00fe59393f9577eb84dc,
            -0x90351206b1f2b2dcf0fd133953a9ba47339be83d9a24b642c92a395586ada31856c89768b343e4571b649e1e4fb113f903ff201fdeb8e96267ef91291b26266);
    Doubled(0x4000000000000000000000000000000000000, G146, G147,
            0x50ddcf69a691d0bff26af84cb008b96fc2498dbd09affdb9ae406cedd489e05eabb6330f4c1ca0bed5a0a74a18417e2f11dc0d741e5cc1f765c7347f989636,
            -0x22ff2c2c812b16224f948e87062b8927880425f1218ef2b2f078a32af57d514d87189516e1083d62b3215aded1b47937b01c85dcbdd891824e78111540ed5a);
    Doubled(0x8000000000000000000000000000000000000, G147, G148,
            -0x25fe3267603a552f45b90d1a549985298849190c17a05eb5682258369a8d1f7d50d75a341769431eb4985de74050f62c6c5593218fa6b1492f889b4f6e55bb,
            0x37f8d8708becc7813f3e4eccffddbd86500fad8a200862594cbda9f095a237bdb94051ffd6888ab6d10d5625e91edc00994cf1bcc4e2f3d7efe5f45ef4660d);
    Doubled(0x10000000000000000000000000000000000000, G148, G149,
            0x52358a3cdb692638d5fc24e820999d4e947be7242fb0bc2226d9e9d3ea0bf326eb92f31cf4bbabd042c1fad0dd11dcddc0976f11cbd6eda384995205c2bd31,
            -0xccc6534f3147ca9e8eb8835dafae07fcbcf94f16936f555575a548f4f8a73b5a504e508aa5deee855cef2884df3f998f5894b9b75eb63c45aa47d7fe8723e6);
    Doubled(0x20000000000000000000000000000000000000, G149, G150,
            0x11ccdb9baa6c8fde51c4a1304d35b9c597727fab87ceaa297622e643ba1a019d0a3dc85efb49ebc627a52d4c0b0cdace2d94e5ed71431508a9f8c0bfe7b7605a,
            -0x1556ee00060641db6156de17bb9e4128a24728cda4ee952afbb48fd2afa829ed027c108f1cdf94acfdebc730021fa526dc9aeedabfe19111b97d8a06f683642e);
  }

  lemma Powers156()
    requires Fermat()
    ensures IsMultiple(0x80000000000000000000000000000000000000, G151)
    ensures IsMultiple(0x100000000000000000000000000000000000000, G152)
    ensures IsMultiple(0x200000000000000000000000000000000000000, G153)
    ensures IsMultiple(0x400000000000000000000000000000000000000, G154)
    ensures IsMultiple(0x800000000000000000000000000000000000000, G155)
    ensures IsMultiple(0x1000000000000000000000000000000000000000, G156)
  {
    hide Fermat, IsMultiple;
    Powers150();
    Doubled(0x40000000000000000000000000000000000000, G150, G151,
            0x35e12a808b29af388c684c5f7e15be7b6830ae5f28b739d9ec2630e29985eeb1da693ddec7ee4af1986d54e880a41c917cad2674bdf4a029f458d5ee755add0,
            -0x427e388660db2d0b814858e3d4870bfcd84adfb5cb1f1ceeaa883fe550df67b84ec9e406e7a85242a2f0c7755ccb6e9a5fce946dd0ab8903c7d9aeb3c8b7b34);
    Doubled(0x80000000000000000000000000000000000000, G151, G152,
            0xc181840b01792c5af1d44701d1783203336ff11861809bff086705775d77cf7f62de52c292160d3ba5c8b1054cd4c73bba7a9c69fecb9d8c9bdb720004d0fa,
            -0x334e3982db611c68deb2d809c172c02647f615083f5d2a038ae8a6e3bfac5539d40d5ff3bb3fe810d3ecbcf7f43b8591fda63fede57241610ff7bd83bb1c036);
    Doubled(0x100000000000000000000000000000000000000, G152, G153,
            0x10fe29e32adc9af6fe84c5099f487533813e46fc0d28c257521a9b4ffaef9949e7bf7b4546d3406f89c3d823ea483c8f097ca4ad2793e0bf4872dae2cf95654c,
            -0x25ee3522c630b98a116448eee0d1b40269d5dda3dfb75c9e316f3fd3d994d2171c0bf09b295cfa3ed5809eadcf877a909fd89ef58a25dda983e58db0d0f8e4b6);
    Doubled(0x200000000000000000000000000000000000000, G153, G154,
            0xb57bad499a0e97697b343733f59ffd9b1b7a334644910134ae5c2cefd832ae0812f99638f52487e310a9eea618dac7d1a20e110e8eec6819599a4758a6bd6a4,
            -0x37857bdb374e62be8055725187c072d77a30ee33ff24c989cf4d151625ff9a8a469b9124bbc564ba9cee5e6ee7d1418a38a7299f75d2f82cd00c1cce24645be);
    Doubled(0x400000000000000000000000000000000000000, G154, G155,
            -0x61bbdc7cb20ba18a44394b6359da0fa2de2ac2c0ed9ac10311e53c71cf90e64396911975e38b4a694b073b829aee53d4165eb59be110e34fffd978094991067,
            0xc3ce0e4cc56e3154114b93a2b92e43ef9cbd2cf79a94d0b1b37ff8faa07d2caa2f2ae9be722b1fca82d5768c6f5ea3869ebbcb92bb9da61762a56ebdca45aae);
    Doubled(0x800000000000000000000000000000000000000, G155, G156,
            0x10eba030f4bfdbcc06fcd0638dd55de0f63d50a62af9126babb86e0ec02dd62e8cfa08cb0c2225e2d0ca69c5f243642a0159e2b3c5e145853492faecd756f372,
            -0x288d4f24d171d8e6d4b27dfffeb726663a60fca62abd48f95e06d6de4307ee8a46fe8126609fa72a840591659e405be4a633db376940824ef9a6d0d7824f0352);
  }

  lemma Powers162()
    requires Fermat()
    ensures IsMultiple(0x2000000000000000000000000000000000000000, G157)
    ensures IsMultiple(0x4000000000000000000000000000000000000000, G158)
    ensures IsMultiple(0x8000000000000000000000000000000000000000, G159)
    ensures IsMultiple(0x10000000000000000000000000000000000000000, G160)
    ensures IsMultiple(0x20000000000000000000000000000000000000000, G161)
    ensures IsMultiple(0x40000000000000000000000000000000000000000, G162)
  {
    hide Fermat, IsMultiple;
    Powers156();
    Doubled(0x1000000000000000000000000000000000000000, G156, G157,
            0x1cbb94f06c0d9636ba5cd9a1b88a35752a3d87c62dbdbfc455c7845f68c7f9d34329e5529765968e5671ec650e62b3cff30f178555b231ae54689d426af5460c,
            -0x2241eb760faa323c6c40f0472ac87cd9229f1eaba724d90cd001ece8d7e6f145349f7e0f675e08c46ec2d10c5ba8ffd6491e0ca51b54b3ce0735894ac42d4d46);
    Doubled(0x2000000000000000000000000000000000000000, G157, G158,
            0x30a7e7fb380d65103c96c5e40d1356887f825f6288e9896e390f03cf525817946826302134245d209c1a45a2c242d6a6bfeea4ae44d3b9190de7cbe3858e096,
            -0x45160084ef33903cb942ed533a8858267c0953375abf37e043c621d1e3ddd7695d18a56ec3329ca2764d43e9ebfd79c83f572191d0511fe83131545bd775162);
    Doubled(0x4000000000000000000000000000000000000000, G158, G159,
            0x4bedbb82d663c3560c54537c4bbfc72d3192fadbd0bf508564d2c69edc498c24d76e6e0eece3bfe76a975f8cf61275454e4e59b9c501f2bfd22268acc5054b8,
            -0xb8170fe4ff0c4777f73c79831414077f0d88c58e05e60b653b226bbb809e74212fa17b4d93514a343d9b9db70ab92cd88d93c0a16771fe07ee9cdd312d99a4);
    Doubled(0x8000000000000000000000000000000000000000, G159, G160,
            -0x2138714708e15c02ead678dad017b259d0103bd8b74cf68e6acbac1fbb439f0741fcb76cb3addd448252139cee3f2b2e14916032525ea06d63145d1766ab9f6b,
            0x151f52c235efe72d0040f2c5f4d30b24b273bd064f136e15392a22692f1d3cd61989b9954e46370fae2acc3f1536685b488a4fc7d71f1187c465925dd47903b);
    Doubled(0x10000000000000000000000000000000000000000, G160, G161,
            -0x93f618739066dab24bb4686cf770b311ff88e3a87ad85c23e2f7eb47f7cebd08c002bb1894b4c2cd424f8491c180147c7c1816c6a4d33860ebccd63a05e125,
            0x5ab06882cb0667174a18aa2375ef946950403f2ed8284e63a98b25d551c0b6295096c01b1c080811392712bda91303d65dc2ec58feb53ab6fb69f6f4e4adb4);
    Doubled(0x20000000000000000000000000000000000000000, G161, G162,
            -0x165ab71b411a83f299be0f5c5a02d7d7e1338a8daa258b6ceb95c04152463f5e17cc13a8185d4b17a51be969c48eb1586bee732c002c67610aff6ae8da4b6,
            0x2f04f510bef4c8c156e8e94a2b48677d5424a19ada4ddd6575fc1292dbd07c8d45136ed0b715243b98ac5f539fcb31cd15b4f18e3ffe67949214a402c11b2);
  }

  lemma Powers168()
    requires Fermat()
    ensures IsMultiple(0x80000000000000000000000000000000000000000, G163)
    ensures IsMultiple(0x100000000000000000000000000000000000000000, G164)
    ensures IsMultiple(0x200000000000000000000000000000000000000000, G165)
    ensures IsMultiple(0x400000000000000000000000000000000000000000, G166)
    ensures IsMultiple(0x800000000000000000000000000000000000000000, G167)
    ensures IsMultiple(0x1000000000000000000000000000000000000000000, G168)
  {
    hide Fermat, IsMultiple;
    Powers162();
    Doubled(0x40000000000000000000000000000000000000000, G162, G163,
            0x224f1a9eed46749572f05368a77b57e92ebb70045e05c97235010fa46e50c3535535833583939172d024572c94e07f73a6738cc7ef92187540aab7d3ea12dbb,
            -0xb18e3dbd358beb6e5f18b48097b6c3386cb140894d35d8c6f8a94381674bad332dabb0cb7528f6e5d1c7f253843b33873d8ecffb3036283803fbae747252380);
    Doubled(0x80000000000000000000000000000000000000000, G163, G164,
            0x14d820fff803ab2d1615a40334aaed1e4247f98d0045fe698199b9f7acf429067e59b836ffef14da0963343a5ae7dcf9fb16cad7f5fbea2a7c9ed6d449d7272,
            -0x3240a4e3d56f5650507abd7e5852ae1317c9c6304194052766f657f56d1f4f3ca6f3e3fff9202eeb9dcb2ac52058a96f599c5847a389f16fb3bc58b05c84246);
    Doubled(0x100000000000000000000000000000000000000000, G164, G165,
            0xdb81bb456f6c34525f73a35da7f6e33be758acd230a137278ab7728c7e8b5d45ccb15ed01bbb6ca438e8c913427e7995b37d664fcee504e344392fb7a2d928,
            -0x12c41beee83b13b5c13a134b00b5a85f63ff5c313e2e02b0b219ba3476a589be47408dbf03ad736cb34dc0269f427e9b919aeb7cff6dfa2a02450ad1e7ec5f0);
    Doubled(0x200000000000000000000000000000000000000000, G165, G166,
            0x8ebab1f71008198a2e196c45129a4ff50bf2a375d365adc6b4277fa8ff94705b971cd45fa007c911102d2ab994446112310c36044b76f0dd0af51ce17b5c154,
            -0x663f650c6d717996ea45469b1fca1559b37e561a84f635a33c1cd79dda8b03dedc830e9e8cc5d3761295878b5d0b0342fc5f8c06e86eb9b943ee0c4480bdf6e);
    Doubled(0x400000000000000000000000000000000000000000, G166, G167,
            -0x8f9f9d5c28bc627a30fbd3e99c2f5757540f58c6eab43b615f0764d426a295193dc8ea0e800cdf34dcc5298d3d22a8cd92c3e3a11fadb8e17b086d8986ff2be,
            0x146350a6c5c8c9cd3b14529bbbc1ee3de5a1daabf55639ca954d5b2e919feaeb5ab777d741b569a56b09b60bcf2d2cb8ad7d5b87eca487d0e5559551080287b4);
    Doubled(0x800000000000000000000000000000000000000000, G167, G168,
            0x30dcc7aa57cf089e54795f833af82c7b1f58a7982f8c0bfbf125575c5b96e1cffc7d735dddedd490579235bebd9a43a442e953552c814262a32b9acf9dd5213e,
            -0x61c3f814e4ef56ca92aba9d599112c16f103c5d64813ccd520abf18868b14fd6e038b3502a4c686609fa1b214f0de0d5c696f6afc004f3481d15aad89167d47);
  }

  lemma Powers174()
    requires Fermat()
    ensures IsMultiple(0x2000000000000000000000000000000000000000000, G169)
    ensures IsMultiple(0x4000000000000000000000000000000000000000000, G170)
    ensures IsMultiple(0x8000000000000000000000000000000000000000000, G171)
    ensures IsMultiple(0x10000000000000000000000000000000000000000000, G172)
    ensures IsMultiple(0x20000000000000000000000000000000000000000000, G173)
    ensures IsMultiple(0x40000000000000000000000000000000000000000000, G174)
  {
    hide Fermat, IsMultiple;
    Powers168();
    Doubled(0x1000000000000000000000000000000000000000000, G168, G169,
            -0x2d33e7b9390866de20421c59f43eba83703fab801d4e8cac63aa32e311bf2bd8a7bfe9da1d0b0dcb5fd975a6e69b738eecffefda6ae8ebf370d9dde3e04f4028,
            0x3d69f31fa4d8d474a66ca5578a4c7fdaf177f6f312d14c2975c5f105e79d3c7fbbe5b17bddbfa47f229bdd4e10e7c8e47870158451b36b2b4b3f8fe865ffd992);
    Doubled(0x2000000000000000000000000000000000000000000, G169, G170,
            0x19263e744ba26a66b77dfae732eddb25d57f7df0d4dbcf22f072389977823dfe58fa130adb0eec76e91b7bb6400a71b4f136e80ac3e832d316f33ae9e9a30f70,
            -0x17bc3c96d3c5fd92c918243345a469433c792c9a731771cb3a25fa9fe8e40b4e5708651a52829c8d04d454335856bcd935bb482f5c2457edddb48339c8e3934e);
    Doubled(0x4000000000000000000000000000000000000000000, G170, G171,
            -0x4b0a60555b2519b3d1bfa71f7df15e9fb1695c195b511e22bc1b2ca6040d11c76b521d215e7269569eb3a8f94869f9d6c53559e6bc318dc0062bb793d1688a6,
            0xd6b7bcdbefb6745da3fac326c001b1d911d05e0257c82bbbec5b02562edee20e2fd9fbcc32a1e0d08ef6924fa34efed199e4289650c910d4ffd162cbba729d);
    Doubled(0x8000000000000000000000000000000000000000000, G171, G172,
            -0x1a8c10eaf5a2a7e10ae83b7708cc91131df1512bda5cbfbc5b14cb64824c38c78504a471248d795ec40fc32700ea95c2ff938bc062fd96faa5fb820fe7f7e328,
            0x6188c2414e601734a0c6d6969a12f5941355c19e932b67017646f6db02d6ac95d4fab255d0af483eef21cfd9121ce258a6fd06e3cb4e02bc55ff5d4b544f650);
    Doubled(0x10000000000000000000000000000000000000000000, G172, G173,
            -0x8161b2d247e832bc4e91068b7824eb3e6a0747b2be7d3b5ce860cc30b18649294728d6b41d12bd533e69d8002b9f300a36c96f493add68e57fe0cd56d9213b7,
            0x995405d5ac6f7a2c017b4f2ed2d828935bef19fa9a9aa45914d110b971f9c1cd1586e7fc58bccc3058b774f60c4cbcbdda2cbf3b9610d58a14d34c711759472);
    Doubled(0x20000000000000000000000000000000000000000000, G173, G174,
            0x2440a39379ba7812922cbdfe69b7c712ab7a0dfcc5c269a58473c9079435e4e5149b2f9b5f4821a0c9015523cc5cb9ed3f971d0c786f281c353098718f678aa,
            -0x410d1e1882dc80f49c930d6847b171beca21eb063aef7a44576419f09b879f85ca52ed8c0aebdbcda01843832687099dcd69edee0dcf0df71f6302055e07a8e);
  }

  lemma Powers180()
    requires Fermat()
    ensures IsMultiple(0x80000000000000000000000000000000000000000000, G175)
    ensures IsMultiple(0x100000000000000000000000000000000000000000000, G176)
    ensures IsMultiple(0x200000000000000000000000000000000000000000000, G177)
    ensures IsMultiple(0x400000000000000000000000000000000000000000000, G178)
    ensures IsMultiple(0x800000000000000000000000000000000000000000000, G179)
    ensures IsMultiple(0x1000000000000000000000000000000000000000000000, G180)
  {
    hide Fermat, IsMultiple;
    Powers174();
    Doubled(0x40000000000000000000000000000000000000000000, G174, G175,
            0xa662f3b7e04490f651297e06f7eb4a5b73adf133a8660097a2b073ced02300e6bd96d0a9b44481feddbab757716960f4950798db5645f631b6cf5ff70f00c7d,
            -0x121ecd632bd106c48a70197e86f86366d5ee58d79e72a75567f25a39809f02c6eec3666ec824ab06c80aebfdedeb35070b7fae35314d30082c8c393874ce01eb);
    Doubled(0x80000000000000000000000000000000000000000000, G175, G176,
            0x8127c14517a23830ce2cdc1b58d489fc3ce17050d43ed64ca6e7982b89cd4760e90311b84fa6c8ed46261f48f94159c85541e240b7b75fc66b3bee9c51255a,
            -0x68cb9a88a60fcadbbf14ffd299d29fac3e178c2f8e8d1d06c215ee2781f5ed8ccc31869fd8f8ee5033cfad31199d1013f57b9b24c55712811fb601c51a11779);
    Doubled(0x100000000000000000000000000000000000000000000, G176, G177,
            0xa2dde2f31eaa81d1511c1d777209ca7f8bbe2f6ddd7df96189dcf799986c78062e9f5040e262cbfb8c3cb87bba4cb008038ce8c53450d9314ad6dd1be7a9db0,
            -0x3ade9e6af1dca283b38ca2006c1a9a8128b409bb6ff28f243fe0a2f314444221afa4d20331d74a46aa2203f0c8fe492f7d0eca20779c17c14bd3585e646209c);
    Doubled(0x200000000000000000000000000000000000000000000, G177, G178,
            -0x11e671517a80e6fcff350a6a3cc5dc8291c04244dd6a4f8b70c3285c3eee2156c51fab3b8ce8f3caea23fdce28286703fc712c51a8c6d1a250536e7d4071a3a0,
            0x15290fae7b1b78d54961055218e47b9999bf5a24b427029c71297219914c84a20a5f692e2c64709a146dd0942e547a85641a12f6d585610f17b7ef9155875acc);
    Doubled(0x400000000000000000000000000000000000000000000, G178, G179,
            0x37f9383c132852ea2245dac504a87a8fdc52c57b57bda83e311a8be2ef95da71cabd1a1f5f1dfb0860e65f643c84ec1b06abeb2e172bd4ab610d0d8bfcf67f4,
            -0x1163338f9f25758bc039631b61ed3a0d69810517b0fe6249ee9bee05511357478627cda2f4337f9b4a32bb2b378368020609bd5a29f300de9c37f00bb065f9f);
    Doubled(0x800000000000000000000000000000000000000000000, G179, G180,
            -0x3107cf5443ccfe3f42619d1fef5d49105ff6a05a20d77f908f5bfcb0aeb756dc0757784df119749032d1b0df6fa0f44fa31412059ec8e288a17f58c1e2fdb48,
            0x89cc1c60ac72b9c14ae905148a5be51c381c36d37dbac71a6e3557d01d2873c9ac5635c2f33a38d29ece1651423d6c5332921686e8537d43fdb9d888d5d252a);
  }

  lemma Powers186()
    requires Fermat()
    ensures IsMultiple(0x2000000000000000000000000000000000000000000000, G181)
    ensures IsMultiple(0x4000000000000000000000000000000000000000000000, G182)
    ensures IsMultiple(0x8000000000000000000000000000000000000000000000, G183)
    ensures IsMultiple(0x10000000000000000000000000000000000000000000000, G184)
    ensures IsMultiple(0x20000000000000000000000000000000000000000000000, G185)
    ensures IsMultiple(0x40000000000000000000000000000000000000000000000, G186)
  {
    hide Fermat, IsMultiple;
    Powers180();
    Doubled(0x1000000000000000000000000000000000000000000000, G180, G181,
            0x1f46db70287f86e64a22115970f97f153174d3f7bc6cb46748791b21a9dd7be75c059a6434fa2336f1a46da1a996100286df92d07ba6f24e86cfaf9fa8882a6c,
            -0x40393664c64ab924ce6b62de883cc19e2965b4f9d1bb4c6b5b23e1475cd10c7020419d7db94fa03291d0e77c9f97f1b3777b74f940b7b1f4b709aee0a738779);
    Doubled(0x2000000000000000000000000000000000000000000000, G181, G182,
            -0x23b756f51ddd194df872b21e96383cbea2bd93e86bfd321469c29f903102370314aa8ba7d26222922e61657ed2e2efb29bebd5622e95bbd33e2147dc95cfe080,
            0x2fbc6352895ced430f2e9d80c67c4b61b0f5bc91bf4800515f8a593e6a0e4bff57a7c77a8f43084a7041ffede5ba7bea3b857afc60874a29079f03274aec88ca);
    Doubled(0x4000000000000000000000000000000000000000000000, G182, G183,
            0x2e754964a5e708feaa96628b5938ef73a6491f8061c0392fee888bd40438c2c3d9a59821f7454887513fa6f0bcccbae87f8dda8cadec4f4d8a75a8079a6d01c,
            -0x2d52fe4470b179474e42d6be0d786419d958ffd92abdebeeca024ed1957d60bf009c824dc039123fc12b68e138170ad502cc0de18896a44b65784000e45b35b);
    Doubled(0x8000000000000000000000000000000000000000000000, G183, G184,
            -0x1325d49d8cbf55e64a2d30d2e2e5acf9bb1239046c539329932ef3be7f4f01fc42a8b1dd9a53cad0c0ea7a8150ef31aca04e986a254dc471ac4560b08069c,
            0x4ddb2833780422fb9a3d8ef9714bf2e9613fb154b163981c1f9192bf5498b66d8c065915fa1dfc24f071f27fda4250d41f54b0a7aaf486c9ecb4a3b6dc91e);
    Doubled(0x10000000000000000000000000000000000000000000000, G184, G185,
            0x8be79e2a19b32838162a2e6782c644fa594dba558794273fdab42ee2edbd75846a942145407fc8975c1c5c621c027957d850638abece2125eec3e675991783a,
            -0x4a336e4154a7a457b4e078f58394481aa4fb7e885c1ab78dd10fc171995ee70c97ec11961c927b85efdd6f9797065a6713b68e3ca5455134f4c11b045c6494e);
    Doubled(0x20000000000000000000000000000000000000000000000, G185, G186,
            -0x3429f47286be5160c6acdfb9d5badb87ddeb76cb00403e3e7e448ac74c9249deed5681ce98fbe76ba5aa279aaceea0b3317c5cd904e1728e022257d482f37c7,
            0xb1c315fee62cfaa9e76f642831ea819319c47e93e0a43e334c686cac822c8ea30c4cd558afb007ef7bf8fecd251faef585a1f6cdc976f527976233979939ad2);
  }

  lemma Powers192()
    requires Fermat()
    ensures IsMultiple(0x80000000000000000000000000000000000000000000000, G187)
    ensures IsMultiple(0x100000000000000000000000000000000000000000000000, G188)
    ensures IsMultiple(0x200000000000000000000000000000000000000000000000, G189)
    ensures IsMultiple(0x400000000000000000000000000000000000000000000000, G190)
    ensures IsMultiple(0x800000000000000000000000000000000000000000000000, G191)
    ensures IsMultiple(0x1000000000000000000000000000000000000000000000000, G192)
  {
    hide Fermat, IsMultiple;
    Powers186();
    Doubled(0x40000000000000000000000000000000000000000000000, G186, G187,
            0x161ee1d403672f7aa021ddbeded4861c64483af5c8b88bd7a0bec2324630e44e124b9b97d94c411766dcd2454cd2cef04ab1e09abf8d1949bb9104ebd7e708a,
            -0xefd3fe030b3663972e7dddc1bc2cbf2eb94d3b9ac1f11ee85af7e526460fc5f556e36e7cf76f443a57626a234797f90d3b65ce1f26c195c6ee0bd1937a135c8);
    Doubled(0x80000000000000000000000000000000000000000000000, G187, G188,
            0x64ddae18440298edbccc7ab59e38856313bb1ffb0097951671992e361431efb92f2afcd617dc78bb99e786cae059157ee5bb73dd8700f8d8814265e5f25b712,
            -0x681961917dc6ec21858446f3ee3b087ffcff99aefeff768ba427c491c55d0ff6cf2b97d1ed3f907b56fbf35c317ba573aec39bfbed16330ac62d73f54f84804);
    Doubled(0x100000000000000000000000000000000000000000000000, G188, G189,
            0xf7c825d835b5cf12e006e2f96dc17de4b04796bbdafa9e282e5f969d64521c1252734377afd2874c167c6ae4d88a9772421eb006f836870c4be9ee7493125,
            -0x198870ce342a2805b6526398c51401f61405511a8403fa76a2ed75f4d2c102445c65a41cc87dde376320dd01e90937c92009c21d321a39b17a9c2fe677ae6);
    Doubled(0x200000000000000000000000000000000000000000000000, G189, G190,
            -0x29c48f85c8aa199e59d7ed28e186760e38888290655aac0274ec4c55223a560ee2b1eefd5fbb6f167e4e61166997f66d24caf955bca600305a959b63d90cd74e,
            0x2ece99a30f0d4b4df7685d65bbfeacd007a78b5a695b1446666ef273cf089d47dbfd3e034a65dee7eaf67661d4e7b98a731b7d5b0e8698fe0b477fe005277f48);
    Doubled(0x400000000000000000000000000000000000000000000000, G190, G191,
            0x41048138b709ee6f29c9cb02e41358ef2494eab197e2a3735f775b560cd1ad71248d614074718ab03c255f7e52d064d41c7c3fa810e2d1ba301a920bab4a294,
            -0x5fd1ff9bd399e9c3b007987018df5bb619f6f72ffdb9226f9022485aad44ec0c91726a64fc6e1541f5b17cfffb231d347826794b0d4bee398a3d5c0b57b1ad4);
    Doubled(0x800000000000000000000000000000000000000000000000, G191, G192,
            0x3f490257833ad1250755d6e76c003d05c361750cca50adf1f0459ba50011e401b9f21c6bae1d3c6ba62a8f2b1f3f83b2f2a92b371b7d7efddaf42de8f0fb989,
            -0xdee7cc3f1355db0bf0810fdb7fb498e7ace2692eb9ce7d45626031a931a4795b4df44809b91b8e78a15a28b0fd87101bea9b0624dc72aa6c3d8f957f2dc1b66);
  }

  lemma Powers198()
    requires Fermat()
    ensures IsMultiple(0x2000000000000000000000000000000000000000000000000, G193)
    ensures IsMultiple(0x4000000000000000000000000000000000000000000000000, G194)
    ensures IsMultiple(0x8000000000000000000000000000000000000000000000000, G195)
    ensures IsMultiple(0x10000000000000000000000000000000000000000000000000, G196)
    ensures IsMultiple(0x20000000000000000000000000000000000000000000000000, G197)
    ensures IsMultiple(0x40000000000000000000000000000000000000000000000000, G198)
  {
    hide Fermat, IsMultiple;
    Powers192();
    Doubled(0x1000000000000000000000000000000000000000000000000, G192, G193,
            0x1cf5af85a2c48cb5552f68dbb2365a88a095812fa8dad04b8e44305d59ed8b3de3dab3973f802edb926cbb1b1b92c459be8f5828dea7b8f4a47f3a178fd3eda,
            -0x106d4ad47679f6960734a7a4c4f9d812725e53fbf6dd2fb9526a8bc9f1649d47a2316527a0932ae159dc734508878f2dad79fb8cc1896ad1d4996ea7517b9aa8);
    Doubled(0x2000000000000000000000000000000000000000000000000, G193, G194,
            0x121b052382e3901bd0e46e2228b59fe0cc9d839c9df07645a7abccd16634b187e72ea45e35ec60754b30c60bbcfd13923a1939ba28793a7f87479ef0dbcf3e3,
            -0x69c657239e9ade78b01c7d655bf0899d45343ef87168453b0b47587b27590b3fd8a4b90fb00b3fd8396993c14123fdba500919b4eba0f7ea1f0c433127e445f);
    Doubled(0x4000000000000000000000000000000000000000000000000, G194, G195,
            0xc6b74e004454b948befa43626338aefe8133be39e47fe0537c3a8b771be0e304dc70d980d6d2c67f92172efcf5681cd6d41060cdc5cb89121b34a6fe82c4c1,
            -0x246051f77526ee7393247cc389179172d23ccd4815829547bbd83da3b24502106b8c4cfdd265abbe89184a4a2151f9fbe77a5ae210fc1f4b295a11cded69b2c);
    Doubled(0x8000000000000000000000000000000000000000000000000, G195, G196,
            0xf2baaef4fe69e5a1c3b9f7b0e4aa2b2a28d9ea6351da979cf946c07b597cc270b6a922c26547066d147b0592f1cbf47f32418701408ddff63383b3d6e5e636,
            -0x2716d58966f053db4afc01517c1aacdc9cba96d7afcb997840ae13153f28e56f0a84bdd18b7e605a4777b7b1f8f2d5233be0fadbeb03e29315f124c61c772c);
    Doubled(0x10000000000000000000000000000000000000000000000000, G196, G197,
            -0xd33b68d6a66e30c9c48fca04c59316ab01fb99ee42d0b5151540c220c929c8a55a8901747ad8baf49158679887ae6260cdb3e9e0b6bf59f31ab3be0f4addfb6,
            0xec63461e51da9818c381ee908a349a2855e9412f7368f7dd5eb3fb8b7b34b3b7cdd0bfa13c98b8a91081b9010ca7141261b9eb9b978f946b50164d7a69ae52);
    Doubled(0x20000000000000000000000000000000000000000000000000, G197, G198,
            -0x405f0bf752dfe52e8135179d77f84f5f570b89ffd766fc368e50587b84b00a9b6449a3a0ac8c11505c44c1a628cd087ef4c0b5f09463a812a68eb15291212b8,
            0x4c0298d76683af00539e068eaa0953f70cf76bf66c2a990930ff41c483783d3271eea17f4a3192616fdcdd131ac241307c0924e26ede00db2653cc78f565512);
  }

  lemma Powers204()
    requires Fermat()
    ensures IsMultiple(0x80000000000000000000000000000000000000000000000000, G199)
    ensures IsMultiple(0x100000000000000000000000000000000000000000000000000, G200)
    ensures IsMultiple(0x200000000000000000000000000000000000000000000000000, G201)
    ensures IsMultiple(0x400000000000000000000000000000000000000000000000000, G202)
    ensures IsMultiple(0x800000000000000000000000000000000000000000000000000, G203)
    ensures IsMultiple(0x1000000000000000000000000000000000000000000000000000, G204)
  {
    hide Fermat, IsMultiple;
    Powers198();
    Doubled(0x40000000000000000000000000000000000000000000000000, G198, G199,
            0x179a118e164ce331991a95c564c3351d62529bcf0376a5ae2172494576a68c7395d8bf74898e18263f1f9fe44d04cdfb9020c84b0a58d814a37184fdc13630,
            -0x5d3c084e53524c9d10db4be212b354da00fabfa50c1c178e0d5e5582b8a34d0c258cdbb0d9f76e336acc7ef3cb4e99b4e147f05d65197c8b6a814223042c5c);
    Doubled(0x80000000000000000000000000000000000000000000000000, G199, G200,
            0x1fd3f25cc109f3b8156d4a1b7d4438640a32ae0998a6be739f467da112747c2a898f2aa7cf93711e0e8a46eb13d8dbd38ab901b45d65cace95a59e8de9ccab67,
            -0x1b0a1231f07bfd11ced2bddb1e2a58e4465c215e867bf368bb3563017bbcf87af653f4066a62d24915b68a5176c484ebb2e184ca885a4aba72659b6eceb07b6e);
    Doubled(0x100000000000000000000000000000000000000000000000000, G200, G201,
            -0x3860ad143d6d26f4f8926ef4989050db07112acadeea3f50f5545ab7907f940c90e2505bcafb0815ce77d3992a178458ec7f06374c3fd58abd44a5ee905107a,
            0x6ffd0c85838748822944ce108ad3b8af3590e53687c821bb2112e4d44355b5d52c37b8afe4cd7b4bbbb5905085b40389f35eb52140fdf73f4fccfd20b5451b4);
    Doubled(0x200000000000000000000000000000000000000000000000000, G201, G202,
            0xec43cc156825af403273b1dbcf8c0f9fcbeade31f43443e17c055c31ef88f91c4e3f6cf21aebf749f94bed5d0e88138dc090509b1fd202439885c981c015c8a,
            -0x780de1af4d1a7732a940358fd5ae96c783c4d8941a7916e71b2822750921ff518ef49ffd240e52794e997ac07a54514bff37bbb7de9c3dbad1001b46b2ec68c);
    Doubled(0x400000000000000000000000000000000000000000000000000, G202, G203,
            -0xbd91705d12cb70b2dba634f07d8f22b00502604293f3c3c2e4f19fea8938af51995904b051761c6771710d3e9e4dd39c5d008eb2c38b9e8c58f48dd2c271e9a,
            0x10d69d0506db4c76ce987c52380b279bf26f0554e7b7009947069496df07882929449997d0cb71e5f1e53e4114cc833efc89d4fcf8c847073e1a044959580f1);
    Doubled(0x800000000000000000000000000000000000000000000000000, G203, G204,
            -0x453f99d176e2fccd613d1967fcfe8ad02d9a34eb0aecaf6c7e40bdb5b7ef14e221fe421c764e5bbd9b7142a991e4c1c0a62e2722ba75bdcd78222ee5a1ca6a8,
            0x1084700ddcc98059bd81b7cb8bc5081133c799cc41a3819fbf870d912ab80ec36a30e8e48bdb61c215ec320ae2bab095df2eeceb30948e6e69ebc06945dbddd8);
  }

  lemma Powers210()
    requires Fermat()
    ensures IsMultiple(0x2000000000000000000000000000000000000000000000000000, G205)
    ensures IsMultiple(0x4000000000000000000000000000000000000000000000000000, G206)
    ensures IsMultiple(0x8000000000000000000000000000000000000000000000000000, G207)
    ensures IsMultiple(0x10000000000000000000000000000000000000000000000000000, G208)
    ensures IsMultiple(0x20000000000000000000000000000000000000000000000000000, G209)
    ensures IsMultiple(0x40000000000000000000000000000000000000000000000000000, G210)
  {
    hide Fermat, IsMultiple;
    Powers204();
    Doubled(0x1000000000000000000000000000000000000000000000000000, G204, G205,
            0xdbeac9a70b468178363096a5d4190a7703d7fb86aed873e6d9784581358d37b7a25a694ff238b327911f610edaae905a019b63c8b4ea747aa828b754448a1a,
            -0x2200a54bba091f64d8fb562a9726faec9ceaceff2169c4334c7b46348e081dd23fe73f159a8742edd898ceb03297b75d68ea3dec9990763dc0eb56d9c0f1960);
    Doubled(0x2000000000000000000000000000000000000000000000000000, G205, G206,
            0x34991a761ec6ca2d5e0dde24e05371145b4c63385199413cfa028f84e07537737174887bb0aa861db801811f0b3029441c1893f077673a04218e8b8705491b,
            -0x707f36c3ca3e184d6c197f80f6cf9c4cc8e42b2a629e1721e7fe95ad6248abf7d98f204b6a3666d35c8a264d5855616467fdd7b23744d738065aa7235f776);
    Doubled(0x4000000000000000000000000000000000000000000000000000, G206, G207,
            -0x2397c8629c76b3a820a588d18c4fa3571bc6b7a3f05656c850630a45b43570bc50006cc7983148b1e2e1e64ce4db9785bac9bcd1db2da24c617863833f467b2,
            0x32a54638e256ed64105edc06dc1857d6b323c9cb5fcf2ccd125888575a55dd898650bd9e2eb9ab146f471265a27be26baa0f185e600ccf5fad71f9b4331bf86);
    Doubled(0x8000000000000000000000000000000000000000000000000000, G207, G208,
            0x9f4fd47c5de80f73efcf402cb0cc09de6728849f2a59eaa8dee5e645d6bce729b3abd5c6ab7b6842442f39912050b932e2977382eade0f692a8be41cc794da4,
            -0x883af73f64ff52e828e064650e27c0ba7b7ebdead31a43dc579ec310bb445aadb81343aa2e87bc1d8eaa76c615e84619934e7091d43895bcac633689b9cbac6);
    Doubled(0x10000000000000000000000000000000000000000000000000000, G208, G209,
            -0x12a48ebcd034f62d19f1b9b735d8968ceb7a0727c33f9f266ee75258e63a70f7fa8fee3e70de1a5a00639204940c868ffae908e7df6943e9c273b40f4dab536,
            0xca971dd8955e0cdee1415434c12c3e8032d9e8f1530b6a105b654388f5dac876c2d1c8f83ce94dbf6e608e47474b60cd9c798f6a925d8c0d86d79e46ad8526);
    Doubled(0x20000000000000000000000000000000000000000000000000000, G209, G210,
            -0x2e87b0331ddfa0fb0ed8dcec8541ca3e93781dccd991b950ce5157a7ca9526ad22072f24cd602f97c1ed3c5790899559696356f23b80bb6b54e68aab60f6254,
            0x5a96ffe6423c457f087e7439d527f083961b5e8ebd2641cc933e3441404139196156b7adcb5dc9b4b0aa4f38ba94b8e65afc39ce577bfa20f9b84a28352232c);
  }

  lemma Powers216()
    requires Fermat()
    ensures IsMultiple(0x80000000000000000000000000000000000000000000000000000, G211)
    ensures IsMultiple(0x100000000000000000000000000000000000000000000000000000, G212)
    ensures IsMultiple(0x200000000000000000000000000000000000000000000000000000, G213)
    ensures IsMultiple(0x400000000000000000000000000000000000000000000000000000, G214)
    ensures IsMultiple(0x800000000000000000000000000000000000000000000000000000, G215)
    ensures IsMultiple(0x1000000000000000000000000000000000000000000000000000000, G216)
  {
    hide Fermat, IsMultiple;
    Powers210();
    Doubled(0x40000000000000000000000000000000000000000000000000000, G210, G211,
            0x19b2ddd2016f69fa3af640f84b94307152647999a2afab70d0219f7b95435de38a1cb2743f09febfb65e62ae69268bdef96056a4bc2175a64f9e7b8889fd3aaa,
            -0x1c72f5efdd2fe4640a334d6e50417a7f26b88a630921983666ca769bc4920f3e8817bf735bed23258ee03bdf1a34b7198cbba2a5c56a1ef9053b4b1fae8beaec);
    Doubled(0x80000000000000000000000000000000000000000000000000000, G211, G212,
            0x8fd166863d5dd0d45adcd2ca310b550f351226100843528dc37edd540f11d910b7562b3afa35e91f1d6c1d53c71772cb8ec86a892fcaa8dba320f17a5f35e4,
            -0x41591f45381618e0e6451c96dfe4dfbae3350ceec5ead2ff2afd132503397b5494895fdb1a755cbe214ebb91a156a0869f9125cf157bfdc28392af084a677d0);
    Doubled(0x100000000000000000000000000000000000000000000000000000, G212, G213,
            0x17bb664b30935409a167cfeff96bb33d7f518b899462e79b007a082605b94bc2d1ba0a5df75c20c107af354f1de654d5ca543e024e91baf87c9f4a28664ac578,
            -0xa856b36b430bad87072c98d3a99d3f6e7ac398ee1df1fe8f72c165d8362306c46c94bdfc5438c6d398cf741af4b277be874c3756441444fbe91696f9faa1a5b);
    Doubled(0x200000000000000000000000000000000000000000000000000000, G213, G214,
            -0x15f0ca50cf75bcd4f12ff9967360a9d65cd83edf77aa88590ca2bd6522a7bc1e1406c535cc229edb471b98cbb6893ff3e21f378feced2fbce5a04a4fa3a2a0b0,
            0x261549a1eb5f2d8aa3be7558e317be475c62880b98c1cea10f2c4f4cde27f764b9b8a4058899e13c96b9809d273c2a0cbd4d88e3d6c76ae702a2863c508c9448);
    Doubled(0x400000000000000000000000000000000000000000000000000000, G214, G215,
            0x26f56a09cb8b987af385344b9ca12d156ee8802bc165ea33fc5503a554a7f8b46319d75e2a59ef68e0ce1f2dc5752b84e7a9fd229768eb7ea8d23a8f37991d0,
            -0x1668af360b22216aa812cf5c8636397238e772c0d75df5e1d279ee47e01c780547af39766a0676534e4fb52aef9b97122d32486551475b912d307c13100fd41e);
    Doubled(0x800000000000000000000000000000000000000000000000000000, G215, G216,
            0x246ca2f796fcfd72c551ea9852460c8626856efd1bb80b82af4dceeea6f23b52c2f8d3b4962e24491d8ead8eba254a2ffca2c67137092f52feb218b374eab3c,
            -0x5c17d55cbe630057a5235cf4dc3cb5a108b05a964b89d5700c3dc7ee34b17ce857b425cd81698cca2086aa461c84b88e03ba6ff9a9785ff72c078b5d760ba7b);
  }

  lemma Powers222()
    requires Fermat()
    ensures IsMultiple(0x2000000000000000000000000000000000000000000000000000000, G217)
    ensures IsMultiple(0x4000000000000000000000000000000000000000000000000000000, G218)
    ensures IsMultiple(0x8000000000000000000000000000000000000000000000000000000, G219)
    ensures IsMultiple(0x10000000000000000000000000000000000000000000000000000000, G220)
    ensures IsMultiple(0x20000000000000000000000000000000000000000000000000000000, G221)
    ensures IsMultiple(0x40000000000000000000000000000000000000000000000000000000, G222)
  {
    hide Fermat, IsMultiple;
    Powers216();
    Doubled(0x1000000000000000000000000000000000000000000000000000000, G216, G217,
            0x2c7dc46bd4432b43b0976f2884b8b1fbabdc1322b75dae8d6927bdf3c8553ea749b62ae9799c6724df072763698e72a235cc8e068b83dd4e4c49d9860ef8b9c,
            -0x2638d097a256f811836cf2bca2267225f5810172e2b437e86e64f0282054b1be245c6a56d97f85ab5924dcc25ff0ddacead9585d9ad80a4387a4861f1df8a14);
    Doubled(0x2000000000000000000000000000000000000000000000000000000, G217, G218,
            -0x18d435cf95572ffa5d0aef8f5400d5e3c0a839ebbd1d59f1a18acb3c5f13ba980ed5ee890f68501038c58eb2e20c4b048c87b9bef452326db5c3a7421ba4ecd,
            0x10fbfa8352cb03531d6ec1bf64d053a52370c5c7e0f0fd5937a29328e6bb216369044b81c0ef9e34256f8ef82bdfc9b4d3ca3a840596ade25c0377027fdc6ad);
    Doubled(0x4000000000000000000000000000000000000000000000000000000, G218, G219,
            -0x45398e87f23886f50479456b6097d2c838298d7f87a851d640863112aad964fcb52814e042a855af65c92b03c3cdb0179c344bd5b912f4e68fb77aa1155b7fa,
            0x2905add2134731928ff25850ac088397a895bd5775184e995758c38ca29514d63771bae359586757f3a8495e212dc29b57142df2f3a0d341194cac970574d17);
    Doubled(0x8000000000000000000000000000000000000000000000000000000, G219, G220,
            -0x89f4b99dcecd1d0071cf347dd80ebff0e121d9c9a7e20fdb26e5c13edd1293dbcb645f91d26bbcb70788ade1f7f1bdbe2bfdbdeed0ce05333980b4e3b3cade4,
            0x55ddde0a0495e022564b260d36837b45eb8a9b711bc0caf3b6bb7ddcd9bc30ddedd1ea72fd592531bb2f68d08f2a324bbf510faa28747eb462130e137f75b7e);
    Doubled(0x10000000000000000000000000000000000000000000000000000000, G220, G221,
            -0x30d9b189a55eb2424cd0fab15b5a2305a1d763de4c8a3d9549130591272dfda3c53fade52a441857a65bf6760d3799e0a48de0350462327825162443a05c81e,
            0x354f7a89e879646114498985c8cba3d00d11b95c9de93a88525a8ba4574d1990eeb5e9c13a24b17a2b3abd1add96422a434b0a041771eb025f3200be5ddfdc8);
    Doubled(0x20000000000000000000000000000000000000000000000000000000, G221, G222,
            0x8ed423b55e6932536e6f88041860611e233184c00781d7e11992a0f0fc6ea7585d8568bc27660cb415270838ed190992079d943b2f5947123ca19d9879b1743,
            -0x2c21460b215b3de0a9a099ce8f30dbcb13568f89bab68dc103f7c40ea9e781d1f9b77e65182350e0b6fc569fdefa982a2796f68da8a5db359021bfb190b4ad7);
  }

  lemma Powers228()
    requires Fermat()
    ensures IsMultiple(0x80000000000000000000000000000000000000000000000000000000, G223)
    ensures IsMultiple(0x100000000000000000000000000000000000000000000000000000000, G224)
    ensures IsMultiple(0x200000000000000000000000000000000000000000000000000000000, G225)
    ensures IsMultiple(0x400000000000000000000000000000000000000000000000000000000, G226)
    ensures IsMultiple(0x800000000000000000000000000000000000000000000000000000000, G227)
    ensures IsMultiple(0x1000000000000000000000000000000000000000000000000000000000, G228)
  {
    hide Fermat, IsMultiple;
    Powers222();
    Doubled(0x40000000000000000000000000000000000000000000000000000000, G222, G223,
            -0x17cd75f566a847e9971387e05d19a484e8da1f601b3a57b17946c4b304d74dedda125c392a0075d76f9a64db777b89b34e63f61831cde058c9f04a33de1b6299,
            0x1b479d58dd10bb4cd20abaab6cbd8cc5aad4466477ec304ce93831bd18999af0292594b428ca5c36bf00fff74044418ca2ae306bb6e88582d6285a61451bbd33);
    Doubled(0x80000000000000000000000000000000000000000000000000000000, G223, G224,
            0x4336978c218a6b632b41927ff2382fe883b16e6f7085a8cad510b321e559aa4cff8c83d7e3bb3780beec4d1501435503701087b6cfc063b197d59b257cba965,
            -0x3c20a335eb336ae08decd27567b0347248e5fc0b2892ea83789b5e595ea7ad86b4985c8b85cf12c21e0a0719e867090f342e2998e1485a7eb8e7d7c8a3749e2);
    Doubled(0x100000000000000000000000000000000000000000000000000000000, G224, G225,
            -0x93bc2ee8e1fc9f3f28b095f8ae4c419c848107140f64111b2e23b6263c606d097ff740a62ac5a3b1393245ace6f361b668866142526746c37a964d618ea2b5e,
            0x12190fbd8ce5ed58c58d453ee98deba75c9415f2275d2fee1b65a1742ecfcf3b099332bde2a8d011f09d1c3789fd94744241d467319991020b137f4c85703ca);
    Doubled(0x200000000000000000000000000000000000000000000000000000000, G225, G226,
            -0x82343db940d072733af12f6478a1726f23ab656ce644da444ba190700ee39429a0ba6c094317cdc04fad84cb24a74ae2015c00a293cf0a3ba23fa2db2170ca0,
            0xcd5aa8edbb0959fc338f9a31cbdadd35d759840e02dc9ae2d767a54bd873ea3e14d24e55065654a13df9e93001c046225c00c76614c5371ff3016fcaef2e5a0);
    Doubled(0x400000000000000000000000000000000000000000000000000000000, G226, G227,
            0x26b2c43b880acb77af046ecc3764880bace23dac36031271d0e9f04281548e0d5fbc28e61164d33ae9844dfdbb9fbc2f64557fba4da612c5f2d66101c208b98,
            -0x1f545d71ccf6a7662c691182eab9480e3fa1ece9c76cc57ad3817006ce183293282ca912487c8dfa8dda14af12b1f83b75542a112ff80dce8dbdab531a702ac);
    Doubled(0x800000000000000000000000000000000000000000000000000000000, G227, G228,
            -0xa6b30cbced656820b520ece435eec2f8a223794e7e87bcca2c70f55d3b90ffee7c9bccaaf86e88fa48c6576fe260fa1fe787a348e990647649e478adcfdfb78,
            0x1d90416aeb9c4dbbb699ca9215fadffa0a7171087d3c9afe84ccb138530f351f8f42f1ea3823aa47b1242f9f1ae25e5766a63d7a9fcb3f7efa5224208309a68);
  }

  lemma Powers234()
    requires Fermat()
    ensures IsMultiple(0x2000000000000000000000000000000000000000000000000000000000, G229)
    ensures IsMultiple(0x4000000000000000000000000000000000000000000000000000000000, G230)
    ensures IsMultiple(0x8000000000000000000000000000000000000000000000000000000000, G231)
    ensures IsMultiple(0x10000000000000000000000000000000000000000000000000000000000, G232)
    ensures IsMultiple(0x20000000000000000000000000000000000000000000000000000000000, G233)
    ensures IsMultiple(0x40000000000000000000000000000000000000000000000000000000000, G234)
  {
    hide Fermat, IsMultiple;
    Powers228();
    Doubled(0x1000000000000000000000000000000000000000000000000000000000, G228, G229,
            -0xf89a4c3f00710b4a3b96b7bf28f8772226f873877d44245c7ca0de1573a0074abf671f2cc7d53b7e00e3e25a7fab13f02e3e49874d339aac421516487d961e8,
            0xc966e8d1807bc953c26641e3ce4403b47ee5546b00919f65a065a6cfb0904d7267b01df36b3e64918f2f79bfe8dcca77fda0f6486955630ac102f172f9bca3c);
    Doubled(0x2000000000000000000000000000000000000000000000000000000000, G229, G230,
            -0x18192fd099959e0a5e43ad2e46a3a0dcc250aa5f95070642f2fe14f1260f3966cb10ea1e61439fd00ea7f3b3f0eaef22458700bcd5761f54273a8a7e86c09ce,
            0x19c7fed36f8e110233051791ab621f2163a6abddede1dbf52c630e0e79bd4405e0cfb6e2d4e045c6b0a73b1957afe14f672f390c0e1195e68697eb7ccc8181f);
    Doubled(0x4000000000000000000000000000000000000000000000000000000000, G230, G231,
            0x7e534349a9ee6543e3b19f1e8be4ad088000c3a4c80f58007106e3f0e12f4390325fbff26d6a52a229ac3c022f66b6ba2d5b518f2f0fd4b7ec91c8971f21a0,
            -0xe10f79779ab11b9aba73c806003700422edefdd7e0c73a6d1274b41f77118bfd2f4ca67f3e35f6aee629fded26d69dd669c18cfcaa8c0ee5ca460679eab7bc);
    Doubled(0x8000000000000000000000000000000000000000000000000000000000, G231, G232,
            0x2690ae3d908253de4200a4d471ecd55400399b1c7c3fc5241d63cd04bfce4f4422575ae503b07310bde112ad4a570c629844bbc2ba0d4f407de032339de8fe30,
            -0x1fb9bd086f3e1aa3c97fd9342ca6946b1596789b07f8949d309cc0b0e7b4f730d64f770199734cc01b9948a90e1188a0d00ecf91e1650a4cfe429df12de155ce);
    Doubled(0x10000000000000000000000000000000000000000000000000000000000, G232, G233,
            -0xddd462ef338b60aca87a19b61bbeeb5d20a6c33149b19269a40694f9a4f338896bf12421d48775373a5815a99911e67c0545a188327f21e8baf77bed5db9466,
            0x108c4631f39f1d27cc84b53327c449c62a3b3b3c42b56b8bb9395e389bc632aa2b7d64fb46da29fbd5614253d3f6e121651ee9de1840b1e74b0b1f1e5902ef14);
    Doubled(0x20000000000000000000000000000000000000000000000000000000000, G233, G234,
            0xaf99fad767ea87de2cd5781658e6ba2dd855612f192ac004a3d3efa6e5d615f6136b014612f9c3978b0e18a8136646566d00009ad1405ddbb030ef13411d3b6,
            -0xb0279963911dd6b9d3ab7ed00fd57d4fbcf6888d2e5c04aeb6287a2b0c40fe191c5d4c7bfe231840add2f2bd782a8a4875f7a2993e545aa8db80290c522519c);
  }

  lemma Powers240()
    requires Fermat()
    ensures IsMultiple(0x80000000000000000000000000000000000000000000000000000000000, G235)
    ensures IsMultiple(0x100000000000000000000000000000000000000000000000000000000000, G236)
    ensures IsMultiple(0x200000000000000000000000000000000000000000000000000000000000, G237)
    ensures IsMultiple(0x400000000000000000000000000000000000000000000000000000000000, G238)
    ensures IsMultiple(0x800000000000000000000000000000000000000000000000000000000000, G239)
    ensures IsMultiple(0x1000000000000000000000000000000000000000000000000000000000000, G240)
  {
    hide Fermat, IsMultiple;
    Powers234();
    Doubled(0x40000000000000000000000000000000000000000000000000000000000, G234, G235,
            0x25c4c630765982f798c3ef86e24909c3b6a7d48f7a9da0c7088a37e6977dd1fb120b772215ed22c36b66d73ca58785d9503c76f83daf5faebaebee92ee3be,
            -0x12af152b7006b9591bfda83c7fe88ac4d8bb2d686d7f897ae7ae9e737db9a2230e3cae337a6f97ffbff329a8aca1783b7f450f149beceef6593225d25db422);
    Doubled(0x80000000000000000000000000000000000000000000000000000000000, G235, G236,
            0x3da767a3ef0020e1be9d4877afc1e1d79c0b6ff2a6b4835a3bb9f606e7ff5774a4c5d267d4c45a19845094dbabc8ea18f14bbfe8830052790f40f443df86648,
            -0xab9bfe23b6c9fe2562ecb01c22f6621e1e5220e62f93fc5b08b4cf123657c9de9e92cd76f15dbc0fd45e544d0e956763353b6d803698c14396dab51b5b69850);
    Doubled(0x100000000000000000000000000000000000000000000000000000000000, G236, G237,
            0xaa52983cd1d790c1d1ab4c2df110189651c1712b040d08a39ea526c9b60288e03051510dc28dc403a85472ebe3e7e67e3e4d7ec414db16cdb9f216d4abbd358,
            -0xbed3f83650b3547f3834f5859143803ad3de631635d2577deeb440322a03273b7012a2b2d211ef2b957dad93a08a44b55fabf5d2d91855079be59080d1bbf6);
    Doubled(0x200000000000000000000000000000000000000000000000000000000000, G237, G238,
            -0x377fe6b8b7a689893b1bde6b60fb8e58b6d46e5a0b1bea79da717f694ca925f9a9f3adbc220b7de18fdae7627cb966286035a7050d7281316f886047b9793a,
            0x395fa039ca1a93fdc05b5acefd2fab3cf0f72bbcac308e188e5938eabb3364f21636d5171585255e6ddd687b6f87c60d00bea6b06566e71c488231318ffcc28);
    Doubled(0x400000000000000000000000000000000000000000000000000000000000, G238, G239,
            0x34b41d3182fb629a850af0324a0985284f548400c69ce09d1707965cc2ff9510ce4ad282e7d5231fff4ddea337e8760a68eaff6960be111ae37ce1ee8120a66,
            -0x11441b076a59b80680ce29219a367520a763b56b6e69281d5ee4085a56947b84e280f22e78264366382b24185508e73e1313ab23a4a3e97a1c28ccf4c50af998);
    Doubled(0x800000000000000000000000000000000000000000000000000000000000, G239, G240,
            0x66166e8cb73fa457e086aacffde1dca8ab7b3397094277209c8f2c08661901656aaa00f94bc6bcd981f30e7fccf21da0002c2ae7d80e2c0c15c80f88603f3da,
            -0xd572ee69cbeb25e750b7960cb7adb21ef685fa521028db0444efa2b38edb68d2432b857c56780f3c322992690c55debe2716862acec7282027d22f079163b6a);
  }

  lemma Powers246()
    requires Fermat()
    ensures IsMultiple(0x2000000000000000000000000000000000000000000000000000000000000, G241)
    ensures IsMultiple(0x4000000000000000000000000000000000000000000000000000000000000, G242)
    ensures IsMultiple(0x8000000000000000000000000000000000000000000000000000000000000, G243)
    ensures IsMultiple(0x10000000000000000000000000000000000000000000000000000000000000, G244)
    ensures IsMultiple(0x20000000000000000000000000000000000000000000000000000000000000, G245)
    ensures IsMultiple(0x40000000000000000000000000000000000000000000000000000000000000, G246)
  {
    hide Fermat, IsMultiple;
    Powers240();
    Doubled(0x1000000000000000000000000000000000000000000000000000000000000, G240, G241,
            0x2865d17aefd1397e5ae4ae02578ee420f471a9b96397ebb660a9fd8c5bd78aaab229ff38d8e4f4c77dca8608dd92f8ffd7dd2db12e0f7e65a5e6c7252183b5a,
            -0xa9267e7e08993f20cbc0a7e020ac3b808b231eed65f083745df046edfa9225955f51d26d813e9f7d903dd91d074474f28595d4009de6899faaa4c0f10304b08);
    Doubled(0x2000000000000000000000000000000000000000000000000000000000000, G241, G242,
            0x650572f165d2d3b691923f04ebefe7952bcd3b5dd4af24da9c4aa7ab000197f995b21941f847df139c54ac899ab1483db84784b63371779c55b5a7b936e9fc9,
            -0x89ddd02d904dfa1e9da03a6fe4b06c80d0b992ba4f74ea5632e51eff5ca9ab75303894d290a5327de08d2ab78034e97aa1d7594da5743e9e1960469ae4ec073);
    Doubled(0x4000000000000000000000000000000000000000000000000000000000000, G242, G243,
            0x2a9d46169bea29ff43fafbdfa780f2471b4db40e0817c133e66772bdbd1baa5900942cc41b10650de198af3f09bf3aaf19d173e752dbbe6c1478643d70418d3,
            -0x3fd9f94c0921ab5bc4f66c8df104b3f38fab73dbdc63ce64c02fec312756097d47ee09c5a2c41dca34edd10908f8b5295c3a58538985bf9c2a9063695dcc409);
    Doubled(0x8000000000000000000000000000000000000000000000000000000000000, G243, G244,
            0x33a84a86642c3e4904c0504a89f6df39ec8621fe04e5fe2c290cd3354857c6c077097cba271a0c24773a1be8f38db2299d00c57e427cc06bacfca231a499d19,
            -0x233d10aaacb271fe4f3e277e45337f4310d1f94224ef8cbe0c0c2659b138f3106077d4153870bd695f8d94fd40e029cac79945343072891f55e42aa4c14f295);
    Doubled(0x10000000000000000000000000000000000000000000000000000000000000, G244, G245,
            -0x9ca1eb1e975c3d9a3de49079ec6682c136716890960526d37c06e7918f065bf8b14474857cf1cf185d7cad2442cdc3236293c7123f254804f708c5d50135332,
            0x29ef27ed9f3c7f0970e50984a00220e461f55337a95c0e56e5715290b191ae6566623f68f361f58561936b7de34efb7edc4cc2a8ff8bb233b186a8c0fc6e057);
    Doubled(0x20000000000000000000000000000000000000000000000000000000000000, G245, G246,
            -0x43a7137a18bdd3e3726360d97c87a5c4762ff356b7d5e905c6ac9c73bdb5b3f41953c1147068badb63030b2c793843af7eda0581614f66fc8119261319f6294,
            0xa61bde97a6ff3a17cbdd4a72d3ad8259f50c042d987a155d008bedc96c72afba205e3bfdf5e23f406a8805e979ead2b02f4b3a1c5a56651943c2b86023ac782);
  }

  lemma Powers252()
    requires Fermat()
    ensures IsMultiple(0x80000000000000000000000000000000000000000000000000000000000000, G247)
    ensures IsMultiple(0x100000000000000000000000000000000000000000000000000000000000000, G248)
    ensures IsMultiple(0x200000000000000000000000000000000000000000000000000000000000000, G249)
    ensures IsMultiple(0x400000000000000000000000000000000000000000000000000000000000000, G250)
    ensures IsMultiple(0x800000000000000000000000000000000000000000000000000000000000000, G251)
    ensures IsMultiple(0x1000000000000000000000000000000000000000000000000000000000000000, G252)
  {
    hide Fermat, IsMultiple;
    Powers246();
    Doubled(0x40000000000000000000000000000000000000000000000000000000000000, G246, G247,
            0x3d0b74659a71f40a6aa47587dfea3b1f8333ebaafa54f835f8236bd5345701be35a7065ebf4fe1f5ca0740e07bad12dde511fa91bd9eb16ac4a322515c0f806,
            -0x641a04f5a907d41e97dbed53df08a5d520a85a5052ce769737e200aca7b5d4082a542bb34bf730ba41b4297e5631a2242c8b6d59ccf6fd63fef4a0451c9be88);
    Doubled(0x80000000000000000000000000000000000000000000000000000000000000, G247, G248,
            0x5fc498c96e760ae33e005f7a101d702e72e9090f1660f57f1b7a71d9bbfe0fa78e35c20b1d691aeab550bcfc93719c47201e3123386f8e0d869f14a8883e856,
            -0x70bfeba24dc033df4f0752eb8caea8af00f02882e0f6a7718fdb62256c40357d07476be247a458299cf2e0b86a90a2e6c4086a9c5dc248553b08d10bc7259c6);
    Doubled(0x100000000000000000000000000000000000000000000000000000000000000, G248, G249,
            0x257ed3e1374cc3774bb326cd7b3ceb1d873d625053ebda7f277e2bf55db93ab39432754a165a85acfd4c71d9ac72c17c4544a2920218b60894a41bedbd314d1,
            -0x7955f62b1f29891caad8842e39d9f16c8e81e8248eb68bf542b5e759e54544ea68015e3591ad968f3ef757428466c71d6704e2fac4fbfa54f0e48c47981b066);
    Doubled(0x200000000000000000000000000000000000000000000000000000000000000, G249, G250,
            0x19114b9a8ed0f00203317ff213c2fb146f9ae0f2342ee094cc3fa39c1995360ce9618eb4c3d243490799c27f1432c0c6296a31ed5a485f6e36ebcc4ba9b62c2,
            -0x1e1cf7e6b8444f8f692bcaa1f69e099802fa910052628fbb25ab62e6cc05544dbca585584f4f3905d3ef48f3789e63d4371ef190eb228c5bcfa0727834bf050);
    Doubled(0x400000000000000000000000000000000000000000000000000000000000000, G250, G251,
            0xeb96c5c9d7f43e65cdf74f6b726e0a2126af511769fb812c9f3aa3ab44135486d83359c4d0c8f3898e235047d56903192ff0419ed74de456d31d5421441b,
            -0x521b09a9c8cf4ddb8810dcb4026609f29b0aa3981ca65aa397967f8b01f0ea5fc8c944cca97ecd1f73623951093385a9a5bd4c89a714985a2299016c7ebbc);
    Doubled(0x800000000000000000000000000000000000000000000000000000000000000, G251, G252,
            0x175719c8a73bd0e72b9ca39d5053ed69b76d85bccb2c78aadde93d5792aac9487eb7f7a69d8bfad869da8e5d90cfdea9377ca5a1e1d6e2400dc49f440d2c922,
            -0x1505fd79522a147dda9f2f0969f1a2b6b2debfa243fdc1840eea8d66d710b8c220634b15aa268878a2a53c641fd4b7eb364716d74580d6e157d930453a70122);
  }
}
