/** A prime that key generation for 512-bit RSA keys can take for both p and q. */
module RsaEqualPrimes {
  import opened ModArith
  import opened Powers
  import opened Primality
  import opened Bytes
  import opened Rsa
  import opened GenRsa
  import opened Mpint
  import opened Certificate

  const R: nat := 0xc209c380bd4a4c91030440201b7462845dcd3379e2e069ab3bdca0eb300aaac3

  /* ---- R is prime ---- */

  lemma {:induction false} PowersROverQ1(c: Base)
    requires Named(c) && c.n == R && c.a == 2 && c.pw(1) == 2
    ensures c.pw(0x121546) == 0x57cd6e23db02bdfcea5884b1ab520086ad01a08397ad1ad678690775f3cf7b87
  {
    var e, v := 1, 2;
    e, v := Zero(c, e, v, 4, 0);
    e, v := Zero(c, e, v, 16, 0);
    e, v := One(c, e, v, 512, 0);
    e, v := Zero(c, e, v, 0x40000, 0);
    e, v := Zero(c, e, v, 0x1000000000, 0);
    e, v := Zero(c, e, v, 0x1000000000000000000, 0);
    e, v := Zero(c, e, v, 0x1000000000000000000000000000000000000, 0);
    e, v := One(c, e, v, 0xa530d88e65b5e2b6d52739f05f969525f807384de3b0503f4579e7df93032ac6, 0x2a37efe3e);
    e, v := Zero(c, e, v, 0x5c6cb8d1573eb7d835c473a2a6ebc1cafddd98a29ab20003a4412c043a4748e9, 0x8ca1d4f6c47e18bb6530ad83628b4ac5c4c4d2d55d448b8650034469d8fa6529);
    e, v := One(c, e, v, 0xb0c200ba015c91c0b61ba21d704dd268cd577c31c66bfe82c77d8b12414f4721, 0x580c42715957724063ac3ea5a555ecb88d175322ecc41c333ff0f9c6db5340eb);
    e, v := Zero(c, e, v, 0xe2b07039fe8ee9b6b95f7366d832dfbc3b5b1e8fa78cb75c51cd83410ad01f, 0xa10434a8aef5886611077028312ab4c13200aaa560d2a864fbf1ab63a1e5bf36);
    e, v := One(c, e, v, 0x33de3ee1ab79fa1b093bcdf8e3723ede3d577280710244953a7c547288bf4667, 0x211ab473d509ba648f7fcc5209e0d3974533267eeee7e9327847e5789fac9);
    e, v := Zero(c, e, v, 0x3ba98b3693a72f88235c9538c4458b49168017dedcf2e279f36c0375a0d8571a, 0xddd651cdb4a621351462d8f2bf1d984b4b0c5daaa8ac240b4c7ebfaee1894dd);
    e, v := One(c, e, v, 0xbddaa083f2d01d52938d278766627ef9e0fd7f88a9acd2196f8a524196d013e1, 0x24b0877fc7fa229264350f8166ac79ab95b34f680e7b0fc4bc5d1af8af2a148d);
    e, v := Zero(c, e, v, 0x4dfa66e9abfd5e40be202e6fd97596b073f95f01e929e16b50c680891ee4d085, 0xb9c29675035712d44d87750cfa29a1100d6b85d644585e805d6927356512ac14);
    e, v := Zero(c, e, v, 0x92532b63f647bfcc95bbb7900ed712fb590f59e4910047622efffabf88965c17, 0x1f564b0b5a2fcf58b3e83a2e8048394123767e86eb5223a7d39ea5dcabaaeed6);
    e, v := Zero(c, e, v, 0x36669c943036f89be59aad2ff16e74072188e454d77836b3c8ec065c306ab86, 0x6e581944387b89d95c11e53ad45ab0b091cd29cf5e0570d43d217150039df099);
    e, v := One(c, e, v, 0xd5b7b6b585b67da995090e8d5a55988313014b7d5738ab58090971e76597add, 0x1e80f8cc8a17b8d8b098ec110d1ec34681aefff535709967510ca01b5b5c39);
    e, v := One(c, e, v, 0x4e138efa431904e757fc153427c73033203e107e924dfa2a2365e5d6e20e31f, 0x1d6c93b9463ac08acda975b69a89057bf61b1d5873e8237106e9a2ca0358e91);
    e, v := Zero(c, e, v, 0x57cd6e23db02bdfcea5884b1ab520086ad01a08397ad1ad678690775f3cf7b87, 0x1f6a8671f960a0fef0823630158d0b77bd5935d57e9e8fe0f46f7b979fcd3e);
  }

  lemma {:induction false} PowersRFullPart0(c: Base, e0: nat) returns (e: nat)
    requires Named(c) && c.n == R && c.a == 2 && c.pw(e0) == 2
    ensures e == 0x10000000000 * e0 + 0x841387017a && c.pw(e) == 0xaa901522b901abc8d6d7fc6bdf77c705695b5bc3f17086c6a1e9b229b1b6cfd
  {
    var v := 2;
    e := e0;
    e, v := One(c, e, v, 8, 0);
    e, v := Zero(c, e, v, 64, 0);
    e, v := Zero(c, e, v, 0x1000, 0);
    e, v := Zero(c, e, v, 0x1000000, 0);
    e, v := Zero(c, e, v, 0x1000000000000, 0);
    e, v := One(c, e, v, 0x2000000000000000000000000, 0);
    e, v := Zero(c, e, v, 0x4000000000000000000000000000000000000000000000000, 0);
    e, v := Zero(c, e, v, 0x1972ab3e358756a6ab423ba4a12909cf61d88ac8ab122d706bb592072e32959, 0x151bf7f1f6cf86f4644660d2ae1dfefe4d);
    e, v := Zero(c, e, v, 0x438989bef07cc182a8020446f9a54aacedb06a6ae012d618b723b63933e55564, 0x35664953b395f28fad7115bf91e2dba9e6c73339dff4d684efece477aab6f);
    e, v := Zero(c, e, v, 0x589eec3ddadd5b8d52e72a0eb579945d48fe9483d05a07b53a9a22d852a5f65a, 0x1781d3c3f7e9ab228adf33786bd1d5ff189d665c6b1634ac96aaeab9bb6c9d12);
    e, v := Zero(c, e, v, 0x4b9a9e82799fbd76c42fab5d1f78977cf9e9d5d7f8ab1ccefa87dc409c2c0ab7, 0x2879891810f8bd5cc933e75035c5cc52bd2f040cd32169556a7c8115d01f0e8f);
    e, v := One(c, e, v, 0x3cea22305105ed8b60ae56842cf2732917951dc82354eb2e55649c4de9b5ada9, 0x3aea75d414d09e68d2af50cf3a2bd1548fafa3c407fe69afd5170d8ac48e7693);
    e, v := Zero(c, e, v, 0x7919e3134b5d4b8036f61b1b629686b88c11d00c61602bb27e968c634a242f4d, 0x131f7b50ce25a297602aceaa8882bd1f7b519165b33c41d1a76fb73082d3e06c);
    e, v := Zero(c, e, v, 0x7724be9a0579b6018b9cb8d43b55ec08df55c143a0e1df5fc1765831dc081c75, 0x4b94958d1ae35d4e6df5d0e312476899e4d3616fd3bc888c1f024408cf2c293c);
    e, v := One(c, e, v, 0xab021667e308f0151300ab434494dd9f3e2411db346e20e61e636079801c43ad, 0x9250354cbe164a31507ef2a6a3e164eb49976da97b5a6fa52f3d889597808557);
    e, v := One(c, e, v, 0x609e599a8341a38b22211ea5bac2712c1d0d0c9838625fc6a387935e82272b60, 0x12d6c505cde0a58ec5e12185a582b76f2ae8b90194b2049895551d686e85f60a6);
    e, v := One(c, e, v, 0x3b2983129c83f7b48cbb773b6f6889a2dc1bba673d19f84b7c46d0b6d4a6aeea, 0x60383dd0427e5fb0064580c6358b3eb4677d4db5223883f0323f101170ec5532);
    e, v := Zero(c, e, v, 0x533c5f123b13c48a8e06c12bd1ba20d92d9af6d5de37e6610c20c0e80b7d6ee3, 0x1209dc679458a7bccf3899f80ed93c87d9938148949a93763d1c1516d92a6aeb);
    e, v := Zero(c, e, v, 0xaecf64841ac031f50d11004c1ef85d37e3ef4f0fd1247be4879e7b117dbd6f47, 0x23b492d444d6e3910932d59365f86bcfe749d433508adecdd07f179abb2aa5d6);
    e, v := Zero(c, e, v, 0xaec2ecc3646b1570b7852a205c1829941ac8cbb3db79734c0a9a08ddb9e6ad8e, 0x9d7ccc87b3898430b9e77e79ca3ea9d356b95344f59f18aeec53e0668148e721);
    e, v := Zero(c, e, v, 0x6440ff33e3b9de2adcca51d4897bbf658e0b7450a9e21e6207e4cca8f2591b52, 0x9d66566482474b985f1c3e0f35d24547abe3cd544b7d4178c5be9b6b4ed4b7a6);
    e, v := One(c, e, v, 0x88c9b18d5a03340b9d8cc3ae79c2c67f2c4469899174ccca94d5b864198c49ea, 0x6798b91ad3f5114e1262a5347281fadb77276140dc3af3243d5fb372fedf5d0a);
    e, v := One(c, e, v, 0x3832a9a6422e72568778189c735c76e9ba81e8717b812ff0ae247c422b1e41a3, 0xc0dbb0f74d45028952824ae4b16400ae02b5f09e71794ed6b6f33450124b30f7);
    e, v := One(c, e, v, 0x879ba02ab87a0aed5150310dd340fb99942f45e45468b51bb873819dce0c9a53, 0x208d6a7190e3af199e057699b3645abb3b13573b6e3e795265d8c4101fb0cfd5);
    e, v := Zero(c, e, v, 0x719e782b38cda6ec5d57264a270238766a7cc9fd649b94a356e7ae23443730d5, 0x5ec5cb7bf066231d421111c2c5aa6277c95c913627535604de0541e360e8785c);
    e, v := Zero(c, e, v, 0x6441d20c10adefd9c92b4c96f82f19d29e8ed08bb82648d7fcebea91521d3cc1, 0x42879498bfd25dcd3cbe28c6390b004fa3a51b0d111e58586cc5193f92906228);
    e, v := Zero(c, e, v, 0x56acbd613a65f87d396fcca690887f22778ca41f007c81a190a4d30f0fa693a3, 0x33cd366e2a9123ad76270ec4cff303acd556d2f2d8e1680a0b91cfe40c31e8ca);
    e, v := Zero(c, e, v, 0xc0f402c71e19e5e153a60d7d12f05be74162f450d43da3f7b4dd3ac35e73cc53, 0x26b7791cdb839f74e34be9bdcba282673e6afc6cdd864aabe2ee1c16199dc952);
    e, v := Zero(c, e, v, 0xbce9d1fed883538fa86d9292a9c428965b7a5801505d374c51bd8ade6f90990, 0xbfdfcfa33b791a5d7ba9525f7185e0e014346e3e6846203246a1eabaea8b11b3);
    e, v := Zero(c, e, v, 0xa1018fbe5b3f9a646bb38086cd9c85929b80256f03d694237c5defb6db51ea19, 0xb7ec86e2bf9564ed795463ebb3ff52b059e402e72bc24eb892b006c10a090d);
    e, v := Zero(c, e, v, 0xaec5abb59c87d2a1143ae5552ada54cbceae9d9cd7f4a72a8cb461e1eb31b838, 0x8598e62670449510922668f0aee3f6f477c1b4742a70e43e9016215d7f9ccb53);
    e, v := One(c, e, v, 0xb5209648f8c5ed43831f867c061b70a861c24ff654e616fed7725929e2a689af, 0x13ad6914f998fa80b76f429fb3a9ddec25172452ecbdbd4b5ce1c91c0832ffedb);
    e, v := Zero(c, e, v, 0xa468a19208b0266cd798a0f747a6bc7e565f1d04ace72780ee77cfafea53fc39, 0xa9135445223d22825eb335adfce5c12ac6d45a918af721bf5c60b36cb9a86a78);
    e, v := One(c, e, v, 0xc0f804a63bba9bec1aecb2bca38c1eaa60b82e7e8aee97cf4f28807f64a1584d, 0x1169b7b248a231d603304420d13e596034bbdc34d39805fc19eb3c337c9038747);
    e, v := One(c, e, v, 0x83d910c3600739afe6e7713243a7c6262c2a850e2d74fde3d1852ed30a334ec7, 0x17fcf8ffb6e1472f71fbca0f458c02ce617dfc9583cf3b3eabfb7c0bb44157b99);
    e, v := One(c, e, v, 0xbb2f3b4297d219c415a10005bd14251077e2a1f4a300ab31d1f7fb1779b0957a, 0xb32e111a5567f0ad6c737fd0d3963fa6cb98e5afbced820dae2992ec0385a9f8);
    e, v := One(c, e, v, 0x10f2efce2328ae6e0d1c719c9d019fa6c511d499f9d6ad578641d5fcc800ac5d, 0x1692557b4dc75a51ddbca44515c696446a82d96b1b50e848c69ded6c7c58563b9);
    e, v := Zero(c, e, v, 0xbb9380520f7e82ac0099c3c41012e60f028fd1b39d886260ebc675ac2fe020ef, 0x17b001491a7a28851f0797d9490921aa0ecad6e62d91caeb7c787e73a33d21e);
    e, v := One(c, e, v, 0xbf3c1bfc774cf48ebc5d5d2d39d31ed847030dd1f42712edc2e37bb5f659d187, 0x16aa8a8f07525005da27520208b1c0c0c999b6d442eeb576b73020163879966a9);
    e, v := Zero(c, e, v, 0xaa901522b901abc8d6d7fc6bdf77c705695b5bc3f17086c6a1e9b229b1b6cfd, 0xbc78d2bae65a1016884bb19353f170f1917f588f3bceda2fa6e12f3cde518bbc);
  }

  lemma {:induction false} PowersRFullPart1(c: Base, e0: nat) returns (e: nat)
    requires Named(c) && c.n == R && c.a == 2 && c.pw(e0) == 0xaa901522b901abc8d6d7fc6bdf77c705695b5bc3f17086c6a1e9b229b1b6cfd
    ensures e == 0x10000000000 * e0 + 0x9499220608 && c.pw(e) == 0x605bf06b4c908281360d54367fdd4af3b1fd11d274ef9e9e77dcf854dba57474
  {
    var v := 0xaa901522b901abc8d6d7fc6bdf77c705695b5bc3f17086c6a1e9b229b1b6cfd;
    e := e0;
    e, v := One(c, e, v, 0x20fda46cb0443fadac6fb86364418e65bcc984664e30f6ed7bf63700923aa572, 0x12bdaf10101a27e738fd719dac82172c2c8a74e6022a55acf20fb3045ce9ce0);
    e, v := Zero(c, e, v, 0x122a57e995a72f58efd43fc7989ca005fa0ce4d9b225b110e1abc63f490a3096, 0x59bf2565eaf500d1dda0a26a11bff9e6ab3e20b77ac73c9693adac578f3423a);
    e, v := Zero(c, e, v, 0x943ed2602a344646f36e0a495cba51e542cd109d8fbc3cbda678870146c92a2f, 0x1b35abce5db025bfa1706866b9240973b9bf4a48350298b0d880fb7cd804e27);
    e, v := One(c, e, v, 0x25f589616201af92d435bd7a9a5c75c58217c1682b4b26de4a2805d7c301e160, 0xe284f4ffa4dfe3b073b1ae6eb873ed7889e7934f4e8c36175c5b9388e5374676);
    e, v := Zero(c, e, v, 0x41207a617ba900675442f4ebff8fa877c1ad0724bda6aad19872ae05619dd948, 0x76d03932068022b89fa87574d17f81d21ed1e21ddfdda066a659b20ce60eee8);
    e, v := One(c, e, v, 0x26c18f1f6319cc5390b145699b9205a3fc4daf882448d30350c9bb3a0c16d940, 0x2bb7e28cb6d76dc60e2be5e8ce7c2caa6955612db5c47621758f921559eb5fc0);
    e, v := Zero(c, e, v, 0x33fc810aaa20a685a9afbff2b1ac9732f51b1d5a365e06736dc194d88d63c224, 0x7bdad34be905e593328c6cb3b69e1585749901fcc0c1ffce30e0af3840c04f4);
    e, v := Zero(c, e, v, 0x12461c595484b08c75f64172b85ac143e90224bb5ea76274da04f52fa889109, 0xded9711800fad457d03c7012a1ff0405063676ab67e0fe9a79d0cd68d18856d);
    e, v := One(c, e, v, 0x5f086f286768a531e44d953cbffd9d0fa61ec2f4f7623ed6bb12a3cc2e86601f, 0x37123532360c278261bdaa6822e7be996afb25eb2151781f3a9b091762341);
    e, v := Zero(c, e, v, 0x615d55b5ee498da3a48632426fbc0314232b9ea93d189cf0647e6cbf7a216e11, 0x2e8b3297a1db9e2af128b1b6c1629122ef43986c489d156f42fce16074829890);
    e, v := Zero(c, e, v, 0x94e8f9a00eb1fdc303f808c01e8e323c60c0ef09774bccac3f117473e400bc56, 0x30db0d2812f8c3dd33643337853060b52665db8ca5ab6f50b094d83686a14159);
    e, v := One(c, e, v, 0x302b57040788f77df5ede82caf584d460a17b616ab748dbdb47af998bc7816b1, 0xe48e1cb710b07b14f8972cb05c7c78bb1eb8fcabdf11b6c2aca94306a04e391d);
    e, v := One(c, e, v, 0x394df1ae0e4912a38b1d33276c505fa082b9c0bb1a5aa623ddad4501a44eacf1, 0x17ea6cc6557e65af3f34618c9ee425dc36af2febbda626839157d7f0c86e19db);
    e, v := Zero(c, e, v, 0x40c5345d593165a0dc920eb3d18d0ff879db2a754b0d960bd42a8108962fbcf5, 0x10ec69b95f9d9a5e71b8a8feda8abd48d2c8fb17bf680ec514d850c3ccd273a4);
    e, v := Zero(c, e, v, 0xabf744c05f7148d74d43b99ec8e2e580dbcef3625869dbcb3f9a0e3b5c0f8f3c, 0x159ed71798f0f06229454bf5279674a6757f11d07cf7eb7162628f455fe4c9ff);
    e, v := One(c, e, v, 0xa7751b410ec47013b95758c5c205fa355992fbd0ddda0b4732a353fd76b28b5c, 0x130cf0eec235d3a1ccf78db43eb75fcaa859ba16de49389b742430cb1fd39a7ec);
    e, v := Zero(c, e, v, 0x3088de339e539d76d32daf8ecafb39404c08defc91a072ba4a05d0a7ce3dabaf, 0x908499347014204a67beae5cea3d170c750899b60115d49b61dddd2a0fb76d0b);
    e, v := Zero(c, e, v, 0x9d252c9d41cc9ade1d0e7ef71108d7c697dd04f44ff6f7f2d86a9664ab2aefdc, 0xc23d31842b3333bb85738d87fbae3ea108559d7dd72bf6692add3d0ed54f8d7);
    e, v := One(c, e, v, 0x83d1d48d0e95e50752b5160aed19c99bc69982f0d08af7aa4920061a600839ca, 0xfe889d1a712d6d87c9978e72ef3dbf7a7f0c0aa8bef3f7a1cb4b8a700738ccf2);
    e, v := Zero(c, e, v, 0x2146c1b6790adff506b79ce2a96f4eed6c41e9541792da75b2dde427c34f52a9, 0x598d33af1c3705a8845e5c21754e4b1bdf0a3775efbe71d1e0aa15c8065402a9);
    e, v := Zero(c, e, v, 0x74580663960a64a046411e60d1a919f8a1089785a045701d3cfd5d4139133e26, 0x5b4ea9894e67b0b64fa8401e4229d8089481efbc3e18ced7c2cb3d6772fd039);
    e, v := Zero(c, e, v, 0xa9b16cbea4fce5f7d4d0ccd4cffe4ffab110a1096c057ed19327ae0cb9212f2c, 0x45c24883fd5c60bfae9e97c1f9124c505c1cd713413888a4dc625b971bce3028);
    e, v := One(c, e, v, 0x35a53b4c3f8cc1505c271f4786bb22019fc9a738aa968def7744bda86414d1fd, 0x128ce0ec062ba6965d81280683aef9ff7d95db939e3b1bf2a23fae1653c6fae21);
    e, v := Zero(c, e, v, 0x12b0bf798264213222b16e73d474840a332702e694dfcb5736c7d968a2316340, 0xed4ce5f57a51e45c082e0e707c4b30ec2aeab6394b52c2331963645c8638583);
    e, v := Zero(c, e, v, 0x743eadc5b54f67a13406f1821c30dfd0ec45d9eed56ef8d212a3aeeb7c40042d, 0x1cce22646428a62461f7b9208d1245ffb2f9153434736dc0bfada855f65e9b1);
    e, v := Zero(c, e, v, 0xa34449c97f084c55fcfbfb24460f25b982933b6fc89202ffb831e835fb3ae6b4, 0x45a3e6c5b497d036446e5ac04992764fd15f790d2b4dd2fd9c0d1dde2c200ca7);
    e, v := Zero(c, e, v, 0x1c63631639ea2a5b1b03d10d83cebf21f922e426aa1af70d17d06c47aa0aaacb, 0x89600e5f2a779927a6d7a1580df44f83a2e467af4dce2d7b5cccb95f9e671ed7);
    e, v := Zero(c, e, v, 0x94af6d59f94cd80d4df2cc5d5ba6696f34fcc2895d1dc835281c1ebec2d2badf, 0x4273c5139b21fe2a4d4be8f8a2d386f687725d782a772f39ebbe1c21fbe0fde);
    e, v := Zero(c, e, v, 0x4977aed7405118e6d5990e372a73e5e97705ec87e6c122c0da7a28f9a1bdfbca, 0x71eecb8b0c682c91bf4c1399f044fea0a5120acbd635341e3484ee233cbd363d);
    e, v := One(c, e, v, 0x6627e1bb7a03ec614ad8ab31a9302591b60a2529923996246283e890f8bdcee5, 0x37a2154fa68a327f283f64adfde923caa739dfeac97c07c978c64b298c11fc61);
    e, v := One(c, e, v, 0x21f5a0fe70bd4424337b6a6133ff90d523915277a5a19abc19e3d5d99d7d71ee, 0x6b908144df2a22d1b51cd38bcc87758a2de067d090401efeec011e8ad8af9cec);
    e, v := Zero(c, e, v, 0x216087f36c6caaccdfa8a884f33ea7ba8c7f4aca99fc47491c5ca37685997998, 0x5f182d7e039de9a5a3fb1847e2831b0e6d0a6dbe69064d361965879f0154ee4);
    e, v := Zero(c, e, v, 0x17b5b088bc2a27b5b05cf880ad12ce7a14af57ad373764ea0faa2e00246b4786, 0x5bdc5232532e10b8e217c673518e619afa9ea0b5c4fbab61b13c7627dcc82be);
    e, v := Zero(c, e, v, 0xca9d41a43a78d752196d558a347b43ccf033d9716cca6d389709e74e09d84f7, 0x2e5a969fee1d7364ba36f2b9e6908fb586863320c2f3b5559484979a9d6e14f);
    e, v := Zero(c, e, v, 0xbb83f8732b8397f49012c0ddd33912d793c3844f6c7a7c2d3a179f7d6073735b, 0xd391c93a5edac490ad747037f89cd0725e028f9b0246a6be4a64876fad75d2);
    e, v := Zero(c, e, v, 0x839c8206ffde73975ea8d9b2603a093f5da897488aff468a6b061bead4a96af6, 0xb5364ec8d8de43b36613adf7477c36860aa7693e7aeeaa6a55ce3763de34f6e1);
    e, v := One(c, e, v, 0x808b3c946d9d941a5d0712b53368d2cec48a7c0f4716f86a7a1c35f13326fd0f, 0xb2899ec95b16385658999e368eca00910aba40dca25af34b44c1d420533f6fd3);
    e, v := Zero(c, e, v, 0xc331cbd06d8e6a20b199bd6f0d4f6c9d63d5a779165fca2299ba088d89b441, 0x5527f69832255da9734a89f393525bb878d8cebc9364f77e2533384e4b4dd8e0);
    e, v := Zero(c, e, v, 0x1c1fe867c16a4b570ec8236fde85d2e40bd93b9b41257b195e86c98344607c79, 0xc45b97c3bd583cf5052ae81c1a36ac4c8627d08815d4772b4498cca60358);
    e, v := Zero(c, e, v, 0x605bf06b4c908281360d54367fdd4af3b1fd11d274ef9e9e77dcf854dba57474, 0x4139521c709be0b0b13a1f5fb4bf2b3bd6eaf7a3cefa475c1b752b6fd85427f);
  }

  lemma {:induction false} PowersRFullPart2(c: Base, e0: nat) returns (e: nat)
    requires Named(c) && c.n == R && c.a == 2 && c.pw(e0) == 0x605bf06b4c908281360d54367fdd4af3b1fd11d274ef9e9e77dcf854dba57474
    ensures e == 0x10000000000 * e0 + 0x804036e8c5 && c.pw(e) == 0x32459d8fcfc9aa52a73a40c912ae5235a97e9ce102adf757cbaa0fa764cbedb3
  {
    var v := 0x605bf06b4c908281360d54367fdd4af3b1fd11d274ef9e9e77dcf854dba57474;
    e := e0;
    e, v := One(c, e, v, 0x49106d9269299558ac2d9b7ba5d2b16aa8eaa423404fee9e14a5ed7cb4ea6824, 0x5fb42545ce41581c55f12ba3db7ee3181d5ae1fdc4462bfda3b8223b9a295354);
    e, v := Zero(c, e, v, 0x26fd23e9e615c08d50d4d52852009c3ebe259404a0a9af7acf656f0ff11a0e56, 0x1b83110ea8a1a446577e36f26a776e2536ad518f2ec01c97de0f7eb281a9febe);
    e, v := Zero(c, e, v, 0x1cab13bcbb260b018a44668812cc23c87b849f960be830858ad0b3d0416f3e1f, 0x7d58c83d3b21dbdbb2288b959efe81fe4a288982cebdbfc0e74e6ebce4bdfd7);
    e, v := Zero(c, e, v, 0x1ef3d43686511d908bb38214ddaa018101fa809df15b1ab54941aecb07a643ff, 0x43c50dffd213c63062cecb2e2c45901636aad27bb66f2efc56fafaba1041d16);
    e, v := Zero(c, e, v, 0x8ae09222b0f0bd8a28fe8986dfb6fd37ae07942974c3d0388498411edf26968a, 0x4effd0d66f9ea17ea79a94195d22cfa7c8a76ba8cd5f01e0a36da681977fb3d);
    e, v := Zero(c, e, v, 0x4c9d6d57728e4f44e239e0cb7105345a05feebc6a6702b0b1677f1e571524c9d, 0x6365bb789b0a41ccfaf6a7f614ba80a8943ed54f93a1b72a8d2fb30bc6ab70ad);
    e, v := Zero(c, e, v, 0x62b2e093299a1afb8eed8bde3513bf4ea4349045fc057c93daff4d0674542e4d, 0x1e404277b6f37b79c758347df0cf0a3bdef27bcd9b41abecc12dc0e606b2f654);
    e, v := Zero(c, e, v, 0x909232829cdda0b0a7ee0158cd9060e87d061da30b0cd1a6b0574f55922235b3, 0x323428958eb15934bdfc2ca8dc511a9e28a5e28d2ff2dad5c0c77aa1139e0952);
    e, v := Zero(c, e, v, 0x506df583855f8b575b4d4824f7298528a4548bc193a33c2888751ac61487c596, 0x6bb703754e87036dac51c2b44271279bb85fc28366c96630721c9ad649b55cf1);
    e, v := One(c, e, v, 0x3d2484e06edb95ba93257a8f53eeddb943cb57cf8ca597b56eeaf660e5990875, 0x42ad3a83c0029d40886dba94a8bcdad9ca92f1a145e49cb4ccda440915fd9031);
    e, v := Zero(c, e, v, 0x1b839470e171fe00f00fcaef6cb58e78d099c517853b36af5cde50c692eb9526, 0x1344355731fb0baa5491e50fe0c7cbdc5a98b46a3ae987e557df117852c9ab31);
    e, v := Zero(c, e, v, 0xa5173b9261a927cc5840c1e131ab0df852e69f16a61f2a5a39e3357bf12c1cc9, 0x3e6c1c7f1d23508eb159c630599c69cca423d83c0c336d5c6fa42d470b40c09);
    e, v := Zero(c, e, v, 0x895222845260798b78b78f246a59a3527a67dc7284de314d3cb7d1fae591fe0b, 0x8c763c022bef07e0841c43e4632c1e3e51eeef034a765073caa3a0c3cbeb10c2);
    e, v := Zero(c, e, v, 0xed4a81c4ca0b2b691de9c6419c8dfc7e999ae53a62b13712b60864eb7369c5c, 0x612e970412d291a4199b332bc473eeedbaff8b8fe7c4eec2163f2bc50815a39f);
    e, v := Zero(c, e, v, 0x197ebd3afb4e6fdcbb6e9025e04de84c28500337055c20af3b8e05e383c591ed, 0x1222f77a95f546121b0be9e56f791b4cda5a15961f78e1db4499ff1af47e421);
    e, v := Zero(c, e, v, 0xa53d4d7b6f8ee6b297fa93d84ac44dc3ee55a654b5889848624fbc52bed530ff, 0x3598fd4f3bf69424615bc989cc94c4ed9898fc5b9834ac34070b9ccde449f4e);
    e, v := Zero(c, e, v, 0x17124e1ea5766c07a80f52f576e79b9fa82c05d34d236e2c6e44fab15eed72b3, 0x8cb70b6e3c9bcc6bb0d1f5de840580f00bedee001e80c6d5767b6a9f418ca69a);
    e, v := Zero(c, e, v, 0x2a801e7c361261a79ec4aba0783d536866994adc9bca0161245f8ba81796e98e, 0x2be455c271dfa3446931b24acdfec9f6fa46e0758455ab37ce7e01a4b3d9a49);
    e, v := One(c, e, v, 0x2c2001f3e8e6b784f15951f8377eca6c3710b2514cd73814b07224e55fed864d, 0x129e2d7ace520dbe709c3fd0b5a894b10fdc3c171a374a7c220b0e37b2311229);
    e, v := One(c, e, v, 0x6786d18f467286be317b98abb598c824c442a31ce67b604a7ce13ab35f5e7eb5, 0x1411832c5dbbbb322f1b624558e025904cb192412d0c23e80451316cfd433e1f);
    e, v := Zero(c, e, v, 0xb94c2add738654aedb7c4e08305f8ef8a2fb6916403ee7bdc05188d4ffee78cb, 0x373c3fc6823dfd3174b071b01b872b9f6eeea57a6e779826a29af9d9237a413a);
    e, v := One(c, e, v, 0x1ce0cf67989e9abb0a269694c80f1ed4c00731d6b3d723704fbf49724f695e28, 0x161e6bb2f38b705a072051f6b773e1729920f754a86fa0253e05add24dd220c6e);
    e, v := One(c, e, v, 0x1fa2f7b08e691e04196ef92114e14bd732c6b257dbb2ef7447371bfc7e4e50d3, 0x89880dd13a5687a33831cc61654fb628b098c0633ba624e5c4d51275fe378cf);
    e, v := Zero(c, e, v, 0x40591b4522f48b34592c9617c37f7ce3b0028a07028d6b7a393714d020fd7bb6, 0x5287b355586edae58c1a62c673ab9ccc8c78ee2d638080e5ee7f541b1ef23d1);
    e, v := One(c, e, v, 0x4c164ad0a53167fb59400079aa1d0f968b0d9abdae790bb9db05b86cb730f410, 0x2aadd14864ecc291c035b11e7b849c98ec3827608809ec9780450811b4b132e8);
    e, v := One(c, e, v, 0x561beb384b5e8d2116a5b295219f6bbef35852572f79cc90b6680cf4ca575c8b, 0x3babd3490560dc7037c41c5f91e1332d51156b7a8f27df7285176a5a7b203b67);
    e, v := One(c, e, v, 0xa8f959ccf33f6a0952dc19df571bc95bc829641e4990be29448d8a656a2e468f, 0x4c6d07e012f8fe28b6a6289f0ef25b261b40bb6bcb50e36cbf86c49e7bcb19e1);
    e, v := Zero(c, e, v, 0x7b8aba687a4dfedec1e71f0202a57a962d2a0402e819f93546d98dac55bc8481, 0x9325c0b5271579fea9c4b9de660a376d691abc72db2a8d2535cd80b081784d20);
    e, v := One(c, e, v, 0x27611b402484d8af87fb00fb93ab52ee9365116d655991803579616b6a6a050e, 0x9d50c42157cae419fbec974d9c114df70298603e33f87f3765a2a8a3a5d467fc);
    e, v := Zero(c, e, v, 0xc107149408279c90842d3dd7aa5e1e61b986007e53e5f6d510b8b9affcb1f975, 0x7fdec5904c1ba625de9f665c30db6864017bbb2e96a6d7b018f435fa151f485);
    e, v := Zero(c, e, v, 0x4e926eec225b7cf41af1d9b2d6030d9a1acfcfd0414b017dc008937bdee419cb, 0xc005be84e0da1baf5ee9c4f6165fa7cfc702c0d79ac4987163ff87bf34488cba);
    e, v := Zero(c, e, v, 0x20196458858ca3e498190ba682ba37015b757f9c8eefeb0914457b569eae311d, 0x1fd0f3bdd9bb7cd52445cfa580be807ce4f0bd5d9223988e56f1d6845ff91cf4);
    e, v := One(c, e, v, 0xa92f400bfa37e96c4a9f42b27617fc061b2b85e968f54d63da940887669b438, 0xa9ec2a9c402ebcf22853017c907c2ca2317129d8503a5431bfb9fc055e4369e);
    e, v := One(c, e, v, 0x6fed00beb9885e7ffe148021f0151f76d7ae5bcf5410332cf30909e534bdb516, 0x127075f01ef3f3c7d7a2e1656e531e594f9a739ffb659d55971f847a3caf44e);
    e, v := Zero(c, e, v, 0x82293d10fda277a9d68952f673c4be30899e2ed705aa9cf14b670428ea51b7c5, 0x408fbafdb0ece7d6151bdd5228eaa0ba02f6900a167ce1f1c1651bb0ea008975);
    e, v := Zero(c, e, v, 0x33678e2670e32ac035bd9507c99afee576a6c2c79a92df88970b695a1151dc36, 0x574ff0651c405fb78766d9adb977f2f628063343d6ffb76b6b83dacb7fe2c4e1);
    e, v := Zero(c, e, v, 0x770e9be8e26d20c763ae85fc3a6b4c77981bbfee19bafd2ff574d95fd1df902e, 0xd9e397cdbb0666b6d0140479be8c94f5f912f956668904a828c7d28077df892);
    e, v := One(c, e, v, 0x4b2d2d3b72a72da3d495af75ffec6592b4db2ff0b651a75088ff11137b26195e, 0x9219dc79540d348917de696bb7f37cef511090ef008ac1512088bb5a8ea4558e);
    e, v := Zero(c, e, v, 0x7c2ececb6ed2d75bc51ac37490ac297eb52c9a87f19ba45c8ccd206617a13c39, 0x1d202fa38873e28663d98db18f790e235badcd6c94097d6fa5ef354157cc41d9);
    e, v := One(c, e, v, 0x32459d8fcfc9aa52a73a40c912ae5235a97e9ce102adf757cbaa0fa764cbedb3, 0x9ef3b882aae371a545f75c7b2a7c35c6131802ef52de568b38b22a5fe9eb84a5);
  }

  lemma {:induction false} PowersRFullPart3(c: Base, e0: nat) returns (e: nat)
    requires Named(c) && c.n == R && c.a == 2 && c.pw(e0) == 0x32459d8fcfc9aa52a73a40c912ae5235a97e9ce102adf757cbaa0fa764cbedb3
    ensures e == 0x10000000000 * e0 + 0x8bb9a66f3 && c.pw(e) == 0x2945db42de4992ba0a50e6a8d06c8acfcee066c61fae21ba7440de01234c98ec
  {
    var v := 0x32459d8fcfc9aa52a73a40c912ae5235a97e9ce102adf757cbaa0fa764cbedb3;
    e := e0;
    e, v := Zero(c, e, v, 0x3f3e376367203d7e65124f5c60acf8fb8c31fbd26b6463443fc8334ed05a608b, 0xd064ba0500707e5cbedad246accd538b5023bc757568083fa7974daf332b50a);
    e, v := Zero(c, e, v, 0x220818488680d6bb68aff8c549006eabc2e5b321b47ed6fd81a360d263443e61, 0x149ce473fc2ec081d2adf4ff94327d58f096107c51dffb776c9c055f5213bd08);
    e, v := Zero(c, e, v, 0x48d1c6eb1881db384ebd32f351d1c806c36fd0308414e3823d67a43fe00e7b0a, 0x5f7fb49faea761ccf1be2e2fd73cfdcf6fe0d33e2ead28308795c619bfa61fd);
    e, v := Zero(c, e, v, 0xf3b7e5d6d1d35b9036ce91a12ee69e0d0c339b065cf0b9f4d0d4e4fa19a9d76, 0x1b53f6b918872afb3900653c6c2e7fd5c8a951cabeb1f65fdf9b8e4c41b50a7a);
    e, v := One(c, e, v, 0x667edeb68d61e02f2eb988d2a1fa774ae23ef2471995c1a94c36becb5cb0d4a5, 0x2643c980167fdda8e381c29b251ae56eb2b2d9303987c2b32daa69014cdef21);
    e, v := Zero(c, e, v, 0x7ac20b7807620990661ec9c618deb0e0e7f5aedaabfb07d8dd21063f51e05e8b, 0x3623ffa75baad91ba4f2354b34901664819c182aaca39fd6fff14a56f52c541a);
    e, v := Zero(c, e, v, 0x64d38fa2c1d452cec6394a4b7784a4028a3a8bdf0f5b0be674a6ef7234c982ac, 0x4da9a5ed186830e2bcb6e2c6f97dd62b598cba5fb7a34bf2cd5b9a3c4eb0412f);
    e, v := Zero(c, e, v, 0x5591591d8755b08ed81c991a8a6e05b8603831137a2fcc9d82bb307b8193f7a8, 0x34643eb3e7696c0141be4734818decee9ee6d337c67fd458534a6bbab02555f8);
    e, v := One(c, e, v, 0x14803687d420110cfae9319b8ed43cd4b0b27a350f129c13d845e041e3ad961, 0x4b77d3de98c108ad0ffad81b028ee18f4b3a0159be989f4aaf20ac1948d8c875);
    e, v := Zero(c, e, v, 0xa91299aca68b9b396c266f70202420762ac4015f0d0943ff13dcb73499d2c215, 0x22a7e22301cecd5da94835f48888a7fb7429af9d2b6568e66c67ecf2c55e4);
    e, v := One(c, e, v, 0x44abf1aa8b730206781c3e996767241342b73e15998caad3ac4df59b3dee3f32, 0x126a37bb33316268199a5963fcc5a35193eec088aa064fc9099c0c220dcdf9ec0);
    e, v := One(c, e, v, 0xfdbdaf5c29e8574863a3a1092ab35279ab5edd82e766e0a95aa94ef1401c81c, 0x309b5de7b72bc75e6b2863f8725d3a90217b49cee999639813a50d5184c08024);
    e, v := One(c, e, v, 0x158e6e26a40491cefd6423c95f4ce6e6ee684cc3507ef8bafafca4333b50156e, 0x297a08278cfd58b78d5b3dcd7995ab98b48bf9331ae520d8d9db5f0410e8d66);
    e, v := Zero(c, e, v, 0xb2a0401db9d77cdac3bfc2d32f095b763027282e8be7aa98455d46d4214a17c6, 0x2650fbf5202d31fadeede763f5e2d5ed0b558a064b7867f52d71bd5bd3d6aaa);
    e, v := One(c, e, v, 0x3b6b21f862c70a45e8dcfb573c4413ad178c9b555155f31248c39fd48a37e83, 0x148e03f384daec673b07f9c48080cb1faaa33357b9abcffefd96e6963c86da6d7);
    e, v := One(c, e, v, 0xbf07d92ec834645edd125e358f70eaa1a9e50d9629017c4280e5eb9620b40ade, 0x2463ed1a78006d1f65f155790b53f6633f283345ce85dd155354c0c99f54bc);
    e, v := One(c, e, v, 0x133af626903af0ac3af82cce8fb9bba2aa25aa5c51aa024a139dcb67a60a7122, 0x17823bb8cfc6f4f72e7ad43d456afa0f19b704e835b20cd01b537005dc0678622);
    e, v := Zero(c, e, v, 0x75cdbd12bede5c2ae9f046badef86a27fa85659f31740751a74d3d17a42891e6, 0x1e7e4f627c8b692779fd4945088434cf95363e4960d2c54003ffb323712590a);
    e, v := Zero(c, e, v, 0x3c7aad7420e689520582c256a66a32af4a5246029ccf36224ccf74ca30684c15, 0x47853f29f9730696001643c3983109e6a47af18db760fcab2501b0b960195845);
    e, v := One(c, e, v, 0x672db2b5c92b617252171f455f60892e7c025d2078f5fdc18ba65a62ae5effb6, 0x25b3816f193ff51859fbc2e3b5af48c52f0b8d46804be7ebf9e9618751522994);
    e, v := One(c, e, v, 0x7f6753091f457acb5fa2d0c80b84693c92d6ba47b94812f94f2e829a85671b32, 0x6dba9f196b9f107f46f2a245a96ad633263916134119ad839dceb77d26231cb2);
    e, v := Zero(c, e, v, 0xa48218c369788400cf5194f7a7f20682b4f63c89a6ca91449fabda97e1201de0, 0x53a6ea03593b231651be391a7712c50f46afe1b1decd26b407cb77b10a0fc24c);
    e, v := One(c, e, v, 0xa16359c92b6d374e923f8d782a17cd564d0a7e3e4993b8058d8a4e9aade00ef8, 0x116f1d0b3cbeb9a68bee72e7363ba08bcfb167eb3874656670571f631fe784258);
    e, v := Zero(c, e, v, 0x7f28fb8056069de612a496e4cf1e6aa285124f8c0a9f5570ea7d081d4d97b7c, 0x863b603026020d0e275e5d05494f76a1ef14cb85d3e574d05f7b10a0833da3ec);
    e, v := Zero(c, e, v, 0x7dbf645d000a4111acb13f693a928e1b80bbcef44656e5e8a3feaedf07b08a02, 0x5355204896b8348ba19dbe2372e6c504b0f6682211b34a42e974489a6cd0da);
    e, v := One(c, e, v, 0xb1455fed2dd9bdfb98540c35bea9c8589c3b21f71ed812f8043f67f682f4453d, 0xa2fbaa13922061b21eabcc86dd15a9519fb925c6d38825fc6d347fb76745cf59);
    e, v := One(c, e, v, 0xb5579ab830f4c4b6b1a8f25c55571055c2ba0e88128c11211355026bb7cf7445, 0x143e7cbba1c14a7ee1dc43eeebe1ba01540ddacf480970568427f5dea19b5712f);
    e, v := Zero(c, e, v, 0x784f0b329ec87caee0c37273d49b5c2a2f9570f8cb0409611dcb5c2ae9393919, 0xa97a1a7290593a29478d468aac513d00ce256418827f8dc0f4e32c08e3720080);
    e, v := Zero(c, e, v, 0xae8cc43b3341fe3e51ec0d5d419abb2c08c664430a8b18ede063b64fe4665298, 0x4a9838320e32ec024222b96552efb04f4838854838743e433dc89cf7842a2f33);
    e, v := One(c, e, v, 0x814f5bcac7870939102ca8b90eb3f86d93eaae90a31914a0e4a36361b092d965, 0x13a09ae6043e003a7b4119d15e9a91db81e1c7d20301b256706f9bd41c72cd8c9);
    e, v := One(c, e, v, 0x99b99a8dc0dd366c3979f040d2d13fd59f8c39de91dd553202f0c6f612de7f0f, 0xac592c291803eca0ce35a4a39da93344ad870308349b790a01280243d431a0a1);
    e, v := Zero(c, e, v, 0x9f80208b3ad76f0783432ba28e38ae5d35a0a0f90e3faac30d60aa787682c2ef, 0x79c98c283b02bdffd5e37191e035080793b10c11afe070cb7ae2ca2110b2ad26);
    e, v := One(c, e, v, 0x23072e21e865e0f574860b9c3a74c22ab6af9b176bac57417a10b30e812b2c93, 0x106387fd2a2521dd193614b6223b05428e7314f9febbb799603ef21f87ed57ea5);
    e, v := One(c, e, v, 0x4c3e6235bf2ed521fde6beb300f98c44dabcee3599ea85641a78211d2720bfb5, 0xca58970a722a3ee57bf8eed6a4a386b145a1df99d20ae7aae3985ba6660ce9f);
    e, v := One(c, e, v, 0x768cc620d1b08d06f18d2a5d1615f96f2da85a39fefb4b1c554e9024d0de4fb7, 0x3beac5f5e365e5bf9a6f36029f634f85aa7d9b5c05aa66601141fda700904129);
    e, v := One(c, e, v, 0x6b281f2b5abf377e2d740d90e1c58b2ec4096e3391e8565f50177ed3ad2591ed, 0x90dbe2a8a6dd58520ef1575fb8d6dda1b554ea310f968b6d703b7776d57e1c27);
    e, v := Zero(c, e, v, 0x3628fe985361266da8343325391a8add5a835918fde6b8b592c417a4b1bc92db, 0x3b2d455b77c55fc2c741d3030937f93e6610155c006f30082e8a226ba13dbe5a);
    e, v := Zero(c, e, v, 0xac10e65b977b997b0a00115809375be237dd4529606e07480b1461b4434345a, 0xf1e03214e2ace75c841557d3c9b9a7a6450893dfe5befec3faf4d0cdb755b15);
    e, v := One(c, e, v, 0x79d8770c5b0651ee3aa27d0e13228285b4cec0abd2b0c8ae9044563d6b2c0c45, 0x13129f28878a2eae395147f2643177e56b859623152b351896909513d9db2c1);
    e, v := One(c, e, v, 0x2945db42de4992ba0a50e6a8d06c8acfcee066c61fae21ba7440de01234c98ec, 0x990665afbd67c38cbcd5d5920211432c4e5e9bb0b649604e1fa04e3b8aca5242);
  }

  lemma {:induction false} PowersRFullPart4(c: Base, e0: nat) returns (e: nat)
    requires Named(c) && c.n == R && c.a == 2 && c.pw(e0) == 0x2945db42de4992ba0a50e6a8d06c8acfcee066c61fae21ba7440de01234c98ec
    ensures e == 0x10000000000 * e0 + 0xc5c0d35677 && c.pw(e) == 0x6106577ff93eaab6a807947642596da5c89104ea36d40a08b50b3c6f8c9ff68c
  {
    var v := 0x2945db42de4992ba0a50e6a8d06c8acfcee066c61fae21ba7440de01234c98ec;
    e := e0;
    e, v := One(c, e, v, 0xb999b9520c1918529f243e90130f71564b71f8baf218e6da62a0b0073daeed68, 0x118ed206317a5df8125b5f2c54d7e151eaba5cd858a45c139dc5439906ab17e8);
    e, v := One(c, e, v, 0x84e2e09bb561dbb6bcdb8f34ca23e2ff850413023daf5a079ef1d3039b6c3011, 0x1630f398fee03a572a3ae7dff01090c714b08f3d309e1314d689a2bcb92012ce5);
    e, v := Zero(c, e, v, 0x5f736832ee9674c5b312b3076cd7234ed4311df639a5764037bf2777f9eb2304, 0x5b01b100d878e3adabf1c39ca379a840f857318f3a163bcb8f8d05e2b0f7259f);
    e, v := Zero(c, e, v, 0x1b58556f4aa36b6eb6e4bee7db18c454461e5aa40251d8c342b9e03dc6f6e481, 0x2ef435febfc98b963cb99ac7df57525aee22677023ce1482d3c8b42574734f45);
    e, v := Zero(c, e, v, 0x8c4bf1ed516243214e68201df572277623312d72bff4222e472ec33f4a473c0d, 0x3da87c0dcfd307e6a3da2baf5a934e0f1b0d0b034e3a6ce11dff20f111d27fc);
    e, v := One(c, e, v, 0x3dca4354a9f8231ebbef6670fc6ed2926266d5326cf690f34fe057cf598ae5ea, 0xcae1145b5dd9276f445e23da1932003ec16b03f5f56bbc95efd1868d1e69c078);
    e, v := Zero(c, e, v, 0x33c62e221aa2f250229de5b68b9bb511a9e53a4c1913839cb1e0bc7fc76072f1, 0x13ad3720db12823b55517594fde01bd15bcfc247a7d86ef3806642afd6cb9011);
    e, v := One(c, e, v, 0x4e2a25dd9a754b54595850711f29e57cc310f1cab50208f4214fd923ab42894f, 0x1ba114e6734afa10a1f0ed87e85dbccefdeae3a98c914297b1f48fbb04da4491);
    e, v := One(c, e, v, 0x5d236ff4622e496d684b5d206a4dd7c34336a268d4aff5971b9e7bef0cf78e2b, 0x3ef96dbe9d6d6539395d2ba1b44159f49dfd1f018e20ca5ed89069594ad8979d);
    e, v := One(c, e, v, 0x2cf2de8b5764af1f23506fd32d857a3fba99896497b436da2f88903664037a32, 0x5969bab6fa3243292600eabf012a005a1a93f049274336a6aa9071565ee5cec0);
    e, v := Zero(c, e, v, 0x48b87aefcc850d3a5b9a168344225821cbb19e53ecb522cf8979a3522615681c, 0xa698d8651bde54a9f1e1fedbceabf807871e1f1bb12d72d71bbfe6018126538);
    e, v := Zero(c, e, v, 0xaaec5eb16356a687bbd9215f8e65632c42f147bd5bf599fbac5f282d852e00d6, 0x1b40fd5aaf775f1d5bcfa5f47a5123afd9cb72ba6a9111c5732e05f4fe8a8d3e);
    e, v := Zero(c, e, v, 0x76264098926100c77db862dbc3839f7853247d374724b6f1aa93d7c0a87eab9f, 0x968fe2ed8f3add48e6aaca260f2d4b311b948821da31e33052a5fb0b63981557);
    e, v := Zero(c, e, v, 0x424b7b11ac6adea383dc0cbf0463c794f4094bcff191d785f0235517271b012d, 0x47f0e175d87116ca255cc9488f8ad5741c574108260ad4a83d61490ab0cb04dc);
    e, v := Zero(c, e, v, 0x86abb006c592d5cb0b8d39947de342ff485c8570efdc914665f05b6df37644d7, 0x16a674dde7c0b7470c05beec0f657de343aed126da7cf02b88b17ca071d3a986);
    e, v := Zero(c, e, v, 0x93dac1efe4ebf5bbf6e812d48acecf4eb539bfdbe2ab03d28ba9903d1ab0c1e5, 0x5d7794e621a86d30462fe134791c855666d1c97b33de2ca038bf88bb4b8e47e4);
    e, v := One(c, e, v, 0x112c441db60af53ccd936f8613a99a530c29cc71c453c4147a75a93d7e85914f, 0xe153903b01ebd040ed60cd60591b5ff316d3f44c417be0c14c5e452b4afeede1);
    e, v := One(c, e, v, 0x5e1e6b61264c801d16247be78797a9fa7c95593f7d60e8e64a1a09b3c3f366af, 0x30a29dc87ff720381067f1b404ea7560aad86c2d28fc1603196c8e0e163a271);
    e, v := Zero(c, e, v, 0x6134b7f2517b6156565f5df9b699ebdb35825c0b1c653ae5214882e78e455ec2, 0x2da7137131f315a4babe214bd8db8e7184e99cc2935bb205d1bbe11c1217dbb5);
    e, v := One(c, e, v, 0x37511627c659a9da5e54929ac938784ce2ac8ee6ed09518383e0cd35d8ddf311, 0x6164a5ba6fa1a64032aca4675273deb570edc0892d13f12308d5ef4cb7649bbd);
    e, v := Zero(c, e, v, 0x576e7c5dd6c1359b3bd9ff9cd1a837f12e32f2a2479d8bf8ea8984302740ac37, 0xfc511760e14b362f94fbd5eddb824dc75377fa1e1f5ba6c060a870bcd76e6ce);
    e, v := Zero(c, e, v, 0x621c691b12f8451a30ccd37669cfdae2f19f014a8a334a0ab64eadb086ac2a30, 0x2765513e16a8de83f09b71bc40519ffa8647dae39ccdda9cf2a7933aed760bcb);
    e, v := One(c, e, v, 0x90efb0a22d9b5cb6c63a896bdf65d2fadbcb431b079a42b78e2951d47a5364db, 0x633715d4a9285da53043466302248fe209efea4989448751a847d522906c39f7);
    e, v := One(c, e, v, 0x375418a6244f9c3fc0bc0de5d47f3dd9e91a362bd77f10e3d42795a6fa1867ac, 0xd88502f304c07f37df88edf9dec3deea1218717f84a28b239c6760a0564cd882);
    e, v := Zero(c, e, v, 0x9fa14695fac29641cc4fc99c1f4ecd21228dd579675159384bdca09538b68749, 0xfc6c8d0b5a2f84390909513cd52a68968d83039661727d9033917064850702d);
    e, v := One(c, e, v, 0xaed02fd9beb5af335a88b0bdb4402a864bf776ebb2822607490c0f262359567a, 0x106a589748b1e88b7026abb2b30dad0208e85657699eddc0b902fd328de1071b8);
    e, v := Zero(c, e, v, 0x47b3e859c23b25aa6a8e039ab7f2a5a593a92b4cfd51f147956dbe6b770b42d8, 0x9d7e3ae768d8bd2ea9ce6717479d0c89cfbd0811d86bcda839a2fe849463e6c4);
    e, v := One(c, e, v, 0xc1cb920e7fff7397d25cb5f2b41f2ff80c4c35c25d6fd3b25f639f2043cff180, 0x34fe16bb7ee2c99ecc10b1cab26dc49dbf95c59b590c0c4b6cd1035499b52900);
    e, v := Zero(c, e, v, 0x3aaef8a7e2f65e9b115ea41aa137f85dce63444b11ad4d944af119bb0ac2879d, 0xc18d748b67fd57e2646e0a7dab82b638302907bcff5868d95a9470b5e8d9a1e1);
    e, v := One(c, e, v, 0xb39b7b556471c3a5fbac0d58350470b1fb1ca4526c6522ce435b936639a8da72, 0x237ee04586e03f5191c91397e8d2f14a4e96b31f2bcff15dda1123bc44144360);
    e, v := One(c, e, v, 0xb750619a795374150e7f20965ef1a2060c018f4e59cf5f4cb63bb02033577aac, 0x14c7fe4ce47923ada4e6fd4e9d6ee64f5e496a5b85359800885fbe2eb76ca13f4);
    e, v := Zero(c, e, v, 0x8bc42dfe8800bac271c48e1d5a72d95ab3f9c51d90898dedc21e536eb1a1851, 0xad2ebb39b3ab717ea88823cf9355c7b30be4fdd25a3c2843bed7c7d735077dd5);
    e, v := Zero(c, e, v, 0xbd17d1054b3c26b4d190ceb0f15c7c2c9d4e11533b3e2b2e6df4e090731b9070, 0x64ac958de1bcd448c3405c2f42945610a97ff3e3e3e0545b5dae0d1467c4fb);
    e, v := One(c, e, v, 0xae95ebf924b9570a10863c3c5a73f43707b6d27004e0fd692dff2ca7169a6638, 0x1708c43b57926653626849c7bc7e2c288eb15e46fa5b2f0393e3387c12fc78898);
    e, v := One(c, e, v, 0x6e762fba5b5c18d49717299a3ea8684d8a241424e2e523428325bceae18a9ba4, 0x13a2aa0a16b3bee3ed13e307acef38e9ce9777fcc56fe5023aa55878332b669f4);
    e, v := One(c, e, v, 0x261284127df22e125c61048c8a40af4961872447276200a5ed65822df0c2758c, 0x7dc44e221b1ff6c6ddc1fc3360bd8c7548b0e8290597e4e272714bead6732fdc);
    e, v := Zero(c, e, v, 0xb55601c1fce2561525f5f57c77dc12c97eeef84f00585455b821aeac9a663e6d, 0x7785e7f6c26fa516e34478f78ef9e37678343e4a4309e920f77867b2362c121);
    e, v := One(c, e, v, 0x116ee5acb9cd043c3fbd3c299ec7fbc072e8c4226a4754c6329cd07546a3af23, 0x152ee3c1ba81cc9f02499dbe68403f9746aa6313accf5583024b01823178192a5);
    e, v := One(c, e, v, 0x5f41504b30b1acb1dcf6af519bbcc2daa28172161aab09cba9e223930bc55794, 0x321ee3018fc470fafc08c20b68451dcf3c7d34654918e618a6f1c355fa3f62a);
    e, v := One(c, e, v, 0x6106577ff93eaab6a807947642596da5c89104ea36d40a08b50b3c6f8c9ff68c, 0x5d85f4a093a98e42d414dbea15a515f5b4f49bc5df0039f73a24ccd04065f7dc);
  }

  lemma {:induction false} PowersRFullPart5(c: Base, e0: nat) returns (e: nat)
    requires Named(c) && c.n == R && c.a == 2 && c.pw(e0) == 0x6106577ff93eaab6a807947642596da5c89104ea36d40a08b50b3c6f8c9ff68c
    ensures e == 0x10000000000 * e0 + 0xb941d66015 && c.pw(e) == 0x3f774ca6ba974b4697f7b6a85857155d1dccd41cf38dbdba5772a602b5e54706
  {
    var v := 0x6106577ff93eaab6a807947642596da5c89104ea36d40a08b50b3c6f8c9ff68c;
    e := e0;
    e, v := One(c, e, v, 0xc0c0176c2de574bdc4966376f334530db6d6889b643cf0e12c1d2dc9274e50fa, 0x6107cd4533a496353d2440df7e57c784579f4ef8c13e04c11fee9764c4f538e2);
    e, v := Zero(c, e, v, 0x96699e113fdd1742ee0e911b74e2e1444865ab24505fa5a215ae948d228d0b6d, 0xbf789b752a04b9892148aefc2b006ddae9c0c7693b543a67467eae31e31aa2fd);
    e, v := One(c, e, v, 0xa1c7968f396951d81de2a267b4aa12f9b14f4214c8f49ae76f3df6e6cb8dd18e, 0xe930ceefe5fcc41128347799a1f7db7412f2de0caf2cb39970fe199638c1ff6c);
    e, v := One(c, e, v, 0x6ea05536a4b9ae80ceb20fcb2c5d6b86f59c3837cf5e98f887271cdae7897226, 0x10dc4a3acc7adf5ba7e7874c6c8afd9a836a28e522bddceab952ca913c9d744f6);
    e, v := One(c, e, v, 0x89efb5eae9581251dffa9f0754d53baa864279997eff98dbfe000726586675ed, 0x7e245950608919c20f51510c263db6679a957096909e6cecf9f5eff54b1c6189);
    e, v := Zero(c, e, v, 0x18ee3d966a602da5ea62c61415f6eda8ca9697ae18509df16bebae2495a88cc6, 0x620e1f638b72604e31c4609af240dd57d42bc6bb45bfbe5a99ddeda98dec84a1);
    e, v := Zero(c, e, v, 0x8dc8309b408190fd0b028b177276db4860828c640d693f4351e3e768cf62d283, 0x334029ef370ee64821427e2c4e0733afe12494d80ce45f033a0c2cf8eb07acb);
    e, v := One(c, e, v, 0xd6872b7e018b726450b4888a8a292a418e3a036765b929240c7962a4513d699, 0xcf329fe3cbc4b68ac723343f01d2ce74a80f29041b921877b447757cc6650913);
    e, v := Zero(c, e, v, 0x379a0b27f4a5171fbadde051cfea35e78cb44270b4c5dc881c8b4f66d459a43b, 0xed2e79d29d1ad2a595e684af5eb7f726f8580cced1b471d3607cea83366092);
    e, v := One(c, e, v, 0x3a94ca5093c7689183318e4b659bc4cf2e72dda788cdaf81e4625455ff682f1, 0x1fdd8bad84a7902b5bc9d8464ce497407c9a7b34ffbf5c4b70f52b588aa4e8ab);
    e, v := Zero(c, e, v, 0x3022a4f3af9703dc2920361094b2c287d3d4a4968338fc5cfcf9638381efed99, 0x11af9da765d18733016a9aec8164a03ae198b73c4528901fd9e8825691fd18);
    e, v := Zero(c, e, v, 0x33589597bd7a833932f3dff2fe967b9ae67057dc6bb745df9d7c10444c77f18e, 0xbf0e58d405902b4a79295b1db379607ba775a8c1250fdf1748518170c900061);
    e, v := Zero(c, e, v, 0xbd2ffb03178729539d525105e81abda4297428fb1a2579e4bb827edd3d9b8049, 0xd964c00ddd6b2b8c6501b7615aeefce9a6b3ee08a230ed74c0913568b8f55e9);
    e, v := Zero(c, e, v, 0x4c0a384e4deb92ad642f7cc618c1c4ae7e89c2da164a03c16294689428aeae4f, 0xb8753d8b2bd445ccff3b19e5f5d8e086818096fb92196834aaca10ed45be4356);
    e, v := Zero(c, e, v, 0x7f69fa53a37418da7a5c3f83622fc777f7870f296da7dad9275a836df1952c, 0x1dcc72aa7af3145c867ffa5afaf00fb389fb41fc877226d3730f53664e0556a7);
    e, v := One(c, e, v, 0x68652e4fc659d67ea697bd20f747179557c500dd33c129b14cf66d13fb490b22, 0xa754cc29c5f758c3adad5b011223c570d5c5102df3876239af454b2bd02a);
    e, v := One(c, e, v, 0x16a25b95e1a7c74a866f2497bd5332bae475e04b7c765dfedf9cb6d59a8abcd6, 0x70550b2a637d138cf2f552a2062f26182783cb2c88f0d02870591880d78bd3e6);
    e, v := One(c, e, v, 0x11ea0c5cd56f4c6bf612b203a29dc22e5b72b89fe863f4abb34b55d02f9ec766, 0x547cdace585f4a0a43c4a52671c2af954a12acb56862a8d166fad844263cdf6);
    e, v := Zero(c, e, v, 0x8376e6052d46f8965d1c649338565cadd53c8d8d04b4d643aea7419dae3e2de2, 0x1a7663b6007efec4b0e95ab35dc69ed5cbc0c374c50af122a54d4e09bb37616);
    e, v := One(c, e, v, 0x87f121909900defb39f59e76862fecfda1eba1498121e804bace14c530f638cc, 0xb223a39786ba92de50070bf94c1eb83fd5df10d3fa8a0bf3e93e570eb0b90d14);
    e, v := Zero(c, e, v, 0x51b22f5601ef7cce8d102d8a36a0789d4932a07eb3409cad57b5393f18c17c4a, 0x5f3d74f54f623f06245675cdb28c7bfc968eda3190a0edc61e9e24332ff02042);
    e, v := One(c, e, v, 0x4a3e8005463731ca68995b96f1cfa735c2a63cdbcaf06ef3f7569c4c3b4082e9, 0x44cb0849f14f410c7ecae6c8baa0501f6a6d06e81a9611d676f7ecba1185c4b5);
    e, v := One(c, e, v, 0x1e45a0c12abb9d79eea2707d687f5077a076ad480eabb1f2e8e3b0f0f6ad0633, 0x38d0c8546a0f432f598d6a84ec2535cfc22c0fad9b8f09144d3d45369d269965);
    e, v := Zero(c, e, v, 0x228c31ab0cf114154a4e310ba1062a207271b0171a531dc8718cf5ef66052f52, 0x4b905f13a2aa059861d21b78e8e380e77c3588111d636198dfa0559de44925d);
    e, v := Zero(c, e, v, 0xb108a0284d1441d7275ba634f306fe5b74a780de42b1e4cd8b10aa74c5761c9b, 0x626ab6dd1992345d4b28ae3353f71b45dc1082d662efff0c4e9a95566b32b23);
    e, v := One(c, e, v, 0x507204ec33b7aaf4902377a33ea6fa335ba7f3289df3472da709b31382a4555c, 0x14309f21a05dcbebbd7162a0a584450722a5980a67f155811c59e1ca72a716ef2);
    e, v := One(c, e, v, 0x28a9cab6d2c38d79842de09eed85db37f09dc131d3252d8ea1b7ab194f445506, 0x42b3f60a3965c5d7a96e66b98e9c70598919f5209314bdd6843ae339bf6758de);
    e, v := Zero(c, e, v, 0x40c5347843808db0858e51dca566c5102b35a597ec1e43c1d9e9fbd093ea721, 0x8858252ece68d75e1d1ae6ae6ba1461ca4d7883e9ae47fa0d3885e2042488c1);
    e, v := Zero(c, e, v, 0xa3d549407a8081b5c22025d2f9c1de5cc27387af46ee3c3799f23132c8e5d8ae, 0x159ed72990f0a49a79821277d7f813655fe08ebacf8cc731944e56b31328f1);
    e, v := Zero(c, e, v, 0x3a28413a224e2c2083885f84f2b52dd5f0c993e1ca9cf81c46f92d386fd9e0e1, 0x8a547c87a3c3eacf56e1557472f0e3aa587f8f56c01783ce79ae637487e560e1);
    e, v := Zero(c, e, v, 0x88fec277bff7c280314c0db99b839d810ce2371dbb1dbd8582d0904746672234, 0x116e5169bd6debf534403a55b8b36b818e4d07ade57dd9ff1a4e5cf3ae45b36f);
    e, v := Zero(c, e, v, 0x79422cfca1e76b32b5e737a478924dd878b949efae26e322259987d5202529fb, 0x60b8b8769a14661bc1159173c53269c8250fc627389645b9109dbc8078a111c7);
    e, v := Zero(c, e, v, 0x35e98d39cb06183b8ed0e325c500ac9fee6c133960f88f49aee97de26ac85234, 0x4bc6e7f1d7d3b807814dde18ed5a960122e7f86bbe236af228d9c085c3939e37);
    e, v := Zero(c, e, v, 0x457f33acaa7a847fa90686ac06394732444e764e8955aa72522ccecf8f3d043f, 0xefaad41a2f1874f01f749f817ba38fc1fdcc31ab8c0be69c8ba83a02253a15b);
    e, v := Zero(c, e, v, 0x6a18694443e76ba434bf14f14543677f3091ace1e85b994c84a4dbf9499f36eb, 0x18e41d129842f941a91cfa425a57e42cdb60ebebe978147abc7918dde86647b2);
    e, v := One(c, e, v, 0x96d8e17a80817404eeff2bb7c71bec8be632e92a55d940b922a9766ec51b84f8, 0x74054f7509f82d0d36a8585915988983e24a7380f96671fc6241cf962f7e97fe);
    e, v := Zero(c, e, v, 0x53f81dedc673225d6d19fcdd4695808bec8fcd641dbc62ce2f0b3efb384e7058, 0x7545263f200785cd932b188ab31f64c79aad475fa1f2f70b9d383af083e4b1f8);
    e, v := One(c, e, v, 0x59c31b7042430f817762544ab611ea0051c80a8893a3a3cca2151ca9dace7eb4, 0x48acb65c2c3515a7b0f033a90895dc6e85394eb2e3723741f6fea3c0b775f644);
    e, v := Zero(c, e, v, 0x7233265dcd0ac30555af855a4672c34a884a79209f7a21c7b4bdb2485ff71882, 0x29862568e4629afdff64d4d06ac87dd28b9d953665294ccc21ecbc584c7764da);
    e, v := One(c, e, v, 0x3f774ca6ba974b4697f7b6a85857155d1dccd41cf38dbdba5772a602b5e54706, 0x866c4a507f57e691f1348f9010a15ab9c4e544a5921343ec95973cba8841ead6);
  }

  lemma {:induction false} PowersRFullPart6(c: Base, e0: nat) returns (e: nat)
    requires Named(c) && c.n == R && c.a == 2 && c.pw(e0) == 0x3f774ca6ba974b4697f7b6a85857155d1dccd41cf38dbdba5772a602b5e54706
    ensures e == 0x8000 * e0 + 0x2ac2 && c.pw(e) == 1
  {
    var v := 0x3f774ca6ba974b4697f7b6a85857155d1dccd41cf38dbdba5772a602b5e54706;
    e := e0;
    e, v := Zero(c, e, v, 0x73e827174f7ab2192ee2403560749766b3c2a67ba2c2d6563005a2984d6538dc, 0x14c22b1335f00cf3cfd05e9224819f714c64aba890fd66658839e8245efcf318);
    e, v := One(c, e, v, 0xc787f6a449e458d14a5ce733aad5809b2d246c7153968ccd903e3861af6b897, 0x8a78c260928360827d39e7ce042bc7e1b3fd7a17d9af4a0090b82d9ad1cf25c3);
    e, v := Zero(c, e, v, 0x29b3f1b08b75780e34cd3e57832308a71ae39c4a70c022dce6426c5588a7eb7a, 0xcd2df88c962f753dbf4eae207278ae817f0ac7ce22adae16559d92c5a5ec9d);
    e, v := One(c, e, v, 0x95fa94789218590d2864fdb53e85819eb9f55be210c402a315a28bf075fa6a89, 0x11ecf91c795f85a71f9ce296a34ac2dbfaab2717c28f0dcd17372bc4129a8555);
    e, v := Zero(c, e, v, 0xdab182883cb9062f4908ac93c4225a4eebf2026e3507cc42a1132483c83bfff, 0x73ec81a9c885163c2023cc5ed45587a64f5a2690e45d6b10803c3686296ac446);
    e, v := One(c, e, v, 0x4b75b458276720cfa0b645e4f7d77c90ba0a944c9082ac43ad083ae02af7100c, 0x1ecf680df8293f7e6985ed36c1705d4cf7a39849e99d3a2d6e880ae2b28f4d2);
    e, v := Zero(c, e, v, 0x57155add09eb77db16d7241a4e6ae7ee61e24c2dcd7a346fb7de7772549d2470, 0x1d587db6a5b9e4478ce5c6a7febe67f38694f7f4a2dbda509abbb8a3d7df3160);
    e, v := One(c, e, v, 0x3c747db426a241c88d48089b043f872d9f6a87acde4dcc10c656aa9605044825, 0x4e2a4f0adb044d295ac62e356c6e22cc1150b2793869082ac9400745a78cf309);
    e, v := One(c, e, v, 0x223866ac922071a3eb6d6ab42e60b6a2d90b08404a377f0e724f5d4970aa1d25, 0x25abcb4a3dfe7a050a3ae76c78d020fc111b467ab3a673196d6b77d10d1c416f);
    e, v := Zero(c, e, v, 0x998a6bd7a01612e42bf545a6873dc049bfb4cf92e956646a647bb577ca1a8229, 0x608f91ac71169d8f6d05c5ce4bfd3bd4371f162cbf239070022d736a3315310);
    e, v := Zero(c, e, v, 0x6d628f5daf6975e6390baf35c79bc4a7a9e57da765e64bee0e9ba72f81b71d10, 0x797ed51fa5ac43d314303afe07957dc235654a72684f8c68ab69a16897773a6b);
    e, v := Zero(c, e, v, 0x4ddc5adc4d919747436d8dee6b14cbf9b647908e96c2ab0dcd13e1129c92c54d, 0x3da9dda5d365a5df53eeb82d876838b1afab2be5002f57e61eb4d1000e799c51);
    e, v := Zero(c, e, v, 0x409a14565bc8fcd88ce1858797b2225274517ff7800dd3e848b4ac4ffb1630b5, 0x1f3e2948fb32d462d9dcad99229dee3927f19df4cf08a721c92e1bd54273667c);
    e, v := One(c, e, v, 0xc209c380bd4a4c91030440201b7462845dcd3379e2e069ab3bdca0eb300aaac2, 0x2b042c9e4126ba7200ac1f18ac044b8c35fcfdf4f0aff851bc1436801fd66310);
    e, v := Zero(c, e, v, 1, 0xc209c380bd4a4c91030440201b7462845dcd3379e2e069ab3bdca0eb300aaac1);
  }

  lemma {:induction false} PowersRFull(c: Base)
    requires Named(c) && c.n == R && c.a == 2 && c.pw(1) == 2
    ensures c.pw(0xc209c380bd4a4c91030440201b7462845dcd3379e2e069ab3bdca0eb300aaac2) == 1
  {
    var e := 1;
    e := PowersRFullPart0(c, e);
    e := PowersRFullPart1(c, e);
    e := PowersRFullPart2(c, e);
    e := PowersRFullPart3(c, e);
    e := PowersRFullPart4(c, e);
    e := PowersRFullPart5(c, e);
    e := PowersRFullPart6(c, e);
  }

  lemma {:induction false} PrimeR()
    ensures IsPrime(R)
  {
    var n := R;
    SievedTwo(n);
    var c := TheBase(n, 2);
    TheBaseNamed(n, 2);
    PowersROverQ1(c);
    PowersRFull(c);
    PrimeQ1();
    Factor(c, 2, 0xabaf8c6b094fd0f32c2ccabab864dbecd99144679c1adf804898fb2042b, 0x121546, 0x57cd6e23db02bdfcea5884b1ab520086ad01a08397ad1ad678690775f3cf7b87, 0x200095104de8268afae00931fc7c1708ccab28e3e4c1801c4ba6af7d9f5b2992, 0xe7b26ef1607f3bab41d55afe1a34ca6afb0cd0c488ad944d16a45c3c7f96139);
    SievedPrime(n, 0x1575f18d6129fa1e65859957570c9b7d9b32288cf3835bf009131f640856);
  }

  /* ---- R is suitable ---- */

  lemma {:induction false} GcdOne(a: nat, b: nat, x: int, y: int)
    requires a > 0 && b > 0 && a * x + b * y == 1
    ensures Gcd(a, b) == 1
  {
    var g := Gcd(a, b);
    DividesCombine(g, a, x, b, y);
    DividesLe(g, 1);
  }

  lemma {:induction false} Coprime(r: nat)
    requires r == R
    ensures Gcd(r - 1, RSA_E) == 1
  {
    GcdOne(r - 1, RSA_E, 23037, -0x4434e46913a0d36b41f1338d55b9428c1ee0ebd05384e9000d09cff2fc2f33b9);
  }

  lemma {:induction false} BitsBetween(n: nat, k: nat)
    requires k > 0 && Pow2(k - 1) <= n < Pow2(k)
    ensures CountBits(n) == k
    decreases k
  {
    Pow2Positive(k - 1);
    if k > 1 {
      BitsBetween(n / 2, k - 1);
    } else {
      assert n == 1;
      assert CountBits(0) == 0;
    }
  }

  lemma {:induction false} Halves(half: nat, p: nat, size: nat)
    requires Pow2(half) == p && size == half + half && size > 0
    ensures Pow2(size) == p * p && 2 * Pow2(size - 1) == p * p
  {
    PowerIs(half, p, half, p);
  }

  lemma {:induction false} SquareSize(r: nat, size: nat)
    requires r == R && size == 512
    ensures CountBits(r * r) == size
  {
    SmallPowers();
    var a, b := 16, 32;
    PowerIs(a, 0x1_0000, a, 0x1_0000);
    assert Pow2(b) == 0x1_0000_0000;
    var c, d := 64, 128;
    PowerIs(b, 0x1_0000_0000, b, 0x1_0000_0000);
    assert Pow2(c) == 0x1_0000_0000_0000_0000;
    PowerIs(c, 0x1_0000_0000_0000_0000, c, 0x1_0000_0000_0000_0000);
    assert Pow2(d) == 0x1_0000_0000_0000_0000_0000_0000_0000_0000;
    var half := 256;
    PowerIs(d, 0x1_0000_0000_0000_0000_0000_0000_0000_0000, d, 0x1_0000_0000_0000_0000_0000_0000_0000_0000);
    assert Pow2(half) == 0x1_0000_0000_0000_0000_0000_0000_0000_0000_0000_0000_0000_0000_0000_0000_0000_0000;
    Halves(half, 0x1_0000_0000_0000_0000_0000_0000_0000_0000_0000_0000_0000_0000_0000_0000_0000_0000, size);
    BitsBetween(r * r, size);
  }

  /** Key generation from the buffers that lead to R twice returns a key that does not recover every message. */
  method EqualPrimesHappen() returns (key: Option<RsaKey>)
    ensures key.Some? && KeyFrom(key.value, R, R) && key.value.n == R * R > 0 && !RecoversAll(key.value)
  {
    var r: nat, size: nat := R, 512;
    PrimeR();
    Coprime(r);
    SquareSize(r, size);
    key := EqualPrimes(r, size);
  }
}
