/** The prime modulus of Curve25519: a chain of Pocklington certificates from 2^255 - 19 down to small primes. Each line
    is one squaring modulo the number in question, with its result and its quotient. */
module Certificate {
  import opened ModArith
  import opened Primality
  import opened Limbs

  lemma {:induction false} PrimeN3()
    ensures IsPrime(3)
  {
    Trial(3, 1);
  }

  lemma {:induction false} PrimeN83()
    ensures IsPrime(83)
  {
    assert 83 % 2 != 0 && 83 % 3 != 0 && 83 % 4 != 0 && 83 % 5 != 0 && 83 % 6 != 0 && 83 % 7 != 0 && 83 % 8 != 0 && 83 % 9 != 0;
    Trial(83, 9);
  }

  lemma {:induction false} PowersN9463Over83(c: Base)
    requires Named(c) && c.n == 0x24f7 && c.a == 2 && c.pw(1) == 2
    ensures c.pw(114) == 0x1787
  {
    var e, v := 1, 2;
    e, v := One(c, e, v, 8, 0);
    e, v := One(c, e, v, 128, 0);
    e, v := Zero(c, e, v, 0x1b09, 1);
    e, v := Zero(c, e, v, 0x1f3e, 0x13c5);
    e, v := One(c, e, v, 0x164f, 0x34cf);
    e, v := Zero(c, e, v, 0x1787, 0xd76);
  }

  lemma {:induction false} PowersN9463Full(c: Base)
    requires Named(c) && c.n == 0x24f7 && c.a == 2 && c.pw(1) == 2
    ensures c.pw(0x24f6) == 1
  {
    var e, v := 1, 2;
    e, v := Zero(c, e, v, 4, 0);
    e, v := Zero(c, e, v, 16, 0);
    e, v := One(c, e, v, 512, 0);
    e, v := Zero(c, e, v, 0x19f3, 27);
    e, v := Zero(c, e, v, 0xd98, 0x1237);
    e, v := One(c, e, v, 0x1377, 0x9ff);
    e, v := One(c, e, v, 0x2019, 0x147f);
    e, v := One(c, e, v, 0x490, 0x37be);
    e, v := One(c, e, v, 0xc20, 288);
    e, v := Zero(c, e, v, 0x5ca, 0x3fa);
    e, v := One(c, e, v, 0x718, 464);
    e, v := One(c, e, v, 1, 697);
    e, v := Zero(c, e, v, 1, 0);
  }

  lemma {:induction false} PrimeN9463()
    ensures IsPrime(0x24f7)
  {
    var n := 0x24f7;
    SievedTwo(n);
    var c := TheBase(n, 2);
    TheBaseNamed(n, 2);
    PowersN9463Over83(c);
    PowersN9463Full(c);
    PrimeN83();
    Factor(c, 2, 83, 114, 0x1787, 11, 7);
    SievedPrime(n, 166);
  }

  lemma {:induction false} PowersN37853Over9463(c: Base)
    requires Named(c) && c.n == 0x93dd && c.a == 2 && c.pw(1) == 2
    ensures c.pw(4) == 16
  {
    var e, v := 1, 2;
    e, v := Zero(c, e, v, 4, 0);
    e, v := Zero(c, e, v, 16, 0);
  }

  lemma {:induction false} PowersN37853Full(c: Base)
    requires Named(c) && c.n == 0x93dd && c.a == 2 && c.pw(1) == 2
    ensures c.pw(0x93dc) == 1
  {
    var e, v := 1, 2;
    e, v := Zero(c, e, v, 4, 0);
    e, v := Zero(c, e, v, 16, 0);
    e, v := One(c, e, v, 512, 0);
    e, v := Zero(c, e, v, 0x88d2, 6);
    e, v := Zero(c, e, v, 0x1352, 0x7e9a);
    e, v := One(c, e, v, 0x4d2c, 0x50c);
    e, v := One(c, e, v, 0x7e67, 0x508d);
    e, v := One(c, e, v, 0x76b6, 0xd81c);
    e, v := One(c, e, v, 0x721c, 0xbe9c);
    e, v := Zero(c, e, v, 0x511d, 0x580f);
    e, v := One(c, e, v, 0xd4c, 0x58fe);
    e, v := One(c, e, v, 0x20cc, 612);
    e, v := One(c, e, v, 0x5244, 0xe8c);
    e, v := Zero(c, e, v, 0x93dc, 0x2dc4);
    e, v := Zero(c, e, v, 1, 0x93db);
  }

  lemma {:induction false} PrimeN37853()
    ensures IsPrime(0x93dd)
  {
    var n := 0x93dd;
    SievedTwo(n);
    var c := TheBase(n, 2);
    TheBaseNamed(n, 2);
    PowersN37853Over9463(c);
    PowersN37853Full(c);
    PrimeN9463();
    Factor(c, 2, 0x24f7, 4, 16, 0x8026, 13);
    SievedPrime(n, 0x49ee);
  }

  lemma {:induction false} PowersN75707Over37853(c: Base)
    requires Named(c) && c.n == 0x127bb && c.a == 2 && c.pw(1) == 2
    ensures c.pw(2) == 4
  {
    var e, v := 1, 2;
    e, v := Zero(c, e, v, 4, 0);
  }

  lemma {:induction false} PowersN75707Full(c: Base)
    requires Named(c) && c.n == 0x127bb && c.a == 2 && c.pw(1) == 2
    ensures c.pw(0x127ba) == 1
  {
    var e, v := 1, 2;
    e, v := Zero(c, e, v, 4, 0);
    e, v := Zero(c, e, v, 16, 0);
    e, v := One(c, e, v, 512, 0);
    e, v := Zero(c, e, v, 0x88cf, 3);
    e, v := Zero(c, e, v, 0x1653, 0x3f4a);
    e, v := One(c, e, v, 0xf628, 862);
    e, v := One(c, e, v, 0xff68, 0x199c8);
    e, v := One(c, e, v, 0x348d, 0x1b929);
    e, v := One(c, e, v, 0x2bf3, 0x12ad);
    e, v := Zero(c, e, v, 0xb51, 0x688);
    e, v := One(c, e, v, 0xd2d3, 221);
    e, v := One(c, e, v, 0x2085, 0x12c97);
    e, v := One(c, e, v, 0x10770, 0x726);
    e, v := Zero(c, e, v, 0xd917, 0xeaab);
    e, v := One(c, e, v, 0x127ba, 0x13eb8);
    e, v := Zero(c, e, v, 1, 0x127b9);
  }

  lemma {:induction false} PrimeN75707()
    ensures IsPrime(0x127bb)
  {
    var n := 0x127bb;
    SievedTwo(n);
    var c := TheBase(n, 2);
    TheBaseNamed(n, 2);
    PowersN75707Over37853(c);
    PowersN75707Full(c);
    PrimeN37853();
    Factor(c, 2, 0x93dd, 2, 4, 0x6294, 1);
    SievedPrime(n, 0x127ba);
  }

  lemma {:induction false} PrimeN11()
    ensures IsPrime(11)
  {
    assert 11 % 2 != 0 && 11 % 3 != 0;
    Trial(11, 3);
  }

  lemma {:induction false} PowersN991Over3(c: Base)
    requires Named(c) && c.n == 991 && c.a == 2 && c.pw(1) == 2
    ensures c.pw(330) == 113
  {
    var e, v := 1, 2;
    e, v := Zero(c, e, v, 4, 0);
    e, v := One(c, e, v, 32, 0);
    e, v := Zero(c, e, v, 33, 1);
    e, v := Zero(c, e, v, 98, 1);
    e, v := One(c, e, v, 379, 19);
    e, v := Zero(c, e, v, 937, 144);
    e, v := One(c, e, v, 877, 0x6eb);
    e, v := Zero(c, e, v, 113, 776);
  }

  lemma {:induction false} PowersN991Over11(c: Base)
    requires Named(c) && c.n == 991 && c.a == 2 && c.pw(1) == 2
    ensures c.pw(90) == 50
  {
    var e, v := 1, 2;
    e, v := Zero(c, e, v, 4, 0);
    e, v := One(c, e, v, 32, 0);
    e, v := One(c, e, v, 66, 2);
    e, v := Zero(c, e, v, 392, 4);
    e, v := One(c, e, v, 118, 310);
    e, v := Zero(c, e, v, 50, 14);
  }

  lemma {:induction false} PowersN991Full(c: Base)
    requires Named(c) && c.n == 991 && c.a == 2 && c.pw(330) == 113
    ensures c.pw(990) == 1
  {
    Times(c, 330, 113, 330, 113, 877, 12);
    Times(c, 660, 877, 330, 113, 1, 100);
  }

  lemma {:induction false} PrimeN991()
    ensures IsPrime(991)
  {
    var n := 991;
    SievedTwo(n);
    var c := TheBase(n, 2);
    TheBaseNamed(n, 2);
    PowersN991Over3(c);
    PowersN991Over11(c);
    PowersN991Full(c);
    PrimeN3();
    Factor(c, 2, 3, 330, 113, 292, 33);
    PrimeN11();
    Factor(c, 6, 11, 90, 50, 809, 40);
    SievedPrime(n, 66);
  }

  lemma {:induction false} PowersN8574133Over3(c: Base)
    requires Named(c) && c.n == 0x82d4b5 && c.a == 2 && c.pw(1) == 2
    ensures c.pw(0x2b9c3c) == 0x6c0491
  {
    var e, v := 1, 2;
    e, v := Zero(c, e, v, 4, 0);
    e, v := One(c, e, v, 32, 0);
    e, v := Zero(c, e, v, 0x400, 0);
    e, v := One(c, e, v, 0x200000, 0);
    e, v := One(c, e, v, 0x15fdd5, 0xfa75f);
    e, v := One(c, e, v, 0x61c514, 0x764a6);
    e, v := Zero(c, e, v, 0x5e9b62, 0x491036);
    e, v := Zero(c, e, v, 0x364cce, 0x44699e);
    e, v := One(c, e, v, 0x72823f, 0x2d12c5);
    e, v := One(c, e, v, 0x2e40ba, 0xc87228);
    e, v := One(c, e, v, 0x58b589, 0x20b423);
    e, v := Zero(c, e, v, 0x3c054c, 0x3c2611);
    e, v := Zero(c, e, v, 0x20118b, 0x1b8911);
    e, v := Zero(c, e, v, 0x6f0bfb, 0x7dc46);
    e, v := Zero(c, e, v, 0x61530f, 0x5e4122);
    e, v := One(c, e, v, 0x4175e2, 0x90cc60);
    e, v := One(c, e, v, 0x459a61, 0x41816b);
    e, v := One(c, e, v, 0x69458f, 0x4a0f07);
    e, v := One(c, e, v, 0x264901, 0xa9695d);
    e, v := Zero(c, e, v, 0x6c0492, 0xb3413);
    e, v := Zero(c, e, v, 0x6c0491, 0x592ec7);
  }

  lemma {:induction false} PowersN8574133Over991(c: Base)
    requires Named(c) && c.n == 0x82d4b5 && c.a == 2 && c.pw(1) == 2
    ensures c.pw(0x21cc) == 0x346cd1
  {
    var e, v := 1, 2;
    e, v := Zero(c, e, v, 4, 0);
    e, v := Zero(c, e, v, 16, 0);
    e, v := Zero(c, e, v, 256, 0);
    e, v := Zero(c, e, v, 0x10000, 0);
    e, v := One(c, e, v, 0x6e4843, 0x3e9);
    e, v := One(c, e, v, 0x5f870d, 0xb9ec11);
    e, v := One(c, e, v, 0x69105, 0x8b8039);
    e, v := Zero(c, e, v, 0xa56ee, 0x545f);
    e, v := Zero(c, e, v, 0x6ff309, 0xd12f);
    e, v := One(c, e, v, 0x1e917b, 0xbf95eb);
    e, v := One(c, e, v, 0x1108c, 0xe48ce);
    e, v := Zero(c, e, v, 0x64afad, 567);
    e, v := Zero(c, e, v, 0x346cd1, 0x4d7cb8);
  }

  lemma {:induction false} PowersN8574133Full(c: Base)
    requires Named(c) && c.n == 0x82d4b5 && c.a == 2 && c.pw(0x2b9c3c) == 0x6c0491
    ensures c.pw(0x82d4b4) == 1
  {
    Times(c, 0x2b9c3c, 0x6c0491, 0x2b9c3c, 0x6c0491, 0x16d023, 0x592ec6);
    Times(c, 0x573878, 0x16d023, 0x2b9c3c, 0x6c0491, 1, 0x12d5ca);
  }

  lemma {:induction false} PrimeN8574133()
    ensures IsPrime(0x82d4b5)
  {
    var n := 0x82d4b5;
    SievedTwo(n);
    var c := TheBase(n, 2);
    TheBaseNamed(n, 2);
    PowersN8574133Over3(c);
    PowersN8574133Over991(c);
    PowersN8574133Full(c);
    PrimeN3();
    Factor(c, 2, 3, 0x2b9c3c, 0x6c0491, 0x79ab6, 0x64743);
    PrimeN991();
    Factor(c, 6, 991, 0x21cc, 0x346cd1, 0xf79eb, 0x63393);
    SievedPrime(n, 0x173a);
  }

  lemma {:induction false} PowersN1919519569386763Over3Part0(c: Base, e0: nat) returns (e: nat)
    requires Named(c) && c.n == 0x6d1cafa129d0b && c.a == 2 && c.pw(e0) == 2
    ensures e == 0x10000000000 * e0 + 0x22f729adc4 && c.pw(e) == 0x61ee9c5a1892b
  {
    var v := 2;
    e := e0;
    e, v := Zero(c, e, v, 4, 0);
    e, v := Zero(c, e, v, 16, 0);
    e, v := One(c, e, v, 512, 0);
    e, v := Zero(c, e, v, 0x40000, 0);
    e, v := Zero(c, e, v, 0x1000000000, 0);
    e, v := Zero(c, e, v, 0x33adac13a3019, 0x258a15);
    e, v := One(c, e, v, 0x51e0708cc2203, 0x30f3db9dbadfd);
    e, v := Zero(c, e, v, 0x5359eb013dc98, 0x3d70872085af3);
    e, v := One(c, e, v, 0x1028eb68f2db4, 0x7f58489c81be4);
    e, v := One(c, e, v, 0x188e93cec86ef, 0x4c961c235733);
    e, v := One(c, e, v, 0x50272828b112c, 0xb0dbc4247102);
    e, v := One(c, e, v, 0x5d6bf9c5c8255, 0x75c275b5e3741);
    e, v := Zero(c, e, v, 0x57289231447b9, 0x4ffcdde86c980);
    e, v := One(c, e, v, 0x5f3794eb763ce, 0x8b3e7850f5f3c);
    e, v := One(c, e, v, 0x43b90d4942a06, 0xa62eeaf86d9c6);
    e, v := One(c, e, v, 0x36e029e623047, 0x541143d3486a3);
    e, v := Zero(c, e, v, 0x1032d8741e04f, 0x1b993b58d6366);
    e, v := Zero(c, e, v, 0x114c415c1a4f8, 0x267a2749f1db);
    e, v := One(c, e, v, 0x11018aa3c5f7a, 0x57c0cd254ad2);
    e, v := Zero(c, e, v, 0x533398c4b37bf, 0x2a689225484f);
    e, v := One(c, e, v, 0x6a25eb496db28, 0x7ee34b2cc75ce);
    e, v := Zero(c, e, v, 0x361e55366874f, 0x6743c36bf0973);
    e, v := Zero(c, e, v, 0x961e38cc6509, 0x1ad79c4a57708);
    e, v := One(c, e, v, 0x5e80f556b6e1, 0x19d11c9cd7e3);
    e, v := One(c, e, v, 0x64a1085775064, 0xa3b3d66601a);
    e, v := Zero(c, e, v, 0x60359e5a6b9f4, 0x5cce3765da0d4);
    e, v := One(c, e, v, 0x248d6d2861ec2, 0xa9aa48ba635da);
    e, v := Zero(c, e, v, 0x4f7e57f585abb, 0xc3ebae0e347b);
    e, v := One(c, e, v, 0xe48602bc4980, 0x73d476cabba56);
    e, v := One(c, e, v, 0x13f33e4f0f48c, 0x3bd3c5af82dc);
    e, v := Zero(c, e, v, 0x448d361f09e8a, 0x3a5d066811d2);
    e, v := One(c, e, v, 0x17b7601b7ce91, 0x562336d364f05);
    e, v := One(c, e, v, 0x2d7398cc83c64, 0xa4f51059fe5a);
    e, v := One(c, e, v, 0x1c838e93278d4, 0x25ddd0126d764);
    e, v := Zero(c, e, v, 0x23b2f52982671, 0x77391b6b08bd);
    e, v := Zero(c, e, v, 0x439b9e8919b28, 0xbae10a47b1cb);
    e, v := Zero(c, e, v, 0x188e4062a09f6, 0x29e420a042f1e);
    e, v := One(c, e, v, 0x33efc6e23f0d3, 0xb0d7128f76ff);
    e, v := Zero(c, e, v, 0x2cdf720c6f011, 0x18b8b40d1d088);
    e, v := Zero(c, e, v, 0x61ee9c5a1892b, 0x127443c6d45a2);
  }

  lemma {:induction false} PowersN1919519569386763Over3Part1(c: Base, e0: nat) returns (e: nat)
    requires Named(c) && c.n == 0x6d1cafa129d0b && c.a == 2 && c.pw(e0) == 0x61ee9c5a1892b
    ensures e == 512 * e0 + 430 && c.pw(e) == 0x6587710223b6c
  {
    var v := 0x61ee9c5a1892b;
    e := e0;
    e, v := One(c, e, v, 0x5056a874ab101, 0xafcb9616408f3);
    e, v := One(c, e, v, 0x6b17fadece1b3, 0x764e328bfb24d);
    e, v := Zero(c, e, v, 0x2e2e6305d634a, 0x691cd500424fd);
    e, v := One(c, e, v, 0x4d951224f5a4, 0x27178bf3715ec);
    e, v := Zero(c, e, v, 0x6b070cc1d9af, 0x3729e2288c3);
    e, v := One(c, e, v, 0x525116210789e, 0xd1f7377f66c);
    e, v := One(c, e, v, 0x36f38bba57849, 0x7c3414b32919d);
    e, v := One(c, e, v, 0x6587710223b6d, 0x37597b5fec9bf);
    e, v := Zero(c, e, v, 0x6587710223b6c, 0x5e791ba3e5f17);
  }

  lemma {:induction false} PowersN1919519569386763Over3(c: Base)
    requires Named(c) && c.n == 0x6d1cafa129d0b && c.a == 2 && c.pw(1) == 2
    ensures c.pw(0x245ee535b89ae) == 0x6587710223b6c
  {
    var e := 1;
    e := PowersN1919519569386763Over3Part0(c, e);
    e := PowersN1919519569386763Over3Part1(c, e);
  }

  lemma {:induction false} PowersN1919519569386763Over8574133(c: Base)
    requires Named(c) && c.n == 0x6d1cafa129d0b && c.a == 2 && c.pw(1) == 2
    ensures c.pw(0xd580922) == 0x3c3ffdef7c0b1
  {
    var e, v := 1, 2;
    e, v := One(c, e, v, 8, 0);
    e, v := Zero(c, e, v, 64, 0);
    e, v := One(c, e, v, 0x2000, 0);
    e, v := Zero(c, e, v, 0x4000000, 0);
    e, v := One(c, e, v, 0x4b8d417b58bd4, 4);
    e, v := Zero(c, e, v, 0x3bb9bdc82f6e4, 0x3450586284584);
    e, v := One(c, e, v, 0x5f18e786eab62, 0x41628a3768afa);
    e, v := One(c, e, v, 0x34a24d67198b2, 0xa5c3e707798c2);
    e, v := Zero(c, e, v, 0x404d9a606b02c, 0x1963cc5a251c8);
    e, v := Zero(c, e, v, 0x6a2603b88121b, 0x25e55607fc77f);
    e, v := Zero(c, e, v, 0x19004c5c350df, 0x6743f2f64922e);
    e, v := Zero(c, e, v, 0x42d8f2a2ec64a, 0x5ba84e4e1845);
    e, v := Zero(c, e, v, 0x508eccc5fc7a7, 0x28f43d6bc9557);
    e, v := Zero(c, e, v, 0xd194095d85ca, 0x3b79e2a6bfdd5);
    e, v := Zero(c, e, v, 0x4eb4d9d00b27c, 0x1928cc8673b8);
    e, v := One(c, e, v, 0x28416ba0b6a57, 0x718c2e6325cfb);
    e, v := Zero(c, e, v, 0x2eb989126ce8e, 0xeda0ed36c4e9);
    e, v := Zero(c, e, v, 0x5772cd6bce94b, 0x1402412e64a0b);
    e, v := One(c, e, v, 0x5d322c8ac0852, 0x8c2c0c46912e0);
    e, v := Zero(c, e, v, 0x4e0d9428f0339, 0x4f9a01bd70e01);
    e, v := Zero(c, e, v, 0xfeb816ba61af, 0x37d5c607f3046);
    e, v := One(c, e, v, 0x4c0d7a2b0b64b, 0x4a544fc80345);
    e, v := Zero(c, e, v, 0x259cb28ce652d, 0x3502803f9c5e4);
    e, v := Zero(c, e, v, 0x38f03576a55f7, 0xcf71d99d3f16);
    e, v := Zero(c, e, v, 0x675002e71f67f, 0x1db65a4fc08b6);
    e, v := One(c, e, v, 0x14b705744ee84, 0xc3a47fef8493a);
    e, v := Zero(c, e, v, 0x3c3ffdef7c0b1, 0x3eec75caef7d);
  }

  lemma {:induction false} PowersN1919519569386763Full(c: Base)
    requires Named(c) && c.n == 0x6d1cafa129d0b && c.a == 2 && c.pw(0x245ee535b89ae) == 0x6587710223b6c
    ensures c.pw(0x6d1cafa129d0a) == 1
  {
    Times(c, 0x245ee535b89ae, 0x6587710223b6c, 0x245ee535b89ae, 0x6587710223b6c, 0x7953e9f0619e, 0x5e791ba3e5f16);
    Times(c, 0x48bdca6b7135c, 0x7953e9f0619e, 0x245ee535b89ae, 0x6587710223b6c, 1, 0x70e555e3dc55);
  }

  lemma {:induction false} PrimeN1919519569386763()
    ensures IsPrime(0x6d1cafa129d0b)
  {
    var n := 0x6d1cafa129d0b;
    SievedTwo(n);
    var c := TheBase(n, 2);
    TheBaseNamed(n, 2);
    PowersN1919519569386763Over3(c);
    PowersN1919519569386763Over8574133(c);
    PowersN1919519569386763Full(c);
    PrimeN3();
    Factor(c, 2, 3, 0x245ee535b89ae, 0x6587710223b6c, 0x4b44df4b1de91, 0x4609bd20d710e);
    PrimeN8574133();
    Factor(c, 6, 0x82d4b5, 0xd580922, 0x3c3ffdef7c0b1, 0x495bef080ea35, 0x2881fc4256cad);
    SievedPrime(n, 0x310fc3e);
  }

  lemma {:induction false} PowersQ2Over75707Part0(c: Base, e0: nat) returns (e: nat)
    requires Named(c) && c.n == 0xe87c2a477b815a1793787395b23e1 && c.a == 2 && c.pw(e0) == 2
    ensures e == 0x10000000000 * e0 + 0x9280b4f8db && c.pw(e) == 0xe13443886424e960b3364409c368a
  {
    var v := 2;
    e := e0;
    e, v := One(c, e, v, 8, 0);
    e, v := Zero(c, e, v, 64, 0);
    e, v := Zero(c, e, v, 0x1000, 0);
    e, v := One(c, e, v, 0x2000000, 0);
    e, v := Zero(c, e, v, 0x4000000000000, 0);
    e, v := Zero(c, e, v, 0x10000000000000000000000000, 0);
    e, v := One(c, e, v, 0x4d1fc259a8601304281e475b2479f, 0x233c96fcc8cedcfcf52481);
    e, v := Zero(c, e, v, 0xae5a210dbaae421f69632265f75cf, 0x1995c01a4831d0daf5bedcefcbd32);
    e, v := One(c, e, v, 0x6a18ac3ffcd86000000000000, 0x10582b3ac856f14bb0478f4f89d302);
    e, v := Zero(c, e, v, 0x2bb7c219f24bef13be4e7628f9198, 0x306afcea1bfc513c53b68);
    e, v := Zero(c, e, v, 0x9d96455616238cfda50440d0f5d8b, 0x8388fd6ac9bcf57d8b53a8d3a355);
    e, v := Zero(c, e, v, 0x8f31af9c424371bf5ade407761822, 0x6ad17df271bf997d5dbbc489cfc37);
    e, v := Zero(c, e, v, 0xd4019da44e89c5525d6a82c4fae14, 0x583280e339fb58787ba00d8cf8470);
    e, v := Zero(c, e, v, 0x36c88bd7f8b39b365d5f019132f59, 0xc154dcc44eb38ededd3686c4ce917);
    e, v := Zero(c, e, v, 0x7bf7d983f005dbf244bc78a62bd26, 0xce8c7f65c83ec3667fdddd67292b);
    e, v := Zero(c, e, v, 0x930cb76081a5d1ce489c7c7368e90, 0x421a87f48015c5ca5dbe6ef0c7594);
    e, v := One(c, e, v, 0x38e92030b7eb5419f7d5228d4bfe1, 0xba05812df7053e2ba1e3c0cdf45ff);
    e, v := Zero(c, e, v, 0x4794b895c52c36c211abbea93c267, 0xdee6a96646ee27fefbdc43d7ac9a);
    e, v := One(c, e, v, 0x64ee51d07aa10f00c917e53f41922, 0x2c142cb5d08e6c7d35d581b96a9c0);
    e, v := One(c, e, v, 0xd1c8bdbe6dc420d3f3e448936cef5, 0x57a2df1b854b71a3db30d43d3e473);
    e, v := Zero(c, e, v, 0x8ae49ee92ad10a54b63d212e1cc9d, 0xbd4cc54576ed7fddca5194ff9255c);
    e, v := One(c, e, v, 0x846a38fe7f6c9644683a39bcb3745, 0xa5f509cfd954d7a7419ac0e5602ed);
    e, v := Zero(c, e, v, 0x92a81457e5d916e1ae10b6316df31, 0x4b6b2edf48b67bf079c3e3b680668);
    e, v := Zero(c, e, v, 0x96234b5e23e113a7947260bf14eba, 0x5c839d45ea513005bc857c706cd87);
    e, v := One(c, e, v, 0xdf50d147d63d389e7ea03e47c75b5, 0xc1eab5b20fb803e484552ef1b7af3);
    e, v := One(c, e, v, 0x5d03e7750ccbc508490af22bdb7a1, 0x1ad0419d1f451d8a6af6bc3de01671);
    e, v := One(c, e, v, 0x85111b977aac78da0c8fe36326949, 0x4a6ddfefc5e8b53c700ec59a9c459);
    e, v := One(c, e, v, 0x4b2c1f89e483ffd8a172fa98eea6a, 0x9853823a4bfcb904198c6e6486a38);
    e, v := One(c, e, v, 0x1b65d7247b5d43a4f78ba9f81eef6, 0x309ce5acf4e616d425137c9dfd312);
    e, v := Zero(c, e, v, 0x48b5d71ff5824495fd24f81827173, 0x33a908bbd256b53199e2001aa111);
    e, v := Zero(c, e, v, 0xcb8bcbed59cfd6d3a3d73bb590d61, 0x16bd874c08485bbf729760aea3548);
    e, v := Zero(c, e, v, 0xb1dacd7f4c46cfd6fe4584df742dd, 0xb23598ad3eb468ef25905260ab864);
    e, v := One(c, e, v, 0x451642b7ec00c6ea0f5def361a7fb, 0x1101f8f9489dbe342e9480e05c1077);
    e, v := One(c, e, v, 0x8732fa63d03c6e4d4ff2c192c6607, 0x290f8ee140d8c5e030fba9595df8b);
    e, v := Zero(c, e, v, 0xa1d3c1be0e761e27139f76483c885, 0x4e9fa33a4b5c0af10c92e9db7c12c);
    e, v := One(c, e, v, 0x80699cade34461d3b21419b8daa33, 0xe149b5d7162704860baa581521fdf);
    e, v := One(c, e, v, 0x648dde4bc3797870bcbfa3bd38d43, 0x8ddb5293d878a45f2201dfef180ef);
    e, v := Zero(c, e, v, 0x33841355d4de7f7b4a254f6e6d156, 0x2b7dd870c26a917ce29d286b6f493);
    e, v := One(c, e, v, 0xd58d4c10ca33ba64f0904b2d8096e, 0x16d4a4533bee714f80d01e6cdd39a);
    e, v := One(c, e, v, 0xe13443886424e960b3364409c368a, 0x188524b8f6fa4ae418439e3b70dfbe);
  }

  lemma {:induction false} PowersQ2Over75707Part1(c: Base, e0: nat) returns (e: nat)
    requires Named(c) && c.n == 0xe87c2a477b815a1793787395b23e1 && c.a == 2 && c.pw(e0) == 0xe13443886424e960b3364409c368a
    ensures e == 0x10000000000 * e0 + 0xbff13a17de && c.pw(e) == 0x43133a35b9397f8224386bd9ee698
  {
    var v := 0xe13443886424e960b3364409c368a;
    e := e0;
    e, v := One(c, e, v, 0x284ee694fd57fb94177839f60fcb7, 0x1b44d7878f52bea111f62d6ecf6a31);
    e, v := Zero(c, e, v, 0x5719c8587775955315e7ee5299a71, 0x6fd16c3bb14b1eb06a5990193c60);
    e, v := One(c, e, v, 0x613c032af8ff6b912514ca13f45e4, 0x4143c45780b7bb14047677f39019e);
    e, v := One(c, e, v, 0x255a13de336b5fc14e18e20a441ed, 0x5155a58a1a28fb64649919250ca93);
    e, v := One(c, e, v, 0x3a3c58df78393be5a6b884566e7e4, 0xc008dee969a8f57f6295f94f20ae);
    e, v := One(c, e, v, 0xe34c8a2ef323bd6e726951b1d1a80, 0x1d2cdaf9f02c25be1e3d9d3e6dfa0);
    e, v := One(c, e, v, 0xbb2c158bbe5492fc037a5acc13659, 0x1bc750f358b07518de144cbc571e87);
    e, v := One(c, e, v, 0xadd88b1b7410e4058e0df96cba466, 0x12d61ddbf787299c010199218060fc);
    e, v := One(c, e, v, 0xd6ccdb8f473bf5905a78bf48493f8, 0x103fe88f8eb97a2e959806f60ac750);
    e, v := One(c, e, v, 0x7503f64c3a793c0e0e4cc44b1727b, 0x18cebdf21fb100044b9172c31baea5);
    e, v := One(c, e, v, 0x3a0a481bee591fb4c659fd15c083a, 0x75cb284e5a1b4e01ba8a9e78144f8);
    e, v := One(c, e, v, 0x91fce588e13c0c92f1b423737a0db, 0x1cfac6881956cc221f267a78bc70d);
    e, v := Zero(c, e, v, 0xcfcdec0962eade567024a8d604b99, 0x5bac2292f37089b3efa09083a27c0);
    e, v := Zero(c, e, v, 0x3358c7d520f101bdd4019ad008bb3, 0xb9be6ca05e92b820c25ed3af06d7e);
    e, v := Zero(c, e, v, 0x19916ca913fef297f95d7491a1321, 0xb572a47afd10e25864238c3e4d08);
    e, v := One(c, e, v, 0x134d1f367c95c1f5f8d1c09e58771, 0x59fb2147b9074710407f031a4f31);
    e, v := Zero(c, e, v, 0xb4a424de1afb1ae326c93793cae18, 0x19a382af352c9544431c2ca34ae9);
    e, v := Zero(c, e, v, 0xe581b75439e4047267ab8b109d19b, 0x8c5bc3d2338c482a22fd6c62ec545);
    e, v := One(c, e, v, 0x717eacca2fdfbc670da188c3ba89c, 0x1c52211c153b745b4bdb6016a561d6);
    e, v := One(c, e, v, 0xca7696e01578b05f0b028f203dc0d, 0x6ecfe4e7e43ca2880eddf001dc473);
    e, v := One(c, e, v, 0xa155a8c1133835806d053c2d688cd, 0x160a2f82887d34dc566457cc051925);
    e, v := Zero(c, e, v, 0xe6ff50d40d63dd8d999d4343d1ddc, 0x6ff5934a6eaa2b63ef8b9ccfcffed);
    e, v := One(c, e, v, 0x7e49099cae33582123ef77c754c75, 0x1cb09ce8b90fb2a397a87fd551b30b);
    e, v := Zero(c, e, v, 0x5107a5d472a6ab92b839cc55dfa66, 0x44990e297abec7c8c84c04b6b3573);
    e, v := Zero(c, e, v, 0xccee1a3728c2cca2066063713cacf, 0x1c3df34e5fe4eda6e8b766cd23075);
    e, v := Zero(c, e, v, 0x95675ccee765b64e2561c22eeadf7, 0xb4a41c97ab76a2076837d98cb12aa);
    e, v := Zero(c, e, v, 0x91055418ccd967300b4455d41d03c, 0x6003378fe7233c3eb12b6983c56b5);
    e, v := One(c, e, v, 0xbf90f7657ee28146c90e86f6eda8a, 0xb4ec7e26204a26d6df77383ecb456);
    e, v := Zero(c, e, v, 0x89b04009c1d413e6ec8f21761fc2f, 0x9dd97701718ea06c6cf3f017ffcd5);
    e, v := One(c, e, v, 0xd68c5573ea278483c8d644cb9d635, 0xa3175126021c054a64b05a9c58cad);
    e, v := One(c, e, v, 0x14c5eeb6d51f8ada9e583045642af, 0x18bfd8c8dc83d5084ba2a69f5593a3);
    e, v := One(c, e, v, 0xbec887ef2d34495831c7e9cb0c0c, 0x3b657fbb180b691a50b477a201f6);
    e, v := One(c, e, v, 0xac9a532e2ea5a12e868b174bdd035, 0x1391fa6427d6ba5c30da3e1eae4b);
    e, v := One(c, e, v, 0xbcd04acae4358e291012c05c929fb, 0x1004a1e374de6a8ccceede451d4ad7);
    e, v := Zero(c, e, v, 0x97e2eb210f9b701674c604cb7b4b0, 0x995883736e0ab8e8352136f58f489);
    e, v := One(c, e, v, 0xed5b84b6c2c2dc8ec5456847ce38, 0xc675bcf277e267591e3e823d79cc8);
    e, v := One(c, e, v, 0x7643163a4b90030368034016a10ab, 0x1e4aa07293132047ae8250672275);
    e, v := One(c, e, v, 0x2ffe29a79e6661556939bf531633, 0x785112c311c6d89ae0d70552df61f);
    e, v := One(c, e, v, 0x197852fd37ac162bdd3dfb19082a4, 0x13d09085334b1d4583069598f6e);
    e, v := Zero(c, e, v, 0x43133a35b9397f8224386bd9ee698, 0x2ca566502df6406fb242419b6178);
  }

  lemma {:induction false} PowersQ2Over75707Part2(c: Base, e0: nat) returns (e: nat)
    requires Named(c) && c.n == 0xe87c2a477b815a1793787395b23e1 && c.a == 2 && c.pw(e0) == 0x43133a35b9397f8224386bd9ee698
    ensures e == 0x80000 * e0 + 0x47da0 && c.pw(e) == 0xb52295a2da9f8731db89340ad8f16
  {
    var v := 0x43133a35b9397f8224386bd9ee698;
    e := e0;
    e, v := One(c, e, v, 0x324c53e2cc3865e504070f6a9c244, 0x26b4448b15042b9e8f4e150cdf9bc);
    e, v := Zero(c, e, v, 0xc2dca9f6e2ccd8164d68cec511f2a, 0xae1cb6e38976e70653e218809fa6);
    e, v := Zero(c, e, v, 0x23b6f708aae852aff6850b6091b93, 0xa353d41d68a47352b03a64ce36171);
    e, v := Zero(c, e, v, 0x2eea35faf60601f4df11bdf78e5e1, 0x57c8e6de63b23524eacd3d168188);
    e, v := One(c, e, v, 0x91a836c159f6ef87aca4d56c5cd30, 0x12ef4292cf0e975fe9ebb4383dc92);
    e, v := One(c, e, v, 0xc8b682560fb6bdda0b4643aa84ce9, 0xb683ce7cffbd76be16e61bc30c7f7);
    e, v := One(c, e, v, 0xacbdeaa551bc4b25a0788a2ec5f10, 0x15a90d86cf3c25579e2fa1e0e7db52);
    e, v := One(c, e, v, 0x4917388d110b6f1bcba3215ce029, 0x100b3db7455fff6bd779de595dbcb7);
    e, v := One(c, e, v, 0xa3736acde688bf830cbca94973c3c, 0x2df53327285ee83b7efdc90ada6);
    e, v := Zero(c, e, v, 0xdda4a108574188f56a46eefcec36f, 0x72ea6b9b36fb587743d01e89b1ec1);
    e, v := One(c, e, v, 0xe1cc6fdfbde0555e92dcb7d0ffdc7, 0x1a69d0f6005492885d6879b42185db);
    e, v := One(c, e, v, 0x602b51147e7a460d897711deda9d8, 0x1b69be0f9fd69b8d010d13132ee8ca);
    e, v := Zero(c, e, v, 0x49f4c4e4cbb0be1071d295caf6c07, 0x27c7f7f49f8f3a79fbc9381a02159);
    e, v := One(c, e, v, 0x1ba9c368ca9cdd7510047b8aee44e, 0x2f0d755b2aa35e120f5424435ee94);
    e, v := Zero(c, e, v, 0xa79d2c0c2d17f70716c20690a5c72, 0x34aa6b91ed555d14e8bb0a44d592);
    e, v := Zero(c, e, v, 0x2c023cb124d9614045c3f8f91116b, 0x78d81557a0308c23e11c3c1c89c79);
    e, v := Zero(c, e, v, 0x251a92a95f2f0a078c3992a3e895d, 0x854aa7a99588e7975f7cbdd484dc);
    e, v := Zero(c, e, v, 0x75e9524415a8afa2150eed75a3bfd, 0x5ebf06ea0add78b780ae1ab0e94c);
    e, v := Zero(c, e, v, 0xb52295a2da9f8731db89340ad8f16, 0x3bcd58d5b42b8956cc6122a654753);
  }

  lemma {:induction false} PowersQ2Over75707(c: Base)
    requires Named(c) && c.n == 0xe87c2a477b815a1793787395b23e1 && c.a == 2 && c.pw(1) == 2
    ensures c.pw(0xc9405a7c6ddff89d0bef47da0) == 0xb52295a2da9f8731db89340ad8f16
  {
    var e := 1;
    e := PowersQ2Over75707Part0(c, e);
    e := PowersQ2Over75707Part1(c, e);
    e := PowersQ2Over75707Part2(c, e);
  }

  lemma {:induction false} PowersQ2Over1919519569386763Part0(c: Base, e0: nat) returns (e: nat)
    requires Named(c) && c.n == 0xe87c2a477b815a1793787395b23e1 && c.a == 2 && c.pw(e0) == 2
    ensures e == 0x10000000000 * e0 + 0x10bac45b5a && c.pw(e) == 0x52ce25a2a94ee92c92fefeed83f4
  {
    var v := 2;
    e := e0;
    e, v := Zero(c, e, v, 4, 0);
    e, v := Zero(c, e, v, 16, 0);
    e, v := Zero(c, e, v, 256, 0);
    e, v := One(c, e, v, 0x20000, 0);
    e, v := Zero(c, e, v, 0x400000000, 0);
    e, v := Zero(c, e, v, 0x100000000000000000, 0);
    e, v := Zero(c, e, v, 0x72c84b3dffef4313c76ee90369f15, 0x119e4b);
    e, v := Zero(c, e, v, 0x17dbb00000, 0x38ab99a6093b8d26c59c427bb6ed9);
    e, v := One(c, e, v, 0x4726c4d320000000000, 0);
    e, v := Zero(c, e, v, 0xb14f313a2832003e0df7609d25e6c, 0x15c695414);
    e, v := One(c, e, v, 0xa868cd4e3f37a9c111b58cd538fa6, 0x10e74ffc7cd79d56dacfe997a69aba);
    e, v := One(c, e, v, 0xbdd70817144567f7b79ffd24f00dd, 0xf3fccd3acece8b4c90fc3f432abcb);
    e, v := One(c, e, v, 0x9e10535caff837d7c5291aa75141e, 0x13608e2e4dc74b97e87d237b6117f4);
    e, v := Zero(c, e, v, 0xda7fef63e9d7012b44eb0b43a967b, 0x6b7735769813f8dc240ec6a191e29);
    e, v := One(c, e, v, 0x65129e2b8099eaef71586722e7190, 0x19ab626e0cbaa6cbf5cea79f50a0e2);
    e, v := Zero(c, e, v, 0x772a1cbc4df204759de3128d27123, 0x2bf0f994250e217a5f866a39cdb7d);
    e, v := One(c, e, v, 0xc5a158f0a198c844e78c5278e7e52, 0x7a28f1f60d0198825756f682c3f40);
    e, v := One(c, e, v, 0x9764b1a5c7ff9e68e8907cdd3c8dd, 0x1500085f70990a6fdf85bf7ba5710b);
    e, v := Zero(c, e, v, 0xa27df394215b46f6c316c3cc1aecd, 0x6296351db9d067a09d06a9ac0df7c);
    e, v := Zero(c, e, v, 0xa408a65f29ca1e95758135af3e099, 0x71924752c08a5469d526b0e456190);
    e, v := Zero(c, e, v, 0x1500cbd7bb1659c25e95a8d280a0d, 0x73bca22d29e81705dfdbc25d1bde4);
    e, v := One(c, e, v, 0x544894318d7866f3a797114a93bbd, 0x3cb7fa9ade9c3c6b37db68ae6035);
    e, v := Zero(c, e, v, 0x70393e8f73104ca3641dc4c0d9ecf, 0x1e8e3942e1ae5351cd4e9c04c21fa);
    e, v := Zero(c, e, v, 0x4ea08212a042d1f9374dd1823950b, 0x362bfd01b40f9627729ccf421a116);
    e, v := Zero(c, e, v, 0xb2171325b2f1c1a49ecc867d5f24f, 0x1a978256ef1b0ad9553133335216a);
    e, v := One(c, e, v, 0xbf86be0836a3f23e7b5aaf7dd85db, 0x110d81e88113a95202ac98b0985fc7);
    e, v := Zero(c, e, v, 0xbc4e928b1eee0a099e939a6915cba, 0x9dc89e11e3213e6f11bd2b7b7207f);
    e, v := One(c, e, v, 0xe5573ae0f6d4b703deefa97bb7a34, 0x1310c2ecf8719dcd55f531296ef694);
    e, v := One(c, e, v, 0x28070f0ce68ad04dceeba5b7628b1, 0x1c47a5cd38b35d1aa0440bfc643a4f);
    e, v := Zero(c, e, v, 0x1bc45971a75ce48d787f1c94a000d, 0x6e443865fd1d4c8abca6ea6294d4);
    e, v := One(c, e, v, 0x7fd4bd56803e8342be3d722fe61eb, 0x6a1fae5b13ec444bc00fe0982c47);
    e, v := One(c, e, v, 0x71fe4636598a26698c235a47f93c1, 0x8c932667a5772c2c2747c57879dd1);
    e, v := Zero(c, e, v, 0x194edff57d80e5c9761410876add, 0x37e4cdc73e4d914a70790d764e124);
    e, v := One(c, e, v, 0x4d5e3bd4945f807e7638c00287398, 0x5829194dab89275a82fd93113a);
    e, v := Zero(c, e, v, 0x9655fe00e0ab5d432b07544c38a1e, 0x19bf442c72f1fd843b9b708df2462);
    e, v := One(c, e, v, 0x4891f7e860d2c9d222d333e55ab66, 0xc26dc2013867f2b4c851793f13fe2);
    e, v := One(c, e, v, 0x695d4a8e9b68c082ac4a078aef045, 0x2d4e395c5b6c51d5c1ef6830e2963);
    e, v := Zero(c, e, v, 0x491c3082d7b3a52763f0c34935a32, 0x2fc08d3ec89786828fc9e8ab7c547);
    e, v := One(c, e, v, 0xe4e7c5fff7f1a4e4a7840821d6d3f, 0x2dfb72ecfeff92cb60a69aa6f1f69);
    e, v := Zero(c, e, v, 0x52ce25a2a94ee92c92fefeed83f4, 0xe1617de22bdebb27e98cbce4e432d);
  }

  lemma {:induction false} PowersQ2Over1919519569386763Part1(c: Base, e0: nat) returns (e: nat)
    requires Named(c) && c.n == 0xe87c2a477b815a1793787395b23e1 && c.a == 2 && c.pw(e0) == 0x52ce25a2a94ee92c92fefeed83f4
    ensures e == 0x2000000 * e0 + 0xf717a0 && c.pw(e) == 0xaedd80ab27e8de3ca5f2fb22d5403
  {
    var v := 0x52ce25a2a94ee92c92fefeed83f4;
    e := e0;
    e, v := Zero(c, e, v, 0xb2575d2efa93bf6464d7cad7b9ef9, 0x1d7e3de55f34f2d1d131cbcd477);
    e, v := One(c, e, v, 0xd50dfd42379cb9efe235ad9f22ff0, 0x1119d3f61df1d1a23b24ffbfdabab2);
    e, v := One(c, e, v, 0x2716ede1f0e14a2cd2598ee19a7a7, 0x1867f14424ba5d7a663848d5f30579);
    e, v := One(c, e, v, 0x2896afd472c9e7936a6c2e22acc48, 0xd2517188a334f268d29cf1f3c4da);
    e, v := One(c, e, v, 0x7783d69e20ee3bf78a6d9f9b8adfd, 0xe2c22d5cbf8f3ffe78ccbf016ae3);
    e, v := Zero(c, e, v, 0xba83b9ca1b9b2ea43e1482f95f6e, 0x3d7096e2ebf57074f4097a7863ffb);
    e, v := One(c, e, v, 0x77cd05566e32877c6fb20cfb413b0, 0x12b44a43bf645a096e7433ccedd8);
    e, v := One(c, e, v, 0x2c1c1d1b66208396c9e0da8cee21f, 0x7b77d8222e820e49a8eb7bc02ac01);
    e, v := One(c, e, v, 0xdf4dd6133cbda34c81eefdf0eff1d, 0x10bcf2a5f2ec2f4c8b049db206d05);
    e, v := Zero(c, e, v, 0xa31574edd1a0be7dedc6b54c7372d, 0xd67c52bd625e24e21b57a65ac559c);
    e, v := Zero(c, e, v, 0x86959b1bdaff2d9081466493d02d3, 0x726672f5da496037835f9ccf8fdd6);
    e, v := Zero(c, e, v, 0x23214b91898e53491cdacb364abd9, 0x4de9047ecfc54a185ccaf7b611010);
    e, v := One(c, e, v, 0x3a599df33217093dc572ca5aab5a7, 0xa9de53eb2bf35e1f37ffbc876d9b);
    e, v := Zero(c, e, v, 0xbafbde5ebc386be1553b0f6390429, 0xea51b1749904c02f34dc727567c8);
    e, v := One(c, e, v, 0x808952037acc622251ea44cf13b7a, 0x12cc6ac196140aadc0863890e096a8);
    e, v := One(c, e, v, 0x142094c51b5dbc59a5329d5e22371, 0x8e2169968618983afea4aee6683b7);
    e, v := One(c, e, v, 0x2a989a902fb9217d482069bed88b1, 0x37c2a011117ab07d42f274f1e931);
    e, v := One(c, e, v, 0xde23ceb3a7a098965b2aa5ba2825e, 0xf9be6ecda80f9454013bf3b25ee4);
    e, v := Zero(c, e, v, 0x5d1f3bbb944c1e87f26a0cc7e9fb, 0xd4414bf1a652dec16fe4144e921a9);
    e, v := One(c, e, v, 0xd14c927b6590d0999886a314c1682, 0x4a99a2f5ae396b675f35b73d7b0);
    e, v := Zero(c, e, v, 0x89b84ebdbb5f3ab59c3b0ef8b7512, 0xbc6cf0c40eb74ed73ea0f2b368332);
    e, v := Zero(c, e, v, 0x4e306d573a851f226efe4f75ae6ec, 0x5195341c882950ea4d506128d5958);
    e, v := Zero(c, e, v, 0xcacb8bb8eee5d766f99fca73955b2, 0x1a4be8794fecd04fe0298ded14f9e);
    e, v := Zero(c, e, v, 0x85962565b5b70a66c6e9c7ccdeab, 0xb0e593c6ba8812a579b6fefd65439);
    e, v := Zero(c, e, v, 0xaedd80ab27e8de3ca5f2fb22d5403, 0x4cc25864d9950e4df840fda38f6);
  }

  lemma {:induction false} PowersQ2Over1919519569386763(c: Base)
    requires Named(c) && c.n == 0xe87c2a477b815a1793787395b23e1 && c.a == 2 && c.pw(1) == 2
    ensures c.pw(0x2217588b6b4f717a0) == 0xaedd80ab27e8de3ca5f2fb22d5403
  {
    var e := 1;
    e := PowersQ2Over1919519569386763Part0(c, e);
    e := PowersQ2Over1919519569386763Part1(c, e);
  }

  lemma {:induction false} PowersQ2FullPart0(c: Base, e0: nat) returns (e: nat)
    requires Named(c) && c.n == 0xe87c2a477b815a1793787395b23e1 && c.a == 2 && c.pw(e0) == 2
    ensures e == 0x10000000000 * e0 + 0xd0f8548ef7 && c.pw(e) == 0x6ff3aae136254c545d4fd0c877a41
  {
    var v := 2;
    e := e0;
    e, v := One(c, e, v, 8, 0);
    e, v := One(c, e, v, 128, 0);
    e, v := Zero(c, e, v, 0x4000, 0);
    e, v := One(c, e, v, 0x20000000, 0);
    e, v := Zero(c, e, v, 0x400000000000000, 0);
    e, v := Zero(c, e, v, 0x1783d5b8847ea5e86c878c6a4dc1f, 1);
    e, v := Zero(c, e, v, 0x43d23144337fac8e78ce6b5d7963e, 0x260e22dc1f841ff3c9c7e3d185e3);
    e, v := Zero(c, e, v, 0x65c23d8b75c65f0476c155d11c95b, 0x13c8f04ce2a338c05dae4d16802c9);
    e, v := One(c, e, v, 0xda8a8b727f97db6e192906cfc9882, 0x591464bd8278decfb1f791faffa30);
    e, v := One(c, e, v, 0xb4c116eb467a32aa5604f28ce468, 0x19ade0a87c25a4eff450e4eb7053a0);
    e, v := One(c, e, v, 0x4e465d1398f8ac98fb97a7db9c86c, 0x119118554dc032bd1b09aef20e94);
    e, v := One(c, e, v, 0xa361e14a1dbcdb1bdeae2bf85a618, 0x34b557ce4a7b680ed261d9c45d608);
    e, v := One(c, e, v, 0x580df7aa761ad950fbd2e062a0997, 0xe5a388454eed047da56681506f809);
    e, v := Zero(c, e, v, 0x94ee73f753aa879966948b034f00c, 0x2159da7c06d246d24d7013b31c7a5);
    e, v := Zero(c, e, v, 0x29d6007e421d38f42431d03a1c6d, 0x5f680f7c3c2e2e2894b66023a0883);
    e, v := Zero(c, e, v, 0x8b9fb9e1de26fa8c66ec89a4d9dab, 0x78746ef05307b6a8c123bac07e);
    e, v := Zero(c, e, v, 0xdfe62852199e6d7aee6e5bf7bb1ac, 0x53daabdbc6a7de996aa2ea27e302d);
    e, v := One(c, e, v, 0xe777cda8c9ea5a398319046c3983c, 0x1af42a66f802c4ac58b38acb105b64);
    e, v := Zero(c, e, v, 0x32155c7583c4648a4dc37fac6d68f, 0xe674949ee2f392931609e4e53c7a1);
    e, v := One(c, e, v, 0x376c7bac166388049830275e25b0a, 0x15941f6f49a3a421cb7b0d11f03b8);
    e, v := Zero(c, e, v, 0x5597b8b2fc2f25a1d369e4dcf89a4, 0xd367e61da6bd24d896784352eac0);
    e, v := One(c, e, v, 0x1b5c247859c8fb3aa7079b467e402, 0x3f063911f35d72572d319e17d01de);
    e, v := Zero(c, e, v, 0x2f88732a7b070e053bddc2d908e49, 0x33847cbd19f62651ba74ec29591b);
    e, v := Zero(c, e, v, 0xcfb7aab423cd4017f2e338e00b385, 0x9b7ea4ace11d444c05820d4c86cc);
    e, v := One(c, e, v, 0x1ed4b0ae4ded911562df02473e9c7, 0x1732d4b7ffd442e5a9f87c111249cb);
    e, v := Zero(c, e, v, 0x22e89b563807348ab439fe0fe1f7b, 0x416aed8b83e7b65d4258b9bb1ff6);
    e, v := Zero(c, e, v, 0x82d8cc0fe0415379eed770e1eec2, 0x53ddea703a2f96d8598078688137);
    e, v := Zero(c, e, v, 0x1b7acad60cc98ac86ed0898f859f5, 0x49a49dbcd7eb8bfc4fe41b0b2ef);
    e, v := One(c, e, v, 0xde5fe09867b56afd1f390bd45d469, 0x67f054352c7272e7cde3dd08a5a9);
    e, v := One(c, e, v, 0xdf966e753e182880ef930bce04681, 0x1a9684d5ab7751341c3c64317433c1);
    e, v := One(c, e, v, 0x8d9f235dd765a4c762be121a67129, 0x1ae0fbcb6d747e7c95e1c02d51a3f9);
    e, v := Zero(c, e, v, 0x2115c04fbd6a3d6e3c12c566d18e, 0x56455853f159a58c7f31b299c6763);
    e, v := One(c, e, v, 0xe01e3e4e379f68cc965a481654d52, 0x96aa987d61ad86d2e774ba4ef6);
    e, v := One(c, e, v, 0xc0d67e4e65029ec40230326fe4389, 0x1b01ad066b6faff5899d83370558df);
    e, v := One(c, e, v, 0x5b2aadd581ea00b4120643522a923, 0x13fe76b80b54ba7ba28c2e0fe5a55f);
    e, v := One(c, e, v, 0xe3ad2ebe8d7e2b7dc77a737682979, 0x4780112b5a93f8af6ca01976d2f39);
    e, v := Zero(c, e, v, 0x7eb47565b60472aa29b86ea1e37b9, 0xdef7a9205e2739d01965d630f3278);
    e, v := One(c, e, v, 0x68b661c1e35b4103c5a6e9f430c94, 0x8a1be6dc8e5a05a47fd796bcb948e);
    e, v := One(c, e, v, 0x7c25ff24c5f58f4a4a868c6448ebb, 0x5e5375c285d5b75d742e816854905);
    e, v := One(c, e, v, 0x6ff3aae136254c545d4fd0c877a41, 0x84978fca2795c874f73420186bd11);
  }

  lemma {:induction false} PowersQ2FullPart1(c: Base, e0: nat) returns (e: nat)
    requires Named(c) && c.n == 0xe87c2a477b815a1793787395b23e1 && c.a == 2 && c.pw(e0) == 0x6ff3aae136254c545d4fd0c877a41
    ensures e == 0x10000000000 * e0 + 0x2b42f26f0 && c.pw(e) == 0x26fcbab0549057ba4d7e795f1136d
  {
    var v := 0x6ff3aae136254c545d4fd0c877a41;
    e := e0;
    e, v := Zero(c, e, v, 0x3565832936bd81385c75a5a0372e3, 0x35e8e5f584c2c69f123050a02055e);
    e, v := Zero(c, e, v, 0x66fdc50a7c3042185e0545201302b, 0xc4393a54a6b2197df7c80baba8de);
    e, v := Zero(c, e, v, 0x3820cf908b1e082ce9669bb0d9269, 0x2da0158465d2d961549a39af92ed0);
    e, v := Zero(c, e, v, 0xc6cae75e5485ef50ecae0eb2a567c, 0xd8d04eedf0acec908b922d228b35);
    e, v := Zero(c, e, v, 0x4d5440b90ddd85011d7d6a9c81c4, 0xa9fba42514ff4d360c7c8eb18d3cc);
    e, v := Zero(c, e, v, 0x5f9aeb92469b4491c7f9ffe28adc7, 0x19b89ffc92b2946defd6913d969);
    e, v := One(c, e, v, 0x12675193b8e3aa67ca606079b5b9, 0x4ea1b704ff00ab39a6c8c67cc40c9);
    e, v := Zero(c, e, v, 0xb4179e764793a26a2fef701ded94b, 0x174f311dce817c956252f95326);
    e, v := One(c, e, v, 0x796c0be82fc03c2e6d426e67d3686, 0x1170370de0c87a81b93d60dc8beeec);
    e, v := Zero(c, e, v, 0x3a68ee1df8512bebdd50b9b4c8037, 0x3f6a8be3f62a101580e54b74aeb8d);
    e, v := One(c, e, v, 0x8360361021940b1a18fed6e934acc, 0x1d5997cc96d603f6a5dffe2dca796);
    e, v := One(c, e, v, 0x9ccc56d507a8c867340cad18a3ed3, 0x947ab3e2bc6ce251f3bce4e508fed);
    e, v := Zero(c, e, v, 0xb9300a73b6bc293f15f7727c94fab, 0x69c06c6cb57cb96dbce4d400f19fe);
    e, v := One(c, e, v, 0xa39811064403f61ef26ec44405609, 0x127067331c1ea30971936f75a94f89);
    e, v := Zero(c, e, v, 0x9fe38170fcfcf1a4bc61787c310b3, 0x731df9e7d2cf083b223eff9c9af5e);
    e, v := Zero(c, e, v, 0x9995582f14db5215f2b327aa511dd, 0x6df622dbccc907e9ebea74069b4cc);
    e, v := Zero(c, e, v, 0x8c4534aa8fdf0ca37a4e67ae62960, 0x6575acfe7940a1add556e048c3c89);
    e, v := Zero(c, e, v, 0x27ca24f028e8a733934a3b83b4c47, 0x54a1e56cdeee98825fd627858eed9);
    e, v := One(c, e, v, 0xa753e33b0ec8b866b117f114cc46a, 0xd9eb372febf893ab7b968dcf11f8);
    e, v := Zero(c, e, v, 0x823298bae76c483b48f033ef23fa7, 0x786e80986de7100157c7a246aa3dd);
    e, v := One(c, e, v, 0xc4fb20d734cef264a458b1d6b2739, 0x91d3ff683d8fe6ef62ade31e24bc9);
    e, v := One(c, e, v, 0x91339d4fcb88c53d7d41a52442c34, 0x14dcc41558eb17664a1b513dbb0eee);
    e, v := One(c, e, v, 0x4957bcad115692dd2ca4cb7cc3da4, 0xb5600e0f19b32e08af0d67b4906fc);
    e, v := One(c, e, v, 0x78dd6af4c45be8f58894fe4963307, 0x2e4678e7a4af86952c22cc30c3239);
    e, v := Zero(c, e, v, 0x557e7f90af8cc4b374e913ff91cb3, 0x3ed5e77e63e7aaf7bfe840fb39d3e);
    e, v := Zero(c, e, v, 0x61e460c6a0f5863cab6a74b60b6b3, 0x1f708cb350d253be4368d061efd36);
    e, v := One(c, e, v, 0xe438e2afa6634a4072d7558321a2f, 0x5270449572f705d9fa7c556020c83);
    e, v := Zero(c, e, v, 0xeb7c1a89301c92f2ddb79db853c5, 0xe0099d89432ab17d4b6d4171bdc5c);
    e, v := Zero(c, e, v, 0x39a79b4311c9c10fa3ff341c0fa4c, 0xee85f36d5937ea4688839fca4ed);
    e, v := One(c, e, v, 0x1f564027b99a255ec4bea158cd16c, 0x1c9890b11c30a4405a206a03f3234);
    e, v := One(c, e, v, 0x81cccac7265355bc70a81cca07aec, 0x872a803567d2e47dc1e5901816b4);
    e, v := Zero(c, e, v, 0x5b507f5d9ebfc23d302a34cf4fb, 0x4878258b7379ce421f401d4c74735);
    e, v := One(c, e, v, 0x84b47125c5c2a2433f622103febc6, 0x47bb6f8b0b4cd10fbb6c57dec);
    e, v := One(c, e, v, 0x76aba3f969af224dfda556c7bb189, 0x977fa44ab46b57bb20de41883409f);
    e, v := One(c, e, v, 0xb73ecd5214b67c68dfcaac7603980, 0x79262e54268732d2f36fba255a162);
    e, v := One(c, e, v, 0x601a1fdc61ee5fc6950f2dd991fe0, 0x120de710c1d5f88ce1eee8b1336420);
    e, v := Zero(c, e, v, 0x4728c0a95a2f1b11291c432d0a8c5, 0x27b9c007ef9c84fc233bd5c8ce29b);
    e, v := Zero(c, e, v, 0x399ec04256cabe6a84dc2870290b1, 0x15c7cc1dc5a3ea88f41f305ea73e8);
    e, v := Zero(c, e, v, 0x4363b1db3b7e2b991cd350c32998a, 0xe47e447cd180ea94846fe29dbbb7);
    e, v := Zero(c, e, v, 0x26fcbab0549057ba4d7e795f1136d, 0x1388acaea6a25f345644b842329d7);
  }

  lemma {:induction false} PowersQ2FullPart2(c: Base, e0: nat) returns (e: nat)
    requires Named(c) && c.n == 0xe87c2a477b815a1793787395b23e1 && c.a == 2 && c.pw(e0) == 0x26fcbab0549057ba4d7e795f1136d
    ensures e == 0x800000000 * e0 + 0x7395b23e0 && c.pw(e) == 1
  {
    var v := 0x26fcbab0549057ba4d7e795f1136d;
    e := e0;
    e, v := One(c, e, v, 0x58202606df3617def1cabcfc828a4, 0xd137e107af1893f90a231729d5ee);
    e, v := One(c, e, v, 0xdbf1ba305b1e1ced973b90bbf6b48, 0x42cf433cff4a62f4db61d0d55c1d8);
    e, v := One(c, e, v, 0x84b158b54a9e4de09d40bedbd0b34, 0x1a028ef82fd9ef4445fef4ae49a6cc);
    e, v := Zero(c, e, v, 0x64ae039d54d1fbfd76c6a979e9326, 0x4bbc49859eb7e32c438c283c49caa);
    e, v := Zero(c, e, v, 0xd859ac1eb75e5812cf841d5384151, 0x2b99ab8eb9a9851c75f97839492b3);
    e, v := One(c, e, v, 0xa1ca38ef63ec361e984029deb04c7, 0x192abae6adb570d0828c9ecbe9e1db);
    e, v := One(c, e, v, 0x359e37ebc0578d1a9d9079961d170, 0xe12f2aacf16914cbd7e1786cd1232);
    e, v := One(c, e, v, 0xc803ffd094a70bbd30b23840e10c7, 0x18bb5ba29851f016b8bdc1f059859);
    e, v := Zero(c, e, v, 0xd7546c9bbe79c90c3fdddb25a6014, 0xac14bad3d04c7d5c1d8f9687d4e3d);
    e, v := Zero(c, e, v, 0x81c45287df43465a857052c20b905, 0xc770c0ca7736073f90a53a73f79eb);
    e, v := One(c, e, v, 0x974304a17238fa2298925c8f365dc, 0x90dd61717efe17968de3515871916);
    e, v := Zero(c, e, v, 0xbba4b577ba095feebc3800b7a7a86, 0x626a5e0c929460830b0b08c3bebca);
    e, v := One(c, e, v, 0x860fd729016a6e3205180d8b3e4a2, 0x12ee6cfd4aa5cdb57619e28cad4c66);
    e, v := Zero(c, e, v, 0xcfb49d9c5c1b9661d431fd873add8, 0x4d4e722a08ce3f1abd84e19c2de2c);
    e, v := One(c, e, v, 0x4723e1db5a74ca1b46f23c6a464d2, 0x17322640f79a5e28f7079718fd1d6e);
    e, v := One(c, e, v, 0xd6eb1d1d1772af35dea6f3ea94efe, 0x2b89a1f1eaef992d8688be1711aca);
    e, v := Zero(c, e, v, 0x915c506193df9ae539a47c0f499d0, 0xc6addc39da26e01af2a9526eff0b4);
    e, v := One(c, e, v, 0x34175534e1f9460769a73e05febd8, 0xb5c5c9c8b072fb42a88889a386b28);
    e, v := One(c, e, v, 0x9095bf6278a55b489c968fb6a8650, 0x1757e4799ad15c49bc6622c94cc30);
    e, v := Zero(c, e, v, 0x20371a2a4651850cda6d5b218c271, 0x59eb401d176388cc10a79266b886f);
    e, v := Zero(c, e, v, 0x742a8690b1509e2852d3539dc99ff, 0x476cb2bc77b47a39693a1aeb1822);
    e, v := One(c, e, v, 0x7e097e341c361892d11784bb51978, 0x7416fb47f672358515ee1709c0fca);
    e, v := Zero(c, e, v, 0x5591710bd8abd44b8633f13de7d97, 0x445416b2416ecc5d7c62e46cadfc9);
    e, v := Zero(c, e, v, 0x435aaa1b5c8b055e34c31de013cf0, 0x1f7e7cf1b793f8067c9d1cb0a3641);
    e, v := Zero(c, e, v, 0xba45e6c2e52db5b6515804b2faa3, 0x138370d6d777777970395ae7a11fd);
    e, v := One(c, e, v, 0x9211efcc703ef840caea6bd2729fe, 0x12a7e5f3e788e39aab7488c99014);
    e, v := One(c, e, v, 0x9d12f8fa228178a3091169a144283, 0xb78d2212aa3e85d0afd70a155fe25);
    e, v := One(c, e, v, 0x212d58621d0f9b0ed38968f4007e1, 0xd43f915e41f089bd3d1bf8210bc51);
    e, v := One(c, e, v, 0xcbf575a5ed4b0585efc9fc232fec9, 0x9781c9284ebf5cf93beb799f9fd9);
    e, v := One(c, e, v, 0x9236b08be3e3a0afc4edc341c1247, 0x165dd9c0e964bdc354d84cf6f52cbb);
    e, v := Zero(c, e, v, 0xd1b2ad899f6e641aa1ede251fa5de, 0x5bf4c5db6ab80bf1fe010a1d6c433);
    e, v := Zero(c, e, v, 0xe87c2a477b815a1793787395b23e0, 0xbd24f5fc1ae3a8386dac49de75d24);
    e, v := Zero(c, e, v, 1, 0xe87c2a477b815a1793787395b23df);
    e, v := Zero(c, e, v, 1, 0);
    e, v := Zero(c, e, v, 1, 0);
  }

  lemma {:induction false} PowersQ2Full(c: Base)
    requires Named(c) && c.n == 0xe87c2a477b815a1793787395b23e1 && c.a == 2 && c.pw(1) == 2
    ensures c.pw(0xe87c2a477b815a1793787395b23e0) == 1
  {
    var e := 1;
    e := PowersQ2FullPart0(c, e);
    e := PowersQ2FullPart1(c, e);
    e := PowersQ2FullPart2(c, e);
  }

  lemma {:induction false} PrimeQ2()
    ensures IsPrime(0xe87c2a477b815a1793787395b23e1)
  {
    var n := 0xe87c2a477b815a1793787395b23e1;
    SievedTwo(n);
    var c := TheBase(n, 2);
    TheBaseNamed(n, 2);
    PowersQ2Over75707(c);
    PowersQ2Over1919519569386763(c);
    PowersQ2Full(c);
    PrimeN75707();
    Factor(c, 2, 0x127bb, 0xc9405a7c6ddff89d0bef47da0, 0xb52295a2da9f8731db89340ad8f16, 0x1bb0fee20f00433b82723f09a47f3, 0x1593384f4bdb9ad4dd1a3562561ae);
    PrimeN1919519569386763();
    Factor(c, 0x24f76, 0x6d1cafa129d0b, 0x2217588b6b4f717a0, 0xaedd80ab27e8de3ca5f2fb22d5403, 0xe5e342b4c0a3d507894bab5f20e8b, 0xace963d3b072b0ebd18629ad3bbb5);
    SievedPrime(n, 0xfc1784ae03d20c812);
  }

  lemma {:induction false} PowersQ1Over3Part0(c: Base, e0: nat) returns (e: nat)
    requires Named(c) && c.n == 0xabaf8c6b094fd0f32c2ccabab864dbecd99144679c1adf804898fb2042b && c.a == 2 && c.pw(e0) == 2
    ensures e == 0x10000000000 * e0 + 0xc9d4211d6e && c.pw(e) == 0x12e8c89c74c4abd5e547899e25632b6c37c1a359cab883847072b50ed14
  {
    var v := 2;
    e := e0;
    e, v := One(c, e, v, 8, 0);
    e, v := One(c, e, v, 128, 0);
    e, v := Zero(c, e, v, 0x4000, 0);
    e, v := Zero(c, e, v, 0x10000000, 0);
    e, v := One(c, e, v, 0x200000000000000, 0);
    e, v := Zero(c, e, v, 0x40000000000000000000000000000, 0);
    e, v := Zero(c, e, v, 0x1000000000000000000000000000000000000000000000000000000000, 0);
    e, v := One(c, e, v, 0x5000000000000000000000000000000000000000000000000000, 0x2fb71000000000000000000000000000000000000000000000000000);
    e, v := One(c, e, v, 0x7d000000000000000000000000000000000000000, 0x4a8e09000000000000000000000000000000000000000);
    e, v := One(c, e, v, 0x1312d000000000000000, 0xb604c3f9000000000000000);
    e, v := Zero(c, e, v, 0x16bcc41e9000000000000000000000000000000, 0);
    e, v := One(c, e, v, 0x5b3ffd91a3a2fbfe3eaa8e7fdda11b239262c56b516812830f134264663, 0x605c1f4cfad1bc6d57);
    e, v := Zero(c, e, v, 0x96baed600841e170e5e2a6bcb20fe7867a51d63b2c4ca6671b59d014d73, 0x307fb2b53808d00ed12e865cd5bb707c97fd9f0d59f465b4a984d9a1d82);
    e, v := One(c, e, v, 0x34d5b7e2cd89102883878b5bdcb05fc2a6336a8ab56cfaa86c3c7367d71, 0x108aa329f2d817b155ccb564f7c1ced6047782ac576f564672e91c751c23);
    e, v := Zero(c, e, v, 0x748b1c126d4f54ffcb8bdd548019831579d37f17e9d7ef821b655fea641, 0x10426cfb8cda7b39704e3d886d266c37beb59c3808bc2af87f00143c0e0);
    e, v := Zero(c, e, v, 0x3b82ef7d823d76cf6f0cc17e51f354304c4e80438d6d6041c217043b31b, 0x4f1c9d4f3f0ba491570dd59c581cfe194326c8da3d234f89070323a0b32);
    e, v := Zero(c, e, v, 0x8aaeba5615606b027a051142d5bf7d09d7313e707e442c28988b92e0d07, 0x14a0e3a5c5381dcf7dd7133c3f4c3da6e499fb9a71b4ec8b6836dbc6476);
    e, v := Zero(c, e, v, 0x65d1ce9fbe1750eb28dfc745ea2f3740889d46696d372f342fba231c702, 0x700606dd497934f8d13cdf9bdbb00b5fa2ac5997176d967b25ca0fbab0d);
    e, v := One(c, e, v, 0x3a7e769c36eb161ca6238fc82ca0427d24bcfb2cd4eb13ff91f1f65d6e4, 0x78c50f02711c7181f1cfe7b17145057448984ea2933413cabe4b3475d6c);
    e, v := Zero(c, e, v, 0x1b385bccd33d30ae24be285d4702eb4a1ff27e7aee440f36f472533bf7d, 0x13eddb9a8955a5cdce5a59a0c5210201bde04576dd70581550bdbecea39);
    e, v := Zero(c, e, v, 0x177244f5d48996e16ea707ff04b508dad695f96a36a53e3c7f40daeb5f, 0x450ced7bbfab3ac7a5bd6b0c55a670cde24e1745c4b93bad8176e89ffe);
    e, v := Zero(c, e, v, 0x25ff1edadec3f4b865bce8d36b38c1dee7f843ede8057deabcfe016f85b, 0x333b417dc57fbabce277168a1ec01fbe3c0d2783395df48f291e8db2);
    e, v := Zero(c, e, v, 0x3b68e88200bebd9af19b60b48568a7102982ee055e7a000ca49f8b29e6f, 0x868c108f78d3e935f12efc60d8e4f6089882ff47004c9354291e892ebe);
    e, v := One(c, e, v, 0x247df8a18108bfd994381698a97eb483f6f6ffa5c9fb055cb021394dacc, 0x291db8d26383303bcf068d901f4e402eb9e73266b39f945975428a45f62);
    e, v := Zero(c, e, v, 0xa8ac8f15ca8effc5a10c78bfadc58d555695832599282ee813c734e18f2, 0x7c1a698e8fb8ff4528b96d32db529b67db39c1a3b01a93fe6576b7c7da);
    e, v := Zero(c, e, v, 0x4dd6cd2da6532bf608a009f444f10fdcba22186f7d12f234bd362ca774b, 0xa5b718097c26f3e4d4c3189ae6ac031e43f91e2ae5cf406279a4176eeeb);
    e, v := Zero(c, e, v, 0x1b687f4684ca1b0982dab69483fc81963abb6bd0af20bd4309e9d2ddfcc, 0x234a6f69903881cdfcdcafbb5fd13eb67ad6b750bbc03e9941d950bf907);
    e, v := One(c, e, v, 0x936e1b1b50802e48e18462720a601f08b74ceb88c5621634f2440639d0e, 0x8c0400cb4d21175c1104de7409e078af0ff46c1dea50f841bd6ffe4536);
    e, v := One(c, e, v, 0x90dc7761f3997f710d3a9f86fb963623088d284f51e3589eda128262c0, 0xfd33db885009c97cf0784c83c10b58857951b28a9cbed42a059f60d9858);
    e, v := One(c, e, v, 0x64dbb09ce14043756164cc887408a44c56aa81e676a1914a83c04ec1f31, 0xf4749f7c8b77602b69b8c785864a9da83ce463f6350218015ed33efed);
    e, v := Zero(c, e, v, 0x39aa3080ac86745e43e50a43527a372c43cd698642eabf987a931f1080c, 0x3b3ffbe9e78ee8bbe9323d2aee510e057268ca6af7ea59e7229707e6a7f);
    e, v := One(c, e, v, 0x2ccb507a8dc96fce17056dd17b74d9ff1b2ebc5170817be873489dbf852, 0x26bc79da7bba22cc1f3780cb1ff4f7b274eb19270b70c6dbbb6fccced6a);
    e, v := Zero(c, e, v, 0x8349b65ddc0ee2c88055ffdd8de2ff71785bd74038b0bfbad076e3e4496, 0xbafea3fd5a50a2914f6feb715b941e0b5779aed37bf1d879e46a67a40a);
    e, v := One(c, e, v, 0x835b10aaaf93a9532c4707038ed696aa569adaf151fb04492c6de186924, 0xc8caa34a7ae96e5989f77646a756435ad4dc4b37565679ceb34c600edec);
    e, v := One(c, e, v, 0xa5ce599a232773725382e2bd63c6c990a4e4422855d464889d24d9a4410, 0xc8ffbae432ac876fdad215e33d20b22d45370180c4281f518b158192a30);
    e, v := Zero(c, e, v, 0xaad7af75c27c8ed7e253562511fcb91d801cedf18df206af35fdefe3c6a, 0xa020b31f0c14a4589d1126bf6aa153d68478efd56465479af11e4bf54c2);
    e, v := One(c, e, v, 0x21b244b5d74acadbcf1b3a2430f2ae80ec443a671f9ba23bcaf889b6a1b, 0x15401c3d1df27842ba3f7cb091348c972df78c19950d1ff13c6fa773d187);
    e, v := One(c, e, v, 0x5aa7669a0e249af2fae4c087823ab062280518bd10d5b65924cd9b32fed, 0xd3a1d877f641b3bec5af4e909ebf614f491a9006c939c83993e07a0dcf);
    e, v := One(c, e, v, 0x15e345da9bd82c083a98c31c0a1a8d0223e8daa29adc358ced33338d17f, 0x5fbc0db2d507843cc68519e26c8c42064eb695edd77ee86c15b87996b79);
    e, v := Zero(c, e, v, 0x12e8c89c74c4abd5e547899e25632b6c37c1a359cab883847072b50ed14, 0x2ca58e3e6e7c0579e68e97186f08ad5f490d0f421e2211232f60059847);
  }

  lemma {:induction false} PowersQ1Over3Part1(c: Base, e0: nat) returns (e: nat)
    requires Named(c) && c.n == 0xabaf8c6b094fd0f32c2ccabab864dbecd99144679c1adf804898fb2042b && c.a == 2 && c.pw(e0) == 0x12e8c89c74c4abd5e547899e25632b6c37c1a359cab883847072b50ed14
    ensures e == 0x10000000000 * e0 + 0x2a2d332077 && c.pw(e) == 0xa106592ff3613018de224f92efaee6b47b6781ef9be0023423dd863300c
  {
    var v := 0x12e8c89c74c4abd5e547899e25632b6c37c1a359cab883847072b50ed14;
    e := e0;
    e, v := Zero(c, e, v, 0xaac46de1b32344c2ddc91ba5e47109481a642745f5b1978fb16b498d5c, 0x21528d5e1acd1b7ee45eba28eb8e0eab32e7ba206b65c7ea84316ad69c);
    e, v := Zero(c, e, v, 0x779fa06e18a963f3d0cbd679973a017af6fd73d9f47d50a580b99f35b36, 0xa9da9155c8a72823ecaa89125f91a02db323219098c35b961bbd16a8e);
    e, v := One(c, e, v, 0x538a051d617d08d5b631e4b25015a42ac60e4a83ef7cf0682062297b6d9, 0xa6b28f8624c74282b3e6360bce600922fef308ed73f50c277769595354d);
    e, v := Zero(c, e, v, 0xa8a0110566a33cf9c6d3036f5c5765e7d9df3fd98d1c2b6b7ee01656871, 0x28a60bdd0cc007d868b03ff17516146e5af7c0d3296e96ad236818e5280);
    e, v := One(c, e, v, 0x8737cc66292ec808de0644d9546c90db9bb77cc12333f57ebad1129c7e9, 0x14b3d1a0907c5935b85fe726f08add0e9838492174383bb6632ec3a72a0b);
    e, v := Zero(c, e, v, 0x9e83162928b8a912ea98d8c64f3237804858c4485820f7914521e61d55f, 0x6a7f0e2dad063a3420d8831aede7a51cdc29d0d7e3bb8591118647a2316);
    e, v := One(c, e, v, 0x47f9cbe7ec339d4877eb8e57bd9947e7a85b4ab36398b3cb4a6e986de42, 0x124b2cbe13e865d14f76cf9156c5ceb7cb0fd68e7dd04e2e61755fe35cc0);
    e, v := Zero(c, e, v, 0x78b2ed7d23aaac5a47c6a67d171012ce6efc82c00d3497fc8294d559301, 0x1e2ca4592b6b3ea74401cbe22a13c7cb439877f08dea3f959661439b189);
    e, v := Zero(c, e, v, 0x45d4ec2a6d3c1a2755ad483290b3cbde816a19853d31fc129153cdf87d7, 0x54daa43a91e50d26dc7f83c8ac9c60c6e2020d76ac31b6ab261f446337e);
    e, v := Zero(c, e, v, 0x76cec45ed152c9b0721949efe57ebe4d06da93637c3def26eaae3e7e153, 0x1c6749ade00f05ea96b40ba64470ce18cbdf5b66b8355d601950369aaba);
    e, v := One(c, e, v, 0x940d6a0fbd769bf80710f13c90fe138e6e88a5288cd337898e5967bf246, 0xa46e7254f7fa361cadc19bbd5eb0db95a824fd3b39b48025fba06f42ca4);
    e, v := Zero(c, e, v, 0x852c89f0f97469c10e8afd4db29e3c375d5a218cafe7a831dec7563ccf5, 0x7fac1bed5c10b21fa7ba94ab545e12b979bec0a5399425b8c761b1f380d);
    e, v := One(c, e, v, 0x60fbcaf72b253d141b4f531a815bda28bc8af5de9096f6a437d90a242a2, 0xce9a1d2acc7a7d72301d8b4ccdc9e56bf93a88dcdca16baa968b9decef0);
    e, v := One(c, e, v, 0x3e4affc02dce6fe06bcd2336594a0e6edec9e00f53fe40d5c0a7d5cf734, 0x6d91f25c6328a86abd4a83e94ec94b5d89d0e596a774221e46fbd45237c);
    e, v := Zero(c, e, v, 0x64f777cacd13440814a525967114d86eece493f7613f0d37864c240608f, 0x169a1229a4f00121fb77c74046f6c66bcac2cf2ae2d281395628a66a083);
    e, v := One(c, e, v, 0x3142eca5bebfef053291a7e5c91a4b1f8e65c32ce868c8a3ba79e57feb3, 0x76c146e4ca095070af5ba4332560b3170e4fdc9537a7259a816bfdef0ad);
    e, v := Zero(c, e, v, 0xaa4fe0335c1d3313920f00325dd26a01cfbe616417f5e45af3887dfa94e, 0xe226cfd21fa07c036223233d36726c8949093f12807b7a55ef7119c311);
    e, v := Zero(c, e, v, 0x906c3026e6290413d97de1ba9c268e8588d2707ccc7a6ad64c00c232c5a, 0xa8f304551c9f4e21f7202600096733ff3db6d2935c2f8b1c38f41882f3e);
    e, v := One(c, e, v, 0x79ff99ce71e2f98dd5f3bfa66942ccf5220c55a882f3decf94916f123e5, 0xf2fa41076820d6d73ca6e7d70cd805ff91e62d394c25d5d2e9730fc31a9);
    e, v := One(c, e, v, 0x70ffaa19774cce2df6bc8893992f796d9b39624b3aa3c935170789a558a, 0xad61d36acce5a28f05a1bd1ea502fe414cf20291b3abe8435991187a478);
    e, v := Zero(c, e, v, 0x51577e95dc514cdba12520dc7f6ca7e964503c1bd76ec91a55ef8df4f75, 0x4a5f5e953d2146ef0f8209d564a7d4223616f802631ce913ce2e1521a4d);
    e, v := Zero(c, e, v, 0x8ab711ce5920922d2d054056e59723597855954acc7d653d16ec9088dd2, 0x2689d11485fb7fd5a4393f7dda1f5096dd0b55ce6f2a37b2fe714c7e275);
    e, v := One(c, e, v, 0x8bcb1183ffa11a641b7e3784b251b9ba1d6be3752cfcbbd28d7d5f962d1, 0xe0270269092447ab56f735f52464f308100b324f4bea39b2b330226caa5);
    e, v := One(c, e, v, 0xa445a6bc4b831f705d5d944191a52ab68642a0d190edeaaa39c6b939b00, 0xe3a67596af50f83e9e2112b7fa28ff9b5c0df2876375a36aec8c02e1bc6);
    e, v := Zero(c, e, v, 0x84a9cfdfc5eab0f3accdefa21b085b4aec4e7bc0aca918181def9ce8559, 0x9d2db553abaa9177fd6782f04ed769b038e7c72b707d5f4a5c0bec33975);
    e, v := Zero(c, e, v, 0xa7fbff9cf4050836b0591b8f225dbf6bc3c11af433be5d400c1a3a5b7f1, 0x6682a3e5dc729034dfe1eb0b6cb053d4e5af551175022c6b956ba6e2300);
    e, v := One(c, e, v, 0x354efb34b29df45edea68ac30d174a754a3502833b595ca80a2513ae370, 0x148b9c0dad1bc042e31061f383fdeccf8b424867fff6938f18ae994a77f6);
    e, v := Zero(c, e, v, 0x40b158dc183ff0614ff26356925956d96922427121815949a53ca9b98e5, 0x108d654571cdb09b8d339ba96eccdb10d1f168f5f1a50cf5832a4bef3d1);
    e, v := Zero(c, e, v, 0x13dbc3834d939a7584d1f94395a10bd10a512f954a7cda356f5fb2d57de, 0x186077ba03b5895cbfa2860e15b69dd222da2731e120a4dd2d365cbaa71);
    e, v := Zero(c, e, v, 0x93e6b1984f9d8a253b1bbf13be70ee86a1546da6a1cf042b75b0781abc4, 0x24c06a86a13ae835a9fffa5c2a62eeae84e11d536ccb5008f4c4b8ca40);
    e, v := Zero(c, e, v, 0x78ca3dab9b842e2590e45e04d0f1d80440b523acf939576cef388c59c97, 0x7f695cb8807955dd8dd48cd309860979dee909b829aec89b1c45792faeb);
    e, v := Zero(c, e, v, 0x4af34fa655fb39a42cff8190d6b1b79871dee7509dc32003be65b07657c, 0x54fb6eed233613302bd25466143088d99fddfc4bc26a377162a38645f3f);
    e, v := Zero(c, e, v, 0xf3c5eafd8c10716c07dc17111638439517a401f2adf071e6d52ce9459e, 0x20b855d8069ab3da39a0828761d510684ebbb58a8d379d9e6afaba93856);
    e, v := One(c, e, v, 0x835959ec53241750df539ce0d3f3b32378fe7ceada95a2ff6e9692c4949, 0x2b441cf6f7cbed4273f9663614d76c9e110b03a6dd9585c589769e3abd);
    e, v := One(c, e, v, 0x691885f53bf3fb4e7f26dac31af10693635b2a526ef653bd93a6fca9c59, 0xc8fa7c348cee98b7791cf565f9cf1ab9ae3d3c460f431eb5b27dba1025b);
    e, v := One(c, e, v, 0x35872ed4189c4de935eed4418cf37c34bf1de5db2e0ca34f31e0a35fed2, 0x80aab277b9b548f3c91c2cb19bcfc550b280516eb0e6304d654ce08b530);
    e, v := Zero(c, e, v, 0x88f972b0d346fa0a84ed9d35dd1c227fcdb9cf092389567a58090fc7fe5, 0x10b05e6639d20810daf26773db0d302f21cfba1e211fc4b577abe38029d);
    e, v := One(c, e, v, 0x6a73dddf21403b04bb7b82eda0702db510c1b74995fbd2edf7a51cac0c5, 0xda8fde7c96db04c61e6b8a45ffbef9863ae7e12c119532a4309ff70d747);
    e, v := One(c, e, v, 0x91d8bf845adc9d65a925b44b2270f845966609cf23309ba67fb8f76c218, 0x8402add671cbdaa22844dd8725d2d89f90deeb52505ad217512e750784e);
    e, v := One(c, e, v, 0xa106592ff3613018de224f92efaee6b47b6781ef9be0023423dd863300c, 0xf7cafa682719dd6f884613bc741a65ba26f3c2649dbd945f8d6fb48bf5c);
  }

  lemma {:induction false} PowersQ1Over3Part2(c: Base, e0: nat) returns (e: nat)
    requires Named(c) && c.n == 0xabaf8c6b094fd0f32c2ccabab864dbecd99144679c1adf804898fb2042b && c.a == 2 && c.pw(e0) == 0xa106592ff3613018de224f92efaee6b47b6781ef9be0023423dd863300c
    ensures e == 0x10000000000 * e0 + 0x71f1ebb79f && c.pw(e) == 0x7ba1af721f6279d3e34487dee2cecc1ca8f60146c59f170f5344bb270f8
  {
    var v := 0xa106592ff3613018de224f92efaee6b47b6781ef9be0023423dd863300c;
    e := e0;
    e, v := Zero(c, e, v, 0x850e810466294b7a82b4982329c3da69a613c3ab48de662281b6ae6fddc, 0x97069ea6c4bf2d7c05d1fbc1e02cec5bcdd6006b24670e02a0d3cba2a1c);
    e, v := One(c, e, v, 0x92c7330d17a44a950642eb16f875a6835cbc9127aae11b10adc4c55d2c0, 0xce3cf6f4bf920f4cecfe465706f370db250b66794c3265ccfa2a2457620);
    e, v := One(c, e, v, 0x250cbbdf7b47c9eb7d0bbc9e26b539f66cdb93c423b53c466754b30b202, 0xfaf7d22f38fd398f3fe971fd12f0cbdd721ae110c63ac4637568f6914fa);
    e, v := One(c, e, v, 0x51ce6561ea8f4d7c0e8b19594228b08496160d945af6798be022566a7cc, 0xffd9b50c5e65467e10235f1b3c4d5e15c7e5b3fa2533b0e7bd8dd4eeb4);
    e, v := Zero(c, e, v, 0x7dd6e6f02ddf4861c12a04c46e9f3ee186ab4ddd464fc9df022d0629a97, 0x26face3136aae43978968b56fc42152311ce4c017213cfd7654b991566b);
    e, v := Zero(c, e, v, 0x10e6a76b29ef3ea8adfad3db6987852ff1489d3e4000368008f4a9a6117, 0x5c3c5ced1543cadcb3ffab0ea9c7620fc59ba1490448780ad1f8e5d4cee);
    e, v := Zero(c, e, v, 0x2b48fa0e8e8a3611109e94cdb69817170b5d6afde57a01ebdb21c167b1f, 0x1a9ec0cfa61113692b1e63bef8ccad6d2a995dd10d95ce70f737cfebd6);
    e, v := One(c, e, v, 0x9f1c78956ba543475ac7ef2899e40e2a4d56e1fd06cbc7a187ae77c2cf0, 0x15d36d73eb9e26d637d8edb612d19c8b088954d5b06e3a1edcc1c8b68b6);
    e, v := One(c, e, v, 0x2a3fb35327ad62a67e0a935eaa8b9a2c0b1544eab05acc8e4c337a54a9c, 0x126ea53c6a65b40e71afc85ec7110f32ba19c0f0edcaedfcde436b7a402c);
    e, v := One(c, e, v, 0x27646c97d58cb02e07bffd9c265c65e6582f83cfb41938fb26a7b5a3b81, 0x14cb1b268ba4da07189e6a9463ce621d4aa5d5fc24f3166884844cb9d5d);
    e, v := One(c, e, v, 0x46ca1064237acba14b0f1b4019cbf0f6c745975aeba31ba4ef1a830ce, 0x12139fa36544687d49df3caf823af31b8d44dab2f88a81fbcfc9dd3999c);
    e, v := One(c, e, v, 0x3f7516f978f5941a405caaa9b28e1aecf09323bbcb9295260b4eb51f9e5, 0x3a6025acf3c2bfd5537a10497a06ede2d7f6c62b41305ac4bf85469);
    e, v := Zero(c, e, v, 0x3452804d5abc4eb7bf44a2e2470f70e723c001c6ce1e155351a2dbc86c5, 0x177467ee752fc2d6b82b8edab8311f7f835e8c3191b395e0e595f2a523c);
    e, v := Zero(c, e, v, 0x8d2e80c9bd17ecc4c9571f4f581767a356b937f5018b3791fc1f2185c33, 0xff20e378e8af786f67a7662cbd1bbea4d9f9a1e4f3aba40915b1927532);
    e, v := Zero(c, e, v, 0x9a14b174753d0b1770b1a00aa75001014d8a8ffd67882e9289845b3c1d1, 0x7418ebeffe4c334e8909b247007081bf4912ed30e6464348893e56fed08);
    e, v := One(c, e, v, 0x5830f88ede0bde9a86f5b7af90a0b5199798c4d0a38abb89cbed607299c, 0x1148ff46323bb0b09627aab6f07c7df48877966a764c55bc6fa416c8fdf2);
    e, v := One(c, e, v, 0x616d1edeac6a48fc2af8f5aad2f5544e2b26aae1beff7d142fa696d9182, 0x5a9a9d5c6d3dfe63c0bd6de6d1363bd2caedf721a2168f205f9d41cb0da);
    e, v := One(c, e, v, 0x388f7885a5b445be6ba8151aa2f940e71882c659f484f3ed60d2c664334, 0x6e929a1e71323a50a4833fae9127e220d32e80d3c65be56ef4a9edc4c7c);
    e, v := One(c, e, v, 0x5e31a1d5c8987c4e648b9a144d2915c1812721bf4689165b40776161f9f, 0x25444815ac1a26e676b18d09d11ddab4e13d0cb16a3081fd07138ab8b03);
    e, v := Zero(c, e, v, 0xa365048d132c74134b68eeef58b1b8cd2fba5af862b07f9c28e4966cecf, 0x33adbbacd1e026bba918caf353d64ec3aff635a3547258bbbdfd281ced6);
    e, v := One(c, e, v, 0x677180f95fa9e01faf7517e6090a2224ca7686630f912f609dd1f982772, 0x13701fa91557f9075bad0bc143ca44b4aa4c57acab9a22cf2eae05a815f0);
    e, v := Zero(c, e, v, 0x4a2c7fddf72d7b604c7454d76c9460c76600a592e8eda3814ea327a899e, 0x3e53867970d69abba1f01cbca224bd093051ae957c308a177f6abe39e72);
    e, v := One(c, e, v, 0x9109058272b5c9d9b19a6c11c88de59847ad8dfc9fcc03667d289323be1, 0x40174cb3c5f404611227fb65534a769327cd07147d03dcfe6528ad346f5);
    e, v := One(c, e, v, 0x2eb2b665e69451d0b26e9fe6b0fed9c6a6dd6bb3a035153bde65f3b3b84, 0xf50b16a6a718150dbea01c576c7250e20c6dc76f3796af2506d8a3ffefa);
    e, v := One(c, e, v, 0xa18f20f754f424415389325ca2a957f2ef255b942e40192783a6b336c98, 0x19674df14279fed0e9a58cdfd734309b850a98908514176c972f1dff698);
    e, v := Zero(c, e, v, 0xbb80b2840997bebdc9e70442e634c064d3d48e134559db34fb2b596346, 0x98079e8680d7e0fcb0d35f2025d144e49c9ac336cee3c6d47580b5785ee);
    e, v := One(c, e, v, 0x6695424865fd2dd5aba012494d3f59eabfcd86bfbb58e0666786b049e67, 0x1998dc4c7e18f924502ae7144772a5482dfa68ae9df5d6070732dcba23);
    e, v := One(c, e, v, 0x7471fc25bcddc840c716cee95e967504bc5a000c0875834d2b8aca0497, 0x7a96742b3edab3c67651f232a44611601ed5e7ab450960d3470ef600661);
    e, v := Zero(c, e, v, 0x4858381bb02de34856cd7d6935576f3cae38f59bf7bf11aec7eec589c4f, 0x4efa84c5968e6eb115e118d44d75c6574450e22031e717ffae8747346);
    e, v := One(c, e, v, 0x3486cfcff674ac3068c6a89439aeb79743fcf4c6fc05068e891fd1cb96c, 0x3cf80761a1fd461f7848e79f7e03b88d649ed456d6741c768bbea657d02);
    e, v := One(c, e, v, 0x140a3c7ed17a5ed64cc7cb791bea1cad8e1eab7be0a35c142d0513d6d9e, 0x202400e30c324da5640ac9eddc23752992e67028c228301a4b0db8a4d86);
    e, v := One(c, e, v, 0x7af73ea5429cd1b892ca83762c54b841304980ce118375f1fa9b393ab40, 0x4ada6d966305ddf732e76d9f652ad30db49447492990562b053a92c358);
    e, v := One(c, e, v, 0x601ff27e44302f2ad12b74213599fea0fe3a88a49073bf454de4c8ecea2, 0xb02482e0521fc868e3dcf31555d70458b9b96f8cb9ac3d4ceadd1222f1a);
    e, v := Zero(c, e, v, 0x321d51887fdf50f8e8c3ba45778efe12ff390ab9b83bffb991785ec2971, 0x35d1b222fdb8c9919019a551ce7b9ae031751d91854cc10aa3b325cd6b9);
    e, v := Zero(c, e, v, 0xcb103900333ce28afe62e2f73e5a5d49519de6803c5f54bb1b51095674, 0xea0d66f223432dd2cd8b916676b2c2854a989cb4d20b4e42a0607070c7);
    e, v := One(c, e, v, 0x4d63f058d4c49a92d3ab2c44544f42e84c5d827d9d1c0684815fd747be7, 0x1e059ede411cce23d379f227689863a7a96bbe56f97bc1fa30113c4e2b);
    e, v := One(c, e, v, 0x3505af99b5bc2bf0d87ad974ec1c12b72cd6a93f2d535f4f9bb65a646c9, 0x45c52a235d9dc6632058f89dd510efc583787106f2271c753f6247000cb);
    e, v := One(c, e, v, 0x7c568f355fe182f6175d2db6e9bdf91ba199c0d98c2bc14083707778f68, 0x20c000aed7b044f81825e12bd50a5ad7fbdf5ea4576072a53e2fcb18dae);
    e, v := One(c, e, v, 0x99478b443f6cb9cc5a9dcb1f97385e6305c9d625598015f5f2faa01e1e1, 0xb4189c492d7d3f0452012e720681d17a76cb43035f633b8591e17456d5d);
    e, v := One(c, e, v, 0x7ba1af721f6279d3e34487dee2cecc1ca8f60146c59f170f5344bb270f8, 0x111b16b115bd1b276f88e36466be044e447f431f96fdbaeeb1e50ca6a49e);
  }

  lemma {:induction false} PowersQ1Over3Part3(c: Base, e0: nat) returns (e: nat)
    requires Named(c) && c.n == 0xabaf8c6b094fd0f32c2ccabab864dbecd99144679c1adf804898fb2042b && c.a == 2 && c.pw(e0) == 0x7ba1af721f6279d3e34487dee2cecc1ca8f60146c59f170f5344bb270f8
    ensures e == 0x10000000000 * e0 + 0xcceed8b669 && c.pw(e) == 0x33ffb58099338079720b11a99722fb2ad2a0e42af094e354d2b534fe152
  {
    var v := 0x7ba1af721f6279d3e34487dee2cecc1ca8f60146c59f170f5344bb270f8;
    e := e0;
    e, v := One(c, e, v, 0x1c98f9f6ac947bc31b7c82e63fc744311c589703d6f760b406a8ec84f6f, 0xb20e2114b705110528c9636055556dcedb9d9e3d775008c6512376175b3);
    e, v := One(c, e, v, 0x301646ca3d599a45e797a2ddcedef63c51f2db66f99931642557b68228c, 0x986e62a81ff14ca2695456ee0fb04ef37888ad2853e2d143e998fe1c22);
    e, v := Zero(c, e, v, 0x31f2c2770f30244dd62a79649da90164bb7af33452659fc2690ce781be9, 0xd77f42b53306937d9d8378c2e297e27fe46250776d7c35b58bc246eb75);
    e, v := Zero(c, e, v, 0x60839255a4efbefec85ad40425b704fc5f7ba73bf84dc1b29a468919848, 0xe8808830901ae25c54351d64e57459631dca7ffde02d364fca4081f3db);
    e, v := One(c, e, v, 0x260ba93900ca99f204f14ce242907561b86cd536ac6b13729f871cc9a5b, 0x6c82f513a775dd4e6fcb0294e8c36b51dd995e2c857e54e54bc567efeef);
    e, v := One(c, e, v, 0xa75c367627821191de5227f86877357bd3aedfdb3830c7a5e954fe36bef, 0x10dc9de8496292450dc98fe8fd8e727ff458c63665e58cf28c6491915c9);
    e, v := Zero(c, e, v, 0xa01f1c97b9d253ae1aeee7edeba3ffce0b083b4ce30b936a41dfe8a484c, 0xa324c6949e0707271ad13f5986e584b2e93b12b5d20587c680805feaeff);
    e, v := Zero(c, e, v, 0x92a3755cf56387e10ad3921a0a5a9d08ceea367bc306d5f7446a886467f, 0x9556149baf52bbc5d06b0782809194a01827edffd9569d9ac91d8c1f2b3);
    e, v := One(c, e, v, 0x50557407122c01f4a45e4cd1efd9082c0f84a72a73ffaeed337d8348567, 0xfa7da7f13b8c8faa2dda0d9ee5dd1443493e8c92a69f77b2408ff682d51);
    e, v := One(c, e, v, 0x3e278d0105aa8a3e3fbe20e4fb4468dbe912c1677335f7773405e493343, 0x4b2da4268a42f1ce88f6320ac8e9c10471551a91ffdcc2f2b73db2ef85d);
    e, v := One(c, e, v, 0x9813788bbb51ee825ca2aa7279219e9a710cb8bb2c807233293c387bbb3, 0x2d00c08db899b8a368eb05416f04c8e6f15879d4cd097624b8bc80e379d);
    e, v := Zero(c, e, v, 0x1b4360179307d67e7b67b579fdc324d4a9eaf0e20982dff6c56b97d85ee, 0x86b4c75ab2d8dceb20815e5f2f2e0303e64e6fd1ecf587fe9cff5f28731);
    e, v := One(c, e, v, 0x173f2c12d2f99abf10393690d38176a330e6f048ef27368028dad74ba9f, 0x8a89bb0026454a92064946811ff3f791f8ca86d318e72ece257940e63b);
    e, v := One(c, e, v, 0x9afb08b65e13a0906176370fe9fb7b2298e3b7691be59cd1aef66d0d9d5, 0x64b9d0158318002e5f9c87a27cc0f3a7005cdda4cef4fd1b140863f387);
    e, v := One(c, e, v, 0x91a11c6865621fcad92b69fc349b9ec581c9f2804d44cfe79a57a2d2ee7, 0x117cd4122c6d99ffb892de041d1694a9e82c1b3c0b57ed263cef0afc9a21);
    e, v := Zero(c, e, v, 0x9f831b79866ccf385c96de43b7b592f59162a102ef6cb58f32a3ef6b9d9, 0x7b8708402e66082a2317e619e69c76d0d30f31cd202f4e79c42a3c20bc8);
    e, v := One(c, e, v, 0x3da505a7d4a06ad467c726b166b4e40cc535636d7c03ea461484b126f96, 0x128674867b2691eb29225ea8b9fd77d6b6dccd144423abac99b368a4aae4);
    e, v := One(c, e, v, 0x8af80cbab43f3d49edea2c8afe72115989c7e04330e2f7fc16792fa6017, 0x2c44824a1d1962c1e824d16e93f0b2c0fb6721fe6e6f4e8eb2dab43b993);
    e, v := Zero(c, e, v, 0xa91546e526352cd9d28ddded7ba166f6833776f575a9bc5e95e598482f3, 0x707c9a7c851feb7e9da2fa4f9034b4e773015aa42f18592ba4bc79dd85a);
    e, v := One(c, e, v, 0x8ec4e95b4492616066ee6e8e5be138581e9eca5b0ef72a276dc7de5b179, 0x14d0a36071bc966118caf09502015517234545ee04a6a8c538769e31920b);
    e, v := One(c, e, v, 0x3396e4a427a6c69276cd7fe661da44148b6310bc2f0a941c1cfdb6570ab, 0xed722906152a668749ff09a3c70961b750d5dc78f5d0c6ca73a071fe2a5);
    e, v := Zero(c, e, v, 0xaad04709d041e873c3c6174b22f78a0e305f6e3d4797a778a3e3ae5cf85, 0xf8081c81b71af7af5bcae14334a6ff619fcf7a38182ab6b83335446a1c);
    e, v := Zero(c, e, v, 0x9c559700cf6f03e7f571fb87a0ed030815d6b4049b144402b0305d32129, 0xa9f22403aba6ebccabff495eb32cbc03f43a5288f3682264e2c445d05d0);
    e, v := Zero(c, e, v, 0xa70adb43f93ed85f1473a858bcf2c53a12ba0dff3ddc6bb943cd8804af4, 0x8e5b07fe44defbe427cd5cd2e308966075ef3e6bcff98499063f7252957);
    e, v := One(c, e, v, 0xa0f3997ab77aa77ae40db938b4926b70c75596784ff98b908cf5827b5f2, 0x1450ca066c06eeed68122705fe2a288ccee35fd6a57b1a9dba3f85e7f48a);
    e, v := Zero(c, e, v, 0x71ffc1128dcebc871cdf1fc3bab693b914e33b44e3dd5513e1965755e50, 0x96e3755d7159a28168dbe4cf92707861944a72b3712b5630be5c0f3315c);
    e, v := One(c, e, v, 0x68bbb9ab5165465170e8f23f11c1d485a6d8e29d88a4a0dbe14ebd1228b, 0x9763ed613d5545e4f80f6e64a0a94e643e7fe24b6f8b7ba9355a433cadf);
    e, v := One(c, e, v, 0x4f6b31adf8f04403e224eedcba7af36063a063c8ed18ad6c7e03556a3b6, 0x7fc7de09a1a050cd4edfbe27ecd262b66ab6aaf539f93eba4121b9717b4);
    e, v := Zero(c, e, v, 0x5f29a01a0abfdd7e5f507a5a9de2bef9f93022e05e2f3dd80f6df82cc21, 0x24bcd8086c9a83accf327deabd6bf3342ff34d373b9b3a7d7dab2a85b49);
    e, v := One(c, e, v, 0x933289c324bf1398efd0bda32220e2933c17d7362322961c9d8fa330075, 0x697e8085076d2e447b242a63d58393b60a8016639f1cba846d8257880a7);
    e, v := One(c, e, v, 0x1ae51b15b46c4126943771a36bd3021ea65b17396face96dd25a4902139, 0xfc6769279be7fc294c6a674d98ca2e6519f9d287e9d9d164f7a7da503ab);
    e, v := Zero(c, e, v, 0x176ba1d45e6b59abd780f1357ea437bf129c3918dab98204601948fe6de, 0x436911b1141b1cdf56686bbd65040501930176d5cc9b953d954f965ef9);
    e, v := Zero(c, e, v, 0x61c0ce4a333f3c645c4aeaa329e5fd605a959e80143df0c5d1c9242c703, 0x331e443a2d0f66c1aab1ae4c2a0aafa3173bbacadd4ddb8ad99628ff03);
    e, v := One(c, e, v, 0x913feace7f2a4ffcc0e624962cad2eb58625143c47340351965675a701b, 0x6f50e02ad79681f8291649577bd9d0325c72d56acb5cd53f23e8c4d3d65);
    e, v := One(c, e, v, 0x7cab548a5e522959e7842e5d6b7a7deb9af3b2381d8d8dbd18e5551e12c, 0xf5c4b91030eb478997544ec13b0433abc9dc0753403e5e0127391d70c92);
    e, v := Zero(c, e, v, 0x28bf74057b6f8a6fe6f9b9be07aa5e104147156f31a485e65ea88b4d5c1, 0x5a87410bb1c8041e3fca81a74afef774dfce902c9caaa9ef1fa66ae0aed);
    e, v := One(c, e, v, 0x515c250dd16a992802a982c1770ecdc762c11e1041f3f13038d8f2014a5, 0x13579946d63e5df1422c3c1fe63bded2570bee706cf6e5fdd77faf74797);
    e, v := Zero(c, e, v, 0x8a577afa7f14b07166cc0c79e84cf35e761243ba2562a6c81b13082b32, 0x268e3940e9f7e36a998e3eff1842d389401debe6cda8d6b73dd5d951ef5);
    e, v := Zero(c, e, v, 0xaa951c7ed454651345466acb0514d8e0c8ded3bab8df8b2f7323c0a0285, 0x6f793f8d826dae50691d6d051c9e3a858bb0d8cedf1bf865e636aff3d);
    e, v := One(c, e, v, 0x33ffb58099338079720b11a99722fb2ad2a0e42af094e354d2b534fe152, 0x152f8fa691422a88faf644a8936056041c25c004ec3dd34c4b1d585da2a0);
  }

  lemma {:induction false} PowersQ1Over3Part4(c: Base, e0: nat) returns (e: nat)
    requires Named(c) && c.n == 0xabaf8c6b094fd0f32c2ccabab864dbecd99144679c1adf804898fb2042b && c.a == 2 && c.pw(e0) == 0x33ffb58099338079720b11a99722fb2ad2a0e42af094e354d2b534fe152
    ensures e == 0x10000000000 * e0 + 0xa047a95616 && c.pw(e) == 0x7f030425979e037a120dd0c4aec9340c5211f5d158fdca7a8a123624f13
  {
    var v := 0x33ffb58099338079720b11a99722fb2ad2a0e42af094e354d2b534fe152;
    e := e0;
    e, v := One(c, e, v, 0x301596bf100a83392abe4f2cab4c3063b15cbf4ca8877b65133affe81b2, 0x1f7f7f4ef23ded9c2d1361c836bac971ca7e826e86304ecb43fe4421782);
    e, v := Zero(c, e, v, 0xa096295459ec3d8ed677a2dcc8619ec39d1e2f4ffa1f58a40324525b3a2, 0xd77918e87adce33dad6d38482159f5465e922b8f5ec5a45e5e3a1c0966);
    e, v := One(c, e, v, 0xa4c3e2daa565899f9ffadf57dfc5b5d502674b3f4b99d4a684c6b702ee9, 0x12c68ee002b1b48a9a1e2e5cdacc0828155a0a39dc08ad20c0af1166d7dd);
    e, v := Zero(c, e, v, 0xa2580205bd6bf50547d4db1d01e6729b2f6725242e0062dda750fa99955, 0x9e1fa37553094286817948cf629de30fc9857301b25bce89b35ed0d5a34);
    e, v := Zero(c, e, v, 0x769a16cb3078c8289e1ce8259218d03578c6a8642b461d40d4b39e0006a, 0x99829934dff630bcd78a950fbc5792c8b1de67ef36261de478ec3b98eed);
    e, v := Zero(c, e, v, 0x3d37c0f0348ca746435438d72397a480ed47f08ec6162181ea25c4c1d58, 0x51ee611c0f61139986be4b19aa7439561349344ec3f3f4d921359bba9a4);
    e, v := Zero(c, e, v, 0x1f7e2764cd3ffb69dd41e2d1a4bdd37aa9d7dd64bccd0437683cd82267d, 0x15d40f3395345dbe90c6a4234aff151d24e1053619e2201ae7a0045e6c9);
    e, v := Zero(c, e, v, 0x6d3e25654eefd5fd8e56e8b081076cab22266b561ccb7e933f032adfb70, 0x5c6dcf702f44100a509b853e1225889b7f5694aaf3190f53f75d0cef4b);
    e, v := Zero(c, e, v, 0xa9062ea0330e98fd45215a4ea12fb0201d3cca6b1caa127719f055fe1e4, 0x4582b750293be1c1a5484a872039ea80fbe55cdeb7aee7ffd03aea53354);
    e, v := One(c, e, v, 0x7d044bf78e73aebf01f4aa74fa7d0c6a6d3c200ce0099f42ebeec069fca, 0x14ccec1ec0ecb8d4dd47e7120ffad09e8f0adee41ba6327b3d3be60a7a02);
    e, v := Zero(c, e, v, 0x7f3885ed4418739dd5505eda7ba417ed0a5b045fbde27b7cf3f8373bbaf, 0x5b08a3cf45295c5258c777b8bad3bf949d01e34f24d82f98367e6f72b9f);
    e, v := Zero(c, e, v, 0x831104bb04d3d8957b424520f9f05bc99b02e60f87be75d310e5cd702cc, 0x5e459752e150dadd9de3236c22b252ffe4094dcef273c9aeb0ecf29e8ff);
    e, v := Zero(c, e, v, 0x1fa5b8f00e0897bb4da8bae228760cffd2a3d3f38ea6c1e180e79a9f59a, 0x640eaf3c71af50bd9ec9e85226ec77076e8884abbb1ac8eb533bef80de2);
    e, v := One(c, e, v, 0x9cb1aa86d30047181c2df1e758bda7fffe1a6c7130e62248272968483f2, 0xbaad48787068907f9f2063d748fa919b2d1aa394a96a9a7cfba8bb9f02);
    e, v := One(c, e, v, 0x93dcaec66ad735c3733ca5dc2d7b64b6af1adc9a64d56d9401eb43c48a8, 0x11e05d22f6d89857ddd7db51d6d140582cf312a5b816115fed08c257baa0);
    e, v := One(c, e, v, 0x383a025a3c82fb3fb853dcd5f2a38100a84c08664f55ef637d8ae9086aa, 0xfeb03b7f2386a534f0c5b9f6e7633953390bf1316049942841a0aa1a882);
    e, v := One(c, e, v, 0x5b1b3c0727708cd497613a26250670a5368b69b7b380f487a84ff9c637, 0x24d3fed8651761282477adc2f5ae871eb05bb0bfd7abb95122638662533);
    e, v := Zero(c, e, v, 0x9b959fa90585c76031df083ca3675280caf29ca9aa6e5b6b47b07120f5e, 0x3058a8585d53db58442d5ca63fabcc55ae0ec60dcb45c9caff01298d9);
    e, v := One(c, e, v, 0x148c4ab0c33f9f32d00528b50285c7be3e16427411a92644b69395dc484, 0x119fc88a54e951e6e9571f1f3c744276bf4681762516537a17eba9eb438c);
    e, v := Zero(c, e, v, 0x28b7e36e39904802d3919e3526461934d8c6d82ae7a4a04a4f0e4904760, 0x2759276322a16f87f948a0f7b26f2f6feb56d16b2a4d79e71aaf468e10);
    e, v := One(c, e, v, 0xa0ec9a260f2b34be84ee4f9ff42f5dce949a91b12b1ad0acf3690ca664e, 0x13506b6c3932fe6180fc4df100cfdc69395058dbda97839d5d307c11216);
    e, v := Zero(c, e, v, 0x2357b311c2ee8b137d260ab8591de10ed1529ca4a601226339a03c7891b, 0x96d656fc1c652d160cefe54fed8b58e8abf974ae24ff1a370f2fbd7227b);
    e, v := Zero(c, e, v, 0x8dfaa066c34f771e40804edd30facf3ea8388fa8e7bf6c80dbb7fac4083, 0x746867295c1febea993e310a6018286008e2599fadfa3506737f16e002);
    e, v := One(c, e, v, 0x88c128178227dd0952b5bc43536c5ba7b3ffd301de27086287115f2a29f, 0xead329dcc74217ca31108c8f24f87d96905993afa1c0136b32e8a9d91d9);
    e, v := Zero(c, e, v, 0x3734c8364847a2533157a66a9e4fc4a50c2b35f6f8ca5e417a542dd47a9, 0x6cee2f8e6ef881a8b4f0f5ac3652e28517d962282db94f3044bca650148);
    e, v := One(c, e, v, 0x40d0f89e1784be3651d4e1499ca8923bba1c3a3fa825a103c4b37e945fd, 0x2380e567e1ae51ffa973179d0f29b5c3488ff4aabd2577045125ed813ef);
    e, v := Zero(c, e, v, 0x92dfd92546d9348d543cc6a80638f7dc84848249f6f7e0e61bd4795d17a, 0x187852a9d87f39d9a6f1d474c6a8392856e63a3a84c7a48f07bdfd0ed2d);
    e, v := One(c, e, v, 0x52d7ce89428967e999db3d00d2e4db73d53604daf44021f2ba7b2599f08, 0xfb4c23d8e520403e2685ddf7d8e56324816284a0c279ba6d6048674d7c0);
    e, v := Zero(c, e, v, 0x17ccdbcc0ef73710889d3cd9068661c680296bea6e5c159a63de6d3aeac, 0x27f956a080d126ce7d567dc26a010563dda9c47de1069e45e51fa9196bc);
    e, v := One(c, e, v, 0x3db62a851ead82aa75974cdd244043e54eda3d87fd47c09993235e610e5, 0x6994410ecc2bd775fa3c159ce78b42851290c6e4c6b424fdf4a573fe31);
    e, v := One(c, e, v, 0x4281bb1f5be8ff814745aef0eca79849835327af3ba9bf8a0f7d406ccb6, 0x2c5d251678dd903673e609b765904c45d90de794274cf7177856e923cf4);
    e, v := Zero(c, e, v, 0xaedbba695f3b58792c0e0f743f8d2f0e3501771ede359ecd9d446de4d3, 0x19c357abcccd3f236a2478d67dfcbdc943f2c6e7167e2424259d4dd8833);
    e, v := Zero(c, e, v, 0x4aea01bb00fe8d29e90d53a57c5bd2198a817ea089ec99545268dcefd3d, 0xb216ea8457e232b9240a403d35e1df8bfa9a571312c5b1c4f08ca6804);
    e, v := Zero(c, e, v, 0x6ee7e09b2e511d276c9f8377e74c099ab002b051d857720a16dfdc49383, 0x20b036aa7988e104c08eaa56a7236eee8f3721abba8fb92bfd09a434612);
    e, v := Zero(c, e, v, 0x41edf3a416467b1d7851a0d7acb609d7e90b8c53c1e2e34e915b988c377, 0x47a49f042c733baf5df4ff6909b149addf8e1c8829ed6c67995877b71b6);
    e, v := One(c, e, v, 0x75a9289d685fd06453bab969d7f34efaa19eb9f40312ff8536d1a3f057f, 0x32a2b1dd82f61d8852f3e4b19db018e35939a802ddabb67af7d3e7596e9);
    e, v := Zero(c, e, v, 0x51168ceb80196d50b57e6645202f69260ef85b9729e10949f9a315821ad, 0x50a2d3a1d5112fdeed6a7d436ebc34dbc1f41d6a3926e0c158a6fea6bfc);
    e, v := One(c, e, v, 0x11153b678b72f8fbb54e13b14eca49fd5bad243cde3d65cb1daa25d2944, 0x4c98bf7740eb53d2fe455fb8ddabe81dc330ae3a48ed8490c97d57090aa);
    e, v := One(c, e, v, 0x131d81f2840933b0fc08465df307768623e14be29577e870d636585caff, 0x36648a1d3a305315bff17ede88a4e9f9d2151cb3f1b1e1f333056c25e3);
    e, v := Zero(c, e, v, 0x7f030425979e037a120dd0c4aec9340c5211f5d158fdca7a8a123624f13, 0x220d6320b03837b0ace4048b87abb7d1a7601de6dd4901eaee81ddf3ca);
  }

  lemma {:induction false} PowersQ1Over3Part5(c: Base, e0: nat) returns (e: nat)
    requires Named(c) && c.n == 0xabaf8c6b094fd0f32c2ccabab864dbecd99144679c1adf804898fb2042b && c.a == 2 && c.pw(e0) == 0x7f030425979e037a120dd0c4aec9340c5211f5d158fdca7a8a123624f13
    ensures e == 0x200000000 * e0 + 0x1da90ac0e && c.pw(e) == 0x4677dcfd5b5696e879646c54a12f4f2d5dc2b0291aa779e205a68b682db
  {
    var v := 0x7f030425979e037a120dd0c4aec9340c5211f5d158fdca7a8a123624f13;
    e := e0;
    e, v := One(c, e, v, 0x174c1cea9f82c02efe41ed731aa41c0cfe76702278bf741401cd321cefc, 0xbbecb73f9f1c6ea3a7fae932a29a4c4a4609953d6afb388189141059e82);
    e, v := One(c, e, v, 0x5c8b78f4c5320d5c0e6535f7cf07c446bceceef8839cccaec09a29e40dd, 0x652a13b554a6e14869ddf5cb2f4c5f7a99a30c2efe573874b492405d49);
    e, v := One(c, e, v, 0x583bcbcb260609b4990be154b34e1009793f7c3720c8f50821e080db2f3, 0x63c51e8035f2ddf8dd2091d873a31c15d1e5f38167e9a486c6f6591555d);
    e, v := Zero(c, e, v, 0x5cc6f94524ce6dd44caac794c79fec7975f620892572ac52e834193c04, 0x2d586e69732df17ff7698706fd221e100b76f5d60b76d3399454aa7586f);
    e, v := One(c, e, v, 0x75f5efddd0f7e174f2c819860c3237f7163ea74689e619d83ffdf3ddadd, 0x644592d04c208db20f0d43a66c2abd7b7f8b016f625e7ebad12549f49);
    e, v := One(c, e, v, 0x322b47e4f703f3f5d4223a8f3e95a8816016590bc1287275557a46a15f5, 0xa21864fd8845afa6df3d0515bab7f06728068bfcf67468ac03e1bc2cf57);
    e, v := Zero(c, e, v, 0x23c022a96173a47c2b5914916e2dee94ec5e65aba44ba2950b5b608fc18, 0xea8fe4256e1dea7b88f248eb5b91e2fcf8033c7e44c450ae06f233eba3);
    e, v := One(c, e, v, 0x7477e9e4e0b1765d900510720b0e043da5e53a1123ace90b32b0924625c, 0xee38ab3e88d727e6d5ddf64a7e1a67cd1869eaf7f403f106133bb1206c);
    e, v := Zero(c, e, v, 0xaaac396c1f193ebb409635c0b01588a6caf26a6131f5830d10e30e1083, 0x4f028fca1110b2aef13fcd3d257e2f27eeda00d46b61381fa44d3f49a27);
    e, v := One(c, e, v, 0x4209dbee72758b34770c1dfce4e020ee26c2dfb16eaa2d4b59bda329703, 0x15354dc4008d8274a6bc6070f2b3235a1cfeb5a511049c702b58589aad);
    e, v := Zero(c, e, v, 0x9511e0a870a682e5ac76785fdc399bb03c720aae51713c6f541cebcf6fb, 0x1966cc77146376e3547bae298c0b375481087aa41b6861613295586ac2a);
    e, v := Zero(c, e, v, 0x8cc146e4ed968be2a61919c49058d66cedac93447ca2d47c18d79d5078f, 0x816edf082ff765c5cbdc2093fb334c3308513bf6bd74975c0827b13409e);
    e, v := One(c, e, v, 0x804c22618f94bb40860ed2ec30f9e5e600967230ec4304e593a26ab3afb, 0xe6cb1bae017635c956958bc0bf2f17db70ef6c646bf3e956a5f01c333d5);
    e, v := Zero(c, e, v, 0xa5c5b57ed43fde3df5889db84b7f88b270667a50ccfd9090632a3c15718, 0x5fdfc7cd04075649336b687ccb41f4218fe705751647bae80fd65142b83);
    e, v := Zero(c, e, v, 0xd596b88032202f0a5600b2b010678bb5e5d7089e2feeeef47f8de05141, 0xa01002db9c1b1cfef2b04856b654c2408f8149c8d1c5e37a8be47bae87d);
    e, v := Zero(c, e, v, 0x9b00422e52659b3c0a7ce088c28533851acc54bb2fce2c65fca2cf3d544, 0x109b80dc2771aefe85c3c1883d921a9e1f0b1c17888b8fe94a45f26837);
    e, v := Zero(c, e, v, 0x6461675ca80e77faa7b6cc741eeccc2dc960f27b01a11a025753edb421, 0x8bf00f6412e93df8237d3b6b0d86af8838e69898948b7d6bd07df004f4d);
    e, v := One(c, e, v, 0x2894d253bc4af9e3549ba64c51aac623c0ff96cc5af0463b537998a01e4, 0x75614bf1dd17412cfc7b3e8cdf429e10448ed675957f96b7183d6deda);
    e, v := Zero(c, e, v, 0x6ad60ded574987c7f5358ac6ff635bc814e25ee312b08a36d1167dbf042, 0x9979ab72b4da73dc28188a25de9fce509e5f755ccae0670a5847e43b6a);
    e, v := One(c, e, v, 0x77b06e5a1bfc30d17e38ed2cd2657b9326ad150bccc70202d7b7e8a79d8, 0x84f6a3ecbe8e87984554682123925b1f0dc0577cad7a082a77a00f07090);
    e, v := Zero(c, e, v, 0x1565c46d06b5531c334c5f6c4da1ba1ff8d0faa51864d47f969c00f55a9, 0x5370b435dd85b499e60dd3e6c60ac205ce18e4d1df7ea33c5ea612cd345);
    e, v := One(c, e, v, 0x9425a559467ed89cd5d9af1d47a77e25e55aa5b9afa5f1ba882053af8f2, 0x55568df86342fd1ccb9fcdcd14585bbfffa60f0bb541fa10415ceb0690);
    e, v := One(c, e, v, 0x6d41d3a50805209f6aaeb5e7f4dd1e974cae821fa59f8541085f81f9934, 0xffabd432d390a811e452dd1f5cf677862b21a99414b152989bff70682fc);
    e, v := Zero(c, e, v, 0x65cf190fe1a4d125c86741b90d9f03ea584d60a9880de3807928c064180, 0x4587667d0770862671f65a2520f4b6150816859eceb6206f537755efb30);
    e, v := Zero(c, e, v, 0xa372545a1ed3e1adc2ef1fb91550dfe8a06bccc73b28425d82afb8d9687, 0x3c5f50e7254526aa48b3d5ce3cb84c5111a07d4f9851b8a4cb0f28782eb);
    e, v := Zero(c, e, v, 0x4608ac48980d292c0e4e63c69e791e67376a5c93c3345c9d108244eb9a0, 0x9b9a54c67de75f00da08328bf3879da59c224fdeffcae880b1201614733);
    e, v := Zero(c, e, v, 0x4f6036b9567451a6174213bc6b8c562cb26522038d50c10289e4dec594e, 0x1c917266260b69de5593bf7d273e8b5642875c578cdbacc9a64ca5d4d16);
    e, v := Zero(c, e, v, 0x262e2f1b660278b6b904e542875ddf1cc0c3de9adaad71c41d527149666, 0x24b2b023efc04e7399e550dd7e190bec62077a369a7b2bf5d4ab14d731a);
    e, v := Zero(c, e, v, 0x5553b1ce3f2a5d2907de8284182a24fc83dbf49923eac590a2bf579cc09, 0x87da2d85b5aaca2520cec8f535d1250ae61995f78950f17c8118333951);
    e, v := One(c, e, v, 0x365d3297636ae6f3a7c8c5567d1d36dfb4b9779d54641080fc6ae7d480c, 0x54d0689f792a6e1af4cf04905d5f11a3989b9af02634ac70c922134c0c2);
    e, v := One(c, e, v, 0x663bee0a654b0ced48afe430e38570836e9b354cefb111270a4b5722923, 0x226db91e833accb77dc32271b57385695b9aa97f229033bac530ea63877);
    e, v := One(c, e, v, 0x4677dcfd5b5696e879646c54a12f4f2d5dc2b0291aa779e205a68b682dc, 0x79c15197b55c97fe1df6e57ca6990312e301f5325ae1bccfc79e714af22);
    e, v := Zero(c, e, v, 0x4677dcfd5b5696e879646c54a12f4f2d5dc2b0291aa779e205a68b682db, 0x1cec710029225717e16fe12024caf704b2741a887f1df4e5888e58bfb1f);
  }

  lemma {:induction false} PowersQ1Over3(c: Base)
    requires Named(c) && c.n == 0xabaf8c6b094fd0f32c2ccabab864dbecd99144679c1adf804898fb2042b && c.a == 2 && c.pw(1) == 2
    ensures c.pw(0x393a8423adc545a6640eee3e3d76f3f99ddb16cd3408f52ac2dda90ac0e) == 0x4677dcfd5b5696e879646c54a12f4f2d5dc2b0291aa779e205a68b682db
  {
    var e := 1;
    e := PowersQ1Over3Part0(c, e);
    e := PowersQ1Over3Part1(c, e);
    e := PowersQ1Over3Part2(c, e);
    e := PowersQ1Over3Part3(c, e);
    e := PowersQ1Over3Part4(c, e);
    e := PowersQ1Over3Part5(c, e);
  }

  lemma {:induction false} PowersQ1OverQ2Part0(c: Base, e0: nat) returns (e: nat)
    requires Named(c) && c.n == 0xabaf8c6b094fd0f32c2ccabab864dbecd99144679c1adf804898fb2042b && c.a == 2 && c.pw(e0) == 2
    ensures e == 0x10000000000 * e0 + 0x7a1a299ef1 && c.pw(e) == 0x5b3dc2fe48132afebaa6033610a1a800fd38e1e0af27e937f3588174316
  {
    var v := 2;
    e := e0;
    e, v := Zero(c, e, v, 4, 0);
    e, v := One(c, e, v, 32, 0);
    e, v := One(c, e, v, 0x800, 0);
    e, v := One(c, e, v, 0x800000, 0);
    e, v := One(c, e, v, 0x800000000000, 0);
    e, v := Zero(c, e, v, 0x400000000000000000000000, 0);
    e, v := One(c, e, v, 0x200000000000000000000000000000000000000000000000, 0);
    e, v := Zero(c, e, v, 0xa0000000000000000000000000000000, 0x5f6e20000000000000000000000000000000);
    e, v := Zero(c, e, v, 0x1575f18d6129fa1e65859957570c9b7d9b32288cf3835bf009131f64095, 0x951c1);
    e, v := Zero(c, e, v, 0x63417d2de16224cc9589e533f29a4f24edc7fb8be63f893629f8712eb5d, 0x2aebe31ac253f43ccb0b32aeae1936fb36645119e706b7e012263ec814);
    e, v := Zero(c, e, v, 0x9c2295e31767e636259c7c1deed13941559c6c0579a73061da059fefd3f, 0x3961dc5e864cbd464673b882084135c159779d6ce11cbb535043a16f09e);
    e, v := One(c, e, v, 0x528e4381e9bd824c534fedc9a8c2c54b207db4585f9ea1608d26204f28f, 0x11bfc67df2b725a183c28bf3ff17f4bc37556a1f97564b75ffa2c7b210d9);
    e, v := One(c, e, v, 0x2ab2d9be5cddc7ab119c6d5cd8c0067479a78639a092b94fb1a666f9b61, 0x4f64fa107c92a022aa01a9dc714d8018fb4b2e931add27622db7693bfa3);
    e, v := Zero(c, e, v, 0x73f48ef786a0c82a5410bcef192dd17d7b44506e30444a6ddbcce12d10f, 0xa9e870b48247e75233972759759a5e3bdb9f63dd6cd5ebbba6da0b4a16);
    e, v := One(c, e, v, 0x1915cb3e4ff6e29f92d957143a9a41090ce287174db79468d575ba7062f, 0x9ca1790bda458898373137e6655d2ffb3eb2e5be3da2108ea8632ac1e39);
    e, v := Zero(c, e, v, 0x7ce9900030775e04fe6fc5e1a0b6f3ae9cdff71700b1f2c0fc96994c295, 0x3aa4b0c3f968ae139fb3e28c909963c487bfcd85448fffc903392aac24);
    e, v := Zero(c, e, v, 0x47ed91f9e30696c95f893badb61bd79ac630564c46ebfac55ad80409024, 0x5ae1b8cce2d83ef1666811f975eaebf674ead1b91adc8811895a3adbc3f);
    e, v := Zero(c, e, v, 0x6d6910f52314c83c5d97d0ec8dba31017ab2fd248613c256aa925583ce9, 0x1e2264e64d7e4237cbb111f6d03f2dd65ce390ddb7678ab39e2c99a61f5);
    e, v := One(c, e, v, 0x5422485ff1f494f98dace9fb2dbb7b389b6cc135d9a829625638397d4ca, 0x8b72c1676259bf99b35e88e121394913887fc882fe0b868a5d7cb216608);
    e, v := Zero(c, e, v, 0x638b4d80ea1282170594444c4b6af20e30bf7b3a8df7c13642d404176fd, 0x293ac0175656ac37a8996f482908df7f8dcc902ff329c3dbc482fa552b5);
    e, v := One(c, e, v, 0x694f9def2b863bcfe29e3efe3af3b25a103f679a95ce819fda29104e084, 0x736ea9f575f83cfcc4a74f3ee60df40d32b34f9d01e57ed5e30e717d5aa);
    e, v := Zero(c, e, v, 0x18b0339408243fcef68a5da014a993a89e2ed2e21250e7ab76b7f98f2f9, 0x4098de24ce63bf055d7409c80e693d017edc30f0d065e1ef962f3b954c5);
    e, v := Zero(c, e, v, 0x3d5c1fd1357668adbc8cd1a8afdacb0f87fa1ee62680b76b3d822405076, 0x38cd72a1af84bd15551cd6d527f300321c10277edf2e2f345e0e8d8cb1);
    e, v := One(c, e, v, 0x9ad8894953481bb13ebe0dfbd7463f237320abbb500bd35d914131fb736, 0x2bdc0db0da0cb0592f613c8f4e26553a25ae654a5ce40245790ff353db6);
    e, v := One(c, e, v, 0xaae8f053ae2ed9801733deb180bfa3073cd78cdb29a508fb08902164a25, 0x11750be8284f0e3324f523b089a062960e6fc906fa2ca5b75e185284fd69);
    e, v := Zero(c, e, v, 0x6d8f8fb5ce21b8c0c7b3a311406adb88cc8672e9fe2eed169f1b4b55a2c, 0xaa2339fddb42eb5479bb1083347ec1f358bea8c6c02b96cc91fe052d607);
    e, v := Zero(c, e, v, 0x44fcdedf04753ed8c8ee915986db0b0a72ae2d45022447a3a9dc506e3ef, 0x45ea79a34a4bd31282a0519c494f4b6397a453a2e7b0f3238336d26e563);
    e, v := One(c, e, v, 0x240276ddb10caecaf7d3e5df844ffbe9e810e888ce454cc7646bb87c6b3, 0x377130c388a210f5b9a2e36e12c78eccde221e23e487cddbd71c442d02d);
    e, v := One(c, e, v, 0x4c93bfc17e5eed011591d724972c15ad4f0c7db6a31c19d543fec4f6338, 0xf1afd44539ffb5baead092c9033c81382fc39d1bc6478f330c351f4e4e);
    e, v := One(c, e, v, 0xf329c742169e5f91659c1b9c517a62f249b58ee3eb97ce145740ea5c42, 0x444fc1850aba64606b2356bbfd13037184e4a759eb79084f56b40227fba);
    e, v := One(c, e, v, 0x3590cbf2c861435418e1ebbfdc94aa2753fc3dcd96b2e829500460504e4, 0x2b0cc1f35a51e52620df8db61e8d22a19406615af4d97d29b9edac316c);
    e, v := Zero(c, e, v, 0x16e3f379ad5b751a496ff90b3142c1fe077abff8bac422ba9f1603668b0, 0x10b65d9710ea9f371e7cf7af73fd2dd810824fe8bd0cf731babb64b7720);
    e, v := One(c, e, v, 0x81c638239d085d3ad08480a21330a6c834331a6451431a1028d3502ff25, 0x61a95e4895ee4631513da0cb6739620cf352f6165d8aab9eb7cd2b0411);
    e, v := One(c, e, v, 0x9357900ca1515ba1035bab892100b9988dda7494d352741e294486e4b6, 0xc4303538919aa687ceb4682637759093815f8e132e9551b5a0525f64bf4);
    e, v := One(c, e, v, 0x405bb5b8ca0216da0c6f86ed1333a8bd775fed021a663d4e2b36235719b, 0xfce6728bd032db897f6317b6d2494235ac53f435a0e928daa8d637c07);
    e, v := One(c, e, v, 0x7d62fcf75f812110cdb472c7ff884a43d480de33f860197f8f6fed500b6, 0x30403186ce7ae793aa10ef56e4bffae793995951fe5275b59fef1f14af4);
    e, v := Zero(c, e, v, 0x904ba4c874b1f0f05b0450a279336362c7e1488ac92ee8f5da6f563364a, 0x5b92bf47c1941ff6ca4074459fa9a465bb8deaff3cf9affd8f5b153124e);
    e, v := Zero(c, e, v, 0x76494f0a3a3c97814203225ec564b209a6f5546814a0c75daf65d46ffb0, 0x794665eeec629a2510049fb41a0050d1830e8e30465df0456e712760b1c);
    e, v := Zero(c, e, v, 0xa5f7104ec5019bccb3280196d860001a7443841d5ec0ed143bc88362c22, 0x517eeba1bed93d92a8c0a2429a2ed697b794974ac9a11651e3c6d0dc19a);
    e, v := One(c, e, v, 0x5b3dc2fe48132afebaa6033610a1a800fd38e1e0af27e937f3588174316, 0x140dec0994802e1b9d7e36b88d396a8048c711d2fd99b0a341d9c99afed6);
  }

  lemma {:induction false} PowersQ1OverQ2Part1(c: Base, e0: nat) returns (e: nat)
    requires Named(c) && c.n == 0xabaf8c6b094fd0f32c2ccabab864dbecd99144679c1adf804898fb2042b && c.a == 2 && c.pw(e0) == 0x5b3dc2fe48132afebaa6033610a1a800fd38e1e0af27e937f3588174316
    ensures e == 0x10000000000 * e0 + 0xcea4346523 && c.pw(e) == 0x720ad70938bd175b53e26efd80636e95cf3443d8a5836339203cd8ad881
  {
    var v := 0x5b3dc2fe48132afebaa6033610a1a800fd38e1e0af27e937f3588174316;
    e := e0;
    e, v := One(c, e, v, 0xab899e114625eeca247394185b8b10ed04cd483d38b90796a45e4ce6867, 0x60faa871792189bc0b323b396cff0e0426e94dcffd376b1ee6dc253f4a3);
    e, v := One(c, e, v, 0x706bedf360073a520b7b2e5a24d5997e7864fc6bdcaa27a96d516b75ea, 0x156c77031b2d18c3225f74b647bdae352ee2424065117f5ceaa1fd0862e8);
    e, v := Zero(c, e, v, 0x2ecbe1d5d2a4e8bd96f9b7b79219fb1f19e861a83c56e62b50f54f2cb10, 0x499d65682040c5000d19945591ef1776b8d6ece77477dbaafb275be7c);
    e, v := Zero(c, e, v, 0x480d7ea8eadcb7e4ebb35b1a0cdcd043f5e4cd4d2058172d0c27567b647, 0xcc15bdbefc965cd35de92fad359711c417a2528875ef6cbe1b14eaa6ab);
    e, v := One(c, e, v, 0x877adfa6f8638081cc6b9c95ca5cef436014ca8cf2d5d3372d43dfb5928, 0x3c7a5581a95f984a5848120b2eeea3ff89170ec05ac7e64665c67de23ae);
    e, v := One(c, e, v, 0x603ea648a763450b49f2c2865bbd9d49594c23c9e5ff8ae53905be8fade, 0xd5d1a064e07b3d643865919d9b2ac3c8b1574cda723bcb692168c0a59e6);
    e, v := One(c, e, v, 0x83cb33627fafca484eea55f3ed3e53cd71569273276be4273e9744e83e0, 0x6be831aa760053532236af67fd3d39b834f3c2ccff5b97a4b248c6b2b78);
    e, v := Zero(c, e, v, 0x8ae0254f62995e149367320aa32b3275044ac79839f4008b2ebc57c4e36, 0x652bbd5c54b0f105699dab223e803149d32d27ec71ef4f239c3cb028a5e);
    e, v := One(c, e, v, 0x77a545aee6778b3540b8d04f689d1e580d4d609671bde4fb96d6e1c2424, 0xe0abd6782fbc52221eea3d72895820688654ff11aec3abf353824e941ec);
    e, v := Zero(c, e, v, 0x1d3a2bd56156546153f495e59c8eedae00984d23441bd58c80d887f0cfe, 0x536125eee80824c6a3886d64db97e06ba57d24f4ad3bc09bf2c90fc2536);
    e, v := One(c, e, v, 0x11b8a152725ff5497da478350aa19b4f57f74d3443661db52819303f267, 0x9f37b5b11707cfd07b896038e48bdeadd7528e6acccec72c60ffe89b63);
    e, v := Zero(c, e, v, 0x87a1a708af6f6db13628dbb2cfb9a13f87ce11c0d7efdf799cc6d9d2d9, 0x1d44414bfdf03b97676c4835822f2f5aeec4307907aa7788d69badf3c8);
    e, v := Zero(c, e, v, 0x681cea30777f864767ca5c72c2e0c9366d4bea0ed36db67f72e1b824700, 0x6b260cab49890a545175d238c98b11409330f13ac97a64fc20abed153);
    e, v := One(c, e, v, 0x6346ba8fb280afe985e7767d58d2b2d993a8e1056b527bf67febc19ab7d, 0x7e457fbacb1ed027eaa5902227e64198f684fffbb180e8306c3ab700d09);
    e, v := Zero(c, e, v, 0x66890395acbd229953540895de9c35dfd3b00c3391b3fbbeda237c04bba, 0x3967eb809052d31470f9050f8406e2a75ca7f616b3d8014c9252df8fb6d);
    e, v := Zero(c, e, v, 0x246b0d995d0c971914cfb6d54b8f246af282bafd4da86c98e6560668218, 0x3d3c98f6b8321593ddef21bd759714ad8cc5a1839e1359c42fac3f9c124);
    e, v := Zero(c, e, v, 0x96131899c63d71007c8e92a4eff37266d2ee68854c1e56c38cb6cadc056, 0x7b99de4cc51a4ba44b46208e27cbddf8966532290adf271298d4179ebe);
    e, v := Zero(c, e, v, 0x1063eb9f7e399a72c51a14c8774493cfd6b71251d4d13448d8ad87df513, 0x832f0c2e59680ff588f0ac47de4d4ccc4606e51cb7b30071df13c1719f3);
    e, v := One(c, e, v, 0xa93f25bba885b9252329b137dc883cf54091cd537fef79da6849f6d345b, 0x32124ba651bbc2ee991baada81af1568adb348de06b4adb1d1af0b70e5);
    e, v := One(c, e, v, 0x3ce1360fd46fc4a88a6439bea6de5cd95a62bef6548f0278783955a2876, 0x14daf3bd846378371a8700567c1f71d02d5c38305f6c8b8815fb8fd44eb4);
    e, v := Zero(c, e, v, 0x89283d0d222956de5001ac765776b44cad63015b2232b0bda5fcd71230f, 0x15968358e15e2e1798e00262712fc9c139aee4abe4eb5e2260073b8a67f);
    e, v := One(c, e, v, 0xbc3c3ed954169405598c5d0a8e9d96a8daddbbcc6376bebacb68e47120, 0xdb254a51ae492450454bdc3ed4875d360ff9d0098ca152fce4df06512e6);
    e, v := Zero(c, e, v, 0xa35d8d8f64b75f6c4a1be3f7bfeb14dec55fd2156f8b898db65dac5c275, 0xce6156736dee9effc4a8c2ba0fed1eae55cc3296e8d52abae067ae821);
    e, v := Zero(c, e, v, 0x80067ce1dc095d93cc102cf2a38d4e1a11b4217630d63182d30ef54641d, 0x9b72c8331bf21eb71e5dd0ea9285cafa0a49b4722f7c52a013faf5d7614);
    e, v := Zero(c, e, v, 0x1c53d340376af8cfca4f67d25d18d47b236324e1a764da948477e92628b, 0x5f77ccc7e89347c0b883a76aa322e0f48b75a27d58b9c821f2065d7853a);
    e, v := One(c, e, v, 0x6499eb5c7d237676f292ad621c97fd91e6774f7f140b6044588dc6c0b1d, 0x9590af6022cb44f3118c95c24d428abb7dab85789cb7225cd686f637ff);
    e, v := One(c, e, v, 0x8020869b0a913f93aec77582682727fd398026d582cdb54e68fa8cfc38c, 0x75e59d813e5f00c1b7d3924b1b8c9d7e55ad66ece4d09c78e0b63fadc12);
    e, v := Zero(c, e, v, 0x48e88c4980b9201f5cfbef781abf1d4f828e86fb9659adff4b1310b0a79, 0x5f9ea5ef3a7058b8fe47148d6972dc2a082e8d405be327dea0ede877fc5);
    e, v := Zero(c, e, v, 0x9e649a67a4dc4fcc3907d0adafafe3aed2883cebd206262a3f7c68f33d, 0x1ef61f53c5c7de213b54614c856a3726c54f07f0bd5224af6e28c21efdc);
    e, v := One(c, e, v, 0x4b38fa2dbb1b7d5bf6b0705495f8749e3a48abb87dac0363caf7153f255, 0x1244242da28b1b18f733b924cb1049a3a04721cad1bd31db7a646c64b7);
    e, v := Zero(c, e, v, 0x7f7597cdd3c877340a980a10f28f7bd44170bf96fb6e9d8a7500735f18b, 0x20f545a72ff5a7b3447627b288ae86db0e767b41f502df841f02e469f0a);
    e, v := One(c, e, v, 0x9d8a7de9b52217aa780f6b630473a357fba89e98dcd89278b5a0b108673, 0xbd405d82dadc99fff996254cea7d34d71b081a959c2e7e2a4d046fd1afd);
    e, v := Zero(c, e, v, 0x96d2c969627da713cad78c935f91c840b1e6a93152df5ef406bf417b7c4, 0x908fc3ce326d3aeb6257f474817020b83ee129e7062951cb7598388542f);
    e, v := Zero(c, e, v, 0x3854f63724c53aa594b9c9922f46592727c1bd3b106b9e50dd7e3a28215, 0x847f01a28f80cd472e19d95d0fb111543eca24bdef0e878d672fbdedf71);
    e, v := One(c, e, v, 0x9318ee288e9756eff6e670b0ecca0cf5106fa7c006befaf94804342cf7e, 0x24f7560d0ca908b6604705dfbfead7e0f9505282900973a9d99fe2e55dc);
    e, v := Zero(c, e, v, 0x3463313141c76af212b3b22f8b613e2e28a9711187f217be91e300c269d, 0x7e07cf4cfba128cd6b371de66091150e7605a7b47f3dc26e9cb1ad23bb5);
    e, v := Zero(c, e, v, 0x5f232d211cad15e53e3a956ec029ae0c7d4a363f98c30c4217155b03e32, 0xffc3c37d94ed97553be525525bfacd9f99ca5008ce7c75762f45c71bc5);
    e, v := Zero(c, e, v, 0xfe964007ae604fff314f7b793d2966f50b5bc5568982c129202f37990a, 0x34b81a49bc19af0e7feacab0e4e46137ba1f8710ef907fbc4e72c163b2e);
    e, v := One(c, e, v, 0x28db7db68c1382ebca9d97999fc91f2e7ec2f4dae1b50a890d0c98ceb3b, 0x2f30956c4f7f32088a48fdd9711592de3c4cd9da74e8966da9fd9e9127);
    e, v := One(c, e, v, 0x720ad70938bd175b53e26efd80636e95cf3443d8a5836339203cd8ad881, 0x137240a49934bd59ea237f2d183818ea23821c4bf328aa9350789bb8693);
  }

  lemma {:induction false} PowersQ1OverQ2Part2(c: Base, e0: nat) returns (e: nat)
    requires Named(c) && c.n == 0xabaf8c6b094fd0f32c2ccabab864dbecd99144679c1adf804898fb2042b && c.a == 2 && c.pw(e0) == 0x720ad70938bd175b53e26efd80636e95cf3443d8a5836339203cd8ad881
    ensures e == 0x8000000000 * e0 + 0x8e9fa496a && c.pw(e) == 0xa118eb0f9d8184bab59e8e45df736d65fba3c64f4aa855bc8921ac18308
  {
    var v := 0x720ad70938bd175b53e26efd80636e95cf3443d8a5836339203cd8ad881;
    e := e0;
    e, v := Zero(c, e, v, 0x8ec0ece8d1c70fa46ce9a84130fc7862194ca52ee39dbc9bccd849f1134, 0x4bc0b036362361b701420dcf39d81316e866410467540e5f02bedc7d7e7);
    e, v := Zero(c, e, v, 0x984b9e157c3a6b1f500e1f6db2ff31a9fc102ddea06b1460a7c4c162fc, 0x76b27373d18ee92a3c09724a6f8fe988693cda26bf9c8914405d98a80bc);
    e, v := Zero(c, e, v, 0x191ab7bc343c628269193e1f3b3661f2fc43d86e3a3945eaa4ce0581c49, 0x871851588636b9db071ad7ecd92b0e8810bfacf883a31cd88d30afcd5);
    e, v := One(c, e, v, 0x70148c8c8fab25c89283af99e2d42bb5d598a2b3b545c1767544cd399aa, 0x7577710501cc68dfcc8f3ee83a07c49d2221d07a6d9cba61d9ab10abe8);
    e, v := Zero(c, e, v, 0x6d18b4092d072cfb745aa6e3b53fcd7b510266a4fd1b331deac0331d450, 0x492b22728fb614da7d894ac6cc3c2b996270ddb769d696e0ac13b9dc3bc);
    e, v := Zero(c, e, v, 0x5e53a20049dc2fd1357d92bfa28d053694fa00741bc1e52de5063d93581, 0x4553193f70a72c966a33465fdb8eb66cceda94a92a130e9f3df7bec4ffd);
    e, v := Zero(c, e, v, 0x9f254955df08c93c067baa8495de768e15726947b90bdcd4eacc89b7546, 0x33d31156663edc905334c14e0f2a4f5e4d78c7f9afa7ea6f9963c42fcb1);
    e, v := One(c, e, v, 0x294e98f067f27df25c8f920e20c4ea5ebdfb5516bf8e775c4e033f0503e, 0x1270b0289677737b674ff65c1c378457f3f9c66e6068fa73de459dea731e);
    e, v := One(c, e, v, 0x67ce1d1c80fe37780fd186479d9fbc96c40ea65e8fa7cb70d1bc6eb2fa8, 0x13e06d2a972d864b9e5c091dca02354f6c3fa6e6b482c0fdec30a043b20);
    e, v := One(c, e, v, 0x5c1ad4f216d7c72355fd281b05b7c920f88c6aa03cb83455ca5cd2d44cf, 0x7d86a2f8a33b77659c267974fc37f7a81d39ac33d1494abe66b55613993);
    e, v := Zero(c, e, v, 0xa1ac6b40e5cae5858f15b1990489ac87ae8963971fa5721264f97f12c02, 0x316969d97fb3a296dcc760d70c9acfa35e354f1cb1553c4baabe6a92f9d);
    e, v := One(c, e, v, 0xd3f3fcd02e66cee9457b1ebbe0134abf79ac175d02139487f0e630ea21, 0x1307d87174665b81f23194e0ed2b1d49019016b1e3cbfa40a2d888af4b35);
    e, v := Zero(c, e, v, 0x14c97ecab69056698bf65a377fb2393a67dd9816da34dbe0179dcefa47b, 0x105aa2d8d74f2c8db2065567565b4dce54ca9cdba058d1857597dd1a52);
    e, v := Zero(c, e, v, 0x58495c6cbe1f4542979c800a596b7e3cad9056e18cefdd81b7269f013be, 0x2844eb7d85f3e10e69589bb0a5bc4a393a56553432502b43192df9a991);
    e, v := One(c, e, v, 0x3acf2096c14e1b7fca61f3eee671d3421087e6919bfb43a8ac6ca187d41, 0x5accc1a77f1a5840dc146d080484532d2822c93a2c0305df7a06a9927d5);
    e, v := One(c, e, v, 0x19745ef76d601f918e154de96683253c37ed80fbf01ef81644d10462bd7, 0x2849f11dde35bf5ff983c77d3479277d233239e4e5790842604e11f2f01);
    e, v := One(c, e, v, 0x18a032b6dbdd0ffa50f8321ad648db97637a5b429266fc8dc93238518c3, 0x78c44ab0963007c43a35772cc8c271ec2e93e3a87759c08af1c905a29d);
    e, v := One(c, e, v, 0x58168a9cc810950795f992994ff8ecceab43b9ae9c616d7df3da615edc5, 0x7107cced17394d15f4ccf3b34c42ba6e7455be539ad1aa939f22f50a67);
    e, v := One(c, e, v, 0x32ab2873918a7aecbfb6d6af28c203c819c0c0017539810a225c1ebc092, 0x5a6457695fd90f8afa78a21f20c5e21c565872c097010f6d2b10cdc67e0);
    e, v := One(c, e, v, 0x327b0dfc6db9e6a5625a8cf945eba5c566a6c267735a886152c835a29c3, 0x1de83366fc7008aa73e32df8b5b8e39bdb245ba184b021eb069e6245acf);
    e, v := Zero(c, e, v, 0x5641d4e5de2cc434d8ff2a159299498cca60897ed388a0aef15ff0da0ce, 0xed7c296f25534f937cd695599b3d37add33229eca0e4af761206f098b1);
    e, v := One(c, e, v, 0x55ee202d2b055d37b42d41d71c452087956e4aed2b02bb73b7d4052f56f, 0x56ac669e6c83d40ef71069cba30d4bbdcd70e7c898cc274668c20f418cb);
    e, v := Zero(c, e, v, 0x9823bc824ddf4238bf45872426c1302f752184c5056f87a8f42c1600555, 0x2b023ffb5742af72c8e2134982022b4c79393c975b2239befff0a800064);
    e, v := Zero(c, e, v, 0x3b697d501b0714f8d317f10949e2b67188f4cafb4cccc75d9b98460108f, 0x86d1999e6a71d91817d09bd268bd2ad97de1867eca062c9802aa83031fe);
    e, v := One(c, e, v, 0x3380985bbb3964a6cc6fbfc5444ec2fb50c1af4cd9673da926edf837d0d, 0x291e86cb6ec319b882c25be06177df3e1d2f404805053809cde6a8ee49f);
    e, v := Zero(c, e, v, 0x52b2f1167be7a4b9fc1a2da3db30dd39977591d38cde11632591e04a443, 0xf731e244ae780eb28c3107cbb7089eaa8ce556286564c64384c139ba32);
    e, v := Zero(c, e, v, 0x15ffe601f5b00c84e6b79ed19993fac9d4e536125b1eb5a8d2a9339d2b, 0x27d5cae579581da0f17108a6741b38674ff418676ce366100313e51a01a);
    e, v := One(c, e, v, 0x99016ae6d7a7f95a1e2c2c8154174bb97e560efde2921b4b187b3a2976e, 0x5a35451680c7969afc2375e93824a1b48ca9c24eca7a57af0248c30c);
    e, v := Zero(c, e, v, 0x3a40cd496b38c85262acc65b5751cf807ec56bf6ee4146d56ab4a25e977, 0x885b9ac2ac8da2836212d220f5a983988bb8c3542e2c148cad4fb6355e7);
    e, v := Zero(c, e, v, 0x650348bc16e94643c3355253b78e6752af906a3eb5bc54cf2993163f998, 0x13c3ed81ebf18c09b6c74292800c24a1e8d8919af83f3a23bf86100b9ab);
    e, v := One(c, e, v, 0x955deee08c97abfb04f70d7ac170d444f78674df8f534264a84f7ac6bc5, 0x76dd1446458aa770d49aa14dc11fe563944f9aeeb6ae6eef87b224bd5b1);
    e, v := Zero(c, e, v, 0x377735aedb37e55d19ff1c50169c5922f560053366812d8f0df5f653597, 0x81f31398efb5821d90ad9721a39a7fd5af88d93829c6be9da7fb0a06506);
    e, v := One(c, e, v, 0x8acc4a87344f44985b9ab5599431a6b28010d329ab6b431cc39822a21b5, 0x23d6897f0efab758bf52d737177f448838bfbba1b6f0013bd4a04e69dc7);
    e, v := One(c, e, v, 0x5c23c73e3442a30395230ce026bfb02114263a1ee539024c0bb8ec877cf, 0xe06b9d555f3943730f3e51ab7e0a215015ea2f597253911171ed4d0b3e9);
    e, v := Zero(c, e, v, 0x497b1976e2c5196437c64570ab1267dc3ee2476cb1f39398a436a2a1147, 0x317303aeb71fc56e1377f02a98a7c94c6c7b654ba692ab7a76953ffc94e);
    e, v := One(c, e, v, 0x67c3655c3d4c03a9e39cad8d9e6fc7d03deac383138d118a925cfcc81a0, 0x3ee6294f93ce922e1db5fd1cc49ddc19035e95e1a3e2e81ba347f951a46);
    e, v := Zero(c, e, v, 0x645b08dfbcd1d8f70ba37aa8fe62a64990262ab94952a38617885b46dc7, 0x3eb65c4900284426d04079600664bac640709af5f5dcde80ff0eea6092b);
    e, v := One(c, e, v, 0x3b4de569432f428a4d9321e098af4893fe8cf220fcc35aea5991e93fac5, 0x75526730bb9c399f8301afef9abb52bd23d3d34ee2f4c731767dfbe3457);
    e, v := Zero(c, e, v, 0xa118eb0f9d8184bab59e8e45df736d65fba3c64f4aa855bc8921ac18308, 0x147c2ee340b95c83c91a30c3a1d8c00f10f74548796a097dd652beb0c33);
  }

  lemma {:induction false} PowersQ1OverQ2(c: Base)
    requires Named(c) && c.n == 0xabaf8c6b094fd0f32c2ccabab864dbecd99144679c1adf804898fb2042b && c.a == 2 && c.pw(1) == 2
    ensures c.pw(0xbd0d14cf78e7521a329188e9fa496a) == 0xa118eb0f9d8184bab59e8e45df736d65fba3c64f4aa855bc8921ac18308
  {
    var e := 1;
    e := PowersQ1OverQ2Part0(c, e);
    e := PowersQ1OverQ2Part1(c, e);
    e := PowersQ1OverQ2Part2(c, e);
  }

  lemma {:induction false} PowersQ1Full(c: Base)
    requires Named(c) && c.n == 0xabaf8c6b094fd0f32c2ccabab864dbecd99144679c1adf804898fb2042b && c.a == 2 && c.pw(0x393a8423adc545a6640eee3e3d76f3f99ddb16cd3408f52ac2dda90ac0e) == 0x4677dcfd5b5696e879646c54a12f4f2d5dc2b0291aa779e205a68b682db
    ensures c.pw(0xabaf8c6b094fd0f32c2ccabab864dbecd99144679c1adf804898fb2042a) == 1
  {
    Times(c, 0x393a8423adc545a6640eee3e3d76f3f99ddb16cd3408f52ac2dda90ac0e, 0x4677dcfd5b5696e879646c54a12f4f2d5dc2b0291aa779e205a68b682db, 0x393a8423adc545a6640eee3e3d76f3f99ddb16cd3408f52ac2dda90ac0e, 0x4677dcfd5b5696e879646c54a12f4f2d5dc2b0291aa779e205a68b682db, 0x6537af6dadf93a0ab2c85e6617358cbf7bce943e8173659e42f26fb814f, 0x1cec710029225717e16fe12024caf704b2741a887f1df4e5888e58bfb1e);
    Times(c, 0x727508475b8a8b4cc81ddc7c7aede7f33bb62d9a6811ea5585bb521581c, 0x6537af6dadf93a0ab2c85e6617358cbf7bce943e8173659e42f26fb814f, 0x393a8423adc545a6640eee3e3d76f3f99ddb16cd3408f52ac2dda90ac0e, 0x4677dcfd5b5696e879646c54a12f4f2d5dc2b0291aa779e205a68b682db, 1, 0x298b6bfd32343fd097f48b347c645828ab4e95a09b8984fc7d1832a87bc);
  }

  lemma {:induction false} PrimeQ1()
    ensures IsPrime(0xabaf8c6b094fd0f32c2ccabab864dbecd99144679c1adf804898fb2042b)
  {
    var n := 0xabaf8c6b094fd0f32c2ccabab864dbecd99144679c1adf804898fb2042b;
    SievedTwo(n);
    var c := TheBase(n, 2);
    TheBaseNamed(n, 2);
    PowersQ1Over3(c);
    PowersQ1OverQ2(c);
    PowersQ1Full(c);
    PrimeN3();
    Factor(c, 2, 3, 0x393a8423adc545a6640eee3e3d76f3f99ddb16cd3408f52ac2dda90ac0e, 0x4677dcfd5b5696e879646c54a12f4f2d5dc2b0291aa779e205a68b682db, 0x5af7be9d926dae549fa70db59a88cd8ec71ff2e209da170a2e83ce481d3, 0x25566da8d9d8f23db072fd2db4868d1cadb06c98921054f4d63f94b0387);
    PrimeQ2();
    Factor(c, 6, 0xe87c2a477b815a1793787395b23e1, 0xbd0d14cf78e7521a329188e9fa496a, 0xa118eb0f9d8184bab59e8e45df736d65fba3c64f4aa855bc8921ac18308, 0xa35a14fb1452ddd0fca6eef50ac9bd9a369cab894104fc366d4fa595e38, 0x9947077cf95ee7c5af8d022726b2cf5d7414add310510833ec83cebac15);
    SievedPrime(n, 0x572e8fdace5081c8d74d2b5822d746);
  }

  lemma {:induction false} PowersPOverQ1(c: Base)
    requires Named(c) && c.n == P && c.a == 2 && c.pw(1) == 2
    ensures c.pw(0xbedc4) == 0xf1ba0c491eeef83c49fc1b744331bb096d4893142c187431f7b03e61a75a49
  {
    var e, v := 1, 2;
    e, v := Zero(c, e, v, 4, 0);
    e, v := One(c, e, v, 32, 0);
    e, v := One(c, e, v, 0x800, 0);
    e, v := One(c, e, v, 0x800000, 0);
    e, v := One(c, e, v, 0x800000000000, 0);
    e, v := One(c, e, v, 0x800000000000000000000000, 0);
    e, v := Zero(c, e, v, 0x400000000000000000000000000000000000000000000000, 0);
    e, v := One(c, e, v, 0x4c0000000000000000000000000000000, 0x40000000000000000000000000000000);
    e, v := One(c, e, v, 0x20000000000000000000000000000000000000000000000000000000000006ae, 90);
    e, v := Zero(c, e, v, 0x18000000000000000000000000000000000000000000000000000000002cddcc, 0x800000000000000000000000000000000000000000000000000000000000358);
    e, v := One(c, e, v, 0x2b000000000000000000000000000000000000000000000000000fb9ff130dce, 0x90000000000000000000000000000000000000000000000000000000021a65a);
    e, v := One(c, e, v, 0xcec00000000000000000000000000000000000001eea60dc69faed39b039c4b, 0x1ce40000000000000000000000000000000000000000000000001521eec19a91);
    e, v := One(c, e, v, 0x162216c0000000000007778a91c0dd372b6facff37ea5ac6606bd318fa0e0f79, 0x29be6400000000000000000000000000000000000c7be4dd014bb38b2b8953d);
    e, v := Zero(c, e, v, 0x6eb9ef646ded500ec360dc97d3aba66fad01335ae230f0694f551ed107e18b80, 0x3d3c0e61a0b200000029511cb35fc500ae013abd8192ab273fd39d96be12a55);
    e, v := Zero(c, e, v, 0x1d804e3bfbc1c5189c61a656cc00905d55b7f22ae1771e1690048c93d6e78b58, 0x5fc8a18c5af6fce322a75c25674d7a3d3bcae29dd3c3663f2b0ae07c70346248);
    e, v := Zero(c, e, v, 0x4029dd07f147e9f9cf214b626c20bb9c254fc9c7d0b5bdf5cd1e706290bb9f73, 0x6cca40fd5dc87c98617ca4541cbb81dc37ae4751fd5ae3b678f616ae0a2ae61);
    e, v := One(c, e, v, 0xf10bda72989665e25b2f91d26cbc5d4ab0ae74eabcd6acd2f1164aa01ba7316, 0x4053d5721017d36c6396518087dd464ba88fe5500e5dfd67c31d4d9edf87e9ac);
    e, v := Zero(c, e, v, 0x587b5882c7860235e1b4dd1a0040c4dbf4f21b56ccb70c2cb5a409f25a97a63c, 0x1c5eea3b087174fdaaf1d31c69b3ffae371f2d3d732c43171024394abbb1948);
    e, v := Zero(c, e, v, 0xf1ba0c491eeef83c49fc1b744331bb096d4893142c187431f7b03e61a75a49, 0x3d2a10902ae4108d18284694005f203a3faea49b6b8fc874a5b7b1e63ee41403);
  }

  lemma {:induction false} PowersPFullPart0(c: Base, e0: nat) returns (e: nat)
    requires Named(c) && c.n == P && c.a == 2 && c.pw(e0) == 2
    ensures e == 0x10000000000 * e0 + 0xffffffffff && c.pw(e) == 0x1c2261269bde5d8a23e88bdcfa0efa5f91c60951386a6441dfa38e5f6c500bc3
  {
    var v := 2;
    e := e0;
    e, v := One(c, e, v, 8, 0);
    e, v := One(c, e, v, 128, 0);
    e, v := One(c, e, v, 0x8000, 0);
    e, v := One(c, e, v, 0x80000000, 0);
    e, v := One(c, e, v, 0x8000000000000000, 0);
    e, v := One(c, e, v, 0x80000000000000000000000000000000, 0);
    e, v := One(c, e, v, 19, 1);
    e, v := One(c, e, v, 722, 0);
    e, v := One(c, e, v, 0xfe888, 0);
    e, v := One(c, e, v, 0x1fa264d9080, 0);
    e, v := One(c, e, v, 0x7d176e0b4b0cc7d208000, 0);
    e, v := One(c, e, v, 0x7a3fc737f93f58db10bf314a30b1e9824080000000, 0);
    e, v := One(c, e, v, 0xb8cd5e7255890d0e0d907986602bddc9c67ba97196e7941267ca3056254b232, 0xe983671408947e703f46);
    e, v := One(c, e, v, 0x1f0dfe590cd9d85bc54f6df96a681c2f5d07c94c7b4a77dc54a7229c1723133a, 0x2159f721303a8a89030ee9a61205b8b725be166acbc8ca89dac355b9d56bbc6);
    e, v := One(c, e, v, 0x7f7e97cd178ef6c053d43ee4017c1d92ddc1ae18350ff99ab05d59d28f491555, 0xf1191758b739401b23bded5fdf973329265f4065823c99f707b006accaad45f);
    e, v := One(c, e, v, 0xde3d0ec62b72d4aeb36cbf321895273c2f8448d08a0b497109c12f489b2c1f5, 0xfdfb64dd151a7e9c72e0b9b0012e8b3080a3834c3f8447a95d031316547bd2d1);
    e, v := One(c, e, v, 0x5c5b021c025321741192954188216b1154e01f00d9f83522770dd2554e78c18d, 0x303b7d0befa988f009ad7f900f8cf23242cedf01fa08ec9b774d53bcda3e659);
    e, v := One(c, e, v, 0x1b776bbea07930d25162ad35f34a44e31ad5e75309fb8e7a6274fca9b38b5064, 0x8546277a866768fc0f818aaf7af526d99dd37946c45504e2a52baa8125d0d0e6);
    e, v := One(c, e, v, 0x467038a8aad2effd9b3ed28402ab6f4ff081bc0947e8f8e3b63278c2ee40ccd5, 0xbc9a1be39aea43e9ff9e3972a67888be1d3f3a1ba3d28c6469002bfb5302f17);
    e, v := One(c, e, v, 0x423ff9abcd6e0ac2cf971a6f0233cadea24c49c564bb59aeea815d78b0bdff17, 0x4d8640b7762c36b67a93ddac4b0f2c4f62c8ff5ace2c562f24d9791ede1a6767);
    e, v := One(c, e, v, 0x524a02b8dc468def7eb7e95ad469eee1ccab3d521c3c4986984e845dbcf311ac, 0x449432e5afee0a8796db6a7b1594fd57bdc27a0545795ec6856b89907bd3058e);
    e, v := One(c, e, v, 0x5c221fac61c0d6ffe66104d19e84e07208db61a97320b6960d900864519e3877, 0x69cdfc90000fd297e340c5dec04a7dd7b66a07f762274819871fc7355dcbaa2d);
    e, v := One(c, e, v, 0x1fbe3b0fb70b360cdf1e8c696eca5d7fd5baccb35fb8479131e4ab98c2ef2538, 0x84a22d414fdf1604f8560c58909b1b4f4b21053476d734a6a7fd9bb7821e3dd2);
    e, v := One(c, e, v, 0x7b87c61a21bd1607de6d79162713dc578522256259be972e711046f84f99ef74, 0xfbe7ea61d22ac45e8ff8de11c9332658164613f95961731e36f8edc4a8213bc);
    e, v := One(c, e, v, 0x12b24d6c18eb768b7724f3f7d3dd5b18e34a5a3e71ba3dc0756d930bacfe0acd, 0xee6f017e951eddd0a3e2eb4c5544abd98fd2aa28149eb2f717d12984a5ab7f3f);
    e, v := One(c, e, v, 0x36accf8464cc55eb112dfe4ce8a197c0a0e7dd3a65cc0db42d86974422d51bcf, 0x5763c4bd4f7e2fc946f2f5f869ce25c9566778306c3cf5cc852609198a6182f);
    e, v := One(c, e, v, 0x331d6459ffbff29a0bcfaf627910978d4b25d0aa6998888324d6c00a3117477, 0x2eb570cd72941934b1e60e03cc4297a37e408e4cabfe159622b441d0a2f3f017);
    e, v := One(c, e, v, 0x1d6a3e0e33e7d36e6f1956bbcfc0fb038ff048f6e430c94db515f9aeae98564, 0x28d2e56efe836e608069aa00ed17961a1811010cbb5b658d777a8ede2cea76);
    e, v := One(c, e, v, 0x4599cc19f91ab66ae385744bcbd7468eab1d8bca124390c56de62e1096cb7846, 0xd84f89aaa418f407baa32d0364833aeabbf0601f5a5554ec0b3245b907e02);
    e, v := One(c, e, v, 0x539ee148b32774f7f3aaeca65f110118df5ca04f77e1232fded8d83cce9a9b08, 0x4bb111ae68363fa35b036d61f8c4ca08bd27529f0dedf301ac3a3a2deffa1040);
    e, v := One(c, e, v, 0x3b5822765de225e133be342f95c09f0e7914206ef4a0d297740ccf3336a0bcb5, 0x6d41a2c000a6687724fdd78c6b8b69927b90e8d366af242831a70ed6ee4b8b97);
    e, v := One(c, e, v, 0x4544a25fe11230f1ac5e2c3229e3cb05acd1b509957074665eb3ae801b4d6511, 0x3706f8e91529c26a66984de23f13a8cbb928b3fc8cf90daf3b86eb6e72fa9045);
    e, v := One(c, e, v, 0x31e303467df86d50e8e12275cc3f33332f4f99ad3ef3b38faa2245031dd105d, 0x4af847b9650373407a860acd7d9289b00346ec1eeb1fd11803fbf1f0e69c6ed9);
    e, v := One(c, e, v, 0x450172c0ac3a455a330d82fc1fc4e86d23d66bf206db8ee551b8855f0760813f, 0x26e2c23f2d1ceb1f2c2d9ff7578c527de0f6ce316b64684f04ca40b360433f);
    e, v := One(c, e, v, 0x51ca4e3284e1c9964e809cc55b3211c0fc431bc20ee5e321d22353c59b07b6d, 0x4a671f77d723b0f76d1197c10121d2fc270c615e0ffce55c7d3fed18954c9949);
    e, v := One(c, e, v, 0x63eb51ea169cde66974dad19de73cf0d5fc158c29c4f1bfc548adc741b397dec, 0x6886956ddecda3540b94ef013b5c68bdb1fd2e1caead99d61ca8983e8cedbe);
    e, v := One(c, e, v, 0x9f32ad3cb4e7bbed9f68a88befe5e1772862f90a89d7f93ddcbd4f81f8a26cf, 0x9bff66aa2de341811b8ac88c055a9315f2a37e6704007196b74450c04fddf975);
    e, v := One(c, e, v, 0x28d053961137c98ea810238b76355510820e9c5668a70f4c33c02649f16a065, 0x18bfff4e626a683745530e482c1ed1c2e918568730f749f86af136330e4c231);
    e, v := One(c, e, v, 0x5a537fe0cb35b3bea7db382afebbaae6c42fc4dfc94025db7f483a979476d6af, 0x1a070e9b52204319de4539a7b75a19920b372a0048f74e47ebcd2c75b95eaf);
    e, v := One(c, e, v, 0x1c2261269bde5d8a23e88bdcfa0efa5f91c60951386a6441dfa38e5f6c500bc3, 0x7f7b4498ea1958e08d1ba8a8c6d5b9aaa57cc6c920244c9d493e460957a9939b);
  }

  lemma {:induction false} PowersPFullPart1(c: Base, e0: nat) returns (e: nat)
    requires Named(c) && c.n == P && c.a == 2 && c.pw(e0) == 0x1c2261269bde5d8a23e88bdcfa0efa5f91c60951386a6441dfa38e5f6c500bc3
    ensures e == 0x10000000000 * e0 + 0xffffffffff && c.pw(e) == 0x60c27697f559f88c2f8b1f2db010c5cab89e19c30795269440b599e1a9e3b23c
  {
    var v := 0x1c2261269bde5d8a23e88bdcfa0efa5f91c60951386a6441dfa38e5f6c500bc3;
    e := e0;
    e, v := One(c, e, v, 0x53e16d58acb9b712cd3fd2a6217e2f4505df411ee8ca807fbc2eee7a24f7f72c, 0xc5e277994e14de0e1678c0816b0dcab6b8d88390da67aa3a9a1582a050f54be);
    e, v := One(c, e, v, 0x65fd3f4e16ec12888efb70cc8b28a29273846a5da1823ce24525c3af1a0e5928, 0x6defcda39252b3dd690884e35b9d254b17d2fe2917c3e67c909415b4a9352ed8);
    e, v := One(c, e, v, 0x54b45c911bd0aa55f16b194fdd80e3065ac19b2c1488bbbd4f837ab614121ca6, 0xa28739e7385c715a3713c9db8a236ea9a5482675e28e2e0f74a46b8d9553d002);
    e, v := One(c, e, v, 0x45e788cb47435e1b6fc2051646cbe0eb6024b4dc2885f89bed089a226205a5b8, 0x701b6f461f22add9bc78c06f546d3315a2550620acd076900a50af80c25d45d0);
    e, v := One(c, e, v, 0x6788c579f377d5eb202f037034d58d67c9c46b96360332d744b9d9fc19984635, 0x4c5a8496f17625c131b47448c1aebc7fd535fb3a1e0c4232465cf81e079d3417);
    e, v := One(c, e, v, 0x60302490d899f5f2e9e02601a667c42b7d6d8b1c905afb24b5b1f35ed9c4d703, 0xa77d5fea2f482113ef235ae6afa8cf43b35cc94596c1031b630a15cb8a2d9ecb);
    e, v := One(c, e, v, 0x7e7fa578f05b7f51a80b82d5df335dba51eb6a9f6dc4258a8bbcc9caaaf8369a, 0x909091e977f704487093fcfdde606ba34d0bb7089059952bef2135fb668ef458);
    e, v := One(c, e, v, 0x37bb5bbcc46568414878c06702bb06e01dfef02225d056072546c7c8f2231075, 0xfa079a229636ac5378097b3e5f462eec59c0a869988f2f2de815fa7e1dcb63bf);
    e, v := One(c, e, v, 0x410e5be1ceec75389eac57fe3b8cf3e2ec40bb5a87dd61b95b58669638e4b647, 0x30882a290c28f70e00faf13422fd7b6b761387c6855f38ab2b6622600ae243f7);
    e, v := One(c, e, v, 0x639782956b2d03c3b50ee26f49583a17c209caff6f283b5f308dbc8fa243804d, 0x42212ddb630416b4440a53b683f0edb61ad5d706d9d6a44a313723af1cb956c9);
    e, v := One(c, e, v, 0x4a2f51afd3bf227ecc6f11c09d42adce4fc162482eb021d85953f1bda6a07d65, 0x9afa22ab7f15604dd803a5d3fe168db0d11d8cb76d7b94ac39cde62cf18c5501);
    e, v := One(c, e, v, 0x62b27de316c873c65664c140ea184f417a463bb2f2bd349003527247adeca31e, 0x55fd8fe2fc2bf3886c253d5cae5217b6b3dec0ea4871f7d3e0b317a90a07d864);
    e, v := One(c, e, v, 0x1f187ccbd81c70a97ea3db6abe43172065bb4c67dadaec056830a01d0df9edbe, 0x98349354ac92d45812256c24f811789285ed7af6ae470a4d5948268c8213f932);
    e, v := One(c, e, v, 0x5db09e4076e9cef49658f729d857859216d074616635cbcf8f178d0b5c23b74e, 0xf1bc24405961128b4893a85bb8913b37ba88e288194b37498d052e06cceca62);
    e, v := One(c, e, v, 0x304d384d2f9dbc378a27d19919a4a9514b56d6ae3ca9c0a001b34d10cc9285ad, 0x892733534374137a3494887465ba233a7d753d61e70a2f785f3ac453713b6fe7);
    e, v := One(c, e, v, 0x714520e2ad0d3064e4648a0fa8e7213495c02233aa2f5ffb84c4edbcdc966f4f, 0x2474319f72ae9e4af53b72d34a67c288fc04697321c29b1e6ef93efb9347ca2f);
    e, v := One(c, e, v, 0x7d6149f0d55f4be6d972b2673e6f1dedf743b811a5f0fbecf4e123fa2cde07c, 0xc87866cb6cc18739d1857d9bcea76001c392858668bfd729eb1cabb9694ee09e);
    e, v := One(c, e, v, 0x1863621ef9cc507e2bc8b5340dcdc52c6b49032850bd067731b407940c6c62c6, 0xf5a09cb938effa604c69ef1adeca28d17c4531f37b1dae4b0990f49c14bb82);
    e, v := One(c, e, v, 0x322c8f19542013330297c68b0c40609919693fac1dacfb57831868a326baad10, 0x94b23eb619cf8775c3837cea8c39b40ef247ce40d76d745221523d05ef7b318);
    e, v := One(c, e, v, 0x3e9755f029ad926c8f281686ec26cd545a5851ed269a8d0eb2dc3fff1d3fe3db, 0x2755be9d963b040f979fecd3a7b95dfb1746248ade5fe4d9f2c307cd5ac6e019);
    e, v := One(c, e, v, 0x5a259bd002319b926716cfc81dbb8232bc7b48bce62b4db7bba2069862b3fc20, 0x3d369c5b496a6aab037ff59be0062f007fcabb8d914fdff55d549b195480329a);
    e, v := One(c, e, v, 0x419f3b1a98f90c89d23f8327b91b94acb7c20ec1b1840b06daf7e961f6ff7df9, 0x7ef9dc52aa043d962f4af5e47e835deae714bb19b6ecbb30660a2f7c69f0eb43);
    e, v := One(c, e, v, 0x29bd1bc5fb701b6202102431303b2b4a8a3a2af6213119638e0b454b035a3342, 0x4348fc37e9770c0726f8be50845a196eb01f4d5dec446c0984c483e157c035a0);
    e, v := One(c, e, v, 0x70ab5ea2da24b64d4d7191eefbe84cbe45d0ab9628454f2495915384beb77a15, 0x1b387a5dbf8a21d1aa983df7bd2618a678a69e70357deb977b6e15e7de2d835f);
    e, v := One(c, e, v, 0x66522a754d891bbeca560372d45e6a7f7491d8062a8e9ac7dc3d2017c2c3a6a1, 0xc65996183dae316bd50b7f7bb034d38e9c893c967bb95f441a83635592a573f5);
    e, v := One(c, e, v, 0x5e009653e507c594898678ae5d0037407ed5bf4610b44a725d19675bef3d6c13, 0xa39650d2cfe6848b0d7f930975e8e40313156c243635b8764523efa663256c4b);
    e, v := One(c, e, v, 0x17d33b601b5f68bc78e9cc60b751ad46bfa468fec5052828bd389f612a835c7c, 0x8a11b997d1e083f201e75f4bce4b26eaec33c94e8eda32a4a3a6c8984152e8ee);
    e, v := One(c, e, v, 0x7e5441f05138612df3b7215ae4b97eda016c91f96e896a3f2385973c9790383a, 0x8de8bd8cc76d32c24b0137590a5d9c564c85a4f675d54e9386c59409cff06be);
    e, v := One(c, e, v, 0x4757007b8c414bff9b42fc0985e1bec31ecc471943fbef18e4564fe3c109e2a3, 0xf95c328f9a92de001b91eb64414f0d5d837e5ddb515415c046f8f08b984eaf99);
    e, v := One(c, e, v, 0x45224608a5add3adaba078f9a3888da0ba8914ba5c15a934580ebdfc060bf140, 0x4f857f576f1720a60dc4caec252121137cc144d6aa7b66f0cb51fe4bd818d15a);
    e, v := One(c, e, v, 0x4bbd6f63fb19d327092a0c86654245a62e7b60e51f22f60e3679616e8e08bd40, 0x4aadf95d5b11c4b6b9ff55cb5e96cce1a34027d111c9795999173a67c0dc15c0);
    e, v := One(c, e, v, 0x484c304b2cfe32810b6bef75002edd6a4bd07a326483a15477d83b979306ab07, 0x59a22dc8fce7029ce18bf0e90ba8c9046377ebdd99cc203ae0cf4b014e7c2fbd);
    e, v := One(c, e, v, 0xe7c4616bd8c84041b2efc968940b19c8396fab61ab16d4a02263f8cddb6c9f9, 0x51abc75bfc37e9252b5761c71a4c5404053f59a803d362586cdae484d5b66ced);
    e, v := One(c, e, v, 0x50238158174c551fb0a070b5ae8c248e3ec878e2f75cfb20010e28c37ad2ab1, 0x3474ff9d7cdc0f93e94c318ff0c7df009a756d76555c4675c80327e914f5455);
    e, v := One(c, e, v, 0x3049055d5aa594440ae71a1dda29615021ea5b26ed510d0a89bbf3f6d04167aa, 0x6458d70eb7ffe77825c758a75e16aada0082da9e6c0246de170ad51e4af678);
    e, v := One(c, e, v, 0x1344f1f380acdc6c84ccbdc91c4f1e3c3cf60dcb5c7bcea68c6559c0624fcda, 0x246ddb5c456246761c586b355c0d7d0d56628fb1890572e1214667e2f15806e6);
    e, v := One(c, e, v, 0x605bf1a17ffedc5a22f3aa4b542bafcee95998eff8cde3bd064f7f8ea935eeae, 0x5cd39ee4c8991c0d4e4288eede67b184241d106af9386f81595fd29015fc2);
    e, v := One(c, e, v, 0x6da40bad5859c0b0f7e0d217a1555a70a40310e610ea052dca695e6e826223bc, 0x911458fb338675516ef551f6f40b31c16f740fb85e08dc9c65670da6d2cd2a7c);
    e, v := One(c, e, v, 0x2de3c13da94fb24d31a7291fa97c7ea60976e7ba7af24d40fd7f16638635ec9e, 0xbbd46c424f77f03750ba0d8b7050e45a0afdce167fdb603abfbdc8cff112514a);
    e, v := One(c, e, v, 0x60c27697f559f88c2f8b1f2db010c5cab89e19c30795269440b599e1a9e3b23c, 0x20e7723fcaf940a68ca20b24e329def80b11d5ae5322c274ead397f71d8f627c);
  }

  lemma {:induction false} PowersPFullPart2(c: Base, e0: nat) returns (e: nat)
    requires Named(c) && c.n == P && c.a == 2 && c.pw(e0) == 0x60c27697f559f88c2f8b1f2db010c5cab89e19c30795269440b599e1a9e3b23c
    ensures e == 0x10000000000 * e0 + 0xffffffffff && c.pw(e) == 0x8f07602cd009e6ccabc1a25642a7dcd28374c01dd2e197131136915896c8a46
  {
    var v := 0x60c27697f559f88c2f8b1f2db010c5cab89e19c30795269440b599e1a9e3b23c;
    e := e0;
    e, v := One(c, e, v, 0x4c28358c0a63c47ade38ef0754d5cfb4782112a6824907b555649228765ce6d8, 0x9249b2a7b50f1ca09228b333c7c6550ec80882bc7df45168e215fbc3bb04f168);
    e, v := One(c, e, v, 0x26886446a5c1070536bb80608b9df6dfd9bf5ae9748aba37d735fcc1e1fa7c72, 0x5a9f986fb48712fc1cf3e163546284fa443cf903c6777368f1a98c3f7b88e286);
    e, v := One(c, e, v, 0x6c4bf7949a61d793ad122cc1d0b9d1d92b2ceb7e29b99e08235ceb5b56b6fcd8, 0x173319beae32c0ab80a07e2725e18937ed58889b9a1d2ae6768f2b92bc3b7570);
    e, v := One(c, e, v, 0x4b8d6f110d9bd3e9742dd96bb3945266df4b29ebf92e31d23561913dce9675d3, 0xb740bdc18b146d925b235796c2ecf94fd21ca6bdcc542819da14bce1d1f0f9c1);
    e, v := One(c, e, v, 0x1db2afb7ff29a9b84efa4bbb79825c3cba12e2b483b4928f57b9635bbc344e3, 0x5930b4de1bc85b08a9b2881f39a406d80a3e57daaa7ab2ce3d5d10e4f2912acb);
    e, v := One(c, e, v, 0x445eaa228303d740c1f0c8111aa1a43da17464872ee11c85c8b7263f67cbfcf8, 0xdc7e222112d65f62084c6678a0f91673d71b4963efc79b19255a2f3f3a4c2);
    e, v := One(c, e, v, 0x1690bb51b13f6e0dee0cb31d8e2540ae46099b2f5aa8fe24a34dc8e0880df274, 0x4909b58ee0106f529229d0f95d8061a5247e8be98a44c6f182795db67a2eecbc);
    e, v := One(c, e, v, 0x1648827ae6cf5096bf3df57e0e218860fc1e3850c1496ae29fa29c0390f88836, 0x7f4c8153dbb052a10eb064192f62aa44f62a2c25825cd7da3a15cb2f2d9c352);
    e, v := One(c, e, v, 0x36e4fef770e0ebb0eefbd1400e5cee2392e09986734f273cc909f7cb82868b3a, 0x7c22bdb1d3a0f8a64d53e9d0a0b91a7420a594f967b2358c4de41b230dbfc06);
    e, v := One(c, e, v, 0x111baef8ecf7e940001fd734aaa12dc469820baec835b9fcc155b15c368e2e6e, 0x2f15a19e293f9cef3deda952f43a43b56595dcaa8d3b110f1e1adce74774f402);
    e, v := One(c, e, v, 0x3ec1fb89a68687237b23de07148750d8c2357676a16b57ea5255224a758f266f, 0x492c0edbe48f5cac114ce676109da175f547d0779a8d83e6110156c8e59ab5d);
    e, v := One(c, e, v, 0x67cad1c7d7c7fd36134bcfa0e615c08130a84be05941d90990d2dbd8d36c49c8, 0x3d8a234fa575db71a1d004186a478d3a3e0bcd307f70608792ebbe60509fe522);
    e, v := One(c, e, v, 0x7b0e932db621b2ff0c9a1d36caa4af6b92b918fc66e22718060a37abd413c932, 0xa85355fa2bad7ecb5c73c75d93858cf81e7a982909faada02130eb40d4a256c6);
    e, v := One(c, e, v, 0x2abb4c95321b78db0dfd5768e49f7c21359a05f26807c5df6abbf8b7e0cc846b, 0xec9c09096a8754139bfcf80e351ea5db2a92f3ba8380040361fcf0ed39c62df1);
    e, v := One(c, e, v, 0x6f97c8c769da1c291f633cd37e817b567804f88a60217141e7e048779597a578, 0x1c87f8a7b54491f878a439046f297edbb434bbe1cab3a9475021ff2c213d30a2);
    e, v := One(c, e, v, 0x449c2f5239333dd904083b3ac10d9cbf3f1b688ce7060fe69a45633a5193b021, 0xc293e86d9a08d1cdaa5f0ee2e5a1ba3d5c156eb2de13cd5e77f6e49709809ffb);
    e, v := One(c, e, v, 0x4d250478710852639c536ca84cf21977842f0f49fb02bca5bf01e92c7055d673, 0x498d61b58d60eae0b3c9cf356191c7bb52070e56ff9163b29fd98fae7bb1a26b);
    e, v := One(c, e, v, 0x4b1497e95da51643fc9724f875c64ed1c77a2a0eb373cdab35e98c303b129df4, 0x5cfd282afb8ea8a8a4784b0405298e20377936ab1ef13a7f4a9eca1eabf33f16);
    e, v := One(c, e, v, 0x78577c78225b8c3a6338b0baf2e4e7badd6e66fd365d7950ce0a6f9be14ac8fe, 0x58144aab4de9f82ea6a07e9a3eb0b62fa0ae4887d1ccba48c42829115b0a206a);
    e, v := One(c, e, v, 0x3738a60ebe123e5f8825254430aebeec235e0a6ab1f8118555ca73da288f542f, 0xe2488a59d9871d63dbf43c3f4f3ff9f24a3cdccc8365df9f3c69cadcd1a53e1d);
    e, v := One(c, e, v, 0x62c079c9d9fc47013ce6740e285d14a86da6c77d2d9f1eacb6e1ea925b54d6a3, 0x2fa58f8d9f58788559354ca537765cdee465a9da76bc84d918bf651fee0ccb3b);
    e, v := One(c, e, v, 0x6116698f2fbdc0d9ffdd8b2145aa1560d54bc52fffc32bf29d4bc7f48dba18ba, 0x985fb7d5ce723fffdd807c217c6ed844a502beb1cf44335dfc0a7d9d8fc86f38);
    e, v := One(c, e, v, 0x7f5cfe517161e30f81ee6ebdd0169eadd8c9b3642805b9e904e8ba87ac2edcb9, 0x9347f7d34943180981d579a45511dd989236619370203b93609ccaf77969afeb);
    e, v := One(c, e, v, 0x1b63eae1c1031c9387ed8d5b1b95dd0c0969e7108572b2e6ab5733340b5ca75f, 0xfd75987256b9522f1b2feb1b5580d237b443055d743563de5a255d9c9083c5af);
    e, v := One(c, e, v, 0x7ccf23c9ca519de2504f9d475d91f147e40d206d164cb9d5439cf8710ca09ca8, 0xbb8ea2c834db177080b79ff8f7fd25001dde00d111b2e9518e27a7ee8b20602);
    e, v := One(c, e, v, 0x3bf660e9e465d9b4d35e5f5951b0ddf7f8990885004f6095e6b7737be653ed6d, 0xf365491985543548dc16de8f3da41a49875ab364e6a7bcb1c37078a10d9c4aff);
    e, v := One(c, e, v, 0x1338488add0af95c404fa0402113ae43243ec47ceb4d8adbd17772198d644a6e, 0x382df728d5e89c56c59cdd463bc011d1f9d03b7fc7f2bc51b0cfa7cea466db74);
    e, v := One(c, e, v, 0xfd7b2f998a56543be37c177e850888f82727268000fe49954a112390864f7b9, 0x5c59c91b87af5e813728d0dd85d4de574f4e49364b06cb8976076901df5c22b);
    e, v := One(c, e, v, 0x6e15686488df199392a01b4a8ac94875e665d622ede0874e2eb42673a99827e4, 0x3ebf2dd71074d3956a83ef2e59ac4ec0a1e265e3b3d3c52a5f4c42973d901b6);
    e, v := One(c, e, v, 0x4654c072c17c2aadd95251b2543f6eee8ae3c8b5c8758ecddc0a4e682a7108f4, 0xbd599e02c2c0151601e556fe28cd67bba7e926b4fe6d810176ffef4a479b145c);
    e, v := One(c, e, v, 0x305ff504f38c9dead5fea2a87f8855ed24f61c46d6ad44ed8ddb294e279c748f, 0x4d49d536772cd9f8e71b805eb0b18f27aeecb98c5a8d4d642351b829e80252b5);
    e, v := One(c, e, v, 0x7f5154b89a9793334592de6b912acc24bc8fb0ba4e65952093cba23e1d1a1762, 0x24907f667e0fdf63bb9bf7d3a2cae7eeab99884f9c08148b0f33fe67b52dcde0);
    e, v := One(c, e, v, 0x418626877ad3f0c2f37fbce1aa31c2f60d8cfed27a577daf6a1dcb317bc8b9b, 0xfd472f9788f78a285546d75228156236a8f36aa1f86bcaa98cab39fdf4d2e581);
    e, v := One(c, e, v, 0x6a1de49a2f911c03abd5b7a5bb1452533e8dccd17acb0e45aa98e50d69b857c, 0x43159774a002d932f6b919ee95639cfcf19e576142bb76fdf3f877eb1b604e);
    e, v := One(c, e, v, 0x7d72c109d65f59d607e1d4264817fd5647892449fc15e397d10acbbcb8077118, 0xaff3133519d7ceac81d30e297c2d3a57f2d8548b972db26ee800b511146228);
    e, v := One(c, e, v, 0x752379dde0daefd9fbf695281c26f66b233090acbd076280e9605188d008cd8d, 0xf5e50fd066af810e47f893cc1740cb8322825f3a4575829a162130498772565f);
    e, v := One(c, e, v, 0x33d382ea3fef1cb8f59e816f31103782239b9e4d156a454347006d6819abe990, 0xd665c93d70dc67df30a15d29b168934a0f2067adb029dd7bf3b6587b1927e08a);
    e, v := One(c, e, v, 0x61c35c85fe9fbc3c72f8e6fc6b69b01d3b7c504b3df986e8a4658b4f999a353f, 0x29f7d3a99a45a38b5417d7ad662203ea614c66edbdc613316344c60ffb167da5);
    e, v := One(c, e, v, 0x7bab852e8224e61b30fffd9fcaa90920859d66e68c0f4d18b9683662e7255a3e, 0x955684ce821e248fc6f8b38370f2f28e111e7fb810b775c79467472251f7f354);
    e, v := One(c, e, v, 0x8f07602cd009e6ccabc1a25642a7dcd28374c01dd2e197131136915896c8a46, 0xeef9139789eab85b9fb795a477f3fc738fcc7dc75252047bcd58a2657050468a);
  }

  lemma {:induction false} PowersPFullPart3(c: Base, e0: nat) returns (e: nat)
    requires Named(c) && c.n == P && c.a == 2 && c.pw(e0) == 0x8f07602cd009e6ccabc1a25642a7dcd28374c01dd2e197131136915896c8a46
    ensures e == 0x10000000000 * e0 + 0xffffffffff && c.pw(e) == 0x3ac4cdd312d5cbea8b140f7a382ccb7ac30a7d6bcc8bbc4f968160021d6be731
  {
    var v := 0x8f07602cd009e6ccabc1a25642a7dcd28374c01dd2e197131136915896c8a46;
    e := e0;
    e, v := One(c, e, v, 0x4255d86fbc10253a88961173400b45a2997840c2d8f2e42e0b563cb1f16a75a1, 0x13fa4f6a1dc00510b82929a38944b44c71e736cc5d8f4b4b807552453424863);
    e, v := One(c, e, v, 0x2e6f1f4a2e8f5b34aa3b7228f09e1766a4808c9410519959b8de91355e1e0aec, 0x44c1818c389fd02b191b6e6561edaaa69b2110a8c858af314d4a0e8cd5a6932e);
    e, v := One(c, e, v, 0x2718c571cbd695d3b44154454ffe04ef815e26c01aa3938c68814ba2ef3fc5c7, 0x21b07deb3b8bc776c1213539e1fdaafabfa56d4ae281b40390cacfa31d751d9d);
    e, v := One(c, e, v, 0x4a7092a9de3e8c50291cf15f0358e81d7698548c905decbf21a7b3dc53715ea3, 0x17e23a3926e7c0c1c3cf46ecb8fa3cd3de802c47b9928eb9006dfa9ee927dfdb);
    e, v := One(c, e, v, 0x19112028e6a666ecea034c65f668804ddc0bb26843c958e843d5829c00283cc2, 0x5695192b7493483e95e7c0f2de8d17dc2c032672436b0ce7d9905ccc2bb46c10);
    e, v := One(c, e, v, 0x6fa832d70dc171f98a99ab0c0ae5c98fb58d4dffe0e132b63c6974141937d3a0, 0x9d165b51a158999bada2c0573ae3ec25fb22f7ba922a0d0c7a5392fe5379f08);
    e, v := One(c, e, v, 0x3b9cc3524e6bdb8580d278d115d042eaa7c19b2145a23a1197eb5466c460af7b, 0xc2cd2a650922130ea79d3c40ad11ae33c402c8377cb1546eb356b32028e4f7f9);
    e, v := One(c, e, v, 0x9420d4302987a6d9df5a9828552135e8b06145acef936fa0ee45505f81b09b0, 0x3786881a45ef2246e687bcc588708dba53e66aa1088eaba1d04ae2df01a21e4a);
    e, v := One(c, e, v, 0xfb674c11d5165ad50ad3f818e3b6e03122f6c55b38d0c24b17437393f5294e7, 0x156d7e635afbc22b79ab2f626aa4da08305c741f40d6b99b607a089bec1345d);
    e, v := One(c, e, v, 0x41364f9981abaf7ed0cf4072d21de43ed919ce6b91f7ba87de1062a5bf9326cc, 0x3db8ee365133797787bbc8b97fb8a9deed16027261a6e7a66ded4442712b3ae);
    e, v := One(c, e, v, 0x6e8b443ee73f81760bba50fb8987a46b178cc0f59a520968b5c355493f08eb1f, 0x42727fc6856ff6829aff6a82eb40b64cc3d3fe63e55c8b90e58a2a05549057e5);
    e, v := One(c, e, v, 0x44d61060e5a745fb450e39d473ed51a80622a81e57d908d7bc01aaca6e475c1b, 0xbeefe9a4f4ecb21a62c7c2e31d63de6695fcfe5f73b341b8ba1bdeb40b4a4a23);
    e, v := One(c, e, v, 0x677eb04e9118fd8f89fc608b94681b76569eb188e10d8e4dd67ae287f3397b36, 0x4a09aecb743448e1c3fe605c24bb1f685a9d5b45b31ea7f09588edda95a19cec);
    e, v := One(c, e, v, 0x58aba42e4ff91d81c01a58d4f77cd6fd004d7b444491f39399b41b1334e871ec, 0xa75cc244fe144108d1c873fe56eda669635811511e68130a5546cc6593e7eccc);
    e, v := One(c, e, v, 0x49e18973ed40d9c4baee4cbd0880ad1187fdbbf6c75548ef31f32fdf893027b4, 0x7ad9cfd25895e7ba8ee52ea1813f6e4db18b8f12b942ff5890cda5a37ef6839c);
    e, v := One(c, e, v, 0x2704c3e10709d430d475e31db14a20806722f9d1ce4ef6d074467e95893ea801, 0x55499c5c138d427dae976476445d9c9ae3de8a0a19d890f61a2676c08c19ffbb);
    e, v := One(c, e, v, 0x1cfd8f5e73a8137e72a282b6e51bd32d13941502179c6021e60b98daef64acab, 0x17c9cf15143735ef6bf5e979ec6389a7a6ebd0fdc02f253534459797384fafd3);
    e, v := One(c, e, v, 0x3d83e64e5f66f0a7120cd19cc6bcc5e6d8ecfdbe6146b367f4404e8775565829, 0xd21ca0569201a2469e09a653dbeeeae9954c88ed51bd4c1a7e6b97a38466a4d);
    e, v := One(c, e, v, 0x2cb0dcdf1750c74a72c61d2c4aee2c31267a745b38bb3b7abb76b16eae1c3f2b, 0x3b207edb737675d4a12bfd07b18183435ee8422460992f31a3045a14af7d40f3);
    e, v := One(c, e, v, 0x140e2289d512d6d81eeb317076f7d13fa3d8b4514a126bfe8fb07a824c91f6f8, 0x1f3518748550184054d2c2d161000f2140cb7955fb73e9b12a8b2aaa30fa6622);
    e, v := One(c, e, v, 0x453d5a4bde793099af854346b73877d52e3ba01ea494223118545560bef47c29, 0x648d8b5541c99c0142f5f846799250df9ccbba7af5de195c810d6d6414b04d3);
    e, v := One(c, e, v, 0x3012e63b6c18b7c3693e92e9c3106233077b5e5441117fd5e86880466bee868, 0x4ae8858437bb23755181bb99031fc20a4d5f47cac28e7b7ee21dccc94ed78c62);
    e, v := One(c, e, v, 0x1fd571ebc05fcae1e68fa278f24c5ac839dbf35344df44f90e67d83989dc71f3, 0x241c5eeddfcd31aa28bbda0c78cb4ad02c2451b52d981f03cf5022f501d921);
    e, v := One(c, e, v, 0x7f34c30f9811bde34280bc47bd61af35613f0c620ceec536039a9aaed9a1e2e9, 0xfd58e37765d2de68d28c3433d7a6a065518dfe7617226935fbe66aadf6a28ed);
    e, v := One(c, e, v, 0x59a50c8ac92d6c1b1d74ad1042757f7876ede60b4dcc07eeef43bb4de284a6c5, 0xfcd591a52f6090eb50012718e3e11441c22e20114d2e05eda63beb5a9aa36131);
    e, v := One(c, e, v, 0x65a33817ede08fc19cc044ef64107c7e45d457f2b921dcbe75f3805ba787fe84, 0x7d90b486ad98df47ea8a32336a7fc1732ad4bc0c2bcbe36f2f5e03d71d7869a6);
    e, v := One(c, e, v, 0x3d34c25bef575f5ec89a1c31afa52819670eddeb68d70039cf57fb0b07ee8470, 0xa168c94d71da5ed2c215af0d592ef6b719c00644a67b70f2cb2efb833ff81c70);
    e, v := One(c, e, v, 0x4f0dc24d1280e22b5677e07e2e1692d65b38f34c0a3a455ed74391ad158804e9, 0x3a88bdfd63e15ad97a229d710acbfc6f5299db6fda580affabe6b90684000893);
    e, v := One(c, e, v, 0x544b387e8b0bf858b63ba7d75d975896c092030aab333193987ff852c9ff0844, 0x61a5faa382e14fb4c5b38a2db3bb1884d2d76c69a0d2dad2b3b13e1f92e0c796);
    e, v := One(c, e, v, 0x1ebbd07684972aad18e11c8277bfd2a949e5d93766074f6e5cef38d06a75d9f4, 0x6f05ccb4c773bd808e1cd19b20d02be36a0efd688f42c62bcc3bcc9c34c9f55c);
    e, v := One(c, e, v, 0xc0f1634d8374d86a38d952f4b190e9be7f363e76149c1cdf118fa7beb5f2a21, 0xec23a97f7e7c4b4405fe35365fbca98e4ea253db3eb1ef976b7c3941996bd1b);
    e, v := One(c, e, v, 0x7a6631b5f9818a68739c79c8612a2b317d6af2ada13adcf65d975a2d6d2ad627, 0x245abe2418e97470e11c8a1344568d768d60de9b1836f3d2f6b0a62823a2a67);
    e, v := One(c, e, v, 0x301e9858b806dbef9859d3de521d70626ec2e9544f97179d507520c914a4b48d, 0xea1640b461e5d810d310e6158cb0e4ba02fb2ea83929cbc7946cab1182fcc009);
    e, v := One(c, e, v, 0xf2f6a58dd46d615b52e1a27f23fc57c53d0882b735d7314e8207e4cbdf363fd, 0x242df32551dcb5724ddbe9ef9dc01c4ec69890257cd713ccb464c56d5127e809);
    e, v := One(c, e, v, 0x2f9f4ca0ebdef08e4b2c1b47eb8c3e5d39e8531eeed698cff3777b231ec49036, 0x39a5cfa8af50cc2c1d1e0c12089df0811ef50714a19b1fae4e7cb30bd0e2bcc);
    e, v := One(c, e, v, 0x33895213d1fbf607c00497f8917082690d5273fa4efeae50f1e22e13fe56b49c, 0x236f850d75c331dc7cbf446728056df3c2fa2b2038305d5c60492b5220576d5c);
    e, v := One(c, e, v, 0x148d28ac5b29f124e1a419997ef15f5063cd09d6f9264b42a11fe0e953b5339b, 0x2980017364c75f0ab038d558acd4e37774f65d303a67710e15c0efbd9b1e31f9);
    e, v := One(c, e, v, 0x3a57b027d1608f19b2d6e16b321802f37b9f3f91f6de950ff8599b550ce841c9, 0x69970c30a4529a488426c98133d468063b6083c52fc0df6f0f589df944d5e6d);
    e, v := One(c, e, v, 0x5bec4671395f5c6d85b58812ee657cfe392ef79f082e5478a5233d2c326f28f1, 0x352f676cfc9b5a3c8fbaa8055906db34bf3fd31c534b335a239b5ca7c8d79155);
    e, v := One(c, e, v, 0x3ac4cdd312d5cbea8b140f7a382ccb7ac30a7d6bcc8bbc4f968160021d6be731, 0x84075099cbb6c3f08252b7b8a50c9d68bf0fbba454832c910248a5c768c13cb5);
  }

  lemma {:induction false} PowersPFullPart4(c: Base, e0: nat) returns (e: nat)
    requires Named(c) && c.n == P && c.a == 2 && c.pw(e0) == 0x3ac4cdd312d5cbea8b140f7a382ccb7ac30a7d6bcc8bbc4f968160021d6be731
    ensures e == 0x10000000000 * e0 + 0xffffffffff && c.pw(e) == 0x1871c6e332a5196c95e2e5ece5202f0e3e487500e26ea89098ad6bb20815283f
  {
    var v := 0x3ac4cdd312d5cbea8b140f7a382ccb7ac30a7d6bcc8bbc4f968160021d6be731;
    e := e0;
    e, v := One(c, e, v, 0x7ae707646eb04fc63bbfc4d75c67d8f1e3651e412773190df288fcc6455a98cd, 0x35f7123dd4e5c7e3f2426151aaf68cfb68908ebfd5067151985c438dc8f09d29);
    e, v := One(c, e, v, 0xfc82279aabcd068314b4875883a19654e0cb4f8bdadafa7b711fd9cd445cf8b, 0xec040e2843d9ceb4daa70f474060d2da077c8a0eaec31757cfc92a72f58e9d03);
    e, v := One(c, e, v, 0x2f3b44dea79ce22969e28248b9627f8f91e77d11704a21f5bd9aa16c283d5c6d, 0x3e442009305ca7b612f5f0ae8bcf972d43d7d722dac17ffb4875c79edc845f9);
    e, v := One(c, e, v, 0x3dc2fcec5787389c670713cb5c306627978b8b27aa31a5483214499f37b1b75b, 0x22db440a4acfa037b7d12624b84fba3034efbe10685da3b9fa7a8206c6951673);
    e, v := One(c, e, v, 0x4ea93f9ba68c0bba678eec3e96fe46fb7df781cbba81086aa0c538eb58ce32d4, 0x3b9a0433c73501c0335c050f76afb01b81e197c76efa4a6787a7b2071b49e196);
    e, v := One(c, e, v, 0x7fef81a7d01be5db858ac1e0c8d5efc4ecd03a62af63472a8cd83a1f81be6ed0, 0x60ae4a9f9334daa46bb6c4b982dd71add74321a8ecddb0d5707a112362b1a790);
    e, v := One(c, e, v, 0x5fdd5e93f03a3b9bcbfbbe91d05a9502ca36792712cac57d45781211c8d70173, 0xffbe0adf65f33f912675fc007c6b820b8c7da687700803808b54c967027ebf21);
    e, v := One(c, e, v, 0x22acf76b3be7a6899e078d568e1e78bf270d0142ac99d03a7b61b976edcced4b, 0x8f982e78eaa3dac451dc8f4e499a26be5940c20edfd508356829e0e83f211743);
    e, v := One(c, e, v, 0x365a1725c5975c06d6054245bba5080caf9e741df1be36a2c9c484bb07e33eb, 0x12c99a578c888821efb6e83bfa96b547a96c6cfaac77d27818ea4e7bfe2f7d43);
    e, v := One(c, e, v, 0x167eb50db4312cbccb615f9f22c396946da5645d8d40065bc39431fb4bb2646c, 0x2e2885e0e00a614dff9354dc28a2ee13b0193ef8c053ebfe95a78bef282e5e);
    e, v := One(c, e, v, 0x75b5965ba4a6f883e9c4b335ccbde1ca343ee2109612c2df1fb50465aaf123e8, 0x7e817545208d687478e8da5e74b3a7c341274b2224d3506a474ddd13c9ebd18);
    e, v := One(c, e, v, 0x1f038713c67d2518bcc84692fe012decb92b42b7926d186e422a34dc39eede93, 0xd87df0f6e99be418882febfe2baa4ab6dd7bc4bf57088446c4c98336e1617e01);
    e, v := One(c, e, v, 0xd68ede480676ed7b444ee1dd54f5f6d8d1b6c95e7a34a2f0a017a8e62257f94, 0xf076b0cef3b4b27a799648012b8424df286ac797f6df07cd8483c10c0064276);
    e, v := One(c, e, v, 0x24593c1ede8c9cebc7bde5f51882f592f3f9fe654fad85578b2ffb0ed50975a8, 0x2cf4cad6f0edc01cdc7934d45a3522238578766f4766208e389c1121a551c58);
    e, v := One(c, e, v, 0xdb23a9a95203b8ebb3e79ff8fcb4a85c01f68e00f5f51dfc2b7ceb7f8a4ebca, 0x14a4e00e28b317c9006713fe6072c0be4fc00e40e377a2d4cf6f755a3441a0ce);
    e, v := One(c, e, v, 0x1837a6306707fe8664adcd9044f21bfac2d28b059f26210909f9dd1deaae3ab, 0x2ee5824fe1c3f26b88e64e927c751ad868ac498d5a7a2b17df9701ba49019f1);
    e, v := One(c, e, v, 0x783184d066b2a94b29656756217afda85a9750736bc5ea19ed7533b4ec8c7c79, 0x929ed07a0024fb6ecb41502586e2032a0bcd5b40b8a899009b6ea9a2da2bd);
    e, v := One(c, e, v, 0x5b7fdc14c006017b416da389d0201482bbd63a94731ec0572f8c9789ff56b4e7, 0xe1b9d85df3d98aaa3ec188779cae3dd6b74b45cdcf010bbdb74f56d829232607);
    e, v := One(c, e, v, 0x7649359da7edf0f22fe305eb2964cf8a5365ec1e312cbca59d451d7c106f36c9, 0x82d0994b6939daeff14fcc7f6b5dc7d886162734b6b64919881d52eb8ea6855d);
    e, v := One(c, e, v, 0x41d10fb133fdc1f2125655bb0b3445b2530fc558333458971572934bcbca0338, 0xda9e4973d7cf21ca702add5393741d81a0332c93717ff87116dc0fc3cffc60d2);
    e, v := One(c, e, v, 0xe6edbaa58d2a38905a875d9f3083976bc15d323675d522adb4485c4ff31e51e, 0x43af52ca72cffe511b05b8cf3cf3603b3718fc4a318c96894c5d7ae6971260aa);
    e, v := One(c, e, v, 0x1c6b1de7d692a61dd9ea3bb2c7f5afdf0e7f0f2d4121cd69909090ff7691732a, 0x3414020926110e802f9a44711a8324ff40e4241776a3d6e545de0ac422ef396);
    e, v := One(c, e, v, 0x351cabb514e79da8af43f2299f9d85776fe1751c9d128c0bb89dcc83c3673bc2, 0xc9e6d72e8ef2dfe3b0dd75c9e682378cc53fbf513e61e52869cd280ca23755e);
    e, v := One(c, e, v, 0x51d223e61ac4eb6998d9771dc72c137e771bbfa62066c3693d01bc4af72df030, 0x2c13893bf5bf8fd94d4717fc4ec5b998af06934aa4813bec3f6c0269fa7a1a38);
    e, v := One(c, e, v, 0x5a98250d9544880a23d26a5dd2d5b8d77c3d8b656a12d3833856412238b0ee16, 0x689a9cda1df508c403eb6bf49dc867f18f1f715e16237fd93758da0255469252);
    e, v := One(c, e, v, 0x4357ed4a9250b4706959c7a5f7861c03d9c0892545c2be1841a72cca33181026, 0x803d51e649c97b9bf23052fc649d393140777be8ae1788038902739713fc89ea);
    e, v := One(c, e, v, 0x6acf703ef6f0238480649afbef9dbd593f396d92092d7c0e713f71033fec6d75, 0x46dc91a0b4e367bf4fb4d354ce26b5aca2ea8993030b6651e2aa606785745cbf);
    e, v := One(c, e, v, 0x359372836d876d8cf11dcad4311505f91463ff7e3760328a11dfdbd491a9f52c, 0xb241c42b6e25754750c9f45b094cef1ca0be16b4b413ddca2add755cea8f2c1e);
    e, v := One(c, e, v, 0x627a8fafe107c3e453ae6e8a686363cc2d7435f384e5013afe89027f0b24e376, 0x2cd9895c860cb7a842edf87b60028a3e2d5058d2cc6b804b2c8055dfcba67112);
    e, v := One(c, e, v, 0x76fdb306a2b03a98b631b569ff0a668731dab5fd49c13f1de50b3b021a2e2fb6, 0x978842bfb2498e7683db74790d30b7ddc13e5bd70adbec6c48cc6901b323031a);
    e, v := One(c, e, v, 0x46e144311c54583630c130ba66d4651d16e9e0db7a918eb9e7b7144877c64198, 0xdd3b71d5d929381c4d970ba8fa85a13b11e834e2e3d20e9a0e671aa90fbf07f0);
    e, v := One(c, e, v, 0x710082c4fbeeaec768b038f494b75ab8441daad98ce5d0be69893a78b35c2bd1, 0x4e7fde0f2ff033e570d1dfe3017094401730092b57bed8cdbddb959a0da85f8b);
    e, v := One(c, e, v, 0x6bca1a076b9e31319e5dbcf4e6686405641464d2c500127141feeaefa048f6f4, 0xc785cdc8a4d576f4c55e8cdeb17582866683fbe82ed4b9490a3ff6a394ad1dc6);
    e, v := One(c, e, v, 0x501800f54892d55acce34cad3ea1ecd34ad0d93a146792b88493f0f7877d17a2, 0xb58a453d294653613a4aae936ebb51d00d249c50bd1c5ba00687f2e269b663b6);
    e, v := One(c, e, v, 0x559e220cfeed955813fda85426acc15a6682fc8a8e4174dc749b7a4fef8d14ab, 0x643c0b65ed692f92facf1a47cd4df618ca2e854789cefb2c49fbeaca00914431);
    e, v := One(c, e, v, 0x648c665b35748c2785c9fbb33cd925375ee04d74845fa2923ce309776edc5500, 0x7289912ab76f9b435733553637b26c4796ad975f710853a269f0f3e11f181afa);
    e, v := One(c, e, v, 0x5f65072209ef98970ccfaeb6803ac24a4e619c630680c598217b9f523e30b216, 0x9df7f3dd79c950405dd2ed744ec868c6246b7c485a21418bf49f7127e2d42452);
    e, v := One(c, e, v, 0x6efc714204f46ad9d469f6d7584edc09d0a44a3fde49f7ecfd2c4e134bd30af8, 0x8e308ca791ba2d8104470d5bd725b1d617b9ebace0872a423e18f59f8cd19210);
    e, v := One(c, e, v, 0x4708fd1d49a240e8047cca68e2b902d9528690d5b30a54ae98ef0810e3d8078d, 0xc077a90fa15c99af8f64cd231381693e6c6d6a6e245e0b12fd219faa1c47205f);
    e, v := One(c, e, v, 0x1871c6e332a5196c95e2e5ece5202f0e3e487500e26ea89098ad6bb20815283f, 0x4ed7f2dc2bbe0424e4e2f574254e93c131af9e04f421004ebc4b97a28c9e7aff);
  }

  lemma {:induction false} PowersPFullPart5(c: Base, e0: nat) returns (e: nat)
    requires Named(c) && c.n == P && c.a == 2 && c.pw(e0) == 0x1871c6e332a5196c95e2e5ece5202f0e3e487500e26ea89098ad6bb20815283f
    ensures e == 0x10000000000 * e0 + 0xffffffffff && c.pw(e) == 0x5305614711bd445a0662d9534326de5c2d2e1a19210bd48a1981f8077e7f86e8
  {
    var v := 0x1871c6e332a5196c95e2e5ece5202f0e3e487500e26ea89098ad6bb20815283f;
    e := e0;
    e, v := One(c, e, v, 0xc2e403618925f6716b62058bf65f56ba5c250b4bfa9c33e606117002a009c64, 0x9561f6f225799fc306b510194cafda98c68a3096d011c9c1c6445a51b676d56);
    e, v := One(c, e, v, 0x56a07718b3fd3192ac8020bbd4b54f4df397d79ef160a42155ada0e4fa5a712f, 0x2517980d766950e0bf333a380f85bd80691226869f04e5994a36fb2a9db4895);
    e, v := One(c, e, v, 0x453244418555930b8eded0a348cc6bd25ea64c7c684ad86e5edf0418647e1483, 0x7540d266bcdc4e109565af12db984ff651d5fb405e1337e3b0794d9cb2700ddb);
    e, v := One(c, e, v, 0x236909bfd1f9b1b36201fbf7f2d5b32973dfa0f7f371f063d9abe52c1af57f25, 0x4ad08aa836ac593072330aadb667fbab1b651870e5553f1929c6deba0dc6f301);
    e, v := One(c, e, v, 0xf2ec932d1797488b4f7d6595a03d1990d50adbab1caecd189996f1f577ec927, 0x13978f0dcc8e47a57d097b23c339f76692ea1cb635124626ea62f35352150457);
    e, v := One(c, e, v, 0x5cd15c90e265bbca9f47a190c451de7df4766e3cdbe0477c38edfef94db0585, 0x39a108383c1695478b73ea7d75305e1488fd7114ca404d7854678bce942de31);
    e, v := One(c, e, v, 0x3c553aaf846c54946229033406f32bb64864b3c04ad33daee227581bdaedcc7b, 0x869c9701a30cf73b73e0f610043c09ac09b465d8651472b876b3feb49c0bb3);
    e, v := One(c, e, v, 0x36c8d57fe59cf5b50131893beff5f19a251093de6f438d8e769dbe66d5998e86, 0x38e03f893052dfb47decb4972ecd8a544de62c91c8ed6acb32174bcd050628dc);
    e, v := One(c, e, v, 0x6170fc5212282bff7bf89961957c7509ef0d26a1182e19b822f296a59008cf3c, 0x2ee55e80fb0c43945f7fc2c623da84977e872e675726d6bf401a18f9b29427bc);
    e, v := One(c, e, v, 0x7e31dcdea8843195c937622831b294ef2d7d252087fe190a58f2fcd28b830cf4, 0x945b444fc9100a33548ed7f2daec11206954423739683f057c9c038a1f64fe5c);
    e, v := One(c, e, v, 0x6caa96919a793352c65f64132a665a1887230380614199d0e087a9a94895b20, 0xf8d47c85e6b85ad95b5b0b2c54f412da73b534218d84aaa8537dcb2401ac4e00);
    e, v := One(c, e, v, 0x25e75686e9d058b44466fa9da9f7243791a29d901f525e7fa5764f717d9f2bea, 0xb88182dcb11980718fdc89faef137eeeb7d1f91b22044447d5e2c0f4daedae);
    e, v := One(c, e, v, 0x6ffd4c7762b25e8052a138d8dd4c56a4a16b4c292c90e36b78f6e2cd4192683, 0x1672c041113c6f5721706ffc402604f2d9b35ecc597be1de31fa7e98746797b9);
    e, v := One(c, e, v, 0x794c22ee8022654e58f5706e8a04cbfbe9de24a9846a8d69886836cd82670d3e, 0xc3f68bbf099b73238520ebd31328370d39c9836592a8045768b289d09ce1a4);
    e, v := One(c, e, v, 0x546248644e74a05bf53648b6a2871cf2cdf3779360705d25ebeae1b79b7b2204, 0xe5e43ea8de0341af6671b4fd10c386ae394f9cd8fc7913c8140e3cb2a6703b94);
    e, v := One(c, e, v, 0x5a0070bbdbaec550c34d7320f42ef3be93e9e22958c18d4119cf570add2717b7, 0x6f4294f55304b7d872be979d8c0c1667173cd8c450ada0f0848f8b4dc6f842ed);
    e, v := One(c, e, v, 0x1987ba8628bb48bac640e8a86a9475a6b6c758838824607a5270f18bfa0a9fae, 0x7e913d11206f33418f4782f50e65c60a342d4bd308d268e9f1cb8c95df7b0b44);
    e, v := One(c, e, v, 0x14368d620af9e06ea7258aad2cf532c97a181f3b9e5b997fc24a56ce9d0762ec, 0xa2f2991d56b0ce7ffc185075fd4d83eb7f2116866ecb3942078fd7ce7b7cc8c);
    e, v := One(c, e, v, 0xacbadb290a65f3a4834bee1aa9dd374b386c4dd6fa58e3e6acb980db153aeed, 0x66246dd14a3487e873a4f1f92a086c1f8e3cac886b196947330351f745f309f);
    e, v := One(c, e, v, 0x34b0237582fc32db8566225e50136ee4c161cbcfd89284ffe369393c3e6d952c, 0x1d22e7b8964ed67a77db1d50b329cf9abae2ef14c8f0881d4b6cc5900002f7e);
    e, v := One(c, e, v, 0x7d62b22f10521440e0413f6d168fa3039a2f3b8485961f5ae92b89fac7eca84e, 0x2b601e620ecf9cc43df2268a32f030d3177f6ceb54cb0f89927886713b88a3da);
    e, v := One(c, e, v, 0x2f20cd0b61a8f9d5f54493ef1a9bf3572691f44537768dc0394d1a9da50a5181, 0xf5a6203b77f887e0000db9ad0ba23736d9c9d0703df5dd8712f15294ed7acf43);
    e, v := One(c, e, v, 0x36662b1935aeba2ed9ca4092a29ca8eaf63264a1de78bdf68209818eb72a1e18, 0x22b43df853bec394bdd07e1ac37d763ed7c9ded4dd782ec6d3232fe702b0a652);
    e, v := One(c, e, v, 0x747d8bb9c7f2923092d6c754ca769a7efecf88b29093813f9d5db39b09c9d62d, 0x2e3d0bd407f7e1316c932c4b47add85e03a0517433df1fe01f406cc2aa42df3f);
    e, v := One(c, e, v, 0x1b4256e64cccd5a646be516473d8a528fd8b0c0b8469e1a430e1f4a6fc1bb51f, 0xd40810c87391754b301464b4cb1963a9c559c6192298fb217e0c17c07405891f);
    e, v := One(c, e, v, 0x5f3d73b11382bbf3bc19500498e41d4837b4f764c49f57ea2468b4039cf497, 0xb9c3e1601c965dbcd3a017048d428fda63bf2873f48c93ea77c2cb0f9cd6f37);
    e, v := One(c, e, v, 0x69a5f23f1a0449b1a391ccd60f956da930707f3378f6c03c2d3310d05ddf6fe0, 0x8dbaaa770c9b973fa38fe898000eea6df024bfa7098ba58a4c6e7cf85f0a);
    e, v := One(c, e, v, 0x2b1e68bccd8700dadc428a2a003bd709cdc40f60fe24ce63240205b8e4603beb, 0xae663127b7a9aae28cfdc6c916f6d873d606efbe3fe23df2b2dea4b0ccbde7c9);
    e, v := One(c, e, v, 0x253392fca6d90387fcbc0a72674718f9a9033b76341157cd8ed443031c998804, 0x1d0ceb309095e0a7b51a33f1ee0342d60e26e2094bfb7274ba08f98e85e5bf66);
    e, v := One(c, e, v, 0x484538b08925867f8331377131cb76ee94aa4bb0b07d610d78b6a5fc9d6ddfec, 0x159fcb83b52974949d0519f287a63c4e3b07cdde508574341a49e7b101dc1284);
    e, v := One(c, e, v, 0x535e83ebf0302eb958eb5bd781d648af9bd42d9771f1bf938d686dc874d77ea3, 0x519c0a6ba372fe7e09c93f98739589b7b89bb0dd7a3cb7f1485aa6fec50264d1);
    e, v := One(c, e, v, 0x48cbdcee84fc53ac5e5ec953add55b257eb1f2e0b0859fd7da3242f4b58f4a7, 0x6c99b1c08bfbcbcaa59f1171953cfe96a88206481428b98d79bcb9d0a0f90337);
    e, v := One(c, e, v, 0x2cc48846f44f9811078ed4f56630857241656016241e99536106b6a1afab0e2a, 0x52cd3a792efea82b8a10050d5b2285f28b3ef9d3deadf1300566b57605c398);
    e, v := One(c, e, v, 0x5e1ee569c6f05795cf0ef3a6086b1acf02d658e5238520e50defd5175652bc86, 0x1f5096e564b3b5972bb6ff880a1614a7985ef757bbb128e6c711cc0181ec4a0a);
    e, v := One(c, e, v, 0xc044534349a3c04887bdb6773ab62d7138332f7ddf2fc238833d5014dbeae58, 0x8a6ad0d101e629154e78238ed9a8458564f62a603f0a07ad3f2e09caa9ea57b0);
    e, v := One(c, e, v, 0x4ae8ab606b45876d92567cbc10aac8f0ff97fa18606940a1d04c884af5795b39, 0x2419a3c851525cb6b06e4a37e8cecd4f193e678d83885a5fe4d48e673837783);
    e, v := One(c, e, v, 0x710725894d325997603a56ef0998c9cd485ab6e2953f90ad0dceb0ef04813d3d, 0x57ad5a2b3e024fc14ce18a8fec2eaca7351b7e0b14624d024fda296887fc5219);
    e, v := One(c, e, v, 0x5f8d3e6839da7774898646dab878c348b669e49b6959a13450d0ba09f5f12cf3, 0xc79d3d5924a69733392ef64745f35a86b63665216da6440fd1f64cd68ed36abb);
    e, v := One(c, e, v, 0x7894996b30af4bcee3942feaeb7862c7a6d0ddafc3c3bb34cf47498e7e6e415c, 0x8ea888fca3da1713d386adbae2e7a8b52927b17dc8fada02ed7eeec8ae4b710e);
    e, v := One(c, e, v, 0x5305614711bd445a0662d9534326de5c2d2e1a19210bd48a1981f8077e7f86e8, 0xe32e9858f617bb5383ebbecd50b64b067137903ebeade3a4e899661e6a794118);
  }

  lemma {:induction false} PowersPFullPart6(c: Base, e0: nat) returns (e: nat)
    requires Named(c) && c.n == P && c.a == 2 && c.pw(e0) == 0x5305614711bd445a0662d9534326de5c2d2e1a19210bd48a1981f8077e7f86e8
    ensures e == 0x4000 * e0 + 0x3fec && c.pw(e) == 1
  {
    var v := 0x5305614711bd445a0662d9534326de5c2d2e1a19210bd48a1981f8077e7f86e8;
    e := e0;
    e, v := One(c, e, v, 0x868f06590bdfc693d9e5133cacf0b5e3c5aa6e68ceeef57b33c556d993d05f1, 0x6bb1f4c41cf96b8d46acaa43895fea9877c3f65b0ad882e16741d7c207ee30eb);
    e, v := One(c, e, v, 0x8779312ab35c954c3471c636fa99f2f0dae1343d935685a3a9c51f67b550086, 0x11ae82a3540474da982f4f6fe156f0b48e8a1eda8d0cb3d5c7ea361318b7eac);
    e, v := One(c, e, v, 0x27c4d02412c8b43b26650b2f6cf9526fbda8662a9aa6ddae1d1e93d9ead31626, 0x11ec42cea33ea4b112a3157d15aafc9b7442f7292dae3f07d47053a679fb66a);
    e, v := One(c, e, v, 0x4318c76c03527f54180d82e2b2c4d3840720d138a124a57cf83da4a363527785, 0x18b63ae978c23765bbe4e76bfc81e9b421d7484eb8778d9f6700885a63e7dc6f);
    e, v := One(c, e, v, 0x224c266e5e62e6688dce3bd1dc0985bd7d6d6ce48bead9727b81ed3b8adc8938, 0x4657eb22255ba36bcfdb2bd92aeec827df3af260acacc5a0fab4279abfd59da2);
    e, v := One(c, e, v, 0x487c219ffb57031e21906f937a56ad0727008f9add2e939d7868beb22bf4d65b, 0x12614370a17d0e1cbfc336d1666bc8beb652d5a2524dc95a6ba7ad38e72d3419);
    e, v := One(c, e, v, 0x38c96be353a2528c9d770a44bbf1f49aa37ddc973af2cf88d745ed3e1e28b81d, 0x52183c6a531c434a4ee491d0b8ce9d510898a0a38fd13d28ab5097c77de86e49);
    e, v := One(c, e, v, 0x394910df33187c3135f8ed9c8e2f9ca4b5e34655773473ddfc2d95fe064d642d, 0x3262f6b83420ab290f97cb82e22e159709b06db3f321ff795ec43f4c04630d59);
    e, v := One(c, e, v, 0x7f8c93ad10b56258d55fdaeefe606340a2aeb27fcc09f34af495e0b5be4f023c, 0x3346797814a2d10771eba85603db5a18894ed0544a94c546a397cb785a32c52e);
    e, v := Zero(c, e, v, 0x32c3972e911d2f7bb05f4b8c6db60e0038687a672696cc25eecf94076fb5c22b, 0x7f198f6f221ce84f341d33f8c1b0244edaf714b32277856e0069e5a835d2fcd9);
    e, v := One(c, e, v, 0x55c1924027e0ef8595a6804c9efdebd397a18c035697f23c62770d93a507504f, 0x2843f1f76ba1c2ae385be146a326819f04f1d528ee457c09225e52a1efa00c4f);
    e, v := One(c, e, v, 0x2b8324804fc1df0b2b4d00993dfbd7a72f431806ad2fe478c4ee1b274a0ea0b0, 0x72e875f1cb12f72192ba996f40b4daeb41098e96e9a9da0029e7326efb1b5a1a);
    e, v := Zero(c, e, v, 0x7fffffffffffffffffffffffffffffffffffffffffffffffffffffffffffffec, 0xecaa2e2f6a2302ccedb31ac05720688238ced2078f3eb0ec9f22e8f621972e4);
    e, v := Zero(c, e, v, 1, 0x7fffffffffffffffffffffffffffffffffffffffffffffffffffffffffffffeb);
  }

  lemma {:induction false} PowersPFull(c: Base)
    requires Named(c) && c.n == P && c.a == 2 && c.pw(1) == 2
    ensures c.pw(0x7fffffffffffffffffffffffffffffffffffffffffffffffffffffffffffffec) == 1
  {
    var e := 1;
    e := PowersPFullPart0(c, e);
    e := PowersPFullPart1(c, e);
    e := PowersPFullPart2(c, e);
    e := PowersPFullPart3(c, e);
    e := PowersPFullPart4(c, e);
    e := PowersPFullPart5(c, e);
    e := PowersPFullPart6(c, e);
  }

  lemma {:induction false} PrimeP()
    ensures IsPrime(P)
  {
    var n := P;
    SievedTwo(n);
    var c := TheBase(n, 2);
    TheBaseNamed(n, 2);
    PowersPOverQ1(c);
    PowersPFull(c);
    PrimeQ1();
    Factor(c, 2, 0xabaf8c6b094fd0f32c2ccabab864dbecd99144679c1adf804898fb2042b, 0xbedc4, 0xf1ba0c491eeef83c49fc1b744331bb096d4893142c187431f7b03e61a75a49, 0x7acaff384090e983b641a51e1df0807078e467d06ab8164555f0f7fd51653bdc, 0xe7e4af4bf4ae51c6996e39a9badd1eb5671824129a6d5e45ca50be7abc337b);
    SievedPrime(n, 0x1575f18d6129fa1e65859957570c9b7d9b32288cf3835bf009131f640856);
  }
}
