/** The certificate that 2 generates the multiplicative group modulo 2^255 - 19, and so that this is a
    prime. Each large prime rests on two smaller ones through Pocklington's test; the tables are the
    powers of 2 that the tests need. */
module Certificates {
  import opened Primes
  import opened PowersOfTwo

  lemma Prime2()
    ensures Prime(2)
  {
    TrialDivision(2, 2);
  }

  lemma Prime3()
    ensures Prime(3)
  {
    TrialDivision(3, 2);
  }

  lemma Prime103()
    ensures Prime(103)
  {
    assert forall d: nat :: 1 < d < 11 ==> 103 % d != 0;
    TrialDivision(103, 11);
  }

  lemma Prime127()
    ensures Prime(127)
  {
    assert forall d: nat :: 1 < d < 12 ==> 127 % d != 0;
    TrialDivision(127, 12);
  }

  lemma Prime353()
    ensures Prime(353)
  {
    assert forall d: nat :: 1 < d < 19 ==> 353 % d != 0;
    TrialDivision(353, 19);
  }

  lemma Prime991()
    ensures Prime(991)
  {
    assert forall d: nat :: 1 < d < 32 ==> 991 % d != 0;
    TrialDivision(991, 32);
  }

  lemma Prime65147()
    ensures Prime(65147)
  {
    assert forall d: nat :: 1 < d < 256 ==> 65147 % d != 0;
    TrialDivision(65147, 256);
  }

  lemma Prime75707()
    ensures Prime(75707)
  {
    assert forall d: nat :: 1 < d < 276 ==> 75707 % d != 0;
    TrialDivision(75707, 276);
  }

  /** Powers of 2 modulo 8574133. */
  lemma Prime24Table1()
    ensures Next(1, 2, 2, 4, 10, 0x400, 0x82d4b5)
    ensures Next(10, 0x400, 4, 16, 84, 0x4da2fd, 0x82d4b5)
    ensures Product(84, 0x4da2fd, 84, 0x4da2fd, 168, 0x4f28b9, 0x82d4b5)
    ensures Product(168, 0x4f28b9, 84, 0x4da2fd, 252, 0x47cf07, 0x82d4b5)
    ensures Product(252, 0x47cf07, 84, 0x4da2fd, 336, 0x3eae88, 0x82d4b5)
    ensures Product(336, 0x3eae88, 252, 0x47cf07, 588, 0x4c55e5, 0x82d4b5)
    ensures Next(84, 0x4da2fd, 336, 0x3eae88, 0x3f0, 0x507ee4, 0x82d4b5)
  {
  }

  lemma Prime24Table2()
    ensures Next(0x3f0, 0x507ee4, 588, 0x4c55e5, 0x21cc, 0x346cd1, 0x82d4b5)
    ensures Next(84, 0x4da2fd, 588, 0x4c55e5, 0x4ec, 0x7de876, 0x82d4b5)
    ensures Next(0x4ec, 0x7de876, 252, 0x47cf07, 0x285c, 0xb859c, 0x82d4b5)
    ensures Next(0x285c, 0xb859c, 588, 0x4c55e5, 0x1452c, 0x41f04d, 0x82d4b5)
    ensures Product(0x1452c, 0x41f04d, 0x1452c, 0x41f04d, 0x28a58, 0x742961, 0x82d4b5)
    ensures Product(0x28a58, 0x742961, 0x1452c, 0x41f04d, 0x3cf84, 0x1cd377, 0x82d4b5)
    ensures Product(0x3cf84, 0x1cd377, 0x1452c, 0x41f04d, 0x514b0, 0x6133f5, 0x82d4b5)
  {
  }

  lemma Prime24Table3()
    ensures Product(0x514b0, 0x6133f5, 0x3cf84, 0x1cd377, 0x8e434, 0x6d12be, 0x82d4b5)
    ensures Next(0x1452c, 0x41f04d, 0x514b0, 0x6133f5, 0xf3e10, 0x664ab2, 0x82d4b5)
    ensures Next(0xf3e10, 0x664ab2, 0x8e434, 0x6d12be, 0x82d4b4, 1, 0x82d4b5)
  {
  }

  lemma Prime24Powers()
    ensures IsPow(0x21cc, 0x346cd1, 0x82d4b5)
    ensures IsPow(0x1452c, 0x41f04d, 0x82d4b5)
    ensures IsPow(0x82d4b4, 1, 0x82d4b5)
  {
    hide Exp, IsPow, Next, Product;
    TableRules(0x82d4b5);
    Prime24Table1();
    Prime24Table2();
    Prime24Table3();
  }

  lemma Prime24()
    ensures Prime(0x82d4b5)
  {
    hide Exp, IsPow, Prime, Cong, Fits;
    Prime991();
    Prime103();
    Prime24Powers();
    Prime24Fits();
    Certified(0x82d4b5, 991, 103, 0x21cc, 0x1452c, 0x346cd1, 0x41f04d, 0xf79eb, 0x35e15b);
  }

  lemma Prime24Fits()
    ensures Fits(0x82d4b5, 991, 103, 0x21cc, 0x1452c, 0x346cd1, 0x41f04d, 0xf79eb, 0x35e15b)
  {
  }

  /** Powers of 2 modulo 1919519569386763. */
  lemma Prime51Table1()
    ensures Next(6, 64, 5, 32, 53, 0x4b8d417b58bd4, 0x6d1cafa129d0b)
    ensures Next(53, 0x4b8d417b58bd4, 6, 64, 430, 0x5dbc5c554ee6f, 0x6d1cafa129d0b)
    ensures Next(430, 0x5dbc5c554ee6f, 2, 4, 0xd72, 0x5b87917e941fa, 0x6d1cafa129d0b)
    ensures Next(0xd72, 0x5b87917e941fa, 7, 128, 0x6b97, 0x3edd61b7ac238, 0x6d1cafa129d0b)
    ensures Next(0x6b97, 0x3edd61b7ac238, 3, 8, 0x35cbb, 0x12e63a050be03, 0x6d1cafa129d0b)
    ensures Next(0x35cbb, 0x12e63a050be03, 6, 64, 0x1ae5de, 0x1427355804305, 0x6d1cafa129d0b)
    ensures Product(0x1ae5de, 0x1427355804305, 0x1ae5de, 0x1427355804305, 0x35cbbc, 0x2f4ed82a4d552, 0x6d1cafa129d0b)
  {
  }

  lemma Prime51Table2()
    ensures Product(0x35cbbc, 0x2f4ed82a4d552, 0x1ae5de, 0x1427355804305, 0x50b19a, 0x167351b8a7c34, 0x6d1cafa129d0b)
    ensures Product(0x50b19a, 0x167351b8a7c34, 0x1ae5de, 0x1427355804305, 0x6b9778, 0x21397efd5d106, 0x6d1cafa129d0b)
    ensures Product(0x6b9778, 0x21397efd5d106, 0x1ae5de, 0x1427355804305, 0x867d56, 0x16a22ef013e1e, 0x6d1cafa129d0b)
    ensures Product(0x867d56, 0x16a22ef013e1e, 0x1ae5de, 0x1427355804305, 0xa16334, 0x31d14480a0123, 0x6d1cafa129d0b)
    ensures Product(0xa16334, 0x31d14480a0123, 0x1ae5de, 0x1427355804305, 0xbc4912, 0x6be081447aebe, 0x6d1cafa129d0b)
    ensures Next(0x1ae5de, 0x1427355804305, 0xbc4912, 0x6be081447aebe, 0x1937802, 0x173c115888dc1, 0x6d1cafa129d0b)
    ensures Next(0x1937802, 0x173c115888dc1, 0xbc4912, 0x6be081447aebe, 0xd580922, 0x3c3ffdef7c0b1, 0x6d1cafa129d0b)
  {
  }

  lemma Prime51Table3()
    ensures Next(0x6b9778, 0x21397efd5d106, 0, 1, 0x35cbbc0, 0x59e5367ee6c5b, 0x6d1cafa129d0b)
    ensures Next(0x35cbbc0, 0x59e5367ee6c5b, 0x867d56, 0x16a22ef013e1e, 0x1b6c5b56, 0x1958c371e29b2, 0x6d1cafa129d0b)
    ensures Next(0x1b6c5b56, 0x1958c371e29b2, 0x867d56, 0x16a22ef013e1e, 0xdbe95806, 0x3b2a883e7101a, 0x6d1cafa129d0b)
    ensures Next(0xdbe95806, 0x3b2a883e7101a, 0x35cbbc, 0x2f4ed82a4d552, 0x6df808bec, 0x60818b97b4657, 0x6d1cafa129d0b)
    ensures Next(0x6df808bec, 0x60818b97b4657, 0x35cbbc, 0x2f4ed82a4d552, 0x36fc3a2b1c, 0x135d93681bc07, 0x6d1cafa129d0b)
    ensures Next(0x36fc3a2b1c, 0x135d93681bc07, 0xa16334, 0x31d14480a0123, 0x1b7e272bc14, 0x156af2278efd5, 0x6d1cafa129d0b)
    ensures Next(0x1b7e272bc14, 0x156af2278efd5, 0x867d56, 0x16a22ef013e1e, 0xdbf141c5df6, 0x20c92d89f364e, 0x6d1cafa129d0b)
  {
  }

  lemma Prime51Powers1()
    ensures IsPow(0xdbf141c5df6, 0x20c92d89f364e, 0x6d1cafa129d0b)
    ensures IsPow(0xd580922, 0x3c3ffdef7c0b1, 0x6d1cafa129d0b)
  {
    hide Exp, IsPow, Next, Product;
    TableRules(0x6d1cafa129d0b);
    Prime51Table1();
    Prime51Table2();
    Prime51Table3();
  }

  lemma Prime51Table4()
    ensures Product(0xdbf141c5df6, 0x20c92d89f364e, 0xdbf141c5df6, 0x20c92d89f364e, 0x1b7e2838bbec, 0x39f9bbd080fb6, 0x6d1cafa129d0b)
    ensures Product(0x1b7e2838bbec, 0x39f9bbd080fb6, 0xdbf141c5df6, 0x20c92d89f364e, 0x293d3c5519e2, 0x4d2fe94a48f17, 0x6d1cafa129d0b)
    ensures Product(0x293d3c5519e2, 0x4d2fe94a48f17, 0xdbf141c5df6, 0x20c92d89f364e, 0x36fc507177d8, 0x3203c04ce2db6, 0x6d1cafa129d0b)
    ensures Product(0x36fc507177d8, 0x3203c04ce2db6, 0xdbf141c5df6, 0x20c92d89f364e, 0x44bb648dd5ce, 0xe4a9adff121a, 0x6d1cafa129d0b)
    ensures Product(0x44bb648dd5ce, 0xe4a9adff121a, 0xdbf141c5df6, 0x20c92d89f364e, 0x527a78aa33c4, 0x17bbb7361d8f0, 0x6d1cafa129d0b)
    ensures Product(0x527a78aa33c4, 0x17bbb7361d8f0, 0xdbf141c5df6, 0x20c92d89f364e, 0x60398cc691ba, 0x2b2b91dd75da8, 0x6d1cafa129d0b)
    ensures Next(0xdbf141c5df6, 0x20c92d89f364e, 0x60398cc691ba, 0x2b2b91dd75da8, 0xce322da9816a, 0x475a982f66f0, 0x6d1cafa129d0b)
  {
  }

  lemma Prime51Table5()
    ensures Next(0xce322da9816a, 0x475a982f66f0, 0x60398cc691ba, 0x2b2b91dd75da8, 0x6d1cafa129d0a, 1, 0x6d1cafa129d0b)
  {
  }

  lemma Prime51Powers2()
    ensures IsPow(0xd580922, 0x3c3ffdef7c0b1, 0x6d1cafa129d0b)
    ensures IsPow(0xdbf141c5df6, 0x20c92d89f364e, 0x6d1cafa129d0b)
    ensures IsPow(0x6d1cafa129d0a, 1, 0x6d1cafa129d0b)
  {
    hide Exp, IsPow, Next, Product;
    Prime51Powers1();
    TableRules(0x6d1cafa129d0b);
    Prime51Table4();
    Prime51Table5();
  }

  lemma Prime51()
    ensures Prime(0x6d1cafa129d0b)
  {
    hide Exp, IsPow, Prime, Cong, Fits;
    Prime24();
    Prime127();
    Prime51Powers2();
    Prime51Fits();
    Certified(0x6d1cafa129d0b, 0x82d4b5, 127, 0xd580922, 0xdbf141c5df6, 0x3c3ffdef7c0b1, 0x20c92d89f364e, 0x495bef080ea35, 0x6a4e3f18a99bc);
  }

  lemma Prime51Fits()
    ensures Fits(0x6d1cafa129d0b, 0x82d4b5, 127, 0xd580922, 0xdbf141c5df6, 0x3c3ffdef7c0b1, 0x20c92d89f364e, 0x495bef080ea35, 0x6a4e3f18a99bc)
  {
  }

  /** Powers of 2 modulo 75445702479781427272750846543864801. */
  lemma Prime116Table1()
    ensures Next(1, 2, 6, 64, 14, 0x4000, 0xe87c2a477b815a1793787395b23e1)
    ensures Next(14, 0x4000, 6, 64, 118, 0x5e0f56e211fa97a1b21e31a93707c, 0xe87c2a477b815a1793787395b23e1)
    ensures Next(118, 0x5e0f56e211fa97a1b21e31a93707c, 0, 1, 944, 0x9a223301bc0d23e6d0a4b343e09ee, 0xe87c2a477b815a1793787395b23e1)
    ensures Next(944, 0x9a223301bc0d23e6d0a4b343e09ee, 2, 4, 0x1d82, 0x4593dbdc1f61900ece263585fb171, 0xe87c2a477b815a1793787395b23e1)
    ensures Next(0x1d82, 0x4593dbdc1f61900ece263585fb171, 6, 64, 0xec16, 0x7c5a2d4e7e98c6bef78a7bd0e31e5, 0xe87c2a477b815a1793787395b23e1)
    ensures Next(0xec16, 0x7c5a2d4e7e98c6bef78a7bd0e31e5, 6, 64, 0x760b6, 0xbfc6581fac259e3b7739ed696bf2, 0xe87c2a477b815a1793787395b23e1)
    ensures Next(0x760b6, 0xbfc6581fac259e3b7739ed696bf2, 5, 32, 0x3b05b5, 0x3ad9791bd37c43b222d2b1c95cd15, 0xe87c2a477b815a1793787395b23e1)
  {
  }

  lemma Prime116Table2()
    ensures Next(0x3b05b5, 0x3ad9791bd37c43b222d2b1c95cd15, 2, 4, 0x1d82daa, 0x706b9679528a8940b1a50a518ce1a, 0xe87c2a477b815a1793787395b23e1)
    ensures Next(0x1d82daa, 0x706b9679528a8940b1a50a518ce1a, 3, 8, 0xec16d53, 0xbcc49d26f7d015d1f870bb44d7b9d, 0xe87c2a477b815a1793787395b23e1)
    ensures Next(0xec16d53, 0xbcc49d26f7d015d1f870bb44d7b9d, 1, 2, 0x760b6a99, 0x4b8d04bf294b2e8e94e7cb960f91f, 0xe87c2a477b815a1793787395b23e1)
    ensures Next(0x760b6a99, 0x4b8d04bf294b2e8e94e7cb960f91f, 3, 8, 0x3b05b54cb, 0x7830e4efedc510231faa4dbec459d, 0xe87c2a477b815a1793787395b23e1)
    ensures Next(0x3b05b54cb, 0x7830e4efedc510231faa4dbec459d, 3, 8, 0x1d82daa65b, 0x4cfbfda8880655f4133e0367e70ad, 0xe87c2a477b815a1793787395b23e1)
    ensures Next(0x1d82daa65b, 0x4cfbfda8880655f4133e0367e70ad, 6, 64, 0xec16d532de, 0x4a0c9ba03d28c6a55286996da3d1d, 0xe87c2a477b815a1793787395b23e1)
    ensures Next(0xec16d532de, 0x4a0c9ba03d28c6a55286996da3d1d, 3, 8, 0x760b6a996f3, 0x9715965d108ab193a6edb3524741b, 0xe87c2a477b815a1793787395b23e1)
  {
  }

  lemma Prime116Table3()
    ensures Next(0x760b6a996f3, 0x9715965d108ab193a6edb3524741b, 4, 16, 0x3b05b54cb79c, 0x51d767104760f1e2745f203d03878, 0xe87c2a477b815a1793787395b23e1)
    ensures Next(0x3b05b54cb79c, 0x51d767104760f1e2745f203d03878, 0, 1, 0x1d82daa65bce0, 0xcd50d7e224063ed114117a57cb35f, 0xe87c2a477b815a1793787395b23e1)
    ensures Product(0x1d82daa65bce0, 0xcd50d7e224063ed114117a57cb35f, 0x1d82daa65bce0, 0xcd50d7e224063ed114117a57cb35f, 0x3b05b54cb79c0, 0xbbe3b6bd8488834935e0812c2cf6e, 0xe87c2a477b815a1793787395b23e1)
    ensures Product(0x3b05b54cb79c0, 0xbbe3b6bd8488834935e0812c2cf6e, 0x1d82daa65bce0, 0xcd50d7e224063ed114117a57cb35f, 0x58888ff3136a0, 0x8c877005db83b3b8e1a3dd607a64d, 0xe87c2a477b815a1793787395b23e1)
    ensures Product(0x58888ff3136a0, 0x8c877005db83b3b8e1a3dd607a64d, 0x58888ff3136a0, 0x8c877005db83b3b8e1a3dd607a64d, 0xb1111fe626d40, 0x9a49382e4efb110d2b4d41821ea98, 0xe87c2a477b815a1793787395b23e1)
    ensures Product(0xb1111fe626d40, 0x9a49382e4efb110d2b4d41821ea98, 0x1d82daa65bce0, 0xcd50d7e224063ed114117a57cb35f, 0xce93fa8c82a20, 0xc131a6f1fdbc4f0ccdf3f7a07f7e3, 0xe87c2a477b815a1793787395b23e1)
    ensures Next(0x3b05b54cb79c0, 0xbbe3b6bd8488834935e0812c2cf6e, 0x3b05b54cb79c0, 0xbbe3b6bd8488834935e0812c2cf6e, 0x213335fb2747c0, 0xc70e41bd1a56f8d05e754185b53dc, 0xe87c2a477b815a1793787395b23e1)
  {
  }

  lemma Prime116Powers1()
    ensures IsPow(0x213335fb2747c0, 0xc70e41bd1a56f8d05e754185b53dc, 0xe87c2a477b815a1793787395b23e1)
    ensures IsPow(0x58888ff3136a0, 0x8c877005db83b3b8e1a3dd607a64d, 0xe87c2a477b815a1793787395b23e1)
    ensures IsPow(0xb1111fe626d40, 0x9a49382e4efb110d2b4d41821ea98, 0xe87c2a477b815a1793787395b23e1)
    ensures IsPow(0xce93fa8c82a20, 0xc131a6f1fdbc4f0ccdf3f7a07f7e3, 0xe87c2a477b815a1793787395b23e1)
    ensures IsPow(0x1d82daa65bce0, 0xcd50d7e224063ed114117a57cb35f, 0xe87c2a477b815a1793787395b23e1)
    ensures IsPow(0x3b05b54cb79c0, 0xbbe3b6bd8488834935e0812c2cf6e, 0xe87c2a477b815a1793787395b23e1)
  {
    hide Exp, IsPow, Next, Product;
    TableRules(0xe87c2a477b815a1793787395b23e1);
    Prime116Table1();
    Prime116Table2();
    Prime116Table3();
  }

  lemma Prime116Table4()
    ensures Next(0x213335fb2747c0, 0xc70e41bd1a56f8d05e754185b53dc, 0x58888ff3136a0, 0x8c877005db83b3b8e1a3dd607a64d, 0x10f2238d86b74a0, 0x29608a7fe0d4fdb95e797593eb180, 0xe87c2a477b815a1793787395b23e1)
    ensures Next(0x10f2238d86b74a0, 0x29608a7fe0d4fdb95e797593eb180, 0xb1111fe626d40, 0x9a49382e4efb110d2b4d41821ea98, 0x88422d8c1be1240, 0x4a3519abd9897cb7500dc3e2d8ee0, 0xe87c2a477b815a1793787395b23e1)
    ensures Next(0x88422d8c1be1240, 0x4a3519abd9897cb7500dc3e2d8ee0, 0xce93fa8c82a20, 0xc131a6f1fdbc4f0ccdf3f7a07f7e3, 0x442e0005b6b8bc20, 0x44732ccc04bcba058262af989720f, 0xe87c2a477b815a1793787395b23e1)
    ensures Next(0x442e0005b6b8bc20, 0x44732ccc04bcba058262af989720f, 0x58888ff3136a0, 0x8c877005db83b3b8e1a3dd607a64d, 0x2217588b6b4f717a0, 0xaedd80ab27e8de3ca5f2fb22d5403, 0xe87c2a477b815a1793787395b23e1)
    ensures Product(0x58888ff3136a0, 0x8c877005db83b3b8e1a3dd607a64d, 0x1d82daa65bce0, 0xcd50d7e224063ed114117a57cb35f, 0x760b6a996f380, 0x7a0c8be5b615b057323ef5e851090, 0xe87c2a477b815a1793787395b23e1)
    ensures Product(0x760b6a996f380, 0x7a0c8be5b615b057323ef5e851090, 0x1d82daa65bce0, 0xcd50d7e224063ed114117a57cb35f, 0x938e453fcb060, 0x68f2ad2a47ecb5add18be144af1b9, 0xe87c2a477b815a1793787395b23e1)
    ensures Next(0xb1111fe626d40, 0x9a49382e4efb110d2b4d41821ea98, 0xb1111fe626d40, 0x9a49382e4efb110d2b4d41821ea98, 0x6399a1f175d740, 0x9cdae0e5a1c3eeb08633f265335b6, 0xe87c2a477b815a1793787395b23e1)
  {
  }

  lemma Prime116Table5()
    ensures Next(0x6399a1f175d740, 0x9cdae0e5a1c3eeb08633f265335b6, 0x760b6a996f380, 0x7a0c8be5b615b057323ef5e851090, 0x3242dc63545ad80, 0x347904fe3237559b90a2ffaa9a939, 0xe87c2a477b815a1793787395b23e1)
    ensures Next(0x3242dc63545ad80, 0x347904fe3237559b90a2ffaa9a939, 0x58888ff3136a0, 0x8c877005db83b3b8e1a3dd607a64d, 0x1926f6baa95ea2a0, 0xaeee16af279d34fb43b6e9c29526c, 0xe87c2a477b815a1793787395b23e1)
    ensures Next(0x1926f6baa95ea2a0, 0xaeee16af279d34fb43b6e9c29526c, 0x760b6a996f380, 0x7a0c8be5b615b057323ef5e851090, 0xc93f168bf48c0880, 0xd5733fc23af8a35da6a6fd6d7f63d, 0xe87c2a477b815a1793787395b23e1)
    ensures Next(0xc93f168bf48c0880, 0xd5733fc23af8a35da6a6fd6d7f63d, 0x938e453fcb060, 0x68f2ad2a47ecb5add18be144af1b9, 0x64a01ed43f85cf460, 0x37ff113054a9bca18b0da7a9483a3, 0xe87c2a477b815a1793787395b23e1)
    ensures Next(0x64a01ed43f85cf460, 0x37ff113054a9bca18b0da7a9483a3, 0x58888ff3136a0, 0x8c877005db83b3b8e1a3dd607a64d, 0x325014f2a8c218d9a0, 0x55c3fa4f0101cfe5cb2874c0c17a4, 0xe87c2a477b815a1793787395b23e1)
    ensures Next(0x325014f2a8c218d9a0, 0x55c3fa4f0101cfe5cb2874c0c17a4, 0xce93fa8c82a20, 0xc131a6f1fdbc4f0ccdf3f7a07f7e3, 0x19280b47e85b98ef720, 0x87375d4060eda557219ef20360fbb, 0xe87c2a477b815a1793787395b23e1)
    ensures Next(0x19280b47e85b98ef720, 0x87375d4060eda557219ef20360fbb, 0x3b05b54cb79c0, 0xbbe3b6bd8488834935e0812c2cf6e, 0xc9405a7a489214332c0, 0xb63700490d35a752ac254ce6f140, 0xe87c2a477b815a1793787395b23e1)
  {
  }

  lemma Prime116Table6()
    ensures Next(0xc9405a7a489214332c0, 0xb63700490d35a752ac254ce6f140, 0, 1, 0x64a02d3d24490a199600, 0x54659d0191e7ec6ca825f3eaaf696, 0xe87c2a477b815a1793787395b23e1)
    ensures Next(0x64a02d3d24490a199600, 0x54659d0191e7ec6ca825f3eaaf696, 0x760b6a996f380, 0x7a0c8be5b615b057323ef5e851090, 0x3250169f082fefa63a380, 0x51f4ee255fbd41c50a099bdb473bc, 0xe87c2a477b815a1793787395b23e1)
    ensures Next(0x3250169f082fefa63a380, 0x51f4ee255fbd41c50a099bdb473bc, 0x938e453fcb060, 0x68f2ad2a47ecb5add18be144af1b9, 0x19280b4f8d50dc2719cc60, 0x7d3281d17369f20a3136c0a865d56, 0xe87c2a477b815a1793787395b23e1)
    ensures Next(0x19280b4f8d50dc2719cc60, 0x7d3281d17369f20a3136c0a865d56, 0x1d82daa65bce0, 0xcd50d7e224063ed114117a57cb35f, 0xc9405a7c6c5f0ee3341fe0, 0xb6535c26a5e1a6a141185cc91e19d, 0xe87c2a477b815a1793787395b23e1)
    ensures Next(0xc9405a7c6c5f0ee3341fe0, 0xb6535c26a5e1a6a141185cc91e19d, 0xb1111fe626d40, 0x9a49382e4efb110d2b4d41821ea98, 0x64a02d3e36e098918036c40, 0x891d2bdeb4fdc9dc5bc7a8b1dea1b, 0xe87c2a477b815a1793787395b23e1)
    ensures Next(0x64a02d3e36e098918036c40, 0x891d2bdeb4fdc9dc5bc7a8b1dea1b, 0x760b6a996f380, 0x7a0c8be5b615b057323ef5e851090, 0x3250169f1b77acff69b25580, 0xcf8dd8439c13ebb89aae83d1bb8f5, 0xe87c2a477b815a1793787395b23e1)
    ensures Next(0x3250169f1b77acff69b25580, 0xcf8dd8439c13ebb89aae83d1bb8f5, 0x1d82daa65bce0, 0xcd50d7e224063ed114117a57cb35f, 0x19280b4f8dbbf4028f7f868e0, 0x1a5fe3dc6dfcf7518235f1afff479, 0xe87c2a477b815a1793787395b23e1)
  {
  }

  lemma Prime116Powers2()
    ensures IsPow(0x19280b4f8dbbf4028f7f868e0, 0x1a5fe3dc6dfcf7518235f1afff479, 0xe87c2a477b815a1793787395b23e1)
    ensures IsPow(0x58888ff3136a0, 0x8c877005db83b3b8e1a3dd607a64d, 0xe87c2a477b815a1793787395b23e1)
    ensures IsPow(0x2217588b6b4f717a0, 0xaedd80ab27e8de3ca5f2fb22d5403, 0xe87c2a477b815a1793787395b23e1)
  {
    hide Exp, IsPow, Next, Product;
    Prime116Powers1();
    TableRules(0xe87c2a477b815a1793787395b23e1);
    Prime116Table4();
    Prime116Table5();
    Prime116Table6();
  }

  lemma Prime116Table7()
    ensures Next(0x19280b4f8dbbf4028f7f868e0, 0x1a5fe3dc6dfcf7518235f1afff479, 0x58888ff3136a0, 0x8c877005db83b3b8e1a3dd607a64d, 0xc9405a7c6ddff89d0bef47da0, 0xb52295a2da9f8731db89340ad8f16, 0xe87c2a477b815a1793787395b23e1)
    ensures Product(0xc9405a7c6ddff89d0bef47da0, 0xb52295a2da9f8731db89340ad8f16, 0xc9405a7c6ddff89d0bef47da0, 0xb52295a2da9f8731db89340ad8f16, 0x19280b4f8dbbff13a17de8fb40, 0x3b62fbf0454bfca4ca95012ca0a4e, 0xe87c2a477b815a1793787395b23e1)
    ensures Product(0x19280b4f8dbbff13a17de8fb40, 0x3b62fbf0454bfca4ca95012ca0a4e, 0xc9405a7c6ddff89d0bef47da0, 0xb52295a2da9f8731db89340ad8f16, 0x25bc10f75499fe9d723cdd78e0, 0x192a4f7fe39cf2a756bb0a1d6643d, 0xe87c2a477b815a1793787395b23e1)
    ensures Product(0x25bc10f75499fe9d723cdd78e0, 0x192a4f7fe39cf2a756bb0a1d6643d, 0x25bc10f75499fe9d723cdd78e0, 0x192a4f7fe39cf2a756bb0a1d6643d, 0x4b7821eea933fd3ae479baf1c0, 0xddf8bfad83f2802fad346d23b5d31, 0xe87c2a477b815a1793787395b23e1)
    ensures Product(0x4b7821eea933fd3ae479baf1c0, 0xddf8bfad83f2802fad346d23b5d31, 0xc9405a7c6ddff89d0bef47da0, 0xb52295a2da9f8731db89340ad8f16, 0x580c27967011fcc4b538af6f60, 0x61cb77938da609739ab73ddbaadcd, 0xe87c2a477b815a1793787395b23e1)
    ensures Next(0x19280b4f8dbbff13a17de8fb40, 0x3b62fbf0454bfca4ca95012ca0a4e, 0x19280b4f8dbbff13a17de8fb40, 0x3b62fbf0454bfca4ca95012ca0a4e, 0xe26865cbfb9bf7b0ad6d30d540, 0xcfd659340de94c881dab80db7037e, 0xe87c2a477b815a1793787395b23e1)
    ensures Next(0xe26865cbfb9bf7b0ad6d30d540, 0xcfd659340de94c881dab80db7037e, 0x25bc10f75499fe9d723cdd78e0, 0x192a4f7fe39cf2a756bb0a1d6643d, 0x738ff3f573179bc22dda66422e0, 0xadc8d7fe15e40d703b1ef31a9a854, 0xe87c2a477b815a1793787395b23e1)
  {
  }

  lemma Prime116Table8()
    ensures Next(0x738ff3f573179bc22dda66422e0, 0xadc8d7fe15e40d703b1ef31a9a854, 0x4b7821eea933fd3ae479baf1c0, 0xddf8bfad83f2802fad346d23b5d31, 0x3a13721ca83501de51d1acdc08c0, 0xb9bb4aa8ec80f1b5aa6826013cdb6, 0xe87c2a477b815a1793787395b23e1)
    ensures Next(0x3a13721ca83501de51d1acdc08c0, 0xb9bb4aa8ec80f1b5aa6826013cdb6, 0x580c27967011fcc4b538af6f60, 0x61cb77938da609739ab73ddbaadcd, 0x1d0f39d0cd81820ef53429f8fb560, 0x70bf163d20d729e8374cd4e4286d6, 0xe87c2a477b815a1793787395b23e1)
    ensures Next(0x1d0f39d0cd81820ef53429f8fb560, 0x70bf163d20d729e8374cd4e4286d6, 0x25bc10f75499fe9d723cdd78e0, 0x192a4f7fe39cf2a756bb0a1d6643d, 0xe87c2a477b815a1793787395b23e0, 1, 0xe87c2a477b815a1793787395b23e1)
  {
  }

  lemma Prime116Powers3()
    ensures IsPow(0x2217588b6b4f717a0, 0xaedd80ab27e8de3ca5f2fb22d5403, 0xe87c2a477b815a1793787395b23e1)
    ensures IsPow(0xc9405a7c6ddff89d0bef47da0, 0xb52295a2da9f8731db89340ad8f16, 0xe87c2a477b815a1793787395b23e1)
    ensures IsPow(0xe87c2a477b815a1793787395b23e0, 1, 0xe87c2a477b815a1793787395b23e1)
  {
    hide Exp, IsPow, Next, Product;
    Prime116Powers2();
    TableRules(0xe87c2a477b815a1793787395b23e1);
    Prime116Table7();
    Prime116Table8();
  }

  lemma Prime116()
    ensures Prime(0xe87c2a477b815a1793787395b23e1)
  {
    hide Exp, IsPow, Prime, Cong, Fits;
    Prime51();
    Prime75707();
    Prime116Powers3();
    Prime116Fits();
    Certified(0xe87c2a477b815a1793787395b23e1, 0x6d1cafa129d0b, 0x127bb, 0x2217588b6b4f717a0, 0xc9405a7c6ddff89d0bef47da0, 0xaedd80ab27e8de3ca5f2fb22d5403, 0xb52295a2da9f8731db89340ad8f16, 0xe5e342b4c0a3d507894bab5f20e8b, 0x1bb0fee20f00433b82723f09a47f3);
  }

  lemma Prime116Fits()
    ensures Fits(0xe87c2a477b815a1793787395b23e1, 0x6d1cafa129d0b, 0x127bb, 0x2217588b6b4f717a0, 0xc9405a7c6ddff89d0bef47da0, 0xaedd80ab27e8de3ca5f2fb22d5403, 0xb52295a2da9f8731db89340ad8f16, 0xe5e342b4c0a3d507894bab5f20e8b, 0x1bb0fee20f00433b82723f09a47f3)
  {
  }

  /** Powers of 2 modulo the prime of 236 bits that divides 2^255 - 20. */
  lemma Prime236Table1()
    ensures Next(1, 2, 0, 1, 8, 256, 0xabaf8c6b094fd0f32c2ccabab864dbecd99144679c1adf804898fb2042b)
    ensures Next(8, 256, 4, 16, 68, 0x100000000000000000, 0xabaf8c6b094fd0f32c2ccabab864dbecd99144679c1adf804898fb2042b)
    ensures Next(68, 0x100000000000000000, 4, 16, 548, 0x640000000000, 0xabaf8c6b094fd0f32c2ccabab864dbecd99144679c1adf804898fb2042b)
    ensures Next(548, 0x640000000000, 3, 8, 0x1123, 0x2c68af0bb14000000000000000000000, 0xabaf8c6b094fd0f32c2ccabab864dbecd99144679c1adf804898fb2042b)
    ensures Next(0x1123, 0x2c68af0bb14000000000000000000000, 2, 4, 0x891a, 0x48fef4fed7feeb2406461b9cf8c71a019de6652b36d2870973f3941ec40, 0xabaf8c6b094fd0f32c2ccabab864dbecd99144679c1adf804898fb2042b)
    ensures Next(0x891a, 0x48fef4fed7feeb2406461b9cf8c71a019de6652b36d2870973f3941ec40, 1, 2, 0x448d1, 0x9030a361c1c44fc45efe10ee948151d103bba81ba56af915a38f578624d, 0xabaf8c6b094fd0f32c2ccabab864dbecd99144679c1adf804898fb2042b)
    ensures Next(0x448d1, 0x9030a361c1c44fc45efe10ee948151d103bba81ba56af915a38f578624d, 2, 4, 0x22468a, 0x85d6740f7401488c34b3e214685256dfb86bbbd3633138e4cb90e19985b, 0xabaf8c6b094fd0f32c2ccabab864dbecd99144679c1adf804898fb2042b)
  {
  }

  lemma Prime236Table2()
    ensures Next(0x22468a, 0x85d6740f7401488c34b3e214685256dfb86bbbd3633138e4cb90e19985b, 5, 32, 0x1123455, 0x75c97fdf44b4d64c82ea074078348c61e1f067c6fd0ddc7d5a671869cb9, 0xabaf8c6b094fd0f32c2ccabab864dbecd99144679c1adf804898fb2042b)
    ensures Next(0x1123455, 0x75c97fdf44b4d64c82ea074078348c61e1f067c6fd0ddc7d5a671869cb9, 2, 4, 0x891a2aa, 0x98c1b17628f2139d4aa90494a7c20a0fd38e5db8c490fc47cf36ecbb80c, 0xabaf8c6b094fd0f32c2ccabab864dbecd99144679c1adf804898fb2042b)
    ensures Next(0x891a2aa, 0x98c1b17628f2139d4aa90494a7c20a0fd38e5db8c490fc47cf36ecbb80c, 3, 8, 0x448d1553, 0x8fc69cb3770ca78e7c8165a5e75445f0007b34035c3f64e4fba476c414b, 0xabaf8c6b094fd0f32c2ccabab864dbecd99144679c1adf804898fb2042b)
    ensures Next(0x448d1553, 0x8fc69cb3770ca78e7c8165a5e75445f0007b34035c3f64e4fba476c414b, 1, 2, 0x22468aa99, 0x40c10c3e577f304ae91f6459eb04e4ef1b870b175f7ce2af58501359f0c, 0xabaf8c6b094fd0f32c2ccabab864dbecd99144679c1adf804898fb2042b)
    ensures Next(0x22468aa99, 0x40c10c3e577f304ae91f6459eb04e4ef1b870b175f7ce2af58501359f0c, 5, 32, 0x11234554cd, 0x41eddf3b2877650cd49bacdb82dab0c701f416de630bdc20b48237216ed, 0xabaf8c6b094fd0f32c2ccabab864dbecd99144679c1adf804898fb2042b)
    ensures Next(0x11234554cd, 0x41eddf3b2877650cd49bacdb82dab0c701f416de630bdc20b48237216ed, 2, 4, 0x891a2aa66a, 0x14b2ead6634fdb338716d9c8d82aac13fecb580265a06f0a27af1bfdd45, 0xabaf8c6b094fd0f32c2ccabab864dbecd99144679c1adf804898fb2042b)
    ensures Next(0x891a2aa66a, 0x14b2ead6634fdb338716d9c8d82aac13fecb580265a06f0a27af1bfdd45, 4, 16, 0x448d1553354, 0xa7c3757ccd36a117cae39997e86485b26cf5b7e5b63532c214a8af5e61e, 0xabaf8c6b094fd0f32c2ccabab864dbecd99144679c1adf804898fb2042b)
  {
  }

  lemma Prime236Table3()
    ensures Next(0x448d1553354, 0xa7c3757ccd36a117cae39997e86485b26cf5b7e5b63532c214a8af5e61e, 2, 4, 0x22468aa99aa2, 0x6ae4d15c7bddec3176576277b5d6e4dab49a81b530454e47d7c636fa6ee, 0xabaf8c6b094fd0f32c2ccabab864dbecd99144679c1adf804898fb2042b)
    ensures Next(0x22468aa99aa2, 0x6ae4d15c7bddec3176576277b5d6e4dab49a81b530454e47d7c636fa6ee, 2, 4, 0x11234554cd512, 0x99516a1b520af07356fc276f75d37ca023df01b8f8c1d26f146223fd4ee, 0xabaf8c6b094fd0f32c2ccabab864dbecd99144679c1adf804898fb2042b)
    ensures Next(0x11234554cd512, 0x99516a1b520af07356fc276f75d37ca023df01b8f8c1d26f146223fd4ee, 4, 16, 0x891a2aa66a894, 0xe76a7b8fb42a08911d3f44bb4bc8e85fea085d750d9bc4bcd4b74bbe3, 0xabaf8c6b094fd0f32c2ccabab864dbecd99144679c1adf804898fb2042b)
    ensures Next(0x891a2aa66a894, 0xe76a7b8fb42a08911d3f44bb4bc8e85fea085d750d9bc4bcd4b74bbe3, 6, 64, 0x448d15533544a6, 0x904616e509213d229c8d6addb35411b6903e8da9400db3db104753d4abf, 0xabaf8c6b094fd0f32c2ccabab864dbecd99144679c1adf804898fb2042b)
    ensures Next(0x448d15533544a6, 0x904616e509213d229c8d6addb35411b6903e8da9400db3db104753d4abf, 0, 1, 0x22468aa99aa2530, 0x3db7321b9be787e0bd99ffe0f4540273644953af7f75e64199851e40a0c, 0xabaf8c6b094fd0f32c2ccabab864dbecd99144679c1adf804898fb2042b)
    ensures Next(0x22468aa99aa2530, 0x3db7321b9be787e0bd99ffe0f4540273644953af7f75e64199851e40a0c, 7, 128, 0x11234554cd512987, 0x43cacf313f9053a5df1f52fc34e3da93c6348ca272fd210c5709e4afd07, 0xabaf8c6b094fd0f32c2ccabab864dbecd99144679c1adf804898fb2042b)
    ensures Next(0x11234554cd512987, 0x43cacf313f9053a5df1f52fc34e3da93c6348ca272fd210c5709e4afd07, 0, 1, 0x891a2aa66a894c38, 0x71c88e51b79f4e20b619f815d8560e92ef3fae2a11429996550c1b5b080, 0xabaf8c6b094fd0f32c2ccabab864dbecd99144679c1adf804898fb2042b)
  {
  }

  lemma Prime236Powers1()
    ensures IsPow(0x891a2aa66a894c38, 0x71c88e51b79f4e20b619f815d8560e92ef3fae2a11429996550c1b5b080, 0xabaf8c6b094fd0f32c2ccabab864dbecd99144679c1adf804898fb2042b)
  {
    hide Exp, IsPow, Next, Product;
    TableRules(0xabaf8c6b094fd0f32c2ccabab864dbecd99144679c1adf804898fb2042b);
    Prime236Table1();
    Prime236Table2();
    Prime236Table3();
  }

  lemma Prime236Table4()
    ensures Next(0x891a2aa66a894c38, 0x71c88e51b79f4e20b619f815d8560e92ef3fae2a11429996550c1b5b080, 5, 32, 0x448d15533544a61c5, 0x1f7f555dd313bbca2a2b7f6161ecfc57e70e07cc42948821412b9eef391, 0xabaf8c6b094fd0f32c2ccabab864dbecd99144679c1adf804898fb2042b)
    ensures Next(0x448d15533544a61c5, 0x1f7f555dd313bbca2a2b7f6161ecfc57e70e07cc42948821412b9eef391, 5, 32, 0x22468aa99aa2530e2d, 0x17ed414b657389c8f9eb48b6a001a70a1cfac8534fe1600d8a3b689315, 0xabaf8c6b094fd0f32c2ccabab864dbecd99144679c1adf804898fb2042b)
    ensures Next(0x22468aa99aa2530e2d, 0x17ed414b657389c8f9eb48b6a001a70a1cfac8534fe1600d8a3b689315, 3, 8, 0x11234554cd51298716b, 0x4c4430bc926e5fedcc78528400b3d9babdadd4bfaf6806deb5f2d38d2d4, 0xabaf8c6b094fd0f32c2ccabab864dbecd99144679c1adf804898fb2042b)
    ensures Next(0x11234554cd51298716b, 0x4c4430bc926e5fedcc78528400b3d9babdadd4bfaf6806deb5f2d38d2d4, 3, 8, 0x891a2aa66a894c38b5b, 0x52d0ab3cb34818f4ab0604ca70501a5e74802232a149d0ac88e6f280b92, 0xabaf8c6b094fd0f32c2ccabab864dbecd99144679c1adf804898fb2042b)
    ensures Next(0x891a2aa66a894c38b5b, 0x52d0ab3cb34818f4ab0604ca70501a5e74802232a149d0ac88e6f280b92, 3, 8, 0x448d15533544a61c5adb, 0x924da51c13b241c01efe3f8502128de64b45f28d386a131a08e52e7c7e6, 0xabaf8c6b094fd0f32c2ccabab864dbecd99144679c1adf804898fb2042b)
    ensures Next(0x448d15533544a61c5adb, 0x924da51c13b241c01efe3f8502128de64b45f28d386a131a08e52e7c7e6, 4, 16, 0x22468aa99aa2530e2d6dc, 0x87accbcc7536d4931203ea85de5cfcc64cfa3f3400a649562ea326ec0d1, 0xabaf8c6b094fd0f32c2ccabab864dbecd99144679c1adf804898fb2042b)
    ensures Next(0x22468aa99aa2530e2d6dc, 0x87accbcc7536d4931203ea85de5cfcc64cfa3f3400a649562ea326ec0d1, 4, 16, 0x11234554cd51298716b6e4, 0xf17b557b0f2412b62ce0c2d1901ba4d7879943ad2dab296807036d9dbe, 0xabaf8c6b094fd0f32c2ccabab864dbecd99144679c1adf804898fb2042b)
  {
  }

  lemma Prime236Table5()
    ensures Next(0x11234554cd51298716b6e4, 0xf17b557b0f2412b62ce0c2d1901ba4d7879943ad2dab296807036d9dbe, 4, 16, 0x891a2aa66a894c38b5b724, 0x3c751f78112bf717eabd7d622c1ea3bc4e1a2127ae93f78d7774d47aa76, 0xabaf8c6b094fd0f32c2ccabab864dbecd99144679c1adf804898fb2042b)
    ensures Next(0x891a2aa66a894c38b5b724, 0x3c751f78112bf717eabd7d622c1ea3bc4e1a2127ae93f78d7774d47aa76, 1, 2, 0x448d15533544a61c5adb921, 0xe2f45b1c057f5bded736a2acbc584fc4bf3866f79eb0a8baf4064ab7d8, 0xabaf8c6b094fd0f32c2ccabab864dbecd99144679c1adf804898fb2042b)
    ensures Next(0x448d15533544a61c5adb921, 0xe2f45b1c057f5bded736a2acbc584fc4bf3866f79eb0a8baf4064ab7d8, 4, 16, 0x22468aa99aa2530e2d6dc90c, 0x6d99e61393d27ad90da2cc1516edfcc171a192269fbb0a9a229984b5d55, 0xabaf8c6b094fd0f32c2ccabab864dbecd99144679c1adf804898fb2042b)
    ensures Next(0x22468aa99aa2530e2d6dc90c, 0x6d99e61393d27ad90da2cc1516edfcc171a192269fbb0a9a229984b5d55, 5, 32, 0x11234554cd51298716b6e4865, 0x71655bb9f6b7f4077f8d8f9dfe521d5a6be023f838767b825f963c36ca, 0xabaf8c6b094fd0f32c2ccabab864dbecd99144679c1adf804898fb2042b)
    ensures Next(0x11234554cd51298716b6e4865, 0x71655bb9f6b7f4077f8d8f9dfe521d5a6be023f838767b825f963c36ca, 3, 8, 0x891a2aa66a894c38b5b72432b, 0x70294a2435bb4ba194e3b205e3dadffd7fff494f2f430824793af7a5c9, 0xabaf8c6b094fd0f32c2ccabab864dbecd99144679c1adf804898fb2042b)
    ensures Next(0x891a2aa66a894c38b5b72432b, 0x70294a2435bb4ba194e3b205e3dadffd7fff494f2f430824793af7a5c9, 7, 128, 0x448d15533544a61c5adb92195f, 0x29965f00d82d2c9716b628dbbe8bd99fcffb6919c65b5ff47e6f394a776, 0xabaf8c6b094fd0f32c2ccabab864dbecd99144679c1adf804898fb2042b)
    ensures Next(0x448d15533544a61c5adb92195f, 0x29965f00d82d2c9716b628dbbe8bd99fcffb6919c65b5ff47e6f394a776, 6, 64, 0x22468aa99aa2530e2d6dc90cafe, 0x6f7a2c3c7c10cb3cd6da0f3959fd0aec15913005b93ff56da0a87f026c2, 0xabaf8c6b094fd0f32c2ccabab864dbecd99144679c1adf804898fb2042b)
  {
  }

  lemma Prime236Table6()
    ensures Next(0x22468aa99aa2530e2d6dc90cafe, 0x6f7a2c3c7c10cb3cd6da0f3959fd0aec15913005b93ff56da0a87f026c2, 5, 32, 0x11234554cd51298716b6e48657f5, 0x263331faa68898961973bcfa58cf94d03cd2624237d87151f996bde17bf, 0xabaf8c6b094fd0f32c2ccabab864dbecd99144679c1adf804898fb2042b)
    ensures Next(0x11234554cd51298716b6e48657f5, 0x263331faa68898961973bcfa58cf94d03cd2624237d87151f996bde17bf, 2, 4, 0x891a2aa66a894c38b5b72432bfaa, 0x3b8bff09155618f62e824b83b881dfd51d8898dc0ca80d9be95a7329c16, 0xabaf8c6b094fd0f32c2ccabab864dbecd99144679c1adf804898fb2042b)
    ensures Product(0x891a2aa66a894c38b5b72432bfaa, 0x3b8bff09155618f62e824b83b881dfd51d8898dc0ca80d9be95a7329c16, 0x891a2aa66a894c38b5b72432bfaa, 0x3b8bff09155618f62e824b83b881dfd51d8898dc0ca80d9be95a7329c16, 0x11234554cd51298716b6e48657f54, 0x5c474b80cb6bdb82336f06b82c49b52ec4fa2aae188147c000cdcd7b1dc, 0xabaf8c6b094fd0f32c2ccabab864dbecd99144679c1adf804898fb2042b)
    ensures Product(0x11234554cd51298716b6e48657f54, 0x5c474b80cb6bdb82336f06b82c49b52ec4fa2aae188147c000cdcd7b1dc, 0x891a2aa66a894c38b5b72432bfaa, 0x3b8bff09155618f62e824b83b881dfd51d8898dc0ca80d9be95a7329c16, 0x19b4e7ff33f9be4aa21256c983efe, 0x633a246917fe3ff1f8c4ba0a1cfc32558222fe3893ef5ba7d07a8be8b9c, 0xabaf8c6b094fd0f32c2ccabab864dbecd99144679c1adf804898fb2042b)
    ensures Product(0x19b4e7ff33f9be4aa21256c983efe, 0x633a246917fe3ff1f8c4ba0a1cfc32558222fe3893ef5ba7d07a8be8b9c, 0x891a2aa66a894c38b5b72432bfaa, 0x3b8bff09155618f62e824b83b881dfd51d8898dc0ca80d9be95a7329c16, 0x22468aa99aa2530e2d6dc90cafea8, 0x612e3919f7de85ecdbf180f61f7d77f4308d480fd3cd150362dd5adac26, 0xabaf8c6b094fd0f32c2ccabab864dbecd99144679c1adf804898fb2042b)
    ensures Product(0x22468aa99aa2530e2d6dc90cafea8, 0x612e3919f7de85ecdbf180f61f7d77f4308d480fd3cd150362dd5adac26, 0x891a2aa66a894c38b5b72432bfaa, 0x3b8bff09155618f62e824b83b881dfd51d8898dc0ca80d9be95a7329c16, 0x2ad82d54014ae7d1b8c93b4fdbe52, 0x6e39ccc21236fe3b357a5db0e91733ba08097e9b6450221207cf7a05a38, 0xabaf8c6b094fd0f32c2ccabab864dbecd99144679c1adf804898fb2042b)
    ensures Next(0x2ad82d54014ae7d1b8c93b4fdbe52, 0x6e39ccc21236fe3b357a5db0e91733ba08097e9b6450221207cf7a05a38, 0x22468aa99aa2530e2d6dc90cafea8, 0x612e3919f7de85ecdbf180f61f7d77f4308d480fd3cd150362dd5adac26, 0x17907f549a4f9919bf3b7a38b8f138, 0xc3fa0126db592fc42bebf0199fd8654996dfdc0df719c68b8da11a5a6a, 0xabaf8c6b094fd0f32c2ccabab864dbecd99144679c1adf804898fb2042b)
  {
  }

  lemma Prime236Powers2()
    ensures IsPow(0x17907f549a4f9919bf3b7a38b8f138, 0xc3fa0126db592fc42bebf0199fd8654996dfdc0df719c68b8da11a5a6a, 0xabaf8c6b094fd0f32c2ccabab864dbecd99144679c1adf804898fb2042b)
    ensures IsPow(0x891a2aa66a894c38b5b72432bfaa, 0x3b8bff09155618f62e824b83b881dfd51d8898dc0ca80d9be95a7329c16, 0xabaf8c6b094fd0f32c2ccabab864dbecd99144679c1adf804898fb2042b)
    ensures IsPow(0x2ad82d54014ae7d1b8c93b4fdbe52, 0x6e39ccc21236fe3b357a5db0e91733ba08097e9b6450221207cf7a05a38, 0xabaf8c6b094fd0f32c2ccabab864dbecd99144679c1adf804898fb2042b)
    ensures IsPow(0x19b4e7ff33f9be4aa21256c983efe, 0x633a246917fe3ff1f8c4ba0a1cfc32558222fe3893ef5ba7d07a8be8b9c, 0xabaf8c6b094fd0f32c2ccabab864dbecd99144679c1adf804898fb2042b)
    ensures IsPow(0x11234554cd51298716b6e48657f54, 0x5c474b80cb6bdb82336f06b82c49b52ec4fa2aae188147c000cdcd7b1dc, 0xabaf8c6b094fd0f32c2ccabab864dbecd99144679c1adf804898fb2042b)
    ensures IsPow(0x22468aa99aa2530e2d6dc90cafea8, 0x612e3919f7de85ecdbf180f61f7d77f4308d480fd3cd150362dd5adac26, 0xabaf8c6b094fd0f32c2ccabab864dbecd99144679c1adf804898fb2042b)
  {
    hide Exp, IsPow, Next, Product;
    Prime236Powers1();
    TableRules(0xabaf8c6b094fd0f32c2ccabab864dbecd99144679c1adf804898fb2042b);
    Prime236Table4();
    Prime236Table5();
    Prime236Table6();
  }

  lemma Prime236Table7()
    ensures Next(0x17907f549a4f9919bf3b7a38b8f138, 0xc3fa0126db592fc42bebf0199fd8654996dfdc0df719c68b8da11a5a6a, 0x891a2aa66a894c38b5b72432bfaa, 0x3b8bff09155618f62e824b83b881dfd51d8898dc0ca80d9be95a7329c16, 0xbd0d14cf78e7521a329188e9fa496a, 0xa118eb0f9d8184bab59e8e45df736d65fba3c64f4aa855bc8921ac18308, 0xabaf8c6b094fd0f32c2ccabab864dbecd99144679c1adf804898fb2042b)
    ensures Product(0x2ad82d54014ae7d1b8c93b4fdbe52, 0x6e39ccc21236fe3b357a5db0e91733ba08097e9b6450221207cf7a05a38, 0x891a2aa66a894c38b5b72432bfaa, 0x3b8bff09155618f62e824b83b881dfd51d8898dc0ca80d9be95a7329c16, 0x3369cffe67f37c954424ad9307dfc, 0x524e23e8199fe84701a7daaceee7abe7da79a6f2246f1a2833945fe05dc, 0xabaf8c6b094fd0f32c2ccabab864dbecd99144679c1adf804898fb2042b)
    ensures Product(0x3369cffe67f37c954424ad9307dfc, 0x524e23e8199fe84701a7daaceee7abe7da79a6f2246f1a2833945fe05dc, 0x891a2aa66a894c38b5b72432bfaa, 0x3b8bff09155618f62e824b83b881dfd51d8898dc0ca80d9be95a7329c16, 0x3bfb72a8ce9c1158cf801fd633da6, 0x21e1e0d390ff92d4729e215650a2af7caf46e9c0f97f3bc6032651687f6, 0xabaf8c6b094fd0f32c2ccabab864dbecd99144679c1adf804898fb2042b)
    ensures Next(0x19b4e7ff33f9be4aa21256c983efe, 0x633a246917fe3ff1f8c4ba0a1cfc32558222fe3893ef5ba7d07a8be8b9c, 0x2ad82d54014ae7d1b8c93b4fdbe52, 0x6e39ccc21236fe3b357a5db0e91733ba08097e9b6450221207cf7a05a38, 0xf87f6d4da118da26c95bf19bfb642, 0x3546566fb06b43983c0c27c56028234d4476f40205a679f7e63143d4f74, 0xabaf8c6b094fd0f32c2ccabab864dbecd99144679c1adf804898fb2042b)
    ensures Next(0xf87f6d4da118da26c95bf19bfb642, 0x3546566fb06b43983c0c27c56028234d4476f40205a679f7e63143d4f74, 0, 1, 0x7c3fb6a6d08c6d1364adf8cdfdb210, 0x602f2cd6c47f61e85de71e9b3d8114fa1d8f2f5e8c8dee82c7ffd99edc0, 0xabaf8c6b094fd0f32c2ccabab864dbecd99144679c1adf804898fb2042b)
    ensures Next(0x7c3fb6a6d08c6d1364adf8cdfdb210, 0x602f2cd6c47f61e85de71e9b3d8114fa1d8f2f5e8c8dee82c7ffd99edc0, 0x19b4e7ff33f9be4aa21256c983efe, 0x633a246917fe3ff1f8c4ba0a1cfc32558222fe3893ef5ba7d07a8be8b9c, 0x3e39903b677a3047fcf90ebdc85cf7e, 0x2661eb5507d0354ea35a0f865d6feaa0f6346b10e119297c0239a2f075d, 0xabaf8c6b094fd0f32c2ccabab864dbecd99144679c1adf804898fb2042b)
    ensures Next(0x3e39903b677a3047fcf90ebdc85cf7e, 0x2661eb5507d0354ea35a0f865d6feaa0f6346b10e119297c0239a2f075d, 0x3bfb72a8ce9c1158cf801fd633da6, 0x21e1e0d390ff92d4729e215650a2af7caf46e9c0f97f3bc6032651687f6, 0x1f2087d4de4a01e514097f60e191b996, 0x6de2c09d5852a00781c3fc24def85ce6b03a4a2c513bd5334c46eb6938f, 0xabaf8c6b094fd0f32c2ccabab864dbecd99144679c1adf804898fb2042b)
  {
  }

  lemma Prime236Table8()
    ensures Next(0x1f2087d4de4a01e514097f60e191b996, 0x6de2c09d5852a00781c3fc24def85ce6b03a4a2c513bd5334c46eb6938f, 0, 1, 0xf9043ea6f2500f28a04bfb070c8dccb0, 0x2527f05dcdecd11e1b3dd27ca768237e12f73d4f54494391f4ed5de526b, 0xabaf8c6b094fd0f32c2ccabab864dbecd99144679c1adf804898fb2042b)
    ensures Next(0xf9043ea6f2500f28a04bfb070c8dccb0, 0x2527f05dcdecd11e1b3dd27ca768237e12f73d4f54494391f4ed5de526b, 0x11234554cd51298716b6e48657f54, 0x5c474b80cb6bdb82336f06b82c49b52ec4fa2aae188147c000cdcd7b1dc, 0x7c823076be7cd4e579ad143a6acd3e4d4, 0x290c076c1b638070b4be9a91420a12ccd31cd3a2cb0826653287c20d36c, 0xabaf8c6b094fd0f32c2ccabab864dbecd99144679c1adf804898fb2042b)
    ensures Next(0x7c823076be7cd4e579ad143a6acd3e4d4, 0x290c076c1b638070b4be9a91420a12ccd31cd3a2cb0826653287c20d36c, 0x2ad82d54014ae7d1b8c93b4fdbe52, 0x6e39ccc21236fe3b357a5db0e91733ba08097e9b6450221207cf7a05a38, 0x3e411ae8e213aa876b53a5a9c91b9ce4f2, 0x8b98b0d9c780d0a4c445c37f1209529910a31413ee8493e12816315a777, 0xabaf8c6b094fd0f32c2ccabab864dbecd99144679c1adf804898fb2042b)
    ensures Next(0x3e411ae8e213aa876b53a5a9c91b9ce4f2, 0x8b98b0d9c780d0a4c445c37f1209529910a31413ee8493e12816315a777, 0x891a2aa66a894c38b5b72432bfaa, 0x3b8bff09155618f62e824b83b881dfd51d8898dc0ca80d9be95a7329c16, 0x1f208d7d02ac7faa5e3e96604000119e73a, 0x1e57a8ecf5906fbd5934aa84725358e73d421ad6ae3716bddc674f6cf4a, 0xabaf8c6b094fd0f32c2ccabab864dbecd99144679c1adf804898fb2042b)
    ensures Next(0x1f208d7d02ac7faa5e3e96604000119e73a, 0x1e57a8ecf5906fbd5934aa84725358e73d421ad6ae3716bddc674f6cf4a, 0, 1, 0xf9046be81563fd52f1f4b30200008cf39d0, 0x18e19241635583aeea03ff03b9d6412f7db22121af9c2ebb26d55b9e49d, 0xabaf8c6b094fd0f32c2ccabab864dbecd99144679c1adf804898fb2042b)
    ensures Next(0xf9046be81563fd52f1f4b30200008cf39d0, 0x18e19241635583aeea03ff03b9d6412f7db22121af9c2ebb26d55b9e49d, 0x3bfb72a8ce9c1158cf801fd633da6, 0x21e1e0d390ff92d4729e215650a2af7caf46e9c0f97f3bc6032651687f6, 0x7c8235f7ca69293662bb6f0df80243dd0c26, 0x3e86b394d2e2166842bd2f105760c1b43981937eb5599281076fc8d6cb9, 0xabaf8c6b094fd0f32c2ccabab864dbecd99144679c1adf804898fb2042b)
    ensures Next(0x7c8235f7ca69293662bb6f0df80243dd0c26, 0x3e86b394d2e2166842bd2f105760c1b43981937eb5599281076fc8d6cb9, 0x19b4e7ff33f9be4aa21256c983efe, 0x633a246917fe3ff1f8c4ba0a1cfc32558222fe3893ef5ba7d07a8be8b9c, 0x3e411afbfee97c9a655775d19e1378b80a02e, 0x333d977c7c0825a538697e267702e8ff075ec1677e4c9e3d88a0f9ea515, 0xabaf8c6b094fd0f32c2ccabab864dbecd99144679c1adf804898fb2042b)
  {
  }

  lemma Prime236Table9()
    ensures Next(0x3e411afbfee97c9a655775d19e1378b80a02e, 0x333d977c7c0825a538697e267702e8ff075ec1677e4c9e3d88a0f9ea515, 0x3369cffe67f37c954424ad9307dfc, 0x524e23e8199fe84701a7daaceee7abe7da79a6f2246f1a2833945fe05dc, 0x1f208d7e02ab5b4d192af2b2234c0735357f6c, 0x58dd4edaf529368444c022a1b9d2a1119cbd3b6df30db674135c4aa1c9c, 0xabaf8c6b094fd0f32c2ccabab864dbecd99144679c1adf804898fb2042b)
    ensures Next(0x1f208d7e02ab5b4d192af2b2234c0735357f6c, 0x58dd4edaf529368444c022a1b9d2a1119cbd3b6df30db674135c4aa1c9c, 0x3bfb72a8ce9c1158cf801fd633da6, 0x21e1e0d390ff92d4729e215650a2af7caf46e9c0f97f3bc6032651687f6, 0xf9046bf0191a9193564156a6a7583ba70f3906, 0x4e95f8fade50ddc8c0ba3ba2191016234b4576815c0265458de0b963378, 0xabaf8c6b094fd0f32c2ccabab864dbecd99144679c1adf804898fb2042b)
    ensures Next(0xf9046bf0191a9193564156a6a7583ba70f3906, 0x4e95f8fade50ddc8c0ba3ba2191016234b4576815c0265458de0b963378, 0, 1, 0x7c8235f80c8d48c9ab20ab5353ac1dd3879c830, 0x1ba7ba9e23faad2c7ef84441e15f8b6e378e2332c7bad2f9de3a542a2ac, 0xabaf8c6b094fd0f32c2ccabab864dbecd99144679c1adf804898fb2042b)
    ensures Next(0x7c8235f80c8d48c9ab20ab5353ac1dd3879c830, 0x1ba7ba9e23faad2c7ef84441e15f8b6e378e2332c7bad2f9de3a542a2ac, 0, 1, 0x3e411afc0646a464d59055a9a9d60ee9c3ce4180, 0x9b2193d2cfa6a260b02a69a7c595933c4ad931cf168a07dd8ff39940f31, 0xabaf8c6b094fd0f32c2ccabab864dbecd99144679c1adf804898fb2042b)
    ensures Next(0x3e411afc0646a464d59055a9a9d60ee9c3ce4180, 0x9b2193d2cfa6a260b02a69a7c595933c4ad931cf168a07dd8ff39940f31, 0x2ad82d54014ae7d1b8c93b4fdbe52, 0x6e39ccc21236fe3b357a5db0e91733ba08097e9b6450221207cf7a05a38, 0x1f208d7e03237d0a981c2c1fbcbcc03e1d36fca52, 0x1cfca6853ffb6234ff6b1f7de1abbb5f75f557f5002247556016fe049f, 0xabaf8c6b094fd0f32c2ccabab864dbecd99144679c1adf804898fb2042b)
    ensures Next(0x1f208d7e03237d0a981c2c1fbcbcc03e1d36fca52, 0x1cfca6853ffb6234ff6b1f7de1abbb5f75f557f5002247556016fe049f, 0x19b4e7ff33f9be4aa21256c983efe, 0x633a246917fe3ff1f8c4ba0a1cfc32558222fe3893ef5ba7d07a8be8b9c, 0xf9046bf0191c0209a8e094f7a430a40340816918e, 0x75c49ec2931538ba3886af61f7410049972c1a9acb3d20ab1cc19646e0a, 0xabaf8c6b094fd0f32c2ccabab864dbecd99144679c1adf804898fb2042b)
    ensures Next(0xf9046bf0191c0209a8e094f7a430a40340816918e, 0x75c49ec2931538ba3886af61f7410049972c1a9acb3d20ab1cc19646e0a, 0x11234554cd51298716b6e48657f54, 0x5c474b80cb6bdb82336f06b82c49b52ec4fa2aae188147c000cdcd7b1dc, 0x7c8235f80c8e021708c59750e4b0c36d0e891a0bc4, 0x14a8aff21be9ebe4978ebb5144cde3d9e33898c5a81c7e0960c7837bb3a, 0xabaf8c6b094fd0f32c2ccabab864dbecd99144679c1adf804898fb2042b)
  {
  }

  lemma Prime236Powers3()
    ensures IsPow(0x7c8235f80c8e021708c59750e4b0c36d0e891a0bc4, 0x14a8aff21be9ebe4978ebb5144cde3d9e33898c5a81c7e0960c7837bb3a, 0xabaf8c6b094fd0f32c2ccabab864dbecd99144679c1adf804898fb2042b)
    ensures IsPow(0x2ad82d54014ae7d1b8c93b4fdbe52, 0x6e39ccc21236fe3b357a5db0e91733ba08097e9b6450221207cf7a05a38, 0xabaf8c6b094fd0f32c2ccabab864dbecd99144679c1adf804898fb2042b)
    ensures IsPow(0x3bfb72a8ce9c1158cf801fd633da6, 0x21e1e0d390ff92d4729e215650a2af7caf46e9c0f97f3bc6032651687f6, 0xabaf8c6b094fd0f32c2ccabab864dbecd99144679c1adf804898fb2042b)
    ensures IsPow(0x891a2aa66a894c38b5b72432bfaa, 0x3b8bff09155618f62e824b83b881dfd51d8898dc0ca80d9be95a7329c16, 0xabaf8c6b094fd0f32c2ccabab864dbecd99144679c1adf804898fb2042b)
    ensures IsPow(0x19b4e7ff33f9be4aa21256c983efe, 0x633a246917fe3ff1f8c4ba0a1cfc32558222fe3893ef5ba7d07a8be8b9c, 0xabaf8c6b094fd0f32c2ccabab864dbecd99144679c1adf804898fb2042b)
    ensures IsPow(0x22468aa99aa2530e2d6dc90cafea8, 0x612e3919f7de85ecdbf180f61f7d77f4308d480fd3cd150362dd5adac26, 0xabaf8c6b094fd0f32c2ccabab864dbecd99144679c1adf804898fb2042b)
    ensures IsPow(0x11234554cd51298716b6e48657f54, 0x5c474b80cb6bdb82336f06b82c49b52ec4fa2aae188147c000cdcd7b1dc, 0xabaf8c6b094fd0f32c2ccabab864dbecd99144679c1adf804898fb2042b)
    ensures IsPow(0x3369cffe67f37c954424ad9307dfc, 0x524e23e8199fe84701a7daaceee7abe7da79a6f2246f1a2833945fe05dc, 0xabaf8c6b094fd0f32c2ccabab864dbecd99144679c1adf804898fb2042b)
    ensures IsPow(0xbd0d14cf78e7521a329188e9fa496a, 0xa118eb0f9d8184bab59e8e45df736d65fba3c64f4aa855bc8921ac18308, 0xabaf8c6b094fd0f32c2ccabab864dbecd99144679c1adf804898fb2042b)
  {
    hide Exp, IsPow, Next, Product;
    Prime236Powers2();
    TableRules(0xabaf8c6b094fd0f32c2ccabab864dbecd99144679c1adf804898fb2042b);
    Prime236Table7();
    Prime236Table8();
    Prime236Table9();
  }

  lemma Prime236Table10()
    ensures Next(0x7c8235f80c8e021708c59750e4b0c36d0e891a0bc4, 0x14a8aff21be9ebe4978ebb5144cde3d9e33898c5a81c7e0960c7837bb3a, 0, 1, 0x3e411afc0647010b8462cba8725861b687448d05e20, 0x900f802d98d760e9552bea7f014c981728554c217e77ad5326d93559a15, 0xabaf8c6b094fd0f32c2ccabab864dbecd99144679c1adf804898fb2042b)
    ensures Next(0x3e411afc0647010b8462cba8725861b687448d05e20, 0x900f802d98d760e9552bea7f014c981728554c217e77ad5326d93559a15, 0x2ad82d54014ae7d1b8c93b4fdbe52, 0x6e39ccc21236fe3b357a5db0e91733ba08097e9b6450221207cf7a05a38, 0x1f208d7e032380886fb43b144ddaadf6d035fb80af52, 0x402ea589af988a745f9692ddea48ae3fd818a534a553936b91bc5ac59f3, 0xabaf8c6b094fd0f32c2ccabab864dbecd99144679c1adf804898fb2042b)
    ensures Next(0x1f208d7e032380886fb43b144ddaadf6d035fb80af52, 0x402ea589af988a745f9692ddea48ae3fd818a534a553936b91bc5ac59f3, 0x3bfb72a8ce9c1158cf801fd633da6, 0x21e1e0d390ff92d4729e215650a2af7caf46e9c0f97f3bc6032651687f6, 0xf9046bf0191c04473d59032f5896854379b1d968b836, 0x8f6d9c639e8872c8501b7f59b5e24e5da46d87829633037eb198bb72306, 0xabaf8c6b094fd0f32c2ccabab864dbecd99144679c1adf804898fb2042b)
    ensures Next(0xf9046bf0191c04473d59032f5896854379b1d968b836, 0x8f6d9c639e8872c8501b7f59b5e24e5da46d87829633037eb198bb72306, 0x891a2aa66a894c38b5b72432bfaa, 0x3b8bff09155618f62e824b83b881dfd51d8898dc0ca80d9be95a7329c16, 0x7c8235f80c8e0223a73e244212f3d76548345ef78815a, 0x918d20fa2c394142b6a1e19eab7b913d48a65daed0f033c023a69fae7ee, 0xabaf8c6b094fd0f32c2ccabab864dbecd99144679c1adf804898fb2042b)
    ensures Next(0x7c8235f80c8e0223a73e244212f3d76548345ef78815a, 0x918d20fa2c394142b6a1e19eab7b913d48a65daed0f033c023a69fae7ee, 0x891a2aa66a894c38b5b72432bfaa, 0x3b8bff09155618f62e824b83b881dfd51d8898dc0ca80d9be95a7329c16, 0x3e411afc06470111d4282c4bafe474fedccfe69ff6ca7a, 0x3f6a89c06efcb505da07df25b71ac9f815cd9fada5403b443a3fb33c306, 0xabaf8c6b094fd0f32c2ccabab864dbecd99144679c1adf804898fb2042b)
    ensures Next(0x3e411afc06470111d4282c4bafe474fedccfe69ff6ca7a, 0x3f6a89c06efcb505da07df25b71ac9f815cd9fada5403b443a3fb33c306, 0x2ad82d54014ae7d1b8c93b4fdbe52, 0x6e39ccc21236fe3b357a5db0e91733ba08097e9b6450221207cf7a05a38, 0x1f208d7e03238088ea3eee532bf385674020bc8b4b41222, 0x1f7a6ae2bb7a2e2fa4bf9292d1c49316a837e165f5a0b1abaa6db00507d, 0xabaf8c6b094fd0f32c2ccabab864dbecd99144679c1adf804898fb2042b)
    ensures Next(0x1f208d7e03238088ea3eee532bf385674020bc8b4b41222, 0x1f7a6ae2bb7a2e2fa4bf9292d1c49316a837e165f5a0b1abaa6db00507d, 0x3bfb72a8ce9c1158cf801fd633da6, 0x21e1e0d390ff92d4729e215650a2af7caf46e9c0f97f3bc6032651687f6, 0xf9046bf0191c044752336e0c086ac74b59d5647a303ceb6, 0x16d53dc28c8c60afbed07c488f3026a0853df73cd0444c5f575878653d7, 0xabaf8c6b094fd0f32c2ccabab864dbecd99144679c1adf804898fb2042b)
  {
  }

  lemma Prime236Table11()
    ensures Next(0xf9046bf0191c044752336e0c086ac74b59d5647a303ceb6, 0x16d53dc28c8c60afbed07c488f3026a0853df73cd0444c5f575878653d7, 0, 1, 0x7c8235f80c8e0223a919b706043563a5aceab23d181e75b0, 0xa793136f8dc910b3c8ad8ea9eb652d18611e48361c8a2aaf72fe1fa3bac, 0xabaf8c6b094fd0f32c2ccabab864dbecd99144679c1adf804898fb2042b)
    ensures Next(0x7c8235f80c8e0223a919b706043563a5aceab23d181e75b0, 0xa793136f8dc910b3c8ad8ea9eb652d18611e48361c8a2aaf72fe1fa3bac, 0x19b4e7ff33f9be4aa21256c983efe, 0x633a246917fe3ff1f8c4ba0a1cfc32558222fe3893ef5ba7d07a8be8b9c, 0x3e411afc06470111d48cf537ea19e5cc94bffb30e2d8bec7e, 0x44f154512a21a5e3b2b2cea9890bb2de92efe6d7975e05c18cf44d095ad, 0xabaf8c6b094fd0f32c2ccabab864dbecd99144679c1adf804898fb2042b)
    ensures Next(0x3e411afc06470111d48cf537ea19e5cc94bffb30e2d8bec7e, 0x44f154512a21a5e3b2b2cea9890bb2de92efe6d7975e05c18cf44d095ad, 0x22468aa99aa2530e2d6dc90cafea8, 0x612e3919f7de85ecdbf180f61f7d77f4308d480fd3cd150362dd5adac26, 0x1f208d7e03238088ea467cc05db78c906f90e06f4dfd2a6298, 0x9e9c70ba52002bd22eeff1dd2cede46715873d59c5c9e036b6c02ea38f3, 0xabaf8c6b094fd0f32c2ccabab864dbecd99144679c1adf804898fb2042b)
    ensures Next(0x1f208d7e03238088ea467cc05db78c906f90e06f4dfd2a6298, 0x9e9c70ba52002bd22eeff1dd2cede46715873d59c5c9e036b6c02ea38f3, 0x3bfb72a8ce9c1158cf801fd633da6, 0x21e1e0d390ff92d4729e215650a2af7caf46e9c0f97f3bc6032651687f6, 0xf9046bf0191c04475233e9c2a4e6f16d3d9c907271e6b65266, 0x242eafc101c00a4400d1bf8a2e07571ac03c39053a6ba97035df353203, 0xabaf8c6b094fd0f32c2ccabab864dbecd99144679c1adf804898fb2042b)
    ensures Next(0xf9046bf0191c04475233e9c2a4e6f16d3d9c907271e6b65266, 0x242eafc101c00a4400d1bf8a2e07571ac03c39053a6ba97035df353203, 0x891a2aa66a894c38b5b72432bfaa, 0x3b8bff09155618f62e824b83b881dfd51d8898dc0ca80d9be95a7329c16, 0x7c8235f80c8e0223a919f4e9e416231d47630bc494659e552da, 0x8d3d606cdaf312db42a045e253de311db3cbb444c6d6ec725f55a0ef05, 0xabaf8c6b094fd0f32c2ccabab864dbecd99144679c1adf804898fb2042b)
    ensures Next(0x7c8235f80c8e0223a919f4e9e416231d47630bc494659e552da, 0x8d3d606cdaf312db42a045e253de311db3cbb444c6d6ec725f55a0ef05, 0x11234554cd51298716b6e48657f54, 0x5c474b80cb6bdb82336f06b82c49b52ec4fa2aae188147c000cdcd7b1dc, 0x3e411afc06470111d48cfa76043f66db78c41e53b5a117901624, 0xf9d6e761b1e49b9b86a45008720f975a769fba4edf9061f139a2a4cc1a, 0xabaf8c6b094fd0f32c2ccabab864dbecd99144679c1adf804898fb2042b)
    ensures Next(0x3e411afc06470111d48cfa76043f66db78c41e53b5a117901624, 0xf9d6e761b1e49b9b86a45008720f975a769fba4edf9061f139a2a4cc1a, 0x3369cffe67f37c954424ad9307dfc, 0x524e23e8199fe84701a7daaceee7abe7da79a6f2246f1a2833945fe05dc, 0x1f208d7e03238088ea467d3b3589836c24558bbf1ef5395b12f1c, 0x37c8a63275934e52eb4f4c438393a24366fb21c598fdac37443839fc0f9, 0xabaf8c6b094fd0f32c2ccabab864dbecd99144679c1adf804898fb2042b)
  {
  }

  lemma Prime236Table12()
    ensures Next(0x1f208d7e03238088ea467d3b3589836c24558bbf1ef5395b12f1c, 0x37c8a63275934e52eb4f4c438393a24366fb21c598fdac37443839fc0f9, 0x3369cffe67f37c954424ad9307dfc, 0x524e23e8199fe84701a7daaceee7abe7da79a6f2246f1a2833945fe05dc, 0xf9046bf0191c04475233e9d9dfb5eb5f8a9fda8e3bce786b9f6dc, 0x7177ab2485fd67bf531174efa1adf378c3032aee5e13f3008e9433cae09, 0xabaf8c6b094fd0f32c2ccabab864dbecd99144679c1adf804898fb2042b)
    ensures Next(0xf9046bf0191c04475233e9d9dfb5eb5f8a9fda8e3bce786b9f6dc, 0x7177ab2485fd67bf531174efa1adf378c3032aee5e13f3008e9433cae09, 0x11234554cd51298716b6e48657f54, 0x5c474b80cb6bdb82336f06b82c49b52ec4fa2aae188147c000cdcd7b1dc, 0x7c8235f80c8e0223a919f4ecf0ed2a051224ffdf8f52aa7e353634, 0x9a5c3e7676063b6aa70e3303c8ae461d349d98c47794fb67fdbad81b576, 0xabaf8c6b094fd0f32c2ccabab864dbecd99144679c1adf804898fb2042b)
    ensures Next(0x7c8235f80c8e0223a919f4ecf0ed2a051224ffdf8f52aa7e353634, 0x9a5c3e7676063b6aa70e3303c8ae461d349d98c47794fb67fdbad81b576, 0x891a2aa66a894c38b5b72432bfaa, 0x3b8bff09155618f62e824b83b881dfd51d8898dc0ca80d9be95a7329c16, 0x3e411afc06470111d48cfa76787f26a5337928848b34b0b15dc714a, 0x4f9b60fddcc9169bb10ec6f7a0504ac4ed9a3716e482bd91f8f1d9d586c, 0xabaf8c6b094fd0f32c2ccabab864dbecd99144679c1adf804898fb2042b)
    ensures Next(0x3e411afc06470111d48cfa76787f26a5337928848b34b0b15dc714a, 0x4f9b60fddcc9169bb10ec6f7a0504ac4ed9a3716e482bd91f8f1d9d586c, 0x3bfb72a8ce9c1158cf801fd633da6, 0x21e1e0d390ff92d4729e215650a2af7caf46e9c0f97f3bc6032651687f6, 0x1f208d7e03238088ea467d3b3c435309c4497e035b27505aac46c7f6, 0x2b95cc07c75a92da1982cddc86393428037ed1780815ed647ec992719fe, 0xabaf8c6b094fd0f32c2ccabab864dbecd99144679c1adf804898fb2042b)
    ensures Next(0x1f208d7e03238088ea467d3b3c435309c4497e035b27505aac46c7f6, 0x2b95cc07c75a92da1982cddc86393428037ed1780815ed647ec992719fe, 0x22468aa99aa2530e2d6dc90cafea8, 0x612e3919f7de85ecdbf180f61f7d77f4308d480fd3cd150362dd5adac26, 0xf9046bf0191c04475233e9d9e21cbcb6cce59a400a1d59b1f3013e58, 0x9dc72a042dc94cd7ca387f44af62dca350d2c5a1d4aa4a6d263a6f893d4, 0xabaf8c6b094fd0f32c2ccabab864dbecd99144679c1adf804898fb2042b)
    ensures Next(0xf9046bf0191c04475233e9d9e21cbcb6cce59a400a1d59b1f3013e58, 0x9dc72a042dc94cd7ca387f44af62dca350d2c5a1d4aa4a6d263a6f893d4, 0x891a2aa66a894c38b5b72432bfaa, 0x3b8bff09155618f62e824b83b881dfd51d8898dc0ca80d9be95a7329c16, 0x7c8235f80c8e0223a919f4ecf10e66ed091d33c899d238346bc3cb26a, 0x13d9dc1e5009af5c4c2541515b87c068b913c42d9a7644ce63ffe960964, 0xabaf8c6b094fd0f32c2ccabab864dbecd99144679c1adf804898fb2042b)
    ensures Product(0x7c8235f80c8e0223a919f4ecf10e66ed091d33c899d238346bc3cb26a, 0x13d9dc1e5009af5c4c2541515b87c068b913c42d9a7644ce63ffe960964, 0x7c8235f80c8e0223a919f4ecf10e66ed091d33c899d238346bc3cb26a, 0x13d9dc1e5009af5c4c2541515b87c068b913c42d9a7644ce63ffe960964, 0xf9046bf0191c04475233e9d9e21ccdda123a679133a47068d787964d4, 0x2572760ca51df43d4d5bd713dc6b8e7a8b09f9681f21960a8072a319ebf, 0xabaf8c6b094fd0f32c2ccabab864dbecd99144679c1adf804898fb2042b)
  {
  }

  lemma Prime236Powers4()
    ensures IsPow(0xf9046bf0191c04475233e9d9e21ccdda123a679133a47068d787964d4, 0x2572760ca51df43d4d5bd713dc6b8e7a8b09f9681f21960a8072a319ebf, 0xabaf8c6b094fd0f32c2ccabab864dbecd99144679c1adf804898fb2042b)
    ensures IsPow(0x7c8235f80c8e0223a919f4ecf10e66ed091d33c899d238346bc3cb26a, 0x13d9dc1e5009af5c4c2541515b87c068b913c42d9a7644ce63ffe960964, 0xabaf8c6b094fd0f32c2ccabab864dbecd99144679c1adf804898fb2042b)
    ensures IsPow(0xbd0d14cf78e7521a329188e9fa496a, 0xa118eb0f9d8184bab59e8e45df736d65fba3c64f4aa855bc8921ac18308, 0xabaf8c6b094fd0f32c2ccabab864dbecd99144679c1adf804898fb2042b)
  {
    hide Exp, IsPow, Next, Product;
    Prime236Powers3();
    TableRules(0xabaf8c6b094fd0f32c2ccabab864dbecd99144679c1adf804898fb2042b);
    Prime236Table10();
    Prime236Table11();
    Prime236Table12();
  }

  lemma Prime236Table13()
    ensures Product(0xf9046bf0191c04475233e9d9e21ccdda123a679133a47068d787964d4, 0x2572760ca51df43d4d5bd713dc6b8e7a8b09f9681f21960a8072a319ebf, 0x7c8235f80c8e0223a919f4ecf10e66ed091d33c899d238346bc3cb26a, 0x13d9dc1e5009af5c4c2541515b87c068b913c42d9a7644ce63ffe960964, 0x17586a1e825aa066afb4ddec6d32b34c71b579b59cd76a89d434b6173e, 0x215bfc6193585338540f420d08b73d12bf271ac8c7e43f1e1f40860195a, 0xabaf8c6b094fd0f32c2ccabab864dbecd99144679c1adf804898fb2042b)
    ensures Product(0x17586a1e825aa066afb4ddec6d32b34c71b579b59cd76a89d434b6173e, 0x215bfc6193585338540f420d08b73d12bf271ac8c7e43f1e1f40860195a, 0x7c8235f80c8e0223a919f4ecf10e66ed091d33c899d238346bc3cb26a, 0x13d9dc1e5009af5c4c2541515b87c068b913c42d9a7644ce63ffe960964, 0x1f208d7e03238088ea467d3b3c4399bb42474cf226748e0d1af0f2c9a8, 0x8b39821533ccc483181e9eb78537165d9b43620a8d82185c3e9964412ca, 0xabaf8c6b094fd0f32c2ccabab864dbecd99144679c1adf804898fb2042b)
    ensures Product(0x1f208d7e03238088ea467d3b3c4399bb42474cf226748e0d1af0f2c9a8, 0x8b39821533ccc483181e9eb78537165d9b43620a8d82185c3e9964412ca, 0x7c8235f80c8e0223a919f4ecf10e66ed091d33c899d238346bc3cb26a, 0x13d9dc1e5009af5c4c2541515b87c068b913c42d9a7644ce63ffe960964, 0x26e8b0dd83ec60ab24d81c8a0b54802a12d9202eb011b19061ad2f7c12, 0x3a5adc0270a1579c057b90d909d269d1f5e50e82e0d275380727441c789, 0xabaf8c6b094fd0f32c2ccabab864dbecd99144679c1adf804898fb2042b)
    ensures Next(0x26e8b0dd83ec60ab24d81c8a0b54802a12d9202eb011b19061ad2f7c12, 0x3a5adc0270a1579c057b90d909d269d1f5e50e82e0d275380727441c789, 0x1f208d7e03238088ea467d3b3c4399bb42474cf226748e0d1af0f2c9a8, 0x8b39821533ccc483181e9eb78537165d9b43620a8d82185c3e9964412ca, 0x15666146a228685e21107618b96e79b0bd9104e67a7021a90285a6eaa38, 0x9b9ff33ea51c066baa24ea219a3be258a3d64fcdfb6546f8e44f0a8da90, 0xabaf8c6b094fd0f32c2ccabab864dbecd99144679c1adf804898fb2042b)
    ensures Next(0x15666146a228685e21107618b96e79b0bd9104e67a7021a90285a6eaa38, 0x9b9ff33ea51c066baa24ea219a3be258a3d64fcdfb6546f8e44f0a8da90, 0x7c8235f80c8e0223a919f4ecf10e66ed091d33c899d238346bc3cb26a, 0x13d9dc1e5009af5c4c2541515b87c068b913c42d9a7644ce63ffe960964, 0xabaf8c6b094fd0f32c2ccabab864dbecd99144679c1adf804898fb2042a, 1, 0xabaf8c6b094fd0f32c2ccabab864dbecd99144679c1adf804898fb2042b)
  {
  }

  lemma Prime236Powers5()
    ensures IsPow(0xbd0d14cf78e7521a329188e9fa496a, 0xa118eb0f9d8184bab59e8e45df736d65fba3c64f4aa855bc8921ac18308, 0xabaf8c6b094fd0f32c2ccabab864dbecd99144679c1adf804898fb2042b)
    ensures IsPow(0x7c8235f80c8e0223a919f4ecf10e66ed091d33c899d238346bc3cb26a, 0x13d9dc1e5009af5c4c2541515b87c068b913c42d9a7644ce63ffe960964, 0xabaf8c6b094fd0f32c2ccabab864dbecd99144679c1adf804898fb2042b)
    ensures IsPow(0xabaf8c6b094fd0f32c2ccabab864dbecd99144679c1adf804898fb2042a, 1, 0xabaf8c6b094fd0f32c2ccabab864dbecd99144679c1adf804898fb2042b)
  {
    hide Exp, IsPow, Next, Product;
    Prime236Powers4();
    TableRules(0xabaf8c6b094fd0f32c2ccabab864dbecd99144679c1adf804898fb2042b);
    Prime236Table13();
  }

  lemma Prime236()
    ensures Prime(0xabaf8c6b094fd0f32c2ccabab864dbecd99144679c1adf804898fb2042b)
  {
    hide Exp, IsPow, Prime, Cong, Fits;
    Prime116();
    Prime353();
    Prime236Powers5();
    Prime236Fits();
    Certified(0xabaf8c6b094fd0f32c2ccabab864dbecd99144679c1adf804898fb2042b, 0xe87c2a477b815a1793787395b23e1, 353, 0xbd0d14cf78e7521a329188e9fa496a, 0x7c8235f80c8e0223a919f4ecf10e66ed091d33c899d238346bc3cb26a, 0xa118eb0f9d8184bab59e8e45df736d65fba3c64f4aa855bc8921ac18308, 0x13d9dc1e5009af5c4c2541515b87c068b913c42d9a7644ce63ffe960964, 0xa35a14fb1452ddd0fca6eef50ac9bd9a369cab894104fc366d4fa595e38, 0x57f4888591087bd9c3eb0c0f278ba4fddc26c6cce3b2e8944893fcd09ab);
  }

  lemma Prime236Fits()
    ensures Fits(0xabaf8c6b094fd0f32c2ccabab864dbecd99144679c1adf804898fb2042b, 0xe87c2a477b815a1793787395b23e1, 353, 0xbd0d14cf78e7521a329188e9fa496a, 0x7c8235f80c8e0223a919f4ecf10e66ed091d33c899d238346bc3cb26a, 0xa118eb0f9d8184bab59e8e45df736d65fba3c64f4aa855bc8921ac18308, 0x13d9dc1e5009af5c4c2541515b87c068b913c42d9a7644ce63ffe960964, 0xa35a14fb1452ddd0fca6eef50ac9bd9a369cab894104fc366d4fa595e38, 0x57f4888591087bd9c3eb0c0f278ba4fddc26c6cce3b2e8944893fcd09ab)
  {
  }

  /** Powers of 2 modulo 2^255 - 19. */
  lemma FieldTable1()
    ensures Next(2, 4, 5, 32, 21, 0x200000, 0x7fffffffffffffffffffffffffffffffffffffffffffffffffffffffffffffed)
    ensures Next(21, 0x200000, 3, 8, 171, 0x8000000000000000000000000000000000000000000, 0x7fffffffffffffffffffffffffffffffffffffffffffffffffffffffffffffed)
    ensures Next(171, 0x8000000000000000000000000000000000000000000, 5, 32, 0x55d, 0x97210c000000000000000000000000, 0x7fffffffffffffffffffffffffffffffffffffffffffffffffffffffffffffed)
    ensures Next(0x55d, 0x97210c000000000000000000000000, 3, 8, 0x2aeb, 0x194bfb2ebc10f302f8808b63c01d01b5d939150b6527aac00000, 0x7fffffffffffffffffffffffffffffffffffffffffffffffffffffffffffffed)
    ensures Next(0x2aeb, 0x194bfb2ebc10f302f8808b63c01d01b5d939150b6527aac00000, 7, 128, 0x1575f, 0x200439d847271aa50dd496c57eb227c7fe4013fa3f5e9f6d62b1ab9a14dd3aa5, 0x7fffffffffffffffffffffffffffffffffffffffffffffffffffffffffffffed)
    ensures Next(0x1575f, 0x200439d847271aa50dd496c57eb227c7fe4013fa3f5e9f6d62b1ab9a14dd3aa5, 0, 1, 0xabaf8, 0x46dc52f79baa405c891a1edcebc159b7dc70b3e93e88ccbb42e92b01dda9dd70, 0x7fffffffffffffffffffffffffffffffffffffffffffffffffffffffffffffed)
    ensures Next(0xabaf8, 0x46dc52f79baa405c891a1edcebc159b7dc70b3e93e88ccbb42e92b01dda9dd70, 6, 64, 0x55d7c6, 0x34219c4c3126115db26c462eebd792decf9416d39003604d4f71013193c6b3b5, 0x7fffffffffffffffffffffffffffffffffffffffffffffffffffffffffffffed)
  {
  }

  lemma FieldTable2()
    ensures Next(0x55d7c6, 0x34219c4c3126115db26c462eebd792decf9416d39003604d4f71013193c6b3b5, 1, 2, 0x2aebe31, 0x373028ab2de33f0ef5ed052041ee8349e2e906e05f51ade2b8d7fbe4e6e50ba9, 0x7fffffffffffffffffffffffffffffffffffffffffffffffffffffffffffffed)
    ensures Next(0x2aebe31, 0x373028ab2de33f0ef5ed052041ee8349e2e906e05f51ade2b8d7fbe4e6e50ba9, 5, 32, 0x1575f18d, 0xab013e245f65b91739a0237fd1d0cff506aae0cd97e5edcb4fa07056322139b, 0x7fffffffffffffffffffffffffffffffffffffffffffffffffffffffffffffed)
    ensures Next(0x1575f18d, 0xab013e245f65b91739a0237fd1d0cff506aae0cd97e5edcb4fa07056322139b, 3, 8, 0xabaf8c6b, 0x692107dee7a59f176b3c02d15e60082c98cc04f8575fc3dc7808796047781fbf, 0x7fffffffffffffffffffffffffffffffffffffffffffffffffffffffffffffed)
    ensures Next(0xabaf8c6b, 0x692107dee7a59f176b3c02d15e60082c98cc04f8575fc3dc7808796047781fbf, 0, 1, 0x55d7c6358, 0x33377d7a1f878002e7824b739dc6454039318164d4847477087e553442c2c08e, 0x7fffffffffffffffffffffffffffffffffffffffffffffffffffffffffffffed)
    ensures Next(0x55d7c6358, 0x33377d7a1f878002e7824b739dc6454039318164d4847477087e553442c2c08e, 2, 4, 0x2aebe31ac2, 0x4b2830445d90817a08b383db994a14d68572c3a51e082d7434833af46b400211, 0x7fffffffffffffffffffffffffffffffffffffffffffffffffffffffffffffed)
    ensures Next(0x2aebe31ac2, 0x4b2830445d90817a08b383db994a14d68572c3a51e082d7434833af46b400211, 2, 4, 0x1575f18d612, 0x2a7071104065a980d3a58858b66bd0386c37800b143a40e90141420dc1ded15e, 0x7fffffffffffffffffffffffffffffffffffffffffffffffffffffffffffffed)
    ensures Next(0x1575f18d612, 0x2a7071104065a980d3a58858b66bd0386c37800b143a40e90141420dc1ded15e, 4, 16, 0xabaf8c6b094, 0x2712e0a0730d55fa25b9502516c5014fd1f7d536bdcc7d5e53c3e5b19a02ad0b, 0x7fffffffffffffffffffffffffffffffffffffffffffffffffffffffffffffed)
  {
  }

  lemma FieldTable3()
    ensures Next(0xabaf8c6b094, 0x2712e0a0730d55fa25b9502516c5014fd1f7d536bdcc7d5e53c3e5b19a02ad0b, 7, 128, 0x55d7c63584a7, 0x4165cba1f0f5bbf08a695cd34029233787c3524f2bcdeab63173c58db26f9524, 0x7fffffffffffffffffffffffffffffffffffffffffffffffffffffffffffffed)
    ensures Next(0x55d7c63584a7, 0x4165cba1f0f5bbf08a695cd34029233787c3524f2bcdeab63173c58db26f9524, 7, 128, 0x2aebe31ac253f, 0x2abae2af3f9f2282aa239b1b07187e3af648e1042a78559fa9052d05304efbc2, 0x7fffffffffffffffffffffffffffffffffffffffffffffffffffffffffffffed)
    ensures Next(0x2aebe31ac253f, 0x2abae2af3f9f2282aa239b1b07187e3af648e1042a78559fa9052d05304efbc2, 2, 4, 0x1575f18d6129fa, 0x3dade482a38f46362ffac6f3196b970220a02e3adaad6afe20fb411b0c417c40, 0x7fffffffffffffffffffffffffffffffffffffffffffffffffffffffffffffed)
    ensures Next(0x1575f18d6129fa, 0x3dade482a38f46362ffac6f3196b970220a02e3adaad6afe20fb411b0c417c40, 0, 1, 0xabaf8c6b094fd0, 0x2147a84681f7d6b89ba7313e1f59d00074f0df04c794673303bff2f1852990e, 0x7fffffffffffffffffffffffffffffffffffffffffffffffffffffffffffffed)
    ensures Next(0xabaf8c6b094fd0, 0x2147a84681f7d6b89ba7313e1f59d00074f0df04c794673303bff2f1852990e, 7, 128, 0x55d7c63584a7e87, 0x62154736280b72f8164145a10868a39ba1cd3fe9afbbdb6b6b498585e3539315, 0x7fffffffffffffffffffffffffffffffffffffffffffffffffffffffffffffed)
    ensures Next(0x55d7c63584a7e87, 0x62154736280b72f8164145a10868a39ba1cd3fe9afbbdb6b6b498585e3539315, 4, 16, 0x2aebe31ac253f43c, 0x6d9c8674555533be3a8d01446572296adc9af19f96da4632bb9bfb62de493ab0, 0x7fffffffffffffffffffffffffffffffffffffffffffffffffffffffffffffed)
    ensures Next(0x2aebe31ac253f43c, 0x6d9c8674555533be3a8d01446572296adc9af19f96da4632bb9bfb62de493ab0, 6, 64, 0x1575f18d6129fa1e6, 0xa2d2dcedbd3ccee56053329fb5fbaeec0c394a17d05a3aec14108720b183c6c, 0x7fffffffffffffffffffffffffffffffffffffffffffffffffffffffffffffed)
  {
  }

  lemma FieldPowers1()
    ensures IsPow(0x1575f18d6129fa1e6, 0xa2d2dcedbd3ccee56053329fb5fbaeec0c394a17d05a3aec14108720b183c6c, 0x7fffffffffffffffffffffffffffffffffffffffffffffffffffffffffffffed)
  {
    hide Exp, IsPow, Next, Product;
    TableRules(0x7fffffffffffffffffffffffffffffffffffffffffffffffffffffffffffffed);
    FieldTable1();
    FieldTable2();
    FieldTable3();
  }

  lemma FieldTable4()
    ensures Next(0x1575f18d6129fa1e6, 0xa2d2dcedbd3ccee56053329fb5fbaeec0c394a17d05a3aec14108720b183c6c, 2, 4, 0xabaf8c6b094fd0f32, 0x427d0ede5c43dcef22fe7964322efb22c2f02b61a6faccf24cef167efabdb40e, 0x7fffffffffffffffffffffffffffffffffffffffffffffffffffffffffffffed)
    ensures Next(0xabaf8c6b094fd0f32, 0x427d0ede5c43dcef22fe7964322efb22c2f02b61a6faccf24cef167efabdb40e, 6, 64, 0x55d7c63584a7e87996, 0x5d99f5ee55acc0e77d8ef1e5609c20535e847c95f0aad2d0c1b8b1211a8de35, 0x7fffffffffffffffffffffffffffffffffffffffffffffffffffffffffffffed)
    ensures Next(0x55d7c63584a7e87996, 0x5d99f5ee55acc0e77d8ef1e5609c20535e847c95f0aad2d0c1b8b1211a8de35, 0, 1, 0x2aebe31ac253f43ccb0, 0x44e01c43faa4a583a56afa4d2e1eb9ce95b7afaea82c23b2b899f393794b778, 0x7fffffffffffffffffffffffffffffffffffffffffffffffffffffffffffffed)
    ensures Next(0x2aebe31ac253f43ccb0, 0x44e01c43faa4a583a56afa4d2e1eb9ce95b7afaea82c23b2b899f393794b778, 5, 32, 0x1575f18d6129fa1e6585, 0x1b18e0e5748cbc94044e185b661e47aee5950b036c3dfafc69d313b7005fd3f0, 0x7fffffffffffffffffffffffffffffffffffffffffffffffffffffffffffffed)
    ensures Next(0x1575f18d6129fa1e6585, 0x1b18e0e5748cbc94044e185b661e47aee5950b036c3dfafc69d313b7005fd3f0, 4, 16, 0xabaf8c6b094fd0f32c2c, 0x32860e0f3941c29549d7aed5c02d3b2575c426b392c8b2588f884bd32a0b115f, 0x7fffffffffffffffffffffffffffffffffffffffffffffffffffffffffffffed)
    ensures Next(0xabaf8c6b094fd0f32c2c, 0x32860e0f3941c29549d7aed5c02d3b2575c426b392c8b2588f884bd32a0b115f, 6, 64, 0x55d7c63584a7e87996166, 0x63e577b60cca7c2cc0a405819c897d9a5e541e034cb88f08edfc7a6484203eaf, 0x7fffffffffffffffffffffffffffffffffffffffffffffffffffffffffffffed)
    ensures Next(0x55d7c63584a7e87996166, 0x63e577b60cca7c2cc0a405819c897d9a5e541e034cb88f08edfc7a6484203eaf, 2, 4, 0x2aebe31ac253f43ccb0b32, 0x780210fa666cb44b7dfbfb33593275915f35d75255dbf326dac13e018b021fcd, 0x7fffffffffffffffffffffffffffffffffffffffffffffffffffffffffffffed)
  {
  }

  lemma FieldTable5()
    ensures Next(0x2aebe31ac253f43ccb0b32, 0x780210fa666cb44b7dfbfb33593275915f35d75255dbf326dac13e018b021fcd, 5, 32, 0x1575f18d6129fa1e6585995, 0x2f7cc8720b88d6359913d15c10360714d16247b0eb0a9429d1e495bc5f0a74c7, 0x7fffffffffffffffffffffffffffffffffffffffffffffffffffffffffffffed)
    ensures Next(0x1575f18d6129fa1e6585995, 0x2f7cc8720b88d6359913d15c10360714d16247b0eb0a9429d1e495bc5f0a74c7, 3, 8, 0xabaf8c6b094fd0f32c2ccab, 0x458c72aabfa361452055fad771449dc40b7cfaface1c790fa8ba9b102887ae58, 0x7fffffffffffffffffffffffffffffffffffffffffffffffffffffffffffffed)
    ensures Next(0xabaf8c6b094fd0f32c2ccab, 0x458c72aabfa361452055fad771449dc40b7cfaface1c790fa8ba9b102887ae58, 5, 32, 0x55d7c63584a7e8799616655d, 0x3c79104cac3c8ad175af81b5851489cec34799f6603592da54f1e7701eb381d5, 0x7fffffffffffffffffffffffffffffffffffffffffffffffffffffffffffffed)
    ensures Next(0x55d7c63584a7e8799616655d, 0x3c79104cac3c8ad175af81b5851489cec34799f6603592da54f1e7701eb381d5, 2, 4, 0x2aebe31ac253f43ccb0b32aea, 0x622e8d73a1adc082e11ab6c02741ae129933f2d691a2e39ca49aaf2e5c343273, 0x7fffffffffffffffffffffffffffffffffffffffffffffffffffffffffffffed)
    ensures Next(0x2aebe31ac253f43ccb0b32aea, 0x622e8d73a1adc082e11ab6c02741ae129933f2d691a2e39ca49aaf2e5c343273, 7, 128, 0x1575f18d6129fa1e6585995757, 0x369f1f967e5e990607d1da23fe1ed2f401a592478480dd3c0478267f90230465, 0x7fffffffffffffffffffffffffffffffffffffffffffffffffffffffffffffed)
    ensures Next(0x1575f18d6129fa1e6585995757, 0x369f1f967e5e990607d1da23fe1ed2f401a592478480dd3c0478267f90230465, 0, 1, 0xabaf8c6b094fd0f32c2ccabab8, 0x365dc01ecc7f708ec7f62c9bc0d0b3fc7dcf21069c4434c87e5b35fdd4fc3034, 0x7fffffffffffffffffffffffffffffffffffffffffffffffffffffffffffffed)
    ensures Next(0xabaf8c6b094fd0f32c2ccabab8, 0x365dc01ecc7f708ec7f62c9bc0d0b3fc7dcf21069c4434c87e5b35fdd4fc3034, 3, 8, 0x55d7c63584a7e8799616655d5c3, 0x268a94a82585aa20311d4c69d8f2c7985497a7dc2b18090497c91436ca8f0871, 0x7fffffffffffffffffffffffffffffffffffffffffffffffffffffffffffffed)
  {
  }

  lemma FieldTable6()
    ensures Next(0x55d7c63584a7e8799616655d5c3, 0x268a94a82585aa20311d4c69d8f2c7985497a7dc2b18090497c91436ca8f0871, 1, 2, 0x2aebe31ac253f43ccb0b32aeae19, 0x694219f96e21a5c2c6101d9f17203658ccb6e435f938a57605cd1efa2be79ece, 0x7fffffffffffffffffffffffffffffffffffffffffffffffffffffffffffffed)
    ensures Next(0x2aebe31ac253f43ccb0b32aeae19, 0x694219f96e21a5c2c6101d9f17203658ccb6e435f938a57605cd1efa2be79ece, 1, 2, 0x1575f18d6129fa1e65859957570c9, 0x6f37d48d80f18b32f775710af43de5dcf503f9f66cf449765498964a363f992d, 0x7fffffffffffffffffffffffffffffffffffffffffffffffffffffffffffffed)
    ensures Next(0x1575f18d6129fa1e65859957570c9, 0x6f37d48d80f18b32f775710af43de5dcf503f9f66cf449765498964a363f992d, 5, 32, 0xabaf8c6b094fd0f32c2ccabab864d, 0x3ba84442a6ab3e7d6b5f9a975f8d981795cdc7bb0ca517792848a2315d55208, 0x7fffffffffffffffffffffffffffffffffffffffffffffffffffffffffffffed)
    ensures Next(0xabaf8c6b094fd0f32c2ccabab864d, 0x3ba84442a6ab3e7d6b5f9a975f8d981795cdc7bb0ca517792848a2315d55208, 5, 32, 0x55d7c63584a7e8799616655d5c326d, 0x475fee7318d6ff0d5c05b36f1e0f6b0b0b4f1cac084321512fd84a27874131da, 0x7fffffffffffffffffffffffffffffffffffffffffffffffffffffffffffffed)
    ensures Next(0x55d7c63584a7e8799616655d5c326d, 0x475fee7318d6ff0d5c05b36f1e0f6b0b0b4f1cac084321512fd84a27874131da, 7, 128, 0x2aebe31ac253f43ccb0b32aeae1936f, 0x12da519bfbcc2eb4ea0badfcfce4b85eb8b62acc7c51aa9fc7799fd58cacc2e0, 0x7fffffffffffffffffffffffffffffffffffffffffffffffffffffffffffffed)
    ensures Next(0x2aebe31ac253f43ccb0b32aeae1936f, 0x12da519bfbcc2eb4ea0badfcfce4b85eb8b62acc7c51aa9fc7799fd58cacc2e0, 5, 32, 0x1575f18d6129fa1e65859957570c9b7d, 0xc0f179770dd13a88b28b85a1167e6aa3c1f2c677556d76ba975ea98bea5f942, 0x7fffffffffffffffffffffffffffffffffffffffffffffffffffffffffffffed)
    ensures Next(0x1575f18d6129fa1e65859957570c9b7d, 0xc0f179770dd13a88b28b85a1167e6aa3c1f2c677556d76ba975ea98bea5f942, 4, 16, 0xabaf8c6b094fd0f32c2ccabab864dbec, 0x5c39e8f7630a015aedbb3a0ae8c40fc82cc458a24171e881167d8faf6b4bedad, 0x7fffffffffffffffffffffffffffffffffffffffffffffffffffffffffffffed)
  {
  }

  lemma FieldPowers2()
    ensures IsPow(0xabaf8c6b094fd0f32c2ccabab864dbec, 0x5c39e8f7630a015aedbb3a0ae8c40fc82cc458a24171e881167d8faf6b4bedad, 0x7fffffffffffffffffffffffffffffffffffffffffffffffffffffffffffffed)
  {
    hide Exp, IsPow, Next, Product;
    FieldPowers1();
    TableRules(0x7fffffffffffffffffffffffffffffffffffffffffffffffffffffffffffffed);
    FieldTable4();
    FieldTable5();
    FieldTable6();
  }

  lemma FieldTable7()
    ensures Next(0xabaf8c6b094fd0f32c2ccabab864dbec, 0x5c39e8f7630a015aedbb3a0ae8c40fc82cc458a24171e881167d8faf6b4bedad, 6, 64, 0x55d7c63584a7e8799616655d5c326df66, 0x7550e144fd072d3e7dded79da04673a23f522128a6f61cf2d75d8b428e6ad91f, 0x7fffffffffffffffffffffffffffffffffffffffffffffffffffffffffffffed)
    ensures Next(0x55d7c63584a7e8799616655d5c326df66, 0x7550e144fd072d3e7dded79da04673a23f522128a6f61cf2d75d8b428e6ad91f, 6, 64, 0x2aebe31ac253f43ccb0b32aeae1936fb36, 0x393f2a090489e557dff5cce60bc2625c2daf19fe21dbfa3fa8184d9a53c51834, 0x7fffffffffffffffffffffffffffffffffffffffffffffffffffffffffffffed)
    ensures Next(0x2aebe31ac253f43ccb0b32aeae1936fb36, 0x393f2a090489e557dff5cce60bc2625c2daf19fe21dbfa3fa8184d9a53c51834, 3, 8, 0x1575f18d6129fa1e65859957570c9b7d9b3, 0x7dcee2d483345915d04d3ce3258717c66e31f4f68e4ba555a947451702c351cc, 0x7fffffffffffffffffffffffffffffffffffffffffffffffffffffffffffffed)
    ensures Next(0x1575f18d6129fa1e65859957570c9b7d9b3, 0x7dcee2d483345915d04d3ce3258717c66e31f4f68e4ba555a947451702c351cc, 1, 2, 0xabaf8c6b094fd0f32c2ccabab864dbecd99, 0x797ae490becf86a0b9b9161515ee39d5de8ac4f9fc6453918539dc12bf7a7b7b, 0x7fffffffffffffffffffffffffffffffffffffffffffffffffffffffffffffed)
    ensures Next(0xabaf8c6b094fd0f32c2ccabab864dbecd99, 0x797ae490becf86a0b9b9161515ee39d5de8ac4f9fc6453918539dc12bf7a7b7b, 0, 1, 0x55d7c63584a7e8799616655d5c326df66cc8, 0x4b7dcdd03417f7ddab592ca313eeabef27c0eef13ffe17efa26a87b2a2103b85, 0x7fffffffffffffffffffffffffffffffffffffffffffffffffffffffffffffed)
    ensures Next(0x55d7c63584a7e8799616655d5c326df66cc8, 0x4b7dcdd03417f7ddab592ca313eeabef27c0eef13ffe17efa26a87b2a2103b85, 5, 32, 0x2aebe31ac253f43ccb0b32aeae1936fb36645, 0x4d62f605b3fa30dc4936bcb61c239dbc5c7f9b83c6b77412e1acd3470fd7d5b7, 0x7fffffffffffffffffffffffffffffffffffffffffffffffffffffffffffffed)
    ensures Next(0x2aebe31ac253f43ccb0b32aeae1936fb36645, 0x4d62f605b3fa30dc4936bcb61c239dbc5c7f9b83c6b77412e1acd3470fd7d5b7, 0, 1, 0x1575f18d6129fa1e65859957570c9b7d9b3228, 0x5e827c051fde87489b9f5d0c181ce33c7682ccfd13893dba0767893e4293ae16, 0x7fffffffffffffffffffffffffffffffffffffffffffffffffffffffffffffed)
  {
  }

  lemma FieldTable8()
    ensures Next(0x1575f18d6129fa1e65859957570c9b7d9b3228, 0x5e827c051fde87489b9f5d0c181ce33c7682ccfd13893dba0767893e4293ae16, 4, 16, 0xabaf8c6b094fd0f32c2ccabab864dbecd99144, 0x758125f0cdecb1aa7681a799c5ff480b878c64a106f3e878eb4c6bc13049ba78, 0x7fffffffffffffffffffffffffffffffffffffffffffffffffffffffffffffed)
    ensures Next(0xabaf8c6b094fd0f32c2ccabab864dbecd99144, 0x758125f0cdecb1aa7681a799c5ff480b878c64a106f3e878eb4c6bc13049ba78, 3, 8, 0x55d7c63584a7e8799616655d5c326df66cc8a23, 0x461c117708ebcb442fd743c6429df2cd98bdd0f7dd80ef5452deb660eac19f5b, 0x7fffffffffffffffffffffffffffffffffffffffffffffffffffffffffffffed)
    ensures Next(0x55d7c63584a7e8799616655d5c326df66cc8a23, 0x461c117708ebcb442fd743c6429df2cd98bdd0f7dd80ef5452deb660eac19f5b, 1, 2, 0x2aebe31ac253f43ccb0b32aeae1936fb36645119, 0x7a1d32f8e29bb796c5a39b9388d4940ea97e4ff4df0a079627658e725e02196d, 0x7fffffffffffffffffffffffffffffffffffffffffffffffffffffffffffffed)
    ensures Next(0x2aebe31ac253f43ccb0b32aeae1936fb36645119, 0x7a1d32f8e29bb796c5a39b9388d4940ea97e4ff4df0a079627658e725e02196d, 7, 128, 0x1575f18d6129fa1e65859957570c9b7d9b32288cf, 0x28241ab3d5ddc4ea56c2deef6fb43f6660440477b40d4f471aa56990ba655467, 0x7fffffffffffffffffffffffffffffffffffffffffffffffffffffffffffffed)
    ensures Next(0x1575f18d6129fa1e65859957570c9b7d9b32288cf, 0x28241ab3d5ddc4ea56c2deef6fb43f6660440477b40d4f471aa56990ba655467, 1, 2, 0xabaf8c6b094fd0f32c2ccabab864dbecd99144679, 0x7efbd717f9ed1001a3a0e991965beb9170dd860ea83de96d2f05ad2f3b3aaa87, 0x7fffffffffffffffffffffffffffffffffffffffffffffffffffffffffffffed)
    ensures Next(0xabaf8c6b094fd0f32c2ccabab864dbecd99144679, 0x7efbd717f9ed1001a3a0e991965beb9170dd860ea83de96d2f05ad2f3b3aaa87, 6, 64, 0x55d7c63584a7e8799616655d5c326df66cc8a233ce, 0x6d443db2e22c47add40a56e820d592ea2c8c76bd45f324edc1fab7debd15d0b4, 0x7fffffffffffffffffffffffffffffffffffffffffffffffffffffffffffffed)
    ensures Next(0x55d7c63584a7e8799616655d5c326df66cc8a233ce, 0x6d443db2e22c47add40a56e820d592ea2c8c76bd45f324edc1fab7debd15d0b4, 0, 1, 0x2aebe31ac253f43ccb0b32aeae1936fb36645119e70, 0x5d0bf9d79d45c753159a74e430964d5f2b2a6b04a5cc3d6d0e2841f95fab7c8b, 0x7fffffffffffffffffffffffffffffffffffffffffffffffffffffffffffffed)
  {
  }

  lemma FieldTable9()
    ensures Next(0x2aebe31ac253f43ccb0b32aeae1936fb36645119e70, 0x5d0bf9d79d45c753159a74e430964d5f2b2a6b04a5cc3d6d0e2841f95fab7c8b, 3, 8, 0x1575f18d6129fa1e65859957570c9b7d9b32288cf383, 0x1da223532d2ff582b2dcf7e75146b360b97e8ce9b38e8a45ad538b955af0651, 0x7fffffffffffffffffffffffffffffffffffffffffffffffffffffffffffffed)
    ensures Next(0x1575f18d6129fa1e65859957570c9b7d9b32288cf383, 0x1da223532d2ff582b2dcf7e75146b360b97e8ce9b38e8a45ad538b955af0651, 2, 4, 0xabaf8c6b094fd0f32c2ccabab864dbecd99144679c1a, 0x620532aafa6f7b0c77e60db98c91c629fa0f1c2e23052381756075b1d4ab8ae8, 0x7fffffffffffffffffffffffffffffffffffffffffffffffffffffffffffffed)
    ensures Next(0xabaf8c6b094fd0f32c2ccabab864dbecd99144679c1a, 0x620532aafa6f7b0c77e60db98c91c629fa0f1c2e23052381756075b1d4ab8ae8, 6, 64, 0x55d7c63584a7e8799616655d5c326df66cc8a233ce0d6, 0x183c887aa9367b2dfaf8e6d168594570303c65126d352a3d674f3ef25cde921e, 0x7fffffffffffffffffffffffffffffffffffffffffffffffffffffffffffffed)
    ensures Next(0x55d7c63584a7e8799616655d5c326df66cc8a233ce0d6, 0x183c887aa9367b2dfaf8e6d168594570303c65126d352a3d674f3ef25cde921e, 7, 128, 0x2aebe31ac253f43ccb0b32aeae1936fb36645119e706b7, 0x17e1c43b031f0cfdcaabf2cdf0552c0e89665e556e93d1a917509cdd55f8a865, 0x7fffffffffffffffffffffffffffffffffffffffffffffffffffffffffffffed)
    ensures Next(0x2aebe31ac253f43ccb0b32aeae1936fb36645119e706b7, 0x17e1c43b031f0cfdcaabf2cdf0552c0e89665e556e93d1a917509cdd55f8a865, 7, 128, 0x1575f18d6129fa1e65859957570c9b7d9b32288cf3835bf, 0x3b42d50b2aaab3565a7c3c1369987b7482529184251ecd46e5b8e4ff39dafb38, 0x7fffffffffffffffffffffffffffffffffffffffffffffffffffffffffffffed)
    ensures Next(0x1575f18d6129fa1e65859957570c9b7d9b32288cf3835bf, 0x3b42d50b2aaab3565a7c3c1369987b7482529184251ecd46e5b8e4ff39dafb38, 0, 1, 0xabaf8c6b094fd0f32c2ccabab864dbecd99144679c1adf8, 0x481e09d63f54137740c365aadef0c903a2d036ce0516fb10e5673c077667994, 0x7fffffffffffffffffffffffffffffffffffffffffffffffffffffffffffffed)
    ensures Next(0xabaf8c6b094fd0f32c2ccabab864dbecd99144679c1adf8, 0x481e09d63f54137740c365aadef0c903a2d036ce0516fb10e5673c077667994, 0, 1, 0x55d7c63584a7e8799616655d5c326df66cc8a233ce0d6fc0, 0x53c241f40efa67af1534faa2a1cde0b05049773cc5497c1bf09b803b5d1b2db9, 0x7fffffffffffffffffffffffffffffffffffffffffffffffffffffffffffffed)
  {
  }

  lemma FieldPowers3()
    ensures IsPow(0x55d7c63584a7e8799616655d5c326df66cc8a233ce0d6fc0, 0x53c241f40efa67af1534faa2a1cde0b05049773cc5497c1bf09b803b5d1b2db9, 0x7fffffffffffffffffffffffffffffffffffffffffffffffffffffffffffffed)
  {
    hide Exp, IsPow, Next, Product;
    FieldPowers2();
    TableRules(0x7fffffffffffffffffffffffffffffffffffffffffffffffffffffffffffffed);
    FieldTable7();
    FieldTable8();
    FieldTable9();
  }

  lemma FieldTable10()
    ensures Next(0x55d7c63584a7e8799616655d5c326df66cc8a233ce0d6fc0, 0x53c241f40efa67af1534faa2a1cde0b05049773cc5497c1bf09b803b5d1b2db9, 1, 2, 0x2aebe31ac253f43ccb0b32aeae1936fb36645119e706b7e01, 0x648f46e28857b2670b6b14e35d90bfb483feaabc3d7b0263262266d5f7604882, 0x7fffffffffffffffffffffffffffffffffffffffffffffffffffffffffffffed)
    ensures Next(0x2aebe31ac253f43ccb0b32aeae1936fb36645119e706b7e01, 0x648f46e28857b2670b6b14e35d90bfb483feaabc3d7b0263262266d5f7604882, 1, 2, 0x1575f18d6129fa1e65859957570c9b7d9b32288cf3835bf009, 0x2947078f244ddb7671fb30f042b83db3d6f73a94801854868efd7a7ff55babc8, 0x7fffffffffffffffffffffffffffffffffffffffffffffffffffffffffffffed)
    ensures Next(0x1575f18d6129fa1e65859957570c9b7d9b32288cf3835bf009, 0x2947078f244ddb7671fb30f042b83db3d6f73a94801854868efd7a7ff55babc8, 0, 1, 0xabaf8c6b094fd0f32c2ccabab864dbecd99144679c1adf8048, 0x13301477a932aed72d26edb881fa653565bc07a239656b8e44952a4da34df251, 0x7fffffffffffffffffffffffffffffffffffffffffffffffffffffffffffffed)
    ensures Next(0xabaf8c6b094fd0f32c2ccabab864dbecd99144679c1adf8048, 0x13301477a932aed72d26edb881fa653565bc07a239656b8e44952a4da34df251, 4, 16, 0x55d7c63584a7e8799616655d5c326df66cc8a233ce0d6fc0244, 0x6124d06a3e9743f375537c5bbe5a51da9438b2f7d8c57de80265005b2fd287e1, 0x7fffffffffffffffffffffffffffffffffffffffffffffffffffffffffffffed)
    ensures Next(0x55d7c63584a7e8799616655d5c326df66cc8a233ce0d6fc0244, 0x6124d06a3e9743f375537c5bbe5a51da9438b2f7d8c57de80265005b2fd287e1, 6, 64, 0x2aebe31ac253f43ccb0b32aeae1936fb36645119e706b7e01226, 0x74f54fb1872f69fe9646e0ca0a718c4b11d7c4926154ddd038ebac48ecfcf07f, 0x7fffffffffffffffffffffffffffffffffffffffffffffffffffffffffffffed)
    ensures Next(0x2aebe31ac253f43ccb0b32aeae1936fb36645119e706b7e01226, 0x74f54fb1872f69fe9646e0ca0a718c4b11d7c4926154ddd038ebac48ecfcf07f, 1, 2, 0x1575f18d6129fa1e65859957570c9b7d9b32288cf3835bf009131, 0x720a611f80503f5aa908b621aba149a13806f5791be41870a746a8043cae167c, 0x7fffffffffffffffffffffffffffffffffffffffffffffffffffffffffffffed)
    ensures Next(0x1575f18d6129fa1e65859957570c9b7d9b32288cf3835bf009131, 0x720a611f80503f5aa908b621aba149a13806f5791be41870a746a8043cae167c, 7, 128, 0xabaf8c6b094fd0f32c2ccabab864dbecd99144679c1adf804898f, 0x15dfb277a3cb91e52e1e6c8e986cc66e09d7ea0d53a9c5b5ff82dfcdd74d8e1f, 0x7fffffffffffffffffffffffffffffffffffffffffffffffffffffffffffffed)
  {
  }

  lemma FieldTable11()
    ensures Next(0xabaf8c6b094fd0f32c2ccabab864dbecd99144679c1adf804898f, 0x15dfb277a3cb91e52e1e6c8e986cc66e09d7ea0d53a9c5b5ff82dfcdd74d8e1f, 5, 32, 0x55d7c63584a7e8799616655d5c326df66cc8a233ce0d6fc0244c7d, 0x6ded0722045200e8a76dd5c9aa269b4767ce182841f6b0820e479d153661972d, 0x7fffffffffffffffffffffffffffffffffffffffffffffffffffffffffffffed)
    ensures Next(0x55d7c63584a7e8799616655d5c326df66cc8a233ce0d6fc0244c7d, 0x6ded0722045200e8a76dd5c9aa269b4767ce182841f6b0820e479d153661972d, 4, 16, 0x2aebe31ac253f43ccb0b32aeae1936fb36645119e706b7e012263ec, 0x5d1fabfc8751460ca125d85e43d59457ace8962eb49a90d95bff5940664ff5f7, 0x7fffffffffffffffffffffffffffffffffffffffffffffffffffffffffffffed)
    ensures Next(0x2aebe31ac253f43ccb0b32aeae1936fb36645119e706b7e012263ec, 0x5d1fabfc8751460ca125d85e43d59457ace8962eb49a90d95bff5940664ff5f7, 4, 16, 0x1575f18d6129fa1e65859957570c9b7d9b32288cf3835bf009131f64, 0x7739dc49fff2fb3c94c5474421a7b4d6c517090a6cfa357d9913aee0294d2882, 0x7fffffffffffffffffffffffffffffffffffffffffffffffffffffffffffffed)
    ensures Next(0x1575f18d6129fa1e65859957570c9b7d9b32288cf3835bf009131f64, 0x7739dc49fff2fb3c94c5474421a7b4d6c517090a6cfa357d9913aee0294d2882, 0, 1, 0xabaf8c6b094fd0f32c2ccabab864dbecd99144679c1adf804898fb20, 0x78db8ad427a5c06cd60aa450bf7b9af22abdf7786681f35906519bf6cccfc31, 0x7fffffffffffffffffffffffffffffffffffffffffffffffffffffffffffffed)
    ensures Next(0xabaf8c6b094fd0f32c2ccabab864dbecd99144679c1adf804898fb20, 0x78db8ad427a5c06cd60aa450bf7b9af22abdf7786681f35906519bf6cccfc31, 2, 4, 0x55d7c63584a7e8799616655d5c326df66cc8a233ce0d6fc0244c7d902, 0x2e0bf931a04ef5090a0ffcbc777ace22707960a81688cd653bb8cf09013d1d95, 0x7fffffffffffffffffffffffffffffffffffffffffffffffffffffffffffffed)
    ensures Next(0x55d7c63584a7e8799616655d5c326df66cc8a233ce0d6fc0244c7d902, 0x2e0bf931a04ef5090a0ffcbc777ace22707960a81688cd653bb8cf09013d1d95, 0, 1, 0x2aebe31ac253f43ccb0b32aeae1936fb36645119e706b7e012263ec810, 0x1ae0166fb2af438ae641e1197a3bc46ec96786819ebc3216c0eb8321b5673f9e, 0x7fffffffffffffffffffffffffffffffffffffffffffffffffffffffffffffed)
    ensures Next(0x2aebe31ac253f43ccb0b32aeae1936fb36645119e706b7e012263ec810, 0x1ae0166fb2af438ae641e1197a3bc46ec96786819ebc3216c0eb8321b5673f9e, 5, 32, 0x1575f18d6129fa1e65859957570c9b7d9b32288cf3835bf009131f64085, 0x7013a4a740cacd3c783561d767e2759b1ed473c69a1a0e496f2b1e54c73f073f, 0x7fffffffffffffffffffffffffffffffffffffffffffffffffffffffffffffed)
  {
  }

  lemma FieldTable12()
    ensures Next(0x1575f18d6129fa1e65859957570c9b7d9b32288cf3835bf009131f64085, 0x7013a4a740cacd3c783561d767e2759b1ed473c69a1a0e496f2b1e54c73f073f, 3, 8, 0xabaf8c6b094fd0f32c2ccabab864dbecd99144679c1adf804898fb2042b, 0x1733485f48d4abcb296070f55e462a96ddbc4849818ccad19f501eede04b12c, 0x7fffffffffffffffffffffffffffffffffffffffffffffffffffffffffffffed)
    ensures Product(0xabaf8c6b094fd0f32c2ccabab864dbecd99144679c1adf804898fb2042b, 0x1733485f48d4abcb296070f55e462a96ddbc4849818ccad19f501eede04b12c, 0xabaf8c6b094fd0f32c2ccabab864dbecd99144679c1adf804898fb2042b, 0x1733485f48d4abcb296070f55e462a96ddbc4849818ccad19f501eede04b12c, 0x1575f18d6129fa1e65859957570c9b7d9b32288cf3835bf009131f640856, 0x340426a154f171e1388dc9d438844e153cda772c4827ea2b5b7d1e4df1ed7d29, 0x7fffffffffffffffffffffffffffffffffffffffffffffffffffffffffffffed)
    ensures Product(0x1575f18d6129fa1e65859957570c9b7d9b32288cf3835bf009131f640856, 0x340426a154f171e1388dc9d438844e153cda772c4827ea2b5b7d1e4df1ed7d29, 0xabaf8c6b094fd0f32c2ccabab864dbecd99144679c1adf804898fb2042b, 0x1733485f48d4abcb296070f55e462a96ddbc4849818ccad19f501eede04b12c, 0x2030ea5411bef72d984866030292e93c68cb3cd36d4509e80d9caf160c81, 0x235919ac45699ba7087da51a2f74e4bb495acb419d17ea1aaa43c5ddce26156f, 0x7fffffffffffffffffffffffffffffffffffffffffffffffffffffffffffffed)
    ensures Product(0x2030ea5411bef72d984866030292e93c68cb3cd36d4509e80d9caf160c81, 0x235919ac45699ba7087da51a2f74e4bb495acb419d17ea1aaa43c5ddce26156f, 0x2030ea5411bef72d984866030292e93c68cb3cd36d4509e80d9caf160c81, 0x235919ac45699ba7087da51a2f74e4bb495acb419d17ea1aaa43c5ddce26156f, 0x4061d4a8237dee5b3090cc060525d278d19679a6da8a13d01b395e2c1902, 0x4f499509438b3ad5242fa50970ea8ae7ed91656ffa4641258ff161161fe09956, 0x7fffffffffffffffffffffffffffffffffffffffffffffffffffffffffffffed)
    ensures Product(0x4061d4a8237dee5b3090cc060525d278d19679a6da8a13d01b395e2c1902, 0x4f499509438b3ad5242fa50970ea8ae7ed91656ffa4641258ff161161fe09956, 0xabaf8c6b094fd0f32c2ccabab864dbecd99144679c1adf804898fb2042b, 0x1733485f48d4abcb296070f55e462a96ddbc4849818ccad19f501eede04b12c, 0x4b1ccd6ed412eb6a635398b1b0ac20379f2f8ded544bc1c81fc2edde1d2d, 0x18252fb92dd0e4be387d4692ab82c7fb64e43bf5a9f362e35165babbe4d9e949, 0x7fffffffffffffffffffffffffffffffffffffffffffffffffffffffffffffed)
    ensures Next(0xabaf8c6b094fd0f32c2ccabab864dbecd99144679c1adf804898fb2042b, 0x1733485f48d4abcb296070f55e462a96ddbc4849818ccad19f501eede04b12c, 0x4b1ccd6ed412eb6a635398b1b0ac20379f2f8ded544bc1c81fc2edde1d2d, 0x18252fb92dd0e4be387d4692ab82c7fb64e43bf5a9f362e35165babbe4d9e949, 0xa0f493a458bad3e3f969fe0f0cde8e2e0bf8302122593188440f6b6e3e85, 0x1e75f0e155b3a6d2f671f89cba275adea10df10c1d8e3ee7e94252c14d17462a, 0x7fffffffffffffffffffffffffffffffffffffffffffffffffffffffffffffed)
    ensures Next(0xa0f493a458bad3e3f969fe0f0cde8e2e0bf8302122593188440f6b6e3e85, 0x1e75f0e155b3a6d2f671f89cba275adea10df10c1d8e3ee7e94252c14d17462a, 0x4b1ccd6ed412eb6a635398b1b0ac20379f2f8ded544bc1c81fc2edde1d2d, 0x18252fb92dd0e4be387d4692ab82c7fb64e43bf5a9f362e35165babbe4d9e949, 0x552c16a9199e98a8a2ea3892a17a091a7fef10ef667154e0a403e49501155, 0x78e78b58ce853b6e5c628ee44649d7fe4b945941e89930f24baf5d656d869d78, 0x7fffffffffffffffffffffffffffffffffffffffffffffffffffffffffffffed)
  {
  }

  lemma FieldPowers4()
    ensures IsPow(0x552c16a9199e98a8a2ea3892a17a091a7fef10ef667154e0a403e49501155, 0x78e78b58ce853b6e5c628ee44649d7fe4b945941e89930f24baf5d656d869d78, 0x7fffffffffffffffffffffffffffffffffffffffffffffffffffffffffffffed)
    ensures IsPow(0xabaf8c6b094fd0f32c2ccabab864dbecd99144679c1adf804898fb2042b, 0x1733485f48d4abcb296070f55e462a96ddbc4849818ccad19f501eede04b12c, 0x7fffffffffffffffffffffffffffffffffffffffffffffffffffffffffffffed)
    ensures IsPow(0x4b1ccd6ed412eb6a635398b1b0ac20379f2f8ded544bc1c81fc2edde1d2d, 0x18252fb92dd0e4be387d4692ab82c7fb64e43bf5a9f362e35165babbe4d9e949, 0x7fffffffffffffffffffffffffffffffffffffffffffffffffffffffffffffed)
    ensures IsPow(0x2030ea5411bef72d984866030292e93c68cb3cd36d4509e80d9caf160c81, 0x235919ac45699ba7087da51a2f74e4bb495acb419d17ea1aaa43c5ddce26156f, 0x7fffffffffffffffffffffffffffffffffffffffffffffffffffffffffffffed)
  {
    hide Exp, IsPow, Next, Product;
    FieldPowers3();
    TableRules(0x7fffffffffffffffffffffffffffffffffffffffffffffffffffffffffffffed);
    FieldTable10();
    FieldTable11();
    FieldTable12();
  }

  lemma FieldTable13()
    ensures Next(0x552c16a9199e98a8a2ea3892a17a091a7fef10ef667154e0a403e49501155, 0x78e78b58ce853b6e5c628ee44649d7fe4b945941e89930f24baf5d656d869d78, 0xabaf8c6b094fd0f32c2ccabab864dbecd99144679c1adf804898fb2042b, 0x1733485f48d4abcb296070f55e462a96ddbc4849818ccad19f501eede04b12c, 0x2aa0c64d537fe15160a7df15fc688adafec5218bf9b26c1e4a067bda328ed3, 0x2e6eab4524f23edf87a239bdfa88c1c5c84f6027394ffb2a2b48a211acc7cf80, 0x7fffffffffffffffffffffffffffffffffffffffffffffffffffffffffffffed)
    ensures Next(0x2aa0c64d537fe15160a7df15fc688adafec5218bf9b26c1e4a067bda328ed3, 0x2e6eab4524f23edf87a239bdfa88c1c5c84f6027394ffb2a2b48a211acc7cf80, 0x4b1ccd6ed412eb6a635398b1b0ac20379f2f8ded544bc1c81fc2edde1d2d, 0x18252fb92dd0e4be387d4692ab82c7fb64e43bf5a9f362e35165babbe4d9e949, 0x155514f380ad31d766fa24c4894f502f82dc83bedbae7acb41853a1bf7293c5, 0x2a098eef1d1307a2252ba551655ebc314c25eecdcfc2ba767ed9eaeed974ffdc, 0x7fffffffffffffffffffffffffffffffffffffffffffffffffffffffffffffed)
    ensures Next(0x155514f380ad31d766fa24c4894f502f82dc83bedbae7acb41853a1bf7293c5, 0x2a098eef1d1307a2252ba551655ebc314c25eecdcfc2ba767ed9eaeed974ffdc, 0x2030ea5411bef72d984866030292e93c68cb3cd36d4509e80d9caf160c81, 0x235919ac45699ba7087da51a2f74e4bb495acb419d17ea1aaa43c5ddce26156f, 0xaaaaaaaaaaaaaaaaaaaaaaaaaaaaaaaaaaaaaaaaaaaaaaaaaaaaaaaaaaaaaa9, 0x665edd79319379b5bd6f2d9d5880b9171481d35478027bb2ede68f9c80010ce8, 0x7fffffffffffffffffffffffffffffffffffffffffffffffffffffffffffffed)
    ensures Product(0xaaaaaaaaaaaaaaaaaaaaaaaaaaaaaaaaaaaaaaaaaaaaaaaaaaaaaaaaaaaaaa9, 0x665edd79319379b5bd6f2d9d5880b9171481d35478027bb2ede68f9c80010ce8, 0xaaaaaaaaaaaaaaaaaaaaaaaaaaaaaaaaaaaaaaaaaaaaaaaaaaaaaaaaaaaaaa9, 0x665edd79319379b5bd6f2d9d5880b9171481d35478027bb2ede68f9c80010ce8, 0x1555555555555555555555555555555555555555555555555555555555555552, 0x381cba36aa6565b5d9872fccc55bd5291a1aada8413a4550aa86d89d8618e539, 0x7fffffffffffffffffffffffffffffffffffffffffffffffffffffffffffffed)
    ensures Product(0x1555555555555555555555555555555555555555555555555555555555555552, 0x381cba36aa6565b5d9872fccc55bd5291a1aada8413a4550aa86d89d8618e539, 0x1555555555555555555555555555555555555555555555555555555555555552, 0x381cba36aa6565b5d9872fccc55bd5291a1aada8413a4550aa86d89d8618e539, 0x2aaaaaaaaaaaaaaaaaaaaaaaaaaaaaaaaaaaaaaaaaaaaaaaaaaaaaaaaaaaaaa4, 0x381cba36aa6565b5d9872fccc55bd5291a1aada8413a4550aa86d89d8618e538, 0x7fffffffffffffffffffffffffffffffffffffffffffffffffffffffffffffed)
    ensures Product(0x2aaaaaaaaaaaaaaaaaaaaaaaaaaaaaaaaaaaaaaaaaaaaaaaaaaaaaaaaaaaaaa4, 0x381cba36aa6565b5d9872fccc55bd5291a1aada8413a4550aa86d89d8618e538, 0x1555555555555555555555555555555555555555555555555555555555555552, 0x381cba36aa6565b5d9872fccc55bd5291a1aada8413a4550aa86d89d8618e539, 0x3ffffffffffffffffffffffffffffffffffffffffffffffffffffffffffffff6, 0x7fffffffffffffffffffffffffffffffffffffffffffffffffffffffffffffec, 0x7fffffffffffffffffffffffffffffffffffffffffffffffffffffffffffffed)
    ensures Product(0x3ffffffffffffffffffffffffffffffffffffffffffffffffffffffffffffff6, 0x7fffffffffffffffffffffffffffffffffffffffffffffffffffffffffffffec, 0x3ffffffffffffffffffffffffffffffffffffffffffffffffffffffffffffff6, 0x7fffffffffffffffffffffffffffffffffffffffffffffffffffffffffffffec, 0x7fffffffffffffffffffffffffffffffffffffffffffffffffffffffffffffec, 1, 0x7fffffffffffffffffffffffffffffffffffffffffffffffffffffffffffffed)
  {
  }

  lemma FieldTable14()
    ensures Product(0x2030ea5411bef72d984866030292e93c68cb3cd36d4509e80d9caf160c81, 0x235919ac45699ba7087da51a2f74e4bb495acb419d17ea1aaa43c5ddce26156f, 0xabaf8c6b094fd0f32c2ccabab864dbecd99144679c1adf804898fb2042b, 0x1733485f48d4abcb296070f55e462a96ddbc4849818ccad19f501eede04b12c, 0x2aebe31ac253f43ccb0b32aeae1936fb36645119e706b7e012263ec810ac, 0x78c41e0ed2c63599414c01151954c12d00b29334ef4d0a92b7aa31cb4f161186, 0x7fffffffffffffffffffffffffffffffffffffffffffffffffffffffffffffed)
    ensures Next(0xabaf8c6b094fd0f32c2ccabab864dbecd99144679c1adf804898fb2042b, 0x1733485f48d4abcb296070f55e462a96ddbc4849818ccad19f501eede04b12c, 0x2aebe31ac253f43ccb0b32aeae1936fb36645119e706b7e012263ec810ac, 0x78c41e0ed2c63599414c01151954c12d00b29334ef4d0a92b7aa31cb4f161186, 0x80c3a95046fbdcb66121980c0a4ba4f1a32cf34db51427a03672bc583204, 0x31f898664ddaeae6953487fc1d8b0e216d1c7f740067e0f5c04ca7acdbddd5be, 0x7fffffffffffffffffffffffffffffffffffffffffffffffffffffffffffffed)
    ensures Next(2, 4, 7, 128, 23, 0x800000, 0x7fffffffffffffffffffffffffffffffffffffffffffffffffffffffffffffed)
    ensures Next(23, 0x800000, 6, 64, 190, 0x400000000000000000000000000000000000000000000000, 0x7fffffffffffffffffffffffffffffffffffffffffffffffffffffffffffffed)
    ensures Next(190, 0x400000000000000000000000000000000000000000000000, 6, 64, 0x5f6, 0x18000000000000000000000000000000000000000000000000000000002cddcc, 0x7fffffffffffffffffffffffffffffffffffffffffffffffffffffffffffffed)
    ensures Next(0x5f6, 0x18000000000000000000000000000000000000000000000000000000002cddcc, 7, 128, 0x2fb7, 0x162216c0000000000007778a91c0dd372b6facff37ea5ac6606bd318fa0e0f79, 0x7fffffffffffffffffffffffffffffffffffffffffffffffffffffffffffffed)
    ensures Next(0x2fb7, 0x162216c0000000000007778a91c0dd372b6facff37ea5ac6606bd318fa0e0f79, 0, 1, 0x17db8, 0x4029dd07f147e9f9cf214b626c20bb9c254fc9c7d0b5bdf5cd1e706290bb9f73, 0x7fffffffffffffffffffffffffffffffffffffffffffffffffffffffffffffed)
  {
  }

  lemma FieldTable15()
    ensures Next(0x17db8, 0x4029dd07f147e9f9cf214b626c20bb9c254fc9c7d0b5bdf5cd1e706290bb9f73, 4, 16, 0xbedc4, 0xf1ba0c491eeef83c49fc1b744331bb096d4893142c187431f7b03e61a75a49, 0x7fffffffffffffffffffffffffffffffffffffffffffffffffffffffffffffed)
  {
  }

  lemma FieldPowers5()
    ensures IsPow(0x3ffffffffffffffffffffffffffffffffffffffffffffffffffffffffffffff6, 0x7fffffffffffffffffffffffffffffffffffffffffffffffffffffffffffffec, 0x7fffffffffffffffffffffffffffffffffffffffffffffffffffffffffffffed)
    ensures IsPow(0x2aaaaaaaaaaaaaaaaaaaaaaaaaaaaaaaaaaaaaaaaaaaaaaaaaaaaaaaaaaaaaa4, 0x381cba36aa6565b5d9872fccc55bd5291a1aada8413a4550aa86d89d8618e538, 0x7fffffffffffffffffffffffffffffffffffffffffffffffffffffffffffffed)
    ensures IsPow(0x80c3a95046fbdcb66121980c0a4ba4f1a32cf34db51427a03672bc583204, 0x31f898664ddaeae6953487fc1d8b0e216d1c7f740067e0f5c04ca7acdbddd5be, 0x7fffffffffffffffffffffffffffffffffffffffffffffffffffffffffffffed)
    ensures IsPow(0xbedc4, 0xf1ba0c491eeef83c49fc1b744331bb096d4893142c187431f7b03e61a75a49, 0x7fffffffffffffffffffffffffffffffffffffffffffffffffffffffffffffed)
    ensures IsPow(0x7fffffffffffffffffffffffffffffffffffffffffffffffffffffffffffffec, 1, 0x7fffffffffffffffffffffffffffffffffffffffffffffffffffffffffffffed)
  {
    hide Exp, IsPow, Next, Product;
    FieldPowers4();
    TableRules(0x7fffffffffffffffffffffffffffffffffffffffffffffffffffffffffffffed);
    FieldTable13();
    FieldTable14();
    FieldTable15();
  }

  /** 2 has order p - 1 modulo p = 2^255 - 19. */
  lemma TwoGenerates()
    ensures IsOrder(2, 0x7fffffffffffffffffffffffffffffffffffffffffffffffffffffffffffffec, 0x7fffffffffffffffffffffffffffffffffffffffffffffffffffffffffffffed)
  {
    hide Exp, IsPow, Prime, Cong, IsOrder;
    Prime2();
    Prime3();
    Prime65147();
    Prime236();
    FieldPowers5();
    Generates(0xabaf8c6b094fd0f32c2ccabab864dbecd99144679c1adf804898fb2042b, 0x7fffffffffffffffffffffffffffffffffffffffffffffffffffffffffffffed, 0x7fffffffffffffffffffffffffffffffffffffffffffffffffffffffffffffec, 0x381cba36aa6565b5d9872fccc55bd5291a1aada8413a4550aa86d89d8618e538, 0x31f898664ddaeae6953487fc1d8b0e216d1c7f740067e0f5c04ca7acdbddd5be, 0xf1ba0c491eeef83c49fc1b744331bb096d4893142c187431f7b03e61a75a49);
  }
}
