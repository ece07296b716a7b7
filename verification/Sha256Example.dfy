/** The standard's worked example: the digest of "abc". The reference is led along its schedule and its rounds, each
    step being a fact about literals. */
module PublishedExample {
  import opened Fips180
  import opened Fips180Properties
  import opened HashUtil

  const ABC: seq<Byte> := [0x61, 0x62, 0x63]

  /** One step of the message schedule. */
  predicate Expands(w2: Word, w7: Word, w15: Word, w16: Word, w: Word) {
    Plus(Plus(Plus(SmallSigma1(w2), w7), SmallSigma0(w15)), w16) == w
  }

  predicate Constant(n: nat, k: Word) { n < 64 && RoundConstant(n) == k }

  /** One round, which computes new values of a and e only. */
  predicate Advances(v: Chain, k: Word, w: Word, a: Word, e: Word) {
    Round(v, k, w) == Chain(a, v.a, v.b, v.c, e, v.e, v.f, v.g)
  }

  // ---------- the message ----------

  lemma Padded()
    ensures |Pad(ABC)| == 64
    ensures forall i :: 0 <= i < 64 ==>
              Pad(ABC)[i] == if i < 3 then ABC[i] else if i == 3 then 0x80 else if i == 63 then 0x18 else 0
  {
    assert BitLength(3) == 24 && ByteOf(24) == 0x18 && ByteOf(0) == 0;
    assert BigEndian(24, 8) == BigEndian(0, 7) + [0x18];
    assert BigEndian(0, 7) == [0, 0, 0, 0, 0, 0, 0];
  }

  lemma Block(t: nat)
    requires t < 16
    ensures |Pad(ABC)| == 64
    ensures BlockWord(Pad(ABC), t) == if t == 0 then 0x61626380 else if t == 15 then 0x18 else 0
  {
    hide Pad;
    Padded();
  }

  // ---------- the schedule ----------

  predicate Scheduled(t: nat, w: Word) { |Pad(ABC)| == 64 && Schedule(Pad(ABC), t) == w }

  lemma Words0()
    ensures Scheduled(0, 0x61626380) && Scheduled(1, 0x00000000) && Scheduled(2, 0x00000000)
    ensures Scheduled(3, 0x00000000) && Scheduled(4, 0x00000000) && Scheduled(5, 0x00000000)
    ensures Scheduled(6, 0x00000000) && Scheduled(7, 0x00000000) && Scheduled(8, 0x00000000)
    ensures Scheduled(9, 0x00000000) && Scheduled(10, 0x00000000) && Scheduled(11, 0x00000000)
    ensures Scheduled(12, 0x00000000) && Scheduled(13, 0x00000000) && Scheduled(14, 0x00000000)
    ensures Scheduled(15, 0x00000018)
  {
    hide Pad, BlockWord, Plus;
    Padded();
    forall t: nat | t < 16
      ensures Schedule(Pad(ABC), t) == if t == 0 then 0x61626380 else if t == 15 then 0x18 else 0
    {
      Block(t);
    }
  }

  /** Word `t` follows from four earlier ones. */
  lemma NextWord(t: nat, w2: Word, w7: Word, w15: Word, w16: Word, w: Word)
    requires 16 <= t && Expands(w2, w7, w15, w16, w)
    requires Scheduled(t - 2, w2) && Scheduled(t - 7, w7) && Scheduled(t - 15, w15) && Scheduled(t - 16, w16)
    ensures Scheduled(t, w)
  {
    hide Pad, Plus, SmallSigma0, SmallSigma1;
    LaterWords(Pad(ABC), t);
  }

  lemma Words16()
    ensures Scheduled(16, 0x61626380) && Scheduled(17, 0x000f0000) && Scheduled(18, 0x7da86405)
    ensures Scheduled(19, 0x600003c6) && Scheduled(20, 0x3e9d7b78) && Scheduled(21, 0x0183fc00)
    ensures Scheduled(22, 0x12dcbfdb) && Scheduled(23, 0xe2e2c38e) && Scheduled(24, 0xc8215c1a)
    ensures Scheduled(25, 0xb73679a2) && Scheduled(26, 0xe5bc3909) && Scheduled(27, 0x32663c5b)
    ensures Scheduled(28, 0x9d209d67) && Scheduled(29, 0xec8726cb) && Scheduled(30, 0x702138a4)
    ensures Scheduled(31, 0xd3b7973b)
  {
    hide Scheduled;
    Words0();
    NextWord(16, 0x00000000, 0x00000000, 0x00000000, 0x61626380, 0x61626380);
    NextWord(17, 0x00000018, 0x00000000, 0x00000000, 0x00000000, 0x000f0000);
    NextWord(18, 0x61626380, 0x00000000, 0x00000000, 0x00000000, 0x7da86405);
    NextWord(19, 0x000f0000, 0x00000000, 0x00000000, 0x00000000, 0x600003c6);
    NextWord(20, 0x7da86405, 0x00000000, 0x00000000, 0x00000000, 0x3e9d7b78);
    NextWord(21, 0x600003c6, 0x00000000, 0x00000000, 0x00000000, 0x0183fc00);
    NextWord(22, 0x3e9d7b78, 0x00000018, 0x00000000, 0x00000000, 0x12dcbfdb);
    NextWord(23, 0x0183fc00, 0x61626380, 0x00000000, 0x00000000, 0xe2e2c38e);
    NextWord(24, 0x12dcbfdb, 0x000f0000, 0x00000000, 0x00000000, 0xc8215c1a);
    NextWord(25, 0xe2e2c38e, 0x7da86405, 0x00000000, 0x00000000, 0xb73679a2);
    NextWord(26, 0xc8215c1a, 0x600003c6, 0x00000000, 0x00000000, 0xe5bc3909);
    NextWord(27, 0xb73679a2, 0x3e9d7b78, 0x00000000, 0x00000000, 0x32663c5b);
    NextWord(28, 0xe5bc3909, 0x0183fc00, 0x00000000, 0x00000000, 0x9d209d67);
    NextWord(29, 0x32663c5b, 0x12dcbfdb, 0x00000000, 0x00000000, 0xec8726cb);
    NextWord(30, 0x9d209d67, 0xe2e2c38e, 0x00000018, 0x00000000, 0x702138a4);
    NextWord(31, 0xec8726cb, 0xc8215c1a, 0x61626380, 0x00000018, 0xd3b7973b);
  }

  lemma Words32()
    ensures Scheduled(32, 0x93f5997f) && Scheduled(33, 0x3b68ba73) && Scheduled(34, 0xaff4ffc1)
    ensures Scheduled(35, 0xf10a5c62) && Scheduled(36, 0x0a8b3996) && Scheduled(37, 0x72af830a)
    ensures Scheduled(38, 0x9409e33e) && Scheduled(39, 0x24641522) && Scheduled(40, 0x9f47bf94)
    ensures Scheduled(41, 0xf0a64f5a) && Scheduled(42, 0x3e246a79) && Scheduled(43, 0x27333ba3)
    ensures Scheduled(44, 0x0c4763f2) && Scheduled(45, 0x840abf27) && Scheduled(46, 0x7a290d5d)
    ensures Scheduled(47, 0x065c43da)
  {
    hide Scheduled;
    Words0();
    Words16();
    NextWord(32, 0x702138a4, 0xb73679a2, 0x000f0000, 0x61626380, 0x93f5997f);
    NextWord(33, 0xd3b7973b, 0xe5bc3909, 0x7da86405, 0x000f0000, 0x3b68ba73);
    NextWord(34, 0x93f5997f, 0x32663c5b, 0x600003c6, 0x7da86405, 0xaff4ffc1);
    NextWord(35, 0x3b68ba73, 0x9d209d67, 0x3e9d7b78, 0x600003c6, 0xf10a5c62);
    NextWord(36, 0xaff4ffc1, 0xec8726cb, 0x0183fc00, 0x3e9d7b78, 0x0a8b3996);
    NextWord(37, 0xf10a5c62, 0x702138a4, 0x12dcbfdb, 0x0183fc00, 0x72af830a);
    NextWord(38, 0x0a8b3996, 0xd3b7973b, 0xe2e2c38e, 0x12dcbfdb, 0x9409e33e);
    NextWord(39, 0x72af830a, 0x93f5997f, 0xc8215c1a, 0xe2e2c38e, 0x24641522);
    NextWord(40, 0x9409e33e, 0x3b68ba73, 0xb73679a2, 0xc8215c1a, 0x9f47bf94);
    NextWord(41, 0x24641522, 0xaff4ffc1, 0xe5bc3909, 0xb73679a2, 0xf0a64f5a);
    NextWord(42, 0x9f47bf94, 0xf10a5c62, 0x32663c5b, 0xe5bc3909, 0x3e246a79);
    NextWord(43, 0xf0a64f5a, 0x0a8b3996, 0x9d209d67, 0x32663c5b, 0x27333ba3);
    NextWord(44, 0x3e246a79, 0x72af830a, 0xec8726cb, 0x9d209d67, 0x0c4763f2);
    NextWord(45, 0x27333ba3, 0x9409e33e, 0x702138a4, 0xec8726cb, 0x840abf27);
    NextWord(46, 0x0c4763f2, 0x24641522, 0xd3b7973b, 0x702138a4, 0x7a290d5d);
    NextWord(47, 0x840abf27, 0x9f47bf94, 0x93f5997f, 0xd3b7973b, 0x065c43da);
  }

  lemma Words48()
    ensures Scheduled(48, 0xfb3e89cb) && Scheduled(49, 0xcc7617db) && Scheduled(50, 0xb9e66c34)
    ensures Scheduled(51, 0xa9993667) && Scheduled(52, 0x84badedd) && Scheduled(53, 0xc21462bc)
    ensures Scheduled(54, 0x1487472c) && Scheduled(55, 0xb20f7a99) && Scheduled(56, 0xef57b9cd)
    ensures Scheduled(57, 0xebe6b238) && Scheduled(58, 0x9fe3095e) && Scheduled(59, 0x78bc8d4b)
    ensures Scheduled(60, 0xa43fcf15) && Scheduled(61, 0x668b2ff8) && Scheduled(62, 0xeeaba2cc)
    ensures Scheduled(63, 0x12b1edeb)
  {
    hide Scheduled;
    Words16();
    Words32();
    NextWord(48, 0x7a290d5d, 0xf0a64f5a, 0x3b68ba73, 0x93f5997f, 0xfb3e89cb);
    NextWord(49, 0x065c43da, 0x3e246a79, 0xaff4ffc1, 0x3b68ba73, 0xcc7617db);
    NextWord(50, 0xfb3e89cb, 0x27333ba3, 0xf10a5c62, 0xaff4ffc1, 0xb9e66c34);
    NextWord(51, 0xcc7617db, 0x0c4763f2, 0x0a8b3996, 0xf10a5c62, 0xa9993667);
    NextWord(52, 0xb9e66c34, 0x840abf27, 0x72af830a, 0x0a8b3996, 0x84badedd);
    NextWord(53, 0xa9993667, 0x7a290d5d, 0x9409e33e, 0x72af830a, 0xc21462bc);
    NextWord(54, 0x84badedd, 0x065c43da, 0x24641522, 0x9409e33e, 0x1487472c);
    NextWord(55, 0xc21462bc, 0xfb3e89cb, 0x9f47bf94, 0x24641522, 0xb20f7a99);
    NextWord(56, 0x1487472c, 0xcc7617db, 0xf0a64f5a, 0x9f47bf94, 0xef57b9cd);
    NextWord(57, 0xb20f7a99, 0xb9e66c34, 0x3e246a79, 0xf0a64f5a, 0xebe6b238);
    NextWord(58, 0xef57b9cd, 0xa9993667, 0x27333ba3, 0x3e246a79, 0x9fe3095e);
    NextWord(59, 0xebe6b238, 0x84badedd, 0x0c4763f2, 0x27333ba3, 0x78bc8d4b);
    NextWord(60, 0x9fe3095e, 0xc21462bc, 0x840abf27, 0x0c4763f2, 0xa43fcf15);
    NextWord(61, 0x78bc8d4b, 0x1487472c, 0x7a290d5d, 0x840abf27, 0x668b2ff8);
    NextWord(62, 0xa43fcf15, 0xb20f7a99, 0x065c43da, 0x7a290d5d, 0xeeaba2cc);
    NextWord(63, 0x668b2ff8, 0xef57b9cd, 0xfb3e89cb, 0x065c43da, 0x12b1edeb);
  }

  // ---------- the rounds ----------

  predicate Reached(n: nat, v: Chain) { |Pad(ABC)| == 64 && n <= 64 && Rounds(H0, Pad(ABC), n) == v }

  lemma Constants0()
    ensures Constant(0, 0x428a2f98) && Constant(1, 0x71374491) && Constant(2, 0xb5c0fbcf)
    ensures Constant(3, 0xe9b5dba5) && Constant(4, 0x3956c25b) && Constant(5, 0x59f111f1)
    ensures Constant(6, 0x923f82a4) && Constant(7, 0xab1c5ed5) && Constant(8, 0xd807aa98)
    ensures Constant(9, 0x12835b01) && Constant(10, 0x243185be) && Constant(11, 0x550c7dc3)
    ensures Constant(12, 0x72be5d74) && Constant(13, 0x80deb1fe) && Constant(14, 0x9bdc06a7)
    ensures Constant(15, 0xc19bf174)
  {}

  lemma Constants16()
    ensures Constant(16, 0xe49b69c1) && Constant(17, 0xefbe4786) && Constant(18, 0x0fc19dc6)
    ensures Constant(19, 0x240ca1cc) && Constant(20, 0x2de92c6f) && Constant(21, 0x4a7484aa)
    ensures Constant(22, 0x5cb0a9dc) && Constant(23, 0x76f988da) && Constant(24, 0x983e5152)
    ensures Constant(25, 0xa831c66d) && Constant(26, 0xb00327c8) && Constant(27, 0xbf597fc7)
    ensures Constant(28, 0xc6e00bf3) && Constant(29, 0xd5a79147) && Constant(30, 0x06ca6351)
    ensures Constant(31, 0x14292967)
  {}

  lemma Constants32()
    ensures Constant(32, 0x27b70a85) && Constant(33, 0x2e1b2138) && Constant(34, 0x4d2c6dfc)
    ensures Constant(35, 0x53380d13) && Constant(36, 0x650a7354) && Constant(37, 0x766a0abb)
    ensures Constant(38, 0x81c2c92e) && Constant(39, 0x92722c85) && Constant(40, 0xa2bfe8a1)
    ensures Constant(41, 0xa81a664b) && Constant(42, 0xc24b8b70) && Constant(43, 0xc76c51a3)
    ensures Constant(44, 0xd192e819) && Constant(45, 0xd6990624) && Constant(46, 0xf40e3585)
    ensures Constant(47, 0x106aa070)
  {}

  lemma Constants48()
    ensures Constant(48, 0x19a4c116) && Constant(49, 0x1e376c08) && Constant(50, 0x2748774c)
    ensures Constant(51, 0x34b0bcb5) && Constant(52, 0x391c0cb3) && Constant(53, 0x4ed8aa4a)
    ensures Constant(54, 0x5b9cca4f) && Constant(55, 0x682e6ff3) && Constant(56, 0x748f82ee)
    ensures Constant(57, 0x78a5636f) && Constant(58, 0x84c87814) && Constant(59, 0x8cc70208)
    ensures Constant(60, 0x90befffa) && Constant(61, 0xa4506ceb) && Constant(62, 0xbef9a3f7)
    ensures Constant(63, 0xc67178f2)
  {}

  lemma NextRound(n: nat, v: Chain, k: Word, w: Word, a: Word, e: Word)
    requires n < 64 && Advances(v, k, w, a, e)
    requires Reached(n, v) && Constant(n, k) && Scheduled(n, w)
    ensures Reached(n + 1, Chain(a, v.a, v.b, v.c, e, v.e, v.f, v.g))
  {
    hide Round, RoundConstant, Pad, Schedule;
  }

  lemma FirstRound()
    ensures Reached(0, H0)
  {
    hide Pad;
    Padded();
  }

  lemma Rounds0()
    ensures Reached(8,
              Chain(0x85a07b5f, 0xe5030380, 0x2b4209f5, 0x04409a6a, 0x0c657a79, 0x9b27a401, 0x714260ad, 0x43ada245))
  {
    hide Scheduled, Constant, Reached;
    Words0();
    Constants0();
    FirstRound();
    NextRound(0, Chain(0x6a09e667, 0xbb67ae85, 0x3c6ef372, 0xa54ff53a, 0x510e527f, 0x9b05688c, 0x1f83d9ab, 0x5be0cd19),
              0x428a2f98, 0x61626380, 0x5d6aebcd, 0xfa2a4622);
    NextRound(1, Chain(0x5d6aebcd, 0x6a09e667, 0xbb67ae85, 0x3c6ef372, 0xfa2a4622, 0x510e527f, 0x9b05688c, 0x1f83d9ab),
              0x71374491, 0x00000000, 0x5a6ad9ad, 0x78ce7989);
    NextRound(2, Chain(0x5a6ad9ad, 0x5d6aebcd, 0x6a09e667, 0xbb67ae85, 0x78ce7989, 0xfa2a4622, 0x510e527f, 0x9b05688c),
              0xb5c0fbcf, 0x00000000, 0xc8c347a7, 0xf92939eb);
    NextRound(3, Chain(0xc8c347a7, 0x5a6ad9ad, 0x5d6aebcd, 0x6a09e667, 0xf92939eb, 0x78ce7989, 0xfa2a4622, 0x510e527f),
              0xe9b5dba5, 0x00000000, 0xd550f666, 0x24e00850);
    NextRound(4, Chain(0xd550f666, 0xc8c347a7, 0x5a6ad9ad, 0x5d6aebcd, 0x24e00850, 0xf92939eb, 0x78ce7989, 0xfa2a4622),
              0x3956c25b, 0x00000000, 0x04409a6a, 0x43ada245);
    NextRound(5, Chain(0x04409a6a, 0xd550f666, 0xc8c347a7, 0x5a6ad9ad, 0x43ada245, 0x24e00850, 0xf92939eb, 0x78ce7989),
              0x59f111f1, 0x00000000, 0x2b4209f5, 0x714260ad);
    NextRound(6, Chain(0x2b4209f5, 0x04409a6a, 0xd550f666, 0xc8c347a7, 0x714260ad, 0x43ada245, 0x24e00850, 0xf92939eb),
              0x923f82a4, 0x00000000, 0xe5030380, 0x9b27a401);
    NextRound(7, Chain(0xe5030380, 0x2b4209f5, 0x04409a6a, 0xd550f666, 0x9b27a401, 0x714260ad, 0x43ada245, 0x24e00850),
              0xab1c5ed5, 0x00000000, 0x85a07b5f, 0x0c657a79);
  }

  lemma Rounds8()
    ensures Reached(16,
              Chain(0xb0fa238e, 0xc0645fde, 0xd932eb16, 0x87912990, 0x07590dcd, 0x0b92f20c, 0x745a48de, 0x1e578218))
  {
    hide Scheduled, Constant, Reached;
    Words0();
    Constants0();
    Rounds0();
    NextRound(8, Chain(0x85a07b5f, 0xe5030380, 0x2b4209f5, 0x04409a6a, 0x0c657a79, 0x9b27a401, 0x714260ad, 0x43ada245),
              0xd807aa98, 0x00000000, 0x8e04ecb9, 0x32ca2d8c);
    NextRound(9, Chain(0x8e04ecb9, 0x85a07b5f, 0xe5030380, 0x2b4209f5, 0x32ca2d8c, 0x0c657a79, 0x9b27a401, 0x714260ad),
              0x12835b01, 0x00000000, 0x8c87346b, 0x1cc92596);
    NextRound(10, Chain(0x8c87346b, 0x8e04ecb9, 0x85a07b5f, 0xe5030380, 0x1cc92596, 0x32ca2d8c, 0x0c657a79, 0x9b27a401),
              0x243185be, 0x00000000, 0x4798a3f4, 0x436b23e8);
    NextRound(11, Chain(0x4798a3f4, 0x8c87346b, 0x8e04ecb9, 0x85a07b5f, 0x436b23e8, 0x1cc92596, 0x32ca2d8c, 0x0c657a79),
              0x550c7dc3, 0x00000000, 0xf71fc5a9, 0x816fd6e9);
    NextRound(12, Chain(0xf71fc5a9, 0x4798a3f4, 0x8c87346b, 0x8e04ecb9, 0x816fd6e9, 0x436b23e8, 0x1cc92596, 0x32ca2d8c),
              0x72be5d74, 0x00000000, 0x87912990, 0x1e578218);
    NextRound(13, Chain(0x87912990, 0xf71fc5a9, 0x4798a3f4, 0x8c87346b, 0x1e578218, 0x816fd6e9, 0x436b23e8, 0x1cc92596),
              0x80deb1fe, 0x00000000, 0xd932eb16, 0x745a48de);
    NextRound(14, Chain(0xd932eb16, 0x87912990, 0xf71fc5a9, 0x4798a3f4, 0x745a48de, 0x1e578218, 0x816fd6e9, 0x436b23e8),
              0x9bdc06a7, 0x00000000, 0xc0645fde, 0x0b92f20c);
    NextRound(15, Chain(0xc0645fde, 0xd932eb16, 0x87912990, 0xf71fc5a9, 0x0b92f20c, 0x745a48de, 0x1e578218, 0x816fd6e9),
              0xc19bf174, 0x00000018, 0xb0fa238e, 0x07590dcd);
  }

  lemma Rounds16()
    ensures Reached(24,
              Chain(0xc5d53d8d, 0xa7a3623f, 0xc2606d6d, 0x9dc68b63, 0xaa47c347, 0x49f5114a, 0xe1257970, 0x8ada8930))
  {
    hide Scheduled, Constant, Reached;
    Words16();
    Constants16();
    Rounds8();
    NextRound(16, Chain(0xb0fa238e, 0xc0645fde, 0xd932eb16, 0x87912990, 0x07590dcd, 0x0b92f20c, 0x745a48de, 0x1e578218),
              0xe49b69c1, 0x61626380, 0x21da9a9b, 0x8034229c);
    NextRound(17, Chain(0x21da9a9b, 0xb0fa238e, 0xc0645fde, 0xd932eb16, 0x8034229c, 0x07590dcd, 0x0b92f20c, 0x745a48de),
              0xefbe4786, 0x000f0000, 0xc2fbd9d1, 0x846ee454);
    NextRound(18, Chain(0xc2fbd9d1, 0x21da9a9b, 0xb0fa238e, 0xc0645fde, 0x846ee454, 0x8034229c, 0x07590dcd, 0x0b92f20c),
              0x0fc19dc6, 0x7da86405, 0xfe777bbf, 0xcc899961);
    NextRound(19, Chain(0xfe777bbf, 0xc2fbd9d1, 0x21da9a9b, 0xb0fa238e, 0xcc899961, 0x846ee454, 0x8034229c, 0x07590dcd),
              0x240ca1cc, 0x600003c6, 0xe1f20c33, 0xb0638179);
    NextRound(20, Chain(0xe1f20c33, 0xfe777bbf, 0xc2fbd9d1, 0x21da9a9b, 0xb0638179, 0xcc899961, 0x846ee454, 0x8034229c),
              0x2de92c6f, 0x3e9d7b78, 0x9dc68b63, 0x8ada8930);
    NextRound(21, Chain(0x9dc68b63, 0xe1f20c33, 0xfe777bbf, 0xc2fbd9d1, 0x8ada8930, 0xb0638179, 0xcc899961, 0x846ee454),
              0x4a7484aa, 0x0183fc00, 0xc2606d6d, 0xe1257970);
    NextRound(22, Chain(0xc2606d6d, 0x9dc68b63, 0xe1f20c33, 0xfe777bbf, 0xe1257970, 0x8ada8930, 0xb0638179, 0xcc899961),
              0x5cb0a9dc, 0x12dcbfdb, 0xa7a3623f, 0x49f5114a);
    NextRound(23, Chain(0xa7a3623f, 0xc2606d6d, 0x9dc68b63, 0xe1f20c33, 0x49f5114a, 0xe1257970, 0x8ada8930, 0xb0638179),
              0x76f988da, 0xe2e2c38e, 0xc5d53d8d, 0xaa47c347);
  }

  lemma Rounds24()
    ensures Reached(32,
              Chain(0x73b33bf5, 0xea992a22, 0xa0060b30, 0x363482c9, 0xba591112, 0x0109ab3a, 0xade79437, 0x6112a3b7))
  {
    hide Scheduled, Constant, Reached;
    Words16();
    Constants16();
    Rounds16();
    NextRound(24, Chain(0xc5d53d8d, 0xa7a3623f, 0xc2606d6d, 0x9dc68b63, 0xaa47c347, 0x49f5114a, 0xe1257970, 0x8ada8930),
              0x983e5152, 0xc8215c1a, 0x1c2c2838, 0x2823ef91);
    NextRound(25, Chain(0x1c2c2838, 0xc5d53d8d, 0xa7a3623f, 0xc2606d6d, 0x2823ef91, 0xaa47c347, 0x49f5114a, 0xe1257970),
              0xa831c66d, 0xb73679a2, 0xcde8037d, 0x14383d8e);
    NextRound(26, Chain(0xcde8037d, 0x1c2c2838, 0xc5d53d8d, 0xa7a3623f, 0x14383d8e, 0x2823ef91, 0xaa47c347, 0x49f5114a),
              0xb00327c8, 0xe5bc3909, 0xb62ec4bc, 0xc74c6516);
    NextRound(27, Chain(0xb62ec4bc, 0xcde8037d, 0x1c2c2838, 0xc5d53d8d, 0xc74c6516, 0x14383d8e, 0x2823ef91, 0xaa47c347),
              0xbf597fc7, 0x32663c5b, 0x77d37528, 0xedffbff8);
    NextRound(28, Chain(0x77d37528, 0xb62ec4bc, 0xcde8037d, 0x1c2c2838, 0xedffbff8, 0xc74c6516, 0x14383d8e, 0x2823ef91),
              0xc6e00bf3, 0x9d209d67, 0x363482c9, 0x6112a3b7);
    NextRound(29, Chain(0x363482c9, 0x77d37528, 0xb62ec4bc, 0xcde8037d, 0x6112a3b7, 0xedffbff8, 0xc74c6516, 0x14383d8e),
              0xd5a79147, 0xec8726cb, 0xa0060b30, 0xade79437);
    NextRound(30, Chain(0xa0060b30, 0x363482c9, 0x77d37528, 0xb62ec4bc, 0xade79437, 0x6112a3b7, 0xedffbff8, 0xc74c6516),
              0x06ca6351, 0x702138a4, 0xea992a22, 0x0109ab3a);
    NextRound(31, Chain(0xea992a22, 0xa0060b30, 0x363482c9, 0x77d37528, 0x0109ab3a, 0xade79437, 0x6112a3b7, 0xedffbff8),
              0x14292967, 0xd3b7973b, 0x73b33bf5, 0xba591112);
  }

  lemma Rounds32()
    ensures Reached(40,
              Chain(0x79ea687a, 0x6dc57a8a, 0x34df1604, 0x41a65cb1, 0x1efbc0a0, 0xf0781bc8, 0xa507a53d, 0x0772a26b))
  {
    hide Scheduled, Constant, Reached;
    Words32();
    Constants32();
    Rounds24();
    NextRound(32, Chain(0x73b33bf5, 0xea992a22, 0xa0060b30, 0x363482c9, 0xba591112, 0x0109ab3a, 0xade79437, 0x6112a3b7),
              0x27b70a85, 0x93f5997f, 0x98e12507, 0x9cd9f5f6);
    NextRound(33, Chain(0x98e12507, 0x73b33bf5, 0xea992a22, 0xa0060b30, 0x9cd9f5f6, 0xba591112, 0x0109ab3a, 0xade79437),
              0x2e1b2138, 0x3b68ba73, 0xfe604df5, 0x59249dd3);
    NextRound(34, Chain(0xfe604df5, 0x98e12507, 0x73b33bf5, 0xea992a22, 0x59249dd3, 0x9cd9f5f6, 0xba591112, 0x0109ab3a),
              0x4d2c6dfc, 0xaff4ffc1, 0xa9a7738c, 0x085f3833);
    NextRound(35, Chain(0xa9a7738c, 0xfe604df5, 0x98e12507, 0x73b33bf5, 0x085f3833, 0x59249dd3, 0x9cd9f5f6, 0xba591112),
              0x53380d13, 0xf10a5c62, 0x65a0cfe4, 0xf4b002d6);
    NextRound(36, Chain(0x65a0cfe4, 0xa9a7738c, 0xfe604df5, 0x98e12507, 0xf4b002d6, 0x085f3833, 0x59249dd3, 0x9cd9f5f6),
              0x650a7354, 0x0a8b3996, 0x41a65cb1, 0x0772a26b);
    NextRound(37, Chain(0x41a65cb1, 0x65a0cfe4, 0xa9a7738c, 0xfe604df5, 0x0772a26b, 0xf4b002d6, 0x085f3833, 0x59249dd3),
              0x766a0abb, 0x72af830a, 0x34df1604, 0xa507a53d);
    NextRound(38, Chain(0x34df1604, 0x41a65cb1, 0x65a0cfe4, 0xa9a7738c, 0xa507a53d, 0x0772a26b, 0xf4b002d6, 0x085f3833),
              0x81c2c92e, 0x9409e33e, 0x6dc57a8a, 0xf0781bc8);
    NextRound(39, Chain(0x6dc57a8a, 0x34df1604, 0x41a65cb1, 0x65a0cfe4, 0xf0781bc8, 0xa507a53d, 0x0772a26b, 0xf4b002d6),
              0x92722c85, 0x24641522, 0x79ea687a, 0x1efbc0a0);
  }

  lemma Rounds40()
    ensures Reached(48,
              Chain(0x4172328d, 0xa14c14b0, 0x72ab4b91, 0x26628815, 0xfecf0bc6, 0xd57b94a9, 0xb7755da1, 0xa80f11f0))
  {
    hide Scheduled, Constant, Reached;
    Words32();
    Constants32();
    Rounds32();
    NextRound(40, Chain(0x79ea687a, 0x6dc57a8a, 0x34df1604, 0x41a65cb1, 0x1efbc0a0, 0xf0781bc8, 0xa507a53d, 0x0772a26b),
              0xa2bfe8a1, 0x9f47bf94, 0xd6670766, 0x26352d63);
    NextRound(41, Chain(0xd6670766, 0x79ea687a, 0x6dc57a8a, 0x34df1604, 0x26352d63, 0x1efbc0a0, 0xf0781bc8, 0xa507a53d),
              0xa81a664b, 0xf0a64f5a, 0xdf46652f, 0x838b2711);
    NextRound(42, Chain(0xdf46652f, 0xd6670766, 0x79ea687a, 0x6dc57a8a, 0x838b2711, 0x26352d63, 0x1efbc0a0, 0xf0781bc8),
              0xc24b8b70, 0x3e246a79, 0x17aa0dfe, 0xdecd4715);
    NextRound(43, Chain(0x17aa0dfe, 0xdf46652f, 0xd6670766, 0x79ea687a, 0xdecd4715, 0x838b2711, 0x26352d63, 0x1efbc0a0),
              0xc76c51a3, 0x27333ba3, 0x9d4baf93, 0xfda24c2e);
    NextRound(44, Chain(0x9d4baf93, 0x17aa0dfe, 0xdf46652f, 0xd6670766, 0xfda24c2e, 0xdecd4715, 0x838b2711, 0x26352d63),
              0xd192e819, 0x0c4763f2, 0x26628815, 0xa80f11f0);
    NextRound(45, Chain(0x26628815, 0x9d4baf93, 0x17aa0dfe, 0xdf46652f, 0xa80f11f0, 0xfda24c2e, 0xdecd4715, 0x838b2711),
              0xd6990624, 0x840abf27, 0x72ab4b91, 0xb7755da1);
    NextRound(46, Chain(0x72ab4b91, 0x26628815, 0x9d4baf93, 0x17aa0dfe, 0xb7755da1, 0xa80f11f0, 0xfda24c2e, 0xdecd4715),
              0xf40e3585, 0x7a290d5d, 0xa14c14b0, 0xd57b94a9);
    NextRound(47, Chain(0xa14c14b0, 0x72ab4b91, 0x26628815, 0x9d4baf93, 0xd57b94a9, 0xb7755da1, 0xa80f11f0, 0xfda24c2e),
              0x106aa070, 0x065c43da, 0x4172328d, 0xfecf0bc6);
  }

  lemma Rounds48()
    ensures Reached(56,
              Chain(0x38cc9913, 0x3ec45cdb, 0xf5702fdb, 0x101fd28f, 0x54cb266b, 0xe50e1b4f, 0x9f4787c3, 0x529e7d00))
  {
    hide Scheduled, Constant, Reached;
    Words48();
    Constants48();
    Rounds40();
    NextRound(48, Chain(0x4172328d, 0xa14c14b0, 0x72ab4b91, 0x26628815, 0xfecf0bc6, 0xd57b94a9, 0xb7755da1, 0xa80f11f0),
              0x19a4c116, 0xfb3e89cb, 0x05757ceb, 0xbd714038);
    NextRound(49, Chain(0x05757ceb, 0x4172328d, 0xa14c14b0, 0x72ab4b91, 0xbd714038, 0xfecf0bc6, 0xd57b94a9, 0xb7755da1),
              0x1e376c08, 0xcc7617db, 0xf11bfaa8, 0x6e5c390c);
    NextRound(50, Chain(0xf11bfaa8, 0x05757ceb, 0x4172328d, 0xa14c14b0, 0x6e5c390c, 0xbd714038, 0xfecf0bc6, 0xd57b94a9),
              0x2748774c, 0xb9e66c34, 0x7a0508a1, 0x52f1ccf7);
    NextRound(51, Chain(0x7a0508a1, 0xf11bfaa8, 0x05757ceb, 0x4172328d, 0x52f1ccf7, 0x6e5c390c, 0xbd714038, 0xfecf0bc6),
              0x34b0bcb5, 0xa9993667, 0x886e7a22, 0x49231c1e);
    NextRound(52, Chain(0x886e7a22, 0x7a0508a1, 0xf11bfaa8, 0x05757ceb, 0x49231c1e, 0x52f1ccf7, 0x6e5c390c, 0xbd714038),
              0x391c0cb3, 0x84badedd, 0x101fd28f, 0x529e7d00);
    NextRound(53, Chain(0x101fd28f, 0x886e7a22, 0x7a0508a1, 0xf11bfaa8, 0x529e7d00, 0x49231c1e, 0x52f1ccf7, 0x6e5c390c),
              0x4ed8aa4a, 0xc21462bc, 0xf5702fdb, 0x9f4787c3);
    NextRound(54, Chain(0xf5702fdb, 0x101fd28f, 0x886e7a22, 0x7a0508a1, 0x9f4787c3, 0x529e7d00, 0x49231c1e, 0x52f1ccf7),
              0x5b9cca4f, 0x1487472c, 0x3ec45cdb, 0xe50e1b4f);
    NextRound(55, Chain(0x3ec45cdb, 0xf5702fdb, 0x101fd28f, 0x886e7a22, 0xe50e1b4f, 0x9f4787c3, 0x529e7d00, 0x49231c1e),
              0x682e6ff3, 0xb20f7a99, 0x38cc9913, 0x54cb266b);
  }

  lemma Rounds56()
    ensures Reached(64,
              Chain(0x506e3058, 0xd39a2165, 0x04d24d6c, 0xb85e2ce9, 0x5ef50f24, 0xfb121210, 0x948d25b6, 0x961f4894))
  {
    hide Scheduled, Constant, Reached;
    Words48();
    Constants48();
    Rounds48();
    NextRound(56, Chain(0x38cc9913, 0x3ec45cdb, 0xf5702fdb, 0x101fd28f, 0x54cb266b, 0xe50e1b4f, 0x9f4787c3, 0x529e7d00),
              0x748f82ee, 0xef57b9cd, 0xfcd1887b, 0x9b5e906c);
    NextRound(57, Chain(0xfcd1887b, 0x38cc9913, 0x3ec45cdb, 0xf5702fdb, 0x9b5e906c, 0x54cb266b, 0xe50e1b4f, 0x9f4787c3),
              0x78a5636f, 0xebe6b238, 0xc062d46f, 0x7e44008e);
    NextRound(58, Chain(0xc062d46f, 0xfcd1887b, 0x38cc9913, 0x3ec45cdb, 0x7e44008e, 0x9b5e906c, 0x54cb266b, 0xe50e1b4f),
              0x84c87814, 0x9fe3095e, 0xffb70472, 0x6d83bfc6);
    NextRound(59, Chain(0xffb70472, 0xc062d46f, 0xfcd1887b, 0x38cc9913, 0x6d83bfc6, 0x7e44008e, 0x9b5e906c, 0x54cb266b),
              0x8cc70208, 0x78bc8d4b, 0xb6ae8fff, 0xb21bad3d);
    NextRound(60, Chain(0xb6ae8fff, 0xffb70472, 0xc062d46f, 0xfcd1887b, 0xb21bad3d, 0x6d83bfc6, 0x7e44008e, 0x9b5e906c),
              0x90befffa, 0xa43fcf15, 0xb85e2ce9, 0x961f4894);
    NextRound(61, Chain(0xb85e2ce9, 0xb6ae8fff, 0xffb70472, 0xc062d46f, 0x961f4894, 0xb21bad3d, 0x6d83bfc6, 0x7e44008e),
              0xa4506ceb, 0x668b2ff8, 0x04d24d6c, 0x948d25b6);
    NextRound(62, Chain(0x04d24d6c, 0xb85e2ce9, 0xb6ae8fff, 0xffb70472, 0x948d25b6, 0x961f4894, 0xb21bad3d, 0x6d83bfc6),
              0xbef9a3f7, 0xeeaba2cc, 0xd39a2165, 0xfb121210);
    NextRound(63, Chain(0xd39a2165, 0x04d24d6c, 0xb85e2ce9, 0xb6ae8fff, 0xfb121210, 0x948d25b6, 0x961f4894, 0xb21bad3d),
              0xc67178f2, 0x12b1edeb, 0x506e3058, 0x5ef50f24);
  }

  // ---------- the digest ----------

  lemma DigestOfAbc()
    ensures Digest(ABC) == Chain(0xba7816bf, 0x8f01cfea, 0x414140de, 0x5dae2223,
                                 0xb00361a3, 0x96177a9c, 0xb410ff61, 0xf20015ad)
  {
    hide Pad, Rounds, HashBlocks;
    Padded();
    Rounds56();
    OneBlock(H0, Pad(ABC));
  }

  lemma OneBlock(h: Chain, msg: seq<Byte>)
    requires |msg| == 64
    ensures HashBlocks(h, msg) == Compress(h, msg)
  {
    hide Compress;
    assert msg[..64] == msg && msg[64..] == [];
    assert HashBlocks(Compress(h, msg), []) == Compress(h, msg);
  }

  lemma TextOfAbc()
    ensures HexChain(Digest(ABC)) == "ba7816bf" + "8f01cfea" + "414140de" + "5dae2223"
                                     + "b00361a3" + "96177a9c" + "b410ff61" + "f20015ad"
  {
    hide Digest;
    DigestOfAbc();
    assert HexWord(0xba7816bf) == "ba7816bf" && HexWord(0x8f01cfea) == "8f01cfea";
    assert HexWord(0x414140de) == "414140de" && HexWord(0x5dae2223) == "5dae2223";
    assert HexWord(0xb00361a3) == "b00361a3" && HexWord(0x96177a9c) == "96177a9c";
    assert HexWord(0xb410ff61) == "b410ff61" && HexWord(0xf20015ad) == "f20015ad";
    hide HexWord;
  }
}
