/** The hash of a text of one word and a tail, and of a single byte. */
module MurmurValues {
  import opened Words
  import opened BitVectors
  import opened Murmur

  lemma XorShows(x: bv32, y: bv32)
    ensures Shown(x) < W && Shown(y) < W && Murmur.Xor(Shown(x), Shown(y)) == Shown(Plus(x, y))
  {
    hide Shown, Plus, BitXor, Pow2;
    Pow2Widths();
    ShownFits(x);
    ShownFits(y);
    PlusShows(x, y);
  }

  lemma {:induction false} ShrTwice(x: nat, i: nat, j: nat)
    ensures Shr(Shr(x, i), j) == Shr(x, i + j)
    decreases i
  {
    if i > 0 {
      ShrTwice(x / 2, i - 1, j);
    }
  }

  lemma ShiftFew(x: nat)
    ensures Shr(x, 5) == x / 0x20 && Shr(x, 7) == x / 0x80 && Shr(x, 8) == x / 0x100
  {
  }

  lemma Shifts(x: nat)
    ensures Shr(x, 13) == x / 0x2000 && Shr(x, 15) == x / 0x8000 && Shr(x, 24) == x / 0x100_0000
  {
    hide Shr;
    ShiftFew(x);
    ShiftFew(x / 0x100);
    ShiftFew(x / 0x1_0000);
    ShrTwice(x, 8, 5);
    ShrTwice(x, 8, 7);
    ShrTwice(x, 8, 8);
    ShrTwice(x, 16, 8);
  }

  lemma ZeroFinish1Sum()
    ensures Shown(0x5BD3_371A) == 0x5BD3_371A && Plus(0x5BD1_E995, 0x0002_DE8F) == 0x5BD3_371A
  {
  }

  lemma ZeroFinish1()
    ensures Xor(0x5BD1_E995, 0x0002_DE8F) == 0x5BD3_371A
  {
    assert Shown(0x5BD1_E995) == 0x5BD1_E995 && Shown(0x0002_DE8F) == 0x0002_DE8F;
    hide Shown, Plus, Xor;
    ZeroFinish1Sum();
    XorShows(0x5BD1_E995, 0x0002_DE8F);
  }

  lemma ZeroFinish2Sum()
    ensures Shown(0xE94E_6EBD) == 0xE94E_6EBD && Plus(0xE94F_BC22, 0x0001_D29F) == 0xE94E_6EBD
  {
  }

  lemma ZeroFinish2()
    ensures Xor(0xE94F_BC22, 0x0001_D29F) == 0xE94E_6EBD
  {
    assert Shown(0xE94F_BC22) == 0xE94F_BC22 && Shown(0x0001_D29F) == 0x0001_D29F;
    hide Shown, Plus, Xor;
    ZeroFinish2Sum();
    XorShows(0xE94F_BC22, 0x0001_D29F);
  }

  lemma ZeroFinish()
    ensures Finish(0x5BD1_E995) == 0xE94E_6EBD
  {
    hide Shr, Xor;
    Shifts(0x5BD1_E995);
    Shifts(0xE94F_BC22);
    ZeroFinish1();
    ZeroFinish2();
  }

  lemma ZeroXor()
    ensures Xor(1, 0) == 1
  {
  }

  lemma ZeroByte()
    ensures Hash([0]) == 0xE94E_6EBD
  {
    hide Xor, Finish;
    ZeroXor();
    ZeroFinish();
  }

  lemma Word1Sum()
    ensures Shown(0x3FB2_8BF4) == 0x3FB2_8BF4 && Plus(0x6463_6261, 0x5BD1_E995) == 0x3FB2_8BF4
  {
  }

  lemma Word1()
    ensures Xor(0x6463_6261, 0x5BD1_E995) == 0x3FB2_8BF4
  {
    assert Shown(0x6463_6261) == 0x6463_6261 && Shown(0x5BD1_E995) == 0x5BD1_E995;
    hide Shown, Plus, Xor;
    Word1Sum();
    XorShows(0x6463_6261, 0x5BD1_E995);
  }

  lemma Word2Sum()
    ensures Shown(0x3FB2_8BCB) == 0x3FB2_8BCB && Plus(0x3FB2_8BF4, 0x0000_003F) == 0x3FB2_8BCB
  {
  }

  lemma Word2()
    ensures Xor(0x3FB2_8BF4, 0x0000_003F) == 0x3FB2_8BCB
  {
    assert Shown(0x3FB2_8BF4) == 0x3FB2_8BF4 && Shown(0x0000_003F) == 0x0000_003F;
    hide Shown, Plus, Xor;
    Word2Sum();
    XorShows(0x3FB2_8BF4, 0x0000_003F);
  }

  lemma WordMix()
    ensures Mix(0x6463_6261) == 0xDDE2_2027
  {
    hide Shr, Xor;
    Shifts(0x3FB2_8BF4);
    Word1();
    Word2();
  }

  lemma WordRoundSum()
    ensures Shown(0x5F5F_4334) == 0x5F5F_4334 && Plus(0x82BD_6313, 0xDDE2_2027) == 0x5F5F_4334
  {
  }

  lemma WordRound()
    ensures Xor(0x82BD_6313, 0xDDE2_2027) == 0x5F5F_4334
  {
    assert Shown(0x82BD_6313) == 0x82BD_6313 && Shown(0xDDE2_2027) == 0xDDE2_2027;
    hide Shown, Plus, Xor;
    WordRoundSum();
    XorShows(0x82BD_6313, 0xDDE2_2027);
  }

  lemma TailXorSum()
    ensures Shown(0x5F38_2551) == 0x5F38_2551 && Plus(0x5F5F_4334, 0x0067_6665) == 0x5F38_2551
  {
  }

  lemma TailXor()
    ensures Xor(0x5F5F_4334, 0x0067_6665) == 0x5F38_2551
  {
    assert Shown(0x5F5F_4334) == 0x5F5F_4334 && Shown(0x0067_6665) == 0x0067_6665;
    hide Shown, Plus, Xor;
    TailXorSum();
    XorShows(0x5F5F_4334, 0x0067_6665);
  }

  lemma TextFinish1Sum()
    ensures Shown(0xC7C3_4F0E) == 0xC7C3_4F0E && Plus(0xC7C5_7125, 0x0006_3E2B) == 0xC7C3_4F0E
  {
  }

  lemma TextFinish1()
    ensures Xor(0xC7C5_7125, 0x0006_3E2B) == 0xC7C3_4F0E
  {
    assert Shown(0xC7C5_7125) == 0xC7C5_7125 && Shown(0x0006_3E2B) == 0x0006_3E2B;
    hide Shown, Plus, Xor;
    TextFinish1Sum();
    XorShows(0xC7C5_7125, 0x0006_3E2B);
  }

  lemma TextFinish2Sum()
    ensures Shown(0x8C0F_D93B) == 0x8C0F_D93B && Plus(0x8C0E_C126, 0x0001_181D) == 0x8C0F_D93B
  {
  }

  lemma TextFinish2()
    ensures Xor(0x8C0E_C126, 0x0001_181D) == 0x8C0F_D93B
  {
    assert Shown(0x8C0E_C126) == 0x8C0E_C126 && Shown(0x0001_181D) == 0x0001_181D;
    hide Shown, Plus, Xor;
    TextFinish2Sum();
    XorShows(0x8C0E_C126, 0x0001_181D);
  }

  lemma TextFinish()
    ensures Finish(0xC7C5_7125) == 0x8C0F_D93B
  {
    hide Shr, Xor;
    Shifts(0xC7C5_7125);
    Shifts(0x8C0E_C126);
    TextFinish1();
    TextFinish2();
  }

  lemma TextLoads()
    ensures Load([0x61, 0x62, 0x63, 0x64]) == 0x6463_6261 && Load([0x65, 0x66, 0x67]) == 0x0067_6665
  {
    LoadBytes([0x61, 0x62, 0x63, 0x64]);
    LoadBytes([0x65, 0x66, 0x67]);
  }

  /** The text abcdefg. */
  lemma TextValue()
    ensures Hash([0x61, 0x62, 0x63, 0x64, 0x65, 0x66, 0x67]) == 0x8C0F_D93B
  {
    hide Xor, Mix, Finish, Load;
    var d: seq<u8> := [0x61, 0x62, 0x63, 0x64, 0x65, 0x66, 0x67];
    assert d[..4] == [0x61, 0x62, 0x63, 0x64] && d[4..] == [0x65, 0x66, 0x67];
    TextLoads();
    WordMix();
    WordRound();
    TailXor();
    TextFinish();
  }
}
