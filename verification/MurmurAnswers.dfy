/**
  One known answer of each hash function, computed step by step, on a key with a full block and the
  longest tail.
 */
module MurmurAnswers {
  import opened Words
  import opened Murmur

  /** One answer of the 32-bit function, on a key with a block and a tail of three bytes. */
  lemma KnownAnswer_x86_32()
    ensures Hash_x86_32([1, 2, 3, 4, 5, 6, 7], 42) == 0xe7831cf2
  {
    hide Mix_x86_32, Tail_x86_32, Finish_x86_32;
    var key: seq<bv8> := [1, 2, 3, 4, 5, 6, 7];
    assert key[..4] == [1, 2, 3, 4] && key[4..] == [5, 6, 7];
    KnownSteps_x86_32();
    assert Absorb(X86_32(), 0x4e982727, key[4..], 7) == 0xe7831cf2;
  }

  lemma KnownSteps_x86_32()
    ensures Mix_x86_32(42, [1, 2, 3, 4]) == 0x4e982727
    ensures Tail_x86_32(0x4e982727, [5, 6, 7]) == 0x54d2f6cd
    ensures Finish_x86_32(0x54d2f6cd, 7) == 0xe7831cf2
  {
    hide TakeIn32, Blend32, Fmix32, Length32;
    KnownTakes_x86_32();
    KnownBlend_x86_32();
    KnownFinish_x86_32();
  }

  lemma KnownTakes_x86_32()
    ensures TakeIn32(42, [1, 2, 3, 4], C1, 15, C2) == 0xf93bda05
    ensures TakeIn32(0x4e982727, [5, 6, 7], C1, 15, C2) == 0x54d2f6cd
  {
  }

  lemma KnownBlend_x86_32()
    ensures Blend32(0xf93bda05, 13, 0, 0xe6546b64) == 0x4e982727
  {
    assert (0xf93bda05 as bv32).RotateLeft(13) == 0x7b40bf27;
  }

  lemma KnownFinish_x86_32()
    ensures Xor32(0x54d2f6cd, Length32(7)) == 0x54d2f6ca && Fmix32(0x54d2f6ca) == 0xe7831cf2
  {
    assert 7 % 0x1_0000_0000 == 7;
  }
  const BLOCK: seq<bv8> := [1, 2, 3, 4, 5, 6, 7, 8, 9, 10, 11, 12, 13, 14, 15, 16]
  const REST: seq<bv8> := [17, 18, 19, 20, 21, 22, 23, 24, 25, 26, 27, 28, 29, 30, 31]

  /** One answer of the 128-bit function for 32-bit words, on a key with a block and a tail of fifteen bytes. */
  lemma KnownAnswer_x86_128()
    ensures Hash_x86_128(BLOCK + REST, 42)
            == Quad(0x35ace798, 0x7132e8a5, 0x3527755c, 0x34e6e079)
  {
    hide Mix_x86_128, Tail_x86_128, Finish_x86_128;
    var key := BLOCK + REST;
    assert key[..16] == BLOCK && key[16..] == REST;
    KnownMix_x86_128();
    KnownTail_x86_128();
    KnownFinish_x86_128();
    assert Absorb(X86_128(), Quad(0xc534cc2b, 0x7bb28a28, 0x78cd420c, 0x662a6409), key[16..], 31)
           == Quad(0x35ace798, 0x7132e8a5, 0x3527755c, 0x34e6e079);
  }

  lemma PartsOfKey()
    ensures Part(BLOCK, 0, 4) == [1, 2, 3, 4]
    ensures Part(BLOCK, 4, 8) == [5, 6, 7, 8]
    ensures Part(BLOCK, 8, 12) == [9, 10, 11, 12]
    ensures Part(BLOCK, 12, 16) == [13, 14, 15, 16]
    ensures Part(REST, 0, 4) == [17, 18, 19, 20]
    ensures Part(REST, 4, 8) == [21, 22, 23, 24]
    ensures Part(REST, 8, 12) == [25, 26, 27, 28]
    ensures Part(REST, 12, 16) == [29, 30, 31]
    ensures Part(BLOCK, 0, 8) == [1, 2, 3, 4, 5, 6, 7, 8] && Part(BLOCK, 8, 16) == [9, 10, 11, 12, 13, 14, 15, 16]
    ensures Part(REST, 0, 8) == [17, 18, 19, 20, 21, 22, 23, 24] && Part(REST, 8, 16) == [25, 26, 27, 28, 29, 30, 31]
  {
  }

  lemma KnownMix_x86_128()
    ensures Mix_x86_128(Quad(42, 42, 42, 42), BLOCK) == Quad(0xc534cc2b, 0x7bb28a28, 0x78cd420c, 0x662a6409)
  {
    hide TakeIn32, Blend32, Part;
    PartsOfKey();
    KnownTakes_x86_128();
    KnownBlends_x86_128();
  }

  lemma KnownTakes_x86_128()
    ensures TakeIn32(42, [1, 2, 3, 4], A1, 15, A2) == 0xfff4c2c6
    ensures TakeIn32(42, [5, 6, 7, 8], A2, 16, A3) == 0xfd01be63
    ensures TakeIn32(42, [9, 10, 11, 12], A3, 17, A4) == 0x42032733
    ensures TakeIn32(42, [13, 14, 15, 16], A4, 18, A1) == 0xacfbc256
  {
  }

  lemma KnownBlends_x86_128()
    ensures Blend32(0xfff4c2c6, 19, 42, 0x561ccd1b) == 0xc534cc2b
    ensures Blend32(0xfd01be63, 17, 42, 0xbcaa747) == 0x7bb28a28
    ensures Blend32(0x42032733, 15, 42, 0x96cd1c35) == 0x78cd420c
    ensures Blend32(0xacfbc256, 13, 0xc534cc2b, 0x32ac3b17) == 0x662a6409
  {
    assert (0xfff4c2c6 as bv32).RotateLeft(19) == 0x1637ffa6;
    assert (0xfd01be63 as bv32).RotateLeft(17) == 0x7cc7fa03;
    assert (0x42032733 as bv32).RotateLeft(15) == 0x9399a101;
    assert (0xacfbc256 as bv32).RotateLeft(13) == 0x784ad59f;
  }

  lemma KnownTail_x86_128()
    ensures Tail_x86_128(Quad(0xc534cc2b, 0x7bb28a28, 0x78cd420c, 0x662a6409), REST)
            == Quad(0xf84951d2, 0x2f01feeb, 0x2659b5a7, 0x636864dd)
  {
    hide TakeIn32, Part;
    PartsOfKey();
    KnownTailTakes_x86_128();
  }

  lemma KnownTailTakes_x86_128()
    ensures TakeIn32(0xc534cc2b, [17, 18, 19, 20], A1, 15, A2) == 0xf84951d2
    ensures TakeIn32(0x7bb28a28, [21, 22, 23, 24], A2, 16, A3) == 0x2f01feeb
    ensures TakeIn32(0x78cd420c, [25, 26, 27, 28], A3, 17, A4) == 0x2659b5a7
    ensures TakeIn32(0x662a6409, [29, 30, 31], A4, 18, A1) == 0x636864dd
  {
  }

  lemma KnownFinish_x86_128()
    ensures Finish_x86_128(Quad(0xf84951d2, 0x2f01feeb, 0x2659b5a7, 0x636864dd), 31)
            == Quad(0x35ace798, 0x7132e8a5, 0x3527755c, 0x34e6e079)
  {
    hide Fmix32, Spread32, XorAll32, Length32;
    KnownLengths();
    KnownSpread32();
    KnownFmix32();
  }

  lemma KnownLengths()
    ensures Length32(31) == 31 && Length64(31) == 31
  {
    assert 31 % 0x1_0000_0000 == 31 && 31 % 0x1_0000_0000_0000_0000 == 31;
  }

  lemma KnownSpread32()
    ensures XorAll32(Quad(0xf84951d2, 0x2f01feeb, 0x2659b5a7, 0x636864dd), 31)
            == Quad(0xf84951cd, 0x2f01fef4, 0x2659b5b8, 0x636864c2)
    ensures Spread32(Quad(0xf84951cd, 0x2f01fef4, 0x2659b5b8, 0x636864c2))
            == Quad(0xb10d6b3b, 0xe00f6a2f, 0xd76720f3, 0x1475cffd)
    ensures Spread32(Quad(0xfb725fe6, 0x3b86010d, 0xff7a8dc4, 0xff39f8e1))
            == Quad(0x35ace798, 0x7132e8a5, 0x3527755c, 0x34e6e079)
  {
  }

  lemma KnownFmix32()
    ensures Fmix32(0xb10d6b3b) == 0xfb725fe6 && Fmix32(0xe00f6a2f) == 0x3b86010d
    ensures Fmix32(0xd76720f3) == 0xff7a8dc4 && Fmix32(0x1475cffd) == 0xff39f8e1
  {
  }
  /** One answer of the 128-bit function for 64-bit words, on the same key. */
  lemma KnownAnswer_x64_128()
    ensures Hash_x64_128(BLOCK + REST, 42) == Pair(0xc74745fb49087ded, 0xd40e74db473eacb0)
  {
    hide Mix_x64_128, Tail_x64_128, Finish_x64_128;
    var key := BLOCK + REST;
    assert key[..16] == BLOCK && key[16..] == REST;
    KnownMix_x64_128();
    KnownTail_x64_128();
    KnownFinish_x64_128();
    assert (42 as bv32) as bv64 == 42;
    assert Absorb(X64_128(), Pair(0x178125036f939744, 0x561de187ad4578a1), key[16..], 31)
           == Pair(0xc74745fb49087ded, 0xd40e74db473eacb0);
  }

  lemma KnownMix_x64_128()
    ensures Mix_x64_128(Pair(42, 42), BLOCK) == Pair(0x178125036f939744, 0x561de187ad4578a1)
  {
    hide TakeIn64, Blend64, Part;
    PartsOfKey();
    KnownTakes_x64_128();
    KnownBlends_x64_128();
  }

  lemma KnownTakes_x64_128()
    ensures TakeIn64(42, [1, 2, 3, 4, 5, 6, 7, 8], D1, 31, D2) == 0x84912ea0966db9ad
    ensures TakeIn64(42, [9, 10, 11, 12, 13, 14, 15, 16], D2, 33, D1) == 0x1c70dd70c03cdcfc
  {
  }

  lemma KnownBlends_x64_128()
    ensures Blend64(0x84912ea0966db9ad, 27, 42, 0x52dce729) == 0x178125036f939744
    ensures Blend64(0x1c70dd70c03cdcfc, 31, 0x178125036f939744, 0x38495ab5) == 0x561de187ad4578a1
  {
    assert (0x84912ea0966db9ad as bv64).RotateLeft(27) == 0x4b36dcd6c248975;
    assert (0x1c70dd70c03cdcfc as bv64).RotateLeft(31) == 0x601e6e7e0e386eb8;
  }

  lemma KnownTail_x64_128()
    ensures Tail_x64_128(Pair(0x178125036f939744, 0x561de187ad4578a1), REST)
            == Pair(0x4909611e5b4c3c5f, 0xd65ae90e245b1fc7)
  {
    hide TakeIn64, Part;
    PartsOfKey();
    KnownTailTakes_x64_128();
  }

  lemma KnownTailTakes_x64_128()
    ensures TakeIn64(0x178125036f939744, [17, 18, 19, 20, 21, 22, 23, 24], D1, 31, D2) == 0x4909611e5b4c3c5f
    ensures TakeIn64(0x561de187ad4578a1, [25, 26, 27, 28, 29, 30, 31], D2, 33, D1) == 0xd65ae90e245b1fc7
  {
  }

  lemma KnownFinish_x64_128()
    ensures Finish_x64_128(Pair(0x4909611e5b4c3c5f, 0xd65ae90e245b1fc7), 31)
            == Pair(0xc74745fb49087ded, 0xd40e74db473eacb0)
  {
    hide Fmix64, Spread64, Xor64, Length64;
    KnownLengths();
    KnownSpread64();
    KnownFmix64();
  }

  lemma KnownSpread64()
    ensures Xor64(0x4909611e5b4c3c5f, 31) == 0x4909611e5b4c3c40 && Xor64(0xd65ae90e245b1fc7, 31) == 0xd65ae90e245b1fd8
    ensures Spread64(Pair(0x4909611e5b4c3c40, 0xd65ae90e245b1fd8)) == Pair(0x1f644a2c7fa75c18, 0xf5bf333aa4027bf0)
    ensures Spread64(Pair(0xba80171b4ad24f2a, 0xcc72edffe362ec3)) == Pair(0xc74745fb49087ded, 0xd40e74db473eacb0)
  {
  }

  lemma KnownFmix64()
    ensures Fmix64(0x1f644a2c7fa75c18) == 0xba80171b4ad24f2a && Fmix64(0xf5bf333aa4027bf0) == 0xcc72edffe362ec3
  {
  }
}
