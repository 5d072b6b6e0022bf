/** The 64- and 128-bit hashes of the bytes 0, 1, 2 and so on, computed step by step for a key of each kind: the
    constants, the rotations and the order of the loads show in each of them. */
module City128Values {
  import opened Words
  import opened City128
  import opened City128Laws
  import Values = City32Values

  /** The bytes from 0 to 129. */
  const COUNTING: Bytes := seq(130, i requires 0 <= i < 130 => i as bv8)

  const SEED := Uint128(Long(0x0123456789abcdef), Long(0xfedcba9876543210))

  lemma AddIs(x: bv64, y: bv64, z: bv64)
    requires (Nat64(Long(x)) + Nat64(Long(y))) % 0x1_0000_0000_0000_0000 == Nat64(Long(z))
    ensures Add64(Long(x), Long(y)) == Long(z)
  {
    hide Add64, Nat64, Long64;
    AddOfValues(Long(x), Long(y));
    LongOfValue(Long(z));
  }

  lemma MulIs(x: bv64, y: bv64, z: bv64, c: nat)
    requires Nat64(Long(y)) == c && Nat64(Long(x)) * c % 0x1_0000_0000_0000_0000 == Nat64(Long(z))
    ensures Mul64(Long(x), Long(y)) == Long(z)
  {
    hide Mul64, Nat64, Long64;
    MulOfValues(Long(x), Long(y));
    LongOfValue(Long(z));
  }

  lemma LongIs(n: nat, x: bv64)
    requires Nat64(Long(x)) == n
    ensures n < TWO64 && Long64(n) == Long(x)
  {
    LongOfValue(Long(x));
  }

  lemma XorIs(x: bv64, y: bv64, z: bv64)
    requires x ^ y == z
    ensures Xor64(Long(x), Long(y)) == Long(z)
  {
  }

  /** HashLen16Mul(u, v, m), with everything that comes up on the way; c is m as a number. */
  lemma MixIs(u: bv64, v: bv64, m: bv64, x: bv64, p: bv64, a: bv64, y: bv64, q: bv64, b: bv64, z: bv64, c: nat)
    requires Nat64(Long(m)) == c && u ^ v == x && Nat64(Long(x)) * c % 0x1_0000_0000_0000_0000 == Nat64(Long(p))
    requires ShiftMix(Long(p)) == Long(a) && v ^ a == y
    requires Nat64(Long(y)) * c % 0x1_0000_0000_0000_0000 == Nat64(Long(q)) && ShiftMix(Long(q)) == Long(b)
    requires Nat64(Long(b)) * c % 0x1_0000_0000_0000_0000 == Nat64(Long(z))
    ensures HashLen16Mul(Long(u), Long(v), Long(m)) == Long(z)
  {
    hide Mul64, Xor64, ShiftMix, Nat64;
    XorIs(u, v, x);
    MulIs(x, m, p, c);
    XorIs(v, a, y);
    MulIs(y, m, q, c);
    MulIs(b, m, z, c);
  }

  /** WeakHash(w, x, y, z, a, b), with everything that comes up on the way. */
  lemma WeakIs(w: bv64, x: bv64, y: bv64, z: bv64, a: bv64, b: bv64, a1: bv64, t: bv64, t': bv64, b1: bv64, u: bv64,
               a2: bv64, lower: bv64, r: bv64, h: bv64, higher: bv64)
    requires Sums(a, w, a1) && Sums(b, a1, t) && Sums(t, z, t') && Rotate64(Long(t'), 21) == Long(b1)
    requires Sums(a1, x, u) && Sums(u, y, a2) && Sums(a2, z, lower) && Rotate64(Long(a2), 44) == Long(r)
    requires Sums(b1, r, h) && Sums(h, a1, higher)
    ensures WeakHash(Long(w), Long(x), Long(y), Long(z), Long(a), Long(b)) == Uint128(Long(lower), Long(higher))
  {
    hide Add64, Rotate64, Nat64;
    AddIs(a, w, a1);
    AddIs(b, a1, t);
    AddIs(t, z, t');
    AddIs(a1, x, u);
    AddIs(u, y, a2);
    AddIs(a2, z, lower);
    AddIs(b1, r, h);
    AddIs(h, a1, higher);
  }

  predicate Sums(x: bv64, y: bv64, z: bv64) {
    (Nat64(Long(x)) + Nat64(Long(y))) % 0x1_0000_0000_0000_0000 == Nat64(Long(z))
  }

  lemma ShortBytes()
    ensures COUNTING[0] == 0 && COUNTING[1] == 1 && COUNTING[2] == 2
    ensures Add32(0, 0x100) == 0x100 && Add32(Word32(3), 8) == 11
  {
    hide Add32, Word32;
    Values.SumIs(0, 0x100, 0x100);
    Values.WordIs(3, 3);
    Values.SumIs(3, 8, 11);
  }

  lemma Load0of4() ensures Fetch32(COUNTING[0..]) == 0x03020100 {}
  lemma Load0() ensures Fetch64(COUNTING[0..]) == Long(0x0706050403020100) {}
  lemma Load1of4() ensures Fetch32(COUNTING[1..]) == 0x04030201 {}
  lemma Load4() ensures Fetch64(COUNTING[4..]) == Long(0x0b0a090807060504) {}
  lemma Load6() ensures Fetch64(COUNTING[6..]) == Long(0x0d0c0b0a09080706) {}
  lemma Load8() ensures Fetch64(COUNTING[8..]) == Long(0x0f0e0d0c0b0a0908) {}
  lemma Load12() ensures Fetch64(COUNTING[12..]) == Long(0x131211100f0e0d0c) {}
  lemma Load14() ensures Fetch64(COUNTING[14..]) == Long(0x1514131211100f0e) {}
  lemma Load16() ensures Fetch64(COUNTING[16..]) == Long(0x1716151413121110) {}
  lemma Load22() ensures Fetch64(COUNTING[22..]) == Long(0x1d1c1b1a19181716) {}
  lemma Load24() ensures Fetch64(COUNTING[24..]) == Long(0x1f1e1d1c1b1a1918) {}
  lemma Load30() ensures Fetch64(COUNTING[30..]) == Long(0x2524232221201f1e) {}
  lemma Load32() ensures Fetch64(COUNTING[32..]) == Long(0x2726252423222120) {}
  lemma Load38() ensures Fetch64(COUNTING[38..]) == Long(0x2d2c2b2a29282726) {}
  lemma Load40() ensures Fetch64(COUNTING[40..]) == Long(0x2f2e2d2c2b2a2928) {}
  lemma Load46() ensures Fetch64(COUNTING[46..]) == Long(0x3534333231302f2e) {}
  lemma Load48() ensures Fetch64(COUNTING[48..]) == Long(0x3736353433323130) {}
  lemma Load54() ensures Fetch64(COUNTING[54..]) == Long(0x3d3c3b3a39383736) {}
  lemma Load56() ensures Fetch64(COUNTING[56..]) == Long(0x3f3e3d3c3b3a3938) {}
  lemma Load62() ensures Fetch64(COUNTING[62..]) == Long(0x4544434241403f3e) {}
  lemma Load64() ensures Fetch64(COUNTING[64..]) == Long(0x4746454443424140) {}
  lemma Load72() ensures Fetch64(COUNTING[72..]) == Long(0x4f4e4d4c4b4a4948) {}
  lemma Load80() ensures Fetch64(COUNTING[80..]) == Long(0x5756555453525150) {}
  lemma Load88() ensures Fetch64(COUNTING[88..]) == Long(0x5f5e5d5c5b5a5958) {}
  lemma Load96() ensures Fetch64(COUNTING[96..]) == Long(0x6766656463626160) {}
  lemma Load98() ensures Fetch64(COUNTING[98..]) == Long(0x6968676665646362) {}
  lemma Load104() ensures Fetch64(COUNTING[104..]) == Long(0x6f6e6d6c6b6a6968) {}
  lemma Load106() ensures Fetch64(COUNTING[106..]) == Long(0x71706f6e6d6c6b6a) {}
  lemma Load112() ensures Fetch64(COUNTING[112..]) == Long(0x7776757473727170) {}
  lemma Load114() ensures Fetch64(COUNTING[114..]) == Long(0x7978777675747372) {}
  lemma Load120() ensures Fetch64(COUNTING[120..]) == Long(0x7f7e7d7c7b7a7978) {}
  lemma Load122() ensures Fetch64(COUNTING[122..]) == Long(0x81807f7e7d7c7b7a) {}

  lemma Three()
    ensures CityHash64(COUNTING, 3) == Long(0x94a13d22e9eba49a)
  {
    hide Add64, Mul64, Long64, Fetch64, HashLen16Mul, WeakHash;
    ShortBytes();
    MulIs(0x0000000000000100, 0x9ae16a3b2f90404f, 0xe16a3b2f90404f00, 0x9ae16a3b2f90404f);
    MulIs(0x000000000000000b, 0xc3a5c85c97cb3127, 0x681f9bfa85bb1cad, 0xc3a5c85c97cb3127);
    assert Xor64(Long(0xe16a3b2f90404f00), Long(0x681f9bfa85bb1cad)) == Long(0x8975a0d515fb53ad);
    assert ShiftMix(Long(0x8975a0d515fb53ad)) == Long(0x8975a0d515fa4146);
    MulIs(0x8975a0d515fa4146, 0x9ae16a3b2f90404f, 0x94a13d22e9eba49a, 0x9ae16a3b2f90404f);
  }

  lemma Five()
    ensures CityHash64(COUNTING, 5) == Long(0xb4bfa9e87732c149)
  {
    hide Add64, Mul64, Long64, Fetch64, Fetch32, HashLen16Mul, WeakHash;
    Load0of4();
    Load1of4();
    assert COUNTING[0..] == COUNTING;
    LongIs(5, 5);
    assert Shl64(Long(0x0000000003020100), 3) == Long(0x0000000018100800);
    AddIs(0x0000000000000005, 0x0000000018100800, 0x0000000018100805);
    MulIs(0x0000000000000005, 0x0000000000000002, 0x000000000000000a, 0x0000000000000002);
    AddIs(0x9ae16a3b2f90404f, 0x000000000000000a, 0x9ae16a3b2f904059);
    MixIs(0x0000000018100805, 0x0000000004030201, 0x9ae16a3b2f904059, 0x000000001c130a04, 0x95444786e35f7b64,
      0x95444786e35e51ec, 0x95444786e75d53ed, 0x438a58447cbd6d65, 0x438a58447cbdea71, 0xb4bfa9e87732c149,
      0x9ae16a3b2f904059);
  }

  lemma Twelve()
    ensures CityHash64(COUNTING, 12) == Long(0x9fd5df33aefc3d7d)
  {
    hide Add64, Mul64, Long64, Fetch64, Fetch32, HashLen16Mul, WeakHash;
    Load0();
    Load4();
    assert COUNTING[0..] == COUNTING;
    LongIs(12, 12);
    MulIs(0x000000000000000c, 0x0000000000000002, 0x0000000000000018, 0x0000000000000002);
    AddIs(0x9ae16a3b2f90404f, 0x0000000000000018, 0x9ae16a3b2f904067);
    AddIs(0x0706050403020100, 0x9ae16a3b2f90404f, 0xa1e76f3f3292414f);
    assert Rotate64(Long(0x0b0a090807060504), 37) == Long(0x4038302820585048);
    MulIs(0x4038302820585048, 0x9ae16a3b2f904067, 0x3c08213d781a4cf8, 0x9ae16a3b2f904067);
    AddIs(0x3c08213d781a4cf8, 0xa1e76f3f3292414f, 0xddef907caaac8e47);
    assert Rotate64(Long(0xa1e76f3f3292414f), 25) == Long(0x4920a7d0f3b79f99);
    AddIs(0x4920a7d0f3b79f99, 0x0b0a090807060504, 0x542ab0d8fabda49d);
    MulIs(0x542ab0d8fabda49d, 0x9ae16a3b2f904067, 0x49543410b6c47b2b, 0x9ae16a3b2f904067);
    MixIs(0xddef907caaac8e47, 0x49543410b6c47b2b, 0x9ae16a3b2f904067, 0x94bba46c1c68f56c, 0xc45cb6968c55be74,
      0xc45cb6968c5436cd, 0x8d0882863a904de6, 0x01f8b220aee8d78a, 0x01f8b220aee8d47b, 0x9fd5df33aefc3d7d,
      0x9ae16a3b2f904067);
  }

  lemma Twenty()
    ensures CityHash64(COUNTING, 20) == Long(0x8dd7e7f1bf16a0e9)
  {
    hide Add64, Mul64, Long64, Fetch64, Fetch32, HashLen16Mul, WeakHash;
    Load0();
    Load4();
    Load8();
    Load12();
    assert COUNTING[0..] == COUNTING;
    LongIs(20, 20);
    MulIs(0x0000000000000014, 0x0000000000000002, 0x0000000000000028, 0x0000000000000002);
    AddIs(0x9ae16a3b2f90404f, 0x0000000000000028, 0x9ae16a3b2f904077);
    MulIs(0x0706050403020100, 0xb492b66fbe98f273, 0x19a3c093d6d87300, 0xb492b66fbe98f273);
    MulIs(0x131211100f0e0d0c, 0x9ae16a3b2f904077, 0xe6a5f84b0d8b1094, 0x9ae16a3b2f904077);
    MulIs(0x0b0a090807060504, 0x9ae16a3b2f90404f, 0x6523a9763a5c8c3c, 0x9ae16a3b2f90404f);
    AddIs(0x19a3c093d6d87300, 0x0f0e0d0c0b0a0908, 0x28b1cd9fe1e27c08);
    assert Rotate64(Long(0x28b1cd9fe1e27c08), 43) == Long(0xb3fc3c4f81051639);
    assert Rotate64(Long(0xe6a5f84b0d8b1094), 30) == Long(0x362c42539a97e12c);
    AddIs(0xb3fc3c4f81051639, 0x362c42539a97e12c, 0xea287ea31b9cf765);
    AddIs(0xea287ea31b9cf765, 0x6523a9763a5c8c3c, 0x4f4c281955f983a1);
    AddIs(0x0f0e0d0c0b0a0908, 0x9ae16a3b2f90404f, 0xa9ef77473a9a4957);
    assert Rotate64(Long(0xa9ef77473a9a4957), 18) == Long(0x9255ea7bddd1cea6);
    AddIs(0x19a3c093d6d87300, 0x9255ea7bddd1cea6, 0xabf9ab0fb4aa41a6);
    AddIs(0xabf9ab0fb4aa41a6, 0xe6a5f84b0d8b1094, 0x929fa35ac235523a);
    MixIs(0x4f4c281955f983a1, 0x929fa35ac235523a, 0x9ae16a3b2f904077, 0xddd38b4397ccd19b, 0x01441cc920cc2f0d,
      0x01441cc920cc2d85, 0x93dbbf93e2f97fbf, 0x602b084dce5a21c9, 0x602b084dce5ae19f, 0x8dd7e7f1bf16a0e9,
      0x9ae16a3b2f904077);
  }

  lemma Forty()
    ensures CityHash64(COUNTING, 40) == Long(0x36f7dd7a65e93d1c)
  {
    hide Add64, Mul64, Long64, Fetch64, Fetch32, HashLen16Mul, WeakHash;
    Load0();
    Load8();
    Load16();
    Load24();
    Load32();
    assert COUNTING[0..] == COUNTING;
    LongIs(40, 40);
    MulIs(0x0000000000000028, 0x0000000000000002, 0x0000000000000050, 0x0000000000000002);
    AddIs(0x9ae16a3b2f90404f, 0x0000000000000050, 0x9ae16a3b2f90409f);
    MulIs(0x0706050403020100, 0x9ae16a3b2f90404f, 0xa1cbd74cfdde4f00, 0x9ae16a3b2f90404f);
    MulIs(0x1716151413121110, 0x9ae16a3b2f90404f, 0xaf2b1ff1efd743f0, 0x9ae16a3b2f90404f);
    MulIs(0x1f1e1d1c1b1a1918, 0x0000000000000009, 0x180f05fcf3eae1d8, 0x0000000000000009);
    MulIs(0x1f1e1d1c1b1a1918, 0x9ae16a3b2f90409f, 0xef43dd0ce0fb95e8, 0x9ae16a3b2f90409f);
    AddIs(0xa1cbd74cfdde4f00, 0x2726252423222120, 0xc8f1fc7121007020);
    assert Rotate64(Long(0xc8f1fc7121007020), 43) == Long(0x8e24200e04191e3f);
    assert Rotate64(Long(0x0f0e0d0c0b0a0908), 30) == Long(0x2c2824203c383430);
    AddIs(0x2c2824203c383430, 0x1716151413121110, 0x433e39344f4a4540);
    MulIs(0x433e39344f4a4540, 0x0000000000000009, 0x5d3002d6c99c6f40, 0x0000000000000009);
    AddIs(0x8e24200e04191e3f, 0x5d3002d6c99c6f40, 0xeb5422e4cdb58d7f);
    AddIs(0xa1cbd74cfdde4f00, 0x2726252423222120, 0xc8f1fc7121007020);
    assert Xor64(Long(0xc8f1fc7121007020), Long(0x0f0e0d0c0b0a0908)) == Long(0xc7fff17d2a0a7928);
    AddIs(0xc7fff17d2a0a7928, 0x180f05fcf3eae1d8, 0xe00ef77a1df55b00);
    AddIs(0xe00ef77a1df55b00, 0x0000000000000001, 0xe00ef77a1df55b01);
    AddIs(0xeb5422e4cdb58d7f, 0xe00ef77a1df55b01, 0xcb631a5eebaae880);
    MulIs(0xcb631a5eebaae880, 0x9ae16a3b2f90409f, 0xc8f6a23161466780, 0x9ae16a3b2f90409f);
    assert Bswap64(Long(0xc8f6a23161466780)) == Long(0x8067466131a2f6c8);
    AddIs(0x8067466131a2f6c8, 0xef43dd0ce0fb95e8, 0x6fab236e129e8cb0);
    AddIs(0xaf2b1ff1efd743f0, 0x180f05fcf3eae1d8, 0xc73a25eee3c225c8);
    assert Rotate64(Long(0xc73a25eee3c225c8), 42) == Long(0x7bb8f0897231ce89);
    AddIs(0x7bb8f0897231ce89, 0x1716151413121110, 0x92cf059d8543df99);
    AddIs(0xe00ef77a1df55b01, 0x6fab236e129e8cb0, 0x4fba1ae83093e7b1);
    MulIs(0x4fba1ae83093e7b1, 0x9ae16a3b2f90409f, 0x5b6dece1f85926ef, 0x9ae16a3b2f90409f);
    assert Bswap64(Long(0x5b6dece1f85926ef)) == Long(0xef2659f8e1ec6d5b);
    AddIs(0xef2659f8e1ec6d5b, 0x2726252423222120, 0x164c7f1d050e8e7b);
    MulIs(0x164c7f1d050e8e7b, 0x9ae16a3b2f90409f, 0x36ff7cfb81d93e65, 0x9ae16a3b2f90409f);
    AddIs(0xaf2b1ff1efd743f0, 0x180f05fcf3eae1d8, 0xc73a25eee3c225c8);
    AddIs(0xc73a25eee3c225c8, 0x1716151413121110, 0xde503b02f6d436d8);
    AddIs(0x92cf059d8543df99, 0xde503b02f6d436d8, 0x711f40a07c181671);
    MulIs(0x711f40a07c181671, 0x9ae16a3b2f90409f, 0x29c872697722302f, 0x9ae16a3b2f90409f);
    AddIs(0x29c872697722302f, 0x36ff7cfb81d93e65, 0x60c7ef64f8fb6e94);
    assert Bswap64(Long(0x60c7ef64f8fb6e94)) == Long(0x946efbf864efc760);
    AddIs(0x946efbf864efc760, 0x0f0e0d0c0b0a0908, 0xa37d09046ff9d068);
    AddIs(0xde503b02f6d436d8, 0xa37d09046ff9d068, 0x81cd440766ce0740);
    MulIs(0x81cd440766ce0740, 0x9ae16a3b2f90409f, 0x6f44ed452fc680c0, 0x9ae16a3b2f90409f);
    AddIs(0x6f44ed452fc680c0, 0x0f0e0d0c0b0a0908, 0x7e52fa513ad089c8);
    AddIs(0x7e52fa513ad089c8, 0xef43dd0ce0fb95e8, 0x6d96d75e1bcc1fb0);
    assert ShiftMix(Long(0x6d96d75e1bcc1fb0)) == Long(0x6d96d75e1bccc49d);
    MulIs(0x6d96d75e1bccc49d, 0x9ae16a3b2f90409f, 0xa428d7dce0a55d83, 0x9ae16a3b2f90409f);
    AddIs(0xa428d7dce0a55d83, 0x92cf059d8543df99, 0x36f7dd7a65e93d1c);
  }

  lemma SeventyStart()
    ensures Start64(COUNTING, 70) ==
      State(Long(0x1a7a64d5ffaa577a), Long(0x52504e4c4a484644), Long(0x48295a1a062108d7),
           Uint128(Long(0x64605c5854504c8e), Long(0xe9e949dfac4e2c91)),
           Uint128(Long(0xebc3e194ddb2057f), Long(0x672ac3f652d61c79)))
  {
    hide Add64, Mul64, Long64, Fetch64, Fetch32, HashLen16Mul, WeakHash;
    Load0();
    Load6();
    Load14();
    Load22();
    Load30();
    Load38();
    Load46();
    Load54();
    Load62();
    assert COUNTING[0..] == COUNTING;
    LongIs(70, 70);
    AddIs(0x3d3c3b3a39383736, 0x1514131211100f0e, 0x52504e4c4a484644);
    AddIs(0x1d1c1b1a19181716, 0x0000000000000046, 0x1d1c1b1a1918175c);
    MixIs(0x1d1c1b1a1918175c, 0x3534333231302f2e, 0x9ddfea08eb382d69, 0x2828282828283872, 0x475533b4895b30c2,
      0x475533b4895bbe68, 0x72610086b86b9146, 0x4fc481bf95f7e3b6, 0x4fc481bf95f77c3f, 0x48295a1a062108d7,
      0x9ddfea08eb382d69);
    WeakIs(0x0d0c0b0a09080706, 0x1514131211100f0e, 0x1d1c1b1a19181716, 0x2524232221201f1e, 0x0000000000000046,
      0x48295a1a062108d7, 0x0d0c0b0a0908074c, 0x553565240f291023, 0x7a59884630492f41, 0x497a0bd2cc423182,
      0x22201e1c1a18165a, 0x3f3c393633302d70, 0x64605c5854504c8e, 0x93633302d703f3c3, 0xdcdd3ed5a3462545,
      0xe9e949dfac4e2c91);
    AddIs(0x52504e4c4a484644, 0xb492b66fbe98f273, 0x06e304bc08e138b7);
    WeakIs(0x2d2c2b2a29282726, 0x3534333231302f2e, 0x3d3c3b3a39383736, 0x4544434241403f3e, 0x06e304bc08e138b7,
      0x2524232221201f1e, 0x340f2fe632095fdd, 0x5933530853297efb, 0x9e77964a9469be39, 0x4df1ccf3bcb254a3,
      0x6943631863398f0b, 0xa67f9e529c71c641, 0xebc3e194ddb2057f, 0xe529c71c641a67f9, 0x331b941020ccbc9c,
      0x672ac3f652d61c79);
    MulIs(0x2524232221201f1e, 0xb492b66fbe98f273, 0x13745fd1fca8567a, 0xb492b66fbe98f273);
    AddIs(0x13745fd1fca8567a, 0x0706050403020100, 0x1a7a64d5ffaa577a);
  }

  lemma SeventyRound()
    ensures Round(State(Long(0x1a7a64d5ffaa577a), Long(0x52504e4c4a484644), Long(0x48295a1a062108d7),
           Uint128(Long(0x64605c5854504c8e), Long(0xe9e949dfac4e2c91)),
           Uint128(Long(0xebc3e194ddb2057f), Long(0x672ac3f652d61c79))), COUNTING) ==
      State(Long(0xf34e34b414a62595), Long(0x1fbe6ff7d664f9df), Long(0x45e9a8ab67c2da15),
           Uint128(Long(0x6ee0a0f99d8f4b53), Long(0xa7fd04e3d856e272)),
           Uint128(Long(0x2741bd6b2434f6be), Long(0x01c85d37f20d98e0)))
  {
    hide Add64, Mul64, Long64, Fetch64, Fetch32, HashLen16Mul, WeakHash;
    Load0();
    Load8();
    Load16();
    Load24();
    Load32();
    Load40();
    Load48();
    Load56();
    assert COUNTING[0..] == COUNTING;
    AddIs(0x1a7a64d5ffaa577a, 0x52504e4c4a484644, 0x6ccab32249f29dbe);
    AddIs(0x6ccab32249f29dbe, 0x64605c5854504c8e, 0xd12b0f7a9e42ea4c);
    AddIs(0xd12b0f7a9e42ea4c, 0x0f0e0d0c0b0a0908, 0xe0391c86a94cf354);
    assert Rotate64(Long(0xe0391c86a94cf354), 37) == Long(0x354a679aa701c8e4);
    MulIs(0x354a679aa701c8e4, 0xb492b66fbe98f273, 0x22c36b5d3514c66c, 0xb492b66fbe98f273);
    assert Xor64(Long(0x22c36b5d3514c66c), Long(0x672ac3f652d61c79)) == Long(0x45e9a8ab67c2da15);
    AddIs(0x52504e4c4a484644, 0xe9e949dfac4e2c91, 0x3c39982bf69672d5);
    AddIs(0x3c39982bf69672d5, 0x3736353433323130, 0x736fcd6029c8a405);
    assert Rotate64(Long(0x736fcd6029c8a405), 42) == Long(0x580a7229015cdbf3);
    MulIs(0x580a7229015cdbf3, 0xb492b66fbe98f273, 0x8c2fe67356ea8429, 0xb492b66fbe98f273);
    AddIs(0x64605c5854504c8e, 0x2f2e2d2c2b2a2928, 0x938e89847f7a75b6);
    AddIs(0x8c2fe67356ea8429, 0x938e89847f7a75b6, 0x1fbe6ff7d664f9df);
    AddIs(0x48295a1a062108d7, 0xebc3e194ddb2057f, 0x33ed3baee3d30e56);
    assert Rotate64(Long(0x33ed3baee3d30e56), 33) == Long(0x71e9872b19f69dd7);
    MulIs(0x71e9872b19f69dd7, 0xb492b66fbe98f273, 0xf34e34b414a62595, 0xb492b66fbe98f273);
    MulIs(0xe9e949dfac4e2c91, 0xb492b66fbe98f273, 0x22985cb961571723, 0xb492b66fbe98f273);
    AddIs(0x45e9a8ab67c2da15, 0xebc3e194ddb2057f, 0x31ad8a404574df94);
    WeakIs(0x0706050403020100, 0x0f0e0d0c0b0a0908, 0x1716151413121110, 0x1f1e1d1c1b1a1918, 0x22985cb961571723,
      0x31ad8a404574df94, 0x299e61bd64591823, 0x5b4bebfda9cdf7b7, 0x7a6a0919c4e810cf, 0x40867bd35048ce27,
      0x38ac6ec96f63212b, 0x4fc283dd8275323b, 0x6ee0a0f99d8f4b53, 0x3dd8275323b4fc28, 0x7e5ea32673fdca4f,
      0xa7fd04e3d856e272);
    AddIs(0xf34e34b414a62595, 0x672ac3f652d61c79, 0x5a78f8aa677c420e);
    AddIs(0x1fbe6ff7d664f9df, 0x1716151413121110, 0x36d4850be9770aef);
    WeakIs(0x2726252423222120, 0x2f2e2d2c2b2a2928, 0x3736353433323130, 0x3f3e3d3c3b3a3938, 0x5a78f8aa677c420e,
      0x36d4850be9770aef, 0x819f1dce8a9e632e, 0xb873a2da74156e1d, 0xf7b1e016af4fa755, 0x7d3aafbd8f00b57a,
      0xb0cd4afab5c88c56, 0xe803802ee8fabd86, 0x2741bd6b2434f6be, 0x02ee8fabd86e8038, 0x80293f69676f35b2,
      0x01c85d37f20d98e0);
  }

  lemma SeventyFinish()
    ensures Finish64(State(Long(0xf34e34b414a62595), Long(0x1fbe6ff7d664f9df), Long(0x45e9a8ab67c2da15),
           Uint128(Long(0x6ee0a0f99d8f4b53), Long(0xa7fd04e3d856e272)),
           Uint128(Long(0x2741bd6b2434f6be), Long(0x01c85d37f20d98e0)))) == Long(0xbebcb91fd6057b44)
  {
    hide Add64, Mul64, Long64, Fetch64, Fetch32, HashLen16Mul, WeakHash;
    MixIs(0x6ee0a0f99d8f4b53, 0x2741bd6b2434f6be, 0x9ddfea08eb382d69, 0x49a11d92b9bbbded, 0xe1cb75a6493b8f35,
      0xe1cb75a6493a4ca3, 0xc68ac8cd6d0eba1d, 0x1b1c2b66a7196ee5, 0x1b1c2b66a71958dd, 0x218f73804d5c4ba5,
      0x9ddfea08eb382d69);
    assert ShiftMix(Long(0x1fbe6ff7d664f9df)) == Long(0x1fbe6ff7d664c6a3);
    MulIs(0x1fbe6ff7d664c6a3, 0xb492b66fbe98f273, 0x348aaef07dd35139, 0xb492b66fbe98f273);
    AddIs(0x218f73804d5c4ba5, 0x348aaef07dd35139, 0x561a2270cb2f9cde);
    AddIs(0x561a2270cb2f9cde, 0x45e9a8ab67c2da15, 0x9c03cb1c32f276f3);
    MixIs(0xa7fd04e3d856e272, 0x01c85d37f20d98e0, 0x9ddfea08eb382d69, 0xa63559d42a5b7a92, 0x360aa98e4a00efe2,
      0x360aa98e4a0083f7, 0x37c2f4b9b80d1b17, 0x97c42efad52b276f, 0x97c42efad52a08e7, 0xc5f200efd15641bf,
      0x9ddfea08eb382d69);
    AddIs(0xc5f200efd15641bf, 0xf34e34b414a62595, 0xb94035a3e5fc6754);
    MixIs(0x9c03cb1c32f276f3, 0xb94035a3e5fc6754, 0x9ddfea08eb382d69, 0x2543febfd70e11a7, 0x71185dfcd767987f,
      0x71185dfcd7677a4f, 0xc858685f329b1d1b, 0x35db976f2ca4af13, 0x35db976f2ca4c4a4, 0xbebcb91fd6057b44,
      0x9ddfea08eb382d69);
  }

  lemma Seventy()
    ensures CityHash64(COUNTING, 70) == Long(0xbebcb91fd6057b44)
  {
    hide Start64, Round, Finish64;
    SeventyStart();
    SeventyRound();
    SeventyFinish();
    var start := Start64(COUNTING, 70);
    assert Rounds(start, COUNTING, 1) == Rounds(Round(start, COUNTING), COUNTING[64..], 0);
  }

  lemma MurmurTwentyStart()
    ensures MurmurStart(COUNTING, 20, SEED) ==
      MurmurState(Long(0x8484ceecfa5d7c5f), Long(0xfedcba9876543210),
                  Long(0x5353e4b1e5f55a50), Long(0x8361898570b1ae70))
  {
    hide Add64, Mul64, Long64, Fetch64, Fetch32, HashLen16Mul, WeakHash;
    Load4();
    Load12();
    LongIs(20, 20);
    AddIs(0x131211100f0e0d0c, 0xb492b66fbe98f273, 0xc7a4c77fcda6ff7f);
    MixIs(0xc7a4c77fcda6ff7f, 0x0123456789abcdef, 0x9ddfea08eb382d69, 0xc6878218440d3290, 0x874ad4b77acd0d10,
      0x874ad4b77acc0385, 0x866991d0f367ce6a, 0xb35569fd8a0c4b7a, 0xb35569fd8a0d2dd0, 0x5353e4b1e5f55a50,
      0x9ddfea08eb382d69);
    AddIs(0xfedcba9876543210, 0x0000000000000014, 0xfedcba9876543224);
    AddIs(0x5353e4b1e5f55a50, 0x0b0a090807060504, 0x5e5dedb9ecfb5f54);
    MixIs(0xfedcba9876543224, 0x5e5dedb9ecfb5f54, 0x9ddfea08eb382d69, 0xa08157219aaf6d70, 0xadca504f08b092f0,
      0xadca504f08b1c964, 0xf397bdf6e44a9630, 0x5aa04a13a97e09b0, 0x5aa04a13a97ebcf0, 0x8361898570b1ae70,
      0x9ddfea08eb382d69);
    AddIs(0x0123456789abcdef, 0x8361898570b1ae70, 0x8484ceecfa5d7c5f);
  }

  lemma MurmurTwentyRound()
    ensures MurmurRound(MurmurState(Long(0x8484ceecfa5d7c5f), Long(0xfedcba9876543210),
                  Long(0x5353e4b1e5f55a50), Long(0x8361898570b1ae70)), COUNTING) ==
      MurmurState(Long(0x2dacf1e878221a8e), Long(0xd3704b700e76289e),
                  Long(0x7a4120a1477b07b5), Long(0xf920a92437caa9c5))
  {
    hide Add64, Mul64, Long64, Fetch64, Fetch32, HashLen16Mul, WeakHash;
    Load0();
    Load8();
    assert COUNTING[0..] == COUNTING;
    MulIs(0x0706050403020100, 0xb492b66fbe98f273, 0x19a3c093d6d87300, 0xb492b66fbe98f273);
    assert ShiftMix(Long(0x19a3c093d6d87300)) == Long(0x19a3c093d6d84047);
    MulIs(0x19a3c093d6d84047, 0xb492b66fbe98f273, 0xdbcbac65cc0ffde5, 0xb492b66fbe98f273);
    assert Xor64(Long(0x8484ceecfa5d7c5f), Long(0xdbcbac65cc0ffde5)) == Long(0x5f4f6289365281ba);
    MulIs(0x5f4f6289365281ba, 0xb492b66fbe98f273, 0x2dacf1e878221a8e, 0xb492b66fbe98f273);
    MulIs(0x0f0e0d0c0b0a0908, 0xb492b66fbe98f273, 0x6d52d9f9becb9e98, 0xb492b66fbe98f273);
    assert ShiftMix(Long(0x6d52d9f9becb9e98)) == Long(0x6d52d9f9becb443d);
    MulIs(0x6d52d9f9becb443d, 0xb492b66fbe98f273, 0x419a1b55a6095167, 0xb492b66fbe98f273);
    assert Xor64(Long(0x5353e4b1e5f55a50), Long(0x419a1b55a6095167)) == Long(0x12c9ffe443fc0b37);
    MulIs(0x12c9ffe443fc0b37, 0xb492b66fbe98f273, 0x7a4120a1477b07b5, 0xb492b66fbe98f273);
    assert Xor64(Long(0xfedcba9876543210), Long(0x2dacf1e878221a8e)) == Long(0xd3704b700e76289e);
    assert Xor64(Long(0x8361898570b1ae70), Long(0x7a4120a1477b07b5)) == Long(0xf920a92437caa9c5);
  }

  lemma MurmurTwentyFinish()
    ensures MurmurFinish(MurmurState(Long(0x2dacf1e878221a8e), Long(0xd3704b700e76289e),
                  Long(0x7a4120a1477b07b5), Long(0xf920a92437caa9c5))) ==
      Uint128(Long(0xc413852c510cfd1e), Long(0x8a0591a9cea10479))
  {
    hide Add64, Mul64, Long64, Fetch64, Fetch32, HashLen16Mul, WeakHash;
    MixIs(0x2dacf1e878221a8e, 0x7a4120a1477b07b5, 0x9ddfea08eb382d69, 0x57edd1493f591d3b, 0xf867385933985c33,
      0xf86738593399acfd, 0x822618f874e2ab48, 0xd106b98458d3e888, 0xd106b98458d24a85, 0x7665b975c971f18d,
      0x9ddfea08eb382d69);
    MixIs(0xf920a92437caa9c5, 0xd3704b700e76289e, 0x9ddfea08eb382d69, 0x2a50e25439bc815b, 0xffc88784a5f60d53,
      0xffc88784a5f7f2c2, 0x2cb8ccf4ab81da5c, 0xf293b53a63c4bbbc, 0xf293b53a63c55e9b, 0xb2763c59987d0c93,
      0x9ddfea08eb382d69);
    assert Xor64(Long(0x7665b975c971f18d), Long(0xb2763c59987d0c93)) == Long(0xc413852c510cfd1e);
    MixIs(0xb2763c59987d0c93, 0x7665b975c971f18d, 0x9ddfea08eb382d69, 0xc413852c510cfd1e, 0xf56a658e6f62174e,
      0xf56a658e6f63fd9a, 0x830fdcfba6120c17, 0x367f2b2c0b8f006f, 0x367f2b2c0b8f6c91, 0x8a0591a9cea10479,
      0x9ddfea08eb382d69);
  }

  lemma MurmurTwenty()
    ensures CityMurmur(COUNTING, 20, SEED) == Uint128(Long(0xc413852c510cfd1e), Long(0x8a0591a9cea10479))
  {
    hide MurmurStart, MurmurRound, MurmurFinish;
    MurmurTwentyStart();
    MurmurTwentyRound();
    MurmurTwentyFinish();
    assert MurmurRounds(MurmurStart(COUNTING, 20, SEED), COUNTING, 1)
        == MurmurRounds(MurmurRound(MurmurStart(COUNTING, 20, SEED), COUNTING), COUNTING[16..], 0);
  }

  lemma MurmurThree()
    ensures CityMurmur(COUNTING, 3, SEED) == Uint128(Long(0x766343f46a29780a), Long(0xa3c67960c94ae502))
  {
    hide Add64, Mul64, Long64, Fetch64, Fetch32, HashLen16Mul, WeakHash, HashLen0to16;
    Three();
    MulIs(0x0123456789abcdef, 0xb492b66fbe98f273, 0x3c4f8321e8c1705d, 0xb492b66fbe98f273);
    assert ShiftMix(Long(0x3c4f8321e8c1705d)) == Long(0x3c4f8321e8c108c2);
    MulIs(0x3c4f8321e8c108c2, 0xb492b66fbe98f273, 0xd720257d382e5326, 0xb492b66fbe98f273);
    MulIs(0xfedcba9876543210, 0xb492b66fbe98f273, 0x0f1dc66e58a59d30, 0xb492b66fbe98f273);
    AddIs(0x0f1dc66e58a59d30, 0x94a13d22e9eba49a, 0xa3bf0391429141ca);
    AddIs(0xd720257d382e5326, 0xa3bf0391429141ca, 0x7adf290e7abf94f0);
    assert ShiftMix(Long(0x7adf290e7abf94f0)) == Long(0x7adf290e7abf614e);
    MixIs(0xd720257d382e5326, 0xa3bf0391429141ca, 0x9ddfea08eb382d69, 0x749f26ec7abf12ec, 0x1c5f181cb6523ecc,
      0x1c5f181cb6520672, 0xbfe01b8df4c347b8, 0xe5707c8d4ff3c278, 0xe5707c8d4ff20898, 0x4827cc98bf083e58,
      0x9ddfea08eb382d69);
    MixIs(0x7adf290e7abf614e, 0xfedcba9876543210, 0x9ddfea08eb382d69, 0x840393960ceb535e, 0x938848c230bcb78e,
      0x938848c230bd909e, 0x6d54f25a46e9a28e, 0x1ede21421076a23e, 0x1ede214210769f82, 0x3e448f6cd5214652,
      0x9ddfea08eb382d69);
    assert Xor64(Long(0x4827cc98bf083e58), Long(0x3e448f6cd5214652)) == Long(0x766343f46a29780a);
    MixIs(0x3e448f6cd5214652, 0x4827cc98bf083e58, 0x9ddfea08eb382d69, 0x766343f46a29780a, 0x284f047c454bfe1a,
      0x284f047c454bae84, 0x6068c8e4fa4390dc, 0xca47098a2a4d163c, 0xca47098a2a4c82b2, 0xa3c67960c94ae502,
      0x9ddfea08eb382d69);
  }

  lemma LongStart()
    ensures Start128(COUNTING, 130, SEED) ==
      State(Long(0x0123456789abcdef), Long(0xfedcba9876543210), Long(0xb280a4bec9ab1e66),
           Uint128(Long(0x43f2b1e628960f85), Long(0xb6f34c7a7f66224c)),
           Uint128(Long(0x9cbaea82c6bd3c0d), Long(0x5546deb32b524acc)))
  {
    hide Add64, Mul64, Long64, Fetch64, Fetch32, HashLen16Mul, WeakHash;
    Load0();
    Load8();
    Load88();
    assert COUNTING[0..] == COUNTING;
    LongIs(130, 130);
    MulIs(0x0000000000000082, 0xb492b66fbe98f273, 0xb280a4bec9ab1e66, 0xb492b66fbe98f273);
    assert Xor64(Long(0xfedcba9876543210), Long(0xb492b66fbe98f273)) == Long(0x4a4e0cf7c8ccc063);
    assert Rotate64(Long(0x4a4e0cf7c8ccc063), 49) == Long(0x067be4666031a527);
    MulIs(0x067be4666031a527, 0xb492b66fbe98f273, 0x3cecace225940e85, 0xb492b66fbe98f273);
    AddIs(0x3cecace225940e85, 0x0706050403020100, 0x43f2b1e628960f85);
    assert Rotate64(Long(0x43f2b1e628960f85), 42) == Long(0x798a2583e150fcac);
    MulIs(0x798a2583e150fcac, 0xb492b66fbe98f273, 0xa7e53f6e745c1944, 0xb492b66fbe98f273);
    AddIs(0xa7e53f6e745c1944, 0x0f0e0d0c0b0a0908, 0xb6f34c7a7f66224c);
    AddIs(0xfedcba9876543210, 0xb280a4bec9ab1e66, 0xb15d5f573fff5076);
    assert Rotate64(Long(0xb15d5f573fff5076), 35) == Long(0xe7ffea0ed62babea);
    MulIs(0xe7ffea0ed62babea, 0xb492b66fbe98f273, 0x9b97a51b3d116e1e, 0xb492b66fbe98f273);
    AddIs(0x9b97a51b3d116e1e, 0x0123456789abcdef, 0x9cbaea82c6bd3c0d);
    AddIs(0x0123456789abcdef, 0x5f5e5d5c5b5a5958, 0x6081a2c3e5062747);
    assert Rotate64(Long(0x6081a2c3e5062747), 53) == Long(0x0d161f28313a3b04);
    MulIs(0x0d161f28313a3b04, 0xb492b66fbe98f273, 0x5546deb32b524acc, 0xb492b66fbe98f273);
  }

  lemma LongRound1()
    ensures Round(State(Long(0x0123456789abcdef), Long(0xfedcba9876543210), Long(0xb280a4bec9ab1e66),
           Uint128(Long(0x43f2b1e628960f85), Long(0xb6f34c7a7f66224c)),
           Uint128(Long(0x9cbaea82c6bd3c0d), Long(0x5546deb32b524acc))), COUNTING) ==
      State(Long(0x1968bf90b995ece0), Long(0x9732fbb7fa3fd9ea), Long(0xa4485286f7c46139),
           Uint128(Long(0xa62bc4c2c8a57454), Long(0x331074449a351546)),
           Uint128(Long(0x3b786304a1a0ec5c), Long(0xa6441dee22e59ef2)))
  {
    hide Add64, Mul64, Long64, Fetch64, Fetch32, HashLen16Mul, WeakHash;
    Load0();
    Load8();
    Load16();
    Load24();
    Load32();
    Load40();
    Load48();
    Load56();
    assert COUNTING[0..] == COUNTING;
    AddIs(0x0123456789abcdef, 0xfedcba9876543210, 0xffffffffffffffff);
    AddIs(0xffffffffffffffff, 0x43f2b1e628960f85, 0x43f2b1e628960f84);
    AddIs(0x43f2b1e628960f84, 0x0f0e0d0c0b0a0908, 0x5300bef233a0188c);
    assert Rotate64(Long(0x5300bef233a0188c), 37) == Long(0x919d00c4629805f7);
    MulIs(0x919d00c4629805f7, 0xb492b66fbe98f273, 0xf10e8c35dc962bf5, 0xb492b66fbe98f273);
    assert Xor64(Long(0xf10e8c35dc962bf5), Long(0x5546deb32b524acc)) == Long(0xa4485286f7c46139);
    AddIs(0xfedcba9876543210, 0xb6f34c7a7f66224c, 0xb5d00712f5ba545c);
    AddIs(0xb5d00712f5ba545c, 0x3736353433323130, 0xed063c4728ec858c);
    assert Rotate64(Long(0xed063c4728ec858c), 42) == Long(0x11ca3b21633b418f);
    MulIs(0x11ca3b21633b418f, 0xb492b66fbe98f273, 0x24121ca5a67fa13d, 0xb492b66fbe98f273);
    AddIs(0x43f2b1e628960f85, 0x2f2e2d2c2b2a2928, 0x7320df1253c038ad);
    AddIs(0x24121ca5a67fa13d, 0x7320df1253c038ad, 0x9732fbb7fa3fd9ea);
    AddIs(0xb280a4bec9ab1e66, 0x9cbaea82c6bd3c0d, 0x4f3b8f4190685a73);
    assert Rotate64(Long(0x4f3b8f4190685a73), 33) == Long(0xc8342d39a79dc7a0);
    MulIs(0xc8342d39a79dc7a0, 0xb492b66fbe98f273, 0x1968bf90b995ece0, 0xb492b66fbe98f273);
    MulIs(0xb6f34c7a7f66224c, 0xb492b66fbe98f273, 0x59e380828c6d4024, 0xb492b66fbe98f273);
    AddIs(0xa4485286f7c46139, 0x9cbaea82c6bd3c0d, 0x41033d09be819d46);
    WeakIs(0x0706050403020100, 0x0f0e0d0c0b0a0908, 0x1716151413121110, 0x1f1e1d1c1b1a1918, 0x59e380828c6d4024,
      0x41033d09be819d46, 0x60e985868f6f4124, 0xa1ecc2904df0de6a, 0xc10adfac690af782, 0x57bc160856fd6348,
      0x6ff792929a794a2c, 0x870da7a6ad8b5b3c, 0xa62bc4c2c8a57454, 0x7a6ad8b5b3c870da, 0xd226eebe0ac5d422,
      0x331074449a351546);
    AddIs(0x1968bf90b995ece0, 0x5546deb32b524acc, 0x6eaf9e43e4e837ac);
    AddIs(0x9732fbb7fa3fd9ea, 0x1716151413121110, 0xae4910cc0d51eafa);
    WeakIs(0x2726252423222120, 0x2f2e2d2c2b2a2928, 0x3736353433323130, 0x3f3e3d3c3b3a3938, 0x6eaf9e43e4e837ac,
      0xae4910cc0d51eafa, 0x95d5c368080a58cc, 0x441ed434155c43c6, 0x835d117050967cfe, 0xb3e7f41ae88b8284,
      0xc503f094333481f4, 0xfc3a25c86666b324, 0x3b786304a1a0ec5c, 0x5c86666b324fc3a2, 0x106e5a861adb4626,
      0xa6441dee22e59ef2);
  }

  lemma LongRound2()
    ensures Round(State(Long(0x1968bf90b995ece0), Long(0x9732fbb7fa3fd9ea), Long(0xa4485286f7c46139),
           Uint128(Long(0xa62bc4c2c8a57454), Long(0x331074449a351546)),
           Uint128(Long(0x3b786304a1a0ec5c), Long(0xa6441dee22e59ef2))), COUNTING[64..]) ==
      State(Long(0x479d1deaf28f007f), Long(0xce2bac5f21b7e017), Long(0x98d3d387064b136c),
           Uint128(Long(0xb2d54c8146bdefa2), Long(0x09c799c1986f95a0)),
           Uint128(Long(0xbbab019ad32e5521), Long(0x748aa44d746e2ee3)))
  {
    hide Add64, Mul64, Long64, Fetch64, Fetch32, HashLen16Mul, WeakHash;
    Load64();
    Load72();
    Load80();
    Load88();
    Load96();
    Load104();
    Load112();
    Load120();
    AddIs(0x1968bf90b995ece0, 0x9732fbb7fa3fd9ea, 0xb09bbb48b3d5c6ca);
    AddIs(0xb09bbb48b3d5c6ca, 0xa62bc4c2c8a57454, 0x56c7800b7c7b3b1e);
    AddIs(0x56c7800b7c7b3b1e, 0x4f4e4d4c4b4a4948, 0xa615cd57c7c58466);
    assert Rotate64(Long(0xa615cd57c7c58466), 37) == Long(0xbe3e2c233530ae6a);
    MulIs(0xbe3e2c233530ae6a, 0xb492b66fbe98f273, 0x3e97ce6924ae8d9e, 0xb492b66fbe98f273);
    assert Xor64(Long(0x3e97ce6924ae8d9e), Long(0xa6441dee22e59ef2)) == Long(0x98d3d387064b136c);
    AddIs(0x9732fbb7fa3fd9ea, 0x331074449a351546, 0xca436ffc9474ef30);
    AddIs(0xca436ffc9474ef30, 0x7776757473727170, 0x41b9e57107e760a0);
    assert Rotate64(Long(0x41b9e57107e760a0), 42) == Long(0x5c41f9d828106e79);
    MulIs(0x5c41f9d828106e79, 0xb492b66fbe98f273, 0xb8917a2feda8025b, 0xb492b66fbe98f273);
    AddIs(0xa62bc4c2c8a57454, 0x6f6e6d6c6b6a6968, 0x159a322f340fddbc);
    AddIs(0xb8917a2feda8025b, 0x159a322f340fddbc, 0xce2bac5f21b7e017);
    AddIs(0xa4485286f7c46139, 0x3b786304a1a0ec5c, 0xdfc0b58b99654d95);
    assert Rotate64(Long(0xdfc0b58b99654d95), 33) == Long(0xccb2a6caefe05ac5);
    MulIs(0xccb2a6caefe05ac5, 0xb492b66fbe98f273, 0x479d1deaf28f007f, 0xb492b66fbe98f273);
    MulIs(0x331074449a351546, 0xb492b66fbe98f273, 0x658c07400984ba72, 0xb492b66fbe98f273);
    AddIs(0x98d3d387064b136c, 0x3b786304a1a0ec5c, 0xd44c368ba7ebffc8);
    WeakIs(0x4746454443424140, 0x4f4e4d4c4b4a4948, 0x5756555453525150, 0x5f5e5d5c5b5a5958, 0x658c07400984ba72,
      0xd44c368ba7ebffc8, 0xacd24c844cc6fbb2, 0x811e830ff4b2fb7a, 0xe07ce06c500d54d2, 0x6aa69703e7036280,
      0xfc2099d0981144fa, 0x5376ef24eb63964a, 0xb2d54c8146bdefa2, 0xf24eb63964a5376e, 0x5cf54d3d4ba899ee,
      0x09c799c1986f95a0);
    AddIs(0x479d1deaf28f007f, 0xa6441dee22e59ef2, 0xede13bd915749f71);
    AddIs(0xce2bac5f21b7e017, 0x5756555453525150, 0x258201b3750a3167);
    WeakIs(0x6766656463626160, 0x6f6e6d6c6b6a6968, 0x7776757473727170, 0x7f7e7d7c7b7a7978, 0xede13bd915749f71,
      0x258201b3750a3167, 0x5547a13d78d700d1, 0x7ac9a2f0ede13238, 0xfa48206d695babb0, 0xdd5d87d241036b4a,
      0xc4b60ea9e4416a39, 0x3c2c841e57b3dba9, 0xbbab019ad32e5521, 0x41e57b3dba93c2c8, 0x1f43030ffb972e12,
      0x748aa44d746e2ee3);
  }

  lemma LongBeforeTail()
    ensures BeforeTail(State(Long(0x479d1deaf28f007f), Long(0xce2bac5f21b7e017), Long(0x98d3d387064b136c),
           Uint128(Long(0xb2d54c8146bdefa2), Long(0x09c799c1986f95a0)),
           Uint128(Long(0xbbab019ad32e5521), Long(0x748aa44d746e2ee3)))) ==
      State(Long(0xb6dafe90977f57cb), Long(0xb5959ba9b3c8dfa3), Long(0x4d1856cae42bd4ce),
           Uint128(Long(0xa6433569b54383ae), Long(0x09c799c1986f95a0)),
           Uint128(Long(0x99030e716ca0fe29), Long(0x748aa44d746e2ee3)))
  {
    hide Add64, Mul64, Long64, Fetch64, Fetch32, HashLen16Mul, WeakHash;
    AddIs(0xb2d54c8146bdefa2, 0x98d3d387064b136c, 0x4ba920084d09030e);
    assert Rotate64(Long(0x4ba920084d09030e), 49) == Long(0x90042684818725d4);
    MulIs(0x90042684818725d4, 0xc3a5c85c97cb3127, 0x6f3de0a5a4f0574c, 0xc3a5c85c97cb3127);
    AddIs(0x479d1deaf28f007f, 0x6f3de0a5a4f0574c, 0xb6dafe90977f57cb);
    MulIs(0xce2bac5f21b7e017, 0xc3a5c85c97cb3127, 0x49f22a3298248a81, 0xc3a5c85c97cb3127);
    assert Rotate64(Long(0x748aa44d746e2ee3), 37) == Long(0x6ba371771ba45522);
    AddIs(0x49f22a3298248a81, 0x6ba371771ba45522, 0xb5959ba9b3c8dfa3);
    MulIs(0x98d3d387064b136c, 0xc3a5c85c97cb3127, 0xe74db2936ecba174, 0xc3a5c85c97cb3127);
    assert Rotate64(Long(0xbbab019ad32e5521), 27) == Long(0x65caa4377560335a);
    AddIs(0xe74db2936ecba174, 0x65caa4377560335a, 0x4d1856cae42bd4ce);
    MulIs(0xb2d54c8146bdefa2, 0xc3a5c85c97cb3127, 0xa6433569b54383ae, 0xc3a5c85c97cb3127);
    MulIs(0xbbab019ad32e5521, 0x0000000000000009, 0x99030e716ca0fe29, 0x0000000000000009);
  }

  lemma LongTail()
    ensures TailRound(State(Long(0xb6dafe90977f57cb), Long(0xb5959ba9b3c8dfa3), Long(0x4d1856cae42bd4ce),
           Uint128(Long(0xa6433569b54383ae), Long(0x09c799c1986f95a0)),
           Uint128(Long(0x99030e716ca0fe29), Long(0x748aa44d746e2ee3))), COUNTING[98..]) ==
      State(Long(0x23c75ea5b142ac88), Long(0xca19b0287996256a), Long(0x2b0b627ebdfe6713),
           Uint128(Long(0x87470cd259c0d36f), Long(0x30eca5f1a15d1f95)),
           Uint128(Long(0x127b85e7e215719b), Long(0x1acdd9b729b1b291)))
  {
    hide Add64, Mul64, Long64, Fetch64, Fetch32, HashLen16Mul, WeakHash;
    Load98();
    Load106();
    Load114();
    Load122();
    AddIs(0xb6dafe90977f57cb, 0xb5959ba9b3c8dfa3, 0x6c709a3a4b48376e);
    assert Rotate64(Long(0x6c709a3a4b48376e), 42) == Long(0x8e92d20ddb9b1c26);
    MulIs(0x8e92d20ddb9b1c26, 0xc3a5c85c97cb3127, 0xc0521666e1268fca, 0xc3a5c85c97cb3127);
    AddIs(0xc0521666e1268fca, 0x09c799c1986f95a0, 0xca19b0287996256a);
    AddIs(0x99030e716ca0fe29, 0x7978777675747372, 0x127b85e7e215719b);
    MulIs(0xb6dafe90977f57cb, 0xc3a5c85c97cb3127, 0x114bd8bdcf2d3aed, 0xc3a5c85c97cb3127);
    AddIs(0x114bd8bdcf2d3aed, 0x127b85e7e215719b, 0x23c75ea5b142ac88);
    AddIs(0x748aa44d746e2ee3, 0x6968676665646362, 0xddf30bb3d9d29245);
    AddIs(0x4d1856cae42bd4ce, 0xddf30bb3d9d29245, 0x2b0b627ebdfe6713);
    AddIs(0xa6433569b54383ae, 0x2b0b627ebdfe6713, 0xd14e97e87341eac1);
    WeakIs(0x6968676665646362, 0x71706f6e6d6c6b6a, 0x7978777675747372, 0x81807f7e7d7c7b7a, 0xd14e97e87341eac1,
      0x09c799c1986f95a0, 0x3ab6ff4ed8a64e23, 0x447e99107115e3c3, 0xc5ff188eee925f3d, 0x92f9ee2ff8c47774,
      0xac276ebd4612b98d, 0x259fe633bb872cff, 0xa72065b23903a879, 0x633bb872cff259fe, 0xf635a6a2c8b6d172,
      0x30eca5f1a15d1f95);
    MulIs(0xa72065b23903a879, 0xc3a5c85c97cb3127, 0x87470cd259c0d36f, 0xc3a5c85c97cb3127);
    AddIs(0x748aa44d746e2ee3, 0xa6433569b54383ae, 0x1acdd9b729b1b291);
  }

  lemma LongFinish()
    ensures Finish128(State(Long(0x23c75ea5b142ac88), Long(0xca19b0287996256a), Long(0x2b0b627ebdfe6713),
           Uint128(Long(0x87470cd259c0d36f), Long(0x30eca5f1a15d1f95)),
           Uint128(Long(0x127b85e7e215719b), Long(0x1acdd9b729b1b291)))) ==
      Uint128(Long(0xd64f3e53598e64a5), Long(0x389f478510704e26))
  {
    hide Add64, Mul64, Long64, Fetch64, Fetch32, HashLen16Mul, WeakHash;
    MixIs(0x23c75ea5b142ac88, 0x87470cd259c0d36f, 0x9ddfea08eb382d69, 0xa4805277e8827fe7, 0xc601b43a558a10bf,
      0xc601b43a558b9cbc, 0x4146b8e80c4b4fd3, 0xd3acd0ae6f13d48b, 0xd3acd0ae6f1273d2, 0xfd0e0ffce8dd6b22,
      0x9ddfea08eb382d69);
    AddIs(0xca19b0287996256a, 0x2b0b627ebdfe6713, 0xf52512a737948c7d);
    MixIs(0xf52512a737948c7d, 0x127b85e7e215719b, 0x9ddfea08eb382d69, 0xe75e9740d581fde6, 0xd80da2d118429156,
      0xd80da2d11843214d, 0xca762736fa5650d6, 0x3c2ee153fa6cc5c6, 0x3c2ee153fa6cbd9b, 0xbfd1632596d60393,
      0x9ddfea08eb382d69);
    AddIs(0xfd0e0ffce8dd6b22, 0x30eca5f1a15d1f95, 0x2dfab5ee8a3a8ab7);
    MixIs(0x2dfab5ee8a3a8ab7, 0x1acdd9b729b1b291, 0x9ddfea08eb382d69, 0x37376c59a38b3826, 0xf54a42b2b748b596,
      0xf54a42b2b7495f02, 0xef879b059ef8ed93, 0xc204a561df04484b, 0xc204a561df05cc42, 0x167ddb2dc2b86112,
      0x9ddfea08eb382d69);
    AddIs(0x167ddb2dc2b86112, 0xbfd1632596d60393, 0xd64f3e53598e64a5);
    AddIs(0xfd0e0ffce8dd6b22, 0x1acdd9b729b1b291, 0x17dbe9b4128f1db3);
    AddIs(0xbfd1632596d60393, 0x30eca5f1a15d1f95, 0xf0be091738332328);
    MixIs(0x17dbe9b4128f1db3, 0xf0be091738332328, 0x9ddfea08eb382d69, 0xe765e0a32abc3e9b, 0xbc529aed991eec93,
      0xbc529aed991f9436, 0x4cec93faa12cb71e, 0x65bc32f19017614e, 0x65bc32f19017aa36, 0x389f478510704e26,
      0x9ddfea08eb382d69);
  }

  lemma LongKey()
    ensures CityHash128WithSeed(COUNTING, 130, SEED) == Uint128(Long(0xd64f3e53598e64a5), Long(0x389f478510704e26))
  {
    hide Start128, Round, BeforeTail, TailRound, Finish128;
    LongStart();
    LongRound1();
    LongRound2();
    LongBeforeTail();
    LongTail();
    LongFinish();
    var st := Start128(COUNTING, 130, SEED);
    var mid := Round(st, COUNTING);
    assert Rounds(st, COUNTING, 2) == Rounds(mid, COUNTING[64..], 1);
    assert Rounds(mid, COUNTING[64..], 1) == Rounds(Round(mid, COUNTING[64..]), COUNTING[64..][64..], 0);
    var tail := BeforeTail(Rounds(st, COUNTING, 2));
    assert COUNTING[..130] == COUNTING;
    assert TailRounds(tail, COUNTING, 1) == TailRound(TailRounds(tail, COUNTING, 0), COUNTING[98..]);
  }
}
