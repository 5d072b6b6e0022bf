/** The hashes of some users, and of one long key, computed step by step: the constants, the rotations and the order of
    the loads show in each of them. */
module City32Values {
  import opened Words
  import opened City32
  import Arithmetic

  lemma ProductIs(x: bv32, y: bv32, m: bv32, c: nat)
    requires Nat32(y) == c && Nat32(x) * c % 0x1_0000_0000 == Nat32(m)
    ensures Mul32(x, y) == m
  {
    WordOfValue(m);
  }

  lemma SumIs(x: bv32, y: bv32, m: bv32)
    requires (Nat32(x) + Nat32(y)) % 0x1_0000_0000 == Nat32(m)
    ensures Add32(x, y) == m
  {
    WordOfValue(m);
  }

  lemma WordIs(n: nat, x: bv32)
    requires Nat32(x) == n
    ensures n < TWO32 && Word32(n) == x
  {
    WordOfValue(x);
  }

  lemma LoadIs(s: Bytes, o: nat, x: bv32)
    requires o + 4 <= |s| && LittleEndian32(s[o], s[o + 1], s[o + 2], s[o + 3]) == x
    ensures Fetch32(s[o..]) == x
  {
  }

  /** Mur(a, h), with everything that comes up on the way. */
  lemma MurIs(a: bv32, h: bv32, p: bv32, p': bv32, q: bv32, x: bv32, x': bv32, r: bv32, z: bv32)
    requires Nat32(a) * 0xcc9e2d51 % 0x1_0000_0000 == Nat32(p) && Rotate32(p, 17) == p'
    requires Nat32(p') * 0x1b873593 % 0x1_0000_0000 == Nat32(q) && Xor32(h, q) == x && Rotate32(x, 19) == x'
    requires Nat32(x') * 5 % 0x1_0000_0000 == Nat32(r) && (Nat32(r) + 0xe6546b64) % 0x1_0000_0000 == Nat32(z)
    ensures Mur(a, h) == z
  {
    hide Add32, Mul32, Xor32, Rotate32;
    ProductIs(a, C1, p, 0xcc9e2d51);
    ProductIs(p', C2, q, 0x1b873593);
    ProductIs(x', 5, r, 5);
    SumIs(r, MIX, z);
  }

  lemma FmixIs(h: bv32, u: bv32, p: bv32, v: bv32, q: bv32, z: bv32)
    requires XorShift(h, 16) == u && Nat32(u) * 0x85ebca6b % 0x1_0000_0000 == Nat32(p)
    requires XorShift(p, 13) == v && Nat32(v) * 0xc2b2ae35 % 0x1_0000_0000 == Nat32(q)
    requires XorShift(q, 16) == z
    ensures Fmix(h) == z
  {
    hide Mul32, XorShift;
    ProductIs(u, FMIX1, p, 0x85ebca6b);
    ProductIs(v, FMIX2, q, 0xc2b2ae35);
  }

  // ---------- one byte: the users from 0 to 9 ----------

  /** b is the byte as a word, c the other accumulator. */
  lemma ByteIs(v: bv8, b: bv32, c: bv32)
    requires SignExtend(v) == b && Xor32(9, b) == c
    ensures CityHash32([v], 1) == Fmix(Mur(b, Mur(1, c)))
  {
    hide Add32, Mul32, Xor32, Word32, Mur, Fmix, SignExtend, AbsorbBytes;
    FromZero(b);
    WordIs(1, 1);
    AbsorbLast(Accumulator(0, 9), [], v);
    assert [v][..1] == [] + [v];
  }

  lemma FromZero(b: bv32)
    ensures Add32(Mul32(0, C1), b) == b
  {
    ZeroTimes();
    hide Add32, Mul32, Word32, Nat32;
    WordOfValue(b);
    Arithmetic.Small(Nat32(b), TWO32);
    SumIs(0, b, b);
  }

  lemma ZeroTimes()
    ensures Nat32(0) == 0 && Mul32(0, C1) == 0
  {
    hide Mul32;
    ProductIs(0, C1, 0, 0xcc9e2d51);
  }

  lemma AbsorbLast(acc: Accumulator, s: Bytes, v: bv8)
    ensures AbsorbBytes(acc, s + [v]) == AbsorbByte(AbsorbBytes(acc, s), v)
    ensures AbsorbBytes(acc, []) == acc
  {
    assert (s + [v])[..|s|] == s;
  }

  lemma UsersBelow5()
    ensures CityHash32([48], 1) == 0xd63c2322
    ensures CityHash32([49], 1) == 0x981cdbad
    ensures CityHash32([50], 1) == 0xeb39156b
    ensures CityHash32([51], 1) == 0x64119ccd
    ensures CityHash32([52], 1) == 0x33c8c2ed
  {
    hide CityHash32, Mul32, Add32, Word32, Mur, Fmix;
    ByteIs(48, 48, 57);
    MurIs(0x00000001, 0x00000039, 0xcc9e2d51, 0x16a8e64f, 0xc3539a5d, 0xc3539a64, 0x734c986a, 0x407efa12, 0x26d36576);
    MurIs(0x00000030, 0x26d36576, 0x5da87f30, 0x3f982ed4, 0x13e0c7bc, 0x3533a2ca, 0x745946a6, 0x45be613e, 0x2c12cca2);
    FmixIs(0x2c12cca2, 0x2c12e0b0, 0x02bec990, 0x02bedc66, 0xd63cf51e, 0xd63c2322);
    ByteIs(49, 49, 56);
    MurIs(0x00000001, 0x00000038, 0xcc9e2d51, 0x16a8e64f, 0xc3539a5d, 0xc3539a65, 0x734cb86a, 0x407f9a12, 0x26d40576);
    MurIs(0x00000031, 0x26d40576, 0x2a46ac81, 0x56409523, 0x3c6ae219, 0x1abee76f, 0xdcede357, 0x50a570b3, 0x36f9dc17);
    FmixIs(0x36f9dc17, 0x36f9eaee, 0x7c4efd7a, 0x7c4d1f0d, 0x981c43b1, 0x981cdbad);
    ByteIs(50, 50, 59);
    MurIs(0x00000001, 0x0000003b, 0xcc9e2d51, 0x16a8e64f, 0xc3539a5d, 0xc3539a66, 0x734cd86a, 0x40803a12, 0x26d4a576);
    MurIs(0x00000032, 0x26d4a576, 0xf6e4d9d2, 0x6ce97b72, 0xffbe7c76, 0xd96ad900, 0x5b201b2d, 0xc7a087e1, 0xadf4f345);
    FmixIs(0xadf4f345, 0xadf45eb1, 0x69563dfb, 0x6955774a, 0xeb39fe52, 0xeb39156b);
    ByteIs(51, 51, 58);
    MurIs(0x00000001, 0x0000003a, 0xcc9e2d51, 0x16a8e64f, 0xc3539a5d, 0xc3539a67, 0x734cf86a, 0x4080da12, 0x26d54576);
    MurIs(0x00000033, 0x26d54576, 0xc3830723, 0x8391e1c1, 0x284896d3, 0x0e9dd3a5, 0xba74a1d3, 0xa447291f, 0x8a9b9483);
    FmixIs(0x8a9b9483, 0x8a9b1e18, 0x6c9c8408, 0x6c9fe0ec, 0x6411f8dc, 0x64119ccd);
    ByteIs(52, 52, 61);
    MurIs(0x00000001, 0x0000003d, 0xcc9e2d51, 0x16a8e64f, 0xc3539a5d, 0xc3539a60, 0x734c186a, 0x407c7a12, 0x26d0e576);
    MurIs(0x00000034, 0x26d0e576, 0x90213474, 0x9a3a4810, 0x50d2b130, 0x76025446, 0x4a88cec0, 0x74ac09c0, 0x5b007524);
    FmixIs(0x5b007524, 0x5b002e24, 0x3c87b10c, 0x3c865531, 0x33c8f125, 0x33c8c2ed);
  }

  lemma UsersBelow10()
    ensures CityHash32([53], 1) == 0x70c84947
    ensures CityHash32([54], 1) == 0x9640526b
    ensures CityHash32([55], 1) == 0xa4aab7b7
    ensures CityHash32([56], 1) == 0xbb48219f
    ensures CityHash32([57], 1) == 0xbdd6124e
  {
    hide CityHash32, Mul32, Add32, Word32, Mur, Fmix;
    ByteIs(53, 53, 60);
    MurIs(0x00000001, 0x0000003c, 0xcc9e2d51, 0x16a8e64f, 0xc3539a5d, 0xc3539a61, 0x734c386a, 0x407d1a12, 0x26d18576);
    MurIs(0x00000035, 0x26d18576, 0x5cbf61c5, 0xb0e2ae5f, 0x795ccb8d, 0x5f8d4efb, 0xa9df6bf1, 0x515d1bb5, 0x37b18719);
    FmixIs(0x37b18719, 0x37b1b0a8, 0xeee16638, 0xeee61133, 0x70c8398f, 0x70c84947);
    ByteIs(54, 54, 63);
    MurIs(0x00000001, 0x0000003f, 0xcc9e2d51, 0x16a8e64f, 0xc3539a5d, 0xc3539a62, 0x734c586a, 0x407dba12, 0x26d22576);
    MurIs(0x00000036, 0x26d22576, 0x295d8f16, 0xc78b14ae, 0xa1e6e5ea, 0x8734c09c, 0x981390e6, 0xf861d47e, 0xdeb63fe2);
    FmixIs(0xdeb63fe2, 0xdeb6e154, 0xe058761c, 0xe05f74df, 0x9640c42b, 0x9640526b);
    ByteIs(55, 55, 62);
    MurIs(0x00000001, 0x0000003e, 0xcc9e2d51, 0x16a8e64f, 0xc3539a5d, 0xc3539a63, 0x734c786a, 0x407e5a12, 0x26d2c576);
    MurIs(0x00000037, 0x26d2c576, 0xf5fbbc67, 0xde33fafd, 0x653a8047, 0x43e84531, 0x08a6287d, 0x2b3eca71, 0x119335d5);
    FmixIs(0x119335d5, 0x11932446, 0x1d616542, 0x1d618e49, 0xa4aa131d, 0xa4aab7b7);
    ByteIs(56, 56, 49);
    MurIs(0x00000001, 0x00000031, 0xcc9e2d51, 0x16a8e64f, 0xc3539a5d, 0xc3539a6c, 0x734d986a, 0x4083fa12, 0x26d86576);
    MurIs(0x00000038, 0x26d86576, 0xc299e9b8, 0xf4dc614c, 0x8dc49aa4, 0xab1cffd2, 0x9ffa5563, 0x1fe3aaef, 0x06381653);
    FmixIs(0x06381653, 0x0638106b, 0x7f9c4ab9, 0x7f9fb65b, 0xbb489ad7, 0xbb48219f);
    ByteIs(57, 57, 48);
    MurIs(0x00000001, 0x00000030, 0xcc9e2d51, 0x16a8e64f, 0xc3539a5d, 0xc3539a6d, 0x734db86a, 0x40849a12, 0x26d90576);
    MurIs(0x00000039, 0x26d90576, 0x8f381709, 0x0b84c79c, 0xd1d5ea94, 0xf70cefe2, 0x9dfc5ee1, 0x15edda65, 0xfc4245c9);
    FmixIs(0xfc4245c9, 0xfc42b98b, 0x9fe43b19, 0x9fe0c438, 0xbdd6af98, 0xbdd6124e);
  }

  /** The keys of the users from 0 to 9. */
  const DIGIT_KEYS: seq<Bytes> := [[48], [49], [50], [51], [52], [53], [54], [55], [56], [57]]

  lemma DigitsApart(d: nat, e: nat)
    requires d < e < 10
    ensures CityHash32(DIGIT_KEYS[d], 1) != CityHash32(DIGIT_KEYS[e], 1)
  {
    UsersBelow5();
    UsersBelow10();
    hide CityHash32;
  }

  /** A byte above 0x7f is sign-extended. */
  lemma HighByteIs()
    ensures CityHash32([200], 1) == 0xcf23c5af
  {
    hide CityHash32, Mul32, Add32, Word32, Mur, Fmix;
    ByteIs(200, 0xffffffc8, 0xffffffc1);
    MurIs(0x00000001, 0xffffffc1, 0xcc9e2d51, 0x16a8e64f, 0xc3539a5d, 0x3cac659c, 0x8cb38795, 0xbf81a5e9, 0xa5d6114d);
    MurIs(0xffffffc8, 0xa5d6114d, 0x3d661648, 0x0b241eb3, 0xf17dafc9, 0x54abbe84, 0x77d08a95, 0x5712b4e9, 0x3d67204d);
    FmixIs(0x3d67204d, 0x3d671d2a, 0x9eaa548e, 0x9eaea1dc, 0xcf230a8c, 0xcf23c5af);
  }

  // ---------- longer keys ----------

  lemma User1234()
    ensures CityHash32([49, 50, 51, 52], 4) == 0x5b12adf2
  {
    hide CityHash32, Mul32, Add32, Word32, Mur, Fmix, AbsorbByte, AbsorbBytes;
    var start := Accumulator(0, 9);
    AbsorbLast(start, [], 49);
    ByteAbsorbed(0x00000000, 0x00000009, 49, 0x00000000, 0x00000031, 0x00000038);
    ByteAbsorbed(0x00000031, 0x00000038, 50, 0x2a46ac81, 0x2a46acb3, 0x2a46ac8b);
    ByteAbsorbed(0x2a46acb3, 0x2a46ac8b, 51, 0x07321ba3, 0x07321bd6, 0x2d74b75d);
    ByteAbsorbed(0x07321bd6, 0x2d74b75d, 52, 0xcbd36cb6, 0xcbd36cea, 0xe6a7dbb7);
    var s1: Bytes, s2: Bytes, s3: Bytes, s4: Bytes := [49], [49, 50], [49, 50, 51], [49, 50, 51, 52];
    assert [] + s1 == s1 && s1 + [50] == s2 && s2 + [51] == s3 && s3 + [52] == s4;
    AbsorbLast(start, s1, 50);
    AbsorbLast(start, s2, 51);
    AbsorbLast(start, s3, 52);
    WordIs(4, 4);
    MurIs(0x00000004, 0xe6a7dbb7, 0x3278b544, 0x5aa2193c, 0x3cf1e974, 0xda5632c3, 0xc6587b4a, 0xdfba6872, 0xc60ed3d6);
    MurIs(0xcbd36cea, 0xc60ed3d6, 0x5876980a, 0x4c052c3b, 0x453d9ce1, 0x83334f37, 0x69e6f066, 0x1182b1fe, 0xf7d71d62);
    FmixIs(0xf7d71d62, 0xf7d7eab5, 0x7398eba7, 0x739b7760, 0x5b12f6e0, 0x5b12adf2);
    Hash0to4Is(s4, 4, 0xcbd36cea, 0xe6a7dbb7);
  }

  lemma Hash0to4Is(s: Bytes, n: nat, b: bv32, c: bv32)
    requires n <= 4 && n == |s| && AbsorbBytes(Accumulator(0, 9), s) == Accumulator(b, c)
    ensures CityHash32(s, n) == Fmix(Mur(b, Mur(Word32(n), c)))
  {
    hide Word32, Mur, Fmix, AbsorbBytes;
    assert s[..n] == s;
  }

  lemma ByteAbsorbed(b: bv32, c: bv32, v: bv8, p: bv32, b': bv32, c': bv32)
    requires Nat32(b) * 0xcc9e2d51 % 0x1_0000_0000 == Nat32(p)
    requires (Nat32(p) + Nat32(SignExtend(v))) % 0x1_0000_0000 == Nat32(b') && Xor32(c, b') == c'
    ensures AbsorbByte(Accumulator(b, c), v) == Accumulator(b', c')
  {
    ProductIs(b, C1, p, 0xcc9e2d51);
    SumIs(p, SignExtend(v), b');
    hide Add32, Mul32, Xor32, SignExtend;
  }

  lemma Hash5to12Is(s: Bytes, n: nat, o: nat, d: bv32, a: bv32, b: bv32, c: bv32)
    requires 5 <= n <= 12 && n == |s| && o == n / 2 / 4 * 4
    requires Mul32(Word32(n), 5) == d && Add32(Word32(n), Fetch32(s[0..])) == a
    requires Add32(d, Fetch32(s[n - 4..])) == b && Add32(9, Fetch32(s[o..])) == c
    ensures CityHash32(s, n) == Fmix(Mur(c, Mur(b, Mur(a, d))))
  {
    hide Add32, Mul32, Word32, Fmix, Mur, Fetch32;
    assert s[0..] == s;
  }

  lemma Hash13to24Is(s: Bytes, n: nat, l: seq<bv32>)
    requires 13 <= n <= 24 && n == |s|
    requires l == [Fetch32(s[n / 2 - 4..]), Fetch32(s[4..]), Fetch32(s[n - 8..]), Fetch32(s[n / 2..]), Fetch32(s[0..]),
                   Fetch32(s[n - 4..])]
    ensures CityHash32(s, n) == Fmix(Mur(l[5], Mur(l[4], Mur(l[3], Mur(l[2], Mur(l[1], Mur(l[0], Word32(n))))))))
  {
    hide Word32, Fmix, Mur, Fetch32;
    assert s[0..] == s;
  }

  lemma User12345()
    ensures CityHash32([49, 50, 51, 52, 53], 5) == 0xaf9cc651
  {
    hide CityHash32, Mul32, Add32, Word32, Mur, Fmix, Fetch32;
    var s: Bytes := [49, 50, 51, 52, 53];
    WordIs(5, 5);
    LoadIs(s, 0, 0x34333231);
    LoadIs(s, 1, 0x35343332);
    ProductIs(5, 5, 25, 5);
    SumIs(5, 0x34333231, 0x34333236);
    SumIs(25, 0x35343332, 0x3534334b);
    SumIs(9, 0x34333231, 0x3433323a);
    MurIs(0x34333236, 0x00000019, 0x895a6116, 0x308b44ad, 0x2b6b4057, 0x2b6b404e, 0x6809c56d, 0x0830db21, 0xee854685);
    MurIs(0x3534334b, 0xee854685, 0x6ed269bb, 0x34ddb769, 0x0da80e4b, 0xe32d48ce, 0xa919dc65, 0x4d814df9, 0x33d5b95d);
    MurIs(0x3433323a, 0x33d5b95d, 0xbbd3165a, 0x8b2d5de9, 0x685d29cb, 0x5b889096, 0x1212cb71, 0x5a5df935, 0x40b26499);
    FmixIs(0x40b26499, 0x40b2242b, 0x25780bf9, 0x25792039, 0xaf9c69cd, 0xaf9cc651);
    Hash5to12Is(s, 5, 0, 25, 0x34333236, 0x3534334b, 0x3433323a);
  }

  lemma User12346()
    ensures CityHash32([49, 50, 51, 52, 54], 5) == 0x1d65eb34
  {
    hide CityHash32, Mul32, Add32, Word32, Mur, Fmix, Fetch32;
    var s: Bytes := [49, 50, 51, 52, 54];
    WordIs(5, 5);
    LoadIs(s, 0, 0x34333231);
    LoadIs(s, 1, 0x36343332);
    ProductIs(5, 5, 25, 5);
    SumIs(5, 0x34333231, 0x34333236);
    SumIs(25, 0x36343332, 0x3634334b);
    SumIs(9, 0x34333231, 0x3433323a);
    MurIs(0x34333236, 0x00000019, 0x895a6116, 0x308b44ad, 0x2b6b4057, 0x2b6b404e, 0x6809c56d, 0x0830db21, 0xee854685);
    MurIs(0x3634334b, 0xee854685, 0xbfd269bb, 0x34dddfe9, 0xf1a1cfcb, 0x1f24894e, 0x9129c3e4, 0xd5d0d374, 0xbc253ed8);
    MurIs(0x3433323a, 0xbc253ed8, 0xbbd3165a, 0x8b2d5de9, 0x685d29cb, 0xd4781713, 0x02e27a8f, 0x0e6c64cb, 0xf4c0d02f);
    FmixIs(0xf4c0d02f, 0xf4c024ef, 0xfbd905e5, 0xfbdedb2d, 0x1d65f651, 0x1d65eb34);
    Hash5to12Is(s, 5, 0, 25, 0x34333236, 0x3634334b, 0x3433323a);
  }

  lemma User123456789()
    ensures CityHash32([49, 50, 51, 52, 53, 54, 55, 56, 57], 9) == 0xf88eca50
  {
    hide CityHash32, Mul32, Add32, Word32, Mur, Fmix, Fetch32;
    var s: Bytes := [49, 50, 51, 52, 53, 54, 55, 56, 57];
    WordIs(9, 9);
    LoadIs(s, 0, 0x34333231);
    LoadIs(s, 4, 0x38373635);
    LoadIs(s, 5, 0x39383736);
    ProductIs(9, 5, 45, 5);
    SumIs(9, 0x34333231, 0x3433323a);
    SumIs(45, 0x39383736, 0x39383763);
    SumIs(9, 0x38373635, 0x3837363e);
    MurIs(0x3433323a, 0x0000002d, 0xbbd3165a, 0x8b2d5de9, 0x685d29cb, 0x685d29e6, 0xa53ccd0b, 0x3a300137, 0x20846c9b);
    MurIs(0x39383763, 0x20846c9b, 0x0f9fed53, 0xf6a987cf, 0x2f9fd6dd, 0x0f1bba46, 0x7748c1e3, 0x546bc96f, 0x3ac034d3);
    MurIs(0x3837363e, 0x3ac034d3, 0x60450f9e, 0x87cf3022, 0xd8ddad86, 0xe21d9955, 0xb32abc43, 0x7fd5ad4f, 0x662a18b3);
    FmixIs(0x662a18b3, 0x662a7e99, 0xef1aa3f3, 0xef1ddb26, 0xf88e32de, 0xf88eca50);
    Hash5to12Is(s, 9, 4, 45, 0x3433323a, 0x39383763, 0x3837363e);
  }

  lemma User1234567890123()
    ensures CityHash32([49, 50, 51, 52, 53, 54, 55, 56, 57, 48, 49, 50, 51], 13) == 0x11bc2118
  {
    hide CityHash32, Mul32, Add32, Word32, Mur, Fmix, Fetch32;
    var s: Bytes := [49, 50, 51, 52, 53, 54, 55, 56, 57, 48, 49, 50, 51];
    WordIs(13, 13);
    LoadIs(s, 0, 0x34333231);
    LoadIs(s, 2, 0x36353433);
    LoadIs(s, 4, 0x38373635);
    LoadIs(s, 5, 0x39383736);
    LoadIs(s, 6, 0x30393837);
    LoadIs(s, 9, 0x33323130);
    MurIs(0x36353433, 0x0000000d, 0x5c7c7b23, 0x3d91ae3e, 0xf06be39a, 0xf06be397, 0x7c72fe0d, 0x6e3ef641, 0x549361a5);
    MurIs(0x38373635, 0x549361a5, 0x2eb577c5, 0xbbe2975a, 0x1ae88aae, 0x4e7beb0b, 0x7d6169cf, 0x72e7110b, 0x593b7c6f);
    MurIs(0x39383736, 0x593b7c6f, 0x17d1f616, 0xfb0b0be8, 0x3026de38, 0x691da257, 0xb44aed23, 0x8576a1af, 0x6bcb0d13);
    MurIs(0x30393837, 0x6bcb0d13, 0xd6ee7467, 0x3a33eb77, 0xe450d855, 0x8f9bd546, 0x7aa8d1f3, 0x654c19bf, 0x4ba08523);
    MurIs(0x34333231, 0x4ba08523, 0x8a437e81, 0xbf40c521, 0xaa6806f3, 0xe1c883d0, 0x107a1c39, 0x52628d1d, 0x38b6f881);
    MurIs(0x33323130, 0x38b6f881, 0xa1270030, 0x80185093, 0x9529b369, 0xad9f4be8, 0xe97d15b3, 0x8f716c7f, 0x75c5d7e3);
    FmixIs(0x75c5d7e3, 0x75c5a226, 0xc26ec1e2, 0xc268d294, 0x11bc30a4, 0x11bc2118);
    Hash13to24Is(s, 13, [0x36353433, 0x38373635, 0x39383736, 0x30393837, 0x34333231, 0x33323130]);
  }

  // ---------- more than 24 bytes ----------

  lemma ScrambleIs(a: bv32, p: bv32, p': bv32, z: bv32)
    requires Nat32(a) * 0xcc9e2d51 % 0x1_0000_0000 == Nat32(p) && Rotate32(p, 17) == p'
    requires Nat32(p') * 0x1b873593 % 0x1_0000_0000 == Nat32(z)
    ensures Scramble(a) == z
  {
    hide Mul32, Rotate32;
    ProductIs(a, C1, p, 0xcc9e2d51);
    ProductIs(p', C2, z, 0x1b873593);
  }

  lemma StirIs(x: bv32, shift: bv32, x': bv32, r: bv32, z: bv32)
    requires shift < 32 && Rotate32(x, shift) == x' && Nat32(x') * 5 % 0x1_0000_0000 == Nat32(r)
    requires (Nat32(r) + 0xe6546b64) % 0x1_0000_0000 == Nat32(z)
    ensures Stir(x, shift) == z
  {
    hide Add32, Mul32, Rotate32;
    ProductIs(x', 5, r, 5);
    SumIs(r, MIX, z);
  }

  /** The letters from a to y. */
  const LETTERS: Bytes := [
    97, 98, 99, 100, 101, 102, 103, 104, 105, 106, 107, 108, 109, 110, 111, 112, 113, 114, 115, 116, 117, 118, 119, 120,
    121]

  lemma EndOfLetters()
    ensures Scramble(Fetch32(LETTERS[21..])) == 0xd8e819e8 && Scramble(Fetch32(LETTERS[17..])) == 0x6867962d
    ensures Scramble(Fetch32(LETTERS[9..])) == 0xec9d0eb7 && Scramble(Fetch32(LETTERS[13..])) == 0x5d1d9272
    ensures Scramble(Fetch32(LETTERS[5..])) == 0x7c1c8afc
  {
    hide Mul32, Word32, Fetch32, Scramble;
    LoadIs(LETTERS, 21, 0x79787776);
    ScrambleIs(0x79787776, 0x5ef18a56, 0xc52b2f78, 0xd8e819e8);
    LoadIs(LETTERS, 17, 0x75747372);
    ScrambleIs(0x75747372, 0xba7f9112, 0xc8895d3f, 0x6867962d);
    LoadIs(LETTERS, 9, 0x6d6c6b6a);
    ScrambleIs(0x6d6c6b6a, 0x719b9e8a, 0xcf4538cd, 0xec9d0eb7);
    LoadIs(LETTERS, 13, 0x71706f6e);
    ScrambleIs(0x71706f6e, 0x160d97ce, 0xcbe70b06, 0x5d1d9272);
    LoadIs(LETTERS, 5, 0x69686766);
    ScrambleIs(0x69686766, 0xcd29a546, 0xd2a36694, 0x7c1c8afc);
  }

  lemma LettersPrologue()
    ensures Prologue(LETTERS, 25) == State(0x4143d619, 0xab9a8a2e, 0x07fdbbae)
  {
    hide Add32, Mul32, Word32, Fetch32, Scramble, Stir;
    EndOfLetters();
    WordIs(25, 25);
    ProductIs(C1, 25, 0xfb726ce9, 25);
    StirIs(0xd8e819f1, 19, 0x033e3b1d, 0x10372791, 0xf68b92f5);
    StirIs(0x1a169c42, 19, 0xd3884342, 0x21a9504a, 0x07fdbbae);
    StirIs(0x9315fac4, 19, 0xbf589262, 0xbcbadbea, 0xa30f474e);
    StirIs(0xfe12d53c, 19, 0x5aa79fc2, 0xc5461eca, 0xab9a8a2e);
    SumIs(0xfb726ce9, 0x7c1c8afc, 0x778ef7e5);
    StirIs(0x778ef7e5, 19, 0xdefcaef1, 0x5aef6ab5, 0x4143d619);
  }

  lemma LettersWords()
    ensures Scramble(Fetch32(LETTERS)) == 0x5b9433b7 && Fetch32(LETTERS[4..]) == 0x68676665
    ensures Scramble(Fetch32(LETTERS[8..])) == 0xd75ebb2d && Scramble(Fetch32(LETTERS[12..])) == 0x47df3ee8
    ensures Fetch32(LETTERS[16..]) == 0x74737271
  {
    hide Mul32, Word32, Fetch32, Scramble;
    assert LETTERS[0..] == LETTERS;
    LoadIs(LETTERS, 0, 0x64636261);
    ScrambleIs(0x64636261, 0x3f9b2db1, 0x96d89fcd, 0x5b9433b7);
    LoadIs(LETTERS, 4, 0x68676665);
    LoadIs(LETTERS, 8, 0x6c6b6a69);
    ScrambleIs(0x6c6b6a69, 0x887f2039, 0x901cc43f, 0xd75ebb2d);
    LoadIs(LETTERS, 12, 0x706f6e6d);
    ScrambleIs(0x706f6e6d, 0x2cf1197d, 0x8cbe9678, 0x47df3ee8);
    LoadIs(LETTERS, 16, 0x74737271);
  }

  lemma LettersBlock()
    ensures Block(State(0x4143d619, 0xab9a8a2e, 0x07fdbbae), LETTERS)
         == State(0x1ab3492d, 0xb7c3e0e1, 0x3b46fa7c)
  {
    hide Add32, Mul32, Word32, Fetch32, Scramble, Stir;
    LettersWords();
    SumIs(0xab9a8a2e, 0xd75ebb2d, 0x82f9455b);
    StirIs(0x82f9455b, 18, 0x5156e0be, 0x96b263b6, 0x7d06cf1a);
    ProductIs(0x6bbd7509, 5, 0x1ab3492d, 5);
    StirIs(0x5c698819, 18, 0x6206571a, 0xea1fb382, 0xd0741ee6);
    SumIs(0x47df3ee8, 0x68676665, 0xb046a54d);
    StirIs(0x6032bbab, 19, 0x57756c06, 0xb54b1c1e, 0x9b9f8782);
    ProductIs(0x74737271, 5, 0x46413c35, 5);
    SumIs(0x9b9f8782, 0x46413c35, 0xe1e0c3b7);
    SumIs(0x4143d619, 0x68676665, 0xa9ab3c7e);
    ProductIs(0x678fd535, C1, 0xdfb2c6c5, 0xcc9e2d51);
    SumIs(0xdfb2c6c5, 0x5b9433b7, 0x3b46fa7c);
  }

  lemma LettersEpilogue()
    ensures Epilogue(State(0x1ab3492d, 0xb7c3e0e1, 0x3b46fa7c)) == 0xd45cf15c
  {
    hide Add32, Mul32, Stir;
    ProductIs(0x1c36f87c, C1, 0xc39a6b3c, 0xcc9e2d51);
    ProductIs(0x359e61cd, C1, 0x86d3fadd, 0xcc9e2d51);
    ProductIs(0x25a35669, C1, 0x9faccc39, 0xcc9e2d51);
    ProductIs(0x661ccfd6, C1, 0x2dba60b6, 0xcc9e2d51);
    SumIs(0x3b46fa7c, 0x86d3fadd, 0xc21af559);
    StirIs(0xc21af559, 19, 0x5eab3843, 0xd958194f, 0xbfac84b3);
    ProductIs(0x4259dfd6, C1, 0x78dc70b6, 0xcc9e2d51);
    SumIs(0x78dc70b6, 0x2dba60b6, 0xa696d16c);
    StirIs(0xa696d16c, 19, 0xda2d94d2, 0x42e3e81a, 0x2938537e);
    ProductIs(0x29bf149c, C1, 0xd45cf15c, 0xcc9e2d51);
  }

  lemma Letters()
    ensures CityHash32(LETTERS, 25) == 0xd45cf15c
  {
    hide Prologue, Block, Epilogue;
    LettersPrologue();
    LettersBlock();
    LettersEpilogue();
    assert Blocks(Prologue(LETTERS, 25), LETTERS, 1) == Blocks(Block(Prologue(LETTERS, 25), LETTERS), LETTERS[20..], 0);
  }
}
