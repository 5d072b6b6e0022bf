/** What the rounds of the 64- and 128-bit CityHash keep of their state: a 64-byte round forgets exactly one of its
    seven words, and a round of CityMurmur forgets nothing. */
module City128Laws {
  import opened Words
  import opened City128
  import Arithmetic

  // ---------- words of 64 bits ----------

  /** The inverse of K1 modulo 2^64. */
  const K1_INVERSE := Long(0x1ec3fe17279602bb)

  function Nat64(a: Long): nat { a.bits as nat }

  lemma LongOfValue(a: Long)
    ensures Nat64(a) < TWO64 && Long64(Nat64(a)) == a
  {
    assert (a.bits as nat) as bv64 == a.bits;
  }

  lemma ValueOfLong(n: nat)
    requires n < TWO64
    ensures Nat64(Long64(n)) == n
  {
    ValueModulo64(n);
    Arithmetic.Small(n, TWO64);
  }

  lemma ValueModulo64(n: nat)
    requires n < 0x1_0000_0000_0000_0000
    ensures (n as bv64) as nat == n % 0x1_0000_0000_0000_0000
  {
  }

  lemma MulCancels64(x: Long, c: Long, d: Long)
    requires Nat64(c) * Nat64(d) % TWO64 == 1
    ensures Mul64(Mul64(x, c), d) == x
  {
    LongOfValue(x);
    ValueOfLong(Nat64(x) * Nat64(c) % TWO64);
    MulOfValues(x, c);
    MulOfValues(Mul64(x, c), d);
    hide Nat64, Long64, Mul64;
    InverseModulo(Nat64(x), Nat64(c), Nat64(d), TWO64);
  }

  lemma MulOfValues(x: Long, y: Long)
    ensures Mul64(x, y) == Long64(Nat64(x) * Nat64(y) % TWO64)
  {
  }

  lemma AddOfValues(x: Long, y: Long)
    ensures Add64(x, y) == Long64((Nat64(x) + Nat64(y)) % TWO64)
  {
  }

  lemma ByK1(x: Long)
    ensures Mul64(Mul64(x, K1), K1_INVERSE) == x
  {
    assert Nat64(K1) * Nat64(K1_INVERSE) % TWO64 == 1 by {
      assert Nat64(K1) == 0xb492b66fbe98f273 && Nat64(K1_INVERSE) == 0x1ec3fe17279602bb;
    }
    hide Mul64, Nat64;
    MulCancels64(x, K1, K1_INVERSE);
  }

  function Sub64(x: Long, y: Long): Long {
    LongOfValue(y);
    Long64((Nat64(x) + (TWO64 - Nat64(y))) % TWO64)
  }

  lemma SubCancels64(x: Long, y: Long)
    ensures Sub64(Add64(x, y), y) == x && Add64(Sub64(x, y), y) == x && Add64(x, y) == Add64(y, x)
  {
    hide Add64, Nat64, Long64;
    AddOfValues(x, y);
    AddOfValues(y, x);
    AddOfValues(Sub64(x, y), y);
    LongOfValue(x);
    LongOfValue(y);
    ValueOfLong((Nat64(x) + Nat64(y)) % TWO64);
    ValueOfLong((Nat64(x) + (TWO64 - Nat64(y))) % TWO64);
    SumsCancelModulo(Nat64(x), Nat64(y), TWO64);
  }

  lemma Rotate37(x: Long) ensures Rotate64(Rotate64(x, 37), 27) == x {}
  lemma Rotate42(x: Long) ensures Rotate64(Rotate64(x, 42), 22) == x {}
  lemma Rotate33(x: Long) ensures Rotate64(Rotate64(x, 33), 31) == x {}
  lemma Rotate21(x: Long) ensures Rotate64(Rotate64(x, 21), 43) == x {}

  lemma XorCancels64(x: Long, y: Long)
    ensures Xor64(Xor64(x, y), y) == x && Xor64(x, y) == Xor64(y, x)
  {
  }

  lemma ShiftedHigh64(x: Long)
    ensures Shr64(Xor64(x, Shr64(x, 47)), 47) == Shr64(x, 47)
  {
  }

  lemma ShiftMixTwice(x: Long)
    ensures ShiftMix(ShiftMix(x)) == x
  {
    hide Xor64, Shr64;
    ShiftedHigh64(x);
    XorCancels64(x, Shr64(x, 47));
  }

  /** Every operation of the rounds can be solved for its operand. */
  lemma Solved64(x: Long, y: Long, z: Long)
    ensures Add64(x, y) == Add64(x, z) <==> y == z
    ensures Add64(y, x) == Add64(z, x) <==> y == z
    ensures Xor64(x, y) == Xor64(x, z) <==> y == z
    ensures Xor64(y, x) == Xor64(z, x) <==> y == z
  {
    hide Add64, Sub64, Xor64;
    SubCancels64(x, y);
    SubCancels64(x, z);
    SubCancels64(y, x);
    SubCancels64(z, x);
    XorCancels64(x, y);
    XorCancels64(x, z);
    XorCancels64(y, x);
    XorCancels64(z, x);
  }

  lemma Injections64(x: Long, y: Long)
    ensures Mul64(x, K1) == Mul64(y, K1) <==> x == y
    ensures Rotate64(x, 37) == Rotate64(y, 37) <==> x == y
    ensures Rotate64(x, 42) == Rotate64(y, 42) <==> x == y
    ensures Rotate64(x, 33) == Rotate64(y, 33) <==> x == y
    ensures Rotate64(x, 21) == Rotate64(y, 21) <==> x == y
    ensures ShiftMix(x) == ShiftMix(y) <==> x == y
  {
    hide Mul64, Rotate64, ShiftMix;
    ByK1(x);
    ByK1(y);
    Rotate37(x);
    Rotate37(y);
    Rotate42(x);
    Rotate42(y);
    Rotate33(x);
    Rotate33(y);
    Rotate21(x);
    Rotate21(y);
    ShiftMixTwice(x);
    ShiftMixTwice(y);
  }

  // ---------- the 64-byte round ----------

  /** For given words the weak hash is a bijection of its seeds: it tells them. */
  lemma WeakHashTells(w: Long, x: Long, y: Long, z: Long, a: Long, b: Long, a': Long, b': Long)
    ensures WeakHash(w, x, y, z, a, b) == WeakHash(w, x, y, z, a', b') <==> a == a' && b == b'
  {
    if WeakHash(w, x, y, z, a, b) == WeakHash(w, x, y, z, a', b') {
      hide Add64, Rotate64;
      var a1, a1' := Add64(a, w), Add64(a', w);
      var a2, a2' := Add64(Add64(a1, x), y), Add64(Add64(a1', x), y);
      Solved64(z, a2, a2');
      Solved64(y, Add64(a1, x), Add64(a1', x));
      Solved64(x, a1, a1');
      Solved64(w, a, a');
      var b1, b1' := Add64(Add64(b, a1), z), Add64(Add64(b', a1), z);
      Solved64(a1, Add64(Rotate64(b1, 21), Rotate64(a2, 44)), Add64(Rotate64(b1', 21), Rotate64(a2, 44)));
      Solved64(Rotate64(a2, 44), Rotate64(b1, 21), Rotate64(b1', 21));
      Injections64(b1, b1');
      Solved64(z, Add64(b, a1), Add64(b', a1));
      Solved64(a1, b, b');
    }
  }

  /** What a round makes of x and of y, before they change places. */
  function NextX(st: State, s: Bytes): Long
    requires |s| >= 64
  {
    Xor64(Mul64(Rotate64(Add64(Add64(Add64(st.x, st.y), st.v.lower), Fetch64(s[8..])), 37), K1), st.w.higher)
  }

  function NextY(st: State, s: Bytes): Long
    requires |s| >= 64
  {
    Add64(Mul64(Rotate64(Add64(Add64(st.y, st.v.higher), Fetch64(s[48..])), 42), K1),
          Add64(st.v.lower, Fetch64(s[40..])))
  }

  /** Two states have the same state after a round if and only if they agree in z, in w and in the second half of v, and
      what the round makes of x and of y is equal: these are six words for seven. */
  lemma RoundTells(st: State, st': State, s: Bytes)
    requires |s| >= 64
    ensures Round(st, s) == Round(st', s)
       <==> st.z == st'.z && st.w == st'.w && st.v.higher == st'.v.higher
            && NextX(st, s) == NextX(st', s) && NextY(st, s) == NextY(st', s)
  {
    hide Add64, Mul64, Xor64, Rotate64, Fetch64, WeakHash, NextX, NextY;
    RoundIs(st, s);
    RoundIs(st', s);
    var x, y, z := NextX(st, s), NextY(st, s), Mul64(Rotate64(Add64(st.z, st.w.lower), 33), K1);
    var x', y', z' := NextX(st', s), NextY(st', s), Mul64(Rotate64(Add64(st'.z, st'.w.lower), 33), K1);
    if Round(st, s) == Round(st', s) {
      WeakHashTells(Fetch64(s), Fetch64(s[8..]), Fetch64(s[16..]), Fetch64(s[24..]),
                    Mul64(st.v.higher, K1), Add64(x, st.w.lower), Mul64(st'.v.higher, K1), Add64(x', st'.w.lower));
      assert s[32..][8..] == s[40..] && s[32..][16..] == s[48..] && s[32..][24..] == s[56..];
      WeakHashTells(Fetch64(s[32..]), Fetch64(s[40..]), Fetch64(s[48..]), Fetch64(s[56..]),
                    Add64(z, st.w.higher), Add64(y, Fetch64(s[16..])),
                    Add64(z', st'.w.higher), Add64(y', Fetch64(s[16..])));
      Injections64(st.v.higher, st'.v.higher);
      Solved64(x, st.w.lower, st'.w.lower);
      Solved64(z, st.w.higher, st'.w.higher);
      Injections64(Rotate64(Add64(st.z, st.w.lower), 33), Rotate64(Add64(st'.z, st.w.lower), 33));
      Injections64(Add64(st.z, st.w.lower), Add64(st'.z, st.w.lower));
      Solved64(st.w.lower, st.z, st'.z);
    }
  }

  lemma RoundIs(st: State, s: Bytes)
    requires |s| >= 64
    ensures var x, y, z := NextX(st, s), NextY(st, s), Mul64(Rotate64(Add64(st.z, st.w.lower), 33), K1);
            Round(st, s) == State(z, y, x,
                                  WeakHash32(s, Mul64(st.v.higher, K1), Add64(x, st.w.lower)),
                                  WeakHash32(s[32..], Add64(z, st.w.higher), Add64(y, Fetch64(s[16..]))))
  {
    hide Add64, Mul64, Xor64, Rotate64, Fetch64, WeakHash32;
  }

  /** The state with another y that a round does not tell from st. */
  function Elsewhere(st: State, s: Bytes, y: Long): State
    requires |s| >= 64
  {
    var turned := Mul64(Rotate64(Add64(Add64(y, st.v.higher), Fetch64(s[48..])), 42), K1);
    var lower := Sub64(Sub64(NextY(st, s), turned), Fetch64(s[40..]));
    State(Sub64(Sub64(Add64(Add64(st.x, st.y), st.v.lower), lower), y), y, st.z, Uint128(lower, st.v.higher), st.w)
  }

  /** A round forgets exactly one word: for each value of y there is exactly one state with the same successor. */
  lemma RoundForgetsExactly(st: State, st': State, s: Bytes)
    requires |s| >= 64
    ensures Round(st, s) == Round(st', s) <==> st' == Elsewhere(st, s, st'.y)
  {
    hide Add64, Sub64, Mul64, Xor64, Rotate64, Fetch64, Round;
    RoundTells(st, st', s);
    var f8, f40, sum, sum' :=
      Fetch64(s[8..]), Fetch64(s[40..]), Add64(Add64(st.x, st.y), st.v.lower), Add64(Add64(st'.x, st'.y), st'.v.lower);
    var u, u' := Rotate64(Add64(sum, f8), 37), Rotate64(Add64(sum', f8), 37);
    Solved64(st.w.higher, Mul64(u, K1), Mul64(u', K1));
    Injections64(u, u');
    Injections64(Add64(sum, f8), Add64(sum', f8));
    Solved64(f8, sum, sum');
    // x' from the sum, v'.lower from what is made of y
    var lower := st'.v.lower;
    SubCancels64(Add64(st'.x, st'.y), lower);
    SubCancels64(sum, lower);
    SubCancels64(st'.x, st'.y);
    SubCancels64(Sub64(sum, lower), st'.y);
    var turned := Mul64(Rotate64(Add64(Add64(st'.y, st.v.higher), Fetch64(s[48..])), 42), K1);
    SubCancels64(turned, Add64(lower, f40));
    SubCancels64(Add64(lower, f40), turned);
    SubCancels64(lower, f40);
    SubCancels64(NextY(st, s), turned);
    SubCancels64(Sub64(NextY(st, s), turned), f40);
  }

  // ---------- the round of CityMurmur ----------

  /** A round of CityMurmur forgets nothing of its state, whatever the bytes. */
  lemma MurmurRoundTells(st: MurmurState, st': MurmurState, s: Bytes)
    requires |s| >= 16
    ensures MurmurRound(st, s) == MurmurRound(st', s) <==> st == st'
  {
    hide Add64, Mul64, Xor64, Fetch64, ShiftMix;
    if MurmurRound(st, s) == MurmurRound(st', s) {
      var p, q := Mul64(ShiftMix(Mul64(Fetch64(s), K1)), K1), Mul64(ShiftMix(Mul64(Fetch64(s[8..]), K1)), K1);
      Injections64(Xor64(st.a, p), Xor64(st'.a, p));
      Solved64(p, st.a, st'.a);
      Injections64(Xor64(st.c, q), Xor64(st'.c, q));
      Solved64(q, st.c, st'.c);
      Solved64(Mul64(Xor64(st.a, p), K1), st.b, st'.b);
      Solved64(Mul64(Xor64(st.c, q), K1), st.d, st'.d);
    }
  }

  /** So different seeds stay different through any number of rounds over the same bytes. */
  lemma {:induction false} MurmurRoundsTell(st: MurmurState, st': MurmurState, s: Bytes, n: nat)
    requires |s| >= 16 * n
    ensures MurmurRounds(st, s, n) == MurmurRounds(st', s, n) <==> st == st'
    decreases n
  {
    hide MurmurRound;
    if n > 0 {
      MurmurRoundsTell(MurmurRound(st, s), MurmurRound(st', s), s[16..], n - 1);
      MurmurRoundTells(st, st', s);
    }
  }
}
