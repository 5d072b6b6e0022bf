/** What CityHash32 keeps of its key: bijections, injectivity, and which bytes it reads. */
module City32Laws {
  import Arithmetic
  import opened Words
  import opened City32

  // ---------- the mixing steps are permutations of the 32-bit words ----------

  // Inverses of the odd multipliers modulo 2^32.
  const C1_INVERSE: bv32 := 0xdee13bb1
  const C2_INVERSE: bv32 := 0x56ed309b
  const FIVE_INVERSE: bv32 := 0xcccccccd
  const FMIX1_INVERSE: bv32 := 0xa5cb9243
  const FMIX2_INVERSE: bv32 := 0x7ed1b41d

  lemma Multipliers(x: bv32)
    ensures Mul32(Mul32(x, C1), C1_INVERSE) == x && Mul32(Mul32(x, C1_INVERSE), C1) == x
    ensures Mul32(Mul32(x, C2), C2_INVERSE) == x && Mul32(Mul32(x, C2_INVERSE), C2) == x
    ensures Mul32(Mul32(x, 5), FIVE_INVERSE) == x && Mul32(Mul32(x, FIVE_INVERSE), 5) == x
    ensures Mul32(Mul32(x, FMIX1), FMIX1_INVERSE) == x && Mul32(Mul32(x, FMIX1_INVERSE), FMIX1) == x
    ensures Mul32(Mul32(x, FMIX2), FMIX2_INVERSE) == x && Mul32(Mul32(x, FMIX2_INVERSE), FMIX2) == x
  {
    hide Mul32;
    MulCancels(x, C1, C1_INVERSE);
    MulCancels(x, C1_INVERSE, C1);
    MulCancels(x, C2, C2_INVERSE);
    MulCancels(x, C2_INVERSE, C2);
    MulCancels(x, 5, FIVE_INVERSE);
    MulCancels(x, FIVE_INVERSE, 5);
    MulCancels(x, FMIX1, FMIX1_INVERSE);
    MulCancels(x, FMIX1_INVERSE, FMIX1);
    MulCancels(x, FMIX2, FMIX2_INVERSE);
    MulCancels(x, FMIX2_INVERSE, FMIX2);
  }

  lemma Shift16(x: bv32)
    ensures XorShift(XorShift(x, 16), 16) == x
  {
    ShiftedHigh(x);
    hide Xor32, Shr32;
    XorCancels(x, Shr32(x, 16));
  }

  lemma ShiftedHigh(x: bv32)
    ensures Shr32(Xor32(x, Shr32(x, 16)), 16) == Shr32(x, 16)
  {
  }

  /** x ^ x>>13 is undone in two doublings: x ^ x>>26 first, then x. */
  lemma Shift13(x: bv32)
    ensures XorShift(XorShift(XorShift(x, 13), 13), 26) == x
    ensures XorShift(XorShift(XorShift(x, 13), 26), 13) == x
    ensures XorShift(XorShift(XorShift(x, 26), 13), 13) == x
  {
    Shift13Twice(x);
    Shift13Twice(XorShift(x, 26));
    Shift13Commutes(x);
    Shift26(x);
  }

  lemma Shift13Twice(x: bv32)
    ensures XorShift(XorShift(x, 13), 13) == XorShift(x, 26)
  {
    var s := Shr32(x, 13);
    Shr13OfXor(x);
    hide Shr32, Xor32;
    XorSwap(x, s, Shr32(x, 26));
  }

  lemma Shr13OfXor(x: bv32)
    ensures Shr32(Xor32(x, Shr32(x, 13)), 13) == Xor32(Shr32(x, 13), Shr32(x, 26))
  {
  }

  lemma XorSwap(x: bv32, s: bv32, t: bv32)
    ensures Xor32(Xor32(x, s), Xor32(s, t)) == Xor32(x, t)
  {
  }

  lemma Shift26(x: bv32)
    ensures XorShift(XorShift(x, 26), 26) == x
  {
    Shr26OfXor(x);
    hide Shr32, Xor32;
    XorCancels(x, Shr32(x, 26));
  }

  lemma Shr26OfXor(x: bv32)
    ensures Shr32(Xor32(x, Shr32(x, 26)), 26) == Shr32(x, 26)
  {
  }

  lemma Shift13Commutes(x: bv32)
    ensures XorShift(XorShift(x, 13), 26) == XorShift(XorShift(x, 26), 13)
  {
    ShrBeyond(x);
    hide Shr32, Xor32;
    XorExchange(x, Shr32(x, 13), Shr32(x, 26));
  }

  lemma ShrBeyond(x: bv32)
    ensures Shr32(Xor32(x, Shr32(x, 13)), 26) == Shr32(x, 26)
    ensures Shr32(Xor32(x, Shr32(x, 26)), 13) == Shr32(x, 13)
  {
  }

  lemma XorExchange(x: bv32, s: bv32, t: bv32)
    ensures Xor32(Xor32(x, s), t) == Xor32(Xor32(x, t), s)
  {
    XorAssociative(x, s, t);
    XorAssociative(x, t, s);
    XorCancels(s, t);
    hide Xor32;
  }

  lemma XorAssociative(x: bv32, s: bv32, t: bv32)
    ensures Xor32(Xor32(x, s), t) == Xor32(x, Xor32(s, t))
  {
  }

  function FmixInverse(y: bv32): bv32 {
    var h := XorShift(y, 16);
    var h := Mul32(h, FMIX2_INVERSE);
    var h := XorShift(XorShift(h, 13), 26);
    var h := Mul32(h, FMIX1_INVERSE);
    XorShift(h, 16)
  }

  lemma FmixBijective(x: bv32)
    ensures FmixInverse(Fmix(x)) == x
    ensures Fmix(FmixInverse(x)) == x
  {
    hide Mul32, XorShift;
    var u := XorShift(x, 16);
    var v := Mul32(u, FMIX1);
    var w := Mul32(XorShift(v, 13), FMIX2);
    Shift16(x);
    Shift16(w);
    Shift13(v);
    Multipliers(u);
    Multipliers(XorShift(v, 13));
    var p := Mul32(u, FMIX2_INVERSE);
    var q := XorShift(XorShift(p, 13), 26);
    var r := Mul32(q, FMIX1_INVERSE);
    Shift16(r);
    Shift13(p);
    Multipliers(q);
  }

  /** Stir undone; back is 32 minus the shift. */
  function StirInverse(z: bv32, back: bv32): bv32
    requires back < 32
  {
    Rotate32(Mul32(Sub32(z, MIX), FIVE_INVERSE), back)
  }

  lemma StirBijective(h: bv32)
    ensures StirInverse(Stir(h, 19), 13) == h && Stir(StirInverse(h, 13), 19) == h
    ensures StirInverse(Stir(h, 18), 14) == h && Stir(StirInverse(h, 14), 18) == h
  {
    hide Add32, Sub32, Mul32, Rotate32;
    RotationsCancel(h);
    Multipliers(Rotate32(h, 18));
    Multipliers(Rotate32(h, 19));
    SubCancels(Mul32(Rotate32(h, 18), 5), MIX);
    SubCancels(Mul32(Rotate32(h, 19), 5), MIX);
    var u := Mul32(Sub32(h, MIX), FIVE_INVERSE);
    RotationsCancel(u);
    Multipliers(Sub32(h, MIX));
    SubCancels(h, MIX);
  }

  function ScrambleInverse(y: bv32): bv32 {
    Mul32(Rotate32(Mul32(y, C2_INVERSE), 15), C1_INVERSE)
  }

  lemma ScrambleBijective(x: bv32)
    ensures ScrambleInverse(Scramble(x)) == x
    ensures Scramble(ScrambleInverse(x)) == x
  {
    hide Mul32, Rotate32;
    Multipliers(x);
    RotationsCancel(Mul32(x, C1));
    Multipliers(Rotate32(Mul32(x, C1), 17));
    RotationsCancel(Mul32(x, C2_INVERSE));
    Multipliers(Rotate32(Mul32(x, C2_INVERSE), 15));
  }

  /** Mur solved for its state and for its word. */
  function MurState(a: bv32, z: bv32): bv32 {
    Xor32(StirInverse(z, 13), Scramble(a))
  }

  function MurWord(h: bv32, z: bv32): bv32 {
    ScrambleInverse(Xor32(StirInverse(z, 13), h))
  }

  lemma MurBijective(a: bv32, h: bv32, z: bv32)
    ensures Mur(a, h) == z <==> h == MurState(a, z)
    ensures Mur(a, h) == z <==> a == MurWord(h, z)
  {
    hide Xor32, Stir, StirInverse, Scramble, ScrambleInverse;
    var y := StirInverse(z, 13);
    StirBijective(Xor32(h, Scramble(a)));
    StirBijective(z);
    ScrambleBijective(a);
    ScrambleBijective(Xor32(y, h));
    XorCancels(h, Scramble(a));
    XorCancels(y, Scramble(a));
    XorCancels(y, h);
    XorCancels(Scramble(a), h);
  }

  // ---------- word by word: keys of 12 and of 24 bytes ----------

  /** mur applied to the words in turn, the first word innermost. */
  function MurChain(words: seq<bv32>, h: bv32): bv32 {
    if words == [] then h else MurChain(words[1..], Mur(words[0], h))
  }

  /** The state from which the chain reaches z. */
  function ChainState(words: seq<bv32>, z: bv32): bv32 {
    if words == [] then z else MurState(words[0], ChainState(words[1..], z))
  }

  lemma {:induction false} ChainBijectiveInState(words: seq<bv32>, h: bv32, z: bv32)
    ensures MurChain(words, h) == z <==> h == ChainState(words, z)
  {
    hide Mur, MurState;
    if words != [] {
      ChainBijectiveInState(words[1..], Mur(words[0], h), z);
      MurBijective(words[0], h, ChainState(words[1..], z));
    }
  }

  /** The one value of word k that takes the chain from h to z. */
  function ChainWord(words: seq<bv32>, k: nat, h: bv32, z: bv32): bv32
    requires k < |words|
  {
    if k == 0 then MurWord(h, ChainState(words[1..], z))
    else ChainWord(words[1..], k - 1, Mur(words[0], h), z)
  }

  lemma {:induction false} ChainBijectiveInWord(words: seq<bv32>, k: nat, h: bv32, z: bv32, w: bv32)
    requires k < |words|
    ensures MurChain(words[k := w], h) == z <==> w == ChainWord(words, k, h, z)
  {
    hide Mur, MurWord;
    var changed := words[k := w];
    if k == 0 {
      assert changed[1..] == words[1..];
      ChainBijectiveInState(words[1..], Mur(w, h), z);
      MurBijective(w, h, ChainState(words[1..], z));
    } else {
      assert changed[1..] == words[1..][k - 1 := w];
      ChainBijectiveInWord(words[1..], k - 1, Mur(words[0], h), z, w);
    }
  }

  /** The aligned 4-byte words of a key. */
  function Loads(s: Bytes): seq<bv32>
    requires |s| % 4 == 0
  {
    seq(|s| / 4, i requires 0 <= i < |s| / 4 => Fetch32(s[4 * i..]))
  }

  /** s with its aligned word k replaced by w. */
  function WithWord(s: Bytes, k: nat, w: bv32): (t: Bytes)
    requires 4 * k + 4 <= |s|
    ensures |t| == |s|
  {
    s[..4 * k] + Bytes32(w) + s[4 * k + 4..]
  }

  lemma LoadsWithWord(s: Bytes, k: nat, w: bv32)
    requires |s| % 4 == 0 && k < |s| / 4
    ensures Loads(WithWord(s, k, w)) == Loads(s)[k := w]
  {
    var t := WithWord(s, k, w);
    forall i | 0 <= i < |s| / 4
      ensures Fetch32(t[4 * i..]) == if i == k then w else Fetch32(s[4 * i..])
    {
      var from := if i == k then Bytes32(w) else s[4 * i..];
      assert t[4 * i..][..4] == from[..4];
      FetchReadsFour(t[4 * i..], from);
    }
  }

  lemma FetchReadsFour(p: Bytes, q: Bytes)
    requires |p| >= 4 && |q| >= 4 && p[..4] == q[..4]
    ensures Fetch32(p) == Fetch32(q)
  {
    assert forall i | 0 <= i < 4 :: p[i] == p[..4][i] && q[i] == q[..4][i];
  }

  /** The words in the order in which mur absorbs them, and the state it starts from. */
  function ChainOf(loads: seq<bv32>): seq<bv32>
    requires |loads| == 3 || |loads| == 6
  {
    if |loads| == 3 then [Add32(loads[0], 12), Add32(loads[2], 60), Add32(loads[1], 9)]
    else [loads[2], loads[1], loads[4], loads[3], loads[0], loads[5]]
  }

  function ChainStart(n: nat): bv32 {
    if n == 3 then 60 else 24
  }

  /** Where word k of the key is absorbed, and the constant added to it. */
  function ChainPlace(n: nat, k: nat): (p: nat)
    requires (n == 3 || n == 6) && k < n
    ensures p < n
  {
    if n == 3 then [0, 2, 1][k] else [4, 1, 0, 3, 2, 5][k]
  }

  function ChainOffset(n: nat, k: nat): bv32
    requires (n == 3 || n == 6) && k < n
  {
    if n == 3 then [12, 9, 60][k] else 0
  }

  /** At 12 and at 24 bytes the loads of the short-key branches are the aligned words, each once. */
  lemma HashIsChain(s: Bytes)
    requires |s| == 12 || |s| == 24
    ensures CityHash32(s, |s|) == Fmix(MurChain(ChainOf(Loads(s)), ChainStart(|s| / 4)))
  {
    hide CityHash32, Fmix, MurChain, ChainOf, Loads;
    if |s| == 12 {
      HashIsChain12(s);
    } else {
      HashIsChain24(s);
    }
  }

  lemma HashIsChain12(s: Bytes)
    requires |s| == 12
    ensures CityHash32(s, 12) == Fmix(MurChain(ChainOf(Loads(s)), 60))
  {
    Twelve();
    hide Add32, Mul32, Word32, Fetch32, Mur, Fmix, MurChain;
    var loads := Loads(s);
    assert s[0..] == s;
    SumsCommute(loads[0], 12);
    SumsCommute(loads[1], 9);
    SumsCommute(loads[2], 60);
    ChainOfThree(Add32(loads[0], 12), Add32(loads[2], 60), Add32(loads[1], 9), 60);
  }

  lemma HashIsChain24(s: Bytes)
    requires |s| == 24
    ensures CityHash32(s, 24) == Fmix(MurChain(ChainOf(Loads(s)), 24))
  {
    TwentyFour();
    hide Add32, Mul32, Word32, Fetch32, Mur, Fmix, MurChain;
    var l := Loads(s);
    assert s[0..] == s;
    ChainOfSix(l[2], l[1], l[4], l[3], l[0], l[5], 24);
  }

  lemma Twelve()
    ensures Word32(12) == 12 && Mul32(12, 5) == 60
  {
    WordOfValue(12);
    WordOfValue(60);
    assert Nat32(12) == 12 && Nat32(5) == 5 && Nat32(60) == 60;
    hide Word32;
  }

  lemma TwentyFour()
    ensures Word32(24) == 24
  {
    WordOfValue(24);
    assert Nat32(24) == 24;
    hide Word32;
  }

  lemma SumsCommute(x: bv32, y: bv32)
    ensures Add32(x, y) == Add32(y, x)
  {
    SubCancels(x, y);
  }

  lemma ChainOfThree(a: bv32, b: bv32, c: bv32, h: bv32)
    ensures MurChain([a, b, c], h) == Mur(c, Mur(b, Mur(a, h)))
  {
    hide Mur;
    assert [a, b, c][1..] == [b, c] && [b, c][1..] == [c];
    var h1 := Mur(a, h);
    var h2 := Mur(b, h1);
    assert MurChain([c], h2) == Mur(c, h2);
    assert MurChain([b, c], h1) == MurChain([c], h2);
  }

  lemma ChainOfSix(a: bv32, b: bv32, c: bv32, d: bv32, e: bv32, f: bv32, h: bv32)
    ensures MurChain([a, b, c, d, e, f], h) == Mur(f, Mur(e, Mur(d, Mur(c, Mur(b, Mur(a, h))))))
  {
    hide Mur;
    var h1 := Mur(a, h);
    var h2 := Mur(b, h1);
    var h3 := Mur(c, h2);
    ChainOfThree(d, e, f, h3);
    assert [a, b, c, d, e, f][1..] == [b, c, d, e, f];
    assert [b, c, d, e, f][1..] == [c, d, e, f] && [c, d, e, f][1..] == [d, e, f];
    assert MurChain([c, d, e, f], h2) == MurChain([d, e, f], h3);
    assert MurChain([b, c, d, e, f], h1) == MurChain([c, d, e, f], h2);
  }

  /** The one value of word k with which the key hashes to z. */
  function KeyWord(s: Bytes, k: nat, z: bv32): bv32
    requires (|s| == 12 || |s| == 24) && k < |s| / 4
  {
    var n := |s| / 4;
    var absorbed := ChainWord(ChainOf(Loads(s)), ChainPlace(n, k), ChainStart(n), FmixInverse(z));
    Sub32(absorbed, ChainOffset(n, k))
  }

  lemma HashOfWord(s: Bytes, k: nat, w: bv32)
    requires (|s| == 12 || |s| == 24) && k < |s| / 4
    ensures var n := |s| / 4; var chain := ChainOf(Loads(s));
            && |chain| == n && |WithWord(s, k, w)| == |s|
            && CityHash32(WithWord(s, k, w), |s|) ==
                 Fmix(MurChain(chain[ChainPlace(n, k) := Add32(w, ChainOffset(n, k))], ChainStart(n)))
  {
    var t := WithWord(s, k, w);
    LoadsWithWord(s, k, w);
    hide WithWord;
    HashIsChain(t);
    hide Add32, Fmix, Mur, CityHash32, MurChain, Loads, ChainOffset;
    ChainOfUpdate(Loads(s), k, w);
  }

  /** With the other words of a 12- or 24-byte key fixed, the hash is a bijection of each aligned word. */
  lemma HashBijectiveInWord(s: Bytes, k: nat, w: bv32, z: bv32)
    requires (|s| == 12 || |s| == 24) && k < |s| / 4
    ensures CityHash32(WithWord(s, k, w), |s|) == z <==> w == KeyWord(s, k, z)
  {
    var n := |s| / 4;
    HashOfWord(s, k, w);
    hide Add32, Sub32, Fmix, FmixInverse, Mur, CityHash32, MurChain, ChainWord, Loads,
      ChainOf, ChainOffset, ChainPlace, WithWord;
    var place, offset, h, chain := ChainPlace(n, k), ChainOffset(n, k), ChainStart(n), ChainOf(Loads(s));
    ChainBijectiveInWord(chain, place, h, FmixInverse(z), Add32(w, offset));
    FmixBijective(MurChain(chain[place := Add32(w, offset)], h));
    FmixBijective(z);
    SubCancels(w, offset);
    SubCancels(ChainWord(chain, place, h, FmixInverse(z)), offset);
  }

  lemma ChainOfUpdate(loads: seq<bv32>, k: nat, w: bv32)
    requires (|loads| == 3 || |loads| == 6) && k < |loads|
    ensures ChainOf(loads[k := w]) == ChainOf(loads)[ChainPlace(|loads|, k) := Add32(w, ChainOffset(|loads|, k))]
  {
    ZeroOffset(w);
    hide Add32;
    if |loads| == 3 {
      if k == 0 {} else if k == 1 {} else {}
    } else {
      if k == 0 {} else if k == 1 {} else if k == 2 {} else if k == 3 {} else if k == 4 {} else {}
    }
  }

  lemma ZeroOffset(w: bv32)
    ensures Add32(w, 0) == w
  {
    WordOfValue(w);
    Arithmetic.Small(Nat32(w), TWO32);
  }

  /** Two keys of 12 or of 24 bytes that differ in one aligned word only never collide. */
  lemma NoCollisionInOneWord(s: Bytes, t: Bytes, k: nat)
    requires |s| == |t| && (|s| == 12 || |s| == 24) && k < |s| / 4
    requires s[..4 * k] == t[..4 * k] && s[4 * k + 4..] == t[4 * k + 4..]
    ensures CityHash32(s, |s|) == CityHash32(t, |s|) <==> s == t
  {
    hide CityHash32, KeyWord;
    var z := CityHash32(t, |s|);
    forall u | u == s || u == t
      ensures u == WithWord(s, k, Fetch32(u[4 * k..])) && |u| == |s|
    {
      FetchDeterminesBytes(Bytes32(Fetch32(u[4 * k..])), u[4 * k..]);
      assert Bytes32(Fetch32(u[4 * k..])) == u[4 * k..][..4];
      assert u == u[..4 * k] + u[4 * k..][..4] + u[4 * k + 4..];
    }
    HashBijectiveInWord(s, k, Fetch32(s[4 * k..]), z);
    HashBijectiveInWord(s, k, Fetch32(t[4 * k..]), z);
  }

  // ---------- the long-key loop loses nothing of its state ----------

  /** The state before a block, from the state after it and the five words of the block. */
  function ChurnInverse(st: State, a0: bv32, a1: bv32, a2: bv32, a3: bv32, a4: bv32): State {
    State(Sub32(Rotate32(Mul32(Sub32(st.h, a0), C1_INVERSE), 13), a1),
          Sub32(StirInverse(Xor32(Bswap32(Mul32(st.f, FIVE_INVERSE)), a4), 14), a2),
          Xor32(StirInverse(Xor32(StirInverse(Sub32(Bswap32(st.g), Mul32(a4, 5)), 13), Add32(a3, a1)), 14), a0))
  }

  lemma ChurnInvertible(st: State, a0: bv32, a1: bv32, a2: bv32, a3: bv32, a4: bv32)
    ensures ChurnInverse(Churn(st, a0, a1, a2, a3, a4), a0, a1, a2, a3, a4) == st
  {
    hide Add32, Sub32, Mul32, Xor32, Rotate32, Bswap32, Stir, StirInverse;
    // f
    SubCancels(st.f, a1);
    var f := Add32(st.f, a1);
    RotationsCancel(f);
    Multipliers(Rotate32(f, 19));
    SubCancels(Mul32(Rotate32(f, 19), C1), a0);
    // g
    SubCancels(st.g, a2);
    var g := Add32(st.g, a2);
    StirBijective(g);
    XorCancels(Stir(g, 18), a4);
    SwapTwice(Xor32(Stir(g, 18), a4));
    Multipliers(Bswap32(Xor32(Stir(g, 18), a4)));
    // h
    var h := Xor32(st.h, a0);
    XorCancels(st.h, a0);
    StirBijective(h);
    var k := Xor32(Stir(h, 18), Add32(a3, a1));
    XorCancels(Stir(h, 18), Add32(a3, a1));
    StirBijective(k);
    SubCancels(Stir(k, 19), Mul32(a4, 5));
    SwapTwice(Add32(Stir(k, 19), Mul32(a4, 5)));
  }

  lemma BlockInjective(st: State, st': State, s: Bytes)
    requires |s| >= 20 && Block(st, s) == Block(st', s)
    ensures st == st'
  {
    var a0, a1, a2, a3, a4 := Scramble(Fetch32(s)), Fetch32(s[4..]), Scramble(Fetch32(s[8..])),
      Scramble(Fetch32(s[12..])), Fetch32(s[16..]);
    hide Churn, ChurnInverse, Scramble, Fetch32;
    ChurnInvertible(st, a0, a1, a2, a3, a4);
    ChurnInvertible(st', a0, a1, a2, a3, a4);
  }

  /** However many blocks are absorbed, different starting states stay different. */
  lemma {:induction false} BlocksInjective(st: State, st': State, s: Bytes, n: nat)
    requires |s| >= 20 * n && Blocks(st, s, n) == Blocks(st', s, n)
    ensures st == st'
    decreases n
  {
    hide Block;
    if n > 0 {
      BlocksInjective(Block(st, s), Block(st', s), s[20..], n - 1);
      BlockInjective(st, st', s);
    }
  }

  // ---------- which bytes are read ----------

  /** Every byte of a long key is read, by the prologue (the last 20 bytes) or by a block;
      the blocks leave 1 to 20 bytes. */
  lemma LongKeyIsCovered(length: Length, p: nat)
    requires 24 < length && p < length
    ensures var iters := (length - 1) / 20; 1 <= length - 20 * iters <= 20 && (p < 20 * iters || length - 20 <= p)
  {
  }

  ghost predicate Agree(s: Bytes, t: Bytes, m: nat) {
    m <= |s| && m <= |t| && forall i | 0 <= i < m :: s[i] == t[i]
  }

  lemma FetchesAgree(s: Bytes, t: Bytes, m: nat)
    requires Agree(s, t, m)
    ensures forall i | 0 <= i <= m - 4 :: Fetch32(s[i..]) == Fetch32(t[i..])
  {
    forall i | 0 <= i <= m - 4
      ensures Fetch32(s[i..]) == Fetch32(t[i..])
    {
      assert s[i..][..4] == t[i..][..4];
      FetchReadsFour(s[i..], t[i..]);
    }
  }

  /** Bytes beyond the declared length never matter. */
  lemma HashReadsDeclaredLength(s: Bytes, t: Bytes, length: Length)
    requires length <= |s| && length <= |t| && s[..length] == t[..length]
    ensures CityHash32(s, length) == CityHash32(t, length)
  {
    assert Agree(s, t, length) by {
      assert forall i | 0 <= i < length :: s[i] == s[..length][i] && t[i] == t[..length][i];
    }
    if 4 < length {
      if length <= 12 {
        Hash5to12ReadsPrefix(s, t, length);
      } else if length <= 24 {
        Hash13to24ReadsPrefix(s, t, length);
      } else {
        PrologueReadsPrefix(s, t, length);
        BlocksReadPrefix(Prologue(s, length), s, t, (length - 1) / 20);
      }
    }
    hide Hash32Len5to12, Hash32Len13to24, Prologue, Blocks, Epilogue, Fmix, Mur, Agree;
  }

  lemma Hash5to12ReadsPrefix(s: Bytes, t: Bytes, length: Length)
    requires 4 < length <= 12 && Agree(s, t, length)
    ensures Hash32Len5to12(s, length) == Hash32Len5to12(t, length)
  {
    FetchesAgree(s, t, length);
    hide Fetch32, Fmix, Mur, Add32, Mul32, Word32;
    assert s[0..] == s && t[0..] == t;
  }

  lemma Hash13to24ReadsPrefix(s: Bytes, t: Bytes, length: Length)
    requires 12 < length <= 24 && Agree(s, t, length)
    ensures Hash32Len13to24(s, length) == Hash32Len13to24(t, length)
  {
    FetchesAgree(s, t, length);
    hide Fetch32, Fmix, Mur, Add32, Mul32, Word32;
    assert s[0..] == s && t[0..] == t;
  }

  lemma PrologueReadsPrefix(s: Bytes, t: Bytes, length: Length)
    requires 24 < length && Agree(s, t, length)
    ensures Prologue(s, length) == Prologue(t, length)
  {
    FetchesAgree(s, t, length);
    hide Fetch32, Scramble, Stir, Add32, Mul32, Xor32, Word32;
  }

  lemma {:induction false} BlocksReadPrefix(st: State, s: Bytes, t: Bytes, n: nat)
    requires Agree(s, t, 20 * n)
    ensures Blocks(st, s, n) == Blocks(st, t, n)
    decreases n
  {
    hide Block;
    if n > 0 {
      BlockReadsPrefix(st, s, t);
      BlocksReadPrefix(Block(st, s), s[20..], t[20..], n - 1);
    }
  }

  lemma BlockReadsPrefix(st: State, s: Bytes, t: Bytes)
    requires Agree(s, t, 20)
    ensures Block(st, s) == Block(st, t)
  {
    FetchesAgree(s, t, 20);
    hide Fetch32, Scramble, Churn;
    assert s[0..] == s && t[0..] == t;
  }
}
