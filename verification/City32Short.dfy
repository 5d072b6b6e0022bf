/** What CityHash32 keeps of keys of at most 24 bytes, the lengths of all user ids: for every length which bytes are
    loaded, and where two keys cannot collide. */
module City32Short {
  import Arithmetic
  import opened Words
  import opened City32
  import opened City32Laws

  // ---------- 5 to 24 bytes: a chain of loads ----------

  /** The places of the 4-byte loads, in the order in which mur absorbs them. */
  function Offsets(n: nat): seq<nat>
    requires 5 <= n <= 24
  {
    if n < 8 then [0, n - 4, 0]
    else if n <= 12 then [0, n - 4, 4]
    else [n / 2 - 4, 4, n - 8, n / 2, 0, n - 4]
  }

  lemma LoadsAreInside(n: nat, i: nat)
    requires 5 <= n <= 24 && i < |Offsets(n)|
    ensures Offsets(n)[i] + 4 <= n
  {
  }

  function LoadAt(s: Bytes, n: nat, i: nat): bv32
    requires 5 <= n <= 24 && n <= |s| && i < |Offsets(n)|
  {
    LoadsAreInside(n, i);
    Fetch32(s[Offsets(n)[i]..])
  }

  /** What is added to a load: the length, five times the length, and nine for up to 12 bytes. */
  function Added(n: nat, i: nat): bv32
    requires 5 <= n <= 24 && i < |Offsets(n)|
  {
    if n > 12 then 0 else if i == 0 then Word32(n) else if i == 1 then Word32(5 * n) else 9
  }

  /** The words that are absorbed, and the state that absorbs the first one. */
  function Absorbed(s: Bytes, n: nat): seq<bv32>
    requires 5 <= n <= 24 && n <= |s|
  {
    seq(|Offsets(n)|, i requires 0 <= i < |Offsets(n)| => Add32(LoadAt(s, n, i), Added(n, i)))
  }

  function FirstState(n: nat): bv32
    requires 5 <= n <= 24
  {
    Word32(if n <= 12 then 5 * n else n)
  }

  lemma FiveTimes(n: nat)
    requires n <= 12
    ensures Mul32(Word32(n), 5) == Word32(5 * n)
  {
    ValueOfWord(n);
    ValueOfWord(5);
    Arithmetic.Small(5 * n, TWO32);
    WordOfValue(5);
    assert Nat32(5) == 5;
    hide Nat32, Word32;
  }

  /** For every length the hash is one chain over these loads, and nothing else of the key. */
  lemma HashIsChainOfLoads(s: Bytes, n: nat)
    requires 5 <= n <= 24 && n <= |s|
    ensures CityHash32(s, n) == Fmix(MurChain(Absorbed(s, n), FirstState(n)))
  {
    assert s[0..] == s;
    if n <= 12 {
      Chain5to12(s, n);
    } else {
      Chain13to24(s, n);
    }
  }

  lemma Chain5to12(s: Bytes, n: nat)
    requires 5 <= n <= 12 && n <= |s| && s[0..] == s
    ensures Hash32Len5to12(s, n) == Fmix(MurChain(Absorbed(s, n), FirstState(n)))
  {
    hide Add32, Mul32, Word32, Fetch32, Mur, Fmix, MurChain;
    FiveTimes(n);
    SumsCommute(Fetch32(s), Word32(n));
    SumsCommute(Fetch32(s[n - 4..]), Word32(5 * n));
    var c := if n < 8 then 0 else 4;
    assert n / 2 / 4 * 4 == c;
    SumsCommute(Fetch32(s[c..]), 9);
    var words := Absorbed(s, n);
    assert words == [words[0], words[1], words[2]];
    ChainOfThree(words[0], words[1], words[2], FirstState(n));
  }

  lemma Chain13to24(s: Bytes, n: nat)
    requires 13 <= n <= 24 && n <= |s| && s[0..] == s
    ensures Hash32Len13to24(s, n) == Fmix(MurChain(Absorbed(s, n), FirstState(n)))
  {
    hide Add32, Mul32, Word32, Fetch32, Mur, Fmix, MurChain;
    var words := Absorbed(s, n);
    forall i | 0 <= i < 6
      ensures words[i] == LoadAt(s, n, i)
    {
      ZeroOffset(LoadAt(s, n, i));
    }
    assert words == [words[0], words[1], words[2], words[3], words[4], words[5]];
    ChainOfSix(words[0], words[1], words[2], words[3], words[4], words[5], FirstState(n));
  }

  /** Every byte of the key is loaded. */
  lemma EveryByteIsLoaded(n: nat, p: nat)
    requires 5 <= n <= 24 && p < n
    ensures exists i | 0 <= i < |Offsets(n)| :: Offsets(n)[i] <= p < Offsets(n)[i] + 4
  {
    var o := Offsets(n);
    if n <= 12 {
      assert o[0] <= p < o[0] + 4 || o[1] <= p < o[1] + 4 || o[2] <= p < o[2] + 4;
    } else {
      assert || o[0] <= p < o[0] + 4 || o[1] <= p < o[1] + 4 || o[2] <= p < o[2] + 4
             || o[3] <= p < o[3] + 4 || o[4] <= p < o[4] + 4 || o[5] <= p < o[5] + 4;
    }
  }

  lemma LoadsDetermineKey(s: Bytes, t: Bytes, n: nat)
    requires 5 <= n <= 24 && n <= |s| && n <= |t|
    requires forall i | 0 <= i < |Offsets(n)| :: LoadAt(s, n, i) == LoadAt(t, n, i)
    ensures s[..n] == t[..n]
  {
    forall p | 0 <= p < n
      ensures s[p] == t[p]
    {
      EveryByteIsLoaded(n, p);
      var i :| 0 <= i < |Offsets(n)| && Offsets(n)[i] <= p < Offsets(n)[i] + 4;
      LoadsAreInside(n, i);
      var o := Offsets(n)[i];
      assert LoadAt(s, n, i) == LoadAt(t, n, i);
      FetchDeterminesBytes(s[o..], t[o..]);
      assert s[p] == s[o..][..4][p - o] && t[p] == t[o..][..4][p - o];
      hide Offsets, Fetch32;
    }
  }

  /** Two keys that agree in all loads but one never collide unless they are equal. */
  lemma NoCollisionInOneLoad(s: Bytes, t: Bytes, n: nat, k: nat)
    requires 5 <= n <= 24 && n <= |s| && n <= |t| && k < |Offsets(n)|
    requires forall i | 0 <= i < |Offsets(n)| && i != k :: LoadAt(s, n, i) == LoadAt(t, n, i)
    ensures CityHash32(s, n) == CityHash32(t, n) <==> s[..n] == t[..n]
  {
    if CityHash32(s, n) == CityHash32(t, n) {
      LoadIsEqual(s, t, n, k);
      hide CityHash32, Offsets, LoadAt;
      LoadsDetermineKey(s, t, n);
    } else if s[..n] == t[..n] {
      HashReadsDeclaredLength(s, t, n);
    }
    hide CityHash32;
  }

  lemma LoadIsEqual(s: Bytes, t: Bytes, n: nat, k: nat)
    requires 5 <= n <= 24 && n <= |s| && n <= |t| && k < |Offsets(n)|
    requires forall i | 0 <= i < |Offsets(n)| && i != k :: LoadAt(s, n, i) == LoadAt(t, n, i)
    requires CityHash32(s, n) == CityHash32(t, n)
    ensures LoadAt(s, n, k) == LoadAt(t, n, k)
  {
    hide Add32, Sub32, Fmix, FmixInverse, CityHash32, MurChain, ChainWord, Offsets, LoadAt, Added, FirstState;
    HashIsChainOfLoads(s, n);
    HashIsChainOfLoads(t, n);
    var u, v, h := Absorbed(s, n), Absorbed(t, n), FirstState(n);
    FmixBijective(MurChain(u, h));
    FmixBijective(MurChain(v, h));
    assert u[k := u[k]] == u && u[k := v[k]] == v;
    ChainBijectiveInWord(u, k, h, MurChain(u, h), u[k]);
    ChainBijectiveInWord(u, k, h, MurChain(u, h), v[k]);
    SubCancels(LoadAt(s, n, k), Added(n, k));
    SubCancels(LoadAt(t, n, k), Added(n, k));
  }

  /** Of every length from 5 to 24 except 8, where the last word is absorbed twice: two keys with the same words before
      the last one never collide unless they are equal. */
  lemma NoCollisionInLastWord(s: Bytes, t: Bytes, n: nat)
    requires 5 <= n <= 24 && n != 8 && n <= |s| && n <= |t|
    requires s[..4 * ((n - 1) / 4)] == t[..4 * ((n - 1) / 4)]
    ensures CityHash32(s, n) == CityHash32(t, n) <==> s[..n] == t[..n]
  {
    var m := 4 * ((n - 1) / 4);
    assert Agree(s, t, m) by {
      assert forall i | 0 <= i < m :: s[i] == s[..m][i] && t[i] == t[..m][i];
    }
    FetchesAgree(s, t, m);
    var last := if n <= 12 then 1 else 5;
    forall i | 0 <= i < |Offsets(n)| && i != last
      ensures LoadAt(s, n, i) == LoadAt(t, n, i)
    {
      assert Offsets(n)[i] <= m - 4;
      hide Fetch32;
    }
    hide Fetch32, CityHash32;
    NoCollisionInOneLoad(s, t, n, last);
  }

  // ---------- up to 4 bytes: two accumulators ----------

  /** A byte as int8. */
  function Signed(v: bv8): int {
    if v < 0x80 then v as int else v as int - 256
  }

  /** The polynomial of the bytes in C1, its value as a word, and the xor of its values over the prefixes. */
  function Polynomial(s: Bytes): int {
    if s == [] then 0 else Polynomial(s[..|s| - 1]) * 0xcc9e2d51 + Signed(s[|s| - 1])
  }

  function Value(s: Bytes): bv32 { Word32(Polynomial(s) % TWO32) }

  function Checks(s: Bytes): bv32 {
    if s == [] then 9 else Xor32(Checks(s[..|s| - 1]), Value(s))
  }

  lemma SignExtendValue(v: bv8)
    ensures Nat32(SignExtend(v)) == Signed(v) % TWO32
  {
    HighByteValue(v);
  }

  lemma HighByteValue(v: bv8)
    ensures v >= 0x80 ==> ((v as bv32) | 0xffffff00) as nat == v as nat - 256 + 0x1_0000_0000
  {
  }

  lemma ValueOfC1()
    ensures Nat32(C1) == 0xcc9e2d51
  {
  }

  lemma HornerModulo(b: nat, p: int, d: int, e: nat)
    requires b == p % TWO32 && e == d % TWO32
    ensures (b * 0xcc9e2d51 % TWO32 + e) % TWO32 == (p * 0xcc9e2d51 + d) % TWO32
  {
    var k, l, q := p / TWO32, d / TWO32, b * 0xcc9e2d51 / TWO32;
    assert p == k * TWO32 + b && d == l * TWO32 + e;
    var r := b * 0xcc9e2d51 % TWO32;
    assert p * 0xcc9e2d51 + d == (k * 0xcc9e2d51 + q + l) * TWO32 + (r + e);
    SameModulo(r + e, k * 0xcc9e2d51 + q + l);
  }

  lemma SameModulo(x: int, m: int)
    ensures (m * TWO32 + x) % TWO32 == x % TWO32
  {
    var r := x % TWO32;
    assert m * TWO32 + x == (m + x / TWO32) * TWO32 + r;
    Arithmetic.MultipleIsFar(m + x / TWO32 - (m * TWO32 + x) / TWO32, TWO32);
  }

  lemma PolynomialStep(s: Bytes)
    requires s != []
    ensures var p, v := Polynomial(s[..|s| - 1]) % TWO32, s[|s| - 1];
            (p * 0xcc9e2d51 % TWO32 + Nat32(SignExtend(v))) % TWO32 == Polynomial(s) % TWO32
  {
    var p, v := Polynomial(s[..|s| - 1]), s[|s| - 1];
    SignExtendValue(v);
    HornerModulo(p % TWO32, p, Signed(v), Signed(v) % TWO32);
    hide Signed, SignExtend, Nat32;
  }

  lemma ValueStep(s: Bytes)
    requires s != []
    ensures Add32(Mul32(Value(s[..|s| - 1]), C1), SignExtend(s[|s| - 1])) == Value(s)
  {
    hide Add32, Mul32, SignExtend, Word32, Nat32, Polynomial;
    var p := Polynomial(s[..|s| - 1]) % TWO32;
    PolynomialStep(s);
    HornerStep(Word32(p), p, s[|s| - 1]);
  }

  /** The accumulators of the loop. */
  lemma {:induction false} AccumulatorsAre(s: Bytes)
    ensures AbsorbBytes(Accumulator(0, 9), s) == Accumulator(Value(s), Checks(s))
  {
    if s == [] {
      NoBytes();
    } else {
      hide Add32, Mul32, Xor32, SignExtend, Value;
      AccumulatorsAre(s[..|s| - 1]);
      ValueStep(s);
    }
  }

  lemma NoBytes()
    ensures AbsorbBytes(Accumulator(0, 9), []) == Accumulator(Value([]), Checks([]))
  {
    hide Word32;
    WordOfValue(0);
    assert Nat32(0) == 0;
  }

  lemma HornerStep(b: bv32, p: nat, v: bv8)
    requires p < TWO32 && b == Word32(p)
    ensures var d := Nat32(SignExtend(v));
            Add32(Mul32(b, C1), SignExtend(v)) == Word32((p * 0xcc9e2d51 % TWO32 + d) % TWO32)
  {
    ValueOfC1();
    ValueOfWord(p);
    ValueOfWord(p * 0xcc9e2d51 % TWO32);
    hide Nat32, Word32, SignExtend;
  }

  lemma ShortHash(s: Bytes, n: nat)
    requires n <= 4 && n <= |s|
    ensures CityHash32(s, n) == Fmix(Mur(Value(s[..n]), Mur(Word32(n), Checks(s[..n]))))
  {
    hide Fmix, Mur, Word32, AbsorbBytes, Value, Checks;
    AccumulatorsAre(s[..n]);
  }

  /** Two keys of the same length for which one of the two accumulators is equal collide if and only if the other one is
      equal too. */
  lemma ShortKeysCollideExactly(s: Bytes, t: Bytes, n: nat)
    requires n <= 4 && n <= |s| && n <= |t|
    ensures Checks(s[..n]) == Checks(t[..n]) ==>
              (CityHash32(s, n) == CityHash32(t, n) <==> Polynomial(s[..n]) % TWO32 == Polynomial(t[..n]) % TWO32)
    ensures Polynomial(s[..n]) % TWO32 == Polynomial(t[..n]) % TWO32 ==>
              (CityHash32(s, n) == CityHash32(t, n) <==> Checks(s[..n]) == Checks(t[..n]))
  {
    ValuesEqualExactly(s[..n], t[..n]);
    hide Fmix, FmixInverse, Mur, MurState, MurWord, Word32, Polynomial, Value, Checks, CityHash32;
    ShortHash(s, n);
    ShortHash(t, n);
    var x, y, c, d, len := Value(s[..n]), Value(t[..n]), Checks(s[..n]), Checks(t[..n]), Word32(n);
    FmixBijective(Mur(x, Mur(len, c)));
    FmixBijective(Mur(y, Mur(len, d)));
    MurBijective(x, Mur(len, c), Mur(y, Mur(len, d)));
    MurBijective(y, Mur(len, d), Mur(y, Mur(len, d)));
    MurBijective(len, c, Mur(len, d));
    MurBijective(len, d, Mur(len, d));
  }

  lemma ValuesEqualExactly(s: Bytes, t: Bytes)
    ensures Value(s) == Value(t) <==> Polynomial(s) % TWO32 == Polynomial(t) % TWO32
  {
    ValueOfWord(Polynomial(s) % TWO32);
    ValueOfWord(Polynomial(t) % TWO32);
    hide Word32, Nat32, Polynomial;
  }

  /** C1 is odd: a product with it determines the other factor modulo 2^32. */
  lemma DifferenceStays(p: int, q: int, d: int)
    requires p % TWO32 != q % TWO32
    ensures (p * 0xcc9e2d51 + d) % TWO32 != (q * 0xcc9e2d51 + d) % TWO32
  {
    if (p * 0xcc9e2d51 + d) % TWO32 == (q * 0xcc9e2d51 + d) % TWO32 {
      var m := (p * 0xcc9e2d51 + d) / TWO32 - (q * 0xcc9e2d51 + d) / TWO32;
      OddFactor(p - q, m);
    }
  }

  lemma OddFactor(x: int, m: int)
    requires x * 0xcc9e2d51 == m * 0x1_0000_0000
    ensures x % 0x1_0000_0000 == 0
  {
    assert x == (m * 0xdee13bb1 - x * 0xb2253208) * 0x1_0000_0000;
  }

  lemma SmallDifference(x: int, d: int, e: int)
    requires d != e && d - e < TWO32 && e - d < TWO32
    ensures (x + d) % TWO32 != (x + e) % TWO32
  {
  }

  /** Keys that differ in exactly one byte have different polynomials: the first accumulator tells them apart. */
  lemma {:induction false} OneByteShows(s: Bytes, k: nat, v: bv8)
    requires k < |s| && v != s[k]
    ensures Polynomial(s[k := v]) % TWO32 != Polynomial(s) % TWO32
  {
    var t, last := s[k := v], |s| - 1;
    if k == last {
      assert t[..last] == s[..last];
      SignedApart(v, s[k]);
      SmallDifference(Polynomial(s[..last]) * 0xcc9e2d51, Signed(v), Signed(s[k]));
    } else {
      assert t[..last] == s[..last][k := v];
      OneByteShows(s[..last], k, v);
      DifferenceStays(Polynomial(t[..last]), Polynomial(s[..last]), Signed(s[last]));
    }
    hide Signed;
  }

  lemma SignedApart(v: bv8, w: bv8)
    requires v != w
    ensures Signed(v) != Signed(w) && -0x80 <= Signed(v) < 0x80 && -0x80 <= Signed(w) < 0x80
  {
  }
}
