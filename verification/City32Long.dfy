/** What CityHash32 keeps of keys of more than 24 bytes until its last mixing: keys that differ in one word, which
    either the blocks or the prologue reads, lead to different accumulators. */
module City32Long {
  import opened Words
  import opened City32
  import opened City32Laws

  /** s and t agree on their first n bytes, except for the four bytes at p. */
  ghost predicate AgreeBut(s: Bytes, t: Bytes, n: nat, p: nat) {
    n <= |s| && n <= |t| && forall i | 0 <= i < n && !(p <= i < p + 4) :: s[i] == t[i]
  }

  lemma LoadsAgreeBut(s: Bytes, t: Bytes, n: nat, p: nat, o: nat)
    requires AgreeBut(s, t, n, p) && o + 4 <= n && (o + 4 <= p || p + 4 <= o)
    ensures Fetch32(s[o..]) == Fetch32(t[o..])
  {
    FetchReadsFour(s[o..], t[o..]);
    hide Fetch32;
    assert s[o..][..4] == t[o..][..4];
  }

  lemma LoadTells(s: Bytes, t: Bytes, n: nat, p: nat)
    requires AgreeBut(s, t, n, p) && p + 4 <= n && Fetch32(s[p..]) == Fetch32(t[p..])
    ensures s[..n] == t[..n]
  {
    FetchDeterminesBytes(s[p..], t[p..]);
    hide Fetch32;
    forall i | 0 <= i < n
      ensures s[i] == t[i]
    {
      assert p <= i < p + 4 ==> s[i] == s[p..][..4][i - p] && t[i] == t[p..][..4][i - p];
    }
  }

  // ---------- one block ----------

  /** Sums and exclusive ors can be solved for each side. */
  lemma Solved(x: bv32, y: bv32, z: bv32)
    ensures Add32(x, y) == Add32(x, z) ==> y == z
    ensures Add32(y, x) == Add32(z, x) ==> y == z
    ensures Xor32(x, y) == Xor32(x, z) ==> y == z
    ensures Xor32(y, x) == Xor32(z, x) ==> y == z
  {
    SubCancels(y, x);
    SubCancels(z, x);
    SubCancels(x, y);
    SubCancels(x, z);
    hide Add32, Sub32;
  }

  lemma Injections(x: bv32, y: bv32)
    ensures Scramble(x) == Scramble(y) ==> x == y
    ensures Stir(x, 18) == Stir(y, 18) ==> x == y
    ensures Stir(x, 19) == Stir(y, 19) ==> x == y
    ensures Bswap32(x) == Bswap32(y) ==> x == y
    ensures Mul32(x, 5) == Mul32(y, 5) ==> x == y
    ensures Mul32(x, C1) == Mul32(y, C1) ==> x == y
    ensures Rotate32(x, 19) == Rotate32(y, 19) ==> x == y
  {
    hide Scramble, ScrambleInverse, Stir, StirInverse, Bswap32, Mul32, Rotate32;
    ScrambleBijective(x);
    ScrambleBijective(y);
    StirBijective(x);
    StirBijective(y);
    SwapTwice(x);
    SwapTwice(y);
    Multipliers(x);
    Multipliers(y);
    RotationsCancel(x);
    RotationsCancel(y);
  }

  /** The word of a block that differs shows in the state: the others and the state before are equal. */
  lemma ChurnShows(st: State, a: seq<bv32>, b: seq<bv32>, j: nat)
    requires |a| == |b| == 5 && j < 5 && forall i | 0 <= i < 5 && i != j :: a[i] == b[i]
    requires Churn(st, a[0], a[1], a[2], a[3], a[4]) == Churn(st, b[0], b[1], b[2], b[3], b[4])
    ensures a[j] == b[j]
  {
    hide Add32, Mul32, Xor32, Rotate32, Bswap32, Stir, Churn;
    if j == 0 {
      ChurnH(st, a, b);
    } else if j == 1 {
      ChurnH(st, a, b);
    } else if j == 3 {
      ChurnG(st, a, b);
    } else {
      ChurnF(st, a, b);
    }
  }

  /** h' tells a0 if a1 is equal, and a1 if a0 is. */
  lemma ChurnH(st: State, a: seq<bv32>, b: seq<bv32>)
    requires |a| == |b| == 5
    requires Churn(st, a[0], a[1], a[2], a[3], a[4]).h == Churn(st, b[0], b[1], b[2], b[3], b[4]).h
    ensures a[1] == b[1] ==> a[0] == b[0]
    ensures a[0] == b[0] ==> a[1] == b[1]
  {
    hide Add32, Mul32, Xor32, Rotate32, Bswap32, Stir;
    var x, y := Add32(st.f, a[1]), Add32(st.f, b[1]);
    var u, v := Rotate32(x, 19), Rotate32(y, 19);
    Solved(Mul32(u, C1), a[0], b[0]);
    Solved(a[0], Mul32(u, C1), Mul32(v, C1));
    Injections(u, v);
    Injections(x, y);
    Solved(st.f, a[1], b[1]);
  }

  /** g' tells a3 if the others are equal. */
  lemma ChurnG(st: State, a: seq<bv32>, b: seq<bv32>)
    requires |a| == |b| == 5 && a[0] == b[0] && a[1] == b[1] && a[4] == b[4]
    requires Churn(st, a[0], a[1], a[2], a[3], a[4]).g == Churn(st, b[0], b[1], b[2], b[3], b[4]).g
    ensures a[3] == b[3]
  {
    hide Add32, Mul32, Xor32, Rotate32, Bswap32, Stir;
    var h := Stir(Xor32(st.h, a[0]), 18);
    var x, y := Xor32(h, Add32(a[3], a[1])), Xor32(h, Add32(b[3], b[1]));
    var u, v := Add32(Stir(x, 19), Mul32(a[4], 5)), Add32(Stir(y, 19), Mul32(a[4], 5));
    Injections(u, v);
    Solved(Mul32(a[4], 5), Stir(x, 19), Stir(y, 19));
    Injections(x, y);
    Solved(h, Add32(a[3], a[1]), Add32(b[3], b[1]));
    Solved(a[1], a[3], b[3]);
  }

  /** f' tells a2 if a4 is equal, and a4 if a2 is. */
  lemma ChurnF(st: State, a: seq<bv32>, b: seq<bv32>)
    requires |a| == |b| == 5
    requires Churn(st, a[0], a[1], a[2], a[3], a[4]).f == Churn(st, b[0], b[1], b[2], b[3], b[4]).f
    ensures a[4] == b[4] ==> a[2] == b[2]
    ensures a[2] == b[2] ==> a[4] == b[4]
  {
    hide Add32, Mul32, Xor32, Rotate32, Bswap32, Stir;
    var x, y := Add32(st.g, a[2]), Add32(st.g, b[2]);
    var u, v := Xor32(Stir(x, 18), a[4]), Xor32(Stir(y, 18), b[4]);
    Injections(Bswap32(u), Bswap32(v));
    Injections(u, v);
    Solved(Stir(x, 18), a[4], b[4]);
    Solved(a[4], Stir(x, 18), Stir(y, 18));
    Injections(x, y);
    Solved(st.g, a[2], b[2]);
  }

  /** The five words of a block as they are mixed in. */
  function Mixed(s: Bytes): seq<bv32>
    requires |s| >= 20
  {
    [Scramble(Fetch32(s)), Fetch32(s[4..]), Scramble(Fetch32(s[8..])), Scramble(Fetch32(s[12..])), Fetch32(s[16..])]
  }

  lemma MixedIs(s: Bytes, i: nat)
    requires |s| >= 20 && i < 5
    ensures var w := Fetch32(s[4 * i..]); Mixed(s)[i] == if i == 1 || i == 4 then w else Scramble(w)
  {
    hide Fetch32, Scramble;
    assert s[0..] == s;
  }

  lemma BlockShows(st: State, s: Bytes, t: Bytes, j: nat)
    requires |s| >= 20 && |t| >= 20 && j < 5 && Block(st, s) == Block(st, t)
    requires AgreeBut(s, t, 20, 4 * j)
    ensures s[..20] == t[..20]
  {
    hide Fetch32, Scramble, Churn;
    forall i | 0 <= i < 5 && i != j
      ensures Mixed(s)[i] == Mixed(t)[i]
    {
      LoadsAgreeBut(s, t, 20, 4 * j, 4 * i);
      MixedIs(s, i);
      MixedIs(t, i);
    }
    ChurnShows(st, Mixed(s), Mixed(t), j);
    MixedIs(s, j);
    MixedIs(t, j);
    Injections(Fetch32(s[4 * j..]), Fetch32(t[4 * j..]));
    hide Block, Mixed, AgreeBut;
    LoadTells(s, t, 20, 4 * j);
  }

  /** The state after any number of blocks still shows a word of theirs. */
  lemma {:induction false} BlocksShow(st: State, s: Bytes, t: Bytes, n: nat, j: nat)
    requires AgreeBut(s, t, 20 * n, 4 * j) && j < 5 * n && Blocks(st, s, n) == Blocks(st, t, n)
    ensures s[..20 * n] == t[..20 * n]
    decreases n
  {
    hide Block;
    if j < 5 {
      assert Agree(s[20..], t[20..], 20 * (n - 1));
      BlocksReadPrefix(Block(st, t), s[20..], t[20..], n - 1);
      BlocksInjective(Block(st, s), Block(st, t), s[20..], n - 1);
      BlockShows(st, s, t, j);
      forall i | 0 <= i < 20 * n
        ensures s[i] == t[i]
      {
        assert i < 20 ==> s[i] == s[..20][i] && t[i] == t[..20][i];
      }
    } else {
      assert Agree(s, t, 20);
      BlockReadsPrefix(st, s, t);
      assert AgreeBut(s[20..], t[20..], 20 * (n - 1), 4 * (j - 5));
      BlocksShow(Block(st, s), s[20..], t[20..], n - 1, j - 5);
      forall i | 0 <= i < 20 * n
        ensures s[i] == t[i]
      {
        assert i >= 20 ==> s[i] == s[20..][..20 * (n - 1)][i - 20] && t[i] == t[20..][..20 * (n - 1)][i - 20];
      }
    }
  }

  // ---------- whole keys ----------

  /** The accumulators before the last mixing. */
  function Absorbed(s: Bytes, n: Length): State
    requires 24 < n <= |s|
  {
    Blocks(Prologue(s, n), s, (n - 1) / 20)
  }

  /** A word of the blocks that the prologue does not read. */
  lemma WordOfBlocksShows(s: Bytes, t: Bytes, n: Length, j: nat)
    requires 24 < n && AgreeBut(s, t, n, 4 * j) && 4 * j + 4 <= n - 20
    requires Absorbed(s, n) == Absorbed(t, n)
    ensures s[..n] == t[..n]
  {
    assert n <= |s| && n <= |t|;
    hide Prologue, Blocks, AgreeBut;
    var m := (n - 1) / 20;
    assert n - 20 <= 20 * m < n;
    PrologueReadsEnd(s, t, n, 4 * j);
    Shorter(s, t, 20 * m, n, 4 * j);
    BlocksShow(Prologue(s, n), s, t, m, j);
    RestAgrees(s, t, 20 * m, n, 4 * j);
  }

  lemma Shorter(s: Bytes, t: Bytes, m: nat, n: nat, p: nat)
    requires m <= n && AgreeBut(s, t, n, p)
    ensures AgreeBut(s, t, m, p)
  {
  }

  lemma RestAgrees(s: Bytes, t: Bytes, m: nat, n: nat, p: nat)
    requires p + 4 <= m <= n && AgreeBut(s, t, n, p) && m <= |s| && m <= |t| && s[..m] == t[..m]
    ensures n <= |s| && n <= |t| && s[..n] == t[..n]
  {
    forall i | 0 <= i < n
      ensures s[i] == t[i]
    {
      assert i < m ==> s[i] == s[..m][i] && t[i] == t[..m][i];
    }
  }

  lemma PrologueReadsEnd(s: Bytes, t: Bytes, n: Length, p: nat)
    requires 24 < n && AgreeBut(s, t, n, p) && p + 4 <= n - 20
    ensures Prologue(s, n) == Prologue(t, n)
  {
    hide Fetch32, Scramble, Stir, Add32, Mul32, Xor32, Word32;
    LoadsAgreeBut(s, t, n, p, n - 4);
    LoadsAgreeBut(s, t, n, p, n - 8);
    LoadsAgreeBut(s, t, n, p, n - 12);
    LoadsAgreeBut(s, t, n, p, n - 16);
    LoadsAgreeBut(s, t, n, p, n - 20);
  }

  /** A word of the end that the blocks do not read; k words stand behind it. */
  lemma WordOfEndShows(s: Bytes, t: Bytes, n: Length, k: nat)
    requires 24 < n && k < 5 && n - 4 * k - 4 >= 20 * ((n - 1) / 20) && AgreeBut(s, t, n, n - 4 * k - 4)
    requires Absorbed(s, n) == Absorbed(t, n)
    ensures s[..n] == t[..n]
  {
    hide Prologue, Block;
    var m := (n - 1) / 20;
    assert Agree(s, t, 20 * m);
    BlocksReadPrefix(Prologue(t, n), s, t, m);
    BlocksInjective(Prologue(s, n), Prologue(t, n), s, m);
    PrologueShows(s, t, n, k);
  }

  /** The prologue on its five loads, the last word of the key first. */
  function Start(n: Length, l: seq<bv32>): State
    requires |l| == 5
  {
    var w := Mul32(C1, Word32(n));
    State(Stir(Add32(w, Scramble(l[4])), 19),
          Stir(Xor32(Stir(Xor32(w, Scramble(l[1])), 19), Scramble(l[2])), 19),
          Stir(Xor32(Stir(Xor32(Word32(n), Scramble(l[0])), 19), Scramble(l[3])), 19))
  }

  function EndLoads(s: Bytes, n: nat): seq<bv32>
    requires 24 < n <= |s|
  {
    seq(5, i requires 0 <= i < 5 => Fetch32(s[n - 4 * i - 4..]))
  }

  lemma PrologueIs(s: Bytes, n: Length)
    requires 24 < n <= |s|
    ensures Prologue(s, n) == Start(n, EndLoads(s, n))
  {
    hide Fetch32, Scramble, Stir, Add32, Mul32, Xor32, Word32;
  }

  lemma StartShows(n: Length, l: seq<bv32>, l': seq<bv32>, k: nat)
    requires |l| == |l'| == 5 && k < 5 && forall i | 0 <= i < 5 && i != k :: l[i] == l'[i]
    requires Start(n, l) == Start(n, l')
    ensures l[k] == l'[k]
  {
    hide Scramble, Stir, Add32, Mul32, Xor32, Word32;
    var w := Mul32(C1, Word32(n));
    if k == 4 {
      Injections(Add32(w, Scramble(l[4])), Add32(w, Scramble(l'[4])));
      Solved(w, Scramble(l[4]), Scramble(l'[4]));
    } else if k == 0 || k == 3 {
      TwoStirs(Word32(n), Scramble(l[0]), Scramble(l'[0]), Scramble(l[3]), Scramble(l'[3]));
    } else {
      TwoStirs(w, Scramble(l[1]), Scramble(l'[1]), Scramble(l[2]), Scramble(l'[2]));
    }
    Injections(l[k], l'[k]);
  }

  lemma PrologueShows(s: Bytes, t: Bytes, n: Length, k: nat)
    requires 24 < n && k < 5 && AgreeBut(s, t, n, n - 4 * k - 4) && Prologue(s, n) == Prologue(t, n)
    ensures s[..n] == t[..n]
  {
    hide Prologue, Start, Fetch32;
    PrologueIs(s, n);
    PrologueIs(t, n);
    forall i | 0 <= i < 5 && i != k
      ensures EndLoads(s, n)[i] == EndLoads(t, n)[i]
    {
      LoadsAgreeBut(s, t, n, n - 4 * k - 4, n - 4 * i - 4);
    }
    StartShows(n, EndLoads(s, n), EndLoads(t, n), k);
    LoadTells(s, t, n, n - 4 * k - 4);
  }

  lemma TwoStirs(w: bv32, a: bv32, b: bv32, a': bv32, b': bv32)
    requires Stir(Xor32(Stir(Xor32(w, a), 19), a'), 19) == Stir(Xor32(Stir(Xor32(w, b), 19), b'), 19)
    ensures a == b ==> a' == b'
    ensures a' == b' ==> a == b
  {
    hide Xor32, Stir;
    var x, y := Stir(Xor32(w, a), 19), Stir(Xor32(w, b), 19);
    Injections(Xor32(x, a'), Xor32(y, b'));
    Solved(x, a', b');
    Solved(a', x, y);
    Injections(Xor32(w, a), Xor32(w, b));
    Solved(w, a, b);
  }
}
