/** Machine words and little-endian loads, as tools/cityhash.go uses them. */
module Words {
  import opened Arithmetic

  type Bytes = seq<bv8>

  /** A length that fits the source's uint32 length parameters. */
  type Length = n: nat | n < 0x1_0000_0000

  function Fetch32(p: Bytes): bv32
    requires |p| >= 4
  {
    LittleEndian32(p[0], p[1], p[2], p[3])
  }

  function LittleEndian32(a: bv8, b: bv8, c: bv8, d: bv8): bv32 {
    (a as bv32) | ((b as bv32) << 8) | ((c as bv32) << 16) | ((d as bv32) << 24)
  }

  function Fetch64(p: Bytes): Long
    requires |p| >= 8
  {
    Long((p[0] as bv64) | ((p[1] as bv64) << 8) | ((p[2] as bv64) << 16) | ((p[3] as bv64) << 24)
    | ((p[4] as bv64) << 32) | ((p[5] as bv64) << 40) | ((p[6] as bv64) << 48) | ((p[7] as bv64) << 56))
  }

  /** The four bytes that Fetch32 reads back as w. */
  function Bytes32(w: bv32): (p: Bytes)
    ensures |p| == 4 && Fetch32(p) == w
  {
    [(w & 0xff) as bv8, ((w >> 8) & 0xff) as bv8, ((w >> 16) & 0xff) as bv8, ((w >> 24) & 0xff) as bv8]
  }

  // Go's unsigned arithmetic wraps. It is written through the value of a word,
  // so that the laws below are laws of arithmetic modulo 2^32, and every operation
  // has a name, so that the proofs about loops can hide it.

  const TWO32: nat := 0x1_0000_0000
  const TWO64: nat := 0x1_0000_0000_0000_0000

  function Nat32(x: bv32): nat { x as nat }

  function Word32(n: nat): bv32
    requires n < TWO32
  {
    n as bv32
  }

  function Add32(a: bv32, b: bv32): bv32 { Word32((Nat32(a) + Nat32(b)) % TWO32) }
  function Mul32(a: bv32, b: bv32): bv32 { Word32(Nat32(a) * Nat32(b) % TWO32) }
  function Xor32(a: bv32, b: bv32): bv32 { a ^ b }
  function Shr32(a: bv32, shift: bv32): bv32
    requires shift < 32
  {
    a >> shift
  }

  /** A 64-bit word, wrapped so that proofs which do not need its bits never see them. */
  datatype Long = Long(bits: bv64)

  function Long64(n: nat): Long
    requires n < TWO64
  {
    Long(n as bv64)
  }

  function Add64(a: Long, b: Long): Long { Long(((a.bits as nat + b.bits as nat) % TWO64) as bv64) }
  function Mul64(a: Long, b: Long): Long { Long((a.bits as nat * b.bits as nat % TWO64) as bv64) }
  function Xor64(a: Long, b: Long): Long { Long(a.bits ^ b.bits) }
  function Shl64(a: Long, shift: bv64): Long
    requires shift < 64
  {
    Long(a.bits << shift)
  }
  function Shr64(a: Long, shift: bv64): Long
    requires shift < 64
  {
    Long(a.bits >> shift)
  }

  function Rotate32(val: bv32, shift: bv32): bv32
    requires shift < 32
  {
    if shift != 0 then (val >> shift) | (val << (32 - shift)) else val
  }

  function Rotate64(val: Long, shift: bv64): Long
    requires shift < 64
  {
    if shift != 0 then Long((val.bits >> shift) | (val.bits << (64 - shift))) else val
  }

  function Bswap32(x: bv32): bv32 {
    ((x << 24) & 0xff000000) | ((x << 8) & 0x00ff0000) | ((x >> 8) & 0x0000ff00) | ((x >> 24) & 0x000000ff)
  }

  function Bswap64(word: Long): Long {
    var x := word.bits;
    Long(((x << 56) & 0xff00000000000000) | ((x << 40) & 0x00ff000000000000)
         | ((x << 24) & 0x0000ff0000000000) | ((x << 8) & 0x000000ff00000000)
         | ((x >> 8) & 0x00000000ff000000) | ((x >> 24) & 0x0000000000ff0000)
         | ((x >> 40) & 0x000000000000ff00) | ((x >> 56) & 0x00000000000000ff))
  }

  /** A 32-bit load determines the bytes it read. */
  lemma FetchDeterminesBytes(p: Bytes, q: Bytes)
    requires |p| >= 4 && |q| >= 4
    requires Fetch32(p) == Fetch32(q)
    ensures p[..4] == q[..4]
  {
    LittleEndianInjective(p[0], p[1], p[2], p[3], q[0], q[1], q[2], q[3]);
  }

  lemma LittleEndianInjective(a: bv8, b: bv8, c: bv8, d: bv8, a': bv8, b': bv8, c': bv8, d': bv8)
    requires LittleEndian32(a, b, c, d) == LittleEndian32(a', b', c', d')
    ensures a == a' && b == b' && c == c' && d == d'
  {
  }

  // ---------- words and their values ----------

  lemma ValueOfWordModulo(n: nat)
    requires n < 0x1_0000_0000
    ensures (n as bv32) as nat == n % 0x1_0000_0000
  {
  }

  lemma WordOfValue(x: bv32)
    ensures Nat32(x) < TWO32 && Word32(Nat32(x)) == x
  {
    assert (x as nat) as bv32 == x;
  }

  lemma ValueOfWord(n: nat)
    requires n < TWO32
    ensures Nat32(Word32(n)) == n
  {
    ValueOfWordFunctions(n);
    hide Nat32, Word32;
    Small(n, TWO32);
  }

  lemma ValueOfWordFunctions(n: nat)
    requires n < TWO32
    ensures Nat32(Word32(n)) == n % TWO32
  {
    ValueOfWordModulo(n);
  }

  /** c and d are inverse modulo n: multiplying by both gives the number back. */
  lemma InverseModulo(x: nat, c: nat, d: nat, n: nat)
    requires x < n && c * d % n == 1
    ensures (x * c % n) * d % n == x
  {
    var k, q, r := c * d / n, x * c / n, x * c % n;
    Quotient(c * d, n);
    Quotient(x * c, n);
    InverseParts(x, c, d, n, k, q, r);
    Multiple(x, x * k - q * d, n);
  }

  lemma Quotient(x: nat, n: nat)
    requires n > 0
    ensures x == x / n * n + x % n
  {
  }

  lemma InverseParts(x: int, c: int, d: int, n: int, k: int, q: int, r: int)
    requires c * d == k * n + 1 && x * c == q * n + r
    ensures r * d == (x * k - q * d) * n + x
  {
    SumTimes(q * n, r, d);
    Exchanged(x, c, d);
    Exchanged(q, n, d);
    SumTimes(k * n, 1, x);
    Exchanged(k, n, x);
    SumTimes(x * k - q * d, q * d, n);
  }

  lemma SumTimes(a: int, b: int, c: int)
    ensures (a + b) * c == a * c + b * c
  {
  }

  lemma Exchanged(a: int, b: int, c: int)
    ensures (a * b) * c == a * (b * c) && (a * b) * c == (a * c) * b
  {
  }

  /** Multiplication by an odd constant is undone by its inverse. */
  lemma MulCancels(x: bv32, c: bv32, d: bv32)
    requires Nat32(c) * Nat32(d) % TWO32 == 1
    ensures Mul32(Mul32(x, c), d) == x
  {
    hide Nat32, Word32;
    ValueOfWord(Nat32(x) * Nat32(c) % TWO32);
    WordOfValue(x);
    InverseModulo(Nat32(x), Nat32(c), Nat32(d), TWO32);
  }

  /** Subtraction: the word that added to y gives x. */
  function Sub32(x: bv32, y: bv32): bv32 {
    WordOfValue(y);
    Word32((Nat32(x) + (TWO32 - Nat32(y))) % TWO32)
  }

  lemma SubCancels(x: bv32, y: bv32)
    ensures Sub32(Add32(x, y), y) == x
    ensures Add32(Sub32(x, y), y) == x
    ensures Add32(x, y) == Add32(y, x)
  {
    hide Nat32, Word32;
    WordOfValue(x);
    WordOfValue(y);
    ValueOfWord((Nat32(x) + Nat32(y)) % TWO32);
    ValueOfWord((Nat32(x) + (TWO32 - Nat32(y))) % TWO32);
    SumsCancelModulo(Nat32(x), Nat32(y), TWO32);
  }

  lemma SumsCancelModulo(x: nat, y: nat, n: nat)
    requires x < n && y < n
    ensures ((x + y) % n + (n - y)) % n == x
    ensures ((x + (n - y)) % n + y) % n == x
  {
    Multiple(x, 1, n);
    Multiple(x, 0, n);
    if x + y < n {
      Multiple(x + y, 0, n);
    } else {
      Multiple(x + y - n, 1, n);
    }
    if x < y {
      Multiple(x + n - y, 0, n);
    } else {
      Multiple(x - y, 1, n);
    }
  }

  lemma XorCancels(x: bv32, y: bv32)
    ensures Xor32(Xor32(x, y), y) == x
    ensures Xor32(x, y) == Xor32(y, x)
  {
  }

  lemma RotationsCancel(x: bv32)
    ensures Rotate32(Rotate32(x, 17), 15) == x && Rotate32(Rotate32(x, 15), 17) == x
    ensures Rotate32(Rotate32(x, 18), 14) == x && Rotate32(Rotate32(x, 14), 18) == x
    ensures Rotate32(Rotate32(x, 19), 13) == x && Rotate32(Rotate32(x, 13), 19) == x
  {
    Rotate17(x);
    Rotate15(x);
    Rotate18(x);
    Rotate14(x);
    Rotate19(x);
    Rotate13(x);
    hide Rotate32;
  }

  lemma Rotate13(x: bv32) ensures Rotate32(Rotate32(x, 13), 19) == x {}
  lemma Rotate14(x: bv32) ensures Rotate32(Rotate32(x, 14), 18) == x {}
  lemma Rotate15(x: bv32) ensures Rotate32(Rotate32(x, 15), 17) == x {}
  lemma Rotate17(x: bv32) ensures Rotate32(Rotate32(x, 17), 15) == x {}
  lemma Rotate18(x: bv32) ensures Rotate32(Rotate32(x, 18), 14) == x {}
  lemma Rotate19(x: bv32) ensures Rotate32(Rotate32(x, 19), 13) == x {}

  lemma SwapTwice(x: bv32)
    ensures Bswap32(Bswap32(x)) == x
  {
  }
}
