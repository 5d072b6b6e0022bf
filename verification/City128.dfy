/** The 64- and 128-bit CityHash of tools/cityhash.go: loops, one of them unrolled by hand,
    against folds of one 64-byte round. */
module City128 {
  import opened Words

  const K0 := Long(0xc3a5c85c97cb3127)
  const K1 := Long(0xb492b66fbe98f273)
  const K2 := Long(0x9ae16a3b2f90404f)
  const KMUL := Long(0x9ddfea08eb382d69)

  datatype Uint128 = Uint128(lower: Long, higher: Long)

  function Widen(w: bv32): Long { Long(w as bv64) }

  function ShiftMix(val: Long): Long {
    Xor64(val, Shr64(val, 47))
  }

  function HashLen16Mul(u: Long, v: Long, mul: Long): Long {
    var a := ShiftMix(Mul64(Xor64(u, v), mul));
    Mul64(ShiftMix(Mul64(Xor64(v, a), mul)), mul)
  }

  function HashLen16(u: Long, v: Long): Long {
    HashLen16Mul(u, v, KMUL)
  }

  /** k2 + length * 2 */
  function LengthMul(length: Length): Long {
    Add64(K2, Mul64(Long64(length), Long(2)))
  }

  /** For keys of at most 16 bytes, and for those longer ones that CityMurmur takes for such. */
  function HashLen0to16(s: Bytes, length: Length): Long
    requires length <= |s|
  {
    hide Add64, Mul64, Xor64, Long64, Fetch64, Fetch32, Rotate64, ShiftMix, HashLen16Mul;
    if length >= 8 then
      var mul := LengthMul(length);
      var a := Add64(Fetch64(s), K2);
      var b := Fetch64(s[length - 8..]);
      var c := Add64(Mul64(Rotate64(b, 37), mul), a);
      var d := Mul64(Add64(Rotate64(a, 25), b), mul);
      HashLen16Mul(c, d, mul)
    else if length >= 4 then
      var a := Widen(Fetch32(s));
      HashLen16Mul(Add64(Long64(length), Shl64(a, 3)), Widen(Fetch32(s[length - 4..])), LengthMul(length))
    else if length > 0 then
      var y := Add32(s[0] as bv32, (s[length / 2] as bv32) << 8);
      var z := Add32(Word32(length), (s[length - 1] as bv32) << 2);
      Mul64(ShiftMix(Xor64(Mul64(Widen(y), K2), Mul64(Widen(z), K0))), K2)
    else K2
  }

  function HashLen17to32(s: Bytes, length: Length): Long
    requires 16 < length <= 32 && length <= |s|
  {
    hide Add64, Mul64, Xor64, Long64, Fetch64, Rotate64, HashLen16Mul;
    var mul := LengthMul(length);
    var a := Mul64(Fetch64(s), K1);
    var b := Fetch64(s[8..]);
    var c := Mul64(Fetch64(s[length - 8..]), mul);
    var d := Mul64(Fetch64(s[length - 16..]), K2);
    HashLen16Mul(Add64(Add64(Rotate64(Add64(a, b), 43), Rotate64(c, 30)), d),
                 Add64(Add64(a, Rotate64(Add64(b, K2), 18)), c), mul)
  }

  function HashLen33to64(s: Bytes, length: Length): Long
    requires 32 < length <= 64 && length <= |s|
  {
    hide Add64, Mul64, Xor64, Long64, Fetch64, Rotate64, Bswap64, ShiftMix;
    var mul := LengthMul(length);
    var a := Mul64(Fetch64(s), K2);
    var b := Fetch64(s[8..]);
    var c := Fetch64(s[length - 24..]);
    var d := Fetch64(s[length - 32..]);
    var e := Mul64(Fetch64(s[16..]), K2);
    var f := Mul64(Fetch64(s[24..]), Long(9));
    var g := Fetch64(s[length - 8..]);
    var h := Mul64(Fetch64(s[length - 16..]), mul);
    var u := Add64(Rotate64(Add64(a, g), 43), Mul64(Add64(Rotate64(b, 30), c), Long(9)));
    var v := Add64(Add64(Xor64(Add64(a, g), d), f), Long(1));
    var w := Add64(Bswap64(Mul64(Add64(u, v), mul)), h);
    var x := Add64(Rotate64(Add64(e, f), 42), c);
    var y := Mul64(Add64(Bswap64(Mul64(Add64(v, w), mul)), g), mul);
    var z := Add64(Add64(e, f), c);
    var a' := Add64(Bswap64(Add64(Mul64(Add64(x, z), mul), y)), b);
    var b' := Mul64(ShiftMix(Add64(Add64(Mul64(Add64(z, a'), mul), d), h)), mul);
    Add64(b', x)
  }

  function WeakHash(w: Long, x: Long, y: Long, z: Long, a: Long, b: Long): Uint128 {
    var a1 := Add64(a, w);
    var b1 := Rotate64(Add64(Add64(b, a1), z), 21);
    var a2 := Add64(Add64(a1, x), y);
    Uint128(Add64(a2, z), Add64(Add64(b1, Rotate64(a2, 44)), a1))
  }

  /** weakHashLen32WithSeeds_3: the weak hash of the first 32 bytes. */
  function WeakHash32(s: Bytes, a: Long, b: Long): Uint128
    requires |s| >= 32
  {
    hide Add64, Fetch64, Rotate64, WeakHash;
    WeakHash(Fetch64(s), Fetch64(s[8..]), Fetch64(s[16..]), Fetch64(s[24..]), a, b)
  }

  /** The 56 bytes of state of the long loops. */
  datatype State = State(x: Long, y: Long, z: Long, v: Uint128, w: Uint128)

  /** One 64-byte round. */
  function Round(st: State, s: Bytes): State
    requires |s| >= 64
  {
    hide Add64, Mul64, Xor64, Fetch64, Rotate64, WeakHash32;
    var x := Xor64(Mul64(Rotate64(Add64(Add64(Add64(st.x, st.y), st.v.lower), Fetch64(s[8..])), 37), K1), st.w.higher);
    var y := Add64(Mul64(Rotate64(Add64(Add64(st.y, st.v.higher), Fetch64(s[48..])), 42), K1),
                   Add64(st.v.lower, Fetch64(s[40..])));
    var z := Mul64(Rotate64(Add64(st.z, st.w.lower), 33), K1);
    State(z, y, x,
          WeakHash32(s, Mul64(st.v.higher, K1), Add64(x, st.w.lower)),
          WeakHash32(s[32..], Add64(z, st.w.higher), Add64(y, Fetch64(s[16..]))))
  }

  /** n rounds, each on the next 64 bytes of s. */
  function Rounds(st: State, s: Bytes, n: nat): State
    requires |s| >= 64 * n
    decreases n
  {
    if n == 0 then st else Rounds(Round(st, s), s[64..], n - 1)
  }

  function Start64(s: Bytes, length: Length): State
    requires 64 < length <= |s|
  {
    hide Add64, Mul64, Long64, Fetch64, HashLen16, WeakHash32;
    var x := Fetch64(s[length - 40..]);
    var y := Add64(Fetch64(s[length - 16..]), Fetch64(s[length - 56..]));
    var z := HashLen16(Add64(Fetch64(s[length - 48..]), Long64(length)), Fetch64(s[length - 24..]));
    State(Add64(Mul64(x, K1), Fetch64(s)), y, z,
          WeakHash32(s[length - 64..], Long64(length), z),
          WeakHash32(s[length - 32..], Add64(y, K1), x))
  }

  function Finish64(st: State): Long {
    HashLen16(Add64(Add64(HashLen16(st.v.lower, st.w.lower), Mul64(ShiftMix(st.y), K1)), st.z),
              Add64(HashLen16(st.v.higher, st.w.higher), st.x))
  }

  function CityHash64(s: Bytes, length: Length): Long
    requires length <= |s|
  {
    if length <= 16 then HashLen0to16(s, length)
    else if length <= 32 then HashLen17to32(s, length)
    else if length <= 64 then HashLen33to64(s, length)
    else Finish64(Rounds(Start64(s, length), s, (length - 1) / 64))
  }

  method ComputeCityHash64(s: Bytes, length: Length) returns (r: Long)
    requires length <= |s|
    ensures r == CityHash64(s, length)
  {
    hide Add64, Mul64, Xor64, Long64, Fetch64, Rotate64, WeakHash32, HashLen16, ShiftMix;
    if length <= 32 {
      if length <= 16 {
        return HashLen0to16(s, length);
      } else {
        return HashLen17to32(s, length);
      }
    } else if length <= 64 {
      return HashLen33to64(s, length);
    }
    hide HashLen0to16, HashLen17to32, HashLen33to64;
    var x := Fetch64(s[length - 40..]);
    var y := Add64(Fetch64(s[length - 16..]), Fetch64(s[length - 56..]));
    var z := HashLen16(Add64(Fetch64(s[length - 48..]), Long64(length)), Fetch64(s[length - 24..]));
    var v := WeakHash32(s[length - 64..], Long64(length), z);
    var w := WeakHash32(s[length - 32..], Add64(y, K1), x);
    x := Add64(Mul64(x, K1), Fetch64(s));
    assert State(x, y, z, v, w) == Start64(s, length);
    hide Start64, Rounds;
    var st := Loop64(State(x, y, z, v, w), s, length);
    x, y, z, v, w := st.x, st.y, st.z, st.v, st.w;
    r := HashLen16(Add64(Add64(HashLen16(v.lower, w.lower), Mul64(ShiftMix(y), K1)), z),
                   Add64(HashLen16(v.higher, w.higher), x));
  }

  /** The 64-byte loop; it stops before the last 1 to 64 bytes. */
  method Loop64(st: State, s0: Bytes, length0: Length) returns (after: State)
    requires 64 < length0 <= |s0|
    ensures after == Rounds(st, s0, (length0 - 1) / 64)
  {
    hide Add64, Mul64, Xor64, Fetch64, Rotate64, WeakHash32;
    var s := s0;
    var x, y, z, v, w := st.x, st.y, st.z, st.v, st.w;
    // (length - 1) & ^63
    var length := (length0 - 1) / 64 * 64;
    while true
      invariant 64 <= length <= |s| && length % 64 == 0
      invariant Rounds(State(x, y, z, v, w), s, length / 64) == Rounds(st, s0, (length0 - 1) / 64)
      decreases length
    {
      ghost var before := State(x, y, z, v, w);
      x := Mul64(Rotate64(Add64(Add64(Add64(x, y), v.lower), Fetch64(s[8..])), 37), K1);
      y := Mul64(Rotate64(Add64(Add64(y, v.higher), Fetch64(s[48..])), 42), K1);
      x := Xor64(x, w.higher);
      y := Add64(y, Add64(v.lower, Fetch64(s[40..])));
      z := Mul64(Rotate64(Add64(z, w.lower), 33), K1);
      v := WeakHash32(s, Mul64(v.higher, K1), Add64(x, w.lower));
      w := WeakHash32(s[32..], Add64(z, w.higher), Add64(y, Fetch64(s[16..])));
      z, x := x, z;
      assert State(x, y, z, v, w) == Round(before, s);
      s := s[64..];
      length := length - 64;
      if length == 0 {
        break;
      }
    }
    after := State(x, y, z, v, w);
  }

  // ---------- keys under 128 bytes ----------

  const TWO31 := 0x8000_0000

  /** The int32 with the bits of n. */
  function Int32(n: int): int {
    (n + TWO31) % TWO32 - TWO31
  }

  datatype MurmurState = MurmurState(a: Long, b: Long, c: Long, d: Long)

  function MurmurRound(st: MurmurState, s: Bytes): MurmurState
    requires |s| >= 16
  {
    hide Add64, Mul64, Xor64, Fetch64, ShiftMix;
    var a := Mul64(Xor64(st.a, Mul64(ShiftMix(Mul64(Fetch64(s), K1)), K1)), K1);
    var c := Mul64(Xor64(st.c, Mul64(ShiftMix(Mul64(Fetch64(s[8..]), K1)), K1)), K1);
    MurmurState(a, Xor64(st.b, a), c, Xor64(st.d, c))
  }

  function MurmurRounds(st: MurmurState, s: Bytes, n: nat): MurmurState
    requires |s| >= 16 * n
    decreases n
  {
    if n == 0 then st else MurmurRounds(MurmurRound(st, s), s[16..], n - 1)
  }

  function MurmurStart(s: Bytes, length: Length, seed: Uint128): MurmurState
    requires 16 < length <= |s|
  {
    hide Add64, Mul64, Xor64, Long64, Fetch64, HashLen16;
    var c := HashLen16(Add64(Fetch64(s[length - 8..]), K1), seed.lower);
    var d := HashLen16(Add64(seed.higher, Long64(length)), Add64(c, Fetch64(s[length - 16..])));
    MurmurState(Add64(seed.lower, d), seed.higher, c, d)
  }

  function MurmurShort(s: Bytes, length: Length, seed: Uint128): MurmurState
    requires length <= |s|
  {
    hide Add64, Mul64, Xor64, Long64, Fetch64, HashLen0to16, ShiftMix;
    var a := Mul64(ShiftMix(Mul64(seed.lower, K1)), K1);
    var c := Add64(Mul64(seed.higher, K1), HashLen0to16(s, length));
    MurmurState(a, seed.higher, c, ShiftMix(Add64(a, if length >= 8 then Fetch64(s) else c)))
  }

  function MurmurFinish(st: MurmurState): Uint128 {
    var a := HashLen16(st.a, st.c);
    var b := HashLen16(st.d, st.b);
    Uint128(Xor64(a, b), HashLen16(b, a))
  }

  /** int32(length) - 16 is not positive: so it is up to 16 bytes, and again where int32 is negative and the
      difference does not wrap. */
  predicate TakenAsShort(length: Length) {
    length <= 16 || length >= TWO31 + 16
  }

  /** Any other key takes one round for each started 16 bytes after the first 16. */
  function CityMurmur(s: Bytes, length: Length, seed: Uint128): Uint128
    requires length <= |s|
  {
    MurmurFinish(if TakenAsShort(length) then MurmurShort(s, length, seed)
                 else MurmurRounds(MurmurStart(s, length, seed), s, (length - 1) / 16))
  }

  method ComputeCityMurmur(s0: Bytes, length: Length, seed: Uint128) returns (r: Uint128)
    requires length <= |s0|
    ensures r == CityMurmur(s0, length, seed)
  {
    hide Add64, Mul64, Xor64, Long64, Fetch64, HashLen16, ShiftMix, HashLen0to16;
    var s := s0;
    var a, b, c, d: Long := seed.lower, seed.higher, Long(0), Long(0);
    var l: int := Int32(Int32(length) - 16);
    if l <= 0 {
      a := Mul64(ShiftMix(Mul64(a, K1)), K1);
      c := Add64(Mul64(b, K1), HashLen0to16(s, length));
      if length >= 8 {
        d := ShiftMix(Add64(a, Fetch64(s)));
      } else {
        d := ShiftMix(Add64(a, c));
      }
    } else {
      c := HashLen16(Add64(Fetch64(s[length - 8..]), K1), a);
      d := HashLen16(Add64(b, Long64(length)), Add64(c, Fetch64(s[length - 16..])));
      a := Add64(a, d);
      assert MurmurState(a, b, c, d) == MurmurStart(s0, length, seed);
      hide MurmurStart, MurmurShort;
      while true
        invariant 0 < l && l + 16 <= |s|
        invariant MurmurRounds(MurmurState(a, b, c, d), s, (l + 15) / 16)
               == MurmurRounds(MurmurStart(s0, length, seed), s0, (length - 1) / 16)
        decreases l
      {
        ghost var before := MurmurState(a, b, c, d);
        a := Xor64(a, Mul64(ShiftMix(Mul64(Fetch64(s), K1)), K1));
        a := Mul64(a, K1);
        b := Xor64(b, a);
        c := Xor64(c, Mul64(ShiftMix(Mul64(Fetch64(s[8..]), K1)), K1));
        c := Mul64(c, K1);
        d := Xor64(d, c);
        assert MurmurState(a, b, c, d) == MurmurRound(before, s);
        s := s[16..];
        l := l - 16;
        if l <= 0 {
          break;
        }
      }
    }
    a := HashLen16(a, c);
    b := HashLen16(d, b);
    r := Uint128(Xor64(a, b), HashLen16(b, a));
  }

  // ---------- keys of 128 bytes and more ----------

  function Start128(s: Bytes, length: Length, seed: Uint128): State
    requires 128 <= length <= |s|
  {
    hide Add64, Mul64, Xor64, Long64, Fetch64, Rotate64;
    var x := seed.lower;
    var y := seed.higher;
    var z := Mul64(Long64(length), K1);
    var vLower := Add64(Mul64(Rotate64(Xor64(y, K1), 49), K1), Fetch64(s));
    var vHigher := Add64(Mul64(Rotate64(vLower, 42), K1), Fetch64(s[8..]));
    var wLower := Add64(Mul64(Rotate64(Add64(y, z), 35), K1), x);
    var wHigher := Mul64(Rotate64(Add64(x, Fetch64(s[88..])), 53), K1);
    State(x, y, z, Uint128(vLower, vHigher), Uint128(wLower, wHigher))
  }

  function BeforeTail(st: State): State {
    State(Add64(st.x, Mul64(Rotate64(Add64(st.v.lower, st.z), 49), K0)),
          Add64(Mul64(st.y, K0), Rotate64(st.w.higher, 37)),
          Add64(Mul64(st.z, K0), Rotate64(st.w.lower, 27)),
          Uint128(Mul64(st.v.lower, K0), st.v.higher),
          Uint128(Mul64(st.w.lower, Long(9)), st.w.higher))
  }

  /** One 32-byte tail round on the 32 bytes at s. */
  function TailRound(st: State, s: Bytes): State
    requires |s| >= 32
  {
    hide Add64, Mul64, Fetch64, Rotate64, WeakHash32;
    var y := Add64(Mul64(Rotate64(Add64(st.x, st.y), 42), K0), st.v.higher);
    var wLower := Add64(st.w.lower, Fetch64(s[16..]));
    var x := Add64(Mul64(st.x, K0), wLower);
    var z := Add64(st.z, Add64(st.w.higher, Fetch64(s)));
    var v := WeakHash32(s, Add64(st.v.lower, z), st.v.higher);
    State(x, y, z, Uint128(Mul64(v.lower, K0), v.higher), Uint128(wLower, Add64(st.w.higher, st.v.lower)))
  }

  /** n tail rounds, on the last 32 bytes of t, then on the 32 before them, and so on backwards. */
  function TailRounds(st: State, t: Bytes, n: nat): State
    requires 32 * n <= |t|
  {
    if n == 0 then st else TailRound(TailRounds(st, t, n - 1), t[|t| - 32 * n..])
  }

  function Finish128(st: State): Uint128 {
    var x := HashLen16(st.x, st.v.lower);
    var y := HashLen16(Add64(st.y, st.z), st.w.lower);
    Uint128(Add64(HashLen16(Add64(x, st.v.higher), st.w.higher), y),
            HashLen16(Add64(x, st.w.higher), Add64(y, st.v.higher)))
  }

  /** For a key of L >= 128 bytes: 2 * floor(L / 128) rounds from the front,
      then ceil((L mod 128) / 32) tail rounds from the back. */
  function CityHash128WithSeed(s: Bytes, length: Length, seed: Uint128): Uint128
    requires length <= |s|
  {
    if length < 128 then CityMurmur(s, length, seed)
    else
      var st := Rounds(Start128(s, length, seed), s, 2 * (length / 128));
      Finish128(TailRounds(BeforeTail(st), s[..length], (length % 128 + 31) / 32))
  }

  /** The inner loop of the 128-bit hash: two 64-byte rounds written out in each iteration. */
  method UnrolledLoop(st: State, s0: Bytes, length0: Length) returns (after: State, length: Length)
    requires 128 <= length0 <= |s0|
    ensures after == Rounds(st, s0, 2 * (length0 / 128))
    ensures length == length0 % 128
  {
    hide Add64, Mul64, Xor64, Fetch64, Rotate64, WeakHash32;
    var s := s0;
    length := length0;
    var x, y, z, v, w := st.x, st.y, st.z, st.v, st.w;
    while true
      invariant 128 <= length <= |s| && length % 128 == length0 % 128
      invariant Rounds(State(x, y, z, v, w), s, 2 * (length / 128)) == Rounds(st, s0, 2 * (length0 / 128))
      decreases length
    {
      ghost var st0 := State(x, y, z, v, w);
      x := Mul64(Rotate64(Add64(Add64(Add64(x, y), v.lower), Fetch64(s[8..])), 37), K1);
      y := Mul64(Rotate64(Add64(Add64(y, v.higher), Fetch64(s[48..])), 42), K1);
      x := Xor64(x, w.higher);
      y := Add64(y, Add64(v.lower, Fetch64(s[40..])));
      z := Mul64(Rotate64(Add64(z, w.lower), 33), K1);
      v := WeakHash32(s, Mul64(v.higher, K1), Add64(x, w.lower));
      w := WeakHash32(s[32..], Add64(z, w.higher), Add64(y, Fetch64(s[16..])));
      z, x := x, z;
      ghost var st1 := State(x, y, z, v, w);
      assert st1 == Round(st0, s);
      UnfoldRounds(st0, s, 2 * (length / 128));
      s := s[64..];
      x := Mul64(Rotate64(Add64(Add64(Add64(x, y), v.lower), Fetch64(s[8..])), 37), K1);
      y := Mul64(Rotate64(Add64(Add64(y, v.higher), Fetch64(s[48..])), 42), K1);
      x := Xor64(x, w.higher);
      y := Add64(y, Add64(v.lower, Fetch64(s[40..])));
      z := Mul64(Rotate64(Add64(z, w.lower), 33), K1);
      v := WeakHash32(s, Mul64(v.higher, K1), Add64(x, w.lower));
      w := WeakHash32(s[32..], Add64(z, w.higher), Add64(y, Fetch64(s[16..])));
      z, x := x, z;
      assert State(x, y, z, v, w) == Round(st1, s);
      UnfoldRounds(st1, s, 2 * (length / 128) - 1);
      s := s[64..];
      length := length - 128;
      if length < 128 {
        break;
      }
    }
    after := State(x, y, z, v, w);
  }

  /** The tail loop: 32 bytes at a time from the end of t, until length bytes are covered. */
  method TailLoop(st: State, t: Bytes, length: Length) returns (after: State)
    requires length < 128 <= |t|
    ensures after == TailRounds(st, t, (length + 31) / 32)
  {
    hide Add64, Mul64, Xor64, Fetch64, Rotate64, WeakHash32;
    var x, y, z, v, w := st.x, st.y, st.z, st.v, st.w;
    var tailDone := 0;
    while tailDone < length
      invariant tailDone % 32 == 0 && tailDone < length + 32
      invariant State(x, y, z, v, w) == TailRounds(st, t, tailDone / 32)
    {
      ghost var before := State(x, y, z, v, w);
      tailDone := tailDone + 32;
      ghost var back := t[|t| - tailDone..];
      assert t[|t| - tailDone + 16..] == back[16..];
      y := Add64(Mul64(Rotate64(Add64(x, y), 42), K0), v.higher);
      w := w.(lower := Add64(w.lower, Fetch64(t[|t| - tailDone + 16..])));
      x := Add64(Mul64(x, K0), w.lower);
      z := Add64(z, Add64(w.higher, Fetch64(t[|t| - tailDone..])));
      w := w.(higher := Add64(w.higher, v.lower));
      v := WeakHash32(t[|t| - tailDone..], Add64(v.lower, z), v.higher);
      v := v.(lower := Mul64(v.lower, K0));
      assert State(x, y, z, v, w) == TailRound(before, back);
    }
    after := State(x, y, z, v, w);
  }

  method ComputeCityHash128WithSeed(s: Bytes, length0: Length, seed: Uint128) returns (r: Uint128)
    requires length0 <= |s|
    ensures r == CityHash128WithSeed(s, length0, seed)
  {
    hide CityMurmur, Start128, Rounds, BeforeTail, TailRounds, Finish128;
    if length0 < 128 {
      r := ComputeCityMurmur(s, length0, seed);
      return;
    }
    var st, length := UnrolledLoop(Start128(s, length0, seed), s, length0);
    st := TailLoop(BeforeTail(st), s[..length0], length);
    r := Finish128(st);
  }

  lemma UnfoldRounds(st: State, s: Bytes, n: nat)
    requires 1 <= n && 64 * n <= |s|
    ensures Rounds(st, s, n) == Rounds(Round(st, s), s[64..], n - 1)
  {
    hide Round;
  }
}
