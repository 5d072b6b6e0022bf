/** The 32-bit CityHash of tools/cityhash.go, which chooses a user's bucket. */
module City32 {
  import opened Words

  const C1: bv32 := 0xcc9e2d51
  const C2: bv32 := 0x1b873593
  const MIX: bv32 := 0xe6546b64

  const FMIX1: bv32 := 0x85ebca6b
  const FMIX2: bv32 := 0xc2b2ae35

  function XorShift(h: bv32, shift: bv32): bv32
    requires shift < 32
  {
    Xor32(h, Shr32(h, shift))
  }

  function Fmix(h: bv32): bv32 {
    var h := XorShift(h, 16);
    var h := Mul32(h, FMIX1);
    var h := XorShift(h, 13);
    var h := Mul32(h, FMIX2);
    XorShift(h, 16)
  }

  function Scramble(a: bv32): bv32 {
    Mul32(Rotate32(Mul32(a, C1), 17), C2)
  }

  /** rotate32(h, shift) * 5 + 0xe6546b64, the step every accumulator update ends with. */
  function Stir(h: bv32, shift: bv32): bv32
    requires shift < 32
  {
    Add32(Mul32(Rotate32(h, shift), 5), MIX)
  }

  function Mur(a: bv32, h: bv32): bv32 {
    Stir(Xor32(h, Scramble(a)), 19)
  }

  function Hash32Len13to24(s: Bytes, length: Length): bv32
    requires 13 <= length <= 24 && length <= |s|
  {
    var a := Fetch32(s[length / 2 - 4..]);
    var b := Fetch32(s[4..]);
    var c := Fetch32(s[length - 8..]);
    var d := Fetch32(s[length / 2..]);
    var e := Fetch32(s);
    var f := Fetch32(s[length - 4..]);
    Fmix(Mur(f, Mur(e, Mur(d, Mur(c, Mur(b, Mur(a, Word32(length))))))))
  }

  /** One byte is widened through int8, so bytes above 0x7f are sign-extended. */
  function SignExtend(v: bv8): bv32 {
    if v < 0x80 then v as bv32 else (v as bv32) | 0xffffff00
  }

  datatype Accumulator = Accumulator(b: bv32, c: bv32)

  function AbsorbByte(acc: Accumulator, v: bv8): Accumulator {
    var b := Add32(Mul32(acc.b, C1), SignExtend(v));
    Accumulator(b, Xor32(acc.c, b))
  }

  function AbsorbBytes(acc: Accumulator, s: Bytes): Accumulator {
    if s == [] then acc else AbsorbByte(AbsorbBytes(acc, s[..|s| - 1]), s[|s| - 1])
  }

  function Hash32Len0to4(s: Bytes, length: Length): bv32
    requires length <= 4 && length <= |s|
  {
    var acc := AbsorbBytes(Accumulator(0, 9), s[..length]);
    Fmix(Mur(acc.b, Mur(Word32(length), acc.c)))
  }

  function Hash32Len5to12(s: Bytes, length: Length): bv32
    requires 5 <= length <= 12 && length <= |s|
  {
    hide Add32, Mul32, Word32, Fmix, Mur, Fetch32;
    var d := Mul32(Word32(length), 5);
    var a := Add32(Word32(length), Fetch32(s));
    var b := Add32(d, Fetch32(s[length - 4..]));
    // (length >> 1) & 4
    var c := Add32(9, Fetch32(s[length / 2 / 4 * 4..]));
    Fmix(Mur(c, Mur(b, Mur(a, d))))
  }

  /** The three accumulators of the long-key loop. */
  datatype State = State(f: bv32, g: bv32, h: bv32)

  function Prologue(s: Bytes, length: Length): State
    requires 24 < length <= |s|
  {
    var a0 := Scramble(Fetch32(s[length - 4..]));
    var a1 := Scramble(Fetch32(s[length - 8..]));
    var a2 := Scramble(Fetch32(s[length - 16..]));
    var a3 := Scramble(Fetch32(s[length - 12..]));
    var a4 := Scramble(Fetch32(s[length - 20..]));
    var n := Word32(length);
    State(Stir(Add32(Mul32(C1, n), a4), 19),
          Stir(Xor32(Stir(Xor32(Mul32(C1, n), a1), 19), a3), 19),
          Stir(Xor32(Stir(Xor32(n, a0), 19), a2), 19))
  }

  /** One 20-byte block. */
  function Block(st: State, s: Bytes): State
    requires |s| >= 20
  {
    Churn(st, Scramble(Fetch32(s)), Fetch32(s[4..]), Scramble(Fetch32(s[8..])), Scramble(Fetch32(s[12..])),
          Fetch32(s[16..]))
  }

  /** One block on its five words; the accumulators are permuted at the end. */
  function Churn(st: State, a0: bv32, a1: bv32, a2: bv32, a3: bv32, a4: bv32): State {
    State(Mul32(Bswap32(Xor32(Stir(Add32(st.g, a2), 18), a4)), 5),
          Bswap32(Add32(Stir(Xor32(Stir(Xor32(st.h, a0), 18), Add32(a3, a1)), 19), Mul32(a4, 5))),
          Add32(Mul32(Rotate32(Add32(st.f, a1), 19), C1), a0))
  }

  /** n consecutive blocks from the front of s. */
  function Blocks(st: State, s: Bytes, n: nat): State
    requires |s| >= 20 * n
    decreases n
  {
    if n == 0 then st else Blocks(Block(st, s), s[20..], n - 1)
  }

  function Epilogue(st: State): bv32 {
    var g := Mul32(Rotate32(Mul32(Rotate32(st.g, 11), C1), 17), C1);
    var f := Mul32(Rotate32(Mul32(Rotate32(st.f, 11), C1), 17), C1);
    var h := Mul32(Rotate32(Stir(Add32(st.h, g), 19), 17), C1);
    Mul32(Rotate32(Stir(Add32(h, f), 19), 17), C1)
  }

  function CityHash32(s: Bytes, length: Length): bv32
    requires length <= |s|
  {
    if length <= 4 then Hash32Len0to4(s, length)
    else if length <= 12 then Hash32Len5to12(s, length)
    else if length <= 24 then Hash32Len13to24(s, length)
    else Epilogue(Blocks(Prologue(s, length), s, (length - 1) / 20))
  }

  // ---------- the loops ----------

  method ComputeHash32Len0to4(s: Bytes, length: Length) returns (r: bv32)
    requires length <= 4 && length <= |s|
    ensures r == CityHash32(s, length)
  {
    hide Add32, Mul32, Xor32, Word32, Mur, Fmix, SignExtend;
    var b: bv32, c: bv32 := 0, 9;
    var tmp := s[..length];
    for i := 0 to |tmp|
      invariant Accumulator(b, c) == AbsorbBytes(Accumulator(0, 9), tmp[..i])
    {
      assert tmp[..i + 1][..i] == tmp[..i];
      b := Add32(Mul32(b, C1), SignExtend(tmp[i]));
      c := Xor32(c, b);
    }
    assert tmp[..|tmp|] == tmp;
    r := Fmix(Mur(b, Mur(Word32(length), c)));
  }

  method ComputeCityHash32(s0: Bytes, length: Length) returns (r: bv32)
    requires length <= |s0|
    ensures r == CityHash32(s0, length)
  {
    hide Add32, Mul32, Xor32, Word32, Fetch32, Rotate32, Bswap32, Fmix, Scramble, Stir, Mur, Epilogue;
    var s := s0;
    if length <= 4 {
      r := ComputeHash32Len0to4(s, length);
      return;
    } else if length <= 12 {
      return Hash32Len5to12(s, length);
    } else if length <= 24 {
      return Hash32Len13to24(s, length);
    }
    var h := Word32(length);
    var g := Mul32(C1, h);
    var f := g;
    var a0 := Scramble(Fetch32(s[length - 4..]));
    var a1 := Scramble(Fetch32(s[length - 8..]));
    var a2 := Scramble(Fetch32(s[length - 16..]));
    var a3 := Scramble(Fetch32(s[length - 12..]));
    var a4 := Scramble(Fetch32(s[length - 20..]));
    h := Xor32(h, a0);
    h := Stir(h, 19);
    h := Xor32(h, a2);
    h := Stir(h, 19);
    g := Xor32(g, a1);
    g := Stir(g, 19);
    g := Xor32(g, a3);
    g := Stir(g, 19);
    f := Add32(f, a4);
    f := Stir(f, 19);
    assert State(f, g, h) == Prologue(s, length);
    hide Prologue, Hash32Len0to4, Hash32Len5to12, Hash32Len13to24;
    var iters := (length - 1) / 20;
    while true
      invariant 1 <= iters && 20 * iters < |s|
      invariant Blocks(State(f, g, h), s, iters) == Blocks(Prologue(s0, length), s0, (length - 1) / 20)
      decreases iters
    {
      ghost var before := State(f, g, h);
      a0 := Scramble(Fetch32(s));
      a1 := Fetch32(s[4..]);
      a2 := Scramble(Fetch32(s[8..]));
      a3 := Scramble(Fetch32(s[12..]));
      a4 := Fetch32(s[16..]);
      h := Xor32(h, a0);
      h := Stir(h, 18);
      f := Add32(f, a1);
      f := Rotate32(f, 19);
      f := Mul32(f, C1);
      g := Add32(g, a2);
      g := Stir(g, 18);
      h := Xor32(h, Add32(a3, a1));
      h := Stir(h, 19);
      g := Xor32(g, a4);
      g := Mul32(Bswap32(g), 5);
      h := Add32(h, Mul32(a4, 5));
      h := Bswap32(h);
      f := Add32(f, a0);
      f, h := h, f;
      f, g := g, f;
      assert State(f, g, h) == Block(before, s);
      s := s[20..];
      iters := iters - 1;
      if iters == 0 {
        break;
      }
    }
    r := Epilogue(State(f, g, h));
  }
}
