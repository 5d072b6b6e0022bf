/** Decimal formatting of Go integers, as fmt's %d and strconv.Itoa print them. */
module Decimals {
  function Digit(d: nat): char
    requires d < 10
  {
    '0' + d as char
  }

  predicate IsDigit(c: char) { '0' <= c <= '9' }

  function Digits(n: nat): (s: string)
    ensures s != [] && forall c | c in s :: IsDigit(c)
  {
    if n < 10 then [Digit(n)] else Digits(n / 10) + [Digit(n % 10)]
  }

  function Decimal(n: int): (s: string)
    ensures s != [] && forall c | c in s :: c == '-' || IsDigit(c)
  {
    if n < 0 then "-" + Digits(-n) else Digits(n)
  }

  function Ascii(c: char): bv8
    requires c == '-' || IsDigit(c)
  {
    c as bv8
  }

  /** The ASCII bytes of a decimal. */
  function Bytes(s: string): seq<bv8>
    requires forall c | c in s :: c == '-' || IsDigit(c)
  {
    seq(|s|, i requires 0 <= i < |s| => assert s[i] in s; Ascii(s[i]))
  }

  function Value(s: string): int
    requires forall c | c in s :: IsDigit(c)
  {
    if s == [] then 0
    else assert forall c | c in s[..|s| - 1] :: c in s; 10 * Value(s[..|s| - 1]) + (s[|s| - 1] as int - '0' as int)
  }

  lemma {:induction false} DigitsRoundTrip(n: nat)
    ensures Value(Digits(n)) == n
  {
    var s := Digits(n);
    if n < 10 {
      assert s[..|s| - 1] == [];
    } else {
      DigitsRoundTrip(n / 10);
      assert s[..|s| - 1] == Digits(n / 10);
    }
  }

  lemma SignShows(n: int)
    ensures Decimal(n)[0] == '-' <==> n < 0
  {
    if n >= 0 {
      assert Digits(n)[0] in Digits(n);
    }
  }

  /** Different integers print differently. */
  lemma DecimalInjective(m: int, n: int)
    requires Decimal(m) == Decimal(n)
    ensures m == n
  {
    SignShows(m);
    SignShows(n);
    if m < 0 {
      assert Decimal(m)[1..] == Digits(-m) && Decimal(n)[1..] == Digits(-n);
      DigitsRoundTrip(-m);
      DigitsRoundTrip(-n);
    } else {
      DigitsRoundTrip(m);
      DigitsRoundTrip(n);
    }
  }

  function Pow10(k: nat): nat {
    if k == 0 then 1 else 10 * Pow10(k - 1)
  }

  lemma {:induction false} DigitsLength(n: nat, k: nat)
    requires 1 <= k && n < Pow10(k)
    ensures |Digits(n)| <= k
  {
    if n >= 10 {
      assert k > 1 by {
        assert Pow10(1) == 10 * Pow10(0);
      }
      DigitsLength(n / 10, k - 1);
    }
  }

  /** A 64-bit integer prints in at most 20 characters. */
  lemma DecimalLength(n: int)
    requires -0x8000_0000_0000_0000 <= n < 0x8000_0000_0000_0000
    ensures |Decimal(n)| <= 20
  {
    assert Pow10(19) == 10_000_000_000_000_000_000 by {
      assert Pow10(4) == 10_000;
      assert Pow10(8) == 100_000_000;
      assert Pow10(12) == 1_000_000_000_000;
      assert Pow10(16) == 10_000_000_000_000_000;
    }
    DigitsLength(if n < 0 then -n else n, 19);
  }

  /** The bytes determine the number, and a number is printed behind its tenth. */
  lemma BytesInjective(m: int, n: int)
    requires Bytes(Decimal(m)) == Bytes(Decimal(n))
    ensures m == n
  {
    var s, t := Decimal(m), Decimal(n);
    assert |Bytes(s)| == |s| && |Bytes(t)| == |t|;
    forall i | 0 <= i < |s|
      ensures s[i] == t[i]
    {
      assert s[i] in s && t[i] in t;
      AsciiInjective(s[i], t[i]);
      assert Bytes(s)[i] == Bytes(t)[i];
    }
    DecimalInjective(m, n);
  }

  lemma AsciiInjective(c: char, d: char)
    requires (c == '-' || IsDigit(c)) && (d == '-' || IsDigit(d)) && Ascii(c) == Ascii(d)
    ensures c == d
  {
  }

  lemma TenthIsPrefix(n: nat)
    requires n >= 10
    ensures var s, t := Bytes(Decimal(n)), Bytes(Decimal(n / 10)); |s| == |t| + 1 && s[..|t|] == t
  {
    assert Digits(n) == Digits(n / 10) + [Digit(n % 10)];
  }

  const ASCII_DIGITS: seq<bv8> := [48, 49, 50, 51, 52, 53, 54, 55, 56, 57]

  lemma AsciiOfDigit(d: nat)
    requires d < 10
    ensures Ascii(Digit(d)) == ASCII_DIGITS[d]
  {
    if d < 5 {
      if d == 0 {} else if d == 1 {} else if d == 2 {} else if d == 3 {} else {}
    } else {
      if d == 5 {} else if d == 6 {} else if d == 7 {} else if d == 8 {} else {}
    }
  }

  /** The bytes of a number, digit by digit. */
  lemma BytesOfDigits(n: nat)
    ensures Bytes(Decimal(n))
         == (if n < 10 then [] else Bytes(Decimal(n / 10))) + [ASCII_DIGITS[n % 10]]
  {
    AsciiOfDigit(n % 10);
    if n >= 10 {
      TenthIsPrefix(n);
    }
    var s := Bytes(Decimal(n));
    assert s == s[..|s| - 1] + [s[|s| - 1]];
  }
}
