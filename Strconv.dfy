/** The part of Go's `strconv` package the operator uses: `Atoi` (decimal,
    for a 64-bit `int`), with `Itoa` as its inverse, and the `int32(x)`
    conversion that keeps the low 32 bits. */
module Strconv {
  import opened Wrappers

  newtype int32 = x: int | -0x8000_0000 <= x < 0x8000_0000

  const Int64Min: int := -0x8000_0000_0000_0000
  const Int64Max: int := 0x7FFF_FFFF_FFFF_FFFF

  /** `strconv.ErrSyntax` and `strconv.ErrRange`. */
  datatype NumError = ErrSyntax | ErrRange

  predicate IsDigit(c: char) {
    '0' <= c <= '9'
  }

  predicate AllDigits(s: string) {
    forall i :: 0 <= i < |s| ==> IsDigit(s[i])
  }

  /** The value of a string of decimal digits, most significant first. */
  function DecimalValue(s: string): nat
    requires AllDigits(s)
    decreases |s|
  {
    if |s| == 0 then 0
    else
      DecimalValue(s[..|s| - 1]) * 10 + (s[|s| - 1] as int - '0' as int)
  }

  /** What follows an optional leading '+' or '-'. */
  function Unsigned(s: string): (u: string)
    ensures |u| <= |s|
  {
    if |s| > 0 && (s[0] == '+' || s[0] == '-') then s[1..] else s
  }

  /** An optional sign followed by one or more decimal digits. */
  predicate WellFormed(s: string) {
    |Unsigned(s)| > 0 && AllDigits(Unsigned(s))
  }

  /** The value the text denotes: its digits, negated after a '-'. */
  function SignedValue(s: string): int
    requires WellFormed(s)
  {
    var magnitude: int := DecimalValue(Unsigned(s));
    if s[0] == '-' then -magnitude else magnitude
  }

  /** `strconv.Atoi(s)`: an optional sign followed by one or more decimal
      digits, whose value must lie in the range of a 64-bit `int`. */
  function Atoi(s: string): (r: Result<int, NumError>)
    ensures r == Err(ErrSyntax) <==> !WellFormed(s)
    ensures WellFormed(s) ==> (r.Ok? <==> Int64Min <= SignedValue(s) <= Int64Max)
    ensures r.Ok? ==> WellFormed(s) && r.value == SignedValue(s)
  {
    var digits := Unsigned(s);
    if |digits| == 0 || !AllDigits(digits) then Err(ErrSyntax)
    else
      var magnitude: int := DecimalValue(digits);
      var v: int := if s[0] == '-' then -magnitude else magnitude;
      if v < Int64Min || Int64Max < v then Err(ErrRange) else Ok(v)
  }

  /** Any value `Atoi` returns lies in the 64-bit range, and it is
      negative only after a leading '-'. */
  lemma AtoiBounds(s: string)
    requires Atoi(s).Ok?
    ensures Int64Min <= Atoi(s).value <= Int64Max
    ensures s[0] != '-' ==> Atoi(s).value >= 0
  {
  }

  function DigitChar(d: nat): (c: char)
    requires d < 10
    ensures IsDigit(c) && c as int - '0' as int == d
  {
    ('0' as int + d) as char
  }

  /** The decimal digits of `n`, without leading zeros. */
  function Digits(n: nat): (s: string)
    ensures |s| >= 1 && AllDigits(s)
    decreases n
  {
    if n < 10 then [DigitChar(n)]
    else Digits(n / 10) + [DigitChar(n % 10)]
  }

  /** `strconv.Itoa(n)`. */
  function Itoa(n: int): string {
    if n < 0 then "-" + Digits(-n) else Digits(n)
  }

  lemma {:induction false} DigitsValue(n: nat)
    ensures DecimalValue(Digits(n)) == n
    decreases n
  {
    if n >= 10 {
      DigitsValue(n / 10);
      var s := Digits(n);
      assert s[..|s| - 1] == Digits(n / 10);
    }
  }

  /** `Atoi` reads back what `Itoa` writes, for every 64-bit `int`. */
  lemma AtoiItoa(n: int)
    requires Int64Min <= n <= Int64Max
    ensures Atoi(Itoa(n)) == Ok(n)
  {
    var s := Itoa(n);
    if n < 0 {
      DigitsValue(-n);
      assert Unsigned(s) == Digits(-n);
    } else {
      DigitsValue(n);
      assert IsDigit(Digits(n)[0]);
      assert Unsigned(s) == Digits(n);
    }
  }

  lemma {:induction false} ZerosValue(z: string)
    requires forall i :: 0 <= i < |z| ==> z[i] == '0'
    ensures AllDigits(z) && DecimalValue(z) == 0
    decreases |z|
  {
    if |z| > 0 {
      ZerosValue(z[..|z| - 1]);
    }
  }

  /** Leading zeros do not change the value of a digit string. */
  lemma {:induction false} LeadingZerosValue(z: string, d: string)
    requires forall i :: 0 <= i < |z| ==> z[i] == '0'
    requires AllDigits(d)
    ensures AllDigits(z + d) && DecimalValue(z + d) == DecimalValue(d)
    decreases |d|
  {
    if |d| == 0 {
      assert z + d == z;
      ZerosValue(z);
    } else {
      var s := z + d;
      assert s[..|s| - 1] == z + d[..|d| - 1];
      assert s[|s| - 1] == d[|d| - 1];
      LeadingZerosValue(z, d[..|d| - 1]);
    }
  }

  /** Zeros after the optional sign leave the result of `Atoi` unchanged:
      `"080"` reads as `"80"` and `"-00"` as `"-0"`. */
  lemma AtoiLeadingZeros(sign: string, z: string, d: string)
    requires sign == "" || sign == "+" || sign == "-"
    requires forall i :: 0 <= i < |z| ==> z[i] == '0'
    requires |d| > 0 && AllDigits(d)
    ensures Atoi(sign + z + d) == Atoi(sign + d)
  {
    var s := sign + z + d;
    var t := sign + d;
    assert Unsigned(s) == z + d && Unsigned(t) == d && (s[0] == '-' <==> t[0] == '-') by {
      if sign == "" {
        assert s == z + d && t == d;
        assert IsDigit(s[0]) && IsDigit(d[0]);
      } else {
        assert s[0] == sign[0] && t[0] == sign[0];
      }
    }
    assert WellFormed(s) && WellFormed(t) && SignedValue(s) == SignedValue(t) by {
      LeadingZerosValue(z, d);
    }
  }

  /** Decimal digits of `n` after any run of zeros read back as `n`. */
  lemma AtoiZerosDigits(z: string, n: nat)
    requires forall i :: 0 <= i < |z| ==> z[i] == '0'
    requires n <= Int64Max
    ensures AllDigits(z + Digits(n))
    ensures Atoi(z + Digits(n)) == Ok(n)
  {
    var s := z + Digits(n);
    assert AllDigits(s) && DecimalValue(s) == n && |s| > 0 by {
      LeadingZerosValue(z, Digits(n));
      DigitsValue(n);
    }
    assert Unsigned(s) == s by {
      assert IsDigit(s[0]);
    }
  }

  /** A '+' before the digits changes nothing, and "-0" is 0. */
  lemma AtoiPlus(d: string)
    requires AllDigits(d)
    ensures Atoi("+" + d) == Atoi(d)
  {
    var s := "+" + d;
    assert Unsigned(s) == d;
    if |d| > 0 {
      assert IsDigit(d[0]);
    }
  }

  lemma AtoiNegativeZero(s: string)
    requires s == "-0"
    ensures Atoi(s) == Ok(0)
  {
    assert s[0] == '-' && Unsigned(s) == "0";
    ZerosValue("0");
  }

  /** No text `Itoa` produces contains anything but a sign and digits. */
  lemma ItoaChars(n: int, c: char)
    requires c in Itoa(n)
    ensures c == '-' || IsDigit(c)
  {
    var s := Itoa(n);
    var i :| 0 <= i < |s| && s[i] == c;
    if n < 0 {
      assert i > 0 ==> s[i] == Digits(-n)[i - 1];
    }
  }

  /** Go's `int32(n)`: the value congruent to `n` modulo 2^32 in the
      range of a 32-bit integer. */
  function ToInt32(n: int): (r: int32)
    ensures -0x8000_0000 <= n < 0x8000_0000 ==> r as int == n
    ensures (n - r as int) % 0x1_0000_0000 == 0
  {
    ((n + 0x8000_0000) % 0x1_0000_0000 - 0x8000_0000) as int32
  }
}
