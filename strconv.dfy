/** A model of Go's `strconv.Atoi` on a 64-bit platform: an optional sign
    followed by at least one decimal digit, whose value must fit in `int`.
    `Itoa` renders an integer back, and `AtoiItoa` proves the round trip. */
module Strconv {

  datatype Option<T> = None | Some(value: T)

  /** Range of Go's `int` on a 64-bit platform. */
  const MinInt: int := -0x8000_0000_0000_0000
  const MaxInt: int := 0x7FFF_FFFF_FFFF_FFFF

  predicate IsDigit(c: char) {
    '0' <= c <= '9'
  }

  predicate AllDigits(s: string) {
    forall i :: 0 <= i < |s| ==> IsDigit(s[i])
  }

  function DigitValue(c: char): (d: nat)
    requires IsDigit(c)
    ensures d < 10
  {
    c as int - '0' as int
  }

  function DigitChar(d: nat): (c: char)
    requires d < 10
    ensures IsDigit(c) && DigitValue(c) == d
  {
    ('0' as int + d) as char
  }

  /** The value of a run of decimal digits, most significant digit first. */
  function DecimalValue(s: string): nat
    requires AllDigits(s)
    decreases |s|
  {
    if s == [] then 0 else DecimalValue(s[..|s| - 1]) * 10 + DigitValue(s[|s| - 1])
  }

  /** The digits after an optional leading sign. */
  function Unsigned(s: string): string {
    if |s| > 0 && (s[0] == '+' || s[0] == '-') then s[1..] else s
  }

  /** The value of a sign followed by digits: negated after a leading `-`. */
  function SignedValue(s: string): int
    requires |Unsigned(s)| > 0 && AllDigits(Unsigned(s))
  {
    if s[0] == '-' then 0 - DecimalValue(Unsigned(s)) else DecimalValue(Unsigned(s))
  }

  /** Parses `s` as a signed decimal integer; `None` is Go's non-nil error
      (no digits, a non-digit character, or a value outside `int`). */
  function Atoi(s: string): (r: Option<int>)
    ensures r.Some? ==> MinInt <= r.value <= MaxInt
    ensures r.Some? ==> |Unsigned(s)| > 0 && AllDigits(Unsigned(s))
    ensures r.Some? ==> r.value == SignedValue(s)
  {
    var digits := Unsigned(s);
    if digits == [] || !AllDigits(digits) then None
    else
      var v := SignedValue(s);
      if MinInt <= v <= MaxInt then Some(v) else None
  }

  /** The shortest decimal rendering of a natural number. */
  function NatDigits(n: nat): (s: string)
    ensures |s| > 0 && AllDigits(s)
    decreases n
  {
    if n < 10 then [DigitChar(n)] else NatDigits(n / 10) + [DigitChar(n % 10)]
  }

  /** Go's `strconv.Itoa`: a minus sign for negative numbers, then the digits. */
  function Itoa(n: int): string {
    if n < 0 then "-" + NatDigits(-n) else NatDigits(n)
  }

  lemma {:induction false} DecimalValueOfNatDigits(n: nat)
    ensures DecimalValue(NatDigits(n)) == n
    decreases n
  {
    var s := NatDigits(n);
    if n >= 10 {
      assert s[..|s| - 1] == NatDigits(n / 10);
      DecimalValueOfNatDigits(n / 10);
    }
  }

  /** Every `int` is parsed back from its own rendering. */
  lemma AtoiItoa(n: int)
    requires MinInt <= n <= MaxInt
    ensures Atoi(Itoa(n)) == Some(n)
  {
    var s := Itoa(n);
    if n < 0 {
      assert Unsigned(s) == NatDigits(-n);
      DecimalValueOfNatDigits(-n);
    } else {
      assert IsDigit(s[0]);
      assert Unsigned(s) == NatDigits(n);
      DecimalValueOfNatDigits(n);
    }
  }

  /** The accepting direction: any optional sign followed by one or more
      digits whose value fits in `int` parses to that value, including
      non-canonical text such as `+5` or `007`. */
  lemma AtoiAccepts(s: string)
    requires |Unsigned(s)| > 0 && AllDigits(Unsigned(s))
    requires MinInt <= SignedValue(s) <= MaxInt
    ensures Atoi(s) == Some(SignedValue(s))
  {
  }

  /** A character that is neither a digit nor a leading sign makes the parse fail. */
  lemma AtoiRejectsNonDigit(s: string, i: nat)
    requires i < |s| && !IsDigit(s[i])
    requires i > 0 || (s[i] != '+' && s[i] != '-')
    ensures Atoi(s) == None
  {
  }
}
