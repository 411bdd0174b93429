// Decimal strings of 64-bit integers: strconv.Itoa and strconv.Atoi as db.go uses them.
module Decimal {
  import opened Events

  const MIN_INT: int := -0x8000_0000_0000_0000
  const MAX_INT: int := 0x7FFF_FFFF_FFFF_FFFF

  predicate IsDigit(c: char) {
    '0' <= c <= '9'
  }

  function Digit(d: nat): (c: char)
    requires d < 10
    ensures IsDigit(c) && DigitValue(c) == d
  {
    '0' + d as char
  }

  function DigitValue(c: char): (d: nat)
    requires IsDigit(c)
    ensures d < 10
  {
    (c - '0') as int
  }

  function Digits(n: nat): (s: string)
    ensures s != ""
  {
    if n < 10 then [Digit(n)] else Digits(n / 10) + [Digit(n % 10)]
  }

  function Itoa(n: int): string {
    if n < 0 then "-" + Digits(-n) else Digits(n)
  }

  // The number of a string of digits; None when it holds anything else.
  function Parse(s: string): Option<nat> {
    if s == "" then Some(0)
    else
      var c := s[|s| - 1];
      var rest := Parse(s[..|s| - 1]);
      if !IsDigit(c) || rest.None? then None else Some(rest.value * 10 + DigitValue(c))
  }

  function Atoi(s: string): Option<int> {
    var signed := s != "" && (s[0] == '-' || s[0] == '+');
    var body := if signed then s[1..] else s;
    var n := Parse(body);
    if body == "" || n.None? then None
    else
      var v: int := if signed && s[0] == '-' then 0 - n.value else n.value;
      if MIN_INT <= v <= MAX_INT then Some(v) else None
  }

  lemma {:induction false} ParseDigits(n: nat)
    ensures Parse(Digits(n)) == Some(n) && IsDigit(Digits(n)[0])
  {
    var s := Digits(n);
    if n < 10 {
      assert s[..0] == "";
    } else {
      ParseDigits(n / 10);
      assert s[..|s| - 1] == Digits(n / 10);
    }
  }

  lemma AtoiOfDigits(s: string)
    requires s != "" && IsDigit(s[0]) && Parse(s).Some? && Parse(s).value <= MAX_INT
    ensures Atoi(s) == Some(Parse(s).value)
  {
  }

  lemma AtoiOfMinus(s: string)
    requires s != "" && Parse(s).Some? && Parse(s).value <= -MIN_INT
    ensures Atoi("-" + s) == Some(0 - Parse(s).value)
  {
    assert ("-" + s)[1..] == s;
  }

  // The counter survives being written and read back.
  lemma AtoiInvertsItoa(n: int)
    requires MIN_INT <= n <= MAX_INT
    ensures Atoi(Itoa(n)) == Some(n)
  {
    if n < 0 {
      ParseDigits(-n);
      AtoiOfMinus(Digits(-n));
    } else {
      ParseDigits(n);
      AtoiOfDigits(Digits(n));
    }
  }

  // Decimal it is: one more digit on the right is ten times the number and the digit.
  lemma DecimalDigits(n: nat, d: nat)
    requires d < 10
    ensures Itoa(d) == [(48 + d) as char]
    ensures n > 0 ==> Itoa(10 * n + d) == Itoa(n) + [(48 + d) as char]
    ensures n > 0 ==> Itoa(0 - n) == "-" + Itoa(n)
  {
    if n > 0 { assert (10 * n + d) / 10 == n && (10 * n + d) % 10 == d; }
  }
}
