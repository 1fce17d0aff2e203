/** Decimal printing and parsing of integers, as Go's strconv does them. */
module Decimal {
  import opened Api

  function Digit(d: nat): (c: char)
    requires d < 10
  {
    ('0' as int + d) as char
  }

  function Digits(n: nat): string {
    if n < 10 then [Digit(n)] else Digits(n / 10) + [Digit(n % 10)]
  }

  function Itoa(n: int): string {
    if n < 0 then "-" + Digits(-n) else Digits(n)
  }

  /** The value of an all-digit string; None for an empty string or any other character. */
  function ParseDigits(s: string): Option<nat> {
    if s == "" || !('0' <= s[|s| - 1] <= '9') then None
    else
      var d: nat := s[|s| - 1] as int - '0' as int;
      if |s| == 1 then Some(d)
      else match ParseDigits(s[..|s| - 1])
        case None => None
        case Some(n) => Some(10 * n + d)
  }

  function ParseInt(s: string, min: int, max: int): Option<int> {
    var negative := s != "" && s[0] == '-';
    var signed := s != "" && (s[0] == '-' || s[0] == '+');
    match ParseDigits(if signed then s[1..] else s)
    case None => None
    case Some(n) =>
      var magnitude: int := n;
      var v := if negative then -magnitude else magnitude;
      if min <= v <= max then Some(v) else None
  }

  const MIN_INT32: int := -0x8000_0000
  const MAX_INT32: int := 0x7fff_ffff
  const MIN_INT64: int := -0x8000_0000_0000_0000
  const MAX_INT64: int := 0x7fff_ffff_ffff_ffff

  lemma {:induction false} ParseDigitsRoundTrip(n: nat)
    ensures ParseDigits(Digits(n)) == Some(n)
    ensures |Digits(n)| > 0 && '0' <= Digits(n)[0] <= '9'
  {
    if n < 10 {
    } else {
      ParseDigitsRoundTrip(n / 10);
      var s := Digits(n);
      assert s[..|s| - 1] == Digits(n / 10);
    }
  }

  predicate AllDigits(s: string) {
    forall i | 0 <= i < |s| :: '0' <= s[i] <= '9'
  }

  lemma DigitsBehind(s: string)
    requires s != ""
    ensures AllDigits(s) <==> AllDigits(s[..|s| - 1]) && '0' <= s[|s| - 1] <= '9'
  {
    var front := s[..|s| - 1];
    assert forall i | 0 <= i < |front| :: front[i] == s[i];
  }

  /** Exactly the non-empty strings of digits are numbers. */
  lemma {:induction false} DigitsAreNumbers(s: string)
    ensures ParseDigits(s).Some? <==> s != "" && AllDigits(s)
  {
    if s == "" {
    } else {
      DigitsBehind(s);
      if |s| == 1 {
        assert AllDigits(s[..0]);
      } else {
        DigitsAreNumbers(s[..|s| - 1]);
      }
      hide AllDigits;
    }
  }

  /** What is read is in range, and has a sign or a digit in front and digits behind. */
  lemma ParsedIsInRange(s: string, min: int, max: int)
    requires ParseInt(s, min, max).Some?
    ensures min <= ParseInt(s, min, max).value <= max
    ensures s != "" && (s[0] == '-' || s[0] == '+' || '0' <= s[0] <= '9') && AllDigits(s[1..])
    ensures s[0] == '-' ==> ParseInt(s, min, max).value <= 0
    ensures s[0] != '-' ==> ParseInt(s, min, max).value >= 0
  {
    DigitsAreNumbers(s);
    DigitsAreNumbers(s[1..]);
  }

  lemma SignedIsParsed(n: int, min: int, max: int)
    requires n > 0 && min <= -n <= max
    ensures ParseInt("-" + Digits(n), min, max) == Some(-n)
  {
    ParseDigitsRoundTrip(n);
    hide Digits, ParseDigits;
    assert ("-" + Digits(n))[1..] == Digits(n);
  }

  lemma UnsignedIsParsed(n: nat, min: int, max: int)
    requires min <= n <= max
    ensures ParseInt(Digits(n), min, max) == Some(n)
  {
    ParseDigitsRoundTrip(n);
    hide Digits, ParseDigits;
  }

  /** Every printed integer reads back as itself. */
  lemma ParseIntRoundTrip(n: int, min: int, max: int)
    requires min <= n <= max
    ensures ParseInt(Itoa(n), min, max) == Some(n)
    ensures Itoa(n) != ""
  {
    hide ParseInt, Digits;
    if n < 0 {
      SignedIsParsed(-n, min, max);
    } else {
      UnsignedIsParsed(n, min, max);
      ParseDigitsRoundTrip(n);
    }
  }
}
