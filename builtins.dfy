/** The few Python built-ins the core leans on: `str()` of an integer,
    `int()` of a string, and `str.lower()`. */
module Builtins {

  datatype Option<+T> = None | Some(value: T)

  predicate IsDigit(ch: char) {
    '0' <= ch <= '9'
  }

  predicate AllDigits(s: string) {
    forall i | 0 <= i < |s| :: IsDigit(s[i])
  }

  function DigitChar(n: nat): (ch: char)
    requires n < 10
    ensures IsDigit(ch)
  {
    ['0', '1', '2', '3', '4', '5', '6', '7', '8', '9'][n]
  }

  function DigitValue(ch: char): nat
    requires IsDigit(ch)
  {
    (ch as int - '0' as int) as nat
  }

  /** Decimal digits of a natural number, most significant first, no leading zeros. */
  function Digits(n: nat): (s: string)
    ensures 0 < |s|
  {
    if n < 10 then [DigitChar(n)] else Digits(n / 10) + [DigitChar(n % 10)]
  }

  /** The number a non-empty string of decimal digits denotes. */
  function DigitsValue(s: string): nat
    requires AllDigits(s)
  {
    if s == [] then 0 else DigitsValue(s[..|s| - 1]) * 10 + DigitValue(s[|s| - 1])
  }

  /** Python's `str(i)` for an int: a minus sign for negatives, then the digits. */
  function DecimalText(i: int): string {
    if i < 0 then "-" + Digits(-i) else Digits(i)
  }

  /** Python's `int(s)` for a string: an optional sign followed by at least one
      decimal digit; anything else raises ValueError, here `None`. */
  function ParseInt(s: string): (r: Option<int>)
    ensures r.Some? ==> exists t :: 0 < |t| && AllDigits(t) && (s == t || s == "+" + t || s == "-" + t)
  {
    if |s| > 0 && (s[0] == '-' || s[0] == '+') then
      var t := s[1..];
      if 0 < |t| && AllDigits(t) then
        assert s == [s[0]] + t;
        Some(if s[0] == '-' then -(DigitsValue(t) as int) else DigitsValue(t) as int)
      else None
    else if 0 < |s| && AllDigits(s) then Some(DigitsValue(s) as int)
    else None
  }

  lemma {:induction false} DigitsCorrect(n: nat)
    ensures AllDigits(Digits(n))
    ensures DigitsValue(Digits(n)) == n
  {
    if n >= 10 {
      DigitsCorrect(n / 10);
      var s := Digits(n);
      assert s[..|s| - 1] == Digits(n / 10);
      assert s[|s| - 1] == DigitChar(n % 10);
    }
  }

  lemma ParseDigits(t: string)
    requires 0 < |t| && AllDigits(t)
    ensures ParseInt(t) == Some(DigitsValue(t) as int)
  {
    assert IsDigit(t[0]);
  }

  lemma ParseNegative(t: string)
    requires 0 < |t| && AllDigits(t)
    ensures ParseInt("-" + t) == Some(-(DigitsValue(t) as int))
  {
    var s := "-" + t;
    assert s[0] == '-' && s[1..] == t;
  }

  /** `int(str(i)) == i`: parsing undoes rendering. */
  lemma ParseDecimalText(i: int)
    ensures ParseInt(DecimalText(i)) == Some(i)
  {
    if i < 0 {
      DigitsCorrect(-i);
      ParseNegative(Digits(-i));
    } else {
      DigitsCorrect(i);
      ParseDigits(Digits(i));
    }
  }

  function LowerChar(ch: char): char {
    if 'A' <= ch <= 'Z' then (ch as int + 32) as char else ch
  }

  /** `str.lower()` restricted to ASCII letters: no upper-case letter is left,
      each upper-case letter becomes its lower-case partner, and every other
      character stays where it was. */
  function AsciiLower(s: string): (r: string)
    ensures |r| == |s|
    ensures forall i | 0 <= i < |r| :: !('A' <= r[i] <= 'Z')
    ensures forall i | 0 <= i < |s| && 'A' <= s[i] <= 'Z' :: 'a' <= r[i] <= 'z' && r[i] as int == s[i] as int + 32
    ensures forall i | 0 <= i < |s| && !('A' <= s[i] <= 'Z') :: r[i] == s[i]
  {
    seq(|s|, i requires 0 <= i < |s| => LowerChar(s[i]))
  }

  /** Lower-casing twice is lower-casing once. */
  lemma AsciiLowerIdempotent(s: string)
    ensures AsciiLower(AsciiLower(s)) == AsciiLower(s)
  {
  }
}
