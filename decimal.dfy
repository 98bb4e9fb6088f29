/**
 * Python's `str(int)`: the decimal text under which a chat id is stored as a
 * key of the `groups` dictionary, together with its inverse (`int(text)`),
 * which shows that two different chat ids never share a key.
 */
module Decimal {

  /** The ASCII digit for a value below ten. */
  function DigitChar(d: nat): (c: char)
    requires d < 10
    ensures '0' <= c <= '9'
    ensures c as int - '0' as int == d
  {
    ('0' as int + d) as char
  }

  /** Decimal digits of a natural number, most significant first, no leading zeros. */
  function Digits(n: nat): (s: string)
    ensures |s| >= 1
    ensures '0' <= s[0] <= '9'
    decreases n
  {
    if n < 10 then [DigitChar(n)] else Digits(n / 10) + [DigitChar(n % 10)]
  }

  /** `str(n)` for a Python int: a minus sign before the digits of a negative number. */
  function PyStr(n: int): (s: string)
    ensures |s| >= 1
    ensures s[0] == '-' <==> n < 0
  {
    if n < 0 then "-" + Digits(-n) else Digits(n)
  }

  /** Value of a digit character (0 for anything else; only digits are ever given). */
  function DigitValue(c: char): nat
  {
    if '0' <= c <= '9' then c as int - '0' as int else 0
  }

  /** Value of a string of digits, read most significant first. */
  function ParseDigits(s: string): nat
    decreases |s|
  {
    if |s| == 0 then 0 else ParseDigits(s[..|s| - 1]) * 10 + DigitValue(s[|s| - 1])
  }

  /** `int(s)` for the texts `PyStr` produces. */
  function ParseInt(s: string): int
  {
    var magnitude: int := if |s| > 0 && s[0] == '-' then ParseDigits(s[1..]) else ParseDigits(s);
    if |s| > 0 && s[0] == '-' then -magnitude else magnitude
  }

  lemma {:induction false} DigitsRoundTrip(n: nat)
    ensures ParseDigits(Digits(n)) == n
    decreases n
  {
    if n >= 10 {
      var prefix := Digits(n / 10);
      var s := Digits(n);
      assert s == prefix + [DigitChar(n % 10)];
      assert s[..|s| - 1] == prefix;
      DigitsRoundTrip(n / 10);
    }
  }

  /** `int(str(n)) == n`. */
  lemma PyStrRoundTrip(n: int)
    ensures ParseInt(PyStr(n)) == n
  {
    if n < 0 {
      assert PyStr(n)[1..] == Digits(-n);
      DigitsRoundTrip(-n);
    } else {
      DigitsRoundTrip(n);
    }
  }

  /** Two chat ids have the same key exactly when they are the same id. */
  lemma PyStrInjective(a: int, b: int)
    ensures PyStr(a) == PyStr(b) <==> a == b
  {
    PyStrRoundTrip(a);
    PyStrRoundTrip(b);
  }
}
