/** Decimal printing of integers, and reading it back. */
module Decimal {

  function Digit(d: int): char
    requires 0 <= d < 10
  {
    ('0' as int + d) as char
  }

  function Digits(n: nat): string {
    if n < 10 then [Digit(n)] else Digits(n / 10) + [Digit(n % 10)]
  }

  function Itoa(n: int): string {
    if n < 0 then "-" + Digits(-n) else Digits(n)
  }

  function Read(s: string): int {
    if s == [] then 0 else 10 * Read(s[..|s| - 1]) + (s[|s| - 1] as int - '0' as int)
  }

  lemma {:induction false} ReadDigits(n: nat)
    ensures Digits(n) != [] && Digits(n)[0] != '-' && Read(Digits(n)) == n
  {
    if n >= 10 {
      ReadDigits(n / 10);
      assert Digits(n)[..|Digits(n)| - 1] == Digits(n / 10);
    } else {
      assert Read([Digit(n)]) == 10 * Read([]) + n;
    }
  }

  // ----- What a decimal is -----

  /** s is a numeral: digits only, no leading zero but in "0" itself. */
  predicate Numeral(s: string) {
    s != [] && (forall i :: 0 <= i < |s| ==> '0' <= s[i] <= '9') && (|s| > 1 ==> s[0] != '0')
  }

  /** s is n in decimal: each digit counts ten times the one after it. */
  predicate Writes(s: string, n: int) {
    if n < 0 then s != [] && s[0] == '-' && Numeral(s[1..]) && Read(s[1..]) == -n
    else Numeral(s) && Read(s) == n
  }

  lemma {:induction false} DigitsNumeral(n: nat)
    ensures Numeral(Digits(n)) && (n > 0 ==> Digits(n)[0] != '0')
  {
    if n >= 10 {
      DigitsNumeral(n / 10);
    }
  }

  /** What is printed is the decimal of the number, sign first. */
  lemma ItoaWrites(n: int)
    ensures Writes(Itoa(n), n)
  {
    var m := if n < 0 then -n else n;
    DigitsNumeral(m);
    ReadDigits(m);
    if n < 0 {
      assert Itoa(n)[1..] == Digits(m);
    }
  }

  /** Different integers print differently. */
  lemma ItoaInjective(m: int, n: int)
    ensures Itoa(m) == Itoa(n) <==> m == n
  {
    ReadDigits(if m < 0 then -m else m);
    ReadDigits(if n < 0 then -n else n);
    if Itoa(m) == Itoa(n) && m < 0 && n < 0 {
      assert Itoa(m)[1..] == Digits(-m) && Itoa(n)[1..] == Digits(-n);
    }
  }
}
