/** strconv.Itoa and strconv.Atoi over Go's 64-bit int. */
module Decimal {
  import opened Prelude

  const MAX_INT: int := 0x7FFF_FFFF_FFFF_FFFF
  const MIN_INT: int := -0x8000_0000_0000_0000

  predicate IsDigit(c: char) {
    '0' <= c <= '9'
  }

  predicate AllDigits(s: string) {
    forall i | 0 <= i < |s| :: IsDigit(s[i])
  }

  function DigitChar(d: nat): char
    requires d < 10
  {
    '0' + d as char
  }

  function Digits(n: nat): string {
    if n < 10 then [DigitChar(n)] else Digits(n / 10) + [DigitChar(n % 10)]
  }

  function Itoa(n: int): string {
    if n < 0 then "-" + Digits(-n) else Digits(n)
  }

  /** The number a string of digits denotes. */
  function Value(s: string): nat
    requires AllDigits(s)
  {
    if s == [] then 0 else 10 * Value(s[..|s| - 1]) + (s[|s| - 1] - '0') as int
  }

  /** An optional sign, at least one digit, nothing else, and no overflow. */
  function Atoi(s: string): Option<int> {
    var negative := s != [] && s[0] == '-';
    var body := if s != [] && s[0] in {'-', '+'} then s[1..] else s;
    if body == [] || !AllDigits(body) then None
    else
      var magnitude: int := Value(body);
      var v := if negative then -magnitude else magnitude;
      if MIN_INT <= v <= MAX_INT then Some(v) else None
  }

  lemma {:induction false} ValueDigits(n: nat)
    ensures Digits(n) != [] && AllDigits(Digits(n)) && Value(Digits(n)) == n
  {
    if n < 10 {
      assert Value(Digits(n)) == 10 * Value([]) + n;
    } else {
      ValueDigits(n / 10);
      assert Digits(n)[..|Digits(n)| - 1] == Digits(n / 10);
    }
  }

  /** Exactly the texts that are read: digits, with a sign or without, whose number is a 64-bit int. */
  lemma AtoiIs(s: string, v: int)
    ensures Atoi(s) == Some(v) <==>
              && MIN_INT <= v <= MAX_INT
              && exists body: string | body != "" && AllDigits(body) ::
                   || (s == body && v == Value(body))
                   || (s == "+" + body && v == Value(body))
                   || (s == "-" + body && -v == Value(body))
  {
    if Atoi(s) == Some(v) {
      var body := if s[0] in {'-', '+'} then s[1..] else s;
      assert s[0] in {'-', '+'} ==> s == [s[0]] + body;
      assert body != "" && AllDigits(body);
    }
  }

  /** Printing an int and parsing it back gives the same int. */
  lemma AtoiItoa(n: int)
    requires MIN_INT <= n <= MAX_INT
    ensures Atoi(Itoa(n)) == Some(n)
  {
    ValueDigits(if n < 0 then -n else n);
    if n < 0 {
      assert Itoa(n)[1..] == Digits(-n);
    }
  }

  /** The characters Itoa may produce. */
  lemma ItoaChars(n: int)
    ensures Itoa(n) != []
    ensures forall i | 0 <= i < |Itoa(n)| :: IsDigit(Itoa(n)[i]) || Itoa(n)[i] == '-'
  {
    ValueDigits(if n < 0 then -n else n);
  }
}
