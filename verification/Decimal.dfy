/** Decimal text of integers, as Rust's Display prints it and i64::from_str reads it. */
module Decimal {
  import opened Models

  const I64_MIN: int := -0x8000_0000_0000_0000
  const I64_MAX: int := 0x7FFF_FFFF_FFFF_FFFF

  function Digit(d: nat): char
    requires d < 10
  {
    '0' + d as char
  }

  predicate IsDigit(c: char) {
    '0' <= c <= '9'
  }

  predicate AllDigits(s: string) {
    forall i :: 0 <= i < |s| ==> IsDigit(s[i])
  }

  function Digits(n: nat): string {
    if n < 10 then [Digit(n)] else Digits(n / 10) + [Digit(n % 10)]
  }

  function Print(n: int): string {
    if n < 0 then "-" + Digits(-n) else Digits(n)
  }

  function Value(s: string): (v: int)
    requires AllDigits(s)
    ensures v >= 0
  {
    if s == [] then 0 else 10 * Value(s[..|s| - 1]) + (s[|s| - 1] as int - '0' as int)
  }

  function InRange(n: int): Option<int> {
    if I64_MIN <= n <= I64_MAX then Some(n) else None
  }

  /** Optional sign, at least one digit, and a value that fits 64 bits. */
  function ParseI64(s: string): Option<int> {
    var signed := s != [] && (s[0] == '-' || s[0] == '+');
    var body := if signed then s[1..] else s;
    if body == [] || !AllDigits(body) then None
    else if signed && s[0] == '-' then InRange(-Value(body))
    else InRange(Value(body))
  }

  lemma {:induction false} DigitsValue(n: nat)
    ensures AllDigits(Digits(n)) && Digits(n) != []
    ensures Value(Digits(n)) == n
  {
    if n >= 10 {
      DigitsValue(n / 10);
      var s := Digits(n / 10);
      assert (s + [Digit(n % 10)])[..|s|] == s;
      assert Value(Digits(n)) == 10 * Value(s) + n % 10;
    } else {
      assert Value([]) == 0;
      assert [Digit(n)][..0] == [];
    }
  }

  /** Reading back what was printed gives the number, exactly when it fits 64 bits. */
  lemma PrintParse(n: int)
    ensures ParseI64(Print(n)) == InRange(n)
  {
    DigitsValue(if n < 0 then -n else n);
    if n < 0 {
      assert Print(n)[1..] == Digits(-n);
    }
  }

  function Zeros(k: nat): string {
    if k == 0 then "" else Zeros(k - 1) + "0"
  }

  /** The text is the number's printed digits after any number of zeros, with a sign if it has one. */
  predicate Spells(s: string, n: int, zeros: nat) {
    var body := Zeros(zeros) + Digits(if n < 0 then -n else n);
    || (n >= 0 && (s == body || s == "+" + body))
    || (n <= 0 && s == "-" + body)
  }

  /** A text is read as a number if and only if it spells it and the number fits 64 bits. */
  lemma ParseExact(s: string, n: int)
    ensures ParseI64(s) == Some(n) <==> I64_MIN <= n <= I64_MAX && exists zeros :: Spells(s, n, zeros)
  {
    if ParseI64(s) == Some(n) {
      ParsedSpells(s, n);
    }
    if zeros :| Spells(s, n, zeros) {
      SpelledParses(s, n, zeros);
    }
  }

  lemma ParsedSpells(s: string, n: int)
    requires ParseI64(s) == Some(n)
    ensures exists zeros :: Spells(s, n, zeros)
  {
    var zeros := ReadDigits(if s[0] == '-' || s[0] == '+' then s[1..] else s);
    assert s == [s[0]] + s[1..];
    assert Spells(s, n, zeros);
  }

  lemma SpelledParses(s: string, n: int, zeros: nat)
    requires Spells(s, n, zeros)
    ensures ParseI64(s) == InRange(n)
  {
    var digits := Digits(if n < 0 then -n else n);
    DigitsValue(if n < 0 then -n else n);
    ZerosValue(zeros, digits);
    assert s[0] == '-' || s[0] == '+' ==> s[1..] == Zeros(zeros) + digits;
  }

  /** Leading zeros change no value. */
  lemma {:induction false} ZerosValue(k: nat, s: string)
    requires AllDigits(s)
    ensures AllDigits(Zeros(k) + s) && Value(Zeros(k) + s) == Value(s)
    decreases k, |s|
  {
    if s != [] {
      ZerosValue(k, s[..|s| - 1]);
      assert (Zeros(k) + s)[..|Zeros(k) + s| - 1] == Zeros(k) + s[..|s| - 1];
    } else if k > 0 {
      ZerosValue(k - 1, "");
      assert Zeros(k) + "" == Zeros(k - 1) + "" + "0";
    }
  }

  /** Any digits spell their value. */
  lemma {:induction false} ReadDigits(s: string) returns (zeros: nat)
    requires s != [] && AllDigits(s)
    ensures s == Zeros(zeros) + Digits(Value(s))
  {
    var front, d := s[..|s| - 1], s[|s| - 1] as int - '0' as int;
    assert Digit(d) == s[|s| - 1] && s == front + [Digit(d)];
    if front == [] {
      zeros := 0;
    } else {
      zeros := ReadDigits(front);
      if Value(front) == 0 {
        assert front == Zeros(zeros + 1);
        zeros := zeros + 1;
      }
    }
  }

  lemma DigitsInjective(a: nat, b: nat)
    requires Digits(a) == Digits(b)
    ensures a == b
  {
    DigitsValue(a);
    DigitsValue(b);
  }

  function Pow10(k: nat): nat {
    if k == 0 then 1 else 10 * Pow10(k - 1)
  }

  lemma {:induction false} DigitsLength(n: nat, k: nat)
    requires k > 0 && n < Pow10(k) && (k == 1 || Pow10(k - 1) <= n)
    ensures |Digits(n)| == k
  {
    if k > 1 {
      assert Pow10(k - 1) == 10 * Pow10(k - 2);
      DigitsLength(n / 10, k - 1);
    }
  }

  /** A Unix time between September 2001 and November 2286 prints as ten digits. */
  lemma TenDigits(n: nat)
    requires 1_000_000_000 <= n < 10_000_000_000
    ensures |Digits(n)| == 10
  {
    assert Pow10(3) == 1000;
    assert Pow10(6) == 1_000_000;
    assert Pow10(9) == 1_000_000_000;
    DigitsLength(n, 10);
  }
}
