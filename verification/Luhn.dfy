/** The card number check (crates/vault-service/src/tokenizer.rs, luhn_check). */
module Luhn {

  type Digit = n: int | 0 <= n < 10

  predicate IsDigit(c: char) {
    '0' <= c <= '9'
  }

  function DigitOf(c: char): Digit
    requires IsDigit(c)
  {
    c as int - '0' as int
  }

  /** The digits of a card number, whatever separates them. */
  function DigitsOf(pan: string): seq<Digit> {
    if pan == [] then []
    else (if IsDigit(pan[0]) then [DigitOf(pan[0])] else []) + DigitsOf(pan[1..])
  }

  /** What a digit adds at position `i` from the right: every second one is doubled, less nine above nine. */
  function Contribution(i: nat, d: Digit): nat {
    if i % 2 == 1 then
      var doubled := d * 2;
      if doubled > 9 then doubled - 9 else doubled
    else d
  }

  /** The sum over digits whose last one stands at position `shift` from the right. */
  function Sum(digits: seq<Digit>, shift: nat): nat {
    if digits == [] then 0
    else Contribution(shift + |digits| - 1, digits[0]) + Sum(digits[1..], shift)
  }

  predicate LuhnCheck(pan: string) {
    var digits := DigitsOf(pan);
    13 <= |digits| <= 19 && Sum(digits, 0) % 10 == 0
  }

  lemma {:induction false} DigitsConcat(a: string, b: string)
    ensures DigitsOf(a + b) == DigitsOf(a) + DigitsOf(b)
  {
    if a == [] {
      assert a + b == b;
    } else {
      assert (a + b)[1..] == a[1..] + b;
      DigitsConcat(a[1..], b);
      var head := if IsDigit(a[0]) then [DigitOf(a[0])] else [];
      assert DigitsOf(a + b) == head + (DigitsOf(a[1..]) + DigitsOf(b));
      assert DigitsOf(a) == head + DigitsOf(a[1..]);
    }
  }

  lemma {:induction false} SumConcat(a: seq<Digit>, b: seq<Digit>, shift: nat)
    ensures Sum(a + b, shift) == Sum(a, shift + |b|) + Sum(b, shift)
  {
    if a == [] {
      assert a + b == b;
    } else {
      assert (a + b)[1..] == a[1..] + b;
      SumConcat(a[1..], b, shift);
    }
  }

  lemma OneDigit(c: char)
    requires IsDigit(c)
    ensures DigitsOf([c]) == [DigitOf(c)]
  {
  }

  /** The digits and the sum of a number around one of its digits. */
  lemma SumAround(a: string, c: char, b: string)
    requires IsDigit(c)
    ensures var digits := DigitsOf(a + [c] + b);
            var tail := |DigitsOf(b)|;
            && |digits| == |DigitsOf(a)| + 1 + tail
            && Sum(digits, 0) == Sum(DigitsOf(a), tail + 1) + Contribution(tail, DigitOf(c)) + Sum(DigitsOf(b), 0)
  {
    DigitsConcat(a + [c], b);
    DigitsConcat(a, [c]);
    OneDigit(c);
    SumConcat(DigitsOf(a) + [DigitOf(c)], DigitsOf(b), 0);
    SumConcat(DigitsOf(a), [DigitOf(c)], |DigitsOf(b)|);
  }

  /** Anything but a digit can be put in or taken out anywhere. */
  lemma SeparatorsIgnored(a: string, separators: string, b: string)
    requires forall i :: 0 <= i < |separators| ==> !IsDigit(separators[i])
    ensures LuhnCheck(a + separators + b) == LuhnCheck(a + b)
  {
    DigitsConcat(a + separators, b);
    DigitsConcat(a, separators);
    DigitsConcat(a, b);
    NoDigits(separators);
    assert DigitsOf(a) + [] == DigitsOf(a);
  }

  lemma {:induction false} NoDigits(s: string)
    requires forall i :: 0 <= i < |s| ==> !IsDigit(s[i])
    ensures DigitsOf(s) == []
  {
    if s != [] {
      NoDigits(s[1..]);
    }
  }

  /** At any position different digits contribute differently, by less than ten. */
  lemma ContributionInjective(i: nat, x: Digit, y: Digit)
    requires x != y
    ensures 0 <= Contribution(i, x) < 10 && 0 <= Contribution(i, y) < 10 && Contribution(i, x) != Contribution(i, y)
  {
  }

  /** Changing any one digit of an accepted number gives a rejected one. */
  lemma OneDigitChanged(a: string, c: char, d: char, b: string)
    requires IsDigit(c) && IsDigit(d) && c != d && LuhnCheck(a + [c] + b)
    ensures !LuhnCheck(a + [d] + b)
  {
    SumAround(a, c, b);
    SumAround(a, d, b);
    var i := |DigitsOf(b)|;
    ContributionInjective(i, DigitOf(c), DigitOf(d));
    NotBoth(Sum(DigitsOf(a), i + 1) + Sum(DigitsOf(b), 0), Contribution(i, DigitOf(c)), Contribution(i, DigitOf(d)));
  }

  lemma NotBoth(base: int, p: int, q: int)
    requires (base + p) % 10 == 0 && 0 <= p < 10 && 0 <= q < 10 && p != q
    ensures (base + q) % 10 != 0
  {
  }

  /** Exchanging two neighbouring digits, with or without separators between, goes unnoticed exactly when they
      are equal or are 0 and 9. */
  lemma NeighboursExchanged(a: string, x: char, between: string, y: char, b: string)
    requires IsDigit(x) && IsDigit(y) && forall i :: 0 <= i < |between| ==> !IsDigit(between[i])
    requires LuhnCheck(a + [x] + between + [y] + b)
    ensures LuhnCheck(a + [y] + between + [x] + b) <==> x == y || {x, y} == {'0', '9'}
  {
    SumOfPair(a, x, between, y, b);
    SumOfPair(a, y, between, x, b);
    var i := |DigitsOf(b)|;
    PairContribution(i, DigitOf(x), DigitOf(y));
    SameLast(Sum(DigitsOf(a + [x] + between + [y] + b), 0), Sum(DigitsOf(a + [y] + between + [x] + b), 0),
             Contribution(i + 1, DigitOf(x)) + Contribution(i, DigitOf(y)),
             Contribution(i + 1, DigitOf(y)) + Contribution(i, DigitOf(x)));
    PairOf(x, y, '0', '9');
  }

  lemma PairOf(x: char, y: char, c: char, d: char)
    requires c != d
    ensures {x, y} == {c, d} <==> (x == c && y == d) || (x == d && y == c)
  {
    if {x, y} == {c, d} {
      assert x in {c, d} && y in {c, d} && c in {x, y} && d in {x, y};
    }
  }

  lemma SumOfPair(a: string, x: char, between: string, y: char, b: string)
    requires IsDigit(x) && IsDigit(y) && forall i :: 0 <= i < |between| ==> !IsDigit(between[i])
    ensures var digits := DigitsOf(a + [x] + between + [y] + b);
            var i := |DigitsOf(b)|;
            && |digits| == |DigitsOf(a)| + 2 + i
            && Sum(digits, 0) == Sum(DigitsOf(a), i + 2) + Contribution(i + 1, DigitOf(x)) + Contribution(i, DigitOf(y))
                                 + Sum(DigitsOf(b), 0)
  {
    var tail := between + [y] + b;
    assert a + [x] + between + [y] + b == a + [x] + tail;
    SumAround(a, x, tail);
    SumAround(between, y, b);
    NoDigits(between);
  }

  /** Two neighbouring digits add the same either way round exactly when equal, or 0 and 9. */
  lemma PairContribution(i: nat, x: Digit, y: Digit)
    ensures (Contribution(i + 1, x) + Contribution(i, y)) % 10 == (Contribution(i + 1, y) + Contribution(i, x)) % 10
            <==> x == y || (x == 0 && y == 9) || (x == 9 && y == 0)
  {
    var p, q := Contribution(i + 1, x) + Contribution(i, y), Contribution(i + 1, y) + Contribution(i, x);
    assert -10 < p - q < 10;
    CloseRemainders(p, q);
  }

  lemma CloseRemainders(p: int, q: int)
    requires -10 < p - q < 10
    ensures p % 10 == q % 10 <==> p == q
  {
  }

  /** Two sums that differ as p and q do, the first a multiple of ten. */
  lemma SameLast(sum: int, other: int, p: int, q: int)
    requires sum - p == other - q && sum % 10 == 0
    ensures other % 10 == 0 <==> p % 10 == q % 10
  {
    assert other == sum + (q - p);
  }

  /** The one digit that completes a number. */
  function CheckDigit(pan: string): Digit {
    (10 - Sum(DigitsOf(pan), 1) % 10) % 10
  }

  /** A number of 12 to 18 digits is completed by exactly one check digit, any other by none. */
  lemma OneCheckDigit(pan: string, c: char)
    requires IsDigit(c)
    ensures LuhnCheck(pan + [c]) <==> 12 <= |DigitsOf(pan)| <= 18 && DigitOf(c) == CheckDigit(pan)
  {
    SumAround(pan, c, []);
    assert pan + [c] + [] == pan + [c];
    Completes(Sum(DigitsOf(pan), 1), DigitOf(c));
  }

  lemma Completes(base: nat, c: Digit)
    ensures (base + c) % 10 == 0 <==> c == (10 - base % 10) % 10
  {
  }

  // ---------- the check as the standard words it ----------

  /** The digits at even places from the right, added up. */
  function EvenPlaces(digits: seq<Digit>): nat {
    if digits == [] then 0
    else digits[|digits| - 1] + if |digits| == 1 then 0 else EvenPlaces(digits[..|digits| - 2])
  }

  function DigitSum(n: nat): nat {
    if n < 10 then n else n % 10 + DigitSum(n / 10)
  }

  /** The decimal digits of twice each digit at an odd place from the right, added up. */
  function OddPlacesDoubled(digits: seq<Digit>): nat {
    if |digits| < 2 then 0
    else DigitSum(2 * (digits[|digits| - 2] as int)) + OddPlacesDoubled(digits[..|digits| - 2])
  }

  /** A number is accepted if and only if it has 13 to 19 digits and the digits at even places from the right
      with the digits of twice the others add up to a multiple of ten. */
  lemma LuhnExact(pan: string)
    ensures LuhnCheck(pan) <==>
              var digits := DigitsOf(pan);
              13 <= |digits| <= 19 && (EvenPlaces(digits) + OddPlacesDoubled(digits)) % 10 == 0
  {
    SumByPlaces(DigitsOf(pan));
  }

  lemma {:induction false} SumByPlaces(digits: seq<Digit>)
    ensures Sum(digits, 0) == EvenPlaces(digits) + OddPlacesDoubled(digits)
  {
    if |digits| == 1 {
      assert digits[1..] == [];
    } else if |digits| >= 2 {
      var n := |digits| - 2;
      var rest, x, y := digits[..n], digits[n], digits[n + 1];
      assert digits == rest + [x, y];
      SumConcat(rest, [x, y], 0);
      SumTwoPlacesOn(rest, 0);
      SumByPlaces(rest);
      LastTwoPlaces(x, y);
    }
  }

  lemma LastTwoPlaces(x: Digit, y: Digit)
    ensures Sum([x, y], 0) == y + DigitSum(2 * (x as int))
  {
    assert [x, y][1..] == [y] && [y][1..] == [];
    assert Sum([y], 0) == y;
  }

  lemma {:induction false} SumTwoPlacesOn(digits: seq<Digit>, shift: nat)
    ensures Sum(digits, shift + 2) == Sum(digits, shift)
  {
    if digits != [] {
      SumTwoPlacesOn(digits[1..], shift);
    }
  }

  /** Written without separators, a number has one digit for each character, in their order. */
  lemma {:induction false} DigitsInOrder(pan: string)
    requires forall i :: 0 <= i < |pan| ==> IsDigit(pan[i])
    ensures |DigitsOf(pan)| == |pan|
    ensures forall i :: 0 <= i < |pan| ==> DigitsOf(pan)[i] == pan[i] as int - '0' as int
  {
    if pan != [] {
      DigitsInOrder(pan[1..]);
    }
  }
}
