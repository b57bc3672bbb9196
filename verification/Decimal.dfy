/** Decimal text of natural numbers, as Python's `str` and `int` and Redis write and read it. */
module Decimal {

  function Digit(d: nat): (ch: char)
    requires d < 10
  {
    "0123456789"[d]
  }

  function DigitValue(ch: char): nat
    requires IsDigit(ch)
  {
    (ch - '0') as nat
  }

  predicate IsDigit(ch: char) {
    '0' <= ch <= '9'
  }

  predicate AllDigits(text: string) {
    forall i :: 0 <= i < |text| ==> IsDigit(text[i])
  }

  function Show(n: nat): (text: string)
    ensures text != [] && AllDigits(text)
  {
    if n < 10 then [Digit(n)] else Show(n / 10) + [Digit(n % 10)]
  }

  function Value(text: string): (n: nat)
    requires AllDigits(text)
  {
    if text == [] then 0 else 10 * Value(text[..|text| - 1]) + DigitValue(text[|text| - 1])
  }

  /** Reading back what was written gives the number that was written. */
  lemma {:induction false} ValueOfShow(n: nat)
    ensures Value(Show(n)) == n
  {
    if n >= 10 {
      ValueOfShow(n / 10);
      var text := Show(n);
      assert text[..|text| - 1] == Show(n / 10);
    }
  }

  /** All four digits in their places. */
  lemma ShowSpelt()
    ensures Show(1024) == "1024"
  {
    assert Show(1) == "1" && Show(10) == "10" && Show(102) == "102";
  }

  lemma ShowInjective(a: nat, b: nat)
    requires Show(a) == Show(b)
    ensures a == b
  {
    ValueOfShow(a);
    ValueOfShow(b);
  }

  /** Decimal text followed by a character that is no digit is read in only one way. */
  lemma ShowDelimited(a: nat, b: nat, stop: char, restA: string, restB: string)
    requires !IsDigit(stop)
    requires Show(a) + [stop] + restA == Show(b) + [stop] + restB
    ensures a == b && restA == restB
  {
    var whole := Show(a) + [stop] + restA;
    assert whole[|Show(a)|] == stop && whole[|Show(b)|] == stop;
    assert forall i :: 0 <= i < |Show(a)| ==> whole[i] == Show(a)[i] && IsDigit(whole[i]);
    assert forall i :: 0 <= i < |Show(b)| ==> whole[i] == Show(b)[i] && IsDigit(whole[i]);
    assert Show(a) == whole[..|Show(a)|] == Show(b);
    ShowInjective(a, b);
    assert restA == whole[|Show(a)| + 1..] == restB;
  }
}
