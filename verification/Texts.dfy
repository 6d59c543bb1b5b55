/** Numbers as decimal text, and back. */
module Texts {
  function Digit(d: nat): char
    requires d < 10
  {
    ['0', '1', '2', '3', '4', '5', '6', '7', '8', '9'][d]
  }

  function DigitValue(c: char): nat {
    if '0' <= c <= '9' then (c as int) - ('0' as int) else 0
  }

  function ParseDigits(text: string): nat {
    if text == "" then 0 else ParseDigits(text[..|text| - 1]) * 10 + DigitValue(text[|text| - 1])
  }

  function DecimalText(n: nat): string {
    if n < 10 then [Digit(n)] else DecimalText(n / 10) + [Digit(n % 10)]
  }

  /** An integer in decimal. */
  function IntegerText(n: int): string {
    if n < 0 then "-" + DecimalText(-n) else DecimalText(n)
  }

  lemma TextGrows(n: nat, d: nat)
    requires n > 0 && d < 10
    ensures DecimalText(10 * n + d) == DecimalText(n) + [Digit(d)]
  {
    assert (10 * n + d) / 10 == n && (10 * n + d) % 10 == d;
  }

  lemma {:induction false} ParseDecimal(n: nat)
    ensures ParseDigits(DecimalText(n)) == n
    decreases n
  {
    if n < 10 {
      assert [Digit(n)][..0] == "";
    } else {
      ParseDecimal(n / 10);
      var text := DecimalText(n);
      assert text[..|text| - 1] == DecimalText(n / 10);
    }
  }
}
