/** Decimal notation, as `str(n)` writes it and `int(text)` reads it. */
module Decimals {

  predicate IsDigit(c: char) { '0' <= c <= '9' }

  function Digit(d: nat): (c: char)
    requires d < 10
    ensures IsDigit(c) && c as int - '0' as int == d
  {
    ('0' as int + d) as char
  }

  function Decimal(n: nat): (text: string)
    ensures text != [] && forall c | c in text :: IsDigit(c)
  {
    if n < 10 then [Digit(n)] else Decimal(n / 10) + [Digit(n % 10)]
  }

  /** The number a string of digits stands for. */
  function Number(text: string): nat
    requires forall c | c in text :: IsDigit(c)
  {
    if text == [] then 0
    else
      var n := |text| - 1;
      assert IsDigit(text[n]) by { assert text[n] in text; }
      assert forall c | c in text[..n] :: c in text;
      10 * Number(text[..n]) + (text[n] as int - '0' as int)
  }

  lemma {:induction false} DecimalReadsBack(n: nat)
    ensures Number(Decimal(n)) == n
  {
    if n >= 10 {
      DecimalReadsBack(n / 10);
      var text := Decimal(n);
      assert text[..|text| - 1] == Decimal(n / 10);
    }
  }
}
