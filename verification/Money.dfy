/** Cents and their text (frontend/lib/formatters.ts). */
module Money {
  import opened Wrappers
  import opened Doubles
  import opened JsText

  const CENTS_LIMIT: int := 0x8_0000_0000_0000  // 2^51

  function FormatCurrencyCents(cents: int): string {
    "$" + ToFixed2(Nearest(cents as real / 100.0))
  }

  function DollarsToCents(dollars: string): (cents: int)
    ensures cents >= 0
  {
    match ParseFloat(dollars)
    case None => 0
    case Some(amount) => if amount < 0.0 then 0 else RoundedCents(amount)
  }

  function RoundedCents(amount: real): (cents: int)
    requires amount >= 0.0
    ensures cents >= 0
  {
    NearestError(amount * 100.0);
    MathRound(Nearest(amount * 100.0))
  }

  // The two roundings on the way from c hundredths through a double and back
  // to cents, with relative error at most 2^-53 each, stay below half a cent.
  lemma TwoRoundings(c: int, q: real, p: real)
    requires 0 <= c < CENTS_LIMIT
    requires Abs(q - c as real / 100.0) * UNITS_53 <= c as real / 100.0
    requires Abs(p - q * 100.0) * UNITS_53 <= Abs(q * 100.0)
    ensures q >= 0.0
    ensures c as real - 0.5 < p < c as real + 0.5
  {
  }

  /** Two-decimal display of whole cents is exact. */
  lemma ToFixedOfCents(c: int)
    requires 0 <= c < CENTS_LIMIT
    ensures ToFixed2(Nearest(c as real / 100.0)) == WithPoint(c)
  {
    NearestError(c as real / 100.0);
    assert (Nearest(c as real / 100.0) * 100.0 + 0.5).Floor == c;
  }

  /** Text that denotes no number, or none above zero, is nothing. */
  lemma NothingBelowZero(text: string)
    requires DecimalValue(text).None? || DecimalValue(text).value <= 0.0
    ensures DollarsToCents(text) == 0
  {
    if DecimalValue(text).Some? { NearestError(DecimalValue(text).value); }
  }

  lemma RoundedCentsOf(c: int, q: real)
    requires 0 <= c < CENTS_LIMIT && q == Nearest(c as real / 100.0)
    ensures q >= 0.0 && MathRound(Nearest(q * 100.0)) == c
  {
    NearestError(c as real / 100.0);
    NearestError(q * 100.0);
    TwoRoundings(c, q, Nearest(q * 100.0));
  }

  /**
   * Text that denotes a whole number of cents converts to that number, in
   * spite of the three roundings to double on the way.
   */
  lemma CentsOfText(text: string, c: int)
    requires 0 <= c < CENTS_LIMIT
    requires DecimalValue(text) == Some(c as real / 100.0)
    ensures ParseFloat(text).Some? && ParseFloat(text).value >= 0.0
    ensures MathRound(Nearest(ParseFloat(text).value * 100.0)) == c
    ensures DollarsToCents(text) == c
  {
    var x := c as real / 100.0;
    var q := AmountOf(text, x);
    CentsOfAmount(text, c, x, q);
  }

  lemma AmountOf(text: string, x: real) returns (q: real)
    requires DecimalValue(text) == Some(x)
    ensures ParseFloat(text) == Some(q) && q == Nearest(x)
  {
    q := Nearest(x);
  }

  lemma CentsOfAmount(text: string, c: int, x: real, amount: real)
    requires 0 <= c < CENTS_LIMIT && x == c as real / 100.0 && amount == Nearest(x)
    requires ParseFloat(text) == Some(amount)
    ensures amount >= 0.0 && MathRound(Nearest(amount * 100.0)) == c && DollarsToCents(text) == c
  {
    RoundedCentsOf(c, amount);
  }

  /** Displaying cents and reading the display back gives the cents. */
  lemma CentsRoundTrip(c: int)
    requires 0 <= c < CENTS_LIMIT
    ensures FormatCurrencyCents(c)[0] == '$'
    ensures DollarsToCents(FormatCurrencyCents(c)[1..]) == c
  {
    ToFixedOfCents(c);
    assert FormatCurrencyCents(c)[1..] == WithPoint(c);
    DecimalValueOfWithPoint(c);
    CentsOfText(WithPoint(c), c);
  }
}
