/** Ledger amounts as integer stroops (seven decimal places), and the decimal
    text Horizon uses for them. */
module Amounts {
  import opened Wrappers
  import opened Strings

  const DECIMALS: nat := 7
  const STROOPS_PER_UNIT: nat := 10_000_000

  function Pow10(k: nat): (r: nat)
    ensures r >= 1
  {
    if k == 0 then 1 else 10 * Pow10(k - 1)
  }

  /** `w` digits, most significant first, with leading zeros. */
  function PadDigits(v: nat, w: nat): (r: string)
    ensures |r| == w && AllDigits(r)
  {
    if w == 0 then "" else PadDigits(v / 10, w - 1) + [DigitChar(v % 10)]
  }

  lemma {:induction false} PadDigitsValue(v: nat, w: nat)
    requires v < Pow10(w)
    ensures DigitsValue(PadDigits(v, w)) == v
  {
    if w > 0 {
      PadDigitsValue(v / 10, w - 1);
      var r := PadDigits(v, w);
      assert r[..|r| - 1] == PadDigits(v / 10, w - 1);
    }
  }

  /** The number a decimal amount string denotes, in stroops: `D+` or
      `D+.D{1,7}`. Any other text gives `None`, standing for `NaN`. */
  function ParseStroops(s: string): (r: Option<nat>)
    ensures r.Some? ==> |s| > 0
  {
    var parts := Split(s, '.');
    if |parts| == 1 && |parts[0]| >= 1 && AllDigits(parts[0]) then
      Some(DigitsValue(parts[0]) * STROOPS_PER_UNIT)
    else if |parts| == 2 && |parts[0]| >= 1 && AllDigits(parts[0])
         && 1 <= |parts[1]| <= DECIMALS && AllDigits(parts[1]) then
      Some(DigitsValue(parts[0]) * STROOPS_PER_UNIT
           + DigitsValue(parts[1]) * Pow10(DECIMALS - |parts[1]|))
    else None
  }

  /** Horizon's rendering of an amount: integer part, a point, seven digits. */
  function FormatStroops(n: nat): (r: string)
    ensures |r| >= DECIMALS + 2 && r[|r| - DECIMALS - 1] == '.'
  {
    NatToString(n / STROOPS_PER_UNIT) + "." + PadDigits(n % STROOPS_PER_UNIT, DECIMALS)
  }

  lemma NoPointInDigits(s: string)
    requires AllDigits(s)
    ensures '.' !in s
  {
  }

  /** Parsing Horizon's rendering of `n` gives back `n`. */
  lemma {:induction false} ParseFormatRoundTrip(n: nat)
    ensures ParseStroops(FormatStroops(n)) == Some(n)
  {
    var whole := NatToString(n / STROOPS_PER_UNIT);
    var frac := PadDigits(n % STROOPS_PER_UNIT, DECIMALS);
    NoPointInDigits(whole);
    NoPointInDigits(frac);
    assert FormatStroops(n) == whole + ['.'] + frac;
    SplitAfterFirst(whole, '.', frac);
    SplitNoSeparator(frac, '.');
    assert Split(FormatStroops(n), '.') == [whole, frac];
    NatToStringValue(n / STROOPS_PER_UNIT);
    assert Pow10(DECIMALS) == STROOPS_PER_UNIT;
    PadDigitsValue(n % STROOPS_PER_UNIT, DECIMALS);
  }
}
