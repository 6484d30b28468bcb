/** Indian-rupee formatting. Turning a number into digits (`toLocaleString('en-IN')`,
    `toFixed(1)`) is library behaviour and enters as the `render` and `fixed1`
    parameters; what is modelled is which branch is taken, the symbol, the sign prefix
    and the compact-unit thresholds. */
module Currency {
  import opened Wrappers
  import opened Domain

  const SYMBOL: char := '\U{20B9}'

  /** Fraction digits asked of the locale renderer: exactly two, or its default. */
  datatype Digits = TwoDecimals | LocaleDefault

  /** `Number.isInteger` on a finite number. */
  predicate IsInteger(x: real) {
    x == x.Floor as real
  }

  /** The decimals branch of `formatCurrency`. */
  function DecimalMode(amount: real, showDecimals: bool): (d: Digits)
    ensures d == TwoDecimals <==> showDecimals || !IsInteger(amount)
  {
    if showDecimals || !IsInteger(amount) then TwoDecimals else LocaleDefault
  }

  /** `formatCurrency(amount, showDecimals)`: the symbol followed by the locale
      rendering in the chosen decimals mode. */
  function FormatCurrency(amount: real, showDecimals: bool, render: (real, Digits) -> string): (r: string)
    ensures |r| >= 1 && r[0] == SYMBOL
    ensures r[1..] == render(amount, DecimalMode(amount, showDecimals))
  {
    [SYMBOL] + render(amount, DecimalMode(amount, showDecimals))
  }

  /** The `showDecimals` flag only matters for whole amounts: a fractional amount is
      always shown with two decimals, a whole one in the locale default unless asked. */
  lemma FlagMattersOnlyForWholes(amount: real, render: (real, Digits) -> string)
    ensures !IsInteger(amount) ==>
              FormatCurrency(amount, true, render) == FormatCurrency(amount, false, render)
              == [SYMBOL] + render(amount, TwoDecimals)
    ensures IsInteger(amount) ==>
              FormatCurrency(amount, false, render) == [SYMBOL] + render(amount, LocaleDefault)
              && FormatCurrency(amount, true, render) == [SYMBOL] + render(amount, TwoDecimals)
  {
  }

  /** What a reader takes from the sign in front of a signed amount. */
  function SignedKind(s: string): Option<TxType> {
    if |s| == 0 then None
    else if s[0] == '+' then Some(Income)
    else if s[0] == '-' then Some(Expense)
    else None
  }

  /** `formatCurrencyWithSign`: '+' for income, '-' for expense, in front of the
      default-decimals formatting; the sign reads back as the record's kind. */
  function FormatWithSign(amount: real, kind: TxType, render: (real, Digits) -> string): (r: string)
    ensures |r| >= 2 && r[1] == SYMBOL
    ensures r[0] == (if kind == Income then '+' else '-')
    ensures r[1..] == FormatCurrency(amount, false, render)
    ensures SignedKind(r) == Some(kind)
  {
    (if kind == Income then "+" else "-") + FormatCurrency(amount, false, render)
  }

  /** The unit `formatCompactCurrency` picks. */
  datatype Magnitude = Crore | Lakh | Thousand | Full

  /** Exactly one branch, thresholds inclusive, checked from the largest unit down;
      negative amounts fall through to the full format. */
  function CompactMagnitude(amount: real): (m: Magnitude)
    ensures m == Crore <==> amount >= 10000000.0
    ensures m == Lakh <==> 100000.0 <= amount < 10000000.0
    ensures m == Thousand <==> 1000.0 <= amount < 100000.0
    ensures m == Full <==> amount < 1000.0
  {
    if amount >= 10000000.0 then Crore
    else if amount >= 100000.0 then Lakh
    else if amount >= 1000.0 then Thousand
    else Full
  }

  /** The divisor and suffix of a compact unit. */
  function Scale(m: Magnitude): real {
    match m
    case Crore => 10000000.0
    case Lakh => 100000.0
    case Thousand => 1000.0
    case Full => 1.0
  }

  function Suffix(m: Magnitude): string {
    match m
    case Crore => "Cr"
    case Lakh => "L"
    case Thousand => "K"
    case Full => ""
  }

  /** `formatCompactCurrency`. */
  function FormatCompact(amount: real, render: (real, Digits) -> string, fixed1: real -> string): (r: string)
    ensures |r| >= 1 && r[0] == SYMBOL
    ensures amount >= 10000000.0 ==> r == [SYMBOL] + fixed1(amount / 10000000.0) + "Cr"
    ensures 100000.0 <= amount < 10000000.0 ==> r == [SYMBOL] + fixed1(amount / 100000.0) + "L"
    ensures 1000.0 <= amount < 100000.0 ==> r == [SYMBOL] + fixed1(amount / 1000.0) + "K"
    ensures amount < 1000.0 ==> r == FormatCurrency(amount, false, render)
  {
    var m := CompactMagnitude(amount);
    if m == Full then FormatCurrency(amount, false, render)
    else [SYMBOL] + fixed1(amount / Scale(m)) + Suffix(m)
  }

  /** The number shown in front of a compact unit is at least 1, and below 100 for
      the thousand and lakh units, so no unit is skipped. */
  lemma CompactMantissaRange(amount: real)
    requires CompactMagnitude(amount) != Full
    ensures amount / Scale(CompactMagnitude(amount)) >= 1.0
    ensures CompactMagnitude(amount) != Crore ==> amount / Scale(CompactMagnitude(amount)) < 100.0
  {
    var m := CompactMagnitude(amount);
    var q := amount / Scale(m);
    assert q * Scale(m) == amount;
  }

  /** The amount a reader reconstructs from a compact mantissa and its unit suffix. */
  function ReadCompact(q: real, suffix: string): Option<real> {
    if suffix == "Cr" then Some(q * 10000000.0)
    else if suffix == "L" then Some(q * 100000.0)
    else if suffix == "K" then Some(q * 1000.0)
    else None
  }

  /** From 1000 up, the compact text is the symbol, a mantissa and a unit suffix that
      read back as the amount (before `toFixed(1)` rounds the mantissa), with the
      mantissa between 1 and 100 for K and L. */
  lemma CompactReadsBack(amount: real, render: (real, Digits) -> string, fixed1: real -> string)
    requires amount >= 1000.0
    ensures var m := CompactMagnitude(amount);
            var q, sfx := amount / Scale(m), Suffix(m);
            FormatCompact(amount, render, fixed1) == [SYMBOL] + fixed1(q) + sfx
            && ReadCompact(q, sfx) == Some(amount)
            && 1.0 <= q && (sfx != "Cr" ==> q < 100.0)
  {
    CompactMantissaRange(amount);
    var m := CompactMagnitude(amount);
    assert (amount / Scale(m)) * Scale(m) == amount;
  }

  /** The position of a unit from the smallest up. */
  function UnitRank(m: Magnitude): nat {
    match m
    case Full => 0
    case Thousand => 1
    case Lakh => 2
    case Crore => 3
  }

  /** A larger amount never gets a smaller unit. */
  lemma UnitsGrowWithAmount(a: real, b: real)
    requires a <= b
    ensures UnitRank(CompactMagnitude(a)) <= UnitRank(CompactMagnitude(b))
  {
  }
}
