/** lib/currency.ts: the fixed table of ten currencies and their rates per US
    dollar, conversion through USD as the pivot, and the symbol used when an
    amount is formatted. */
module Currency {
  import opened Options
  import opened Folds

  /** The ten codes that the `currencies` list and the rate table both hold. */
  datatype Currency = USD | EUR | GBP | JPY | CAD | AUD | CHF | CNY | INR | BRL

  datatype CurrencyInfo = CurrencyInfo(code: string, name: string, symbol: string)

  /** The `currencies` list, in its order. */
  const Currencies: seq<CurrencyInfo> := [
    CurrencyInfo("USD", "US Dollar", "$"),
    CurrencyInfo("EUR", "Euro", "€"),
    CurrencyInfo("GBP", "British Pound", "£"),
    CurrencyInfo("JPY", "Japanese Yen", "¥"),
    CurrencyInfo("CAD", "Canadian Dollar", "C$"),
    CurrencyInfo("AUD", "Australian Dollar", "A$"),
    CurrencyInfo("CHF", "Swiss Franc", "CHF"),
    CurrencyInfo("CNY", "Chinese Yuan", "¥"),
    CurrencyInfo("INR", "Indian Rupee", "₹"),
    CurrencyInfo("BRL", "Brazilian Real", "R$")
  ]

  /** The `mockExchangeRates` table: units of each currency per US dollar. */
  const MockExchangeRates: map<string, real> := map[
    "USD" := 1.0,
    "EUR" := 0.85,
    "GBP" := 0.73,
    "JPY" := 110.0,
    "CAD" := 1.25,
    "AUD" := 1.35,
    "CHF" := 0.92,
    "CNY" := 6.45,
    "INR" := 74.5,
    "BRL" := 5.2
  ]

  function Code(c: Currency): string
  {
    match c
    case USD => "USD"
    case EUR => "EUR"
    case GBP => "GBP"
    case JPY => "JPY"
    case CAD => "CAD"
    case AUD => "AUD"
    case CHF => "CHF"
    case CNY => "CNY"
    case INR => "INR"
    case BRL => "BRL"
  }

  /** The currencies in the order of the `currencies` list. */
  const AllCurrencies: seq<Currency> := [USD, EUR, GBP, JPY, CAD, AUD, CHF, CNY, INR, BRL]

  /** Units of c per US dollar: the entry of `mockExchangeRates` for c's code
      (TableCoverage proves the two agree). */
  function Rate(c: Currency): (r: real)
    ensures r > 0.0
  {
    match c
    case USD => 1.0
    case EUR => 0.85
    case GBP => 0.73
    case JPY => 110.0
    case CAD => 1.25
    case AUD => 1.35
    case CHF => 0.92
    case CNY => 6.45
    case INR => 74.5
    case BRL => 5.2
  }

  /** Distinct currencies have distinct codes. */
  lemma CodeInjective(a: Currency, b: Currency)
    ensures Code(a) == Code(b) <==> a == b
  {
  }

  /** No two entries of the `currencies` list share a code. */
  lemma ListedCodesDistinct()
    ensures forall i, j :: 0 <= i < j < |Currencies| ==> Currencies[i].code != Currencies[j].code
  {
    ListedInOrder();
    forall i, j | 0 <= i < j < |Currencies| ensures Currencies[i].code != Currencies[j].code {
      CodeInjective(AllCurrencies[i], AllCurrencies[j]);
    }
  }

  /** Every listed currency has a non-empty symbol. */
  lemma SymbolsNonEmpty()
    ensures forall i :: 0 <= i < |Currencies| ==> Currencies[i].symbol != ""
  {
  }

  /** The `currencies` list holds the ten codes in datatype order. */
  lemma ListedInOrder()
    ensures |Currencies| == |AllCurrencies| == 10
    ensures forall i :: 0 <= i < |Currencies| ==> Currencies[i].code == Code(AllCurrencies[i])
    ensures forall c: Currency :: c in AllCurrencies
  {
    forall c: Currency ensures c in AllCurrencies {
      match c
      case USD => assert AllCurrencies[0] == c;
      case EUR => assert AllCurrencies[1] == c;
      case GBP => assert AllCurrencies[2] == c;
      case JPY => assert AllCurrencies[3] == c;
      case CAD => assert AllCurrencies[4] == c;
      case AUD => assert AllCurrencies[5] == c;
      case CHF => assert AllCurrencies[6] == c;
      case CNY => assert AllCurrencies[7] == c;
      case INR => assert AllCurrencies[8] == c;
      case BRL => assert AllCurrencies[9] == c;
    }
  }

  /** The rate table is keyed by exactly the listed codes, holds Rate(c) at
      each code, and gives USD the pivot rate 1. */
  lemma TableCoverage()
    ensures forall c: Currency :: Code(c) in MockExchangeRates && MockExchangeRates[Code(c)] == Rate(c)
    ensures forall code :: code in MockExchangeRates ==> exists c: Currency :: Code(c) == code
    ensures MockExchangeRates[Code(USD)] == 1.0
  {
    forall code | code in MockExchangeRates ensures exists c: Currency :: Code(c) == code {
      if code == "USD" { assert Code(USD) == code; }
      else if code == "EUR" { assert Code(EUR) == code; }
      else if code == "GBP" { assert Code(GBP) == code; }
      else if code == "JPY" { assert Code(JPY) == code; }
      else if code == "CAD" { assert Code(CAD) == code; }
      else if code == "AUD" { assert Code(AUD) == code; }
      else if code == "CHF" { assert Code(CHF) == code; }
      else if code == "CNY" { assert Code(CNY) == code; }
      else if code == "INR" { assert Code(INR) == code; }
      else { assert Code(BRL) == code; }
    }
  }

  /** The table entry of one currency's code is its rate. */
  lemma RateEntry(c: Currency)
    ensures Code(c) in MockExchangeRates && MockExchangeRates[Code(c)] == Rate(c)
  {
  }

  /** Every rate in the table is positive. */
  lemma RatesPositive()
    ensures forall code :: code in MockExchangeRates ==> MockExchangeRates[code] > 0.0
  {
  }

  /** convertCurrency on the source's string codes. The same code converts to
      the amount itself, listed or not. Otherwise the amount goes to USD by
      dividing by the `from` rate and then to the target by multiplying by the
      `to` rate. A code missing from the table makes the source compute NaN,
      which is None here. */
  function ConvertCurrency(amount: real, from: string, to: string): (r: Option<real>)
    ensures from == to ==> r == Some(amount)
    ensures from != to ==> (r.Some? <==> from in MockExchangeRates && to in MockExchangeRates)
  {
    RatesPositive();
    if from == to then Some(amount)
    else if from in MockExchangeRates && to in MockExchangeRates then
      Some(amount / MockExchangeRates[from] * MockExchangeRates[to])
    else None
  }

  /** Conversion between two table currencies, as the dashboard applies it to
      every transaction: the same arithmetic on the typed codes. */
  function Convert(amount: real, from: Currency, to: Currency): real
  {
    if from == to then amount else amount / Rate(from) * Rate(to)
  }

  /** Convert is convertCurrency on the codes of the two currencies, and is
      always defined for them. */
  lemma ConvertMatchesTable(amount: real, from: Currency, to: Currency)
    ensures ConvertCurrency(amount, Code(from), Code(to)) == Some(Convert(amount, from, to))
  {
    RateEntry(from);
    RateEntry(to);
    CodeInjective(from, to);
  }

  /** Converting between table currencies is `amount / rate[from] * rate[to]`
      (for the same code this is exact, since rates are positive reals). */
  lemma ConvertFormula(amount: real, from: Currency, to: Currency)
    ensures Convert(amount, from, to) == amount / Rate(from) * Rate(to)
  {
    var rf := Rate(from);
    if from == to {
      assert amount / rf * rf == amount;
    }
  }

  /** From USD the amount is multiplied by the target rate; to USD it is
      divided by the source rate. */
  lemma ConvertThroughPivot(amount: real, c: Currency)
    ensures Convert(amount, USD, c) == amount * Rate(c)
    ensures Convert(amount, c, USD) == amount / Rate(c)
  {
    ConvertFormula(amount, USD, c);
    ConvertFormula(amount, c, USD);
  }

  /** Converting to the same code returns the amount exactly, even for a code
      that is not in the table. */
  lemma ConvertSameCode(amount: real, code: string)
    ensures ConvertCurrency(amount, code, code) == Some(amount)
  {
  }

  /** Over the reals, converting there and back returns the original amount. */
  lemma ConvertRoundTrip(amount: real, c1: Currency, c2: Currency)
    ensures Convert(Convert(amount, c1, c2), c2, c1) == amount
  {
    ConvertFormula(amount, c1, c2);
    ConvertFormula(amount / Rate(c1) * Rate(c2), c2, c1);
    ScaleRoundTrip(amount, Rate(c1), Rate(c2));
  }

  lemma ScaleRoundTrip(x: real, r1: real, r2: real)
    requires r1 > 0.0 && r2 > 0.0
    ensures x / r1 * r2 / r2 * r1 == x
  {
  }

  lemma ScaleAdditive(a: real, b: real, r1: real, r2: real)
    requires r1 > 0.0
    ensures (a + b) / r1 * r2 == a / r1 * r2 + b / r1 * r2
  {
  }

  /** Conversion is linear: sums are preserved and zero maps to zero. */
  lemma ConvertLinear(a: real, b: real, from: Currency, to: Currency)
    ensures Convert(a + b, from, to) == Convert(a, from, to) + Convert(b, from, to)
    ensures Convert(0.0, from, to) == 0.0
  {
    ConvertFormula(a + b, from, to);
    ConvertFormula(a, from, to);
    ConvertFormula(b, from, to);
    ConvertFormula(0.0, from, to);
    ScaleAdditive(a, b, Rate(from), Rate(to));
  }

  /** Conversion keeps the sign of the amount. */
  lemma ConvertKeepsSign(amount: real, from: Currency, to: Currency)
    ensures amount > 0.0 ==> Convert(amount, from, to) > 0.0
    ensures amount < 0.0 ==> Convert(amount, from, to) < 0.0
    ensures amount >= 0.0 ==> Convert(amount, from, to) >= 0.0
  {
    ConvertFormula(amount, from, to);
    var rf, rt := Rate(from), Rate(to);
    if amount > 0.0 {
      assert amount / rf > 0.0;
    } else if amount < 0.0 {
      assert amount / rf < 0.0;
    }
  }

  /** A code outside the table converts to NaN (None) unless it is also the target. */
  lemma ConvertUnknownCode(amount: real, from: string, to: string)
    requires from != to
    requires from !in MockExchangeRates || to !in MockExchangeRates
    ensures ConvertCurrency(amount, from, to) == None
  {
  }

  function HasCode(code: string): CurrencyInfo -> bool
  {
    (info: CurrencyInfo) => info.code == code
  }

  /** The symbol formatCurrency prints: the listed currency's symbol
      (`currencies.find(...)?.symbol || '$'`). */
  function FormatSymbol(code: string): string
  {
    match FirstIndex(Currencies, HasCode(code))
    case Some(i) => if Currencies[i].symbol != "" then Currencies[i].symbol else "$"
    case None => "$"
  }

  /** A listed code formats with its own symbol. */
  lemma FormatSymbolListed(i: nat)
    requires i < |Currencies|
    ensures FormatSymbol(Currencies[i].code) == Currencies[i].symbol
  {
    var code := Currencies[i].code;
    ListedCodesDistinct();
    SymbolsNonEmpty();
    forall j | 0 <= j < |Currencies| && j != i ensures !HasCode(code)(Currencies[j]) {
      if j < i {
        assert Currencies[j].code != Currencies[i].code;
      } else {
        assert Currencies[i].code != Currencies[j].code;
      }
    }
    FirstIndexOfOnly(Currencies, HasCode(code), i);
  }

  /** A code that is not listed formats with `$`. */
  lemma FormatSymbolUnlisted(code: string)
    requires forall i :: 0 <= i < |Currencies| ==> Currencies[i].code != code
    ensures FormatSymbol(code) == "$"
  {
    assert forall j :: 0 <= j < |Currencies| ==> !HasCode(code)(Currencies[j]);
  }

  /** Symbols are not unique: the yen and the yuan both print as `¥`. */
  lemma SymbolsNotUnique()
    ensures FormatSymbol("JPY") == FormatSymbol("CNY") == "¥"
  {
    FormatSymbolListed(3);
    FormatSymbolListed(7);
  }
}
