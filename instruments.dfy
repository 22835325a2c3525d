/** Instrument types and the static lookup tables of the forecast form
    (src/ForecastForm.js, lines 12-24), with the option lists the form's
    selectors offer for them. */
module Instruments {
  import opened Wrappers

  /** The three values of the type selector (lines 185-187). */
  datatype InstrumentType = Stock | Crypto | Forex

  /** The selector value of each type, which is also the request's `type`. */
  function TypeTag(t: InstrumentType): (r: string)
    ensures r == "stock" <==> t == Stock
    ensures r == "crypto" <==> t == Crypto
    ensures r == "forex" <==> t == Forex
  {
    match t
    case Stock => "stock"
    case Crypto => "crypto"
    case Forex => "forex"
  }

  /** Reads a selector value back; the selector offers no other values. */
  function ParseType(s: string): (r: Option<InstrumentType>)
    ensures r.Some? ==> TypeTag(r.value) == s
    ensures r.None? ==> s != "stock" && s != "crypto" && s != "forex"
  {
    if s == "stock" then Some(Stock)
    else if s == "crypto" then Some(Crypto)
    else if s == "forex" then Some(Forex)
    else None
  }

  lemma TypeTagRoundTrip(t: InstrumentType)
    ensures ParseType(TypeTag(t)) == Some(t)
  {
  }

  /** One key of a currency table with the target currencies it allows. */
  datatype Entry = Entry(key: string, targets: seq<string>)

  /** A JavaScript object literal from currency to target list, in the order
      its keys were written (the order `Object.keys` returns them). */
  type Table = seq<Entry>

  const STOCK_SYMBOLS: seq<string> := ["IBM", "AAPL", "GOOGL", "MSFT"]

  const CRYPTO_CURRENCIES: Table :=
    [Entry("BTC", ["USD"]), Entry("ETH", ["USD"]), Entry("XRP", ["USD"]), Entry("LTC", ["USD"])]

  const FOREX_CURRENCIES: Table :=
    [Entry("EUR", ["USD", "RUB"]), Entry("UAH", ["RUB"]), Entry("CNY", ["RUB", "USD"]), Entry("GBP", ["USD"])]

  /** `Object.keys(table)`. */
  function Keys(table: Table): (r: seq<string>)
    ensures |r| == |table|
    ensures forall i :: 0 <= i < |table| ==> r[i] == table[i].key
  {
    if table == [] then [] else [table[0].key] + Keys(table[1..])
  }

  /** `table[key]`: the target list of the first entry with that key, or
      `undefined` when the key is missing. */
  function Lookup(table: Table, key: string): (r: Option<seq<string>>)
    ensures r.Some? <==> key in Keys(table)
    ensures r.Some? ==> Entry(key, r.value) in table
  {
    if table == [] then None
    else if table[0].key == key then Some(table[0].targets)
    else Lookup(table[1..], key)
  }

  /** True when `key` is a key of `table`. */
  predicate HasKey(table: Table, key: string)
  {
    table != [] && (table[0].key == key || HasKey(table[1..], key))
  }

  /** True when `v` is a target currency of some entry of `table`. */
  predicate HasTarget(table: Table, v: string)
  {
    table != [] && (v in table[0].targets || HasTarget(table[1..], v))
  }

  lemma {:induction false} HasKeyIff(table: Table, key: string)
    ensures HasKey(table, key) <==> key in Keys(table)
  {
    if table != [] {
      assert Keys(table) == [table[0].key] + Keys(table[1..]);
      HasKeyIff(table[1..], key);
    }
  }

  /** The table the currency selectors read (lines 217 and 234); they are
      shown only for crypto and forex (line 208). */
  function CurrencyTable(t: InstrumentType): (r: Table)
    ensures t == Crypto ==> r == CRYPTO_CURRENCIES
    ensures t == Forex ==> r == FOREX_CURRENCIES
  {
    if t == Crypto then CRYPTO_CURRENCIES else FOREX_CURRENCIES
  }

  /** The base-currency options (line 217). */
  function BaseOptions(t: InstrumentType): (r: seq<string>)
    ensures |r| == |CurrencyTable(t)|
    ensures forall i :: 0 <= i < |r| ==> r[i] == CurrencyTable(t)[i].key
  {
    Keys(CurrencyTable(t))
  }

  /** The target-currency options: `table[base] || []` (lines 234-236). */
  function TargetOptions(t: InstrumentType, base: Option<string>): (r: seq<string>)
    ensures base.None? ==> r == []
    ensures base.Some? && base.value in BaseOptions(t) ==> Entry(base.value, r) in CurrencyTable(t)
  {
    match base
    case None => []
    case Some(b) => Lookup(CurrencyTable(t), b).GetOr([])
  }

  /** Every entry of both static tables allows at least one target. */
  lemma TablesHaveTargets(t: InstrumentType)
    ensures forall e :: e in CurrencyTable(t) ==> |e.targets| > 0
  {
  }

  /** The `|| []` fallback is taken exactly when `base` is not a key of the
      active table. */
  lemma TargetOptionsEmptyIff(t: InstrumentType, base: Option<string>)
    ensures TargetOptions(t, base) == [] <==> !(base.Some? && base.value in BaseOptions(t))
  {
  }

  /** Every offered target currency belongs to the active table. */
  lemma TargetOptionsInTable(t: InstrumentType, base: Option<string>, v: string)
    requires v in TargetOptions(t, base)
    ensures HasTarget(CurrencyTable(t), v)
  {
  }

  /** The base currency the type-change effect selects (lines 43 and 46). */
  function DefaultBase(t: InstrumentType): (r: string)
    requires t != Stock
    ensures r in BaseOptions(t)
  {
    if t == Crypto then "BTC" else "EUR"
  }

  /** `table[DefaultBase(t)][0]` (lines 44 and 47). */
  function DefaultTarget(t: InstrumentType): (r: string)
    requires t != Stock
    ensures r in TargetOptions(t, Some(DefaultBase(t)))
    ensures r == TargetOptions(t, Some(DefaultBase(t)))[0]
  {
    Lookup(CurrencyTable(t), DefaultBase(t)).value[0]
  }

  /** The defaults are a base of the active table and a target it allows. */
  lemma DefaultsValid(t: InstrumentType)
    requires t != Stock
    ensures DefaultBase(t) in BaseOptions(t)
    ensures DefaultTarget(t) in TargetOptions(t, Some(DefaultBase(t)))
    ensures HasKey(CurrencyTable(t), DefaultBase(t)) && HasTarget(CurrencyTable(t), DefaultTarget(t))
    ensures t == Crypto ==> DefaultBase(t) == "BTC" && DefaultTarget(t) == "USD"
    ensures t == Forex ==> DefaultBase(t) == "EUR" && DefaultTarget(t) == "USD"
  {
  }

  /** The base-currency edit keeps the old target (line 215), so a pair the
      table allows can become one it does not: EUR/RUB, then base GBP. */
  lemma StaleTargetAfterBaseEdit()
    ensures "RUB" in TargetOptions(Forex, Some("EUR"))
    ensures "GBP" in BaseOptions(Forex)
    ensures "RUB" !in TargetOptions(Forex, Some("GBP"))
  {
  }
}
