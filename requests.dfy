/** The request the form posts (`requestData`, src/ForecastForm.js lines
    60-68). */
module Requests {
  import opened Wrappers
  import opened Instruments

  /** The posted body. `instrument` is the field `type`, sent as
      `TypeTag(instrument)`; `None` is an explicit `null` (or `undefined`
      for an unset currency). */
  datatype ForecastRequest = ForecastRequest(
    instrument: InstrumentType,
    symbol: Option<string>,
    market: Option<string>,
    fromSymbol: Option<string>,
    toSymbol: Option<string>,
    dayCount: int,
    model: string)

  /** The part of the form state that the request carries for each type. */
  datatype Subject =
    | Equity(symbol: string)
    | CryptoPair(base: Option<string>, market: Option<string>)
    | ForexPair(from: Option<string>, to: Option<string>)

  /** The type-relevant part of the selection: the symbol for stock, the
      currency pair otherwise. */
  function SubjectOf(t: InstrumentType, symbol: string, base: Option<string>, target: Option<string>): Subject
  {
    match t
    case Stock => Equity(symbol)
    case Crypto => CryptoPair(base, target)
    case Forex => ForexPair(base, target)
  }

  /** The fields that do not belong to the request's type are null. */
  predicate NullsMatchType(r: ForecastRequest)
  {
    match r.instrument
    case Stock => r.market.None? && r.fromSymbol.None? && r.toSymbol.None?
    case Crypto => r.fromSymbol.None? && r.toSymbol.None?
    case Forex => r.symbol.None? && r.market.None?
  }

  /** The fields that do belong to the request's type are all set. */
  predicate Complete(r: ForecastRequest)
  {
    match r.instrument
    case Stock => r.symbol.Some?
    case Crypto => r.symbol.Some? && r.market.Some?
    case Forex => r.fromSymbol.Some? && r.toSymbol.Some?
  }

  /** Builds the request from the form state; total, with no error path. */
  function BuildRequest(t: InstrumentType, symbol: string, base: Option<string>, target: Option<string>,
                        forecastCount: int, model: string): (r: ForecastRequest)
    ensures r.instrument == t && r.dayCount == forecastCount && r.model == model
    ensures NullsMatchType(r)
    ensures t == Stock ==> r.symbol == Some(symbol)
    ensures t == Crypto ==> r.symbol == base && r.market == target
    ensures t == Forex ==> r.fromSymbol == base && r.toSymbol == target
  {
    ForecastRequest(
      t,
      if t == Stock then Some(symbol) else if t == Crypto then base else None,
      if t == Crypto then target else None,
      if t == Forex then base else None,
      if t == Forex then target else None,
      forecastCount,
      model)
  }

  /** Reads the subject back from a request, or `None` when the request is
      not of the shape `BuildRequest` produces. */
  function RequestSubject(r: ForecastRequest): (s: Option<Subject>)
    ensures s.Some? ==> NullsMatchType(r)
  {
    if !NullsMatchType(r) then None
    else match r.instrument
      case Stock => if r.symbol.Some? then Some(Equity(r.symbol.value)) else None
      case Crypto => Some(CryptoPair(r.symbol, r.market))
      case Forex => Some(ForexPair(r.fromSymbol, r.toSymbol))
  }

  /** The request carries exactly the type-relevant selection. */
  lemma RequestRoundTrip(t: InstrumentType, symbol: string, base: Option<string>, target: Option<string>,
                         forecastCount: int, model: string)
    ensures RequestSubject(BuildRequest(t, symbol, base, target, forecastCount, model))
            == Some(SubjectOf(t, symbol, base, target))
  {
  }

  /** Two form states give the same request exactly when they agree on the
      type, the type-relevant selection, the horizon and the model: nothing
      left over from another type leaks into the request. */
  lemma RequestDeterminedBySubject(
    t1: InstrumentType, symbol1: string, base1: Option<string>, target1: Option<string>, count1: int, model1: string,
    t2: InstrumentType, symbol2: string, base2: Option<string>, target2: Option<string>, count2: int, model2: string)
    ensures BuildRequest(t1, symbol1, base1, target1, count1, model1) == BuildRequest(t2, symbol2, base2, target2, count2, model2)
            <==> t1 == t2 && SubjectOf(t1, symbol1, base1, target1) == SubjectOf(t2, symbol2, base2, target2)
                 && count1 == count2 && model1 == model2
  {
  }

  /** With the type's currency pair set, the request is complete. */
  lemma RequestComplete(t: InstrumentType, symbol: string, base: Option<string>, target: Option<string>,
                        forecastCount: int, model: string)
    requires t != Stock ==> base.Some? && target.Some?
    ensures Complete(BuildRequest(t, symbol, base, target, forecastCount, model))
  {
  }

  /** Stock IBM, model lstm, horizon 3. */
  lemma EquityScenario()
    ensures BuildRequest(Stock, "IBM", None, None, 3, "lstm")
            == ForecastRequest(Stock, Some("IBM"), None, None, None, 3, "lstm")
    ensures TypeTag(Stock) == "stock"
  {
  }

  /** Crypto BTC/USD, horizon 1. */
  lemma CryptoScenario(symbol: string, model: string)
    ensures BuildRequest(Crypto, symbol, Some("BTC"), Some("USD"), 1, model)
            == ForecastRequest(Crypto, Some("BTC"), Some("USD"), None, None, 1, model)
  {
  }
}
