/** The stock service: turns what the quote provider gave back into a stock
    price result, or into an `ExternalAPIError` with a fixed message. */
module StockService {
  import opened Wrappers
  import opened JsonValues
  import opened PyBuiltins
  import opened Errors
  import opened StockSchemas

  /** What reading the provider's quote snapshot for a ticker came to: the
      last price and currency, an `AttributeError`, or any other exception
      (with its `str(e)`).  `Quote` stands only for a snapshot whose price is
      a finite number and whose currency is a `str`.  A missing price makes
      `round` raise a `TypeError`, and a missing or non-string currency makes
      the schema raise a `ValidationError`; both reach the generic handler,
      so such snapshots are an `OtherFailure` carrying that exception's text.
      NaN and infinite prices are not modelled. */
  datatype ProviderOutcome =
    | Quote(lastPrice: real, currency: string)
    | AttributeFailure(text: string)
    | OtherFailure(text: string)

  const MarketStatusOpen := "open"
  const InvalidTickerText := "Invalid ticker or data not available"

  function UnableToFetchMessage(ticker: string): string
  {
    "Unable to fetch stock data for ticker: " + ticker
  }

  function ExternalFailureMessage(ticker: string): string
  {
    "External API error while fetching stock data for " + ticker
  }

  /** `get_current_price(ticker)` given the provider's outcome.  A quote gives
      the ticker upper-cased, the price rounded to cents, the currency as
      given and the market status "open"; every failure gives an
      `ExternalAPIError` whose details name the ticker as given. */
  function GetCurrentPrice(ticker: string, outcome: ProviderOutcome): (r: Result<StockPriceSchema, EngineError>)
    ensures r.Ok? <==> outcome.Quote?
    ensures r.Ok? ==> r.value.ticker == Upper(ticker)
    ensures r.Ok? ==> r.value.currentPrice == Round2(outcome.lastPrice)
    ensures r.Ok? ==> r.value.currency == outcome.currency
    ensures r.Ok? ==> r.value.marketStatus == "open"
    ensures r.Err? ==> r.error.cls == ExternalAPIError
    ensures r.Err? ==> r.error.details.Keys == {"ticker", "error"} && r.error.details["ticker"] == JStr(ticker)
    ensures outcome.AttributeFailure? ==>
      r.Err? && r.error.message == "Unable to fetch stock data for ticker: " + ticker
      && r.error.details["error"] == JStr("Invalid ticker or data not available")
    ensures outcome.OtherFailure? ==>
      r.Err? && r.error.message == "External API error while fetching stock data for " + ticker
      && r.error.details["error"] == JStr(outcome.text)
  {
    match outcome
    case Quote(lastPrice, currency) =>
      Ok(StockPriceSchema(Upper(ticker), Round2(lastPrice), currency, MarketStatusOpen))
    case AttributeFailure(_) =>
      Err(NewError(ExternalAPIError, UnableToFetchMessage(ticker),
                   Some(map["ticker" := JStr(ticker), "error" := JStr(InvalidTickerText)])))
    case OtherFailure(text) =>
      Err(NewError(ExternalAPIError, ExternalFailureMessage(ticker),
                   Some(map["ticker" := JStr(ticker), "error" := JStr(text)])))
  }

  /** The text of the `AttributeError` never reaches the caller. */
  lemma AttributeTextIgnored(ticker: string, t1: string, t2: string)
    ensures GetCurrentPrice(ticker, AttributeFailure(t1)) == GetCurrentPrice(ticker, AttributeFailure(t2))
  {
  }

  /** The two failure messages differ for every ticker, so a caller can tell
      an unknown ticker from any other failure by the message alone. */
  lemma FailureMessagesDistinct(ticker: string)
    ensures UnableToFetchMessage(ticker) != ExternalFailureMessage(ticker)
  {
  }

  /** A quote above half a cent gives a positive price, and a result ticker
      never holds a lower-case letter. */
  lemma QuoteResultShape(ticker: string, lastPrice: real, currency: string)
    requires lastPrice > 0.005
    ensures GetCurrentPrice(ticker, Quote(lastPrice, currency)).value.currentPrice > 0.0
    ensures forall i :: 0 <= i < |ticker| ==>
      !IsAsciiLower(GetCurrentPrice(ticker, Quote(lastPrice, currency)).value.ticker[i])
  {
  }
}
