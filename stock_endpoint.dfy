/** The stock price endpoint: one call to the service, wrapped in a data
    response on success; a service error is passed on untouched. */
module StockEndpoint {
  import opened Wrappers
  import opened Errors
  import opened Envelope
  import opened StockSchemas
  import opened StockService

  function SuccessMessage(ticker: string): string
  {
    "Stock price retrieved successfully for " + ticker
  }

  /** `get_stock_price(request)` given the provider's outcome for the
      request's ticker: the service is asked once, about the ticker as sent. */
  function GetStockPrice(request: StockPriceRequest, outcome: ProviderOutcome)
    : (r: Result<DataResponse<StockPriceSchema>, EngineError>)
    ensures r.Ok? <==> GetCurrentPrice(request.ticker, outcome).Ok?
    ensures r.Ok? ==> r.value.success
    ensures r.Ok? ==> r.value.message == "Stock price retrieved successfully for " + request.ticker
    ensures r.Ok? ==> r.value.data == GetCurrentPrice(request.ticker, outcome).value
    ensures r.Err? ==> r.error == GetCurrentPrice(request.ticker, outcome).error
  {
    match GetCurrentPrice(request.ticker, outcome)
    case Ok(stockData) =>
      Ok(NewDataResponse(Some(stockData), None, Some(SuccessMessage(request.ticker))).value)
    case Err(e) => Err(e)
  }

  /** The message echoes the ticker as sent while the payload carries it
      upper-cased: for "aapl" the two differ. */
  lemma MessageKeepsTickerAsSent(lastPrice: real, currency: string)
    ensures GetStockPrice(StockPriceRequest("aapl"), Quote(lastPrice, currency)).value.message
         == "Stock price retrieved successfully for aapl"
    ensures GetStockPrice(StockPriceRequest("aapl"), Quote(lastPrice, currency)).value.data.ticker == "AAPL"
  {
  }
}
