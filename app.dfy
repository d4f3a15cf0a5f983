/** The application boundary: the global handler that turns any typed error
    into a 400 error envelope, the root status object, and the path a stock
    price request takes from its body to its reply. */
module App {
  import opened Wrappers
  import opened JsonValues
  import opened PyBuiltins
  import opened Errors
  import opened Envelope
  import opened AppSettings
  import opened StockSchemas
  import opened StockService
  import opened StockEndpoint

  /** A JSON response: a status code and a body. */
  datatype JsonResponse = JsonResponse(statusCode: int, content: Value)

  const ErrorStatus := 400

  /** `ai_engine_exception_handler`: status 400 and the dump of an error
      response that carries the error's message and details unchanged. */
  function ExceptionHandler(exc: EngineError): (r: JsonResponse)
    ensures r.statusCode == 400
    ensures LoadDumpedErrorResponse(r.content) == Some(ErrorResponse(false, exc.message, Some(exc.details)))
    ensures r.content.JObj? && r.content.fields.Keys == {"success", "message", "details"}
    ensures r.content.fields["success"] == JBool(false)
    ensures r.content.fields["message"] == JStr(exc.message)
    ensures r.content.fields["details"] == JObj(exc.details)
  {
    var response := NewErrorResponse(Some(exc.message), Some(false), Some(exc.details)).value;
    ErrorResponseRoundTrip(response);
    JsonResponse(ErrorStatus, DumpErrorResponse(response))
  }

  /** The reply does not depend on which class of the hierarchy was raised. */
  lemma HandlerIgnoresClass(exc: EngineError, c: ErrorClass)
    ensures ExceptionHandler(exc.(cls := c)) == ExceptionHandler(exc)
  {
  }

  /** `root`: the plain status object, outside the envelope. */
  function Root(settings: Settings): (r: map<string, string>)
    ensures r.Keys == {"status", "service", "version"}
    ensures r["status"] == "running"
    ensures r["service"] == settings.appName && r["version"] == settings.appVersion
  {
    map["status" := "running", "service" := settings.appName, "version" := settings.appVersion]
  }

  /** What the client receives for a stock price request: the dump of a data
      envelope, the dump of an error envelope, or the schema's complaints. */
  datatype Body =
    | DataBody(content: Value)
    | ErrorBody(content: Value)
    | SchemaErrors(errors: seq<FieldError>)

  datatype Reply = Reply(statusCode: int, body: Body)

  const UnprocessableStatus := 422
  const OkStatus := 200

  /** POST /stocks/price: the body is checked against the request schema
      (422 when refused), the endpoint runs and its response is dumped
      through the response model (200), and a typed error it raises goes to
      the global handler (400). */
  function PostStockPrice(body: Value, outcome: ProviderOutcome): (r: Reply)
    ensures r.statusCode in {200, 400, 422}
    ensures r.statusCode == 422 <==> LoadStockPriceRequest(body).Err?
    ensures r.statusCode == 422 ==> r.body == SchemaErrors(LoadStockPriceRequest(body).error)
    ensures r.statusCode == 200 <==> LoadStockPriceRequest(body).Ok? && outcome.Quote?
    ensures r.statusCode == 200 ==>
      r.body == DataBody(DumpStockPriceResponse(GetStockPrice(LoadStockPriceRequest(body).value, outcome).value))
    ensures r.statusCode == 200 ==>
      r.body.DataBody?
      && LoadDumpedStockPriceResponse(r.body.content) == Some(GetStockPrice(LoadStockPriceRequest(body).value, outcome).value)
    ensures r.statusCode == 200 ==>
      r.body.content.fields["success"] == JBool(true)
      && r.body.content.fields["data"].fields["ticker"] == JStr(Upper(LoadStockPriceRequest(body).value.ticker))
      && r.body.content.fields["data"].fields["market_status"] == JStr("open")
    ensures r.statusCode == 400 ==>
      r.body.ErrorBody? && r.body.content.JObj? && "success" in r.body.content.fields
      && r.body.content.fields["success"] == JBool(false)
    ensures r.statusCode == 400 ==>
      r.body == ErrorBody(ExceptionHandler(GetStockPrice(LoadStockPriceRequest(body).value, outcome).error).content)
  {
    match LoadStockPriceRequest(body)
    case Err(errors) => Reply(UnprocessableStatus, SchemaErrors(errors))
    case Ok(request) =>
      match GetStockPrice(request, outcome)
      case Ok(response) =>
        StockPriceResponseRoundTrip(response);
        Reply(OkStatus, DataBody(DumpStockPriceResponse(response)))
      case Err(e) =>
        var handled := ExceptionHandler(e);
        Reply(handled.statusCode, ErrorBody(handled.content))
  }

  /** A body without a ticker is answered with 422, whatever the provider
      would have said. */
  lemma MissingTickerIs422(outcome: ProviderOutcome)
    ensures PostStockPrice(JObj(map[]), outcome).statusCode == 422
  {
  }

  /** A well-formed request for a ticker the provider cannot resolve is
      answered with 400, success false and the "unable to fetch" message. */
  lemma UnresolvedTickerIs400(ticker: string, text: string)
    requires TickerMinLength <= |ticker| <= TickerMaxLength
    ensures PostStockPrice(TickerBody(ticker), AttributeFailure(text)).statusCode == 400
    ensures PostStockPrice(TickerBody(ticker), AttributeFailure(text)).body.content.fields["message"]
         == JStr(UnableToFetchMessage(ticker))
  {
  }

  /** POST {"ticker": "AAPL"} with a quote above half a cent: 200, success
      true, and under `data` the ticker "AAPL", a positive `current_price`
      and the status "open". */
  lemma AaplScenario(lastPrice: real, currency: string)
    requires lastPrice > 0.005
    ensures PostStockPrice(TickerBody("AAPL"), Quote(lastPrice, currency)).statusCode == 200
    ensures PostStockPrice(TickerBody("AAPL"), Quote(lastPrice, currency)).body.content.fields["success"] == JBool(true)
    ensures PostStockPrice(TickerBody("AAPL"), Quote(lastPrice, currency)).body.content.fields["data"].fields["ticker"]
         == JStr("AAPL")
    ensures PostStockPrice(TickerBody("AAPL"), Quote(lastPrice, currency)).body.content.fields["data"].fields["current_price"].n
         > 0.0
    ensures PostStockPrice(TickerBody("AAPL"), Quote(lastPrice, currency)).body.content.fields["data"].fields["market_status"]
         == JStr("open")
  {
  }
}
