/** The stock request and result schemas.  A request carries one ticker whose
    length must be between 1 and 10; a result needs all four of its fields. */
module StockSchemas {
  import opened Wrappers
  import opened JsonValues
  import opened Envelope

  const TickerMinLength: nat := 1
  const TickerMaxLength: nat := 10

  datatype StockPriceRequest = StockPriceRequest(ticker: string)

  datatype StockPriceSchema = StockPriceSchema(ticker: string, currentPrice: real, currency: string, marketStatus: string)

  /** Validation of a request body against `StockPriceRequest`: the body must
      be an object with a string `ticker` of 1 to 10 characters, kept exactly
      as sent; other fields of the body are ignored. */
  function LoadStockPriceRequest(body: Value): (r: Result<StockPriceRequest, seq<FieldError>>)
    ensures !body.JObj? ==> r == Err([NotAnObject])
    ensures body.JObj? && "ticker" !in body.fields ==> r == Err([Missing("ticker")])
    ensures body.JObj? && "ticker" in body.fields && !body.fields["ticker"].JStr? ==> r == Err([NotAString("ticker")])
    ensures r.Ok? <==>
      body.JObj? && "ticker" in body.fields && body.fields["ticker"].JStr?
      && TickerMinLength <= |body.fields["ticker"].s| <= TickerMaxLength
    ensures r.Ok? ==> r.value.ticker == body.fields["ticker"].s
    ensures r.Err? ==> |r.error| == 1
  {
    if !body.JObj? then Err([NotAnObject])
    else if "ticker" !in body.fields then Err([Missing("ticker")])
    else
      match body.fields["ticker"]
      case JStr(t) =>
        if |t| < TickerMinLength then Err([StringTooShort("ticker", TickerMinLength)])
        else if |t| > TickerMaxLength then Err([StringTooLong("ticker", TickerMaxLength)])
        else Ok(StockPriceRequest(t))
      case _ => Err([NotAString("ticker")])
  }

  /** The body `{"ticker": t}`. */
  function TickerBody(t: string): Value
  {
    JObj(map["ticker" := JStr(t)])
  }

  /** The empty ticker is refused for being too short. */
  lemma EmptyTickerRejected()
    ensures LoadStockPriceRequest(TickerBody("")) == Err([StringTooShort("ticker", 1)])
  {
  }

  /** A ticker of more than ten characters is refused for being too long;
      "INVALID_TICKER_123" is one such. */
  lemma LongTickerRejected(t: string)
    requires |t| > TickerMaxLength
    ensures LoadStockPriceRequest(TickerBody(t)) == Err([StringTooLong("ticker", 10)])
  {
  }

  /** Length is the only rule: any string of 1 to 10 characters, lower case
      or blank included, is accepted unchanged, and extra fields change
      nothing. */
  lemma AnyShortTickerAccepted(t: string, extra: map<string, Value>)
    requires TickerMinLength <= |t| <= TickerMaxLength
    ensures LoadStockPriceRequest(JObj(extra["ticker" := JStr(t)])) == Ok(StockPriceRequest(t))
  {
  }

  /** `StockPriceSchema(...)` with keywords that may be left out: every field
      is required, and each one missing is reported, in declaration order. */
  function NewStockPriceSchema(ticker: Option<string>, currentPrice: Option<real>,
                               currency: Option<string>, marketStatus: Option<string>)
    : (r: Result<StockPriceSchema, seq<FieldError>>)
    ensures r.Ok? <==> ticker.Some? && currentPrice.Some? && currency.Some? && marketStatus.Some?
    ensures r.Ok? ==> r.value == StockPriceSchema(ticker.value, currentPrice.value, currency.value, marketStatus.value)
    ensures r.Err? ==> (Missing("ticker") in r.error <==> ticker.None?)
    ensures r.Err? ==> (Missing("current_price") in r.error <==> currentPrice.None?)
    ensures r.Err? ==> (Missing("currency") in r.error <==> currency.None?)
    ensures r.Err? ==> (Missing("market_status") in r.error <==> marketStatus.None?)
    ensures r.Err? ==> |r.error| >= 1
  {
    var missing :=
      (if ticker.None? then [Missing("ticker")] else [])
      + (if currentPrice.None? then [Missing("current_price")] else [])
      + (if currency.None? then [Missing("currency")] else [])
      + (if marketStatus.None? then [Missing("market_status")] else []);
    if missing == [] then
      Ok(StockPriceSchema(ticker.value, currentPrice.value, currency.value, marketStatus.value))
    else Err(missing)
  }

  /** `model_dump()` of a stock price: an object with exactly its four
      fields, under their snake_case names. */
  function DumpStockPriceSchema(p: StockPriceSchema): (j: Value)
    ensures j.JObj? && j.fields.Keys == {"ticker", "current_price", "currency", "market_status"}
    ensures j.fields["ticker"] == JStr(p.ticker) && j.fields["current_price"] == JNum(p.currentPrice)
    ensures j.fields["currency"] == JStr(p.currency) && j.fields["market_status"] == JStr(p.marketStatus)
  {
    JObj(map[
      "ticker" := JStr(p.ticker),
      "current_price" := JNum(p.currentPrice),
      "currency" := JStr(p.currency),
      "market_status" := JStr(p.marketStatus)])
  }

  /** The stock price read back from a dump of one. */
  function LoadDumpedStockPriceSchema(j: Value): (r: Option<StockPriceSchema>)
    ensures r.Some? ==> DumpStockPriceSchema(r.value) == j
  {
    if j.JObj? && j.fields.Keys == {"ticker", "current_price", "currency", "market_status"}
      && j.fields["ticker"].JStr? && j.fields["current_price"].JNum?
      && j.fields["currency"].JStr? && j.fields["market_status"].JStr?
    then
      var p := StockPriceSchema(j.fields["ticker"].s, j.fields["current_price"].n,
                                j.fields["currency"].s, j.fields["market_status"].s);
      assert DumpStockPriceSchema(p).fields == j.fields;
      Some(p)
    else None
  }

  /** `model_dump()` of a `DataResponse[StockPriceSchema]`: the two envelope
      fields and the dumped stock price under `data`. */
  function DumpStockPriceResponse(r: DataResponse<StockPriceSchema>): (j: Value)
    ensures j.JObj? && j.fields.Keys == {"success", "message", "data"}
    ensures j.fields["success"] == JBool(r.success) && j.fields["message"] == JStr(r.message)
    ensures j.fields["data"] == DumpStockPriceSchema(r.data)
  {
    JObj(map[
      "success" := JBool(r.success),
      "message" := JStr(r.message),
      "data" := DumpStockPriceSchema(r.data)])
  }

  /** The data response read back from a dump of one. */
  function LoadDumpedStockPriceResponse(j: Value): (r: Option<DataResponse<StockPriceSchema>>)
    ensures r.Some? ==> DumpStockPriceResponse(r.value) == j
  {
    if j.JObj? && j.fields.Keys == {"success", "message", "data"}
      && j.fields["success"].JBool? && j.fields["message"].JStr?
      && LoadDumpedStockPriceSchema(j.fields["data"]).Some?
    then
      var r := DataResponse(j.fields["success"].b, j.fields["message"].s,
                            LoadDumpedStockPriceSchema(j.fields["data"]).value);
      assert DumpStockPriceResponse(r).fields == j.fields;
      Some(r)
    else None
  }

  /** Dumping a stock price loses nothing. */
  lemma StockPriceRoundTrip(p: StockPriceSchema)
    ensures LoadDumpedStockPriceSchema(DumpStockPriceSchema(p)) == Some(p)
  {
  }

  /** Dumping a stock price data response loses nothing. */
  lemma StockPriceResponseRoundTrip(r: DataResponse<StockPriceSchema>)
    ensures LoadDumpedStockPriceResponse(DumpStockPriceResponse(r)) == Some(r)
  {
  }
}
