# Stock price engine and crawling entities, in Dafny

This project models two small pieces of the calix-ai repository and proves
properties about them.

- **The AI engine's request/response contract.** This is the Python service
  in `ai-engine/`. It has three envelope shapes:
  - a base response (`success`, `message`);
  - a data response, which adds a required `data`;
  - an error response, which adds optional `details`.

  It also models the typed error hierarchy (`AIEngineException` and its
  three subclasses), the ticker rule of the stock request schema, and the
  stock service. The service turns what the quote provider returned into a
  price result, or into an `ExternalAPIError` with a fixed message. Then
  come the endpoint that wraps the result, the global handler that answers
  every typed error with a 400 error envelope, the root status object, and
  the two health messages. The provider call is an input value,
  `ProviderOutcome`: a quote (last price and currency), an `AttributeError`,
  or any other exception together with its text. With that, everything
  downstream is a total function whose results are exact strings and maps.
  `PostStockPrice` puts the pieces together: schema check (422), endpoint
  (200), global handler (400).
- **The crawling entities.** These are the Java classes in
  `core-backend/invest-domain`.
  - `CrawlingJob` is a class whose `Complete` and `Fail` methods update
    status, end time, counts and error message in place.
  - `RawCrawledData` is a class whose `MarkAs…` methods update status,
    processing time and error message in place.
  - `JobStatus` and `CrawlingStatus` are enums with fixed descriptions.

  The clock (`LocalDateTime.now()`) is a parameter of each transition
  that reads it (`Complete`, `Fail`, `MarkAsProcessed`).

Module layout follows the source: one module per core file (`Errors`,
`Envelope`, `StockSchemas`, `StockService`, `StockEndpoint`,
`HealthEndpoint`, `App`, `JobStatusEnum`, `CrawlingStatusEnum`,
`CrawlingJobEntity`, `RawCrawledDataEntity`). A few small support modules
sit beside them:
- `Wrappers` holds Option and Result.
- `JsonValues` holds JSON values, used for `Any`, for `model_dump()` and for
  request bodies.
- `PyBuiltins` holds `str.upper`, `str.lower`, substring search and
  `round(x, 2)`.
- `JavaTypes` holds 32-bit `int` addition, `LocalDateTime` and
  `Duration.getSeconds()`.
- `AppSettings` holds the app name and version, as plain values.

Behaviours of the code worth knowing:
- A ticker is not trimmed (`ai-engine/app/schemas/stock.py:17`). Any string
  of 1 to 10 characters is accepted, including blank ones.
- The success message echoes the ticker as sent, not upper-cased
  (`ai-engine/app/api/v1/endpoints/stocks.py:67`).
- `current_price` is the provider's price rounded to cents and is never
  checked to be positive (`ai-engine/app/services/stock_service.py:55`). The
  model proves it positive only when the provider's price is above half a
  cent.
- Error details are a dictionary of arbitrary values, and an empty one is
  replaced by `{}` (`ai-engine/app/core/errors.py:19-28`).
- A request body with ticker `"INVALID_TICKER_123"` (18 characters) is
  refused by the schema with 422 (`StockSchemas.LongTickerRejected`). It never
  reaches the service, so it cannot produce the 400 that
  `ai-engine/tests/test_api/test_v1/test_stocks.py:57` expects for it.

## Model

| member | source | states |
|---|---|---|
| Errors.NewError | ai-engine/app/core/errors.py:19-29 | the error keeps its class and its message unchanged; `str(e)` (the model's `Str`, which prints the single argument passed to the base class) is the message; omitted details become `{}`, given details are kept |
| Errors.DetailsOrEmpty | ai-engine/app/core/errors.py:28 | `details or {}` maps `None` to the empty map and keeps every given map, the empty one included |
| Errors.ConstructionIgnoresClass | ai-engine/app/core/errors.py:32-60 | the three subclasses add nothing: the same arguments build the same error up to its class |
| Errors.BaseCatchesAll | ai-engine/app/core/errors.py:11-60 | following the declared base classes, every class of the hierarchy is a subclass of `AIEngineException` |
| Errors.SubclassesOfFlatHierarchy | ai-engine/app/core/errors.py:32-60 | following the declared base classes, a class is a subclass exactly of itself and of `AIEngineException`, so no subclass catches a sibling |
| Envelope.NewBaseResponse | ai-engine/app/schemas/base.py:16-24 | `success` defaults to true and `message` to "Success"; given values are kept |
| Envelope.NewDataResponse | ai-engine/app/schemas/base.py:27-42 | refused exactly when `data` is missing; otherwise holds the given data and the base response's defaults |
| Envelope.NewErrorResponse | ai-engine/app/schemas/base.py:45-54 | refused exactly when `message` is missing; `success` defaults to false, `details` to None |
| Envelope.DumpErrorResponse | ai-engine/app/main.py:58-62 | `model_dump()` gives an object with exactly `success`, `message` and `details`, holding the fields' values, None as null |
| Envelope.LoadDumpedErrorResponse | ai-engine/app/schemas/base.py:45-54 | whatever it reads back, dumps back to the same JSON |
| Envelope.ErrorResponseRoundTrip | ai-engine/app/schemas/base.py:45-54 | dumping an error response and reading it back gives the same response |
| StockSchemas.LoadStockPriceRequest | ai-engine/app/schemas/stock.py:10-17 | a body is accepted exactly when it has a string ticker of length 1..10, which is kept as sent; a missing ticker, a non-string ticker and a non-object body each get their own refusal |
| StockSchemas.EmptyTickerRejected | ai-engine/app/schemas/stock.py:17 | the empty ticker is refused for min_length 1 |
| StockSchemas.LongTickerRejected | ai-engine/app/schemas/stock.py:17 | every ticker over 10 characters is refused for max_length 10 |
| StockSchemas.AnyShortTickerAccepted | ai-engine/app/schemas/stock.py:17 | length is the only rule: any 1..10-character string, lower case or blank, is accepted unchanged, whatever other fields the body has |
| StockSchemas.NewStockPriceSchema | ai-engine/app/schemas/stock.py:27-37 | a result is built exactly when all four fields are given, and each missing field is reported |
| StockSchemas.DumpStockPriceSchema | ai-engine/app/schemas/stock.py:27-37 | `model_dump()` gives an object with exactly `ticker`, `current_price`, `currency` and `market_status`, holding the fields' values |
| StockSchemas.LoadDumpedStockPriceSchema | ai-engine/app/schemas/stock.py:27-37 | whatever it reads back, dumps back to the same JSON |
| StockSchemas.StockPriceRoundTrip | ai-engine/app/schemas/stock.py:27-37 | dumping a stock price and reading it back gives the same stock price |
| StockSchemas.DumpStockPriceResponse | ai-engine/app/api/v1/endpoints/stocks.py:19 | the 200 reply body (`App.PostStockPrice`) of a data response is an object with exactly `success`, `message` and the dumped stock price under `data` |
| StockSchemas.LoadDumpedStockPriceResponse | ai-engine/app/schemas/base.py:27-42 | whatever it reads back, dumps back to the same JSON |
| StockSchemas.StockPriceResponseRoundTrip | ai-engine/app/schemas/base.py:27-42 | dumping a stock price data response and reading it back gives the same response |
| StockService.GetCurrentPrice | ai-engine/app/services/stock_service.py:24-76 | a quote gives the upper-cased ticker, the rounded price, the provider's currency and "open"; an AttributeError gives ExternalAPIError "Unable to fetch stock data for ticker: <t>" with details ticker and the fixed reason; any other failure gives ExternalAPIError "External API error while fetching stock data for <t>" with details ticker and str(e); every failure is an ExternalAPIError |
| StockService.AttributeTextIgnored | ai-engine/app/services/stock_service.py:63-69 | the AttributeError's own text never reaches the error |
| StockService.FailureMessagesDistinct | ai-engine/app/services/stock_service.py:66-75 | the two failure messages differ for every ticker |
| StockService.QuoteResultShape | ai-engine/app/services/stock_service.py:53-58 | a quote above half a cent gives a positive price, and the result ticker holds no lower-case letter |
| StockEndpoint.GetStockPrice | ai-engine/app/api/v1/endpoints/stocks.py:19-68 | succeeds exactly when the service does, then with success true, the message "Stock price retrieved successfully for <ticker as sent>" and the service's result as data; a service error is passed on unchanged |
| StockEndpoint.MessageKeepsTickerAsSent | ai-engine/app/api/v1/endpoints/stocks.py:65-68 | for "aapl" the message says "aapl" while the data says "AAPL" |
| HealthEndpoint.HealthCheck | ai-engine/app/api/v1/endpoints/health.py:16-30 | always success, with message "<name> v<version> is healthy" |
| HealthEndpoint.ReadinessCheck | ai-engine/app/api/v1/endpoints/health.py:33-52 | always success, with no dependency check, and message "<name> is ready to serve requests" |
| HealthEndpoint.HealthMessageSaysHealthy | ai-engine/app/api/v1/endpoints/health.py:27-30 | the lower-cased health message contains "healthy" for every name and version |
| HealthEndpoint.ReadinessMessageSaysReady | ai-engine/app/api/v1/endpoints/health.py:49-52 | the lower-cased readiness message contains "ready" for every name |
| App.ExceptionHandler | ai-engine/app/main.py:48-63 | status 400; the body is the dump of an error response with success false and the error's message and details unchanged (an empty details map stays `{}`) |
| App.HandlerIgnoresClass | ai-engine/app/main.py:49-57 | the reply is the same whichever class was raised |
| App.Root | ai-engine/app/main.py:70-82 | the plain object with status "running", the service name and the version, and no other keys |
| App.PostStockPrice | ai-engine/app/api/v1/endpoints/stocks.py:19-23 | 422 exactly when the schema refuses the body, with the schema's reasons; 200 exactly when it is accepted and the provider quotes, with exactly the dump of the endpoint's data response as body (success true, the upper-cased ticker and "open" under `data`), from which that response reads back; 400 otherwise, with exactly the global handler's error envelope for the error the endpoint raised |
| App.MissingTickerIs422 | ai-engine/tests/test_api/test_v1/test_stocks.py:67-81 | a body without a ticker gets 422 whatever the provider does |
| App.UnresolvedTickerIs400 | ai-engine/app/services/stock_service.py:63-69 | a well-formed ticker the provider cannot resolve gets 400 with the "Unable to fetch" message |
| App.AaplScenario | ai-engine/tests/test_api/test_v1/test_stocks.py:9-39 | POST {"ticker": "AAPL"} with a quote above half a cent gives 200, success true, and under `data` the ticker "AAPL", a positive `current_price` and the status "open" |
| PyBuiltins.Upper | ai-engine/app/services/stock_service.py:54 | `upper()` keeps the length, turns each lower-case letter into its capital, keeps the rest and leaves no lower-case letter |
| PyBuiltins.Lower | ai-engine/tests/test_api/test_v1/test_health.py:23 | `lower()` keeps the length, turns each capital into its lower-case letter, keeps the rest and leaves no capital |
| PyBuiltins.UpperIdempotent | ai-engine/app/services/stock_service.py:54 | upper-casing an upper-cased ticker changes nothing |
| PyBuiltins.RoundToCents | ai-engine/app/services/stock_service.py:55 | `round(x, 2)` in cents: within half a cent of x, and even on a tie |
| PyBuiltins.RoundToCentsUnique | ai-engine/app/services/stock_service.py:55 | no other whole number of cents meets those conditions |
| PyBuiltins.Round2 | ai-engine/app/services/stock_service.py:55 | the rounded price is within 0.005 of the provider's price |
| PyBuiltins.Round2Idempotent | ai-engine/app/services/stock_service.py:55 | rounding a rounded price again changes nothing |
| PyBuiltins.Round2Positive | ai-engine/app/services/stock_service.py:55 | a price above 0.005 rounds to a positive price |
| JavaTypes.AddInt32 | core-backend/invest-domain/src/main/java/io/github/Hyeonqz/domain/crawling/entity/CrawlingJob.java:100 | Java `int` addition: the 32-bit value congruent to the exact sum mod 2^32, equal to it when it fits |
| JavaTypes.AddInt32Overflows | core-backend/invest-domain/src/main/java/io/github/Hyeonqz/domain/crawling/entity/CrawlingJob.java:100 | 2147483647 + 1 wraps to -2147483648 |
| JavaTypes.DurationSeconds | core-backend/invest-domain/src/main/java/io/github/Hyeonqz/domain/crawling/entity/CrawlingJob.java:137 | `Duration.between(a, b).getSeconds()` is the span in whole seconds, rounded down |
| JobStatusEnum.ValuesComplete | core-backend/invest-domain/src/main/java/io/github/hyeonqz/domain/crawling/enums/JobStatus.java:6-9 | exactly three distinct constants, RUNNING, SUCCESS, FAILED, in that order |
| JobStatusEnum.DeclaredDescriptions | core-backend/invest-domain/src/main/java/io/github/hyeonqz/domain/crawling/enums/JobStatus.java:7-19 | the descriptions are "실행 중", "성공", "실패" |
| JobStatusEnum.JobStatus.GetDescription | core-backend/invest-domain/src/main/java/io/github/hyeonqz/domain/crawling/enums/JobStatus.java:17-19 | the description is one of the three declared ones and never blank |
| JobStatusEnum.DescriptionsDistinct | core-backend/invest-domain/src/main/java/io/github/hyeonqz/domain/crawling/enums/JobStatus.java:7-9 | a description identifies its constant |
| CrawlingStatusEnum.ValuesComplete | core-backend/invest-domain/src/main/java/io/github/Hyeonqz/domain/crawling/enums/CrawlingStatus.java:6-10 | exactly four distinct constants, PENDING, PROCESSING, PROCESSED, FAILED, in that order |
| CrawlingStatusEnum.DeclaredDescriptions | core-backend/invest-domain/src/main/java/io/github/Hyeonqz/domain/crawling/enums/CrawlingStatus.java:7-20 | the descriptions are "대기 중", "처리 중", "처리 완료", "실패" |
| CrawlingStatusEnum.CrawlingStatus.GetDescription | core-backend/invest-domain/src/main/java/io/github/Hyeonqz/domain/crawling/enums/CrawlingStatus.java:18-20 | the description is one of the four declared ones and never blank |
| CrawlingStatusEnum.DescriptionsDistinct | core-backend/invest-domain/src/main/java/io/github/Hyeonqz/domain/crawling/enums/CrawlingStatus.java:7-10 | a description identifies its constant |
| CrawlingJobEntity.CrawlingJob.constructor | core-backend/invest-domain/src/main/java/io/github/Hyeonqz/domain/crawling/entity/CrawlingJob.java:24-86 | the all-arguments constructor sets every field as given |
| CrawlingJobEntity.CrawlingJob.IsRunning | core-backend/invest-domain/src/main/java/io/github/Hyeonqz/domain/crawling/entity/CrawlingJob.java:117-119 | true exactly when the job has neither succeeded nor failed |
| CrawlingJobEntity.CrawlingJob.IsSuccess | core-backend/invest-domain/src/main/java/io/github/Hyeonqz/domain/crawling/entity/CrawlingJob.java:125-127 | true exactly when the job is neither running nor failed |
| CrawlingJobEntity.CrawlingJob.GetExecutionTimeInSeconds | core-backend/invest-domain/src/main/java/io/github/Hyeonqz/domain/crawling/entity/CrawlingJob.java:133-138 | null exactly when there is no end time; otherwise the whole seconds from start to end, rounded down |
| CrawlingJobEntity.CrawlingJob.Complete | core-backend/invest-domain/src/main/java/io/github/Hyeonqz/domain/crawling/entity/CrawlingJob.java:95-101 | from any state: SUCCESS, ends now, both counts stored, total is their 32-bit sum; the error message, id, name, URL and start time are unchanged; the execution time is then defined |
| CrawlingJobEntity.CrawlingJob.Fail | core-backend/invest-domain/src/main/java/io/github/Hyeonqz/domain/crawling/entity/CrawlingJob.java:107-111 | from any state: FAILED, ends now, the given message stored; the three counts, id, name, URL and start time are unchanged; the execution time is then defined |
| CrawlingJobEntity.RunningExcludesSuccess | core-backend/invest-domain/src/main/java/io/github/Hyeonqz/domain/crawling/entity/CrawlingJob.java:117-127 | `isRunning` and `isSuccess` are never both true |
| RawCrawledDataEntity.RawCrawledData.constructor | core-backend/invest-domain/src/main/java/io/github/hyeonqz/domain/crawling/entity/RawCrawledData.java:24-82 | the all-arguments constructor sets every field as given |
| RawCrawledDataEntity.RawCrawledData.IsPending | core-backend/invest-domain/src/main/java/io/github/hyeonqz/domain/crawling/entity/RawCrawledData.java:114-116 | true exactly when the record is neither in progress, processed nor failed |
| RawCrawledDataEntity.RawCrawledData.IsProcessed | core-backend/invest-domain/src/main/java/io/github/hyeonqz/domain/crawling/entity/RawCrawledData.java:122-124 | true exactly when the record is neither waiting, in progress nor failed |
| RawCrawledDataEntity.RawCrawledData.MarkAsProcessed | core-backend/invest-domain/src/main/java/io/github/hyeonqz/domain/crawling/entity/RawCrawledData.java:89-92 | from any state: PROCESSED, processed now; an earlier error message stays; id, URL, title, content, type and crawl time are unchanged |
| RawCrawledDataEntity.RawCrawledData.MarkAsFailed | core-backend/invest-domain/src/main/java/io/github/hyeonqz/domain/crawling/entity/RawCrawledData.java:98-101 | from any state: FAILED with the given message; the processing time and the record fields are unchanged |
| RawCrawledDataEntity.RawCrawledData.MarkAsProcessing | core-backend/invest-domain/src/main/java/io/github/hyeonqz/domain/crawling/entity/RawCrawledData.java:106-108 | from any state: PROCESSING, and nothing else changes |
| RawCrawledDataEntity.PendingExcludesProcessed | core-backend/invest-domain/src/main/java/io/github/hyeonqz/domain/crawling/entity/RawCrawledData.java:114-124 | `isPending` and `isProcessed` are never both true |

## Left out

- The quote provider's network call, and the construction of `yf.Ticker`, become the `ProviderOutcome` input. No retry, timeout or caching exists to model.
- `ProviderOutcome.Quote` stands only for a snapshot with a finite price and a `str` currency. A missing price makes `round` raise a `TypeError` (`stock_service.py:55`), and a missing or non-string currency makes `StockPriceSchema` raise a `ValidationError` (`stock_service.py:53-58`). Both reach the generic handler (`stock_service.py:70-76`), so the model represents such a snapshot as an `OtherFailure` carrying that exception's text.
- NaN and infinite prices are not modelled: prices are exact reals.
- Async dispatch, routing and prefixes, CORS, dependency injection and logging are framework plumbing. So is the body format of a 422 reply, which is the framework's error list: the model keeps the schema's reasons instead.
- Loading settings from the environment is left out. The app name and version are plain parameters.
- Exception chaining (`__context__` of the re-raised error) is not visible in any reply, so it is not modelled.
- PyBuiltins.Upper: models ASCII letters only. Python's full Unicode case mapping (where 'ß' becomes "SS") is not modelled.
- PyBuiltins.Lower: models ASCII letters only, for the same reason.
- PyBuiltins.Round2: works on exact reals, rounding half to even on the exact value. The final conversion to the nearest binary float is not modelled.
- StockSchemas.LoadStockPriceRequest: models a JSON body only. The schema library's other input modes (such as bytes decoded to str) are not modelled.
- Errors.NewError: detail values of any Python type are modelled as JSON values, and `args` always holds only the message, since that is how the constructor calls the base class.
- The stock result is built directly in `StockService.GetCurrentPrice`. Output validation against the response model is framework work. For a `Quote` (finite price, `str` currency) it always succeeds.
- Persistence is left out: JPA and Lombok annotations, column lengths and nullability, the `BaseTimeEntity` audit timestamps, and the repository queries. These are persistence concerns, handled by JPA auditing (enabled in `core-backend/invest-domain/src/main/java/io/github/hyeonqz/domain/config/JpaAuditingConfig.java`) and by the database, not by the entity methods.
- Columns declared non-null (job name, start time, status, source URL, content, crawl time) are plain values in the model. An entity built with one of them null is not modelled; for example, `getExecutionTimeInSeconds` would throw on a null start time.
- JavaTypes.DurationSeconds: a span too long for a `long` count of nanoseconds makes Java fall back to a second-based computation. That fallback is not modelled; its result agrees with the floor of the span anyway.
- `Long` ids are unbounded integers. Their generation by the database is not modelled.
