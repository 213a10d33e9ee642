# Payments API request pipeline, in Dafny

This project models the request pipeline of a small payments API that runs
as three AWS Lambda handlers behind API Gateway:

- `GET /payments/{id}` reads one payment;
- `POST /payments` creates a payment;
- `GET /payments?currency=` lists payments, optionally by currency.

Every request goes through the same stages:

1. The Zod **schemas** validate and normalise the input. The amount is
   positive, and may be a numeric string. The currency is trimmed and
   upper-cased. The create body is strict. The payment id is a trimmed
   UUID. The currency filter is optional.
2. The **validation middleware** (`withValidation`) checks the body, then
   the path parameters, then the query parameters. It stops at the first
   failure with a fixed status. Otherwise it calls the handler with a
   context of the normalised values, inside a `try` that turns any
   exception into 400.
3. The **handler** calls the **payment service**. The service builds
   records and chooses between `listAll` and `listByCurrency`.
4. The service calls the **repository**, a table of payments keyed by id.
5. The handler answers with one of the **response builders** of
   `src/lib/lambda.ts`. `wrapHandler` guards the whole endpoint with a 500.

Modules, one per file:

- `Wrappers`: `Option`, `Result`, and `Outcome` (a value, or an exception).
- `JsonValues`: the values `JSON.parse` yields.
- `Strings`: `trim`, `toUpperCase`, `join`.
- `Numbers`: `parseFloat` over exact rationals.
- `PaymentTypes`: the `Payment` record.
- `Schemas`: the three schemas.
- `Lambda`: the event, the responses and `wrapHandler`.
- `Validation`: the middleware.
- `Repository`: a class whose `table` map is updated in place.
- `Service`: a class over a repository.
- `GetPaymentHandler`, `CreatePaymentHandler`, `ListPaymentsHandler`: the
  three endpoints.

Each endpoint has a `Handler` method. It composes `Validate`, the
endpoint's handler method, the middleware's exception guard and
`WrapHandler`. It is proved equal to a reference function stated directly
on the request: `GetPaymentSpec`, `CreatePaymentSpec`, or `RequestFilter`
plus a scan. Each `Handler` also states which repository calls were made.
These calls are a ghost log on the repository, the same thing the tests'
mocks record.

External effects are parameters:

- `JSON.parse` is a function `parse: string -> Option<Json>`. None means
  it throws.
- `uuidv4()` is the `newId` argument.
- A store failure is the `fault: Option<string>` argument of each
  repository call. The repository and the service rethrow it unchanged.

**No endpoint can answer 500.** `wrapHandler`
(`src/lib/lambda.ts:25-49`) turns an exception from the handler it wraps
into 500 "Internal server error". But what it wraps is the validation
middleware. There, `return await handler(event, context)` sits inside the
middleware's outer `try`, whose `catch` answers 400 "Validation error"
(`src/middleware/validation.middleware.ts:93-97`). So a handler exception,
including a store failure, becomes 400, and `wrapHandler`'s 500 is never
reached by the three endpoints. The model follows this:

- `Validation.HandlerBoundary` gives the 400.
- `Lambda.WrapHandler` models the 500 guard.
- For the get and create endpoints, `GetPaymentHandler.StoreFailureIs400`
  and `CreatePaymentHandler.StoreFailureIs400` give the 400 on a store
  failure. `GetPaymentHandler.GetPaymentStatuses` and
  `CreatePaymentHandler.CreatePaymentStatuses` list the only statuses
  each endpoint answers with.
- For the list endpoint, the ensures of `ListPaymentsHandler.Handler`
  state that the answer is 200 with a scan, or 400 "Validation error" on
  a store failure.

## Model

| member | source | states |
|---|---|---|
| Strings.TrimIsTrimmed | src/schemas/payment.schemas.ts:38 | `trim` leaves no white space at either end |
| Strings.TrimIdempotent | src/schemas/payment.schemas.ts:38 | `trim` is idempotent |
| Strings.TrimEmptyIffBlank | src/schemas/payment.schemas.ts:57-59 | `trim` gives "" exactly for a string of white space |
| Strings.TrimSplits | src/schemas/payment.schemas.ts:38 | `trim` removes exactly a blank prefix and a blank suffix; what it keeps is the infix between them, with no white space at either end |
| Strings.ToUpper | src/schemas/payment.schemas.ts:40 | `toUpperCase` keeps the length and maps each character (ASCII letters raised) |
| Strings.NormaliseIdempotent | src/schemas/payment.schemas.ts:38-40 | trim-then-upper-case applied twice is the same as once |
| Strings.JoinStartsWithFirst | src/middleware/validation.middleware.ts:46-48 | joined messages begin with the first message |
| Strings.JoinContains | src/middleware/validation.middleware.ts:46-48 | every message occurs in the joined string |
| Numbers.DecimalValue | src/schemas/payment.schemas.ts:12 | `parseFloat` of `digits.digits` is the digits scaled down by the fraction length |
| Numbers.ParseFloatSkipsWhiteSpace | src/schemas/payment.schemas.ts:12 | `parseFloat` skips leading white space |
| Numbers.ParseFloatSign | src/schemas/payment.schemas.ts:12 | a leading `-` negates the value and a leading `+` keeps it; NaN stays NaN |
| Numbers.ParseFloatExponent | src/schemas/payment.schemas.ts:12 | an integer followed by `e<digits>` is the integer times that power of ten |
| Numbers.ParseFloatNegativeExponent | src/schemas/payment.schemas.ts:12 | an integer followed by `e-<digits>` is the integer divided by that power of ten |
| Numbers.ParseExample | src/schemas/payment.schemas.ts:10-12 | `parseFloat("123.45")` is 123.45 |
| Numbers.ParseWordIsNaN | src/schemas/payment.schemas.ts:12-13 | `parseFloat("invalid")` is NaN |
| PaymentTypes.PaymentJsonRoundTrip | src/types/payment.types.ts:1-5 | a payment's JSON form reads back as the same payment |
| PaymentTypes.PaymentJsonInjective | src/types/payment.types.ts:1-5 | different payments have different JSON forms |
| Schemas.AmountSchema | src/schemas/payment.schemas.ts:4-33 | an accepted amount is positive; a number is accepted iff > 0 and kept; a string is accepted iff `parseFloat` gives a positive number, which is the output |
| Schemas.AmountMessages | src/schemas/payment.schemas.ts:6-33 | a number ≤ 0 gets "Amount must be a positive number"; an unparsable string gets "Amount is required"; a string ≤ 0 gets "Amount must be a positive number"; other values fail the union |
| Schemas.AmountStringExample | src/schemas/payment.schemas.ts:10-27 | the string "123.45" is accepted as 123.45 |
| Schemas.CurrencySchema | src/schemas/payment.schemas.ts:34-40 | an accepted currency is the input trimmed and upper-cased, non-empty and already normal |
| Schemas.CurrencyMessages | src/schemas/payment.schemas.ts:34-39 | missing or non-string gets "Currency is required"; blank gets "Currency must be a non-empty string"; anything else is accepted |
| Schemas.CurrencyIdempotent | src/schemas/payment.schemas.ts:38-40 | re-validating an accepted currency returns it unchanged |
| Schemas.CreatePaymentSchema | src/schemas/payment.schemas.ts:3-48 | an accepted body has amount > 0 and a normal currency; a rejection has at least one message |
| Schemas.CreatePaymentAccepts | src/schemas/payment.schemas.ts:3-48 | a body is accepted iff it is an object with no keys other than amount and currency and both fields pass; the output is the two fields' outputs |
| Schemas.StrictRejectsExtraKey | src/schemas/payment.schemas.ts:41 | any other key rejects the whole body, with the unrecognised-keys message |
| Schemas.PaymentObjectRefineHolds | src/schemas/payment.schemas.ts:42-48 | the object refine never fails once the currency field has passed (its amount test holds for any amount that passed) |
| Schemas.CreatePaymentRoundTrip | src/schemas/payment.schemas.ts:3-48 | a valid input, written back as JSON, is accepted unchanged (validation is idempotent) |
| Schemas.CreatePaymentRejections | test/handlers/createPayment.test.ts:128-165 | the tests' bodies are rejected: an unparsable amount with "Amount is required" first, a missing currency with exactly "Currency is required", a negative amount with "Amount must be a positive number" first |
| Schemas.UuidIsTrimmed | src/schemas/payment.schemas.ts:68 | a UUID has no white space at its ends |
| Schemas.UuidIgnoresCase | src/schemas/payment.schemas.ts:68 | the `i` flag: a string matches iff its upper-cased form does |
| Schemas.UuidMatchesPattern | src/schemas/payment.schemas.ts:68 | the position-wise UUID test accepts exactly the strings the regular expression matches group by group: 8, 4, version 1-5 and 3, variant 8/9/a/b and 3, and 12 hexadecimal digits joined by hyphens |
| Schemas.PaymentIdSchema | src/schemas/payment.schemas.ts:50-72 | an accepted id is a UUID (8-4-4-4-12 hex, version 1-5, variant 8/9/a/b); a rejection has one message |
| Schemas.PaymentIdCases | src/schemas/payment.schemas.ts:50-72 | missing or non-string gets "Payment ID is required"; blank gets "Payment ID cannot be empty"; otherwise accepted iff the trimmed input is a UUID, else "Payment ID must be a valid UUID format"; the output is the trimmed input |
| Schemas.PaymentIdIdempotent | src/schemas/payment.schemas.ts:63-72 | re-validating an accepted id returns it unchanged |
| Schemas.CurrencyFilterSchema | src/schemas/payment.schemas.ts:74-80 | a filter it outputs is a normal currency |
| Schemas.CurrencyFilterCases | src/schemas/payment.schemas.ts:74-80 | absent input gives no filter; a string never fails, gives no filter iff blank, and otherwise gives the input trimmed and upper-cased |
| Schemas.CurrencyFilterUpperCases | test/handlers/listPayments.test.ts:135-148 | "usd" becomes "USD" |
| Schemas.CurrencyFilterIdempotent | src/schemas/payment.schemas.ts:76-80 | re-validating an output filter returns it unchanged |
| Schemas.InputOfJson | src/schemas/payment.schemas.ts:82 | a body read back from JSON is exactly the object it came from |
| Schemas.InputJsonRoundTrip | src/schemas/payment.schemas.ts:82 | a validated body's JSON form reads back unchanged |
| Lambda.BadRequest | src/lib/lambda.ts:116-121 | status 400, body exactly `{success: false, message}` carrying the message |
| Lambda.NotFound | src/lib/lambda.ts:129-134 | status 404, body exactly `{success: false, message}` carrying the message |
| Lambda.UnprocessableEntity | src/lib/lambda.ts:142-147 | status 422, body exactly `{success: false, message}` carrying the message |
| Lambda.Ok | src/lib/lambda.ts:155-160 | status 200, body exactly `{success: true, data}` carrying the data |
| Lambda.Created | src/lib/lambda.ts:168-173 | status 201; the body's members are the data's plus `success`, each data member at the top level, `success` true unless the data overrides it |
| Lambda.GetPathParam | src/lib/lambda.ts:58-63 | null iff the parameters, the key or a non-empty value is missing; otherwise the value |
| Lambda.GetQueryParams | src/lib/lambda.ts:71-75 | the query parameters, or the empty map when there are none |
| Lambda.GetBody | src/lib/lambda.ts:83-94 | null for an absent, empty or unparsable body; otherwise exactly what `JSON.parse` gave |
| Lambda.WrapHandler | src/lib/lambda.ts:25-49 | the inner response unchanged when the handler returns; 500 with body exactly `{success: false, message: "Internal server error"}` when it throws |
| Lambda.WrapHandlerHidesDetail | src/lib/lambda.ts:38-47 | the 500 response is the same whatever the exception |
| Validation.Zod | src/middleware/validation.middleware.ts:43-49 | a schema's failures all surface as ZodErrors carrying its messages |
| Validation.RawParam | src/middleware/validation.middleware.ts:60-61 | the raw value is present iff the parameter map and key are, and is that string |
| Validation.ParamFailure | src/middleware/validation.middleware.ts:62-70 | a failing parameter gets 400: the ZodError's messages joined, or "Validation error" for any other exception |
| Validation.HandlerBoundary | src/middleware/validation.middleware.ts:93-97 | the handler's response when it returns; 400 "Validation error" when it throws |
| Validation.Validate | src/middleware/validation.middleware.ts:23-92 | the middleware's checks, filling the context part by part, equal `ValidateSpec` |
| Validation.CheckEntries | src/middleware/validation.middleware.ts:56-91 | the loop over a part's entries equals `CheckParams` |
| Validation.FailurePersists | src/middleware/validation.middleware.ts:62-70 | once an entry fails, the loop's answer is that failure |
| Validation.CheckParamsSucceeds | src/middleware/validation.middleware.ts:56-91 | the loop succeeds iff every entry's schema accepts its value |
| Validation.CheckParamsFirstFailure | src/middleware/validation.middleware.ts:58-70 | when the loop fails, the response is the one for the first failing entry |
| Validation.CheckParamsKeys | src/middleware/validation.middleware.ts:57-61 | the values hold exactly the configured keys |
| Validation.CheckParamsValue | src/middleware/validation.middleware.ts:58-61 | each configured key holds its schema's output |
| Validation.CheckParamsIs400 | src/middleware/validation.middleware.ts:63-70 | every parameter failure is a 400 |
| Validation.RejectionStatus | src/middleware/validation.middleware.ts:31-97 | a rejection is 400 or 422, and 422 iff the body schema rejected a parsed body |
| Validation.MissingBodyRefused | src/middleware/validation.middleware.ts:32-37 | with a body schema, an absent or empty body gets 400 "Valid request body is required" |
| Validation.MalformedBodyRefused | src/middleware/validation.middleware.ts:39-52 | a body `JSON.parse` rejects gets the same 400 |
| Validation.BodySchemaRefused | src/middleware/validation.middleware.ts:43-49 | a parsed body the schema rejects gets 422 with its messages joined by ", " |
| Validation.AcceptedIffAllPass | src/middleware/validation.middleware.ts:28-93 | the handler is reached iff every configured check passes; the context holds exactly the configured parts |
| Repository.PaymentRepository.constructor | src/repositories/payment.repository.ts:7-8 | a fresh, consistent table standing for the configured one |
| Repository.PaymentRepository.GetById | src/repositories/payment.repository.ts:11-31 | the record under the id, or null; a store failure is rethrown; the table is unchanged |
| Repository.PaymentRepository.Create | src/repositories/payment.repository.ts:34-56 | the table gains the record under its id, replacing any earlier one, nothing else changes; on failure the table is unchanged and the error rethrown |
| Repository.PaymentRepository.ListAll | src/repositories/payment.repository.ts:59-78 | every stored record once, or the failure; the table is unchanged |
| Repository.PaymentRepository.ListByCurrency | src/repositories/payment.repository.ts:81-113 | exactly the stored records whose currency equals the upper-cased argument, or the failure |
| Repository.PaymentRepository.Scan | src/repositories/payment.repository.ts:91-101 | a scan lists each record the filter keeps exactly once, and nothing else |
| Repository.ScanMembership | src/repositories/payment.repository.ts:91-101 | a record is listed iff it is stored under its id and the filter keeps it |
| Repository.ScanAllIsEveryRecord | src/repositories/payment.repository.ts:63-73 | an unfiltered scan lists every record; an empty table lists nothing |
| Repository.ScanByCurrency | src/repositories/payment.repository.ts:91-101 | a filtered scan lists only, and all, the records of that currency |
| Service.NewPayment | src/services/payment.service.ts:10-16 | the record has the fresh id and the input's amount and currency |
| Service.PaymentService.CreatePayment | src/services/payment.service.ts:9-28 | one `create` call with exactly the returned record; a store failure propagates |
| Service.PaymentService.GetPaymentById | src/services/payment.service.ts:30-42 | the repository's answer, null included, or its failure |
| Service.PaymentService.ListPayments | src/services/payment.service.ts:45-55 | no or empty filter: `listAll` only; otherwise `listByCurrency` with the filter unchanged; failures propagate |
| Service.ScanFilter | src/repositories/payment.repository.ts:84 | no filter for an absent or empty one, otherwise the filter upper-cased |
| Service.CreatedIsReadable | src/services/payment.service.ts:9-42 | after `createPayment` succeeds, `getPaymentById` of the new id returns the created record, and any other id reads as it did before the create |
| Service.NormalFilterUnchanged | src/repositories/payment.repository.ts:84 | upper-casing again leaves a normalised filter unchanged |
| GetPaymentHandler.Respond | src/handlers/getPayment.ts:17-21 | null gives 404 "Payment not found"; a record gives 200 with it as data |
| GetPaymentHandler.IdConfigChecksId | src/handlers/getPayment.ts:24-29 | only `id` is checked: refused exactly as PaymentIdSchema refuses, else the trimmed id, and no body or query in the context |
| GetPaymentHandler.GetPayment | src/handlers/getPayment.ts:10-22 | one lookup of the validated id; 404 or 200 from its answer; a failure propagates |
| GetPaymentHandler.Handler | src/handlers/getPayment.ts:24-29 | the endpoint equals `GetPaymentSpec`; the repository is called only for an accepted id, once, with the trimmed id |
| GetPaymentHandler.GetPaymentStatuses | src/handlers/getPayment.ts:10-29 | the endpoint answers 200, 400 or 404, never 500 |
| GetPaymentHandler.InvalidIdRefused | test/handlers/getPayment.test.ts:120-145 | missing, blank and non-UUID ids get 400 with their messages |
| GetPaymentHandler.ValidIdLookedUp | test/handlers/getPayment.test.ts:79-117 | a valid id is looked up trimmed: stored gives 200 with the record, missing gives 404 |
| GetPaymentHandler.FoundDataRoundTrip | src/handlers/getPayment.ts:21 | the 200 data reads back as the record |
| GetPaymentHandler.StoreFailureIs400 | src/middleware/validation.middleware.ts:93-97 | a store failure during the lookup gives 400 "Validation error" |
| CreatePaymentHandler.CreatedResponse | src/handlers/createPayment.ts:16-20 | status 201 with body exactly `{success: true, paymentId, amount, currency}` |
| CreatePaymentHandler.BodyConfigChecksBody | src/handlers/createPayment.ts:23-28 | only the body is checked; the context body is the normalised input; no path or query in the context |
| CreatePaymentHandler.CreatePayment | src/handlers/createPayment.ts:10-21 | one `create` of the new record with the generated id; 201 with it; a failure propagates and leaves the table unchanged |
| CreatePaymentHandler.Handler | src/handlers/createPayment.ts:23-28 | the endpoint equals `CreatePaymentSpec`; the store is written once and only for an accepted body |
| CreatePaymentHandler.CreatePaymentStatuses | src/handlers/createPayment.ts:10-28 | the endpoint answers 201, 400 or 422, never 500; 201 iff the body is accepted and the store works |
| CreatePaymentHandler.BadBodyRefused | test/handlers/createPayment.test.ts:113-180 | a missing, empty or malformed body gets 400 "Valid request body is required" |
| CreatePaymentHandler.InvalidBodyRefused | src/middleware/validation.middleware.ts:43-49 | a body the schema refuses gets 422 with its messages joined |
| CreatePaymentHandler.TestCaseRefusals | test/handlers/createPayment.test.ts:128-153 | an unparsable amount gets 422 whose message starts with "Amount is required"; a missing currency gets 422 "Currency is required" |
| CreatePaymentHandler.AcceptedBodyCreated | test/handlers/createPayment.test.ts:79-110 | an accepted body gets 201 with `success`, the new id and the normalised amount and currency at the top level |
| CreatePaymentHandler.NormalisedOnCreate | src/schemas/payment.schemas.ts:11-40 | `{"amount": "123.45", "currency": " usd "}` is accepted as 123.45 "USD" |
| CreatePaymentHandler.PaddedCurrency | src/schemas/payment.schemas.ts:34-40 | the currency " usd " is accepted as "USD" |
| CreatePaymentHandler.StoreFailureIs400 | src/middleware/validation.middleware.ts:93-97 | a store failure gives 400 "Validation error" |
| ListPaymentsHandler.RequestFilter | src/handlers/listPayments.ts:14 | a filter the service receives is a normal currency |
| ListPaymentsHandler.PaymentsJson | src/handlers/listPayments.ts:17 | the data array has one element per record, each reading back as that record |
| ListPaymentsHandler.FilterConfigNeverRefuses | src/handlers/listPayments.ts:20-25 | only `currency` is checked, and no request is refused; the context filter is the normalised one |
| ListPaymentsHandler.ListPayments | src/handlers/listPayments.ts:10-18 | one `listAll` or `listByCurrency` call chosen by the filter; 200 with a scan of the table as data |
| ListPaymentsHandler.Handler | src/handlers/listPayments.ts:20-25 | the endpoint answers 200 with a scan under the normalised filter; `listAll` when there is none; 400 on a store failure |
| ListPaymentsHandler.AbsentOrBlankFilterListsAll | test/handlers/listPayments.test.ts:81-133 | no `currency`, an empty one or a blank one means no filter |
| ListPaymentsHandler.FilterNormalised | src/handlers/listPayments.ts:14-15 | any other `currency` reaches the service trimmed and upper-cased |
| ListPaymentsHandler.LowerCaseFilterUpperCased | test/handlers/listPayments.test.ts:135-148 | `?currency=usd` reaches the service as "USD" |
| ListPaymentsHandler.FilteredListing | test/handlers/listPayments.test.ts:100-117 | a filtered listing holds only, and all, the records of that currency |

## Left out

- Schemas.AmountSchema, Schemas.CurrencySchema, Schemas.CreatePaymentSchema, Schemas.PaymentIdSchema: each failing field reports only the first message the code names. Zod also runs later refinements on a failed value. So the outer amount refine repeats "Amount must be a positive number", and the id refine adds the UUID message to a blank id. The object refine adds "Valid payment object is required" to a blank currency. These extra messages depend on Zod's internals and are not modelled.
- Zod's own message texts ("Invalid input", "Expected object", "Expected string", "Unrecognized key(s) in object") are approximated. Zod also appends the received type or the key names.
- Strings.ToUpper: raises only the ASCII letters. JavaScript's full Unicode case mapping is not modelled. Some of those mappings change the length.
- Numbers.ParseFloat: reads decimal literals exactly, as rationals. IEEE-754 rounding is not modelled. "Infinity" reads as NaN here, whereas JavaScript gives infinity.
- Object member order in JSON bodies: members are maps.
- `buildResponse` (`./apigateway`) is not part of this model. A response is a status and a JSON body, before serialisation and without headers.
- Logging (`logger.*`, `console.*`), the async/Promise machinery (calls are sequential), and the module-level construction of the repository and service in each handler.
- `isUuid` (src/lib/lambda.ts:102-104): a wrapper over the external `uuid` package.
- The DynamoDB client and its Get/Put/Scan commands. The table is a map, and a scan visits its records in an unspecified order.
- Configuration (src/config/constants.ts, src/lib/dynamodb.ts).
- Repository.PaymentRepository.ListAll, Repository.PaymentRepository.ListByCurrency: a DynamoDB Scan returns one page of at most 1 MB, and the code never follows `LastEvaluatedKey` (src/repositories/payment.repository.ts:59-113). The model's scan returns every matching record, so its contracts hold only for a table whose scan fits in one page. A larger table would answer with the first page alone.
- `uuidv4()`: the id is an argument. Nothing in the model makes two generated ids distinct.
- Event fields other than the body and the path and query parameters.
