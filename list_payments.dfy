/** src/handlers/listPayments.ts: `GET /payments[?currency=...]`. Only the
    query parameter `currency` is validated, with CurrencyFilterSchema; the
    handler lists through the service and answers 200. */
module ListPaymentsHandler {
  import opened Wrappers
  import opened JsonValues
  import opened Strings
  import opened Lambda
  import opened Validation
  import opened Schemas
  import opened PaymentTypes
  import opened Repository
  import opened Service

  /** `CurrencyFilterSchema.parse` as the middleware calls it. */
  function FilterSchema(v: Option<Json>): Result<Option<Json>, Rejection> {
    Zod(ParseCurrencyFilter(v))
  }

  /** `{ queryParams: { currency: CurrencyFilterSchema } }` */
  const FilterConfig: Config := Config(None, None, Some([("currency", FilterSchema)]))

  /** `context.queryParams?.currency` */
  function FilterOf(context: Context): Option<string> {
    if context.queryParams.Some? && "currency" in context.queryParams.value
       && context.queryParams.value["currency"].Some? && context.queryParams.value["currency"].value.JStr?
    then Some(context.queryParams.value["currency"].value.s)
    else None
  }

  /** The filter the service receives for a request: the normalised
      `currency` query parameter, or none. */
  function RequestFilter(event: Event): (r: Option<string>)
    ensures r.Some? ==> IsNormalCurrency(r.value)
  {
    match CurrencyFilterSchema(RawParam(event.queryStringParameters, "currency"))
    case Success(f) => f
    case Failure(_) => None
  }

  /** A list of records as the JSON array the response carries. */
  function PaymentsJson(ps: seq<Payment>): (j: Json)
    ensures j.JArr? && |j.items| == |ps|
    ensures forall i :: 0 <= i < |ps| ==> PaymentOfJson(j.items[i]) == Some(ps[i])
  {
    JArr(seq(|ps|, i requires 0 <= i < |ps| => PaymentJson(ps[i])))
  }

  /** The configuration checks `currency` alone, and never refuses a
      request: the query parameters are strings or absent, and the filter
      schema accepts both. */
  lemma FilterConfigNeverRefuses(event: Event, parse: string -> Option<Json>)
    ensures ValidateSpec(FilterConfig, event, parse).Accept?
    ensures FilterOf(ValidateSpec(FilterConfig, event, parse).context) == RequestFilter(event)
    ensures ValidateSpec(FilterConfig, event, parse).context.body.None?
    ensures ValidateSpec(FilterConfig, event, parse).context.pathParams.None?
  {
    var entries := FilterConfig.queryParams.value;
    var raw := RawParam(event.queryStringParameters, "currency");
    CurrencyFilterCases(raw);
    assert entries[..|entries| - 1] == [];
    assert CheckParams(entries[..|entries| - 1], event.queryStringParameters) == Success(map[]);
    assert entries[0].0 == "currency" && entries[0].1 == FilterSchema;
    assert entries[0].1(raw) == Zod(ParseCurrencyFilter(raw));
  }

  /** `listPaymentsHandler`: lists through the service and answers 200 with
      the records as data. */
  method ListPayments(service: PaymentService, context: Context, fault: Option<string>) returns (o: Outcome<Response>)
    requires service.repository.Valid()
    modifies service.repository`calls
    ensures NoFilter(FilterOf(context)) ==> service.repository.calls == old(service.repository.calls) + [ScanAllCall]
    ensures !NoFilter(FilterOf(context)) ==>
      service.repository.calls == old(service.repository.calls) + [ScanCurrencyCall(FilterOf(context).value)]
    ensures fault.Some? ==> o == Threw(fault.value)
    ensures fault.None? ==> exists ps :: IsScanOf(ps, service.repository.table, ScanFilter(FilterOf(context)))
                                        && o == Returned(Ok(PaymentsJson(ps)))
  {
    var currencyFilter := FilterOf(context);
    var payments := service.ListPayments(currencyFilter, fault);
    if payments.Threw? {
      return Threw(payments.detail);
    }
    return Returned(Ok(PaymentsJson(payments.value)));
  }

  /** `handler = wrapHandler(withValidation(FilterConfig, listPaymentsHandler))`. */
  method Handler(service: PaymentService, event: Event, parse: string -> Option<Json>, fault: Option<string>)
    returns (response: Response)
    requires service.repository.Valid()
    modifies service.repository`calls
    ensures RequestFilter(event).None? ==> service.repository.calls == old(service.repository.calls) + [ScanAllCall]
    ensures RequestFilter(event).Some? ==>
      service.repository.calls == old(service.repository.calls) + [ScanCurrencyCall(RequestFilter(event).value)]
    ensures fault.Some? ==> response == BadRequest(ValidationError)
    ensures fault.None? ==> exists ps :: IsScanOf(ps, service.repository.table, RequestFilter(event))
                                         && response == Ok(PaymentsJson(ps))
  {
    FilterConfigNeverRefuses(event, parse);
    var verdict := Validate(FilterConfig, event, parse);
    var context := verdict.context;
    if RequestFilter(event).Some? {
      NormalFilterUnchanged(RequestFilter(event).value);
    }
    var o := ListPayments(service, context, fault);
    response := WrapHandler(Returned(HandlerBoundary(o)));
  }

  // ------------------------------------------------------------ properties

  /** No `currency`, an empty one and a blank one all mean no filter: the
      service lists everything. */
  lemma AbsentOrBlankFilterListsAll(event: Event)
    requires || event.queryStringParameters.None?
             || "currency" !in event.queryStringParameters.value
             || IsBlank(event.queryStringParameters.value["currency"])
    ensures RequestFilter(event) == None
  {
    CurrencyFilterCases(RawParam(event.queryStringParameters, "currency"));
  }

  /** Any other `currency` reaches the service trimmed and upper-cased. */
  lemma FilterNormalised(event: Event, c: string)
    requires event.queryStringParameters.Some? && "currency" in event.queryStringParameters.value
    requires c == event.queryStringParameters.value["currency"] && !IsBlank(c)
    ensures RequestFilter(event) == Some(ToUpper(Trim(c)))
  {
    CurrencyFilterCases(RawParam(event.queryStringParameters, "currency"));
  }

  /** The test case: `?currency=usd` reaches the service as "USD". */
  lemma LowerCaseFilterUpperCased(event: Event, c: string)
    requires c == "usd" && event.queryStringParameters == Some(map["currency" := c])
    ensures RequestFilter(event) == Some("USD")
  {
    CurrencyFilterUpperCases(c);
  }

  /** Every record a filtered listing answers with has the filter's
      currency, and every stored record of that currency is in it. */
  lemma FilteredListing(ps: seq<Payment>, table: map<string, Payment>, event: Event)
    requires RequestFilter(event).Some?
    requires IsScanOf(ps, table, RequestFilter(event))
    ensures forall i :: 0 <= i < |ps| ==> ps[i].currency == RequestFilter(event).value
    ensures forall id :: id in table && table[id].currency == RequestFilter(event).value ==> table[id] in ps
  {
    ScanByCurrency(ps, table, RequestFilter(event).value);
  }
}
