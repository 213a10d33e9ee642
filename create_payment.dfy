/** src/handlers/createPayment.ts: `POST /payments`. Only the body is
    validated, with CreatePaymentSchema; the handler stores a new record
    and answers 201 with its members at the top level. */
module CreatePaymentHandler {
  import opened Wrappers
  import opened JsonValues
  import opened Strings
  import opened Numbers
  import opened Lambda
  import opened Validation
  import opened Schemas
  import opened PaymentTypes
  import opened Repository
  import opened Service

  /** `CreatePaymentSchema.parse` as the middleware calls it. */
  function BodySchema(v: Option<Json>): Result<Option<Json>, Rejection> {
    Zod(ParseCreatePayment(v))
  }

  /** `{ body: CreatePaymentSchema }` */
  const BodyConfig: Config := Config(Some(BodySchema), None, None)

  /** The body check stated directly: the accepted input, or the response
      that refuses the request. */
  function AcceptedInput(event: Event, parse: string -> Option<Json>): Result<PaymentInput, Response> {
    if event.body.None? || event.body.value == "" then Failure(BadRequest(BodyRequired))
    else match parse(event.body.value)
      case None => Failure(BadRequest(BodyRequired))
      case Some(j) =>
        match CreatePaymentSchema(Some(j))
        case Failure(ms) => Failure(UnprocessableEntity(Joined(ms)))
        case Success(input) => Success(input)
  }

  /** The 201 response for a stored record. */
  function CreatedResponse(p: Payment): (r: Response)
    ensures r.statusCode == 201
    ensures r.body == JObj(map["success" := JBool(true), "paymentId" := JStr(p.paymentId),
                               "amount" := JNum(p.amount), "currency" := JStr(p.currency)])
  {
    Created(PaymentFields(p))
  }

  /** The whole endpoint, stated directly. */
  function CreatePaymentSpec(event: Event, parse: string -> Option<Json>, newId: string, fault: Option<string>): Response {
    match AcceptedInput(event, parse)
    case Failure(response) => response
    case Success(input) =>
      if fault.Some? then BadRequest(ValidationError) else CreatedResponse(NewPayment(input, newId))
  }

  /** The configuration checks the body alone, and hands the handler the
      normalised body. */
  lemma BodyConfigChecksBody(event: Event, parse: string -> Option<Json>)
    ensures AcceptedInput(event, parse).Failure? ==>
      ValidateSpec(BodyConfig, event, parse) == Reject(AcceptedInput(event, parse).error)
    ensures AcceptedInput(event, parse).Success? ==>
      && ValidateSpec(BodyConfig, event, parse).Accept?
      && InputOfJson(ValidateSpec(BodyConfig, event, parse).context.body) == Some(AcceptedInput(event, parse).value)
      && ValidateSpec(BodyConfig, event, parse).context.pathParams.None?
      && ValidateSpec(BodyConfig, event, parse).context.queryParams.None?
  {
    if event.body.Some? && event.body.value != "" && parse(event.body.value).Some? {
      var j := parse(event.body.value).value;
      assert BodySchema(Some(j)) == Zod(ParseCreatePayment(Some(j)));
      if CreatePaymentSchema(Some(j)).Success? {
        InputJsonRoundTrip(CreatePaymentSchema(Some(j)).value);
      }
    }
  }

  /** `createPaymentHandler`: creates the record through the service and
      answers 201 with it. `newId` is the id `uuidv4()` gives this call. */
  method CreatePayment(service: PaymentService, context: Context, newId: string, fault: Option<string>)
    returns (o: Outcome<Response>)
    requires service.repository.Valid()
    requires InputOfJson(context.body).Some?
    modifies service.repository
    ensures service.repository.Valid()
    ensures service.repository.calls ==
      old(service.repository.calls) + [PutCall(NewPayment(InputOfJson(context.body).value, newId))]
    ensures fault.Some? ==> o == Threw(fault.value) && service.repository.table == old(service.repository.table)
    ensures fault.None? ==> o == Returned(CreatedResponse(NewPayment(InputOfJson(context.body).value, newId)))
    ensures fault.None? ==>
      service.repository.table == old(service.repository.table)[newId := NewPayment(InputOfJson(context.body).value, newId)]
  {
    var input := InputOfJson(context.body).value;
    var payment := service.CreatePayment(input, newId, fault);
    if payment.Threw? {
      return Threw(payment.detail);
    }
    var p := payment.value;
    return Returned(Created(map["paymentId" := JStr(p.paymentId), "amount" := JNum(p.amount), "currency" := JStr(p.currency)]));
  }

  /** `handler = wrapHandler(withValidation(BodyConfig, createPaymentHandler))`.
      The store is written once, and only for a body the schema accepts. */
  method Handler(service: PaymentService, event: Event, parse: string -> Option<Json>, newId: string, fault: Option<string>)
    returns (response: Response)
    requires service.repository.Valid()
    modifies service.repository
    ensures service.repository.Valid()
    ensures response == CreatePaymentSpec(event, parse, newId, fault)
    ensures AcceptedInput(event, parse).Failure? ==>
      service.repository.calls == old(service.repository.calls) && service.repository.table == old(service.repository.table)
    ensures AcceptedInput(event, parse).Success? ==>
      service.repository.calls == old(service.repository.calls) + [PutCall(NewPayment(AcceptedInput(event, parse).value, newId))]
    ensures AcceptedInput(event, parse).Success? && fault.None? ==>
      service.repository.table == old(service.repository.table)[newId := NewPayment(AcceptedInput(event, parse).value, newId)]
    ensures fault.Some? ==> service.repository.table == old(service.repository.table)
  {
    BodyConfigChecksBody(event, parse);
    var verdict := Validate(BodyConfig, event, parse);
    var inner: Response;
    match verdict {
      case Reject(r) =>
        inner := r;
      case Accept(context) =>
        var o := CreatePayment(service, context, newId, fault);
        inner := HandlerBoundary(o);
    }
    response := WrapHandler(Returned(inner));
  }

  // ------------------------------------------------------------ properties

  /** The endpoint answers 201, 400 or 422, never 500; 201 exactly when the
      body is accepted and the store succeeds. */
  lemma CreatePaymentStatuses(event: Event, parse: string -> Option<Json>, newId: string, fault: Option<string>)
    ensures CreatePaymentSpec(event, parse, newId, fault).statusCode in {201, 400, 422}
    ensures CreatePaymentSpec(event, parse, newId, fault).statusCode == 201 <==>
      AcceptedInput(event, parse).Success? && fault.None?
  {
  }

  /** A missing, empty or unparsable body gets 400 "Valid request body is
      required". */
  lemma BadBodyRefused(event: Event, parse: string -> Option<Json>, newId: string, fault: Option<string>)
    requires event.body.None? || event.body.value == "" || parse(event.body.value).None?
    ensures CreatePaymentSpec(event, parse, newId, fault) == BadRequest(BodyRequired)
  {
  }

  /** A parsed body the schema refuses gets 422 with its messages joined. */
  lemma InvalidBodyRefused(event: Event, parse: string -> Option<Json>, newId: string, fault: Option<string>, j: Json)
    requires event.body.Some? && event.body.value != "" && parse(event.body.value) == Some(j)
    requires CreatePaymentSchema(Some(j)).Failure?
    ensures CreatePaymentSpec(event, parse, newId, fault) == UnprocessableEntity(Joined(CreatePaymentSchema(Some(j)).error))
  {
  }

  /** The refused bodies of the handler's test cases: an amount that is
      not a number gets 422 whose message starts with "Amount is
      required"; a body without currency gets 422 "Currency is required". */
  lemma TestCaseRefusals(event: Event, parse: string -> Option<Json>, newId: string, fault: Option<string>, word: string, code: string)
    requires event.body.Some? && event.body.value != ""
    requires ParseFloat(word).None?
    ensures parse(event.body.value) == Some(JObj(map["amount" := JStr(word), "currency" := JStr(code)])) ==>
      && CreatePaymentSpec(event, parse, newId, fault).statusCode == 422
      && AmountRequired <= MessageOf(CreatePaymentSpec(event, parse, newId, fault)).value
    ensures parse(event.body.value) == Some(JObj(map["amount" := JNum(100.0)])) ==>
      CreatePaymentSpec(event, parse, newId, fault) == UnprocessableEntity(CurrencyRequired)
  {
    CreatePaymentRejections(word, code, -1.0);
    var j1 := JObj(map["amount" := JStr(word), "currency" := JStr(code)]);
    JoinStartsWithFirst(CreatePaymentSchema(Some(j1)).error, ", ");
  }

  /** An accepted body with a working store gets 201 whose top-level members
      are `success`, the new id and the normalised amount and currency; the
      same record is what was stored. */
  lemma AcceptedBodyCreated(event: Event, parse: string -> Option<Json>, newId: string)
    requires AcceptedInput(event, parse).Success?
    ensures var input := AcceptedInput(event, parse).value;
      && IsValidInput(input)
      && CreatePaymentSpec(event, parse, newId, None).body.fields ==
         map["success" := JBool(true), "paymentId" := JStr(newId),
             "amount" := JNum(input.amount), "currency" := JStr(input.currency)]
  {
  }

  /** A currency is stored trimmed and upper-cased, and a numeric string
      amount as its number: `{"amount": "123.45", "currency": " usd "}`
      stores 123.45 "USD". */
  lemma NormalisedOnCreate(event: Event, parse: string -> Option<Json>, whole: string, fraction: string, code: string)
    requires whole == "123" && fraction == "45" && code == " usd "
    requires event.body.Some? && event.body.value != ""
    requires parse(event.body.value) == Some(JObj(map["amount" := JStr(whole + "." + fraction), "currency" := JStr(code)]))
    ensures AcceptedInput(event, parse) == Success(PaymentInput(123.45, "USD"))
  {
    var fields := map["amount" := JStr(whole + "." + fraction), "currency" := JStr(code)];
    ExampleFields(whole + "." + fraction, code);
    AmountStringExample(whole, fraction);
    PaddedCurrency(code);
  }

  /** The example body has exactly the two admitted keys. */
  lemma ExampleFields(amount: string, currency: string)
    ensures var fields := map["amount" := JStr(amount), "currency" := JStr(currency)];
      && fields.Keys == PaymentKeys
      && Member(fields, "amount") == Some(JStr(amount))
      && Member(fields, "currency") == Some(JStr(currency))
  {
  }

  /** " usd " is trimmed and upper-cased to "USD". */
  lemma PaddedCurrency(code: string)
    requires code == " usd "
    ensures CurrencySchema(Some(JStr(code))) == Success("USD")
  {
    assert TrimStart(code) == "usd ";
    assert TrimEnd("usd ") == "usd" by {
      assert "usd "[..3] == "usd";
    }
    assert ToUpper("usd") == "USD";
  }

  /** A store failure surfaces as 400 "Validation error", not 500. */
  lemma StoreFailureIs400(event: Event, parse: string -> Option<Json>, newId: string, detail: string)
    requires AcceptedInput(event, parse).Success?
    ensures CreatePaymentSpec(event, parse, newId, Some(detail)) == BadRequest(ValidationError)
  {
  }
}
