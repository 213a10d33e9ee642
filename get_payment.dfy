/** src/handlers/getPayment.ts: `GET /payments/{id}`. Only the path
    parameter `id` is validated, with PaymentIdSchema; the handler looks the
    trimmed id up and answers 404 or 200. */
module GetPaymentHandler {
  import opened Wrappers
  import opened JsonValues
  import Strings
  import opened Lambda
  import opened Validation
  import opened Schemas
  import opened PaymentTypes
  import opened Repository
  import opened Service

  const NotFoundMessage := "Payment not found"

  /** `PaymentIdSchema.parse` as the middleware calls it. */
  function IdSchema(v: Option<Json>): Result<Option<Json>, Rejection> {
    Zod(ParsePaymentId(v))
  }

  /** `{ pathParams: { id: PaymentIdSchema } }` */
  const IdConfig: Config := Config(None, Some([("id", IdSchema)]), None)

  /** `context.pathParams!.id` */
  function IdOf(context: Context): Option<string> {
    if context.pathParams.Some? && "id" in context.pathParams.value
       && context.pathParams.value["id"].Some? && context.pathParams.value["id"].value.JStr?
    then Some(context.pathParams.value["id"].value.s)
    else None
  }

  /** The response for what the service returned. */
  function Respond(found: Option<Payment>): (r: Response)
    ensures found.None? ==> r.statusCode == 404 && MessageOf(r) == Some(NotFoundMessage)
    ensures found.Some? ==> r.statusCode == 200 && DataOf(r) == Some(PaymentJson(found.value))
  {
    if found.None? then NotFound(NotFoundMessage) else Ok(PaymentJson(found.value))
  }

  /** The whole endpoint, stated directly: an id PaymentIdSchema refuses
      gets 400 with its messages; otherwise the record under the trimmed id
      gets 200, no record 404, and a store failure 400 "Validation error". */
  function GetPaymentSpec(event: Event, table: map<string, Payment>, fault: Option<string>): Response {
    match PaymentIdSchema(RawParam(event.pathParameters, "id"))
    case Failure(ms) => BadRequest(Joined(ms))
    case Success(id) => if fault.Some? then BadRequest(ValidationError) else Respond(Member(table, id))
  }

  /** The configuration checks `id` alone: the middleware refuses exactly
      what PaymentIdSchema refuses, and otherwise passes the trimmed id on. */
  lemma IdConfigChecksId(event: Event, parse: string -> Option<Json>)
    ensures PaymentIdSchema(RawParam(event.pathParameters, "id")).Failure? ==>
      ValidateSpec(IdConfig, event, parse) == Reject(BadRequest(Joined(PaymentIdSchema(RawParam(event.pathParameters, "id")).error)))
    ensures PaymentIdSchema(RawParam(event.pathParameters, "id")).Success? ==>
      && ValidateSpec(IdConfig, event, parse).Accept?
      && IdOf(ValidateSpec(IdConfig, event, parse).context) == Some(PaymentIdSchema(RawParam(event.pathParameters, "id")).value)
      && ValidateSpec(IdConfig, event, parse).context.body.None?
      && ValidateSpec(IdConfig, event, parse).context.queryParams.None?
  {
    var entries := IdConfig.pathParams.value;
    var raw := RawParam(event.pathParameters, "id");
    assert entries[..|entries| - 1] == [];
    assert CheckParams(entries[..|entries| - 1], event.pathParameters) == Success(map[]);
    assert entries[0].0 == "id" && entries[0].1 == IdSchema;
    assert entries[0].1(raw) == Zod(ParsePaymentId(raw));
  }

  /** `getPaymentHandler`: looks the validated id up through the service. */
  method GetPayment(service: PaymentService, context: Context, fault: Option<string>) returns (o: Outcome<Response>)
    requires service.repository.Valid()
    requires IdOf(context).Some?
    modifies service.repository`calls
    ensures service.repository.calls == old(service.repository.calls) + [GetCall(IdOf(context).value)]
    ensures fault.Some? ==> o == Threw(fault.value)
    ensures fault.None? ==> o == Returned(Respond(Member(service.repository.table, IdOf(context).value)))
  {
    var paymentId := IdOf(context).value;
    var payment := service.GetPaymentById(paymentId, fault);
    if payment.Threw? {
      return Threw(payment.detail);
    }
    if payment.value.None? {
      return Returned(NotFound(NotFoundMessage));
    }
    return Returned(Ok(PaymentJson(payment.value.value)));
  }

  /** `handler = wrapHandler(withValidation(IdConfig, getPaymentHandler))`.
      The service is called only for an id the schema accepts. */
  method Handler(service: PaymentService, event: Event, parse: string -> Option<Json>, fault: Option<string>)
    returns (response: Response)
    requires service.repository.Valid()
    modifies service.repository`calls
    ensures response == GetPaymentSpec(event, old(service.repository.table), fault)
    ensures PaymentIdSchema(RawParam(event.pathParameters, "id")).Failure? ==>
      service.repository.calls == old(service.repository.calls)
    ensures PaymentIdSchema(RawParam(event.pathParameters, "id")).Success? ==>
      service.repository.calls == old(service.repository.calls) + [GetCall(PaymentIdSchema(RawParam(event.pathParameters, "id")).value)]
  {
    IdConfigChecksId(event, parse);
    var verdict := Validate(IdConfig, event, parse);
    var inner: Response;
    match verdict {
      case Reject(r) =>
        inner := r;
      case Accept(context) =>
        var o := GetPayment(service, context, fault);
        inner := HandlerBoundary(o);
    }
    response := WrapHandler(Returned(inner));
  }

  // ------------------------------------------------------------ properties

  /** The endpoint answers 200, 400 or 404, never 500. */
  lemma GetPaymentStatuses(event: Event, table: map<string, Payment>, fault: Option<string>)
    ensures GetPaymentSpec(event, table, fault).statusCode in {200, 400, 404}
  {
  }

  /** A missing id, a blank one and one that is not a UUID each get 400
      with their own message. */
  lemma InvalidIdRefused(event: Event, table: map<string, Payment>, fault: Option<string>)
    ensures RawParam(event.pathParameters, "id").None? ==>
      GetPaymentSpec(event, table, fault) == BadRequest(PaymentIdRequired)
    ensures event.pathParameters.Some? && "id" in event.pathParameters.value
            && Strings.IsBlank(event.pathParameters.value["id"]) ==>
      GetPaymentSpec(event, table, fault) == BadRequest(PaymentIdEmpty)
    ensures event.pathParameters.Some? && "id" in event.pathParameters.value
            && !Strings.IsBlank(event.pathParameters.value["id"])
            && !IsUuid(Strings.Trim(event.pathParameters.value["id"])) ==>
      GetPaymentSpec(event, table, fault) == BadRequest(PaymentIdFormat)
  {
    PaymentIdCases(RawParam(event.pathParameters, "id"));
  }

  /** A valid id, padded or not, is looked up trimmed: a stored record gets
      200 with the record as data, no record gets 404. */
  lemma ValidIdLookedUp(event: Event, table: map<string, Payment>, raw: string)
    requires event.pathParameters == Some(map["id" := raw])
    requires IsUuid(Strings.Trim(raw))
    ensures Strings.Trim(raw) in table ==>
      GetPaymentSpec(event, table, None) == Ok(PaymentJson(table[Strings.Trim(raw)]))
    ensures Strings.Trim(raw) !in table ==>
      GetPaymentSpec(event, table, None) == NotFound(NotFoundMessage)
  {
    PaymentIdCases(Some(JStr(raw)));
  }

  /** A found record's response data reads back as that record. */
  lemma FoundDataRoundTrip(p: Payment)
    ensures DataOf(Respond(Some(p))).Some?
    ensures PaymentOfJson(DataOf(Respond(Some(p))).value) == Some(p)
  {
    PaymentJsonRoundTrip(p);
  }

  /** A store failure during the lookup surfaces as 400 "Validation error"
      (the middleware's guard catches it before `wrapHandler` can). */
  lemma StoreFailureIs400(event: Event, table: map<string, Payment>, detail: string)
    requires PaymentIdSchema(RawParam(event.pathParameters, "id")).Success?
    ensures GetPaymentSpec(event, table, Some(detail)) == BadRequest(ValidationError)
  {
  }
}
