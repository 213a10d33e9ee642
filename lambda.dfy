/** src/lib/lambda.ts: the API Gateway event as the pipeline reads it, the
    response builders, the event getters and the outermost exception guard. */
module Lambda {
  import opened Wrappers
  import opened JsonValues

  /** The parts of an API Gateway proxy event the pipeline reads. A missing
      parameter map is None; a missing key is absent from its map. */
  datatype Event = Event(
    body: Option<string>,
    pathParameters: Option<map<string, string>>,
    queryStringParameters: Option<map<string, string>>)

  /** A proxy result: the status code and the JSON body before it is
      serialised (headers are not modelled). */
  datatype Response = Response(statusCode: int, body: Json)

  const InternalServerError := "Internal server error"

  // ------------------------------------------------------------ decoders

  /** The message of a `{success: false, message}` body, if that is its shape. */
  function MessageOf(r: Response): Option<string> {
    if r.body.JObj? && Member(r.body.fields, "success") == Some(JBool(false))
       && Member(r.body.fields, "message").Some? && r.body.fields["message"].JStr?
    then Some(r.body.fields["message"].s)
    else None
  }

  /** The payload of a `{success: true, data}` body, if that is its shape. */
  function DataOf(r: Response): Option<Json> {
    if r.body.JObj? && Member(r.body.fields, "success") == Some(JBool(true)) && "data" in r.body.fields
    then Some(r.body.fields["data"])
    else None
  }

  // ------------------------------------------------------------ builders

  function ErrorBody(message: string): Json {
    JObj(map["success" := JBool(false), "message" := JStr(message)])
  }

  /** `responses.badRequest` */
  function BadRequest(message: string): (r: Response)
    ensures r.statusCode == 400 && MessageOf(r) == Some(message) && DataOf(r).None?
    ensures r.body.JObj? && r.body.fields.Keys == {"success", "message"}
  {
    Response(400, ErrorBody(message))
  }

  /** `responses.notFound` */
  function NotFound(message: string): (r: Response)
    ensures r.statusCode == 404 && MessageOf(r) == Some(message) && DataOf(r).None?
    ensures r.body.JObj? && r.body.fields.Keys == {"success", "message"}
  {
    Response(404, ErrorBody(message))
  }

  /** `responses.unprocessableEntity` */
  function UnprocessableEntity(message: string): (r: Response)
    ensures r.statusCode == 422 && MessageOf(r) == Some(message) && DataOf(r).None?
    ensures r.body.JObj? && r.body.fields.Keys == {"success", "message"}
  {
    Response(422, ErrorBody(message))
  }

  /** `responses.ok` */
  function Ok(data: Json): (r: Response)
    ensures r.statusCode == 200 && DataOf(r) == Some(data) && MessageOf(r).None?
    ensures r.body.JObj? && r.body.fields.Keys == {"success", "data"}
  {
    Response(200, JObj(map["success" := JBool(true), "data" := data]))
  }

  /** `responses.created`: `{success: true, ...data}`, the data's members
      spread at the top level (a member named `success` would override). */
  function Created(data: map<string, Json>): (r: Response)
    ensures r.statusCode == 201 && r.body.JObj?
    ensures r.body.fields.Keys == data.Keys + {"success"}
    ensures forall k :: k in data ==> r.body.fields[k] == data[k]
    ensures "success" !in data ==> r.body.fields["success"] == JBool(true)
  {
    Response(201, JObj(map["success" := JBool(true)] + data))
  }

  // ------------------------------------------------------------- getters

  /** `getPathParam`: `pathParameters?.[name] || null`, so an empty value
      reads as null too. */
  function GetPathParam(e: Event, name: string): (r: Option<string>)
    ensures r.Some? <==> e.pathParameters.Some? && name in e.pathParameters.value && e.pathParameters.value[name] != ""
    ensures r.Some? ==> r.value == e.pathParameters.value[name]
  {
    if e.pathParameters.Some? && name in e.pathParameters.value && e.pathParameters.value[name] != ""
    then Some(e.pathParameters.value[name])
    else None
  }

  /** `getQueryParams`: the query parameters, or `{}` when there are none. */
  function GetQueryParams(e: Event): (r: map<string, string>)
    ensures e.queryStringParameters.None? ==> r == map[]
    ensures e.queryStringParameters.Some? ==> r == e.queryStringParameters.value
  {
    if e.queryStringParameters.Some? then e.queryStringParameters.value else map[]
  }

  /** `getBody`: the parsed body, or null for an absent, empty or unparsable
      one. `parse` stands for `JSON.parse`, None where it throws; a body
      that parses to `null` reads the same as no body. */
  function GetBody(e: Event, parse: string -> Option<Json>): (r: Json)
    ensures (e.body.None? || e.body.value == "") ==> r == JNull
    ensures e.body.Some? && e.body.value != "" && parse(e.body.value).None? ==> r == JNull
    ensures e.body.Some? && e.body.value != "" && parse(e.body.value).Some? ==> r == parse(e.body.value).value
    ensures r != JNull ==> e.body.Some? && parse(e.body.value) == Some(r)
  {
    if e.body.None? || e.body.value == "" then JNull
    else match parse(e.body.value)
      case None => JNull
      case Some(j) => j
  }

  // -------------------------------------------------------- wrapHandler

  /** `wrapHandler`: the inner handler's response when it returns, a fixed
      500 when it throws. */
  function WrapHandler(o: Outcome<Response>): (r: Response)
    ensures o.Returned? ==> r == o.value
    ensures o.Threw? ==> r.statusCode == 500 && MessageOf(r) == Some(InternalServerError)
    ensures o.Threw? ==> r.body.JObj? && r.body.fields.Keys == {"success", "message"}
  {
    match o
    case Returned(response) => response
    case Threw(_) => Response(500, ErrorBody(InternalServerError))
  }

  /** The 500 response carries nothing of the exception: any two failures
      give the same response. */
  lemma WrapHandlerHidesDetail(d1: string, d2: string)
    ensures WrapHandler(Threw(d1)) == WrapHandler(Threw(d2))
    ensures MessageOf(WrapHandler(Threw(d1))) == Some(InternalServerError)
  {
  }
}
