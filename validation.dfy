/** src/middleware/validation.middleware.ts: `withValidation` checks the
    body, then each configured path parameter, then each configured query
    parameter, stops at the first failure with a fixed status, and otherwise
    hands the handler a context of the normalised values. */
module Validation {
  import opened Wrappers
  import opened JsonValues
  import opened Strings
  import opened Lambda

  const BodyRequired := "Valid request body is required"
  const ValidationError := "Validation error"

  /** Why `schema.parse` threw: a ZodError with its issue messages, or any
      other exception. */
  datatype Rejection = Issues(messages: seq<string>) | Crash(detail: string)

  /** `schema.parse`: the raw value (None for `undefined`) to the parsed
      value (None for `undefined`) or the exception it throws. */
  type Schema = Option<Json> -> Result<Option<Json>, Rejection>

  /** A schema whose only exceptions are ZodErrors. */
  function Zod(r: Result<Option<Json>, seq<string>>): (z: Result<Option<Json>, Rejection>)
    ensures z.Success? <==> r.Success?
    ensures z.Success? ==> z.value == r.value
    ensures z.Failure? ==> z.error == Issues(r.error)
  {
    match r
    case Success(v) => Success(v)
    case Failure(ms) => Failure(Issues(ms))
  }

  /** `ValidationConfig`: each part is present when it is to be validated;
      parameters are checked in the order of their entries. */
  datatype Config = Config(
    body: Option<Schema>,
    pathParams: Option<seq<(string, Schema)>>,
    queryParams: Option<seq<(string, Schema)>>)

  /** `ValidationContext`: the normalised values of the configured parts
      (a body that parses to `undefined` is absent too). */
  datatype Context = Context(
    body: Option<Json>,
    pathParams: Option<map<string, Option<Json>>>,
    queryParams: Option<map<string, Option<Json>>>)

  /** What the checks decide: the response that ends the request, or the
      context the handler is called with. */
  datatype Verdict = Reject(response: Response) | Accept(context: Context)

  /** The messages of a ZodError, as the middleware joins them. */
  function Joined(messages: seq<string>): string {
    Join(messages, ", ")
  }

  // ------------------------------------------------- the checks, as functions

  /** The body check: 400 for an absent, empty or unparsable body, 422 for
      a body the schema rejects. */
  function BodyCheck(schema: Schema, body: Option<string>, parse: string -> Option<Json>): Result<Option<Json>, Response>
  {
    if body.None? || body.value == "" then Failure(BadRequest(BodyRequired))
    else match parse(body.value)
      case None => Failure(BadRequest(BodyRequired))
      case Some(j) =>
        match schema(Some(j))
        case Success(out) => Success(out)
        case Failure(Issues(ms)) => Failure(UnprocessableEntity(Joined(ms)))
        case Failure(Crash(_)) => Failure(BadRequest(BodyRequired))
  }

  /** `parameters?.[key]` as a JSON value. */
  function RawParam(raw: Option<map<string, string>>, key: string): (r: Option<Json>)
    ensures r.Some? <==> raw.Some? && key in raw.value
    ensures r.Some? ==> r.value == JStr(raw.value[key])
  {
    if raw.Some? && key in raw.value then Some(JStr(raw.value[key])) else None
  }

  /** A failing parameter: 400 with the ZodError's messages; any other
      exception is rethrown and caught by the outer guard. */
  function ParamFailure(rej: Rejection): (r: Response)
    ensures r.statusCode == 400
    ensures rej.Issues? ==> MessageOf(r) == Some(Joined(rej.messages))
    ensures rej.Crash? ==> MessageOf(r) == Some(ValidationError)
  {
    match rej
    case Issues(ms) => BadRequest(Joined(ms))
    case Crash(_) => BadRequest(ValidationError)
  }

  /** The parameter loop over a prefix of the entries: the values so far,
      or the response for the first entry that failed. */
  function CheckParams(entries: seq<(string, Schema)>, raw: Option<map<string, string>>): Result<map<string, Option<Json>>, Response>
    decreases |entries|
  {
    if entries == [] then Success(map[])
    else
      match CheckParams(entries[..|entries| - 1], raw)
      case Failure(response) => Failure(response)
      case Success(acc) =>
        var key := entries[|entries| - 1].0;
        match entries[|entries| - 1].1(RawParam(raw, key))
        case Success(out) => Success(acc[key := out])
        case Failure(rej) => Failure(ParamFailure(rej))
  }

  /** The whole middleware before the handler: body, then path, then query. */
  function ValidateSpec(config: Config, event: Event, parse: string -> Option<Json>): Verdict {
    var body := if config.body.None? then Success(None) else BodyCheck(config.body.value, event.body, parse);
    if body.Failure? then Reject(body.error)
    else
      var path := if config.pathParams.None? then Success(map[]) else CheckParams(config.pathParams.value, event.pathParameters);
      if path.Failure? then Reject(path.error)
      else
        var query := if config.queryParams.None? then Success(map[]) else CheckParams(config.queryParams.value, event.queryStringParameters);
        if query.Failure? then Reject(query.error)
        else Accept(Context(
          body.value,
          if config.pathParams.None? then None else Some(path.value),
          if config.queryParams.None? then None else Some(query.value)))
  }

  /** The outer guard around the handler call: whatever the handler throws
      becomes 400 "Validation error". */
  function HandlerBoundary(o: Outcome<Response>): (r: Response)
    ensures o.Returned? ==> r == o.value
    ensures o.Threw? ==> r.statusCode == 400 && MessageOf(r) == Some(ValidationError)
  {
    match o
    case Returned(response) => response
    case Threw(_) => BadRequest(ValidationError)
  }

  // ---------------------------------------------------- the middleware itself

  /** The checks of `withValidation`, filling the context part by part and
      returning at the first failure. */
  method Validate(config: Config, event: Event, parse: string -> Option<Json>) returns (v: Verdict)
    ensures v == ValidateSpec(config, event, parse)
  {
    var context := Context(None, None, None);
    if config.body.Some? {
      if event.body.None? || event.body.value == "" {
        return Reject(BadRequest(BodyRequired));
      }
      var parsed := parse(event.body.value);
      if parsed.None? {
        return Reject(BadRequest(BodyRequired));
      }
      var checked := config.body.value(parsed);
      match checked {
        case Failure(Issues(ms)) => return Reject(UnprocessableEntity(Joined(ms)));
        case Failure(Crash(_)) => return Reject(BadRequest(BodyRequired));
        case Success(out) => context := context.(body := out);
      }
    }
    if config.pathParams.Some? {
      var checked := CheckEntries(config.pathParams.value, event.pathParameters);
      if checked.Failure? {
        return Reject(checked.error);
      }
      context := context.(pathParams := Some(checked.value));
    }
    if config.queryParams.Some? {
      var checked := CheckEntries(config.queryParams.value, event.queryStringParameters);
      if checked.Failure? {
        return Reject(checked.error);
      }
      context := context.(queryParams := Some(checked.value));
    }
    return Accept(context);
  }

  /** One parameter loop: `for (const [key, schema] of Object.entries(...))`. */
  method CheckEntries(entries: seq<(string, Schema)>, raw: Option<map<string, string>>)
    returns (r: Result<map<string, Option<Json>>, Response>)
    ensures r == CheckParams(entries, raw)
  {
    var values := map[];
    for i := 0 to |entries|
      invariant CheckParams(entries[..i], raw) == Success(values)
    {
      var key := entries[i].0;
      assert entries[..i + 1][..i] == entries[..i];
      var checked := entries[i].1(RawParam(raw, key));
      if checked.Failure? {
        FailurePersists(entries, i + 1, raw);
        return Failure(ParamFailure(checked.error));
      }
      values := values[key := checked.value];
    }
    assert entries[..|entries|] == entries;
    return Success(values);
  }

  /** Once a prefix of the entries has failed, the loop's answer is that
      failure. */
  lemma {:induction false} FailurePersists(entries: seq<(string, Schema)>, k: nat, raw: Option<map<string, string>>)
    requires k <= |entries|
    requires CheckParams(entries[..k], raw).Failure?
    ensures CheckParams(entries, raw) == CheckParams(entries[..k], raw)
    decreases |entries| - k
  {
    if k < |entries| {
      assert entries[..k + 1][..k] == entries[..k];
      FailurePersists(entries, k + 1, raw);
    } else {
      assert entries[..k] == entries;
    }
  }

  // ------------------------------------------------------------ properties

  /** The parameter loop succeeds exactly when every entry's schema accepts
      its raw value. */
  lemma {:induction false} CheckParamsSucceeds(entries: seq<(string, Schema)>, raw: Option<map<string, string>>)
    ensures CheckParams(entries, raw).Success? <==>
      forall i :: 0 <= i < |entries| ==> entries[i].1(RawParam(raw, entries[i].0)).Success?
    decreases |entries|
  {
    if entries != [] {
      var init := entries[..|entries| - 1];
      CheckParamsSucceeds(init, raw);
      forall i | 0 <= i < |init| ensures init[i] == entries[i] { }
    }
  }

  /** When the loop fails, its response is the one for the first entry whose
      schema rejects its value. */
  lemma {:induction false} CheckParamsFirstFailure(entries: seq<(string, Schema)>, raw: Option<map<string, string>>, j: nat)
    requires j < |entries|
    requires forall i :: 0 <= i < j ==> entries[i].1(RawParam(raw, entries[i].0)).Success?
    requires entries[j].1(RawParam(raw, entries[j].0)).Failure?
    ensures CheckParams(entries, raw) == Failure(ParamFailure(entries[j].1(RawParam(raw, entries[j].0)).error))
  {
    var prefix := entries[..j + 1];
    assert prefix[..j] == entries[..j];
    CheckParamsSucceeds(entries[..j], raw);
    assert CheckParams(entries[..j], raw).Success? by {
      forall i | 0 <= i < j ensures entries[..j][i] == entries[i] { }
    }
    FailurePersists(entries, j + 1, raw);
  }

  /** On success the values hold exactly the configured keys. */
  lemma {:induction false} CheckParamsKeys(entries: seq<(string, Schema)>, raw: Option<map<string, string>>)
    requires CheckParams(entries, raw).Success?
    ensures forall k :: k in CheckParams(entries, raw).value <==> exists i :: 0 <= i < |entries| && entries[i].0 == k
    decreases |entries|
  {
    if entries != [] {
      var n := |entries| - 1;
      var init := entries[..n];
      CheckParamsKeys(init, raw);
      forall k ensures k in CheckParams(entries, raw).value <==> exists i :: 0 <= i < |entries| && entries[i].0 == k {
        if k in CheckParams(init, raw).value {
          var i :| 0 <= i < |init| && init[i].0 == k;
          assert entries[i].0 == k;
        }
        if exists i :: 0 <= i < |entries| && entries[i].0 == k {
          var i :| 0 <= i < |entries| && entries[i].0 == k;
          if i < n {
            assert init[i].0 == k;
          }
        }
      }
    }
  }

  /** On success each configured key holds its schema's output (the keys of
      a configuration are distinct). */
  lemma {:induction false} CheckParamsValue(entries: seq<(string, Schema)>, raw: Option<map<string, string>>, j: nat)
    requires forall a, b :: 0 <= a < b < |entries| ==> entries[a].0 != entries[b].0
    requires CheckParams(entries, raw).Success?
    requires j < |entries|
    ensures entries[j].0 in CheckParams(entries, raw).value
    ensures Success(CheckParams(entries, raw).value[entries[j].0]) == entries[j].1(RawParam(raw, entries[j].0))
    decreases |entries|
  {
    var n := |entries| - 1;
    var init := entries[..n];
    if j < n {
      assert init[j] == entries[j];
      assert forall a, b :: 0 <= a < b < |init| ==> init[a].0 != init[b].0 by {
        forall a, b | 0 <= a < b < |init| ensures init[a].0 != init[b].0 {
          assert init[a] == entries[a] && init[b] == entries[b];
        }
      }
      CheckParamsValue(init, raw, j);
      assert entries[j].0 != entries[n].0;
    }
  }

  /** The status of a rejection tells which check failed: 422 exactly when
      the body schema rejected the parsed body, 400 for everything else. */
  lemma RejectionStatus(config: Config, event: Event, parse: string -> Option<Json>)
    requires ValidateSpec(config, event, parse).Reject?
    ensures ValidateSpec(config, event, parse).response.statusCode in {400, 422}
    ensures ValidateSpec(config, event, parse).response.statusCode == 422 <==>
      && config.body.Some? && event.body.Some? && event.body.value != ""
      && parse(event.body.value).Some?
      && config.body.value(parse(event.body.value)).Failure?
      && config.body.value(parse(event.body.value)).error.Issues?
  {
    var path := if config.pathParams.None? then Success(map[]) else CheckParams(config.pathParams.value, event.pathParameters);
    if config.pathParams.Some? && path.Failure? {
      CheckParamsIs400(config.pathParams.value, event.pathParameters);
    }
    var query := if config.queryParams.None? then Success(map[]) else CheckParams(config.queryParams.value, event.queryStringParameters);
    if config.queryParams.Some? && query.Failure? {
      CheckParamsIs400(config.queryParams.value, event.queryStringParameters);
    }
  }

  /** Every parameter failure is a 400. */
  lemma {:induction false} CheckParamsIs400(entries: seq<(string, Schema)>, raw: Option<map<string, string>>)
    requires CheckParams(entries, raw).Failure?
    ensures CheckParams(entries, raw).error.statusCode == 400
    decreases |entries|
  {
    var init := entries[..|entries| - 1];
    if CheckParams(init, raw).Failure? {
      CheckParamsIs400(init, raw);
    }
  }

  /** The body is checked first: with a body schema configured, an absent
      or empty body is refused with 400 before anything else is looked at. */
  lemma MissingBodyRefused(config: Config, event: Event, parse: string -> Option<Json>)
    requires config.body.Some? && (event.body.None? || event.body.value == "")
    ensures ValidateSpec(config, event, parse) == Reject(BadRequest(BodyRequired))
  {
  }

  /** A body `JSON.parse` rejects gets the same 400. */
  lemma MalformedBodyRefused(config: Config, event: Event, parse: string -> Option<Json>)
    requires config.body.Some? && event.body.Some? && event.body.value != "" && parse(event.body.value).None?
    ensures ValidateSpec(config, event, parse) == Reject(BadRequest(BodyRequired))
  {
  }

  /** A parsed body the schema rejects gets 422 with the joined messages. */
  lemma BodySchemaRefused(config: Config, event: Event, parse: string -> Option<Json>, ms: seq<string>)
    requires config.body.Some? && event.body.Some? && event.body.value != ""
    requires parse(event.body.value).Some?
    requires config.body.value(parse(event.body.value)) == Failure(Issues(ms))
    ensures ValidateSpec(config, event, parse) == Reject(UnprocessableEntity(Joined(ms)))
  {
  }

  /** The handler is reached exactly when every configured check passes,
      and the context holds exactly the configured parts. */
  lemma AcceptedIffAllPass(config: Config, event: Event, parse: string -> Option<Json>)
    ensures ValidateSpec(config, event, parse).Accept? <==>
      && (config.body.Some? ==> BodyCheck(config.body.value, event.body, parse).Success?)
      && (config.pathParams.Some? ==>
            forall i :: 0 <= i < |config.pathParams.value| ==>
              config.pathParams.value[i].1(RawParam(event.pathParameters, config.pathParams.value[i].0)).Success?)
      && (config.queryParams.Some? ==>
            forall i :: 0 <= i < |config.queryParams.value| ==>
              config.queryParams.value[i].1(RawParam(event.queryStringParameters, config.queryParams.value[i].0)).Success?)
    ensures ValidateSpec(config, event, parse).Accept? ==>
      var context := ValidateSpec(config, event, parse).context;
      && (config.body.None? ==> context.body.None?)
      && (context.pathParams.Some? <==> config.pathParams.Some?)
      && (context.queryParams.Some? <==> config.queryParams.Some?)
  {
    if config.pathParams.Some? {
      CheckParamsSucceeds(config.pathParams.value, event.pathParameters);
    }
    if config.queryParams.Some? {
      CheckParamsSucceeds(config.queryParams.value, event.queryStringParameters);
    }
  }
}
