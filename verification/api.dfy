/**
 The HTTP layer of client_1c_timesheet/api.py with the network taken out: the
 query parameters `APIServer.get`, `post`, `put` and `patch` attach to a request,
 and how `APIRawResponse.parse` turns a status code and a body into either a
 decoded JSON value or one of the library's exceptions. The server itself is a
 parameter: a function from the request sent to the raw response received.
 */
module Api {
  import opened JsonValue
  import opened Errors
  import opened Text

  const ValueKey: string := "value"
  const OdataErrorKey: string := "odata.error"
  const MessageKey: string := "message"
  const CodeKey: string := "code"
  const FormatKey: string := "$format"
  const FormatJson: Json := JStr("json")

  // ------------------------------------------------------------------ requests

  datatype Method = Get | Post | Put | Patch

  /** What is handed to `requests`: the verb, the path below the server URL, the
      query parameters and, for the write verbs, the JSON body. A parameter value
      may be anything the caller puts in the dict. */
  datatype Request = Request(verb: Method, path: string, params: map<string, Json>, data: Option<Json>)

  /** The parameters `get` sends: the caller's, when there are any, with `$format`
      forced to `json`. `None` and an empty dict are both falsy and give the bare
      format parameter. */
  function GetParams(params: Option<map<string, Json>>): (r: map<string, Json>)
    ensures r.Keys == (if params.Some? then params.value.Keys else {}) + {FormatKey}
    ensures FormatKey in r && r[FormatKey] == FormatJson
    ensures params.Some? ==> forall k | k in params.value && k != FormatKey :: k in r && r[k] == params.value[k]
  {
    if params.Some? && params.value != map[] then params.value + map[FormatKey := FormatJson]
    else map[FormatKey := FormatJson]
  }

  /** The fixed parameters of `post`, `put` and `patch`. */
  const WriteParams: map<string, Json> := map[FormatKey := FormatJson]

  /** The write verbs send exactly what a `get` without parameters sends, and
      adding the format parameter a second time changes nothing. */
  lemma GetParamsDefaults(params: Option<map<string, Json>>)
    ensures GetParams(None) == WriteParams
    ensures GetParams(Some(map[])) == WriteParams
    ensures GetParams(Some(GetParams(params))) == GetParams(params)
  {
  }

  function GetRequest(path: string, params: Option<map<string, Json>>): (r: Request)
    ensures r.verb == Get && r.path == path && r.data.None?
    ensures r.params == GetParams(params)
  {
    Request(Get, path, GetParams(params), None)
  }

  function WriteRequest(verb: Method, path: string, data: Json): (r: Request)
    requires verb != Get
    ensures r.verb == verb && r.path == path && r.data == Some(data)
    ensures r.params == WriteParams
  {
    Request(verb, path, WriteParams, Some(data))
  }

  // ----------------------------------------------------------------- responses

  /** The body text of a response, which `response.json()` either decodes or
      rejects. */
  datatype Body = Undecodable(text: string) | Decoded(json: Json)

  datatype RawResponse = RawResponse(status: int, body: Body)

  /** `parse_json`: a decode failure becomes `APIResponseParseException`. */
  function ParseJson(body: Body): (r: Result<Json>)
    ensures r.Ok? <==> body.Decoded?
    ensures r.Ok? ==> r.value == body.json
    ensures r.Err? ==> r.error == ResponseParse(InvalidJson(body.text))
  {
    match body
    case Decoded(j) => Ok(j)
    case Undecodable(t) => Err(ResponseParse(InvalidJson(t)))
  }

  /** `key in j.keys()`: only a dict has `.keys()`. */
  function HasKey(j: Json, key: string): (r: Result<bool>)
    ensures r.Ok? <==> j.JObj?
    ensures r.Ok? ==> r.value == (key in j.fields)
    ensures r.Err? ==> r.error == Untyped(AttributeError)
  {
    if j.JObj? then Ok(key in j.fields) else Err(Untyped(AttributeError))
  }

  /** `x in container` for a string `x`: a key test on a dict, an element test on
      a list, a substring test on a string; anything else is not iterable. */
  function PyIn(x: string, container: Json): (r: Result<bool>)
    ensures r.Ok? <==> container.JObj? || container.JArr? || container.JStr?
    ensures container.JObj? ==> r == Ok(x in container.fields)
    ensures container.JArr? ==> r == Ok(JStr(x) in container.items)
    ensures container.JStr? ==> r == Ok(Contains(container.s, x))
    ensures r.Err? ==> r.error == Untyped(TypeError)
  {
    match container
    case JObj(m) => Ok(x in m)
    case JArr(xs) => Ok(JStr(x) in xs)
    case JStr(s) => Ok(Contains(s, x))
    case _ => Err(Untyped(TypeError))
  }

  /** `j[key]` for a string key: a dict lookup; lists and strings need integer
      indices and the rest cannot be subscripted. */
  function Subscript(j: Json, key: string): (r: Result<Json>)
    ensures j.JObj? && key in j.fields ==> r == Ok(j.fields[key])
    ensures j.JObj? && key !in j.fields ==> r == Err(Untyped(KeyError))
    ensures !j.JObj? ==> r == Err(Untyped(TypeError))
  {
    if !j.JObj? then Err(Untyped(TypeError))
    else if key in j.fields then Ok(j.fields[key])
    else Err(Untyped(KeyError))
  }

  /** The shape the error parser accepts: a dict whose `odata.error` is a dict
      holding a `code` and a `message` dict that holds a `value`. */
  predicate WellFormedEnvelope(j: Json)
  {
    && j.JObj? && OdataErrorKey in j.fields
    && var e := j.fields[OdataErrorKey];
    && e.JObj? && CodeKey in e.fields && MessageKey in e.fields
    && var m := e.fields[MessageKey];
    && m.JObj? && ValueKey in m.fields
  }

  function EnvelopeCode(j: Json): Json
    requires WellFormedEnvelope(j)
  {
    j.fields[OdataErrorKey].fields[CodeKey]
  }

  function EnvelopeMessage(j: Json): Json
    requires WellFormedEnvelope(j)
  {
    j.fields[OdataErrorKey].fields[MessageKey].fields[ValueKey]
  }

  /** The error dict a 1C server sends, for a given code and message text. */
  function Envelope(code: Json, message: Json): (r: Json)
    ensures WellFormedEnvelope(r)
    ensures EnvelopeCode(r) == code && EnvelopeMessage(r) == message
  {
    JObj(map[OdataErrorKey := JObj(map[CodeKey := code, MessageKey := JObj(map[ValueKey := message])])])
  }

  /** The `message` step of `parse_json_clockify_error`: `message` must be a key of
      the error dict and `value` must be "in" it; the lookup that follows then only
      succeeds on a dict. */
  function ErrorMessage(e: map<string, Json>): (r: Result<Json>)
    ensures r.Ok? <==> MessageKey in e && e[MessageKey].JObj? && ValueKey in e[MessageKey].fields
    ensures r.Ok? ==> r.value == e[MessageKey].fields[ValueKey]
    ensures r.Err? ==> r.error in {ResponseParse(MissingMessage), Untyped(TypeError)}
    ensures r.Err? && MessageKey in e && e[MessageKey].JObj? ==> r.error == ResponseParse(MissingMessage)
    ensures MessageKey !in e ==> r == Err(ResponseParse(MissingMessage))
    ensures MessageKey in e && !e[MessageKey].JObj? ==>
              r == Err(if PyIn(ValueKey, e[MessageKey]) == Ok(false) then ResponseParse(MissingMessage) else Untyped(TypeError))
  {
    if MessageKey !in e then Err(ResponseParse(MissingMessage))
    else
      var m := e[MessageKey];
      var found :- PyIn(ValueKey, m);
      if !found then Err(ResponseParse(MissingMessage))
      else Subscript(m, ValueKey)
  }

  /** `parse_json_clockify_error`. When the decoded body has no `odata.error` the
      checks are skipped and building the result indexes the missing key; the
      message is checked before the code. */
  function ParseErrorEnvelope(body: Body): (r: Result<ErrorResponse>)
    ensures r.Ok? <==> body.Decoded? && WellFormedEnvelope(body.json)
    ensures r.Ok? ==> r.value == ErrorResponse(EnvelopeCode(body.json), EnvelopeMessage(body.json))
    ensures body.Undecodable? ==> r == Err(ResponseParse(InvalidJson(body.text)))
    ensures body.Decoded? && !body.json.JObj? ==> r == Err(Untyped(AttributeError))
    ensures body.Decoded? && body.json.JObj? && OdataErrorKey !in body.json.fields ==> r == Err(Untyped(KeyError))
    ensures r == Err(ResponseParse(MissingCode)) <==>
              && body.Decoded? && body.json.JObj? && OdataErrorKey in body.json.fields
              && var e := body.json.fields[OdataErrorKey];
              && e.JObj? && ErrorMessage(e.fields).Ok? && CodeKey !in e.fields
    ensures body.Decoded? && body.json.JObj? && OdataErrorKey in body.json.fields ==>
              var e := body.json.fields[OdataErrorKey];
              && (!e.JObj? ==> r == Err(Untyped(AttributeError)))
              && (e.JObj? && ErrorMessage(e.fields).Err? ==> r == Err(ErrorMessage(e.fields).error))
    ensures r.Err? ==> r.error.ResponseParse? || r.error.Untyped?
  {
    var parsed :- ParseJson(body);
    var hasError :- HasKey(parsed, OdataErrorKey);
    if !hasError then Err(Untyped(KeyError))
    else
      var e := parsed.fields[OdataErrorKey];
      var hasMessage :- HasKey(e, MessageKey);
      var msg :- ErrorMessage(e.fields);
      if CodeKey !in e.fields then Err(ResponseParse(MissingCode))
      else Ok(ErrorResponse(e.fields[CodeKey], msg))
  }

  predicate IsSuccessStatus(status: int)
  {
    status in {200, 201}
  }

  /** `APIRawResponse.parse`. On 200 and 201 a dict body is returned, unwrapped
      from its `value` entry when it has one; on any other status the body must be
      an error envelope, and a code equal to 404 selects `APIServer404`. */
  function Parse(response: RawResponse): (r: Result<Json>)
    ensures r.Ok? ==> IsSuccessStatus(response.status)
    ensures response.body.Undecodable? ==> r == Err(ResponseParse(InvalidJson(response.body.text)))
    ensures IsSuccessStatus(response.status) ==>
              (r.Ok? <==> response.body.Decoded? && response.body.json.JObj?)
    ensures IsSuccessStatus(response.status) && response.body.Decoded? && !response.body.json.JObj? ==>
              r == Err(Untyped(AttributeError))
    ensures r.Ok? ==> var m := response.body.json.fields;
              r.value == if ValueKey in m then m[ValueKey] else response.body.json
    ensures !IsSuccessStatus(response.status) ==>
              var envelope := ParseErrorEnvelope(response.body);
              && (envelope.Err? ==> r == Err(envelope.error))
              && (envelope.Ok? && PyEq(envelope.value.code, JNum(404.0)) ==> r == Err(NotFound(response.status, envelope.value)))
              && (envelope.Ok? && !PyEq(envelope.value.code, JNum(404.0)) ==> r == Err(ServerError(response.status, envelope.value)))
  {
    if IsSuccessStatus(response.status) then
      var parsed :- ParseJson(response.body);
      var hasValue :- HasKey(parsed, ValueKey);
      if hasValue then Ok(parsed.fields[ValueKey]) else Ok(parsed)
    else
      var envelope :- ParseErrorEnvelope(response.body);
      if PyEq(envelope.code, JNum(404.0)) then Err(NotFound(response.status, envelope))
      else Err(ServerError(response.status, envelope))
  }

  /** `get`, `post`, `put` and `patch`: send the request to the server and parse
      what comes back. */
  function Call(server: Request -> RawResponse, request: Request): (r: Result<Json>)
    ensures r.Ok? ==> IsSuccessStatus(server(request).status)
  {
    Parse(server(request))
  }

  // --------------------------------------------------------------- properties

  /** What an `except APIServerException` handler around a call catches: exactly
      the non-success responses whose body is a well-formed error envelope; the
      404 subclass is those whose code equals 404. Everything else that fails is
      either a parse failure or a Python built-in error. */
  lemma ServerErrorClassification(response: RawResponse)
    ensures var r := Parse(response);
      && (r.Err? && IsInstance(r.error, APIServerException) <==>
            !IsSuccessStatus(response.status) && response.body.Decoded? && WellFormedEnvelope(response.body.json))
      && (r.Err? && IsInstance(r.error, APIServer404) <==>
            && !IsSuccessStatus(response.status) && response.body.Decoded? && WellFormedEnvelope(response.body.json)
            && PyEq(EnvelopeCode(response.body.json), JNum(404.0)))
      && (r.Err? && IsInstance(r.error, APIServerException) ==>
            r.error.response == ErrorResponse(EnvelopeCode(response.body.json), EnvelopeMessage(response.body.json))
            && r.error.status == response.status)
  {
    var r := Parse(response);
    if r.Err? {
      ServerExceptionHierarchy(r.error);
    }
  }

  /** Undecodable text is reported as `APIResponseParseException` whatever the
      status, on the success path and on the error path alike. */
  lemma InvalidJsonOnEitherPath(status: int, text: string)
    ensures Parse(RawResponse(status, Undecodable(text))) == Err(ResponseParse(InvalidJson(text)))
    ensures IsInstance(Parse(RawResponse(status, Undecodable(text))).error, APIResponseParseException)
  {
  }

  /** A success body wrapped in `value` comes back unwrapped. */
  lemma SuccessRoundTrip(status: int, v: Json)
    requires IsSuccessStatus(status)
    ensures Parse(RawResponse(status, Decoded(JObj(map[ValueKey := v])))) == Ok(v)
  {
  }

  /** Reading back the envelope a server sends recovers its code and message,
      and the status picks the exception class. */
  lemma ErrorRoundTrip(status: int, code: Json, message: Json)
    requires !IsSuccessStatus(status)
    ensures ParseErrorEnvelope(Decoded(Envelope(code, message))) == Ok(ErrorResponse(code, message))
    ensures Parse(RawResponse(status, Decoded(Envelope(code, message)))) ==
              if PyEq(code, JNum(404.0)) then Err(NotFound(status, ErrorResponse(code, message)))
              else Err(ServerError(status, ErrorResponse(code, message)))
  {
  }

  /** `code == 404` is Python equality: the number 404 selects `APIServer404`, the
      string "404" does not. */
  lemma NotFoundNeedsNumericCode(status: int, message: Json)
    requires !IsSuccessStatus(status)
    ensures Parse(RawResponse(status, Decoded(Envelope(JNum(404.0), message)))).error.NotFound?
    ensures Parse(RawResponse(status, Decoded(Envelope(JStr("404"), message)))).error.ServerError?
  {
    ErrorRoundTrip(status, JNum(404.0), message);
    ErrorRoundTrip(status, JStr("404"), message);
  }

  /** A success status with a JSON list body fails on `.keys()` with a Python
      `AttributeError`, outside the library's exception hierarchy. */
  lemma ListBodyOnSuccess(status: int, items: seq<Json>)
    requires IsSuccessStatus(status)
    ensures Parse(RawResponse(status, Decoded(JArr(items)))) == Err(Untyped(AttributeError))
    ensures !IsInstance(Parse(RawResponse(status, Decoded(JArr(items)))).error, Client1CException)
  {
  }

  /** An error status whose body decodes to a dict without `odata.error` escapes as
      a `KeyError`, not as `APIResponseParseException`. */
  lemma MissingEnvelopeIsKeyError(status: int, fields: map<string, Json>)
    requires !IsSuccessStatus(status) && OdataErrorKey !in fields
    ensures Parse(RawResponse(status, Decoded(JObj(fields)))) == Err(Untyped(KeyError))
  {
  }

  /** The message is checked before the code: an `odata.error` dict without a
      `message` reports the missing message, whether or not it has a `code`. */
  lemma MessageCheckedBeforeCode(status: int, fields: map<string, Json>, e: map<string, Json>)
    requires !IsSuccessStatus(status)
    requires OdataErrorKey in fields && fields[OdataErrorKey] == JObj(e) && MessageKey !in e
    ensures Parse(RawResponse(status, Decoded(JObj(fields)))) == Err(ResponseParse(MissingMessage))
    ensures CodeKey !in e ==> ParseErrorEnvelope(Decoded(JObj(fields))) != Err(ResponseParse(MissingCode))
  {
  }

  /** A `message` that is a string passes the membership test exactly when it
      contains "value", and then fails the lookup with a `TypeError`; a string
      without it is reported as a missing message. */
  lemma StringMessageIsTypeError(status: int, fields: map<string, Json>, e: map<string, Json>, s: string)
    requires !IsSuccessStatus(status)
    requires OdataErrorKey in fields && fields[OdataErrorKey] == JObj(e)
    requires MessageKey in e && e[MessageKey] == JStr(s)
    ensures Contains(s, ValueKey) ==> Parse(RawResponse(status, Decoded(JObj(fields)))) == Err(Untyped(TypeError))
    ensures !Contains(s, ValueKey) ==> Parse(RawResponse(status, Decoded(JObj(fields)))) == Err(ResponseParse(MissingMessage))
  {
  }

  /** For instance, the message "no value" contains "value" at position 3. */
  lemma NoValueMessage(status: int, code: Json)
    requires !IsSuccessStatus(status)
    ensures var body := JObj(map[OdataErrorKey := JObj(map[CodeKey := code, MessageKey := JStr("no value")])]);
      Parse(RawResponse(status, Decoded(body))) == Err(Untyped(TypeError))
  {
    assert OccursAt("no value", ValueKey, 3);
    StringMessageIsTypeError(status, map[OdataErrorKey := JObj(map[CodeKey := code, MessageKey := JStr("no value")])],
                             map[CodeKey := code, MessageKey := JStr("no value")], "no value");
  }

  /** Every request asks for JSON, and what a call returns depends only on the
      response, not on the verb that obtained it. */
  lemma CallsAskForJson(server: Request -> RawResponse, path: string, params: Option<map<string, Json>>,
                        verb: Method, data: Json)
    requires verb != Get
    ensures GetRequest(path, params).params[FormatKey] == FormatJson
    ensures WriteRequest(verb, path, data).params[FormatKey] == FormatJson
    ensures server(WriteRequest(verb, path, data)) == server(GetRequest(path, params)) ==>
              Call(server, WriteRequest(verb, path, data)) == Call(server, GetRequest(path, params))
  {
  }
}
