/** The client's reading of an HTTP reply: handle_response's status-code
    gate and deserialize's envelope decoding, as a total function from the
    request method and the reply to one outcome. Every exception the code
    can raise on the way is an outcome of its own, including the ones that
    come from names the code uses but never defines. */
module Responses {
  import opened JsonValues
  import opened Utf8

  /** The HTTP methods the endpoints use. */
  datatype Verb = GET | POST | PUT | DELETE | HEAD
  {
    function Name(): (r: string)
      ensures |r| >= 3
    {
      match this
      case GET => "GET"
      case POST => "POST"
      case PUT => "PUT"
      case DELETE => "DELETE"
      case HEAD => "HEAD"
    }
  }

  /** ClientError and its subclass ObjectNotFound. */
  datatype ErrorKind = ClientError | ObjectNotFound

  /** An instance of the error class: the payload the server sent (or {}
      for HEAD) and the HTTP code. The message text is not modelled. */
  datatype ApiError = ApiError(kind: ErrorKind, errorInfo: Json, statusCode: int)

  /** The namedtuple SignuptoResponse(data, next, count). */
  datatype SignuptoResponse = SignuptoResponse(data: Json, next: Json, count: Json)

  /** The exceptions the client raises that are not an error class of the API. */
  datatype Crash =
    | UndefinedHttpError        // ServerHttpError.__init__ names HttpError, which does not exist
    | RedirectNotHandled        // the assertion that 3xx codes were followed
    | NotUtf8                   // content.decode('utf-8') fails
    | NotJson                   // json.loads fails
    | NotIterable               // `in`, or a list extend, on a value that is not a container
    | UndefinedSerializedData   // the missing-status assertion message names serialized_data
    | NotSubscriptable          // a str key used on a list, a string, a number or None
    | StatusNotText             // .lower() on a status that is not a string
    | UnexpectedStatus          // the assertion that the status is "error"
    | MissingErrorResponse      // the assertion that an error body has "response"
    | NoneNotCallable           // error_cls(...) with error_cls still None
    | MissingKey(key: string)   // d[key] with key absent
    | MissingAttribute          // an attribute read on None or on a returned error
    | TransportFailed           // requests.request raised (connection refused, ...)

  /** An exception that leaves an operation. */
  datatype Failure = Raised(error: ApiError) | Crashed(crash: Crash)

  /** What handle_response gives the caller. */
  datatype Outcome =
    | Success(response: SignuptoResponse)   // returned SignuptoResponse
    | NoContent                             // returned None (HEAD)
    | ReturnedError(error: ApiError)        // returned, not raised, error object (HEAD)
    | Failed(failure: Failure)              // raised

  /** The parts of a requests.Response the client reads. */
  datatype Reply = Reply(statusCode: int, content: seq<byte>)

  /** json.loads: the decoded value, or None when the text is not JSON. */
  type Loads = string -> Option<Json>

  /** The error class deserialize selects from the status code: none
      outside 4xx, ObjectNotFound for 404 and ClientError for the rest. */
  function ErrorClass(code: int): (r: Option<ErrorKind>)
    ensures r.Some? <==> 400 <= code < 500
    ensures r == Some(ObjectNotFound) <==> code == 404
  {
    if 400 <= code < 500 then
      if code == 404 then Some(ObjectNotFound) else Some(ClientError)
    else None
  }

  /** str.lower() on one character compared with the lower-case ASCII
      letter `t`: `t` itself, its upper case, or KELVIN SIGN for 'k'. */
  predicate LowersToChar(c: char, t: char)
    requires 'a' <= t <= 'z'
  {
    c == t || c as int == t as int - 32 || (t == 'k' && c == '\U{212A}')
  }

  /** s.lower() == t for a lower-case ASCII word `t`. No character lowers
      to more than one character out of 'a'..'z', so this is character by
      character. */
  predicate LowersTo(s: string, t: string)
    requires forall i :: 0 <= i < |t| ==> 'a' <= t[i] <= 'z'
  {
    |s| == |t| && forall i :: 0 <= i < |s| ==> LowersToChar(s[i], t[i])
  }

  /** Whether `t` occurs in `s`: the `in` test on strings. */
  predicate HasInfix(s: string, t: string)
  {
    t <= s || (s != [] && HasInfix(s[1..], t))
  }

  /** d[key] on a decoded value, for a key the code knows to be present
      when `d` is an object. */
  function Index(d: Json, key: string): (r: Result)
    ensures r.Value? <==> d.JObj? && Get(d.members, key).Some?
    ensures r.Value? ==> r.value == Get(d.members, key).value
    ensures d.JObj? && r.Fault? ==> r.fault == MissingKey(key)
  {
    if !d.JObj? then Fault(NotSubscriptable)
    else match Get(d.members, key)
      case Some(v) => Value(v)
      case None => Fault(MissingKey(key))
  }

  datatype Result = Value(value: Json) | Fault(fault: Crash)

  /** The decoded reply body: UTF-8 text first, then JSON. */
  function Body(content: seq<byte>, loads: Loads): (r: Result)
    ensures r.Fault? ==> r.fault == NotUtf8 || r.fault == NotJson
    ensures r == Fault(NotUtf8) <==> Decode(content).None?
    ensures r.Value? <==> Decode(content).Some? && loads(Decode(content).value).Some?
    ensures r.Value? ==> Some(r.value) == loads(Decode(content).value)
  {
    match Decode(content)
    case None => Fault(NotUtf8)
    case Some(text) =>
      match loads(text)
      case None => Fault(NotJson)
      case Some(v) => Value(v)
  }

  /** The fields of the success envelope's "response" object. */
  function Unpack(r: Json): (out: Outcome)
    ensures out.Success? <==> r.JObj? && Get(r.members, "data").Some?
                              && Get(r.members, "next").Some? && Get(r.members, "count").Some?
    ensures out.Success? ==> out.response == SignuptoResponse(Get(r.members, "data").value,
                                                              Get(r.members, "next").value,
                                                              Get(r.members, "count").value)
    ensures !out.Success? ==> out.Failed? && out.failure.Crashed?
  {
    match Index(r, "data")
    case Fault(c) => Failed(Crashed(c))
    case Value(data) =>
      match Index(r, "next")
      case Fault(c) => Failed(Crashed(c))
      case Value(next) =>
        match Index(r, "count")
        case Fault(c) => Failed(Crashed(c))
        case Value(count) => Success(SignuptoResponse(data, next, count))
  }

  /** The "status in d" test and everything after it, on a decoded body
      that is not an object. */
  function NotAnObject(d: Json): (out: Outcome)
    requires !d.JObj?
    ensures out.Failed? && out.failure.Crashed?
  {
    match d
    case JArr(items) =>
      if JStr("status") in items then Failed(Crashed(NotSubscriptable))
      else Failed(Crashed(UndefinedSerializedData))
    case JStr(s) =>
      if HasInfix(s, "status") then Failed(Crashed(NotSubscriptable))
      else Failed(Crashed(UndefinedSerializedData))
    case _ => Failed(Crashed(NotIterable))
  }

  /** deserialize once the body has been decoded to `d`. */
  function Envelope(code: int, d: Json): (out: Outcome)
    ensures out.Success? || out.Failed?
  {
    if !d.JObj? then NotAnObject(d)
    else
      match Get(d.members, "status")
      case None => Failed(Crashed(UndefinedSerializedData))
      case Some(status) =>
        if !status.JStr? then Failed(Crashed(StatusNotText))
        else if LowersTo(status.s, "ok") then
          match Index(d, "response")
          case Fault(c) => Failed(Crashed(c))
          case Value(r) => Unpack(r)
        else if !LowersTo(status.s, "error") then Failed(Crashed(UnexpectedStatus))
        else
          match Get(d.members, "response")
          case None => Failed(Crashed(MissingErrorResponse))
          case Some(info) =>
            match ErrorClass(code)
            case None => Failed(Crashed(NoneNotCallable))
            case Some(kind) => Failed(Raised(ApiError(kind, info, code)))
  }

  /** deserialize(response) */
  function Deserialize(verb: Verb, reply: Reply, loads: Loads): (out: Outcome)
    // HEAD never reads the body: it returns an error object for 4xx and None otherwise.
    ensures verb == HEAD ==> out.NoContent? || out.ReturnedError?
    ensures out.ReturnedError? <==> verb == HEAD && 400 <= reply.statusCode < 500
    ensures out.ReturnedError? ==> out.error.errorInfo == JObj([]) && out.error.statusCode == reply.statusCode
                                   && (out.error.kind == ObjectNotFound <==> reply.statusCode == 404)
    // Any other method reads the body and either succeeds or raises.
    ensures verb != HEAD ==> out.Success? || out.Failed?
    ensures verb != HEAD && Body(reply.content, loads).Fault? ==> out == Failed(Crashed(Body(reply.content, loads).fault))
    ensures out.Success? ==> Body(reply.content, loads).Value? && IsOkEnvelope(Body(reply.content, loads).value, out.response)
    ensures out.Failed? && out.failure.Raised? ==>
              400 <= reply.statusCode < 500 && out.failure.error.statusCode == reply.statusCode
  {
    var code := reply.statusCode;
    if verb == HEAD then
      match ErrorClass(code)
      case Some(kind) => ReturnedError(ApiError(kind, JObj([]), code))
      case None => NoContent
    else
      match Body(reply.content, loads)
      case Fault(c) => Failed(Crashed(c))
      case Value(d) => Envelope(code, d)
  }

  /** The envelope a successful non-HEAD reply carries: an object whose
      "status" lower-cases to "ok" and whose "response" object holds data,
      next and count. */
  predicate IsOkEnvelope(d: Json, resp: SignuptoResponse)
  {
    && d.JObj?
    && Get(d.members, "status").Some?
    && Get(d.members, "status").value.JStr?
    && LowersTo(Get(d.members, "status").value.s, "ok")
    && Get(d.members, "response").Some?
    && var r := Get(d.members, "response").value;
       && r.JObj?
       && Get(r.members, "data") == Some(resp.data)
       && Get(r.members, "next") == Some(resp.next)
       && Get(r.members, "count") == Some(resp.count)
  }

  /** The envelope of a reported error: an object whose "status"
      lower-cases to "error", carrying `info` under "response". */
  predicate IsErrorEnvelope(d: Json, info: Json)
  {
    && d.JObj?
    && Get(d.members, "status").Some?
    && Get(d.members, "status").value.JStr?
    && LowersTo(Get(d.members, "status").value.s, "error")
    && Get(d.members, "response") == Some(info)
  }

  /** handle_response(response): the whole decision table. */
  function HandleResponse(verb: Verb, reply: Reply, loads: Loads): (out: Outcome)
    // Every code from 500 up fails on the undefined HttpError, whatever the body.
    ensures out == Failed(Crashed(UndefinedHttpError)) <==> reply.statusCode >= 500
    // A redirection reaching the client trips the assertion.
    ensures out == Failed(Crashed(RedirectNotHandled)) <==> 300 <= reply.statusCode < 400
    // HEAD never reads the body: an error object is returned for 4xx, None otherwise.
    ensures verb == HEAD && (reply.statusCode < 300 || 400 <= reply.statusCode < 500) ==>
              out == if 400 <= reply.statusCode < 500
                     then ReturnedError(ApiError(ErrorClass(reply.statusCode).value, JObj([]), reply.statusCode))
                     else NoContent
    // Only HEAD returns None or an error object.
    ensures out.NoContent? || out.ReturnedError? ==> verb == HEAD
  {
    var code := reply.statusCode;
    if 500 <= code then Failed(Crashed(UndefinedHttpError))
    else if 300 <= code < 400 then Failed(Crashed(RedirectNotHandled))
    else Deserialize(verb, reply, loads)
  }

  /** A reply succeeds exactly when it is not for HEAD, its code is below
      500 and outside 3xx, and its body is an ok envelope; data, next and
      count are then taken from the envelope unchanged. A 4xx code does not
      stop an ok envelope from succeeding. */
  lemma SuccessIsOkEnvelope(verb: Verb, reply: Reply, loads: Loads, resp: SignuptoResponse)
    ensures HandleResponse(verb, reply, loads) == Success(resp) <==>
              && verb != HEAD && reply.statusCode < 500 && !(300 <= reply.statusCode < 400)
              && Body(reply.content, loads).Value?
              && IsOkEnvelope(Body(reply.content, loads).value, resp)
  {
  }

  /** An API error is raised exactly for a non-HEAD 4xx reply whose body is
      an error envelope; it carries the envelope's "response" and the code,
      and is ObjectNotFound exactly for 404. */
  lemma RaisedIsErrorEnvelope(verb: Verb, reply: Reply, loads: Loads, e: ApiError)
    ensures HandleResponse(verb, reply, loads) == Failed(Raised(e)) <==>
              && verb != HEAD && 400 <= reply.statusCode < 500
              && Body(reply.content, loads).Value?
              && IsErrorEnvelope(Body(reply.content, loads).value, e.errorInfo)
              && e.statusCode == reply.statusCode
              && (e.kind == ObjectNotFound <==> reply.statusCode == 404)
  {
  }

  /** HEAD replies are never read: the outcome does not depend on the
      content, nor on how it would decode. */
  lemma HeadIgnoresBody(code: int, c1: seq<byte>, c2: seq<byte>, l1: Loads, l2: Loads)
    ensures HandleResponse(HEAD, Reply(code, c1), l1) == HandleResponse(HEAD, Reply(code, c2), l2)
  {
  }

  /** A body that is the UTF-8 encoding of some text always decodes, so
      only the JSON parser decides the outcome. */
  lemma BodyOfEncoded(text: string, loads: Loads)
    ensures Body(Encode(text), loads)
         == if loads(text).Some? then Value(loads(text).value) else Fault(NotJson)
  {
    DecodeEncode(text);
  }

  /** A 200 HEAD returns None; a 404 HEAD returns (does not raise) an
      ObjectNotFound carrying {} and 404. */
  lemma HeadExamples(content: seq<byte>, loads: Loads)
    ensures HandleResponse(HEAD, Reply(200, content), loads) == NoContent
    ensures HandleResponse(HEAD, Reply(404, content), loads)
         == ReturnedError(ApiError(ObjectNotFound, JObj([]), 404))
  {
  }

  /** Status words are compared after str.lower(). */
  lemma StatusIsCaseFolded()
    ensures LowersTo("OK", "ok") && LowersTo("Ok", "ok") && LowersTo("o\U{212A}", "ok")
    ensures LowersTo("Error", "error") && LowersTo("ERROR", "error")
    ensures !LowersTo("okay", "ok") && !LowersTo("fail", "error")
  {
    assert "o\U{212A}"[1] == '\U{212A}';
  }

  /** {"status": "OK", "response": {"data": [1, 2, 3], "next": null, "count": 3}}
      decodes to (data=[1, 2, 3], next=None, count=3). */
  lemma OkEnvelopeExample(content: seq<byte>, loads: Loads)
    requires Body(content, loads) == Value(JObj([
      ("status", JStr("OK")),
      ("response", JObj([("data", JArr([JNum(1), JNum(2), JNum(3)])), ("next", JNull), ("count", JNum(3))]))]))
    ensures HandleResponse(GET, Reply(200, content), loads)
         == Success(SignuptoResponse(JArr([JNum(1), JNum(2), JNum(3)]), JNull, JNum(3)))
  {
    var r := JObj([("data", JArr([JNum(1), JNum(2), JNum(3)])), ("next", JNull), ("count", JNum(3))]);
    assert r.members[1..][1..] == [("count", JNum(3))];
    assert Get(r.members[1..][1..], "count") == Some(JNum(3));
    assert Get(r.members[1..], "count") == Get(r.members[1..][1..], "count");
    assert LowersTo("OK", "ok");
  }

  /** {"status": "Error", "response": {"code": 404, "message": "x"}} with
      HTTP 404 raises ObjectNotFound carrying that dict and 404. */
  lemma NotFoundExample(content: seq<byte>, loads: Loads)
    requires Body(content, loads) == Value(JObj([
      ("status", JStr("Error")),
      ("response", JObj([("code", JNum(404)), ("message", JStr("x"))]))]))
    ensures HandleResponse(POST, Reply(404, content), loads)
         == Failed(Raised(ApiError(ObjectNotFound, JObj([("code", JNum(404)), ("message", JStr("x"))]), 404)))
  {
    assert !LowersTo("Error", "ok");
    assert LowersTo("Error", "error");
  }

  /** A body without "status" fails on the undefined name in the
      assertion message, whatever the code below 300 or in 4xx. */
  lemma MissingStatusExample(code: int, content: seq<byte>, loads: Loads)
    requires code < 300 || 400 <= code < 500
    requires Body(content, loads) == Value(JObj([("response", JObj([]))]))
    ensures HandleResponse(PUT, Reply(code, content), loads) == Failed(Crashed(UndefinedSerializedData))
  {
  }

  /** An error envelope with a 2xx code finds no error class and calls None. */
  lemma ErrorStatusWithoutErrorCode(content: seq<byte>, loads: Loads)
    requires Body(content, loads) == Value(JObj([("status", JStr("error")), ("response", JObj([]))]))
    ensures HandleResponse(DELETE, Reply(200, content), loads) == Failed(Crashed(NoneNotCallable))
  {
    assert !LowersTo("error", "ok");
  }
}
