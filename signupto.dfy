/** The sign-up.to client itself: the authorization strategies that
    decorate a request, the Client that assembles and sends it, and the
    Endpoint that routes keyword arguments and follows pages. The HTTP
    transport, the clock and the random nonce come from an Environment. */
module Signupto {
  import opened JsonValues
  import opened Urls
  import opened Signature
  import opened Responses
  import opened Paging

  /** What json.dumps is given as the request body: the keyword arguments
      of post and put, None for the other methods. Blank is the default ''
      of make_request_raw, sent when a strategy leaves the body out. */
  datatype RequestBody = Blank | Dumped(payload: Option<Params>)

  /** The arguments make_request_raw passes to requests.request. */
  datatype Request = Request(verb: Verb, url: string, data: RequestBody,
                             params: Option<Params>, headers: map<string, string>)

  /** The nonce and the date string a hash-signed request draws. */
  datatype Stamp = Stamp(nonce: string, date: string)
  {
    /** make_nonce's alphabet and length, and the RFC 7231 date format. */
    predicate Valid() { IsNonce(nonce) && IsHttpDate(date) }
  }

  /** What the handler gives back: the server's reply, or the exception
      raised before there was one. */
  datatype Sent = Delivered(reply: Reply) | Lost(crash: Crash)

  /** What a strategy does with a request: send it, or fail before sending. */
  datatype Attempt = Dispatch(req: Request) | Refuse(crash: Crash)

  /** The result of an attempt against the replies still to come: what the
      handler returned, the requests it sent and the replies left. */
  datatype Delivery = Delivery(sent: Sent, log: seq<Request>, rest: seq<Reply>)

  /** A header dict that the client fills in place. */
  class HeaderMap {
    var entries: map<string, string>

    constructor ()
      ensures entries == map[]
    {
      entries := map[];
    }

    /** headers[key] = value */
    method Set(key: string, value: string)
      modifies this
      ensures entries == old(entries)[key := value]
    {
      entries := entries[key := value];
    }

    /** headers.update(other): the keys of `other` win. */
    method Update(other: map<string, string>)
      modifies this
      ensures entries == old(entries) + other
    {
      entries := entries + other;
    }
  }

  /** The world outside the client: the server's replies in the order it
      gives them, the requests made so far, the SHA-1 hex digest, json.loads,
      and the nonce and date the n-th request would draw. */
  class Environment {
    var replies: seq<Reply>
    var sent: seq<Request>
    const sha1Hex: Digest
    const loads: Loads
    const stamps: nat -> Stamp

    /** The random source and the clock behave as the library promises. */
    ghost predicate Valid()
    {
      forall n: nat :: stamps(n).Valid()
    }

    constructor (replies: seq<Reply>, sha1Hex: Digest, loads: Loads, stamps: nat -> Stamp)
      requires forall n: nat :: stamps(n).Valid()
      ensures Valid()
      ensures this.replies == replies && sent == []
      ensures this.sha1Hex == sha1Hex && this.loads == loads && this.stamps == stamps
    {
      this.replies := replies;
      this.sent := [];
      this.sha1Hex := sha1Hex;
      this.loads := loads;
      this.stamps := stamps;
    }

    /** The nonce and date of the next request. */
    function NextStamp(): Stamp
      reads this
    {
      stamps(|sent|)
    }

    /** make_request_raw: requests.request(method, url, ...). The request
        is made whether or not a reply comes back. */
    method Send(req: Request) returns (s: Sent)
      modifies this
      ensures s == Transmit(Dispatch(req), old(replies)).sent
      ensures sent == old(sent) + [req]
      ensures replies == Transmit(Dispatch(req), old(replies)).rest
    {
      sent := sent + [req];
      if replies == [] {
        s := Lost(TransportFailed);
      } else {
        s := Delivered(replies[0]);
        replies := replies[1..];
      }
    }
  }

  /** An attempt against `replies`: a refused request sends nothing; a
      dispatched one is sent and takes the next reply, or fails in the
      transport when the server has no reply left. */
  function Transmit(a: Attempt, replies: seq<Reply>): (d: Delivery)
    ensures a.Refuse? ==> d == Delivery(Lost(a.crash), [], replies)
    ensures a.Dispatch? ==> d.log == [a.req]
    ensures a.Dispatch? && replies != [] ==> d.sent == Delivered(replies[0]) && d.rest == replies[1..]
    ensures a.Dispatch? && replies == [] ==> d.sent == Lost(TransportFailed) && d.rest == []
  {
    match a
    case Refuse(c) => Delivery(Lost(c), [], replies)
    case Dispatch(req) =>
      if replies == [] then Delivery(Lost(TransportFailed), [req], [])
      else Delivery(Delivered(replies[0]), [req], replies[1..])
  }

  /** make_request's handle_response on what the handler returned; an
      exception from the handler goes straight through. */
  function Handle(verb: Verb, s: Sent, loads: Loads): (out: Outcome)
    ensures s.Lost? ==> out == Failed(Crashed(s.crash))
    ensures s.Delivered? ==> out == HandleResponse(verb, s.reply, loads)
  {
    match s
    case Lost(c) => Failed(Crashed(c))
    case Delivered(reply) => HandleResponse(verb, reply, loads)
  }

  /** The five headers HashAuthorization writes. */
  const HashHeaderNames: set<string> := {"X-SuT-Nonce", "X-SuT-CID", "X-SuT-UID", "Date", "Authorization"}

  /** The five names are distinct, so each write keeps the others. */
  lemma HashHeaderNamesDistinct()
    ensures "X-SuT-Nonce" != "X-SuT-CID" && "X-SuT-Nonce" != "X-SuT-UID" && "X-SuT-Nonce" != "Date"
    ensures "X-SuT-Nonce" != "Authorization" && "X-SuT-CID" != "X-SuT-UID" && "X-SuT-CID" != "Date"
    ensures "X-SuT-CID" != "Authorization" && "X-SuT-UID" != "Date" && "X-SuT-UID" != "Authorization"
    ensures "Date" != "Authorization"
  {
    assert |"X-SuT-Nonce"| == 11 && |"X-SuT-CID"| == 9 && |"Date"| == 4 && |"Authorization"| == 13;
    assert "X-SuT-CID"[6] == 'C' && "X-SuT-UID"[6] == 'U';
  }

  /** The caller's headers with the five signing headers written over
      them, in make_authorized_request's order. */
  function WriteHashHeaders(h: map<string, string>, nonce: string, companyId: string, userId: string,
                            date: string, authorization: string): (r: map<string, string>)
    ensures r.Keys == h.Keys + HashHeaderNames
    ensures forall k :: k in h && k !in HashHeaderNames ==> r[k] == h[k]
    ensures r["X-SuT-Nonce"] == nonce && r["X-SuT-CID"] == companyId && r["X-SuT-UID"] == userId
    ensures r["Date"] == date && r["Authorization"] == authorization
  {
    HashHeaderNamesDistinct();
    h["X-SuT-Nonce" := nonce]["X-SuT-CID" := companyId]["X-SuT-UID" := userId]
     ["Date" := date]["Authorization" := authorization]
  }

  /** HashAuthorization(company_id, user_id, api_key): signs every request
      with a fresh nonce, the current date and the API key. */
  datatype HashAuthorization = HashAuthorization(companyId: Json, userId: Json, apiKey: Json)
  {
    /** The header dict after make_authorized_request: the caller's headers
        with the five signing headers written over them, the signature taken
        over exactly the nonce, date and ids that are written. */
    function Headers(sha1Hex: Digest, verb: Verb, url: string, h: map<string, string>, stamp: Stamp)
      : (r: map<string, string>)
      ensures r.Keys == h.Keys + HashHeaderNames
      ensures forall k :: k in h && k !in HashHeaderNames ==> r[k] == h[k]
      ensures r["X-SuT-Nonce"] == stamp.nonce && r["Date"] == stamp.date
      ensures r["X-SuT-CID"] == Str(companyId) && r["X-SuT-UID"] == Str(userId)
      ensures stamp.Valid() ==> IsNonce(r["X-SuT-Nonce"]) && IsHttpDate(r["Date"])
      ensures r["Authorization"]
           == "SuTHash signature=\"" + Sign(sha1Hex, verb.Name(), url, r["Date"], r["X-SuT-CID"],
                                             r["X-SuT-UID"], r["X-SuT-Nonce"], Str(apiKey)) + "\""
    {
      var signature := Sign(sha1Hex, verb.Name(), url, stamp.date, Str(companyId), Str(userId),
                            stamp.nonce, Str(apiKey));
      WriteHashHeaders(h, stamp.nonce, Str(companyId), Str(userId), stamp.date,
                       "SuTHash signature=\"" + signature + "\"")
    }

    /** make_authorized_request: writes the headers in the source's order
        and hands the request to make_request_raw. */
    method MakeAuthorizedRequest(env: Environment, verb: Verb, url: string, data: RequestBody,
                                 params: Option<Params>, headers: HeaderMap) returns (s: Sent)
      modifies env, headers
      ensures headers.entries == Headers(env.sha1Hex, verb, url, old(headers.entries), old(env.NextStamp()))
      ensures env.Valid() ==> IsNonce(headers.entries["X-SuT-Nonce"]) && IsHttpDate(headers.entries["Date"])
      ensures var d := Transmit(Dispatch(Request(verb, url, data, params, headers.entries)), old(env.replies));
        s == d.sent && env.sent == old(env.sent) + d.log && env.replies == d.rest
    {
      var stamp := env.NextStamp();
      var nonce := stamp.nonce;
      headers.Set("X-SuT-Nonce", nonce);
      headers.Set("X-SuT-CID", Str(companyId));
      headers.Set("X-SuT-UID", Str(userId));
      var date := stamp.date;
      headers.Set("Date", date);
      var signature := Sign(env.sha1Hex, verb.Name(), url, date, Str(companyId), Str(userId), nonce, Str(apiKey));
      headers.Set("Authorization", "SuTHash signature=\"" + signature + "\"");
      s := env.Send(Request(verb, url, data, params, headers.entries));
    }
  }

  /** The header dict after TokenAuthorization writes its one header. */
  function TokenHeaders(h: map<string, string>, token: Json): (r: map<string, string>)
    ensures r.Keys == h.Keys + {"Authorization"}
    ensures forall k :: k in h && k != "Authorization" ==> r[k] == h[k]
    ensures r["Authorization"] == "SuTToken " + Str(token)
  {
    h["Authorization" := "SuTToken " + Str(token)]
  }

  /** TokenAuthorization(username, password): fetches a token once, from
      the "token" resource, and sends it with every request. The token and
      expiry are None until initialize has read them. */
  class TokenAuthorization {
    const username: Json
    const password: Json
    var initialized: bool
    var token: Option<Json>
    var expiry: Option<Json>

    constructor (username: Json, password: Json)
      ensures this.username == username && this.password == password
      ensures !initialized && token == None && expiry == None
    {
      this.username := username;
      this.password := password;
      initialized := false;
      token := None;
      expiry := None;
    }

    /** initialize(version): posts the credentials to the "token" resource
        through a client of the same API version that signs nothing, then
        reads the token and the expiry out of the reply. */
    method Initialize(version: string, env: Environment) returns (failure: Option<Failure>)
      modifies this, env
      ensures var d := Transmit(Dispatch(TokenRequest(version, username, password)), old(env.replies));
        && env.sent == old(env.sent) + d.log && env.replies == d.rest
        && ReadFrom(Handle(POST, d.sent, env.loads), failure, old(token), old(expiry), old(initialized))
    {
      var temp := new Client(version, NoAuthorization);
      var endpoint := new Endpoint(temp, "token");
      assert ExtraHeaders + map[] == ExtraHeaders;
      var r := endpoint.Post(env, Credentials(username, password));
      failure := ReadToken(r);
    }

    /** What the fields hold once initialize has read the reply `r` to its
        POST, given what they held before: the first read of r.data that
        fails raises, what was read before it stays, and only a reply
        carrying both keys marks the strategy initialized. */
    ghost predicate ReadFrom(r: Outcome, failure: Option<Failure>, token0: Option<Json>, expiry0: Option<Json>,
                             initialized0: bool)
      reads this
    {
      var t := DataIndex(r, "token");
      var e := DataIndex(r, "expiry");
      && (t.Threw? ==> failure == Some(t.failure) && token == token0)
      && (t.Got? ==> token == Some(t.value))
      && (t.Got? && e.Threw? ==> failure == Some(e.failure))
      && (t.Got? && e.Got? ==> failure == None && expiry == Some(e.value) && initialized)
      && (failure.Some? ==> expiry == expiry0 && initialized == initialized0)
    }

    /** self.token = r.data['token']; self.expiry = r.data['expiry'];
        self.initialized = True */
    method ReadToken(r: Outcome) returns (failure: Option<Failure>)
      modifies this
      ensures ReadFrom(r, failure, old(token), old(expiry), old(initialized))
      ensures failure.None? <==> && r.Success? && r.response.data.JObj?
                                 && Get(r.response.data.members, "token").Some?
                                 && Get(r.response.data.members, "expiry").Some?
    {
      var t := DataIndex(r, "token");
      if t.Threw? {
        return Some(t.failure);
      }
      token := Some(t.value);
      var e := DataIndex(r, "expiry");
      if e.Threw? {
        return Some(e.failure);
      }
      expiry := Some(e.value);
      initialized := true;
      failure := None;
    }

    /** The request a strategy holding `token` makes of the caller's: the
        Authorization header written, the body left out. */
    function Decorate(verb: Verb, url: string, params: Option<Params>, h: map<string, string>)
      : (a: Attempt)
      reads this
      ensures a.Refuse? <==> token.None?
      ensures a.Refuse? ==> a.crash == MissingAttribute
      ensures a.Dispatch? ==> a.req.verb == verb && a.req.url == url && a.req.params == params
      ensures a.Dispatch? ==> a.req.data == Blank
      ensures a.Dispatch? ==> a.req.headers.Keys == h.Keys + {"Authorization"}
      ensures a.Dispatch? ==> forall k :: k in h && k != "Authorization" ==> a.req.headers[k] == h[k]
      ensures a.Dispatch? ==> a.req.headers["Authorization"] == "SuTToken " + Str(token.value)
    {
      if token.None? then Refuse(MissingAttribute)
      else Dispatch(Request(verb, url, Blank, params, TokenHeaders(h, token.value)))
    }

    /** make_authorized_request: forwards params and headers only, so the
        handler's default body '' is sent whatever the caller's data. */
    method MakeAuthorizedRequest(env: Environment, verb: Verb, url: string, data: RequestBody,
                                 params: Option<Params>, headers: HeaderMap) returns (s: Sent)
      modifies env, headers
      ensures var a := Decorate(verb, url, params, old(headers.entries));
        var d := Transmit(a, old(env.replies));
        && headers.entries == (if a.Dispatch? then a.req.headers else old(headers.entries))
        && s == d.sent && env.sent == old(env.sent) + d.log && env.replies == d.rest
    {
      if token.None? {
        // self.token was never assigned: AttributeError
        s := Lost(MissingAttribute);
        return;
      }
      headers.Set("Authorization", "SuTToken " + Str(token.value));
      s := env.Send(Request(verb, url, Blank, params, headers.entries));
    }
  }

  /** The auth object of a Client. */
  datatype Authorization =
    | NoAuthorization
    | Hash(hash: HashAuthorization)
    | Token(strategy: TokenAuthorization)
  {
    /** The mutable state the strategy reads. */
    function Footprint(): set<object>
    {
      if Token? then {strategy} else {}
    }

    /** The header names the strategy writes. */
    function Writes(): set<string>
    {
      match this
      case NoAuthorization => {}
      case Hash(_) => HashHeaderNames
      case Token(_) => {"Authorization"}
    }

    /** Whether the strategy fails before sending anything: a token
        strategy that never read its token. */
    predicate Refuses()
      reads Footprint()
    {
      Token? && strategy.token.None?
    }

    /** The request the strategy makes of the caller's. */
    function Decorate(sha1Hex: Digest, stamp: Stamp, verb: Verb, url: string, data: RequestBody,
                      params: Option<Params>, h: map<string, string>): (a: Attempt)
      reads Footprint()
      ensures a.Refuse? <==> Refuses()
      ensures a.Refuse? ==> a.crash == MissingAttribute
      ensures a.Dispatch? ==> a.req.verb == verb && a.req.url == url && a.req.params == params
      ensures a.Dispatch? ==> a.req.data == if Token? then Blank else data
      ensures a.Dispatch? ==> a.req.headers.Keys == h.Keys + Writes()
      ensures a.Dispatch? ==> forall k :: k in h && k !in Writes() ==> a.req.headers[k] == h[k]
    {
      match this
      case NoAuthorization => Dispatch(Request(verb, url, data, params, h))
      case Hash(ha) => Dispatch(Request(verb, url, data, params, ha.Headers(sha1Hex, verb, url, h, stamp)))
      case Token(t) => t.Decorate(verb, url, params, h)
    }

    /** make_authorized_request(handler, method, url, data, params, headers) */
    method MakeAuthorizedRequest(env: Environment, verb: Verb, url: string, data: RequestBody,
                                 params: Option<Params>, headers: HeaderMap) returns (s: Sent)
      modifies env, headers
      ensures var a := old(Decorate(env.sha1Hex, env.NextStamp(), verb, url, data, params, headers.entries));
        var d := Transmit(a, old(env.replies));
        && headers.entries == (if a.Dispatch? then a.req.headers else old(headers.entries))
        && s == d.sent && env.sent == old(env.sent) + d.log && env.replies == d.rest
    {
      match this
      case NoAuthorization =>
        s := env.Send(Request(verb, url, data, params, headers.entries));
      case Hash(ha) =>
        s := ha.MakeAuthorizedRequest(env, verb, url, data, params, headers);
      case Token(t) =>
        s := t.MakeAuthorizedRequest(env, verb, url, data, params, headers);
    }
  }

  /** Client.extra_headers */
  const ExtraHeaders: map<string, string> :=
    map["Accept" := "application/json", "Content-Type" := "application/json"]

  /** Client.baseurl for an API version. */
  function BaseUrl(version: string): (r: string)
    ensures r == "https://" + ApiHost + "/v" + version + "/"
  {
    "https://api.sign-up.to/v" + version + "/"
  }

  /** make_request's h2: a new dict with the client's extra headers,
      overlaid by the caller's. */
  method DefaultHeaders(headers: map<string, string>) returns (h2: HeaderMap)
    ensures fresh(h2) && h2.entries == ExtraHeaders + headers
  {
    h2 := new HeaderMap();
    h2.Update(ExtraHeaders);
    h2.Update(headers);
  }

  /** Client(version, auth) once the auth object is ready. */
  class Client {
    const baseurl: string
    const auth: Authorization

    constructor (version: string, auth: Authorization)
      ensures baseurl == BaseUrl(version) && this.auth == auth
    {
      baseurl := BaseUrl(version);
      this.auth := auth;
    }

    /** The request make_request asks the strategy for, and what the
        strategy makes of it. */
    function Prepare(env: Environment, verb: Verb, resource: string, data: Option<Params>,
                     params: Option<Params>, headers: map<string, string>): (a: Attempt)
      reads env, auth.Footprint()
    {
      auth.Decorate(env.sha1Hex, env.NextStamp(), verb, baseurl + resource, Dumped(data), params,
                    ExtraHeaders + headers)
    }

    /** What one make_request does against the environment as it stands. */
    function Call(env: Environment, verb: Verb, resource: string, data: Option<Params>,
                  params: Option<Params>, headers: map<string, string>): (d: Delivery)
      reads env, auth.Footprint()
    {
      Transmit(Prepare(env, verb, resource, data, params, headers), env.replies)
    }

    /** make_request(method, resource_name, data, params, headers): the
        defaults overlaid by the caller's headers, the body dumped, the
        request decorated and sent, the reply handled. */
    method MakeRequest(env: Environment, verb: Verb, resource: string, data: Option<Params>,
                       params: Option<Params>, headers: map<string, string>) returns (out: Outcome)
      modifies env
      ensures var d := old(Call(env, verb, resource, data, params, headers));
        && env.sent == old(env.sent) + d.log && env.replies == d.rest
        && out == Handle(verb, d.sent, env.loads)
    {
      var url := baseurl + resource;
      var h2 := DefaultHeaders(headers);
      var response := auth.MakeAuthorizedRequest(env, verb, url, Dumped(data), params, h2);
      out := Handle(verb, response, env.loads);
    }
  }

  /** Whether Client(version, auth) initializes `auth` first: a token
      strategy that has not been initialized. */
  predicate NeedsInitialize(auth: Option<Authorization>)
    reads if auth.Some? then auth.value.Footprint() else {}
  {
    auth.Some? && auth.value.Token? && !auth.value.strategy.initialized
  }

  /** Client(version, auth): a token strategy not yet initialized fetches
      its token before the client exists, and a failure there propagates
      out of the constructor; no auth stands for NoAuthorization. */
  method NewClient(version: string, auth: Option<Authorization>, env: Environment)
    returns (client: Client?, failure: Option<Failure>)
    modifies env, if auth.Some? then auth.value.Footprint() else {}
    ensures client == null <==> failure.Some?
    ensures client != null ==>
      client.baseurl == BaseUrl(version) && client.auth == (if auth.Some? then auth.value else NoAuthorization)
    ensures !old(NeedsInitialize(auth)) ==> failure == None && env.sent == old(env.sent) && env.replies == old(env.replies)
    ensures !old(NeedsInitialize(auth)) && auth.Some? ==> unchanged(auth.value.Footprint())
    ensures old(NeedsInitialize(auth)) ==>
      var t := auth.value.strategy;
      var d := Transmit(Dispatch(TokenRequest(version, t.username, t.password)), old(env.replies));
      && env.sent == old(env.sent) + d.log && env.replies == d.rest
      && (failure.None? <==> t.initialized)
      && t.ReadFrom(Handle(POST, d.sent, env.loads), failure, old(t.token), old(t.expiry), old(t.initialized))
  {
    if NeedsInitialize(auth) {
      failure := auth.value.strategy.Initialize(version, env);
      if failure.Some? {
        return null, failure;
      }
    }
    client := new Client(version, if auth.Some? then auth.value else NoAuthorization);
    failure := None;
  }

  /** The arguments an endpoint method hands make_request. */
  datatype Routed = Routed(data: Option<Params>, params: Option<Params>)

  /** post and put send their keyword arguments as the body; get, delete
      and head send them as the query. */
  function Route(verb: Verb, kwargs: Params): (r: Routed)
    ensures r.data.Some? <==> verb == POST || verb == PUT
    ensures r.data.Some? ==> r == Routed(Some(kwargs), None)
    ensures r.data.None? ==> r == Routed(None, Some(kwargs))
  {
    match verb
    case POST => Routed(Some(kwargs), None)
    case PUT => Routed(Some(kwargs), None)
    case _ => Routed(None, Some(kwargs))
  }

  /** The keyword arguments TokenAuthorization.initialize posts. */
  function Credentials(username: Json, password: Json): Params
  {
    map["username" := username, "password" := password]
  }

  /** The token POST initialize makes: unauthenticated, to the "token"
      resource of the same API version, with the credentials as the body. */
  function TokenRequest(version: string, username: Json, password: Json): (req: Request)
    ensures req.url == "https://" + ApiHost + "/v" + version + "/token"
    ensures req.verb == POST && req.params == None && req.headers == ExtraHeaders
    ensures req.data == Dumped(Some(Credentials(username, password)))
  {
    Request(POST, BaseUrl(version) + "token", Dumped(Some(Credentials(username, password))), None, ExtraHeaders)
  }

  /** What reading a key of response.data gives: the value, or the
      exception raised on the way. */
  datatype Fetched = Got(value: Json) | Threw(failure: Failure)

  /** r.data[key] where r is what post returned. */
  function DataIndex(o: Outcome, key: string): (f: Fetched)
    ensures o.Failed? ==> f == Threw(o.failure)
    ensures f.Got? <==> o.Success? && o.response.data.JObj? && Get(o.response.data.members, key).Some?
    ensures f.Got? ==> f.value == Get(o.response.data.members, key).value
  {
    match o
    case Success(r) =>
      (match Index(r.data, key)
       case Value(v) => Got(v)
       case Fault(c) => Threw(Crashed(c)))
    case Failed(f) => Threw(f)
    // r.data on None or on a returned error object
    case _ => Threw(Crashed(MissingAttribute))
  }

  /** One resource of the API: client.<resource_name>. */
  class Endpoint {
    const client: Client
    const resourceName: string

    constructor (client: Client, resourceName: string)
      ensures this.client == client && this.resourceName == resourceName
    {
      this.client := client;
      this.resourceName := resourceName;
    }

    /** What a call of the endpoint's method for `verb` does. */
    function Call(env: Environment, verb: Verb, kwargs: Params): (d: Delivery)
      reads env, client.auth.Footprint()
    {
      client.Call(env, verb, resourceName, Route(verb, kwargs).data, Route(verb, kwargs).params, map[])
    }

    /** get(**kwargs) */
    method Get(env: Environment, kwargs: Params) returns (out: Outcome)
      modifies env
      ensures var d := old(Call(env, GET, kwargs));
        env.sent == old(env.sent) + d.log && env.replies == d.rest && out == Handle(GET, d.sent, env.loads)
    {
      out := client.MakeRequest(env, GET, resourceName, None, Some(kwargs), map[]);
    }

    /** post(**kwargs) */
    method Post(env: Environment, kwargs: Params) returns (out: Outcome)
      modifies env
      ensures var d := old(Call(env, POST, kwargs));
        env.sent == old(env.sent) + d.log && env.replies == d.rest && out == Handle(POST, d.sent, env.loads)
    {
      out := client.MakeRequest(env, POST, resourceName, Some(kwargs), None, map[]);
    }

    /** put(**kwargs) */
    method Put(env: Environment, kwargs: Params) returns (out: Outcome)
      modifies env
      ensures var d := old(Call(env, PUT, kwargs));
        env.sent == old(env.sent) + d.log && env.replies == d.rest && out == Handle(PUT, d.sent, env.loads)
    {
      out := client.MakeRequest(env, PUT, resourceName, Some(kwargs), None, map[]);
    }

    /** delete(**kwargs) */
    method Delete(env: Environment, kwargs: Params) returns (out: Outcome)
      modifies env
      ensures var d := old(Call(env, DELETE, kwargs));
        env.sent == old(env.sent) + d.log && env.replies == d.rest && out == Handle(DELETE, d.sent, env.loads)
    {
      out := client.MakeRequest(env, DELETE, resourceName, None, Some(kwargs), map[]);
    }

    /** head(**kwargs) */
    method Head(env: Environment, kwargs: Params) returns (out: Outcome)
      modifies env
      ensures var d := old(Call(env, HEAD, kwargs));
        env.sent == old(env.sent) + d.log && env.replies == d.rest && out == Handle(HEAD, d.sent, env.loads)
    {
      out := client.MakeRequest(env, HEAD, resourceName, None, Some(kwargs), map[]);
    }
  
    /** The call self.get(**kwargs) that get_all makes for its k-th page,
        stated over the replies the server had when get_all began: the
        page is the k-th outcome, one GET of this resource with `kw` is
        sent, and one reply is consumed. */
    method NextPage(env: Environment, kw: Params, ghost replies0: seq<Reply>, ghost k: nat, ghost refuses: bool)
      returns (response: Outcome, ghost added: seq<Request>)
      requires Remains(replies0, k, env.replies)
      requires refuses == client.auth.Refuses()
      modifies env
      ensures StepOf(response) == if refuses then Stop(Crashed(MissingAttribute))
                                 else if k < |replies0| then StepAt(Outcomes(replies0, env.loads), k)
                                 else Stop(Crashed(TransportFailed))
      ensures env.sent == old(env.sent) + added
      ensures refuses ==> added == [] && env.replies == old(env.replies)
      ensures !refuses ==> |added| == 1 && IsPageRequest(added[0], client.baseurl + resourceName, kw)
      ensures !refuses && k < |replies0| ==> Remains(replies0, k + 1, env.replies)
      ensures !refuses && k >= |replies0| ==> env.replies == []
    {
      ghost var d := Call(env, GET, kw);
      PageFetched(client.Prepare(env, GET, resourceName, Route(GET, kw).data, Route(GET, kw).params, map[]),
                  d, refuses, kw, client.baseurl + resourceName, replies0, env.loads, k, env.replies);
      response := Get(env, kw);
      added := d.log;
    }

    /** get_all(**kwargs): follows next from page to page, extending the
        list with each page's data, until a page has no next. */
    method GetAll(env: Environment, kwargs: Params) returns (result: Paged)
      modifies env
      ensures client.auth.Refuses() ==>
        result == Aborted(Crashed(MissingAttribute)) && env.sent == old(env.sent) && env.replies == old(env.replies)
      ensures !client.auth.Refuses() ==>
        RanToEnd(Outcomes(old(env.replies), env.loads), old(env.replies), old(env.sent),
                client.baseurl + resourceName, kwargs, result, env.sent, env.replies)
    {
      ghost var replies0 := env.replies;
      ghost var sent0 := env.sent;
      ghost var outcomes := Outcomes(replies0, env.loads);
      ghost var refuses := client.auth.Refuses();
      ghost var url := client.baseurl + resourceName;
      ghost var requested: seq<Request> := [];
      ghost var k: nat := 0;
      var retval: seq<Json> := [];
      var start := JNull;
      var kw := kwargs;
      while true
        invariant Walked(outcomes, url, kwargs, k, requested, retval, start, kw)
        invariant Remains(replies0, k, env.replies) && env.sent == sent0 + requested
        invariant refuses ==> k == 0
        decreases |replies0| - k
      {
        ghost var kw0 := kw;
        if start != JNull {
          kw := kw["start" := start];
        }
        var response;
        ghost var added;
        response, added := NextPage(env, kw, replies0, k, refuses);
        // retval.extend(response.data), then return or go on with next
        var page := StepOf(response);
        if !page.More? {
          result := if page.Stop? then Aborted(page.failure) else Collected(retval + page.items);
          Finish(outcomes, replies0, sent0, url, kwargs, k, requested, added, retval, start, kw0, kw,
                 page, result, refuses, env.sent, env.replies);
          return;
        }
        Continue(outcomes, url, kwargs, k, requested, added, retval, start, kw0, kw, page.items, page.next);
        AppendAssoc(sent0, requested, added);
        requested := requested + added;
        retval := retval + page.items;
        start := page.next;
        k := k + 1;
      }
    }
  }

  /** What get_all leaves behind when it runs to the end: the result is
      Paginate's over the outcomes of the replies, the log gains one
      page request per call Paginate makes, and exactly the replies
      Paginate did not read are left. */
  ghost predicate RanToEnd(outcomes: seq<Outcome>, replies0: seq<Reply>, sent0: seq<Request>, url: string,
                          kwargs: Params, result: Paged, sent: seq<Request>, rest: seq<Reply>)
  {
    var p := Paginate(outcomes);
    && result == p.result
    && |sent| == |sent0| + p.calls && sent[..|sent0|] == sent0
    && |p.rest| <= |replies0| && rest == replies0[|replies0| - |p.rest|..]
    && PagesRequested(sent[|sent0|..], url, kwargs, outcomes)
  }

  /** get_all's state after k pages, each of which had a next: the
      requests so far, the data gathered, the cursor and the keyword
      arguments as they stand. */
  ghost predicate Walked(outcomes: seq<Outcome>, url: string, kwargs: Params, k: nat,
                         requested: seq<Request>, retval: seq<Json>, start: Json, kw: Params)
  {
    && k <= |outcomes|
    && |requested| == k
    && (forall j :: 0 <= j < k ==> StepAt(outcomes, j).More?)
    && retval == Gathered(outcomes, k)
    && start == (if k == 0 then JNull else Cursor(StepAt(outcomes, k - 1)))
    && kw == CallParams(kwargs, outcomes, if k == 0 then 0 else k - 1)
    && PagesRequested(requested, url, kwargs, outcomes)
  }

  /** A page with a next moves get_all on to the following page. */
  lemma Continue(outcomes: seq<Outcome>, url: string, kwargs: Params, k: nat, requested: seq<Request>,
                 added: seq<Request>, retval: seq<Json>, start: Json, kw0: Params, kw: Params,
                 items: seq<Json>, next: Json)
    requires Walked(outcomes, url, kwargs, k, requested, retval, start, kw0)
    requires kw == if start != JNull then kw0["start" := start] else kw0
    requires k < |outcomes| && StepAt(outcomes, k) == More(items, next)
    requires |added| == 1 && IsPageRequest(added[0], url, kw)
    ensures Walked(outcomes, url, kwargs, k + 1, requested + added, retval + items, next, kw)
  {
    NextCallParams(kwargs, outcomes, k, start);
    ExtendRequested(requested, added, url, kwargs, outcomes);
    GatheredNext(outcomes, k);
  }

  /** A page without a next, or a failure, ends get_all with the result,
      the requests and the replies consumed that Paginate describes. */
  lemma Finish(outcomes: seq<Outcome>, replies0: seq<Reply>, sent0: seq<Request>, url: string,
               kwargs: Params, k: nat, requested: seq<Request>, added: seq<Request>,
               retval: seq<Json>, start: Json, kw0: Params, kw: Params, step: Step,
               result: Paged, refuses: bool, sent: seq<Request>, rest: seq<Reply>)
    requires Walked(outcomes, url, kwargs, k, requested, retval, start, kw0)
    requires |outcomes| == |replies0|
    requires kw == if start != JNull then kw0["start" := start] else kw0
    requires step == if refuses then Stop(Crashed(MissingAttribute))
                     else if k < |outcomes| then StepAt(outcomes, k)
                     else Stop(Crashed(TransportFailed))
    requires !step.More?
    requires result == if step.Stop? then Aborted(step.failure) else Collected(retval + step.items)
    requires refuses ==> k == 0 && added == []
    requires !refuses ==> |added| == 1 && IsPageRequest(added[0], url, kw)
    requires sent == sent0 + requested + added
    requires refuses ==> Remains(replies0, k, rest)
    requires !refuses && k < |replies0| ==> Remains(replies0, k + 1, rest)
    requires !refuses && k >= |replies0| ==> rest == []
    ensures refuses ==> result == Aborted(Crashed(MissingAttribute)) && sent == sent0 && rest == replies0
    ensures !refuses ==> RanToEnd(outcomes, replies0, sent0, url, kwargs, result, sent, rest)
  {
    if refuses {
      RemainsDrop(replies0, k, rest);
      assert requested == [];
      assert sent == sent0;
    } else {
      if k < |replies0| {
        RemainsDrop(replies0, k + 1, rest);
      }
      PaginateStep(outcomes, k);
      NextCallParams(kwargs, outcomes, k, start);
      ExtendRequested(requested, added, url, kwargs, outcomes);
      if step.Last? {
        GatheredNext(outcomes, k);
      }
      AppendAssoc(sent0, requested, added);
      SplitSent(sent0, requested + added);
    }
  }

  /** `rest` is what is left of `replies` once the first k have been read. */
  ghost predicate Remains(replies: seq<Reply>, k: nat, rest: seq<Reply>)
    decreases k
  {
    if k == 0 then rest == replies else replies != [] && Remains(replies[1..], k - 1, rest)
  }

  /** What is left after k replies is the suffix from k on. */
  lemma {:induction false} RemainsDrop(replies: seq<Reply>, k: nat, rest: seq<Reply>)
    ensures Remains(replies, k, rest) <==> k <= |replies| && rest == replies[k..]
    decreases k
  {
    if k > 0 && replies != [] {
      RemainsDrop(replies[1..], k - 1, rest);
      assert k <= |replies| ==> replies[1..][k - 1..] == replies[k..];
    }
  }

  /** A request get_all makes: a GET of `url` with `params`. */
  predicate IsPageRequest(req: Request, url: string, params: Params)
  {
    req.verb == GET && req.url == url && req.params == Some(params)
  }

  /** The requests get_all made, in order: the j-th carries the
      parameters of the j-th call. */
  predicate PagesRequested(reqs: seq<Request>, url: string, kwargs: Params, outcomes: seq<Outcome>)
  {
    forall j :: 0 <= j < |reqs| ==> j <= |outcomes| && IsPageRequest(reqs[j], url, CallParams(kwargs, outcomes, j))
  }

  /** One more page request, for call number |reqs|, keeps the record in order. */
  lemma ExtendRequested(reqs: seq<Request>, added: seq<Request>, url: string, kwargs: Params, outcomes: seq<Outcome>)
    requires PagesRequested(reqs, url, kwargs, outcomes)
    requires |added| == 1 && |reqs| <= |outcomes| && IsPageRequest(added[0], url, CallParams(kwargs, outcomes, |reqs|))
    ensures PagesRequested(reqs + added, url, kwargs, outcomes)
  {
    forall j | 0 <= j < |reqs + added|
      ensures j <= |outcomes| && IsPageRequest((reqs + added)[j], url, CallParams(kwargs, outcomes, j))
    {
      if j < |reqs| {
        assert (reqs + added)[j] == reqs[j];
      } else {
        assert (reqs + added)[j] == added[0];
      }
    }
  }

  /** Appending the requests of one more call to the log. */
  lemma AppendAssoc(a: seq<Request>, b: seq<Request>, c: seq<Request>)
    ensures a + b + c == a + (b + c)
  {
  }

  /** The log after the requests of one call still starts with what was there. */
  lemma SplitSent(sent0: seq<Request>, requested: seq<Request>)
    ensures (sent0 + requested)[..|sent0|] == sent0 && (sent0 + requested)[|sent0|..] == requested
  {
  }

  /** The keyword arguments of call k, once start is written: after the
      first page, start is the previous page's next, never None. */
  lemma NextCallParams(kwargs: Params, outcomes: seq<Outcome>, k: nat, start: Json)
    requires k <= |outcomes|
    requires k > 0 ==> StepAt(outcomes, k - 1).More?
    requires start == if k == 0 then JNull else Cursor(StepAt(outcomes, k - 1))
    ensures var kw := CallParams(kwargs, outcomes, if k == 0 then 0 else k - 1);
      (if start != JNull then kw["start" := start] else kw) == CallParams(kwargs, outcomes, k)
  {
    if k > 0 {
      var kw := CallParams(kwargs, outcomes, k - 1);
      assert kw["start" := start] == kwargs["start" := start];
    }
  }

  /** What get_all does with the result of one get: the step it takes, the
      requests that get made and the replies it consumed. */
  lemma PageFetched(a: Attempt, d: Delivery, refuses: bool, kw: Params, url: string, replies: seq<Reply>,
                    loads: Loads, k: nat, rest: seq<Reply>)
    requires Remains(replies, k, rest)
    requires a.Refuse? <==> refuses
    requires a.Refuse? ==> a.crash == MissingAttribute
    requires a.Dispatch? ==> a.req.verb == GET && a.req.url == url && a.req.params == Some(kw)
    requires d == Transmit(a, rest)
    ensures StepOf(Handle(GET, d.sent, loads))
         == if refuses then Stop(Crashed(MissingAttribute))
            else if k < |replies| then StepAt(Outcomes(replies, loads), k)
            else Stop(Crashed(TransportFailed))
    ensures refuses ==> d.log == [] && d.rest == rest
    ensures !refuses ==> |d.log| == 1 && IsPageRequest(d.log[0], url, kw)
    ensures !refuses && k < |replies| ==> Remains(replies, k + 1, d.rest)
    ensures !refuses && k >= |replies| ==> d.rest == []
  {
    RemainsDrop(replies, k, rest);
    if !refuses && k < |replies| {
      OutcomeAt(replies, loads, k);
      assert rest[0] == replies[k];
      assert rest[1..] == replies[k + 1..];
      RemainsDrop(replies, k + 1, d.rest);
    }
  }
}
