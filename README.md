# sign-up.to API client, modelled in Dafny

This project models `signupto/client.py`, the Python client for the
sign-up.to REST API, and proves properties of the model. It covers:

- **The hash-authorization signature** (modules `Signature`, `Urls`, `Utf8`).
  - The signed text has a fixed CRLF-separated layout: method and signed path, `Date`, `X-SuT-CID`, `X-SuT-UID`, `X-SuT-Nonce`, then the API key.
  - The signed path is what `urlparse(url).path.rstrip('/')` gives, and `urlparse`'s path split is modelled as the `urllib.parse` of CPython 3.12 performs it, including its list of schemes that take `;` parameters.
  - The digest is taken over the text's UTF-8 bytes.
- **The three authorization strategies** (module `Signupto`).
  - `NoAuthorization` passes the request through.
  - `HashAuthorization` writes five headers into the caller's dict in place.
  - `TokenAuthorization` writes one header and drops the body. It has a one-shot `initialize` that posts the credentials to the `token` resource.
- **`Client` and `Endpoint`** (module `Signupto`).
  - The constructor, including the token bootstrap.
  - `make_request`: header merging, the dumped body and the URL.
  - The routing of keyword arguments by `get`, `post`, `put`, `delete` and `head`.
  - `get_all`'s paging loop. It is proved against the specification function `Paging.Paginate`.
- **`handle_response` and `deserialize`** (module `Responses`). These form one total function from the request method and the reply to an outcome. Every exception the code can raise is an outcome of its own.

The world outside the client is an `Environment` object:

- the replies the server will give, in order;
- the log of requests sent;
- SHA-1 as an uninterpreted function on bytes;
- `json.loads` as a function from text to an optional value;
- the nonce and date the n-th request draws.

State that Python mutates is mutated here too:

- the header dict is a `HeaderMap` class;
- the token strategy's fields belong to a class;
- the environment's reply queue and request log are fields.

Each method is specified against functions of the old state.

Where the code does something other than its names and docstrings suggest, the model follows the code:

- `rstrip('/')` removes every trailing slash, not only one (`Urls.StripsAllTrailingSlashes`).
- A status code of 500 or more never raises `ServerHttpError`. Its constructor names `HttpError`, which is undefined, so every such reply ends in a `NameError` (`UndefinedHttpError`).
- An "error" envelope with a code outside 4xx does not raise an API error. `error_cls` is still `None` and calling it fails (`NoneNotCallable`).
- A body without `"status"` fails while formatting the assertion message, which names the undefined `serialized_data` (`UndefinedSerializedData`).
- `Content-Type: application/json` is sent with every request, with or without a body, because it is one of `extra_headers`.
- A GET, DELETE or HEAD without the token strategy sends the 4-byte body `null`. These methods pass `data=None`, and `make_request` always applies `json.dumps` to it; only the token strategy replaces the body with `''`.
- An ok envelope succeeds even under a 4xx code (`Responses.SuccessIsOkEnvelope`).

## Model

| member | source | states |
|---|---|---|
| Signature.CanonicalString | signupto/client.py:90-104 | the signed text is `<method> <path>`, then the `Date`, `X-SuT-CID`, `X-SuT-UID` and `X-SuT-Nonce` lines, then the API key, all joined by CRLF, with the path taken as urlparse's path without trailing slashes; CanonicalFields shows each field can be read back from it |
| Signature.Sign | signupto/client.py:89-105 | the signature is SHA-1's hex digest of the signed text's UTF-8 bytes, and those bytes differ under any other nonce (NonceChangesSignedBytes); SignedBytesCoverEveryField shows they determine the whole signed text |
| Signature.NonceChangesSignedBytes | signupto/client.py:89-105 | for fixed other fields, every nonce other than the one signed gives different hashed bytes |
| Signature.CanonicalFields | signupto/client.py:89-104 | two equal signed texts that agree on all fields but one agree on that one too (method, signed path, date, company id, user id, nonce, API key): the template separates every field |
| Signature.SignedBytesCoverEveryField | signupto/client.py:89-105 | equal UTF-8 bytes of two signed texts mean equal texts, so the hashed bytes determine every field |
| Signature.FreshNonceChangesSignedBytes | signupto/client.py:114-127 | two different nonces give different hashed bytes for otherwise equal requests |
| Signature.ClientSignedPath | signupto/client.py:98 | for the client's own URL `https://api.sign-up.to/v<version>/<resource>` the signed path is `/v<version>/<resource>`, or `/v<version>` when the resource is empty |
| Signature.HttpDateExample | signupto/client.py:124 | the RFC 7231 example `Sun, 06 Nov 1994 08:49:37 GMT` satisfies the IMF-fixdate predicate the Date header is held to |
| Signature.Rfc850DateRejected | signupto/client.py:124 | the obsolete RFC 850 form of the same date does not satisfy it |
| Urls.RStripSlashes | signupto/client.py:98 | the result is a prefix of its input, does not end in '/', and everything it drops is '/' |
| Urls.SignedPathShape | signupto/client.py:98 | the signed path is a prefix of the URL's path, what it drops is all '/', and stripping it again leaves it unchanged |
| Urls.StripsAllTrailingSlashes | signupto/client.py:98 | `/list//` and `/list/` both sign as `/list`, and `///` as the empty path |
| Urls.UrlPath | signupto/client.py:98 | `urlparse(url).path` (CPython 3.12) never holds a `?` or `#`, and for a scheme that takes parameters it keeps a `;` only in a segment a later `/` closes; ClientUrlPath gives its value for the client's own URLs |
| Urls.SignedPath | signupto/client.py:98 | the signed path is `urlparse(url).path` with its whole trailing run of `/` removed and nothing else, so it never ends in `/` and holds no `?` or `#`; SignedPathShape adds that stripping again changes nothing, and ClientSignedPath gives its value for the client's own URLs |
| Urls.ClientUrlPath | signupto/client.py:98 | `urlparse` finds the path `/v<version>/<resource>` in every URL the client builds from plain segments |
| Urls.Find | signupto/client.py:98 | `str.find`: -1 exactly when the character is absent, otherwise the index of its first occurrence |
| Urls.RFind | signupto/client.py:98 | `str.rfind`: -1 exactly when the character is absent, otherwise the index of its last occurrence |
| Urls.DropParams | signupto/client.py:98 | the path is cut at the first ';' after its last '/' (or at its first ';' when it has no '/'), and kept whole when no ';' follows the last '/' |
| Utf8.DecodeEncode | signupto/client.py:242-243 | decoding the UTF-8 encoding of any string gives the string back |
| Utf8.DecodeEncodeChar | signupto/client.py:242-243 | decoding the bytes of one character, followed by anything, gives that character and consumes exactly its bytes |
| Utf8.EncodeInjective | signupto/client.py:105 | distinct strings encode to distinct byte strings |
| JsonValues.GetFindsFirst | signupto/client.py:245-255 | `key in d` holds exactly when some member carries the key, and `d[key]` is then the first such member's value |
| JsonValues.KeysAreMemberKeys | signupto/client.py:297 | iterating over an object yields a string exactly when looking that key up finds a member |
| JsonValues.Str | signupto/client.py:122-123 | `str()` of a string is the string itself, of None is `"None"`, and of an integer is a decimal text that reads back as that integer |
| JsonValues.DecimalRoundTrip | signupto/client.py:122-123 | the decimal text of an integer is its digits, after a '-' when it is negative, and `int()` of it gives the integer back |
| Signupto.HeaderMap.Set | signupto/client.py:121-128 | `headers[key] = value` changes that key and keeps every other entry |
| Signupto.HeaderMap.Update | signupto/client.py:207-208 | `dict.update`: the keys of the argument win and the other entries stay |
| Signupto.DefaultHeaders | signupto/client.py:204-208 | a new dict holding `extra_headers` overlaid by the caller's headers |
| Signupto.Environment.Send | signupto/client.py:199-200 | the request is logged, and it takes the next reply or fails in the transport when none is left |
| Signupto.WriteHashHeaders | signupto/client.py:121-128 | the result has exactly the caller's keys plus the five signing headers, holds the given values, and keeps every other caller header |
| Signupto.HashAuthorization.Headers | signupto/client.py:117-129 | the five headers are written and nothing else changes; the nonce is 40 characters of [a-z0-9] and the date an IMF-fixdate when the draw is valid; the signature is taken over exactly the nonce, date and ids that are written |
| Signupto.HashAuthorization.MakeAuthorizedRequest | signupto/client.py:117-129 | the caller's dict is updated in place to those headers, the request that goes out carries that dict, and the nonce and date written are well-formed whenever the environment's stamps are |
| Signupto.TokenHeaders | signupto/client.py:151 | exactly `Authorization` is set, to `SuTToken <token>`, and every other header is kept |
| Signupto.TokenAuthorization.Decorate | signupto/client.py:148-152 | a strategy without a token fails with AttributeError before sending; otherwise it keeps the method, URL and params, adds exactly the `Authorization: SuTToken <token>` header, keeps every other caller header, and sends the default empty body instead of the caller's data |
| Signupto.TokenAuthorization.MakeAuthorizedRequest | signupto/client.py:148-152 | the dict is updated in place only when a token exists, and what is sent is what Decorate describes |
| Signupto.TokenAuthorization.constructor | signupto/client.py:134-137 | starts uninitialized, with no token and no expiry |
| Signupto.TokenAuthorization.Initialize | signupto/client.py:139-146 | one unauthenticated POST of the credentials to `/v<version>/token` is sent, one reply is consumed, and the fields are set from the reply as ReadFrom describes |
| Signupto.TokenAuthorization.ReadToken | signupto/client.py:144-146 | the token is read first and the expiry second; the first read that fails is the failure, and what was read before it stays; it succeeds, and sets `initialized`, exactly when the reply is a success whose data is an object holding both keys |
| Signupto.DataIndex | signupto/client.py:144-145 | `r.data[key]` gives a value exactly when the POST succeeded with an object holding the key; an exception from the POST comes through unchanged |
| Signupto.Authorization.Decorate | signupto/client.py:84-86 | every strategy keeps the method, URL and params, writes exactly its own header names, and keeps every other caller header; only the token strategy drops the body, and only a token strategy without a token refuses |
| Signupto.Authorization.MakeAuthorizedRequest | signupto/client.py:84-86 | the dict and the environment change as Decorate and Transmit describe |
| Signupto.Client.constructor | signupto/client.py:194-197 | the client holds the base URL for its version and the auth object it is given |
| Signupto.NewClient | signupto/client.py:191-197 | a token strategy that is not initialized sends its token POST before the client exists, and a failure there means no client; after the token POST the strategy's fields are set as ReadFrom describes; every other strategy sends nothing and is left unchanged; no auth becomes NoAuthorization |
| Signupto.Client.MakeRequest | signupto/client.py:202-215 | the request that goes out is what the strategy makes of `baseurl + resource`, the dumped data, the params and `extra_headers` overlaid by the caller's headers; the log grows by what was sent and the result is what `handle_response` makes of the reply |
| Signupto.Route | signupto/client.py:264-282 | post and put send the keyword arguments as the body and no params; get, delete and head send them as params with `data=None`, which make_request dumps to the body `null` |
| Signupto.Endpoint.Get | signupto/client.py:264-266 | one make_request of GET for the endpoint's resource, kwargs as params |
| Signupto.Endpoint.Post | signupto/client.py:268-270 | one make_request of POST, kwargs as the body |
| Signupto.Endpoint.Put | signupto/client.py:272-274 | one make_request of PUT, kwargs as the body |
| Signupto.Endpoint.Delete | signupto/client.py:276-278 | one make_request of DELETE, kwargs as params |
| Signupto.Endpoint.Head | signupto/client.py:280-282 | one make_request of HEAD, kwargs as params |
| Signupto.Endpoint.NextPage | signupto/client.py:296 | the k-th `self.get` of get_all takes the step of the k-th outcome, sends one GET of the resource with the current kwargs, and consumes one reply |
| Signupto.Endpoint.GetAll | signupto/client.py:284-301 | as RanToEnd states: the result, the number of requests and the replies left are those of Paginate over the outcomes of the replies; the j-th request is a GET of the resource carrying the j-th call's kwargs; a token strategy without a token fails before sending anything |
| Paging.Items | signupto/client.py:297 | `list.extend` takes a list as it is and an object's keys, fails on None, booleans and numbers, and takes a string as its one-character strings in order |
| Paging.StepOf | signupto/client.py:296-301 | an exception stops the loop; a success with iterable data extends the list, and then ends exactly when next is None and continues with next as the cursor otherwise |
| Paging.CallParams | signupto/client.py:290-295 | the first call carries the caller's kwargs unchanged; each later call carries them with `start` set to the previous page's next and every other key unchanged |
| Paging.Paginate | signupto/client.py:284-301 | get_all makes between 1 and n+1 requests against n replies, and leaves unread the replies after the last request |
| Paging.PaginateRest | signupto/client.py:284-301 | what get_all leaves unread is a suffix of the replies |
| Paging.CollectedPages | signupto/client.py:284-301 | when get_all returns a list, every page before the last had a next, the last had none, and the list is the concatenation of their data in call order |
| Paging.StopsAtFirstLastPage | signupto/client.py:298-299 | conversely, with n-1 pages that have a next followed by one without, get_all makes exactly n requests and returns their data |
| Paging.GatheredNext | signupto/client.py:297 | one more page appends its items at the end of what was gathered |
| Paging.PaginateAfter | signupto/client.py:293-301 | after k pages with a next, get_all continues as it would from the (k+1)-th outcome, with those pages' items in front |
| Paging.PaginateStep | signupto/client.py:296-299 | how get_all ends when its (k+1)-th call finds no reply, fails, or reads the last page |
| Paging.OutcomeAt | signupto/client.py:296 | the j-th call's result is what handle_response makes of the j-th reply |
| Paging.OkBodyOutcome | signupto/client.py:241-255 | a 200 reply with an ok envelope gives the SignuptoResponse of its data, next and count |
| Paging.OkPageStep | signupto/client.py:296-301 | a successful page ends the loop exactly when its next is None |
| Paging.ThreePages | signupto/client.py:284-301 | three pages whose next values are "p2", "p3" and None: three requests, start "p2" and "p3" on the later ones, the data joined in order |
| Paging.ThreeReplies | signupto/client.py:284-301 | the same three pages as 200 replies carrying ok envelopes |
| Responses.ErrorClass | signupto/client.py:226-231 | an error class is chosen exactly for 4xx codes, and it is ObjectNotFound exactly for 404 |
| Responses.Index | signupto/client.py:247-255 | `d[key]` gives a value exactly when d is an object holding the key, and then the member's value; an object without the key gives KeyError |
| Responses.Body | signupto/client.py:241-244 | the body is a value exactly when the bytes are valid UTF-8 and the text parses, and then it is the parsed value; invalid UTF-8 and text that is not JSON are the only faults |
| Responses.BodyOfEncoded | signupto/client.py:241-244 | bytes that encode some text always decode, so only the JSON parser decides the outcome |
| Responses.Unpack | signupto/client.py:254-255 | the response fields unpack exactly when data, next and count are all present, and they are then taken verbatim |
| Responses.NotAnObject | signupto/client.py:245 | a body that is not an object always ends in an exception |
| Responses.Deserialize | signupto/client.py:225-255 | HEAD never reads the body and returns an error object with info `{}` and the status code exactly for 4xx (ObjectNotFound exactly for 404), None otherwise; any other method decodes the body, crashes on a decoding fault, succeeds only on an ok envelope whose data, next and count it returns, and raises an API error only for a 4xx code, carrying that code; SuccessIsOkEnvelope and RaisedIsErrorEnvelope state the converse through HandleResponse |
| Responses.Envelope | signupto/client.py:244-255 | the envelope gives a SignuptoResponse or an exception, never None or a returned error |
| Responses.HandleResponse | signupto/client.py:217-223 | codes from 500 up always fail on the undefined HttpError; 3xx codes always trip the assertion; HEAD returns the error object for 4xx and None otherwise; only HEAD returns None or an error object |
| Responses.SuccessIsOkEnvelope | signupto/client.py:217-255 | a reply succeeds exactly when it is not for HEAD, its code is below 500 and outside 3xx, and its body is an ok envelope whose fields are the result |
| Responses.RaisedIsErrorEnvelope | signupto/client.py:226-253 | an API error is raised exactly for a non-HEAD 4xx reply with an error envelope; it carries the envelope's response and the code, and is ObjectNotFound exactly for 404 |
| Responses.HeadIgnoresBody | signupto/client.py:233-239 | the outcome of a HEAD does not depend on the body |
| Responses.HeadExamples | signupto/client.py:233-239 | a 200 HEAD returns None; a 404 HEAD returns (does not raise) ObjectNotFound with {} and 404 |
| Responses.StatusIsCaseFolded | signupto/client.py:247-249 | status words are compared after `str.lower()` |
| Responses.OkEnvelopeExample | signupto/client.py:254-255 | a concrete ok envelope decodes to its data, next and count |
| Responses.NotFoundExample | signupto/client.py:226-253 | a concrete error envelope with 404 raises ObjectNotFound carrying the response dict |
| Responses.MissingStatusExample | signupto/client.py:245 | a body without "status" fails on the undefined name in the assertion message |
| Responses.ErrorStatusWithoutErrorCode | signupto/client.py:248-253 | an error envelope with a 2xx code calls the unset error class |

## Left out

- HTTP itself (`requests.request`) is not modelled. The server is the list of replies the `Environment` holds, each a status code and body bytes. Redirects are followed by the library and are not modelled; a 3xx that reaches the client is modelled. Any transport exception is the single `TransportFailed` outcome, taken when no reply is left.
- SHA-1 is an uninterpreted function on bytes. Properties that depend on the hash itself, such as collision resistance, are out of reach.
- `random.choice`, `datetime.now`, `mktime` and `format_date_time` are not modelled. Their results are the `Stamp` the n-th request draws, held to the nonce alphabet and length and to the IMF-fixdate layout by `Stamp.Valid`.
- `json.loads` is a function parameter, and decoded values are the `Json` datatype. Numbers are integers: floats are not modelled.
- `json.dumps` is not performed. The body is the value that would be dumped.
- `JsonValues.Repr`: `repr` is written without Python's string escaping. Through `str()` it is reached only for non-string values in three places: the company and user ids placed in headers, the API key in the signed text, and the token in the `Authorization` header.
- JSON objects are member lists with one member per key, as the decoder leaves them. For a list with duplicate keys, `JsonValues.Get` returns the first member, while `json.loads` keeps the last. The model does not restrict the datatype to exclude such lists.
- The text of exception messages, and the `ValueError` base classes, are not modelled. An API error is its class, its `error_info` and its status code.
- The `API_RESOURCES` list and the `setattr`/`property` loop (client.py:23-55, 305-313) are not modelled. They only bind resource names to `Endpoint` objects; an `Endpoint` is built with its resource name directly.
- `make_request`'s `headers=None` default is not modelled. The caller's headers are always a map.
- Keyword-argument order is not modelled. Keyword arguments are a map, so the order `requests` encodes them in is not captured.
- The caller's kwargs dict cannot be mutated in the model. Dictionaries passed as arguments are values, so `get_all`'s `kwargs.copy()` is implicit.
- `Urls.UrlPath` covers only the parts of `urllib.parse.urlparse` that decide the path: the scheme, the netloc, the query, the fragment and `;` parameters. IPv6 netloc validation and the other components are not modelled. Neither is `_checknetloc`: for a non-ASCII netloc whose NFKC normal form contains one of `/?#@:`, Python raises `ValueError`, where `Urls.UrlPath` still returns a path. `Signature.ClientSignedPath` applies only to version and resource texts without `/`, `?`, `#`, `;` and tab/newline characters.
- Concurrency is not modelled, and neither is `python -O`. With `-O`, the `assert`s would not fire.
- Lone surrogates are not modelled. Python's `.encode('utf-8')` raises on them, and Dafny's `char` excludes them, so every modelled text encodes.
- `TokenAuthorization.initialize`'s `version=None` default is not modelled. `Signupto.TokenAuthorization.Initialize` always takes the version, as `Client.__init__` always passes one.
- `Client.__init__`'s `version="0"` default is not modelled. `Signupto.NewClient` always takes the version explicitly.
- setup.py is packaging metadata and is not part of this model.
- Signupto.Endpoint.GetAll: the loop runs against a finite list of replies. A server that answered with a next forever would make the Python loop run forever, while the model reaches `TransportFailed` once the replies run out.
