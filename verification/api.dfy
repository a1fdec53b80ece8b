/** The transport wrapper (`request` and the `api` verbs). `fetch` itself, its abort signal
    and the ten-second timer are not modelled as behaviour: what `fetch` did is an input,
    a `FetchOutcome`, and `Request` maps it to the value the caller receives or the single
    `ApiError` it is rejected with. */
module Api {
  import opened Base
  import opened Json
  import Query

  const ContentTypeHeader := "Content-Type"
  const JsonMediaType := "application/json"
  const TimeoutMessage := "Request timed out"
  const NetworkFailureMessage := "Network request failed"

  /** A response body as the client read it: decoded JSON, or raw text. */
  datatype Body = Text(text: string) | Parsed(json: Json)

  /** `(data as {key?: unknown})?.key`: text bodies carry no named properties. */
  function BodyProperty(b: Body, key: string): (r: Option<Json>)
    ensures r.Some? ==> b.Parsed? && Has(b.json, key)
  {
    if b.Parsed? then Property(b.json, key) else None
  }

  /** The one error shape every failure is normalised to. `isTimeout` is `true` or
      `undefined` (`None`) in the source. */
  datatype ApiError = ApiError(
    message: string,
    status: int,
    code: Option<Json>,
    data: Option<Body>,
    isTimeout: Option<bool>)

  /** The error every abort becomes. */
  const TimeoutError := ApiError(TimeoutMessage, 0, None, Some(Parsed(JObj(map[]))), Some(true))

  /** A thrown value that is not an `ApiError`: an `Error` instance (with its `name`,
      `message` and any other own properties) or something else entirely. */
  datatype Fault = ErrorValue(name: string, message: string, extra: map<string, Json>) | OtherValue

  /** `error instanceof Error && error.name === 'AbortError'`. */
  predicate IsAbort(f: Fault) {
    f.ErrorValue? && f.name == "AbortError"
  }

  /** Anything a `try` block can throw. An `ApiError` is an `Error` named `'ApiError'`. */
  datatype Thrown = Raised(apiError: ApiError) | Faulted(fault: Fault)

  /** What `fetch` resolved with. `json` and `text` are what `response.json()` and
      `response.text()` would settle to; only one of them is read. */
  datatype Response = Response(
    status: int,
    contentType: Option<string>,
    json: Result<Json, Fault>,
    text: Result<string, Fault>)
  {
    /** `response.ok`. */
    predicate Ok() {
      200 <= status <= 299
    }
  }

  /** How the call to `fetch` settled: with a response, or rejected (an abort from the
      timeout is a rejection with an `AbortError`). */
  datatype FetchOutcome = Delivered(response: Response) | Rejected(fault: Fault)

  type Headers = map<string, string>

  /** The `options` argument of the `api` verbs. */
  datatype RequestOptions = RequestOptions(params: Option<Query.Query>, headers: Option<Headers>)

  const NoOptions := RequestOptions(None, None)

  /** What `request` receives: the verb's method and serialised body, plus the options. */
  datatype RequestInit = RequestInit(verb: string, body: Option<string>, options: RequestOptions)

  /** What `request` hands to `fetch`. */
  datatype Outgoing = Outgoing(verb: string, url: string, headers: Headers, body: Option<string>)

  /** The member of `api` a service calls. `patch` and `upload` are called by some services
      but are not members of `api`. */
  datatype Verb = Get | Post | Put | Delete | Patch | Upload

  /** A service's request before transport: the `api` member it calls, the endpoint, the
      payload (serialised by the verb) and the options. */
  datatype Call<P> = Call(verb: Verb, endpoint: string, payload: Option<P>, options: RequestOptions)

  /** A file as React Native's `FormData` takes it. */
  datatype FileRef = FileRef(uri: string, name: string, mimeType: string)

  /** One `formData.append(name, value)`. */
  datatype FormPart = FormField(name: string, value: string) | FormFile(name: string, file: FileRef)

  type Form = seq<FormPart>

  /** The first part appended under `name`, as `formData.get(name)` returns it. */
  function FindPart(form: Form, name: string): (r: Option<FormPart>)
    ensures r.Some? ==> r.value in form && r.value.name == name
    ensures r.None? <==> forall i :: 0 <= i < |form| ==> form[i].name != name
    // it is the earliest part under that name
    ensures r.Some? ==>
      exists i :: 0 <= i < |form| && form[i] == r.value && forall j :: 0 <= j < i ==> form[j].name != name
  {
    if form == [] then None
    else if form[0].name == name then Some(form[0])
    else FindPart(form[1..], name)
  }

  /** A later `append` is seen only when no earlier part has that name. */
  lemma {:induction false} FindPartAppend(form: Form, part: FormPart, name: string)
    ensures FindPart(form + [part], name) ==
      if FindPart(form, name).Some? then FindPart(form, name)
      else if part.name == name then Some(part)
      else None
  {
    if form != [] {
      assert (form + [part])[1..] == form[1..] + [part];
      FindPartAppend(form[1..], part, name);
    }
  }

  /** `${API_BASE_URL}${endpoint}`, followed by `?` and the encoded query whenever a params
      object is supplied, even an empty one. */
  function Url(base: string, endpoint: string, params: Option<Query.Query>,
               escape: string -> string): (url: string)
    ensures params.None? ==> url == base + endpoint
    ensures params.Some? ==> |url| > |base + endpoint| && url[..|base + endpoint| + 1] == base + endpoint + "?"
    ensures params == Some([]) ==> url == base + endpoint + "?"
    ensures params.Some? ==> url[|base + endpoint| + 1..] == Query.Encode(escape, params.value)
  {
    if params.Some? then base + endpoint + "?" + Query.Encode(escape, params.value)
    else base + endpoint
  }

  /** `{ 'Content-Type': 'application/json', ...headers }`: a caller's value wins, and the
      default survives when the caller does not set that key. */
  function MergeHeaders(headers: Option<Headers>): (h: Headers)
    ensures headers.None? ==> h == map[ContentTypeHeader := JsonMediaType]
    ensures headers.Some? ==> h.Keys == headers.value.Keys + {ContentTypeHeader}
    ensures headers.Some? ==> forall k :: k in headers.value ==> h[k] == headers.value[k]
    ensures headers.None? || ContentTypeHeader !in headers.value ==> h[ContentTypeHeader] == JsonMediaType
  {
    var defaults := map[ContentTypeHeader := JsonMediaType];
    if headers.Some? then defaults + headers.value else defaults
  }

  /** The headers of a request whose caller sets none. */
  const JsonHeaders: Headers := map[ContentTypeHeader := JsonMediaType]

  /** The call `request` makes to `fetch`: method and body pass through untouched, the URL
      starts with the base and the endpoint and has nothing after them exactly when no
      params object is given, and the headers always name a content type while keeping
      every header the caller set. */
  function Prepare(base: string, endpoint: string, init: RequestInit,
                   escape: string -> string): (out: Outgoing)
    ensures out.verb == init.verb && out.body == init.body
    ensures |base + endpoint| <= |out.url| && out.url[..|base + endpoint|] == base + endpoint
    ensures init.options.params.None? <==> out.url == base + endpoint
    ensures ContentTypeHeader in out.headers
    ensures init.options.headers.Some? ==>
      forall k :: k in init.options.headers.value ==> k in out.headers && out.headers[k] == init.options.headers.value[k]
  {
    Outgoing(init.verb, Url(base, endpoint, init.options.params, escape),
             MergeHeaders(init.options.headers), init.body)
  }

  /** `contentType?.includes('application/json')`. */
  predicate IsJsonContent(contentType: Option<string>) {
    contentType.Some? && Contains(contentType.value, JsonMediaType)
  }

  /** The body is decoded as JSON when the content type says so, and read as text
      otherwise; either read can itself fail. */
  function ReadBody(r: Response): (b: Result<Body, Fault>)
    ensures IsJsonContent(r.contentType) ==>
      (b.Success? <==> r.json.Success?) && (b.Success? ==> b.value == Parsed(r.json.value))
    ensures !IsJsonContent(r.contentType) ==>
      (b.Success? <==> r.text.Success?) && (b.Success? ==> b.value == Text(r.text.value))
  {
    if IsJsonContent(r.contentType) then
      (match r.json
       case Success(j) => Success(Parsed(j))
       case Failure(f) => Failure(f))
    else
      (match r.text
       case Success(t) => Success(Text(t))
       case Failure(f) => Failure(f))
  }

  /** The text `request` puts in the error for a non-2xx response whose body has no
      truthy `message`. */
  function GenericFailureMessage(status: int): string {
    "Request failed with status " + IntToString(status)
  }

  /** The `ApiError` thrown for a readable non-2xx response. */
  function HttpFailure(status: int, body: Body): (e: ApiError)
    ensures e.status == status && e.data == Some(body) && e.isTimeout.None?
    ensures e.code == BodyProperty(body, "code")
    ensures var m := BodyProperty(body, "message");
      e.message == if m.Some? && Truthy(m.value) then AsString(m.value) else GenericFailureMessage(status)
  {
    var m := BodyProperty(body, "message");
    var message := if m.Some? && Truthy(m.value) then AsString(m.value) else GenericFailureMessage(status);
    ApiError(message, status, BodyProperty(body, "code"), Some(body), None)
  }

  /** The `try` block: the value returned, or what it throws. */
  function Attempt(o: FetchOutcome): (r: Result<Body, Thrown>)
    // it returns exactly on a readable 2xx response
    ensures r.Success? <==> Readable(o) && o.response.Ok()
    // the only `ApiError` thrown inside is the one built from a readable non-2xx response
    ensures r.Failure? && r.error.Raised? <==> Readable(o) && !o.response.Ok()
    ensures r.Failure? && r.error.Raised? ==> r.error.apiError.status == o.response.status
    // a rejected fetch, or a body read that fails, throws that fault unchanged
    ensures o.Rejected? ==> r == Failure(Faulted(o.fault))
    ensures o.Delivered? && ReadBody(o.response).Failure? ==> r == Failure(Faulted(ReadBody(o.response).error))
  {
    match o
    case Rejected(f) => Failure(Faulted(f))
    case Delivered(r) =>
      match ReadBody(r)
      case Failure(f) => Failure(Faulted(f))
      case Success(b) => if r.Ok() then Success(b) else Failure(Raised(HttpFailure(r.status, b)))
  }

  /** The `catch` block: an abort becomes the timeout error, an `ApiError` is rethrown
      unchanged, and anything else becomes a status-0 error. */
  function Recover(t: Thrown): (e: ApiError)
    ensures t.Raised? ==> e == t.apiError
    ensures t.Faulted? && IsAbort(t.fault) ==> e == TimeoutError
    ensures t.Faulted? && !IsAbort(t.fault) ==> e.status == 0 && e.isTimeout.None? && e.data.None?
    ensures t.Faulted? && !IsAbort(t.fault) ==>
      e.message == if t.fault.ErrorValue? then t.fault.message else NetworkFailureMessage
  {
    match t
    case Faulted(f) =>
      if IsAbort(f) then TimeoutError
      else if f.ErrorValue? then ApiError(f.message, 0, None, None, None)
      else ApiError(NetworkFailureMessage, 0, None, None, None)
    case Raised(e) => e
  }

  /** The response could be read, so the client saw an HTTP status. */
  predicate Readable(o: FetchOutcome) {
    o.Delivered? && ReadBody(o.response).Success?
  }

  /** The fetch, or the body read after it, was aborted. */
  predicate Aborted(o: FetchOutcome) {
    || (o.Rejected? && IsAbort(o.fault))
    || (o.Delivered? && ReadBody(o.response).Failure? && IsAbort(ReadBody(o.response).error))
  }

  /** `request`: how the promise it returns settles. */
  function Request(o: FetchOutcome): (r: Result<Body, ApiError>)
    // resolves exactly on a readable 2xx response, with the body unchanged
    ensures r.Success? <==> Readable(o) && o.response.Ok()
    ensures r.Success? ==> r.value == ReadBody(o.response).value
    // a readable non-2xx response keeps its HTTP status, code and body
    ensures Readable(o) && !o.response.Ok() ==>
      r.Failure? && r.error == HttpFailure(o.response.status, ReadBody(o.response).value)
    // the timeout flag is set exactly on aborts, which all read the same
    ensures r.Failure? && r.error.isTimeout == Some(true) <==> Aborted(o)
    ensures Aborted(o) ==> r == Failure(TimeoutError)
    // every failure without an HTTP response has status 0
    ensures !Readable(o) ==> r.Failure? && r.error.status == 0
    // any other failure without a response carries the fault's message, no flag and no data
    ensures !Readable(o) && !Aborted(o) ==>
      var f := if o.Rejected? then o.fault else ReadBody(o.response).error;
      && r.Failure? && r.error.isTimeout.None? && r.error.data.None?
      && r.error.message == if f.ErrorValue? then f.message else NetworkFailureMessage
  {
    match Attempt(o)
    case Success(b) => Success(b)
    case Failure(t) => Failure(Recover(t))
  }

  // ---- the `api` verbs ----

  /** `body ? JSON.stringify(body) : undefined`, shared by `post` and `put`. */
  function WithBody(verb: string, body: Option<Json>, options: RequestOptions,
                    stringify: Json -> string): (init: RequestInit)
    ensures init.verb == verb && init.options == options
    ensures init.body.Some? <==> body.Some? && Truthy(body.value)
    ensures init.body.Some? ==> init.body.value == stringify(body.value)
  {
    var sent := if body.Some? && Truthy(body.value) then Some(stringify(body.value)) else None;
    RequestInit(verb, sent, options)
  }

  function GetInit(options: RequestOptions): RequestInit {
    RequestInit("GET", None, options)
  }

  function PostInit(body: Option<Json>, options: RequestOptions, stringify: Json -> string): RequestInit {
    WithBody("POST", body, options, stringify)
  }

  function PutInit(body: Option<Json>, options: RequestOptions, stringify: Json -> string): RequestInit {
    WithBody("PUT", body, options, stringify)
  }

  function DeleteInit(options: RequestOptions): RequestInit {
    RequestInit("DELETE", None, options)
  }

  /** Every object payload is sent; a falsy payload (`null`, `false`, `0`, `''`) is
      silently dropped and the request goes out with no body. */
  lemma PostBodyPresence(body: Json, options: RequestOptions, stringify: Json -> string)
    ensures body.JObj? ==> PostInit(Some(body), options, stringify).body == Some(stringify(body))
    ensures !Truthy(body) ==> PostInit(Some(body), options, stringify).body.None?
  {
  }

  // ---- from a service call to the wire ----

  /** How a typed payload becomes JSON: the object of its own properties. */
  type Encoder<-P> = P -> map<string, Json>

  /** What `request` receives for a service call. A payload is a typed object, serialised
      from its own properties (`encode`), so it is always truthy. `patch` and `upload` are
      not members of `api`: calling one throws a `TypeError` before anything is sent, which
      is `None` here. */
  function Dispatch<P>(c: Call<P>, encode: Encoder<P>, stringify: Json -> string): (init: Option<RequestInit>)
    ensures init.None? <==> c.verb == Patch || c.verb == Upload
    ensures init.Some? ==> init.value.options == c.options
    ensures init.Some? ==> (init.value.body.Some? <==> (c.verb == Post || c.verb == Put) && c.payload.Some?)
    ensures init.Some? && init.value.body.Some? ==> init.value.body.value == stringify(JObj(encode(c.payload.value)))
  {
    var json := if c.payload.Some? then Some(JObj(encode(c.payload.value))) else None;
    match c.verb
    case Get => Some(GetInit(c.options))
    case Post => Some(PostInit(json, c.options, stringify))
    case Put => Some(PutInit(json, c.options, stringify))
    case Delete => Some(DeleteInit(c.options))
    case Patch => None
    case Upload => None
  }

  /** The request a service call puts on the wire, if it gets that far. */
  function Wire<P>(base: string, c: Call<P>, encode: Encoder<P>,
                   stringify: Json -> string, escape: string -> string): Option<Outgoing> {
    match Dispatch(c, encode, stringify)
    case None => None
    case Some(init) => Some(Prepare(base, c.endpoint, init, escape))
  }

  /** `JSON.parse` reads back what `JSON.stringify` wrote. */
  ghost predicate JsonRoundTrip(stringify: Json -> string, parse: string -> Json) {
    forall j :: parse(stringify(j)) == j
  }

  /** A `get` with a params object: no body, the caller's headers over the JSON default, and
      a URL of the endpoint, a `?` and a query string that reads back to the escaped
      parameters in order. */
  lemma GetSendsQuery<P>(base: string, endpoint: string, q: Query.Query, headers: Option<Headers>,
                         encode: Encoder<P>, stringify: Json -> string, escape: string -> string)
    ensures var out := Wire<P>(base, Call(Get, endpoint, None, RequestOptions(Some(q), headers)), encode, stringify, escape);
      && out == Some(Outgoing("GET", base + endpoint + "?" + Query.Encode(escape, q), MergeHeaders(headers), None))
      && (Query.SafeEscape(escape) ==> Query.Decode(out.value.url[|base + endpoint| + 1..]) == Query.EscapeAll(escape, q))
  {
    if Query.SafeEscape(escape) {
      UrlCarriesQuery(base, endpoint, q, escape);
    }
  }

  /** A `post` of a payload object: the body is always sent, and it parses back to the
      payload's properties; the URL has no query. */
  lemma PostSendsPayload<P>(base: string, endpoint: string, payload: P, headers: Option<Headers>,
                            encode: Encoder<P>, stringify: Json -> string,
                            parse: string -> Json, escape: string -> string)
    ensures var out := Wire(base, Call(Post, endpoint, Some(payload), RequestOptions(None, headers)), encode, stringify, escape);
      && out == Some(Outgoing("POST", base + endpoint, MergeHeaders(headers), Some(stringify(JObj(encode(payload))))))
      && (JsonRoundTrip(stringify, parse) ==> parse(out.value.body.value) == JObj(encode(payload)))
  {
    if JsonRoundTrip(stringify, parse) {
      assert parse(stringify(JObj(encode(payload)))) == JObj(encode(payload));
    }
  }

  /** A request issued with a params object, even an empty one, ends its URL in `?`
      followed by a query string that reads back to the escaped parameters. */
  lemma UrlCarriesQuery(base: string, endpoint: string, q: Query.Query, escape: string -> string)
    requires Query.SafeEscape(escape)
    ensures var url := Url(base, endpoint, Some(q), escape);
      Query.Decode(url[|base + endpoint| + 1..]) == Query.EscapeAll(escape, q)
  {
    Query.DecodeEncode(escape, q);
  }
}
