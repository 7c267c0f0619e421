/** The dashboard's API client (lib/api.js): the single place that calls `fetch`.
    It reads the bearer token from storage, builds the headers and the URL, turns a
    failed response into an Error with the backend's message, and wraps each backend
    route in a fixed verb and path. The network is an input: the outcome that `fetch`
    and `response.json()` produce for the request. */
module Api {
  import opened Js
  import opened Browser

  /** The storage slot holding the admin's bearer token. */
  const TokenSlot: string := "adminToken"

  const DefaultBaseUrl: string := "http://localhost:5000"
  const ContentType: string := "Content-Type"
  const JsonMediaType: string := "application/json"
  const Authorization: string := "Authorization"
  const GenericFailure: string := "API request failed"
  const LoginPath: string := "/admin/login"

  /** `process.env.NEXT_PUBLIC_API_URL || 'http://localhost:5000'`: an unset or empty
      variable falls back to the local backend. */
  function BaseUrl(env: Option<string>): (url: string)
    ensures url != ""
    ensures url == DefaultBaseUrl || env == Some(url)
    ensures env.Some? && env.value != "" ==> url == env.value
  {
    if env.Some? && env.value != "" then env.value else DefaultBaseUrl
  }

  /** `${this.baseURL}${endpoint}`: the base URL followed by the endpoint, each recoverable. */
  function RequestUrl(base: string, endpoint: string): (url: string)
    ensures |url| == |base| + |endpoint|
    ensures url[..|base|] == base && url[|base|..] == endpoint
  {
    base + endpoint
  }

  type Headers = map<string, string>

  datatype Verb = GET | POST | PUT | DELETE

  /** The `options` argument of `request`: an omitted key is `None`. The body is the
      value handed to `JSON.stringify`. */
  datatype RequestOptions = RequestOptions(verb: Option<Verb>, body: Option<Value>, headers: Option<Headers>)

  const NoOptions: RequestOptions := RequestOptions(None, None, None)

  /** The `config` object handed to `fetch`. */
  datatype Config = Config(verb: Option<Verb>, body: Option<Value>, headers: Headers)

  /** The verb `fetch` uses: GET when the config names none. */
  function EffectiveVerb(c: Config): Verb {
    if c.verb.Some? then c.verb.value else GET
  }

  /** `token && ...`: a missing (null) or empty stored token is falsy. */
  predicate HasToken(token: Option<string>) {
    token.Some? && token.value != ""
  }

  /** `...(token && { Authorization: `Bearer ${token}` })` */
  function BearerHeader(token: Option<string>): Headers {
    if HasToken(token) then map[Authorization := "Bearer " + token.value] else map[]
  }

  /** The `headers` object built inside `config`: Content-Type, then the bearer
      header, then the caller's headers, each later key overriding an earlier one. */
  function MergedHeaders(token: Option<string>, caller: Option<Headers>): Headers {
    map[ContentType := JsonMediaType] + BearerHeader(token) + (if caller.Some? then caller.value else map[])
  }

  /** `{ headers: merged, ...options }`: the spread of `options` comes last, so a caller
      that passes its own `headers` replaces the merged object outright. */
  function RequestConfig(token: Option<string>, options: RequestOptions): (c: Config)
    ensures c.verb == options.verb && c.body == options.body
    ensures options.headers.Some? ==> c.headers == options.headers.value
    ensures options.headers.None? ==>
      c.headers.Keys == {ContentType} + (if HasToken(token) then {Authorization} else {})
    ensures options.headers.None? ==> c.headers[ContentType] == JsonMediaType
    ensures options.headers.None? && HasToken(token) ==> c.headers[Authorization] == "Bearer " + token.value
  {
    var merged := MergedHeaders(token, options.headers);
    Config(options.verb, options.body, if options.headers.Some? then options.headers.value else merged)
  }

  /** Caller headers discard both defaults: the merged object did carry the bearer
      header and the JSON content type, but the request sends neither unless the
      caller's own headers name them. */
  lemma CallerHeadersDiscardDefaults(token: Option<string>, options: RequestOptions)
    requires HasToken(token) && options.headers.Some?
    requires Authorization !in options.headers.value && ContentType !in options.headers.value
    ensures MergedHeaders(token, options.headers)[Authorization] == "Bearer " + token.value
    ensures MergedHeaders(token, options.headers)[ContentType] == JsonMediaType
    ensures Authorization !in RequestConfig(token, options).headers
    ensures ContentType !in RequestConfig(token, options).headers
  {
  }

  /** What the response body parsed to. */
  datatype Body = Parsed(data: Value) | Unparseable

  /** What `fetch` and `response.json()` produced for one request. */
  datatype FetchOutcome =
    | TransportFailure
    | Response(status: int, ok: bool, body: Body)

  /** The URL and config handed to `fetch`. */
  datatype FetchCall = FetchCall(url: string, config: Config)

  /** `data.message || data.msg || 'API request failed'`: always a truthy value,
      the backend's `message` first, then its `msg`, then the generic text. Reading a
      field of a null body throws. */
  function FailureMessage(data: Value): (r: Result<Value, Exception>)
    ensures r.Err? <==> data.Null? || data.Undefined?
    ensures r.Err? ==> r.error == TypeError
    ensures r.Ok? ==> Truthy(r.value)
    ensures r.Ok? ==> r.value == Str(GenericFailure)
                      || (data.Obj? && (Field(data.fields, "message") == r.value || Field(data.fields, "msg") == r.value))
    ensures data.Obj? && Truthy(Field(data.fields, "message")) ==> r == Ok(data.fields["message"])
    ensures data.Obj? && !Truthy(Field(data.fields, "message")) && Truthy(Field(data.fields, "msg")) ==>
      r == Ok(data.fields["msg"])
    ensures (&& !data.Null? && !data.Undefined?
             && !(data.Obj? && Truthy(Field(data.fields, "message")))
             && !(data.Obj? && Truthy(Field(data.fields, "msg"))))
            ==> r == Ok(Str(GenericFailure))
  {
    match Get(data, "message")
    case Err(e) => Err(e)
    case Ok(message) =>
      match Get(data, "msg")
      case Err(e) => Err(e)
      case Ok(msg) => Ok(Or(message, Or(msg, Str(GenericFailure))))
  }

  /** How `request` settles for a given outcome: the parsed body of an ok response,
      and otherwise the error it throws. `response.json()` runs before the ok check,
      so a body that is not JSON rejects even an ok response, and with a SyntaxError
      rather than the generic message. Nothing is swallowed. */
  function Settle(outcome: FetchOutcome): (r: Result<Value, Exception>)
    ensures r.Ok? <==> outcome.Response? && outcome.ok && outcome.body.Parsed?
    ensures r.Ok? ==> r.value == outcome.body.data
    ensures outcome.TransportFailure? ==> r == Err(FetchFailed)
    ensures outcome.Response? && outcome.body.Unparseable? ==> r == Err(SyntaxError)
    ensures outcome.Response? && !outcome.ok && outcome.body.Parsed? ==>
      var m := FailureMessage(outcome.body.data);
      r == if m.Ok? then Err(Error(ToJsString(m.value))) else Err(m.error)
  {
    match outcome
    case TransportFailure => Err(FetchFailed)
    case Response(_, ok, body) =>
      match body
      case Unparseable => Err(SyntaxError)
      case Parsed(data) =>
        if ok then Ok(data)
        else match FailureMessage(data)
          case Ok(m) => Err(Error(ToJsString(m)))
          case Err(e) => Err(e)
  }

  /** The thrown error carries only a message: the HTTP status never reaches the caller. */
  lemma StatusNotReported(s1: int, s2: int, ok: bool, body: Body)
    ensures Settle(Response(s1, ok, body)) == Settle(Response(s2, ok, body))
  {
  }

  /** `response.courses || response`: the named field when it is truthy, otherwise the
      whole body; a failed request stays failed. */
  function Unwrap(response: Result<Value, Exception>, key: string): (r: Result<Value, Exception>)
    ensures response.Err? ==> r == response
    ensures response.Ok? && !response.value.Null? && !response.value.Undefined? ==> r.Ok?
    ensures response.Ok? && (response.value.Null? || response.value.Undefined?) ==> r == Err(TypeError)
    ensures r.Ok? && r.value != response.value ==>
      response.value.Obj? && key in response.value.fields && r.value == response.value.fields[key] && Truthy(r.value)
    ensures response.Ok? && response.value.Obj? && Truthy(Field(response.value.fields, key)) ==>
      r == Ok(response.value.fields[key])
    ensures response.Ok? && response.value.Arr? ==> r == response
  {
    match response
    case Err(_) => response
    case Ok(body) =>
      match Get(body, key)
      case Err(e) => Err(e)
      case Ok(field) => Ok(Or(field, body))
  }

  /** A bare array and an envelope holding that array unwrap to the same list. */
  lemma EnvelopeTolerance(xs: seq<Value>, key: string)
    ensures Unwrap(Ok(Arr(xs)), key) == Ok(Arr(xs))
    ensures Unwrap(Ok(Obj(map[key := Arr(xs)])), key) == Ok(Arr(xs))
  {
  }

  /** The two resource kinds the backend serves. */
  datatype Resource = Courses | Categories

  /** The list/create path of a resource. */
  function CollectionPath(res: Resource): string {
    match res
    case Courses => "/admin/courses"
    case Categories => "/admin/categories"
  }

  /** The field a list response may wrap its items in. */
  function EnvelopeKey(res: Resource): string {
    match res
    case Courses => "courses"
    case Categories => "categories"
  }

  /** `/admin/courses/${id}`: the id goes through String(). */
  function ItemPath(res: Resource, id: Value): (path: string)
    ensures |path| == |CollectionPath(res)| + 1 + |ToJsString(id)|
    ensures path[..|CollectionPath(res)| + 1] == CollectionPath(res) + "/"
    ensures path[|CollectionPath(res)| + 1..] == ToJsString(id)
  {
    CollectionPath(res) + "/" + ToJsString(id)
  }

  class ApiClient {
    const baseURL: string

    /** `new ApiClient()` with the environment variable as read at load time. */
    constructor (env: Option<string>)
      ensures baseURL == BaseUrl(env)
    {
      baseURL := BaseUrl(env);
    }

    /** `request(endpoint, options)`: reads the token slot, sends one request and
        settles as `Settle` says. */
    method Request(store: LocalStorage, endpoint: string, options: RequestOptions, outcome: FetchOutcome)
      returns (call: FetchCall, r: Result<Value, Exception>)
      ensures call.url == RequestUrl(baseURL, endpoint)
      ensures call.config == RequestConfig(Lookup(store.items, TokenSlot), options)
      ensures r == Settle(outcome)
    {
      var token := store.GetItem(TokenSlot);
      var config := RequestConfig(token, options);
      call := FetchCall(RequestUrl(baseURL, endpoint), config);
      if outcome.TransportFailure? {
        r := Err(FetchFailed);
        return;
      }
      if outcome.body.Unparseable? {
        r := Err(SyntaxError);
        return;
      }
      var data := outcome.body.data;
      if !outcome.ok {
        var message := FailureMessage(data);
        if message.Err? {
          r := Err(message.error);
        } else {
          r := Err(Error(ToJsString(message.value)));
        }
        return;
      }
      r := Ok(data);
    }

    /** `login(credentials)`: POST /admin/login with the credentials as body. */
    method Login(store: LocalStorage, credentials: Value, outcome: FetchOutcome)
      returns (call: FetchCall, r: Result<Value, Exception>)
      ensures call.url == baseURL + LoginPath
      ensures EffectiveVerb(call.config) == POST && call.config.body == Some(credentials)
      ensures call.config == RequestConfig(Lookup(store.items, TokenSlot), RequestOptions(Some(POST), Some(credentials), None))
      ensures r == Settle(outcome)
    {
      call, r := Request(store, LoginPath, RequestOptions(Some(POST), Some(credentials), None), outcome);
    }

    /** `getCourses()` / `getCategories()`: GET the collection and unwrap its envelope. */
    method List(store: LocalStorage, res: Resource, outcome: FetchOutcome)
      returns (call: FetchCall, r: Result<Value, Exception>)
      ensures call.url == baseURL + CollectionPath(res)
      ensures EffectiveVerb(call.config) == GET && call.config.body == None
      ensures call.config == RequestConfig(Lookup(store.items, TokenSlot), NoOptions)
      ensures r == Unwrap(Settle(outcome), EnvelopeKey(res))
    {
      var response;
      call, response := Request(store, CollectionPath(res), NoOptions, outcome);
      r := Unwrap(response, EnvelopeKey(res));
    }

    /** `createCourse(data)` / `createCategory(data)`: POST the collection. */
    method Create(store: LocalStorage, res: Resource, data: Value, outcome: FetchOutcome)
      returns (call: FetchCall, r: Result<Value, Exception>)
      ensures call.url == baseURL + CollectionPath(res)
      ensures EffectiveVerb(call.config) == POST && call.config.body == Some(data)
      ensures call.config == RequestConfig(Lookup(store.items, TokenSlot), RequestOptions(Some(POST), Some(data), None))
      ensures r == Settle(outcome)
    {
      call, r := Request(store, CollectionPath(res), RequestOptions(Some(POST), Some(data), None), outcome);
    }

    /** `updateCourse(id, data)` / `updateCategory(id, data)`: PUT the item. */
    method Update(store: LocalStorage, res: Resource, id: Value, data: Value, outcome: FetchOutcome)
      returns (call: FetchCall, r: Result<Value, Exception>)
      ensures call.url == baseURL + ItemPath(res, id)
      ensures EffectiveVerb(call.config) == PUT && call.config.body == Some(data)
      ensures call.config == RequestConfig(Lookup(store.items, TokenSlot), RequestOptions(Some(PUT), Some(data), None))
      ensures r == Settle(outcome)
    {
      call, r := Request(store, ItemPath(res, id), RequestOptions(Some(PUT), Some(data), None), outcome);
    }

    /** `deleteCourse(id)` / `deleteCategory(id)`: DELETE the item, no body. */
    method Delete(store: LocalStorage, res: Resource, id: Value, outcome: FetchOutcome)
      returns (call: FetchCall, r: Result<Value, Exception>)
      ensures call.url == baseURL + ItemPath(res, id)
      ensures EffectiveVerb(call.config) == DELETE && call.config.body == None
      ensures call.config == RequestConfig(Lookup(store.items, TokenSlot), RequestOptions(Some(DELETE), None, None))
      ensures r == Settle(outcome)
    {
      call, r := Request(store, ItemPath(res, id), RequestOptions(Some(DELETE), None, None), outcome);
    }
  }
}
