/** The session context (context/AuthContext.jsx): the `admin` and `loading` state
    of the provider, the `adminToken` storage slot, the offline expiry check of the
    stored JSON Web Token (RFC 7519), and the `checkAuth`, `login` and `logout`
    transitions. The clock, the storage read failure and the decoding of the token's
    payload segment (`atob` then `JSON.parse`) are inputs. */
module Auth {
  import opened Js
  import opened Browser
  import opened Api

  /** The claims of a decoded payload that the code reads: the expiry `exp`
      (RFC 7519 section 4.1.4, seconds since the epoch), when present. */
  datatype Payload = Payload(exp: Option<int>)

  /** The key `checkAuth` removes when the stored token is missing or invalid. */
  const StaleSlot: string := "token"

  /** `token.split(".")[1]`: the payload segment of the JWS compact serialisation
      (RFC 7515 section 7.1); undefined when the token has no dot. */
  function PayloadSegment(token: string): (segment: Option<string>)
    ensures segment.None? <==> '.' !in token
    ensures segment.Some? ==> '.' !in segment.value
  {
    var parts := Split(token, '.');
    if |parts| >= 2 then Some(parts[1])
    else
      assert Join(parts, ".") == parts[0];
      None
  }

  /** The payload segment of `header.payload.signature` is `payload`. */
  lemma {:induction false} CompactPayloadSegment(header: string, payload: string, signature: string)
    requires '.' !in header && '.' !in payload
    ensures PayloadSegment(header + "." + payload + "." + signature) == Some(payload)
  {
    var token := header + "." + payload + "." + signature;
    assert token == header + ['.'] + (payload + ['.'] + signature);
    SplitAfterPiece(header, '.', payload + ['.'] + signature);
    SplitAfterPiece(payload, '.', signature);
  }

  /** `payload.exp && payload.exp < Date.now() / 1000`, with the clock as the
      integer milliseconds `Date.now()` returns: for an integer `exp`,
      `exp < nowMs / 1000` is `exp * 1000 < nowMs`. A missing or zero `exp` is falsy. */
  predicate Expired(p: Payload, nowMs: int) {
    p.exp.Some? && p.exp.value != 0 && p.exp.value * 1000 < nowMs
  }

  /** `isTokenValid(token)`: false for a missing or empty token, false (without
      throwing) when the payload segment is missing or does not decode, and otherwise
      true unless the payload's `exp` has passed. */
  function IsTokenValid(token: Option<string>, decode: string -> Option<Payload>, nowMs: int): (valid: bool)
    ensures !HasToken(token) ==> !valid
    ensures HasToken(token) && PayloadSegment(token.value).None? ==> !valid
    ensures valid ==> decode(PayloadSegment(token.value).value).Some?
    ensures valid ==> !Expired(decode(PayloadSegment(token.value).value).value, nowMs)
  {
    if !HasToken(token) then false
    else
      match PayloadSegment(token.value)
      // atob(undefined) decodes the string "undefined", which is not base64 and throws
      case None => false
      case Some(segment) =>
        match decode(segment)
        case None => false
        case Some(p) => !Expired(p, nowMs)
  }

  /** A decodable token is invalid exactly when its `exp` is present, non-zero and
      strictly before now: an `exp` equal to now, a zero `exp` and a missing `exp`
      all count as valid. */
  lemma ExpiryRule(token: string, decode: string -> Option<Payload>, nowMs: int, p: Payload)
    requires token != "" && PayloadSegment(token).Some? && decode(PayloadSegment(token).value) == Some(p)
    ensures !IsTokenValid(Some(token), decode, nowMs) <==> p.exp.Some? && p.exp.value != 0 && p.exp.value * 1000 < nowMs
    ensures p.exp.None? ==> IsTokenValid(Some(token), decode, nowMs)
    ensures p.exp == Some(0) ==> IsTokenValid(Some(token), decode, nowMs)
    ensures p.exp.Some? && p.exp.value * 1000 == nowMs ==> IsTokenValid(Some(token), decode, nowMs)
  {
  }

  /** Validity only decays: a token valid now was valid at every earlier time. */
  lemma ValidityIsMonotone(token: Option<string>, decode: string -> Option<Payload>, earlier: int, later: int)
    requires earlier <= later && IsTokenValid(token, decode, later)
    ensures IsTokenValid(token, decode, earlier)
  {
  }

  /** The `admin` state: `{ token }`. */
  datatype Admin = Admin(token: Value)

  /** A snapshot of the session: the storage, `admin` (null is `None`) and `loading`. */
  datatype Session = Session(storage: map<string, string>, admin: Option<Admin>, loading: bool)

  /** `checkAuth()`: `loading` ends false on every path. A valid stored token becomes
      the admin. A missing or invalid one leaves `admin` as it was and removes the
      key "token", not "adminToken", so the stale token stays in its slot. Only when
      reading storage throws are the slot and `admin` cleared. */
  function CheckAuthNext(s: Session, readFails: bool, decode: string -> Option<Payload>, nowMs: int): (t: Session)
    ensures !t.loading
    ensures readFails ==> t.admin == None && t.storage == s.storage - {TokenSlot}
    ensures !readFails ==> Lookup(t.storage, TokenSlot) == Lookup(s.storage, TokenSlot)
    ensures !readFails && IsTokenValid(Lookup(s.storage, TokenSlot), decode, nowMs) ==>
      t.storage == s.storage && t.admin == Some(Admin(Str(s.storage[TokenSlot])))
    ensures !readFails && !IsTokenValid(Lookup(s.storage, TokenSlot), decode, nowMs) ==>
      t.storage == s.storage - {StaleSlot} && t.admin == s.admin
  {
    if readFails then Session(s.storage - {TokenSlot}, None, false)
    else
      var token := Lookup(s.storage, TokenSlot);
      if !HasToken(token) || !IsTokenValid(token, decode, nowMs) then
        Session(s.storage - {StaleSlot}, s.admin, false)
      else
        Session(s.storage, Some(Admin(Str(token.value))), false)
  }

  /** Running `checkAuth` again with the same inputs changes nothing more. */
  lemma CheckAuthIdempotent(s: Session, readFails: bool, decode: string -> Option<Payload>, nowMs: int)
    ensures CheckAuthNext(CheckAuthNext(s, readFails, decode, nowMs), readFails, decode, nowMs)
         == CheckAuthNext(s, readFails, decode, nowMs)
  {
  }

  /** An expired token survives `checkAuth` in its slot and keeps being sent as the
      bearer credential on every later request. */
  lemma ExpiredTokenStillSent(s: Session, decode: string -> Option<Payload>, nowMs: int, token: string, p: Payload)
    requires TokenSlot in s.storage && s.storage[TokenSlot] == token && token != ""
    requires PayloadSegment(token).Some? && decode(PayloadSegment(token).value) == Some(p) && Expired(p, nowMs)
    ensures var t := CheckAuthNext(s, false, decode, nowMs);
      && t.admin == s.admin
      && RequestConfig(Lookup(t.storage, TokenSlot), NoOptions).headers[Authorization] == "Bearer " + token
  {
  }

  /** The outcome of `login`: the next session and what the call returns or throws. */
  datatype LoginStep = LoginStep(next: Session, result: Result<Value, Exception>)

  /** `login(credentials)` given how the login request settled. A failure is rethrown
      with the session untouched; so is the TypeError of a null response body. On
      success `String(response.token)` goes into the slot, `{ token }` becomes the
      admin, and the response is returned. */
  function LoginNext(s: Session, response: Result<Value, Exception>): (step: LoginStep)
    ensures step.result.Err? ==> step.next == s
    ensures response.Err? ==> step.result == response
    ensures step.result.Ok? <==> response.Ok? && !response.value.Null? && !response.value.Undefined?
    ensures step.result.Ok? ==> step.result == response
    ensures step.result.Ok? ==>
      var token := Get(response.value, "token").value;
      && step.next.storage == s.storage[TokenSlot := ToJsString(token)]
      && step.next.admin == Some(Admin(token))
      && step.next.loading == s.loading
  {
    match response
    case Err(_) => LoginStep(s, response)
    case Ok(body) =>
      match Get(body, "token")
      case Err(e) => LoginStep(s, Err(e))
      case Ok(token) => LoginStep(Session(s.storage[TokenSlot := ToJsString(token)], Some(Admin(token)), s.loading), response)
  }

  /** A request issued after a successful login carries the newly issued token. */
  lemma LoginThenRequestAuthorized(s: Session, fields: map<string, Value>, token: string)
    requires "token" in fields && fields["token"] == Str(token) && token != ""
    ensures var step := LoginNext(s, Ok(Obj(fields)));
      && step.result == Ok(Obj(fields))
      && step.next.admin == Some(Admin(Str(token)))
      && RequestConfig(Lookup(step.next.storage, TokenSlot), NoOptions).headers[Authorization] == "Bearer " + token
  {
  }

  /** `logout()`: removes the slot and clears `admin`. */
  function LogoutNext(s: Session): (t: Session)
    ensures TokenSlot !in t.storage && t.admin == None && t.loading == s.loading
    ensures forall k :: k != TokenSlot && k in s.storage ==> k in t.storage && t.storage[k] == s.storage[k]
    ensures t.storage.Keys == s.storage.Keys - {TokenSlot}
  {
    Session(s.storage - {TokenSlot}, None, s.loading)
  }

  /** Logging out twice is logging out once. */
  lemma LogoutIdempotent(s: Session)
    ensures LogoutNext(LogoutNext(s)) == LogoutNext(s)
  {
  }

  /** No request issued after logout carries a bearer header. */
  lemma LogoutThenNoAuthorization(s: Session, endpointOptions: RequestOptions)
    requires endpointOptions.headers.None?
    ensures Authorization !in RequestConfig(Lookup(LogoutNext(s).storage, TokenSlot), endpointOptions).headers
  {
  }

  /** The provider's state. The storage is shared with the API client. */
  class AuthProvider {
    var admin: Option<Admin>
    var loading: bool

    /** `useState(null)` and `useState(true)` */
    constructor ()
      ensures admin == None && loading
    {
      admin := None;
      loading := true;
    }

    function State(store: LocalStorage): Session
      reads this, store
    {
      Session(store.items, admin, loading)
    }

    method CheckAuth(store: LocalStorage, readFails: bool, decode: string -> Option<Payload>, nowMs: int)
      modifies this, store
      ensures State(store) == CheckAuthNext(old(State(store)), readFails, decode, nowMs)
    {
      loading := true;
      if readFails {
        // the catch block: getItem threw
        store.RemoveItem(TokenSlot);
        admin := None;
      } else {
        var token := store.GetItem(TokenSlot);
        if !HasToken(token) || !IsTokenValid(token, decode, nowMs) {
          store.RemoveItem(StaleSlot);
          loading := false;
          return;
        }
        admin := Some(Admin(Str(token.value)));
      }
      loading := false;
    }

    method Login(store: LocalStorage, api: ApiClient, credentials: Value, outcome: FetchOutcome)
      returns (call: FetchCall, r: Result<Value, Exception>)
      modifies this, store
      ensures call.url == api.baseURL + LoginPath
      ensures call.config == RequestConfig(Lookup(old(store.items), TokenSlot), RequestOptions(Some(POST), Some(credentials), None))
      ensures LoginStep(State(store), r) == LoginNext(old(State(store)), Settle(outcome))
    {
      var response;
      call, response := api.Login(store, credentials, outcome);
      if response.Err? {
        r := response;
        return;
      }
      var token := Get(response.value, "token");
      if token.Err? {
        r := Err(token.error);
        return;
      }
      store.SetItem(TokenSlot, token.value);
      admin := Some(Admin(token.value));
      r := response;
    }

    method Logout(store: LocalStorage)
      modifies this, store
      ensures State(store) == LogoutNext(old(State(store)))
    {
      store.RemoveItem(TokenSlot);
      admin := None;
    }
  }

  /** The value the provider exposes (its `login` and `logout` are the methods above). */
  datatype AuthContextValue = AuthContextValue(admin: Option<Admin>, loading: bool)

  const OutsideProvider: string := "useAuth must be used within an AuthProvider"

  /** `useAuth()`: the provider's value, or an Error outside any provider. */
  function UseAuth(context: Option<AuthContextValue>): (r: Result<AuthContextValue, Exception>)
    ensures r.Ok? <==> context.Some?
    ensures r.Ok? ==> r.value == context.value
    ensures r.Err? ==> r.error == Error(OutsideProvider)
  {
    match context
    case None => Err(Error(OutsideProvider))
    case Some(value) => Ok(value)
  }
}
