/**
 * The shared HTTP client of src/api/api.ts: one axios instance bound to the
 * API origin, its default headers, and the request interceptor that copies
 * the token found under storage key `token` into the `Authorization` header.
 *
 * The network is an oracle `Server` that answers a request given the
 * requests sent before it; every operation of the client appends the request
 * it sends, as it goes on the wire, to the `World`'s trace.
 */
module Api {
  import opened JsValues

  const BaseUrl := "https://pet-manager-api.geia.vip"

  /** The only storage key the request interceptor reads. */
  const TokenKey := "token"

  const Authorization := "Authorization"

  datatype Method = GET | POST | PUT | DELETE

  /** A request body: none, a JSON document, or multipart form data with one file field. */
  datatype Payload = NoBody | Json(value: Value) | Multipart(field: string)

  /** A request as it leaves the client: path relative to `BaseUrl`, serialised query parameters, final headers. */
  datatype Request = Request(
    verb: Method,
    path: string,
    params: map<string, Value>,
    payload: Payload,
    headers: map<string, string>)

  /** What the server answers: a 2xx body, or a failure status (0 stands for no response at all). */
  datatype Reply = Ok(body: Value) | Err(status: int)

  /** Why an asynchronous operation rejected. */
  datatype Failure =
    | HttpError(status: int)   // axios rejection for a non-2xx reply or a network failure
    | TypeError                // property access on a null or undefined body
    | Thrown(message: string)  // an `Error` raised by the client code itself

  datatype Outcome<+T> = Done(value: T) | Fail(failure: Failure)

  type Storage = map<string, string>

  /**
   * The instance's default `Authorization` headers. axios keeps a root slot
   * (`api.defaults.headers.Authorization`) and a `common` slot
   * (`api.defaults.headers.common['Authorization']`); both are sent, the
   * root one taking precedence.
   */
  datatype Defaults = Defaults(root: Option<string>, common: Option<string>)

  const NoDefaults := Defaults(None, None)

  /** Browser storage, the client's defaults, and every request sent so far. */
  datatype World = World(storage: Storage, defaults: Defaults, trace: seq<Request>)

  /** The remote API: the reply to a request, given the requests sent before it. */
  type Server = (seq<Request>, Request) -> Reply

  /** The state an operation leaves behind, with what it resolved to. */
  datatype Step<+T> = Step(world: World, result: Outcome<T>)

  /** `localStorage.getItem(key)`: the stored string, or `null`. */
  function GetItem(storage: Storage, key: string): Value {
    if key in storage then Str(storage[key]) else Null
  }

  /**
   * `getItem('token') || getItem('access_token')`, the token App.tsx and
   * PetForm.tsx both look up.
   */
  function EitherToken(storage: Storage): Value {
    var t := GetItem(storage, TokenKey);
    if Truthy(t) then t else GetItem(storage, "access_token")
  }

  /** A value attached by the interceptor: a non-empty string under `TokenKey`. */
  predicate HasToken(storage: Storage) {
    Truthy(GetItem(storage, TokenKey))
  }

  /**
   * The request interceptor of api.ts: with a truthy stored token, the header
   * becomes `Bearer <token>`; otherwise the headers pass through. It never
   * rejects.
   */
  function Intercept(storage: Storage, headers: map<string, string>): (h: map<string, string>)
    ensures HasToken(storage) ==> h == headers[Authorization := "Bearer " + storage[TokenKey]]
    ensures !HasToken(storage) ==> h == headers
    ensures forall k :: k in headers && k != Authorization ==> k in h && h[k] == headers[k]
  {
    if HasToken(storage) then headers[Authorization := "Bearer " + storage[TokenKey]] else headers
  }

  /** The interceptor looks at nothing in storage but the `token` entry. */
  lemma InterceptReadsOnlyToken(s1: Storage, s2: Storage, headers: map<string, string>)
    requires TokenKey in s1 <==> TokenKey in s2
    requires TokenKey in s1 ==> s1[TokenKey] == s2[TokenKey]
    ensures Intercept(s1, headers) == Intercept(s2, headers)
  {
  }

  /** Interception is idempotent. */
  lemma InterceptIdempotent(storage: Storage, headers: map<string, string>)
    ensures Intercept(storage, Intercept(storage, headers)) == Intercept(storage, headers)
  {
  }

  /** The default headers the instance contributes to every request. */
  function DefaultHeaders(d: Defaults): (h: map<string, string>)
    ensures d.root.Some? ==> h == map[Authorization := d.root.value]
    ensures d.root.None? && d.common.Some? ==> h == map[Authorization := d.common.value]
    ensures d.root.None? && d.common.None? ==> h == map[]
  {
    var h := if d.common.Some? then map[Authorization := d.common.value] else map[];
    if d.root.Some? then h[Authorization := d.root.value] else h
  }

  /** axios drops parameters whose value is `null` or `undefined` when it builds the query string. */
  function Serialize(params: map<string, Value>): (q: map<string, Value>)
    ensures forall k :: k in q <==> k in params && !params[k].Undefined? && !params[k].Null?
    ensures forall k :: k in q ==> q[k] == params[k]
  {
    map k | k in params && !params[k].Undefined? && !params[k].Null? :: params[k]
  }

  /**
   * The request the client puts on the wire: defaults, overridden by the
   * call's own headers, then passed through the request interceptor.
   */
  function Outgoing(w: World, m: Method, path: string, params: map<string, Value>, payload: Payload,
                    extra: map<string, string>): Request
  {
    Request(m, path, Serialize(params), payload, Intercept(w.storage, DefaultHeaders(w.defaults) + extra))
  }

  /** The `Authorization` header a request sent from `w` carries, if any. */
  function AuthHeader(w: World, extra: map<string, string>): (a: Option<string>)
    ensures HasToken(w.storage) ==> a == Some("Bearer " + w.storage[TokenKey])
    ensures !HasToken(w.storage) && Authorization in extra ==> a == Some(extra[Authorization])
    ensures !HasToken(w.storage) && Authorization !in extra && w.defaults.root.Some? ==> a == w.defaults.root
    ensures !HasToken(w.storage) && Authorization !in extra && w.defaults.root.None? ==> a == w.defaults.common
  {
    var h := Outgoing(w, GET, "", map[], NoBody, extra).headers;
    if Authorization in h then Some(h[Authorization]) else None
  }

  lemma OutgoingAuthHeader(w: World, m: Method, path: string, params: map<string, Value>, payload: Payload,
                           extra: map<string, string>)
    ensures var h := Outgoing(w, m, path, params, payload, extra).headers;
      (Authorization in h <==> AuthHeader(w, extra).Some?)
      && (Authorization in h ==> h[Authorization] == AuthHeader(w, extra).value)
  {
  }

  /** Sends one request: it is appended to the trace, and the server's reply is returned. */
  function Send(w: World, server: Server, req: Request): (r: (World, Reply))
    ensures r.0 == w.(trace := w.trace + [req])
    ensures r.1 == server(w.trace, req)
  {
    (w.(trace := w.trace + [req]), server(w.trace, req))
  }

  /** A rejected request as the calling code observes it. */
  function Rejection(reply: Reply): Failure
    requires reply.Err?
  {
    HttpError(reply.status)
  }

  /** `err.response?.status === 401`. */
  predicate IsUnauthorized(f: Failure) {
    f == HttpError(401)
  }

  /**
   * A full page load: storage survives, the instance is created afresh with no
   * default headers.
   */
  function Reload(w: World): (w': World)
    ensures w'.storage == w.storage && w'.trace == w.trace
    ensures w'.defaults == NoDefaults
  {
    World(w.storage, NoDefaults, w.trace)
  }

  // ---------------------------------------------------------------------------
  // Facts about traces used by every operation's contract

  /** `w'` extends `w` by exactly `n` requests and touches neither storage nor defaults. */
  predicate Sent(w: World, w': World, n: nat) {
    && w'.storage == w.storage
    && w'.defaults == w.defaults
    && |w'.trace| == |w.trace| + n
    && w'.trace[..|w.trace|] == w.trace
  }

  /** The reply the `i`-th request of a trace received. */
  function ReplyAt(server: Server, w: World, i: nat): Reply
    requires i < |w.trace|
  {
    server(w.trace[..i], w.trace[i])
  }
}
