/**
 * `handleLogin` of src/features/Auth/LoginPage.tsx: post the credentials,
 * insist on an `access_token`, keep both tokens in storage, set the
 * `common` default header and go to `/pets`; every failure shows one generic
 * message.
 */
module LoginPage {
  import opened JsValues
  import opened Api
  import Resource

  const LoginPath := "/autenticacao/login"
  const AccessKey := "access_token"
  const RefreshKey := "refresh_token"
  const InvalidCredentials := "Credenciais inválidas. Usuário ou senha incorretos."

  datatype LoginState = LoginState(loading: bool, error: string)

  /**
   * What a submit leaves behind: the world, the state while the request is
   * in flight, the final state, and where the page navigated.
   */
  datatype LoginRun = LoginRun(world: World, during: LoginState, state: LoginState, nav: Option<string>)

  function Body(username: string, password: string): Value {
    Obj(map["username" := Str(username), "password" := Str(password)])
  }

  /** The tokens a successful reply carries, or the reason `handleLogin` fails on it. */
  function Tokens(body: Value): Outcome<(Value, Value)> {
    match Get(body, AccessKey)
    case None => Fail(TypeError)
    case Some(access) =>
      if !Truthy(access) then Fail(Thrown("Token não retornado"))
      else Done((access, Get(body, RefreshKey).value))
  }

  function HandleLogin(w: World, server: Server, st: LoginState, username: string, password: string): (r: LoginRun)
    // Before the request: loading on, error cleared.
    ensures r.during == LoginState(true, "")
    ensures |r.world.trace| == |w.trace| + 1 && r.world.trace[..|w.trace|] == w.trace
    ensures var req := r.world.trace[|w.trace|];
      && req.verb == POST && req.path == LoginPath && req.payload == Json(Body(username, password))
      && Resource.Through(w, req, map[])
    // Afterwards loading is off, whatever happened.
    ensures !r.state.loading
    ensures var reply := server(w.trace, r.world.trace[|w.trace|]);
      var ok := reply.Ok? && Tokens(reply.body).Done?;
      // Success: both tokens stored under their own keys, the common default header set, on to /pets.
      && (ok ==>
            var (access, refresh) := Tokens(reply.body).value;
            && r.world.storage == w.storage[AccessKey := ToStr(access)][RefreshKey := ToStr(refresh)]
            && r.world.defaults == w.defaults.(common := Some("Bearer " + ToStr(access)))
            && r.nav == Some("/pets")
            && r.state.error == "")
      // Any failure, HTTP or a missing token: nothing stored, no navigation, the same message.
      && (!ok ==>
            && r.world.storage == w.storage && r.world.defaults == w.defaults
            && r.nav.None?
            && r.state.error == InvalidCredentials)
  {
    var during := LoginState(true, "");
    var req := Outgoing(w, POST, LoginPath, map[], Json(Body(username, password)), map[]);
    var (w1, reply) := Send(w, server, req);
    var failed := LoginRun(w1, during, LoginState(false, InvalidCredentials), None);
    if reply.Err? then failed
    else
      match Tokens(reply.body)
      case Fail(_) => failed
      case Done((access, refresh)) =>
        var storage := w1.storage[AccessKey := ToStr(access)][RefreshKey := ToStr(refresh)];
        var defaults := w1.defaults.(common := Some("Bearer " + ToStr(access)));
        LoginRun(World(storage, defaults, w1.trace), during, LoginState(false, ""), Some("/pets"))
  }

  /** A reply without `access_token` fails exactly like a rejected request. */
  lemma MissingTokenIsInvalidCredentials(w: World, server: Server, st: LoginState, username: string, password: string,
                                         other: Value)
    requires Get(other, AccessKey) == Some(Undefined)
    requires var req := HandleLogin(w, server, st, username, password).world.trace[|w.trace|];
      server(w.trace, req) == Ok(other)
    ensures var r := HandleLogin(w, server, st, username, password);
      r.state == LoginState(false, InvalidCredentials) && r.nav.None? && r.world.storage == w.storage
  {
  }
}
