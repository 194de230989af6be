/**
 * src/api/auth.service.ts: a `login` that keeps a truthy token under
 * `@PetManager:token` and as the client's root default header, and the
 * matching `logout`.
 */
module AuthService {
  import opened JsValues
  import opened Api
  import Resource
  import AuthTs

  const LoginPath := "/v1/auth/login"
  const SessionKey := "@PetManager:token"

  /**
   * `login(email, senha)`: one POST of the credentials. A truthy
   * `data.token` is stored under `SessionKey` and becomes the root default
   * `Authorization`; a falsy one leaves storage and defaults alone without
   * an error. Either way the body is returned.
   */
  function Login(w: World, server: Server, email: string, senha: string): (s: Step<Value>)
    ensures |s.world.trace| == |w.trace| + 1 && s.world.trace[..|w.trace|] == w.trace
    ensures var req := s.world.trace[|w.trace|];
      && req.verb == POST && req.path == LoginPath && req.payload == Json(AuthTs.Credentials(email, senha))
      && Resource.Through(w, req, map[])
    ensures var reply := server(w.trace, s.world.trace[|w.trace|]);
      && (reply.Err? ==> s.world.storage == w.storage && s.world.defaults == w.defaults
                         && s.result == Fail(HttpError(reply.status)))
      && (reply.Ok? && (reply.body.Null? || reply.body.Undefined?) ==>
            s.world.storage == w.storage && s.world.defaults == w.defaults && s.result == Fail(TypeError))
      && (reply.Ok? && !reply.body.Null? && !reply.body.Undefined? ==>
            var token := Get(reply.body, "token").value;
            && s.result == Done(reply.body)
            && (Truthy(token) ==>
                  && s.world.storage == w.storage[SessionKey := ToStr(token)]
                  && s.world.defaults == w.defaults.(root := Some("Bearer " + ToStr(token))))
            && (!Truthy(token) ==> s.world.storage == w.storage && s.world.defaults == w.defaults))
  {
    var req := Outgoing(w, POST, LoginPath, map[], Json(AuthTs.Credentials(email, senha)), map[]);
    var (w1, reply) := Send(w, server, req);
    if reply.Err? then Step(w1, Fail(Rejection(reply)))
    else
      match Get(reply.body, "token")
      case None => Step(w1, Fail(TypeError))
      case Some(token) =>
        if Truthy(token) then
          var text := ToStr(token);
          Step(World(w1.storage[SessionKey := text], w1.defaults.(root := Some("Bearer " + text)), w1.trace),
               Done(reply.body))
        else
          Step(w1, Done(reply.body))
  }

  /** `logout()`: drop the stored key and the root default header; nothing is sent. */
  function Logout(w: World): (w': World)
    ensures SessionKey !in w'.storage && w'.defaults.root.None?
    ensures forall k :: k in w.storage && k != SessionKey ==> k in w'.storage && w'.storage[k] == w.storage[k]
    ensures w'.storage.Keys == w.storage.Keys - {SessionKey}
    ensures w'.defaults.common == w.defaults.common && w'.trace == w.trace
  {
    World(w.storage - {SessionKey}, w.defaults.(root := None), w.trace)
  }

  /** `login` then `logout`: the key is gone and no root default header is left. */
  lemma LoginThenLogout(w: World, server: Server, email: string, senha: string)
    ensures var w' := Logout(Login(w, server, email, senha).world);
      && SessionKey !in w'.storage
      && w'.defaults.root.None?
      && w'.defaults.common == w.defaults.common
      && w'.storage.Keys == w.storage.Keys - {SessionKey}
  {
  }

  /**
   * The key this login writes is not the key the interceptor reads: a
   * successful login leaves the interceptor's decision unchanged, so only the
   * root default header authenticates later requests. A page reload, which
   * drops defaults, leaves every request without a header of its own
   * unauthenticated: no request carries the session token again.
   */
  lemma SessionKeyInvisibleToInterceptor(w: World, server: Server, email: string, senha: string)
    requires !HasToken(w.storage)
    requires var s := Login(w, server, email, senha);
      s.result.Done? && Truthy(Get(s.result.value, "token").value)
    ensures var s := Login(w, server, email, senha);
      var token := ToStr(Get(s.result.value, "token").value);
      && !HasToken(s.world.storage)
      && AuthHeader(s.world, map[]) == Some("Bearer " + token)
      && AuthHeader(Reload(s.world), map[]) == None
  {
  }
}
