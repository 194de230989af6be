/**
 * src/api/auth.ts: a `login` that stores `data.token` under key `token`
 * without checking it, and a second registration of the same request
 * interceptor on the shared client.
 */
module AuthTs {
  import opened JsValues
  import opened Api
  import Resource

  const LoginPath := "/autenticacao/login"

  /** The login body `{ email, senha }`. */
  function Credentials(email: string, senha: string): Value {
    Obj(map["email" := Str(email), "senha" := Str(senha)])
  }

  /**
   * `login(email, senha)`: one POST of the credentials; on success
   * `data.token`, whatever it is, is written to `token` as a string, and the
   * body is returned unchanged.
   */
  function Login(w: World, server: Server, email: string, senha: string): (s: Step<Value>)
    ensures s.world.defaults == w.defaults
    ensures |s.world.trace| == |w.trace| + 1 && s.world.trace[..|w.trace|] == w.trace
    ensures var req := s.world.trace[|w.trace|];
      && req.verb == POST && req.path == LoginPath && req.payload == Json(Credentials(email, senha))
      && Resource.Through(w, req, map[])
    ensures var reply := server(w.trace, s.world.trace[|w.trace|]);
      && (reply.Err? ==> s.world.storage == w.storage && s.result == Fail(HttpError(reply.status)))
      && (reply.Ok? && (reply.body.Null? || reply.body.Undefined?) ==>
            s.world.storage == w.storage && s.result == Fail(TypeError))
      && (reply.Ok? && !reply.body.Null? && !reply.body.Undefined? ==>
            && s.world.storage == w.storage[TokenKey := ToStr(Get(reply.body, "token").value)]
            && s.result == Done(reply.body))
  {
    var req := Outgoing(w, POST, LoginPath, map[], Json(Credentials(email, senha)), map[]);
    var (w1, reply) := Send(w, server, req);
    if reply.Err? then Step(w1, Fail(Rejection(reply)))
    else
      match Get(reply.body, "token")
      case None => Step(w1, Fail(TypeError))
      case Some(token) => Step(w1.(storage := w1.storage[TokenKey := ToStr(token)]), Done(reply.body))
  }

  /** The request interceptors registered on the client, `n` copies of the same one, applied in turn. */
  function InterceptAll(storage: Storage, headers: map<string, string>, n: nat): map<string, string>
    decreases n
  {
    if n == 0 then headers else Intercept(storage, InterceptAll(storage, headers, n - 1))
  }

  /**
   * Registering this module's interceptor next to the one of api.ts changes
   * nothing: any number of copies yields the headers of one.
   */
  lemma {:induction false} DuplicateInterceptorHarmless(storage: Storage, headers: map<string, string>, n: nat)
    requires n >= 1
    ensures InterceptAll(storage, headers, n) == Intercept(storage, headers)
    decreases n
  {
    if n > 1 {
      DuplicateInterceptorHarmless(storage, headers, n - 1);
      InterceptIdempotent(storage, headers);
    }
  }

  /**
   * After a successful login whose token reads as a non-empty string, every
   * later request carries `Bearer <token>`: the key written is the key the
   * interceptor reads.
   */
  lemma LoginThenRequestCarriesToken(w: World, server: Server, email: string, senha: string,
                                     extra: map<string, string>)
    requires var s := Login(w, server, email, senha);
      s.result.Done? && ToStr(Get(s.result.value, "token").value) != ""
    ensures var s := Login(w, server, email, senha);
      AuthHeader(s.world, extra) == Some("Bearer " + ToStr(Get(s.result.value, "token").value))
  {
  }

  /**
   * A successful reply without a token still writes the key: the text
   * "undefined" is stored and later requests carry `Bearer undefined`.
   */
  lemma LoginWithoutTokenStoresUndefined(w: World, server: Server, email: string, senha: string)
    requires var s := Login(w, server, email, senha);
      server(w.trace, s.world.trace[|w.trace|]) == Ok(Obj(map[]))
    ensures var s := Login(w, server, email, senha);
      && s.world.storage[TokenKey] == "undefined"
      && AuthHeader(s.world, map[]) == Some("Bearer undefined")
  {
    var s := Login(w, server, email, senha);
    assert Get(Obj(map[]), "token") == Some(Undefined);
    assert HasToken(s.world.storage);
    assert "Bearer " + "undefined" == "Bearer undefined";
  }
}
