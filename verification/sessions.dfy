/**
 * Whole sessions across modules: the login page, the navigation bar's logout
 * and a full page reload, and which `Authorization` header the next request
 * carries after each.
 */
module Sessions {
  import opened JsValues
  import opened Api
  import LoginPage
  import App
  import PetForm

  /** The login page's request for `username`/`password` from `w`. */
  function LoginRequest(w: World, username: string, password: string): Request {
    Outgoing(w, POST, LoginPage.LoginPath, map[], Json(LoginPage.Body(username, password)), map[])
  }

  /**
   * A successful login on the login page authenticates the following requests
   * through the `common` default only: after a page reload the navigation bar
   * still shows, because it reads `access_token`, but every request without a
   * header of its own (all service calls) goes out without `Authorization`,
   * because the interceptor reads only `token`. The pet form, which builds its
   * own header from `token` or else `access_token`, still sends the token.
   */
  lemma PageLoginLostOnReload(w: World, server: Server, st: LoginPage.LoginState, username: string,
                              password: string, body: Value, access: string, pet: PetForm.Fields)
    requires TokenKey !in w.storage && w.defaults.root.None?
    requires server(w.trace, LoginRequest(w, username, password)) == Ok(body)
    requires Get(body, LoginPage.AccessKey) == Some(Str(access)) && access != ""
    ensures var r := LoginPage.HandleLogin(w, server, st, username, password);
      && r.nav == Some("/pets")
      && AuthHeader(r.world, map[]) == Some("Bearer " + access)
      && App.NavbarShown(Reload(r.world).storage)
      && AuthHeader(Reload(r.world), map[]).None?
      && var after := Reload(r.world);
         PetForm.Submit(after, server, pet, false).0.trace[|after.trace|].headers[Authorization] == "Bearer " + access
  {
    var r := LoginPage.HandleLogin(w, server, st, username, password);
    assert r.world.trace[|w.trace|] == LoginRequest(w, username, password);
    assert LoginPage.Tokens(body).Done?;
    var s := r.world.storage;
    assert s[App.AccessKey] == access;
    assert !HasToken(s);
    App.NavbarShownIff(s);
    PetForm.HeaderFallback(Reload(r.world), server, pet);
  }

  /**
   * The navigation bar's logout clears storage only: until the page reloads,
   * requests still carry the header the login page put in the defaults,
   * although the navigation bar is gone.
   */
  lemma LogoutKeepsDefaultHeader(w: World, server: Server, st: LoginPage.LoginState, username: string,
                                 password: string, body: Value, access: string)
    requires w.defaults.root.None?
    requires server(w.trace, LoginRequest(w, username, password)) == Ok(body)
    requires Get(body, LoginPage.AccessKey) == Some(Str(access)) && access != ""
    ensures var r := LoginPage.HandleLogin(w, server, st, username, password);
      var (storage, nav) := App.Logout(r.world.storage);
      var after := r.world.(storage := storage);
      && nav == "/login"
      && !App.NavbarShown(storage)
      && AuthHeader(after, map[]) == Some("Bearer " + access)
      && AuthHeader(Reload(after), map[]).None?
  {
    var r := LoginPage.HandleLogin(w, server, st, username, password);
    assert r.world.trace[|w.trace|] == LoginRequest(w, username, password);
    assert LoginPage.Tokens(body).Done?;
    var (storage, _) := App.Logout(r.world.storage);
    assert !HasToken(storage);
  }
}
