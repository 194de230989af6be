/**
 * src/App.tsx: when the navigation bar shows, what its logout does, and the
 * route table with its redirects. No route consults storage.
 */
module App {
  import opened JsValues
  import opened Api

  const AccessKey := "access_token"

  /** The Navbar renders when `getItem('token') || getItem('access_token')` is truthy. */
  predicate NavbarShown(storage: Storage) {
    Truthy(EitherToken(storage))
  }

  /** The Navbar shows exactly when one of the two keys holds a non-empty string. */
  lemma NavbarShownIff(storage: Storage)
    ensures NavbarShown(storage) <==>
      (TokenKey in storage && storage[TokenKey] != "") || (AccessKey in storage && storage[AccessKey] != "")
  {
  }

  /**
   * `handleLogout`: remove `token` and `access_token`, then go to `/login`.
   * Every other key, `@PetManager:token` and `refresh_token` included, stays.
   */
  function Logout(storage: Storage): (r: (Storage, string))
    ensures TokenKey !in r.0 && AccessKey !in r.0
    ensures r.0.Keys == storage.Keys - {TokenKey, AccessKey}
    ensures forall k :: k in r.0 ==> r.0[k] == storage[k]
    ensures !NavbarShown(r.0)
    ensures r.1 == "/login"
  {
    (storage - {TokenKey, AccessKey}, "/login")
  }

  /** What the router renders for a location. */
  datatype Screen =
    | Redirect(to: string)
    | LoginScreen
    | PetsList
    | NewPet
    | PetDetailScreen(petId: string)
    | TutoresList
    | NewTutor
    | TutorDetailScreen(tutorId: string)

  /** `rest` is one non-empty path segment, as a `:id` parameter matches. */
  predicate Segment(rest: string) {
    rest != "" && forall i :: 0 <= i < |rest| ==> rest[i] != '/'
  }

  /** The `/<prefix>/...` location's remainder is a single segment. */
  predicate Under(path: string, prefix: string) {
    |path| > |prefix| && path[..|prefix|] == prefix && Segment(path[|prefix|..])
  }

  /**
   * The route table. A static segment (`novo`) wins over `:id`; `/` and every
   * location no route matches redirect to `/login`.
   */
  function Route(path: string): (s: Screen)
    ensures s.Redirect? ==> s.to == "/login"
    ensures path == "/" ==> s == Redirect("/login")
    ensures s.Redirect? <==>
      !(path in {"/login", "/pets", "/pets/novo", "/tutores", "/tutores/novo"}
        || Under(path, "/pets/") || Under(path, "/tutores/"))
    ensures path == "/login" ==> s == LoginScreen
    ensures path == "/pets" ==> s == PetsList
    ensures path == "/pets/novo" ==> s == NewPet
    ensures path == "/tutores" ==> s == TutoresList
    ensures path == "/tutores/novo" ==> s == NewTutor
    ensures Under(path, "/pets/") && path != "/pets/novo" ==> s == PetDetailScreen(path[6..])
    ensures Under(path, "/tutores/") && path != "/tutores/novo" ==> s == TutorDetailScreen(path[9..])
  {
    assert Under(path, "/pets/") ==> path[..6][1] == path[1] == 'p';
    assert Under(path, "/tutores/") ==> path[..9][1] == path[1] == 't';
    if path == "/login" then LoginScreen
    else if path == "/pets" then PetsList
    else if path == "/pets/novo" then NewPet
    else if Under(path, "/pets/") then PetDetailScreen(path[6..])
    else if path == "/tutores" then TutoresList
    else if path == "/tutores/novo" then NewTutor
    else if Under(path, "/tutores/") then TutorDetailScreen(path[9..])
    else Redirect("/login")
  }

  /** `novo` is also a single segment, so `/pets/:id` would match it; the static route wins. */
  lemma NovoWinsOverId()
    ensures Under("/pets/novo", "/pets/") && Route("/pets/novo") == NewPet
    ensures Under("/tutores/novo", "/tutores/") && Route("/tutores/novo") == NewTutor
  {
    assert "/pets/novo"[..6] == "/pets/" && "/pets/novo"[6..] == "novo";
    assert "/tutores/novo"[..9] == "/tutores/" && "/tutores/novo"[9..] == "novo";
  }
}
