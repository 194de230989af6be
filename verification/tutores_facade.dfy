/**
 * src/features/tutores/tutores.facade.ts: `saveTutor` maps the service's
 * outcome to navigation and an error message and rethrows; `getTutor`
 * turns any failure into `null`.
 */
module TutoresFacade {
  import opened JsValues
  import opened Api
  import TutoresService

  const SaveFailed := "Falha ao processar operação."
  const LoadFailed := "Erro ao carregar dados."

  datatype FacadeState = FacadeState(loading: bool, error: Option<string>)

  /** A `saveTutor` call: world, state while the save runs, final state, navigation, and what the call settles to. */
  datatype SaveRun = SaveRun(world: World, during: FacadeState, state: FacadeState, nav: Option<string>,
                             result: Outcome<Value>)

  function SaveTutor(w: World, server: Server, st: FacadeState, id: Option<string>, form: Value, foto: bool): (r: SaveRun)
    // The error is reset and loading raised before the service runs.
    ensures r.during == FacadeState(true, None)
    // The requests are exactly the service's.
    ensures r.world == TutoresService.Save(w, server, id, form, foto).world
    // `finally`: loading is off whatever the outcome.
    ensures !r.state.loading
    ensures var s := TutoresService.Save(w, server, id, form, foto);
      // Success: on to /tutores, no error.
      && (s.result.Done? ==> r.nav == Some("/tutores") && r.state.error.None? && r.result.Done?)
      // 401: to /login, no message.
      && (s.result.Fail? && IsUnauthorized(s.result.failure) ==> r.nav == Some("/login") && r.state.error.None?)
      // Anything else: the generic message, no navigation.
      && (s.result.Fail? && !IsUnauthorized(s.result.failure) ==> r.nav.None? && r.state.error == Some(SaveFailed))
      // Every failure is rethrown as is.
      && (s.result.Fail? ==> r.result == s.result)
  {
    var during := FacadeState(true, None);
    var s := TutoresService.Save(w, server, id, form, foto);
    match s.result
    case Done(_) => SaveRun(s.world, during, FacadeState(false, None), Some("/tutores"), Done(Undefined))
    case Fail(f) =>
      if IsUnauthorized(f) then SaveRun(s.world, during, FacadeState(false, None), Some("/login"), s.result)
      else SaveRun(s.world, during, FacadeState(false, Some(SaveFailed)), None, s.result)
  }

  /** A `getTutor` call: world, final state, and the tutor or `null`; it never rejects. */
  datatype GetRun = GetRun(world: World, state: FacadeState, tutor: Value)

  function GetTutor(w: World, server: Server, st: FacadeState, id: string): (r: GetRun)
    ensures r.world == TutoresService.GetById(w, server, id).world
    ensures var reply := ReplyAt(server, r.world, |w.trace|);
      && (reply.Ok? ==> r.tutor == reply.body && r.state == st)
      && (reply.Err? ==> r.tutor == Null && r.state == st.(error := Some(LoadFailed)))
  {
    var s := TutoresService.GetById(w, server, id);
    match s.result
    case Done(t) => GetRun(s.world, st, t)
    case Fail(_) => GetRun(s.world, st.(error := Some(LoadFailed)), Null)
  }
}
