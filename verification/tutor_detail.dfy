/**
 * src/features/tutores/pages/TutorDetail.tsx: `loadData` fetches the tutor and
 * the pet catalogue as one `Promise.all` batch; linking and unlinking pets go
 * through the tutores service and reload on success.
 */
module TutorDetail {
  import opened JsValues
  import opened Api
  import TutoresService

  /** The catalogue request is written with its query string in the path. */
  const CatalogPath := "/v1/pets?size=100"
  const LinkFailed := "Erro ao vincular pet."
  const UnlinkFailed := "Erro ao desvincular."

  datatype DetailState = DetailState(tutor: Value, allPets: Value, selected: string, loading: bool)

  const Initial := DetailState(Null, Arr([]), "", true)

  /** `!id`: the route parameter is missing or empty. */
  predicate NoId(id: Option<string>) {
    !Truthy(OfOption(id))
  }

  /**
   * Two requests in flight together: both are issued before either settles,
   * so each reply depends on the history before the batch, not on the other.
   */
  function Batch(w: World, server: Server, a: Request, b: Request): (r: (World, Reply, Reply))
    ensures r.0 == w.(trace := w.trace + [a, b])
    ensures r.1 == server(w.trace, a) && r.2 == server(w.trace, b)
  {
    (w.(trace := w.trace + [a, b]), server(w.trace, a), server(w.trace, b))
  }

  /** The tutor request of the batch, as `tutoresService.getById(id)` issues it. */
  function TutorRequest(w: World, id: string): Request {
    Outgoing(w, GET, "/v1/tutores/" + id, map[], NoBody, map[])
  }

  /** The catalogue request of the batch, straight through the client. */
  function CatalogRequest(w: World): Request {
    Outgoing(w, GET, CatalogPath, map[], NoBody, map[])
  }

  function LoadData(w: World, server: Server, id: Option<string>, st: DetailState): (r: (World, DetailState))
    // Without an id nothing happens, not even the end of loading.
    ensures NoId(id) ==> r == (w, st)
    ensures !NoId(id) ==>
      && r.0 == w.(trace := w.trace + [TutorRequest(w, id.value), CatalogRequest(w)])
      && r.0.trace[|w.trace|].path == "/v1/tutores/" + id.value
      && r.0.trace[|w.trace| + 1].path == CatalogPath
      && !r.1.loading && r.1.selected == st.selected
      && var tr := server(w.trace, TutorRequest(w, id.value));
         var cr := server(w.trace, CatalogRequest(w));
         // Either request failing: nothing is replaced.
         && (tr.Err? || cr.Err? ==> r.1.tutor == st.tutor && r.1.allPets == st.allPets)
         // Both succeeding: the tutor, and the catalogue's `content` unless its body throws on access.
         && (tr.Ok? && cr.Ok? ==>
               && r.1.tutor == tr.body
               && (cr.body.Undefined? || cr.body.Null? ==> r.1.allPets == st.allPets)
               && (!(cr.body.Undefined? || cr.body.Null?) ==> r.1.allPets == Get(cr.body, "content").value))
  {
    if NoId(id) then (w, st)
    else
      var (w1, tr, cr) := Batch(w, server, TutorRequest(w, id.value), CatalogRequest(w));
      var done := st.(loading := false);
      if tr.Err? || cr.Err? then (w1, done)
      else
        match Get(cr.body, "content")
        case None => (w1, done.(tutor := tr.body))
        case Some(pets) => (w1, done.(tutor := tr.body, allPets := pets))
  }

  /** The batch is independent: issuing its two requests in the other order yields the same replies. */
  lemma BatchOrderIrrelevant(w: World, server: Server, id: string)
    ensures var (_, t1, c1) := Batch(w, server, TutorRequest(w, id), CatalogRequest(w));
      var (_, c2, t2) := Batch(w, server, CatalogRequest(w), TutorRequest(w, id));
      t1 == t2 && c1 == c2
  {
  }

  /** What a handler leaves behind, and the alert it raised. */
  datatype Handled = Handled(world: World, state: DetailState, alert: Option<string>)

  /** The `<select>`'s `onChange`. */
  function Select(st: DetailState, petId: string): (st': DetailState)
    ensures st'.selected == petId && st'.tutor == st.tutor && st'.allPets == st.allPets && st'.loading == st.loading
  {
    st.(selected := petId)
  }

  /**
   * `handleVincular`: with a selection and an id, link; on success clear the
   * selection and reload, on failure alert and keep everything.
   */
  function HandleVincular(w: World, server: Server, id: Option<string>, st: DetailState): (r: Handled)
    ensures st.selected == "" || NoId(id) ==> r == Handled(w, st, None)
    ensures !(st.selected == "" || NoId(id)) ==>
      && |w.trace| < |r.world.trace| && r.world.trace[..|w.trace|] == w.trace
      && r.world.trace[|w.trace|].verb == POST
      && r.world.trace[|w.trace|].path == "/v1/tutores/" + id.value + "/pets/" + st.selected
      && var reply := ReplyAt(server, r.world, |w.trace|);
         && (reply.Ok? ==>
               var link := TutoresService.LinkPet(w, server, id.value, st.selected).world;
               && r == Handled(LoadData(link, server, id, st.(selected := "")).0,
                               LoadData(link, server, id, st.(selected := "")).1, None)
               && r.state.selected == ""
               && |r.world.trace| == |w.trace| + 3)
         && (reply.Err? ==> |r.world.trace| == |w.trace| + 1 && r.state == st && r.alert == Some(LinkFailed))
  {
    if st.selected == "" || NoId(id) then Handled(w, st, None)
    else
      var s := TutoresService.LinkPet(w, server, id.value, st.selected);
      if s.result.Done? then
        var (w2, st2) := LoadData(s.world, server, id, st.(selected := ""));
        assert w2.trace[..|s.world.trace|] == s.world.trace;
        assert w2.trace[..|w.trace|] == w.trace && w2.trace[|w.trace|] == s.world.trace[|w.trace|] by {
          assert s.world.trace[..|w.trace|] == w.trace;
        }
        Handled(w2, st2, None)
      else Handled(s.world, st, Some(LinkFailed))
  }

  /**
   * `handleDesvincular(String(pet.id))`: with an id and the user's
   * confirmation, unlink; reload on success, alert on failure.
   */
  function HandleDesvincular(w: World, server: Server, id: Option<string>, st: DetailState, petId: Value,
                             confirmed: bool): (r: Handled)
    ensures NoId(id) || !confirmed ==> r == Handled(w, st, None)
    ensures !NoId(id) && confirmed ==>
      && |w.trace| < |r.world.trace| && r.world.trace[..|w.trace|] == w.trace
      && r.world.trace[|w.trace|].verb == DELETE
      && r.world.trace[|w.trace|].path == "/v1/tutores/" + id.value + "/pets/" + ToStr(petId)
      && var reply := ReplyAt(server, r.world, |w.trace|);
         && (reply.Ok? ==>
               var unlink := TutoresService.UnlinkPet(w, server, id.value, ToStr(petId)).world;
               && r == Handled(LoadData(unlink, server, id, st).0, LoadData(unlink, server, id, st).1, None)
               && |r.world.trace| == |w.trace| + 3 && !r.state.loading)
         && (reply.Err? ==> |r.world.trace| == |w.trace| + 1 && r.state == st && r.alert == Some(UnlinkFailed))
  {
    if NoId(id) || !confirmed then Handled(w, st, None)
    else
      var s := TutoresService.UnlinkPet(w, server, id.value, ToStr(petId));
      if s.result.Done? then
        var (w2, st2) := LoadData(s.world, server, id, st);
        assert w2.trace[..|s.world.trace|] == s.world.trace;
        assert w2.trace[..|w.trace|] == w.trace && w2.trace[|w.trace|] == s.world.trace[|w.trace|] by {
          assert s.world.trace[..|w.trace|] == w.trace;
        }
        Handled(w2, st2, None)
      else Handled(s.world, st, Some(UnlinkFailed))
  }

  /**
   * After a successful link the reload's requests come after the link in the
   * history the server sees, so a server that records links reports the new
   * pet in the reloaded tutor.
   */
  lemma ReloadSeesLink(w: World, server: Server, id: string, st: DetailState)
    requires id != "" && st.selected != ""
    requires ReplyAt(server, HandleVincular(w, server, Some(id), st).world, |w.trace|).Ok?
    ensures var r := HandleVincular(w, server, Some(id), st);
      var link := r.world.trace[|w.trace|];
      && link.verb == POST
      && r.world.trace[|w.trace| + 1].path == "/v1/tutores/" + id
      && r.world.trace[..|w.trace| + 1] == w.trace + [link]
      && r.state.tutor == (if server(w.trace + [link], r.world.trace[|w.trace| + 1]).Ok?
                              && server(w.trace + [link], r.world.trace[|w.trace| + 2]).Ok?
                           then server(w.trace + [link], r.world.trace[|w.trace| + 1]).body
                           else st.tutor)
  {
    var s := TutoresService.LinkPet(w, server, id, st.selected);
    var r := HandleVincular(w, server, Some(id), st);
    assert s.world.trace == w.trace + [s.world.trace[|w.trace|]] by {
      assert s.world.trace[..|w.trace|] == w.trace;
    }
  }

  /**
   * After a successful unlink the reload is answered against a history that
   * ends with the DELETE, so a server that records unlinks no longer reports
   * the pet in the reloaded tutor.
   */
  lemma ReloadSeesUnlink(w: World, server: Server, id: string, st: DetailState, petId: Value)
    requires id != ""
    requires ReplyAt(server, HandleDesvincular(w, server, Some(id), st, petId, true).world, |w.trace|).Ok?
    ensures var r := HandleDesvincular(w, server, Some(id), st, petId, true);
      var unlink := r.world.trace[|w.trace|];
      && unlink.verb == DELETE
      && unlink.path == "/v1/tutores/" + id + "/pets/" + ToStr(petId)
      && r.world.trace[|w.trace| + 1].path == "/v1/tutores/" + id
      && r.world.trace[..|w.trace| + 1] == w.trace + [unlink]
      && r.state.tutor == (if server(w.trace + [unlink], r.world.trace[|w.trace| + 1]).Ok?
                              && server(w.trace + [unlink], r.world.trace[|w.trace| + 2]).Ok?
                           then server(w.trace + [unlink], r.world.trace[|w.trace| + 1]).body
                           else st.tutor)
  {
    var s := TutoresService.UnlinkPet(w, server, id, ToStr(petId));
    var r := HandleDesvincular(w, server, Some(id), st, petId, true);
    assert s.world.trace == w.trace + [s.world.trace[|w.trace|]] by {
      assert s.world.trace[..|w.trace|] == w.trace;
    }
  }
}
