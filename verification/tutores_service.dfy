/**
 * src/features/tutores/tutores.service.ts: listing, lookup, the two-phase
 * save whose upload failure propagates, and linking/unlinking pets.
 */
module TutoresService {
  import opened JsValues
  import opened Api
  import Resource

  const Base := "/v1/tutores"
  const PageSize := 10

  /** The multipart field this service sends the photo under. */
  const PhotoField := "file"

  /** `list(page = 0, nome = '')`: JavaScript default parameters fill in missing arguments. */
  function ListParams(page: Option<int>, nome: Option<string>): map<string, Value> {
    var p := if page.Some? then page.value else 0;
    var n := if nome.Some? then nome.value else "";
    map["page" := Num(p), "size" := Num(PageSize), "nome" := Str(n)]
  }

  /**
   * `list(page, nome)`: one GET `/v1/tutores` with exactly `page`, `size`
   * and `nome`; the name is sent even when empty.
   */
  function List(w: World, server: Server, page: Option<int>, nome: Option<string>): (s: Step<Value>)
    ensures Sent(w, s.world, 1)
    ensures var req := s.world.trace[|w.trace|];
      && req.verb == GET && req.path == Base && req.payload == NoBody
      && req.params.Keys == {"page", "size", "nome"}
      && req.params["page"] == Num(if page.Some? then page.value else 0)
      && req.params["size"] == Num(10)
      && req.params["nome"] == Str(if nome.Some? then nome.value else "")
      && Resource.Through(w, req, map[])
    ensures Resource.Resolves(ReplyAt(server, s.world, |w.trace|), s.result)
  {
    var params := ListParams(page, nome);
    assert Serialize(params) == params;
    Resource.Fetch(w, server, GET, Base, params)
  }

  /** `getById(id)`: exactly GET `/v1/tutores/{id}`, resolving to the body. */
  function GetById(w: World, server: Server, id: string): (s: Step<Value>)
    ensures Sent(w, s.world, 1)
    ensures var req := s.world.trace[|w.trace|];
      req.verb == GET && req.path == "/v1/tutores/" + id && req.params == map[] && req.payload == NoBody
    ensures Resource.Resolves(ReplyAt(server, s.world, |w.trace|), s.result)
  {
    Resource.GetById(w, server, Base, id)
  }

  /**
   * `save(id, formData, foto)` for tutores: photo under field `file`, and a
   * failed upload rejects the call although phase 1 has already written the
   * record.
   */
  function Save(w: World, server: Server, id: Option<string>, form: Value, foto: bool): (s: Step<Value>)
    ensures |w.trace| < |s.world.trace| <= |w.trace| + 2
    ensures Sent(w, s.world, |s.world.trace| - |w.trace|)
    ensures var first := s.world.trace[|w.trace|];
      && (Resource.Updates(id) ==> first.verb == PUT && first.path == "/v1/tutores/" + id.value)
      && (!Resource.Updates(id) ==> first.verb == POST && first.path == Base)
      && first.payload == Json(form)
    ensures var r1 := ReplyAt(server, s.world, |w.trace|);
      && (r1.Err? ==> |s.world.trace| == |w.trace| + 1 && s.result == Fail(HttpError(r1.status)))
      && (r1.Ok? && Resource.PhaseOneId(id, r1.body).Some? ==>
            var current := Resource.PhaseOneId(id, r1.body).value;
            && (|s.world.trace| == |w.trace| + 2 <==> foto && Truthy(current))
            && (|s.world.trace| == |w.trace| + 1 ==> s.result == Done(current))
            && (|s.world.trace| == |w.trace| + 2 ==>
                  var upload := s.world.trace[|w.trace| + 1];
                  var r2 := ReplyAt(server, s.world, |w.trace| + 1);
                  && upload.verb == POST && upload.path == "/v1/tutores/" + ToStr(current) + "/fotos"
                  && upload.payload == Multipart("file")
                  && s.result == if r2.Ok? then Done(current) else Fail(HttpError(r2.status))))
  {
    Resource.Save(w, server, Base, PhotoField, false, id, form, foto)
  }

  /** `/v1/tutores/{tutorId}/pets/{petId}`, the link sub-resource both calls address. */
  function LinkPath(tutorId: string, petId: string): string {
    Base + "/" + tutorId + "/pets/" + petId
  }

  /** `linkPet(tutorId, petId)`: one POST to the link path, no body and no pre-check. */
  function LinkPet(w: World, server: Server, tutorId: string, petId: string): (s: Step<Value>)
    ensures Sent(w, s.world, 1)
    ensures var req := s.world.trace[|w.trace|];
      req.verb == POST && req.path == "/v1/tutores/" + tutorId + "/pets/" + petId && req.payload == NoBody
    ensures var reply := ReplyAt(server, s.world, |w.trace|);
      && (reply.Ok? ==> s.result == Done(Undefined))
      && (reply.Err? ==> s.result == Fail(HttpError(reply.status)))
  {
    var f := Resource.Fetch(w, server, POST, LinkPath(tutorId, petId), map[]);
    Step(f.world, if f.result.Done? then Done(Undefined) else f.result)
  }

  /** `unlinkPet(tutorId, petId)`: one DELETE to the link path, no pre-check. */
  function UnlinkPet(w: World, server: Server, tutorId: string, petId: string): (s: Step<Value>)
    ensures Sent(w, s.world, 1)
    ensures var req := s.world.trace[|w.trace|];
      req.verb == DELETE && req.path == "/v1/tutores/" + tutorId + "/pets/" + petId && req.payload == NoBody
    ensures var reply := ReplyAt(server, s.world, |w.trace|);
      && (reply.Ok? ==> s.result == Done(Undefined))
      && (reply.Err? ==> s.result == Fail(HttpError(reply.status)))
  {
    var f := Resource.Fetch(w, server, DELETE, LinkPath(tutorId, petId), map[]);
    Step(f.world, if f.result.Done? then Done(Undefined) else f.result)
  }

  /** Linking and unlinking address the same sub-resource and differ only in the verb. */
  lemma LinkUnlinkSameResource(w: World, server: Server, tutorId: string, petId: string)
    ensures var link := LinkPet(w, server, tutorId, petId).world.trace[|w.trace|];
      var unlink := UnlinkPet(w, server, tutorId, petId).world.trace[|w.trace|];
      link == unlink.(verb := POST)
  {
  }

  /**
   * Partial failure: when the upload fails after the record was written,
   * `save` rejects even though the server accepted phase 1.
   */
  lemma UploadFailureRejectsAfterWrite(w: World, server: Server, id: string, form: Value)
    requires id != ""
    requires var s := Save(w, server, Some(id), form, true);
      ReplyAt(server, s.world, |w.trace|).Ok? && ReplyAt(server, s.world, |w.trace| + 1).Err?
    ensures var s := Save(w, server, Some(id), form, true);
      && s.world.trace[|w.trace|].verb == PUT
      && s.result.Fail?
  {
  }
}
