/**
 * src/features/Pets/pets.service.ts: listing, lookup, the two-phase save
 * that swallows a failed photo upload, and the photo URL helper.
 */
module PetsService {
  import opened JsValues
  import opened Api
  import Resource

  const Base := "/v1/pets"
  const PageSize := 10

  /** The multipart field the pets endpoint expects the photo under. */
  const PhotoField := "foto"

  /** `{ page, size: 10, nome: nome || undefined }`, before axios drops undefined entries. */
  function ListParams(page: int, nome: Option<string>): map<string, Value> {
    var filter := OfOption(nome);
    map["page" := Num(page), "size" := Num(PageSize), "nome" := if Truthy(filter) then filter else Undefined]
  }

  /**
   * `list(page, nome)`: one GET `/v1/pets` with the page, a page size of 10,
   * and the name filter only when it is a non-empty string.
   */
  function List(w: World, server: Server, page: int, nome: Option<string>): (s: Step<Value>)
    ensures Sent(w, s.world, 1)
    ensures var req := s.world.trace[|w.trace|];
      && req.verb == GET && req.path == Base && req.payload == NoBody
      && "page" in req.params && "size" in req.params && req.params.Keys <= {"page", "size", "nome"}
      && req.params["page"] == Num(page) && req.params["size"] == Num(10)
      && ("nome" in req.params <==> nome.Some? && nome.value != "")
      && ("nome" in req.params ==> req.params["nome"] == Str(nome.value))
      && Resource.Through(w, req, map[])
    ensures Resource.Resolves(ReplyAt(server, s.world, |w.trace|), s.result)
  {
    Resource.Fetch(w, server, GET, Base, ListParams(page, nome))
  }

  /** `getById(id)`: one GET `/v1/pets/{id}`, resolving to the body. */
  function GetById(w: World, server: Server, id: string): (s: Step<Value>)
    ensures Sent(w, s.world, 1)
    ensures var req := s.world.trace[|w.trace|];
      req.verb == GET && req.path == "/v1/pets/" + id && req.params == map[] && req.payload == NoBody
    ensures Resource.Resolves(ReplyAt(server, s.world, |w.trace|), s.result)
  {
    Resource.GetById(w, server, Base, id)
  }

  /**
   * `save(id, formData, foto)` for pets: photo under field `foto`, and a
   * failed upload is caught, so once phase 1 has produced an id the call
   * resolves to that id whatever the upload does.
   */
  function Save(w: World, server: Server, id: Option<string>, form: Value, foto: bool): (s: Step<Value>)
    ensures |w.trace| < |s.world.trace| <= |w.trace| + 2
    ensures Sent(w, s.world, |s.world.trace| - |w.trace|)
    ensures var first := s.world.trace[|w.trace|];
      && (Resource.Updates(id) ==> first.verb == PUT && first.path == "/v1/pets/" + id.value)
      && (!Resource.Updates(id) ==> first.verb == POST && first.path == Base)
      && first.payload == Json(form)
    ensures var r1 := ReplyAt(server, s.world, |w.trace|);
      && (r1.Err? ==> |s.world.trace| == |w.trace| + 1 && s.result == Fail(HttpError(r1.status)))
      && (r1.Ok? && Resource.PhaseOneId(id, r1.body).Some? ==>
            var current := Resource.PhaseOneId(id, r1.body).value;
            && s.result == Done(current)
            && (|s.world.trace| == |w.trace| + 2 <==> foto && Truthy(current))
            && (|s.world.trace| == |w.trace| + 2 ==>
                  var upload := s.world.trace[|w.trace| + 1];
                  && upload.verb == POST && upload.path == "/v1/pets/" + ToStr(current) + "/fotos"
                  && upload.payload == Multipart("foto")))
  {
    Resource.Save(w, server, Base, PhotoField, true, id, form, foto)
  }

  /**
   * `getFotoUrl(id)`: no URL for a falsy id; otherwise the absolute URL of
   * the same photo sub-resource `save` uploads to.
   */
  function FotoUrl(id: Option<string>): (u: Option<string>)
    ensures u.None? <==> !Truthy(OfOption(id))
    ensures u.Some? ==> u.value == BaseUrl + Resource.FotosPath(Base, Str(id.value))
  {
    if !Truthy(OfOption(id)) then None else Some("https://pet-manager-api.geia.vip/v1/pets/" + id.value + "/fotos")
  }

  /**
   * Updating a pet with a photo: the image URL the page shows for that pet is
   * the one the upload went to.
   */
  lemma FotoUrlIsUploadTarget(w: World, server: Server, id: string, form: Value)
    requires id != ""
    requires ReplyAt(server, Save(w, server, Some(id), form, true).world, |w.trace|).Ok?
    ensures var s := Save(w, server, Some(id), form, true);
      && |s.world.trace| == |w.trace| + 2
      && FotoUrl(Some(id)) == Some(BaseUrl + s.world.trace[|w.trace| + 1].path)
  {
  }
}
