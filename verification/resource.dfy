/**
 * The operations src/features/Pets/pets.service.ts and
 * src/features/tutores/tutores.service.ts both implement, written once and
 * parameterised by the resource's base path (`/v1/pets`, `/v1/tutores`), the
 * multipart field the photo is sent under, and whether a failed upload is
 * swallowed.
 */
module Resource {
  import opened JsValues
  import opened Api

  const MultipartHeaders := map["Content-Type" := "multipart/form-data"]

  /** `<base>/<id>`, the path of one record. */
  function ItemPath(base: string, id: string): string {
    base + "/" + id
  }

  /** `<base>/<id>/fotos`, with the id rendered as a template literal renders it. */
  function FotosPath(base: string, id: Value): string {
    base + "/" + ToStr(id) + "/fotos"
  }

  /** The requests an operation added to the trace. */
  function Issued(w: World, w': World): seq<Request>
    requires |w.trace| <= |w'.trace|
  {
    w'.trace[|w.trace|..]
  }

  /** `req` went through the shared client from `w`, with the call's own headers `extra`. */
  predicate Through(w: World, req: Request, extra: map<string, string>) {
    req.headers == Intercept(w.storage, DefaultHeaders(w.defaults) + extra)
  }

  /** An awaited request resolves to the reply's body and rejects with its status. */
  predicate Resolves(reply: Reply, result: Outcome<Value>) {
    && (reply.Ok? ==> result == Done(reply.body))
    && (reply.Err? ==> result == Fail(HttpError(reply.status)))
  }

  /** One request, whose body the operation resolves to. */
  function Fetch(w: World, server: Server, m: Method, path: string, params: map<string, Value>): (s: Step<Value>)
    ensures Sent(w, s.world, 1)
    ensures var req := s.world.trace[|w.trace|];
      && req.verb == m && req.path == path && req.params == Serialize(params) && req.payload == NoBody
      && Through(w, req, map[])
    ensures Resolves(ReplyAt(server, s.world, |w.trace|), s.result)
  {
    var (w1, reply) := Send(w, server, Outgoing(w, m, path, params, NoBody, map[]));
    assert w1.trace[..|w.trace|] == w.trace;
    Step(w1, if reply.Ok? then Done(reply.body) else Fail(Rejection(reply)))
  }

  /** `getById`: GET `<base>/<id>`, resolving to the body. */
  function GetById(w: World, server: Server, base: string, id: string): (s: Step<Value>)
    ensures Sent(w, s.world, 1)
    ensures var req := s.world.trace[|w.trace|];
      req.verb == GET && req.path == ItemPath(base, id) && req.params == map[] && req.payload == NoBody
    ensures Resolves(ReplyAt(server, s.world, |w.trace|), s.result)
  {
    Fetch(w, server, GET, ItemPath(base, id), map[])
  }

  // ---------------------------------------------------------------------------
  // The two-phase `save`

  /** `save` updates when the id it is given is truthy, and creates otherwise. */
  predicate Updates(id: Option<string>) {
    Truthy(OfOption(id))
  }

  /**
   * The id `save` carries into phase 2 after a successful phase 1 that
   * answered `body`: the given id when updating, the created record's `id`
   * when creating. `None` is the TypeError of reading `id` off a null body.
   */
  function PhaseOneId(id: Option<string>, body: Value): Option<Value> {
    if Updates(id) then Some(Str(id.value)) else Get(body, "id")
  }

  /**
   * What phase 2 did, for a `save` whose phase 1 left `n` requests in the
   * trace and produced `current`: the upload is sent exactly when there is a
   * photo and `current` is truthy, goes to that id's photo sub-resource as
   * multipart data through the shared client, and its failure rejects only
   * when it is not swallowed. Without an upload, `save` resolves to `current`.
   */
  predicate PhaseTwo(server: Server, storage: Storage, defaults: Defaults, n: nat, s: Step<Value>,
                     base: string, field: string, swallow: bool, current: Value, foto: bool)
  {
    && n <= |s.world.trace| <= n + 1
    && (|s.world.trace| == n + 1 <==> foto && Truthy(current))
    && (|s.world.trace| == n ==> s.result == Done(current))
    && (|s.world.trace| == n + 1 ==>
          var req := s.world.trace[n];
          && req.verb == POST && req.path == FotosPath(base, current)
          && req.payload == Multipart(field) && req.params == map[]
          && req.headers == Intercept(storage, DefaultHeaders(defaults) + MultipartHeaders)
          && var reply := ReplyAt(server, s.world, n);
             s.result == if reply.Err? && !swallow then Fail(HttpError(reply.status)) else Done(current))
  }

  /** Phase 2: the photo upload, sent only with a photo and a truthy id. */
  function Upload(w: World, server: Server, base: string, field: string, swallow: bool,
                  current: Value, foto: bool): (s: Step<Value>)
    ensures PhaseTwo(server, w.storage, w.defaults, |w.trace|, s, base, field, swallow, current, foto)
    ensures Sent(w, s.world, |s.world.trace| - |w.trace|)
  {
    if foto && Truthy(current) then
      var (w2, reply) := Send(w, server, Outgoing(w, POST, FotosPath(base, current), map[], Multipart(field), MultipartHeaders));
      assert w2.trace[..|w.trace|] == w.trace;
      if reply.Err? && !swallow then Step(w2, Fail(Rejection(reply))) else Step(w2, Done(current))
    else
      Step(w, Done(current))
  }

  /** Phase 1: PUT `<base>/<id>` when the id is truthy, POST `<base>` otherwise. */
  function PhaseOne(w: World, server: Server, base: string, id: Option<string>, form: Value): (r: (World, Reply))
    ensures Sent(w, r.0, 1)
    ensures var first := r.0.trace[|w.trace|];
      && (Updates(id) ==> first.verb == PUT && first.path == ItemPath(base, id.value))
      && (!Updates(id) ==> first.verb == POST && first.path == base)
      && first.payload == Json(form) && first.params == map[]
      && Through(w, first, map[])
    ensures r.1 == ReplyAt(server, r.0, |w.trace|)
  {
    var req := if Updates(id) then Outgoing(w, PUT, ItemPath(base, id.value), map[], Json(form), map[])
               else Outgoing(w, POST, base, map[], Json(form), map[]);
    var (w1, r1) := Send(w, server, req);
    assert w1.trace[..|w.trace|] == w.trace;
    (w1, r1)
  }

  /**
   * `save(id, formData, foto)`: create-or-update, then the optional photo
   * upload against the id phase 1 produced. `swallow` says whether a failed
   * upload is caught (pets) or rejects the whole call (tutores).
   */
  function Save(w: World, server: Server, base: string, field: string, swallow: bool,
                id: Option<string>, form: Value, foto: bool): (s: Step<Value>)
    // One or two requests; storage and defaults are left alone.
    ensures |w.trace| < |s.world.trace| <= |w.trace| + 2
    ensures Sent(w, s.world, |s.world.trace| - |w.trace|)
    // Phase 1 is the first request, branched on the id's truthiness, carrying the form as JSON.
    ensures var first := s.world.trace[|w.trace|];
      && (Updates(id) ==> first.verb == PUT && first.path == ItemPath(base, id.value))
      && (!Updates(id) ==> first.verb == POST && first.path == base)
      && first.payload == Json(form) && first.params == map[]
      && Through(w, first, map[])
    ensures var r1 := ReplyAt(server, s.world, |w.trace|);
      // A failed phase 1 rejects with its status, and nothing else is sent.
      && (r1.Err? ==> |s.world.trace| == |w.trace| + 1 && s.result == Fail(HttpError(r1.status)))
      // A created record read off a null body is a TypeError, and nothing else is sent.
      && (r1.Ok? && PhaseOneId(id, r1.body).None? ==> |s.world.trace| == |w.trace| + 1 && s.result == Fail(TypeError))
      // Otherwise phase 2 runs with the id phase 1 produced.
      && (r1.Ok? && PhaseOneId(id, r1.body).Some? ==>
            PhaseTwo(server, w.storage, w.defaults, |w.trace| + 1, s, base, field, swallow,
                     PhaseOneId(id, r1.body).value, foto))
  {
    var (w1, r1) := PhaseOne(w, server, base, id, form);
    if r1.Err? then
      Step(w1, Fail(Rejection(r1)))
    else
      match PhaseOneId(id, r1.body)
      case None => Step(w1, Fail(TypeError))
      case Some(current) =>
        var s := Upload(w1, server, base, field, swallow, current, foto);
        assert s.world.trace[..|w1.trace|] == w1.trace;
        assert s.world.trace[..|w.trace|] == w.trace;
        assert s.world.trace[|w.trace|] == w1.trace[|w.trace|];
        assert ReplyAt(server, s.world, |w.trace|) == r1;
        s
  }

  /** With an update id, `save` never posts to the collection: no request creates a record. */
  lemma SaveUpdateNeverCreates(w: World, server: Server, base: string, field: string, swallow: bool,
                               id: Option<string>, form: Value, foto: bool)
    requires Updates(id)
    ensures var s := Save(w, server, base, field, swallow, id, form, foto);
      forall req :: req in Issued(w, s.world) ==> !(req.verb == POST && req.path == base)
  {
    var s := Save(w, server, base, field, swallow, id, form, foto);
    var issued := Issued(w, s.world);
    forall req | req in issued
      ensures !(req.verb == POST && req.path == base)
    {
      var i :| 0 <= i < |issued| && issued[i] == req;
      if i == 1 {
        var r1 := ReplyAt(server, s.world, |w.trace|);
        assert req == s.world.trace[|w.trace| + 1];
        assert req.path == FotosPath(base, PhaseOneId(id, r1.body).value);
        assert |req.path| > |base|;
      }
    }
  }
}
