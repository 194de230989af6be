/**
 * `loadData` of src/features/Pets/PetDetail.tsx: fetch the pet, then take
 * its nested `tutor` if it has one, or fetch the tutor by `tutorId`. Every
 * failure is swallowed and the page stops loading.
 */
module PetDetail {
  import opened JsValues
  import opened Api
  import Resource
  import Types

  /** What the page shows: `pet` and `tutor` start as `null`, `loading` as true. */
  datatype DetailState = DetailState(pet: Value, tutor: Value, loading: bool)

  const Initial := DetailState(Null, Null, true)

  /** The tutor request that follows a pet without a nested tutor but with a `tutorId`. */
  function TutorPath(tutorId: Value): string {
    "/v1/tutores/" + ToStr(tutorId)
  }

  function LoadData(w: World, server: Server, id: string): (r: (World, DetailState))
    ensures !r.1.loading
    ensures |w.trace| < |r.0.trace| <= |w.trace| + 2
    ensures Sent(w, r.0, |r.0.trace| - |w.trace|)
    // The first request is always the pet.
    ensures var first := r.0.trace[|w.trace|];
      first.verb == GET && first.path == "/v1/pets/" + id && first.params == map[] && first.payload == NoBody
    ensures var reply := ReplyAt(server, r.0, |w.trace|);
      // A failed pet request: nothing more, nothing shown.
      && (reply.Err? ==> |r.0.trace| == |w.trace| + 1 && r.1.pet == Null && r.1.tutor == Null)
      && (reply.Ok? ==>
            var pet := reply.body;
            // The pet is shown whatever happens next.
            && r.1.pet == pet
            // A body that is `null` throws on `.tutor`: no tutor.
            && (pet.Undefined? || pet.Null? ==> |r.0.trace| == |w.trace| + 1 && r.1.tutor == Null)
            && (!(pet.Undefined? || pet.Null?) ==>
                  var nested := Get(pet, "tutor").value;
                  var tutorId := Get(pet, "tutorId").value;
                  // A nested tutor is used as is, without a request.
                  && (Truthy(nested) ==> |r.0.trace| == |w.trace| + 1 && r.1.tutor == nested)
                  // Otherwise a truthy `tutorId` costs exactly one more request.
                  && (!Truthy(nested) && Truthy(tutorId) ==>
                        && |r.0.trace| == |w.trace| + 2
                        && r.0.trace[|w.trace| + 1].verb == GET
                        && r.0.trace[|w.trace| + 1].path == TutorPath(tutorId)
                        && var second := ReplyAt(server, r.0, |w.trace| + 1);
                           r.1.tutor == (if second.Ok? then second.body else Null))
                  // With neither, the tutor stays `null`.
                  && (!Truthy(nested) && !Truthy(tutorId) ==> |r.0.trace| == |w.trace| + 1 && r.1.tutor == Null)))
  {
    var s := Resource.Fetch(w, server, GET, "/v1/pets/" + id, map[]);
    match s.result
    case Fail(_) => (s.world, DetailState(Null, Null, false))
    case Done(pet) =>
      match Get(pet, "tutor")
      case None => (s.world, DetailState(pet, Null, false))
      case Some(nested) =>
        if Truthy(nested) then (s.world, DetailState(pet, nested, false))
        else
          var tutorId := Get(pet, "tutorId").value;
          if !Truthy(tutorId) then (s.world, DetailState(pet, Null, false))
          else
            var t := Resource.Fetch(s.world, server, GET, TutorPath(tutorId), map[]);
            assert t.world.trace[..|w.trace|] == w.trace by {
              assert t.world.trace[..|s.world.trace|] == s.world.trace;
            }
            (t.world, DetailState(pet, if t.result.Done? then t.result.value else Null, false))
  }

  /**
   * For a pet the server encodes from the typed model: a nested tutor means
   * one request and the encoded tutor; a bare `tutorId` means a second request
   * to that tutor.
   */
  lemma TypedPetResolvesTutor(w: World, server: Server, id: string, p: Types.Pet)
    requires server(w.trace, LoadData(w, server, id).0.trace[|w.trace|]) == Ok(Types.PetValue(p))
    ensures var r := LoadData(w, server, id);
      && r.1.pet == Types.PetValue(p)
      && (p.tutor.Some? ==> |r.0.trace| == |w.trace| + 1 && r.1.tutor == Types.TutorValue(p.tutor.value))
      && (p.tutor.None? && p.tutorId.Some? && p.tutorId.value != "" ==>
            |r.0.trace| == |w.trace| + 2 && r.0.trace[|w.trace| + 1].path == "/v1/tutores/" + p.tutorId.value)
      && (p.tutor.None? && (p.tutorId.None? || p.tutorId.value == "") ==>
            |r.0.trace| == |w.trace| + 1 && r.1.tutor == Null)
  {
    var r := LoadData(w, server, id);
    assert r.0.trace[..|w.trace|] == w.trace;
    assert ReplyAt(server, r.0, |w.trace|) == Ok(Types.PetValue(p));
    Types.PetValueTutor(p);
  }
}
