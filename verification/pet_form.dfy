/**
 * `handleSubmit` of src/features/Pets/components/PetForm.tsx: a direct POST
 * of the four fields with an explicit `Authorization` header built from
 * whichever token key is set. The chosen photo is never sent.
 */
module PetForm {
  import opened JsValues
  import opened Api
  import Resource

  const Saved := "Pet adicionado com sucesso!"
  const SaveError := "Erro ao salvar pet. Verifique os dados no console."

  /** The form's four inputs, as the text the browser reports. */
  datatype Fields = Fields(nome: string, especie: string, raca: string, idade: string)

  /** What the user sees afterwards: an alert, and where the page went. */
  datatype Feedback = Feedback(alert: Option<string>, nav: Option<string>)

  /** `{ nome, especie, raca, idade: Number(idade) }`. */
  function Body(f: Fields): Value {
    Obj(map["nome" := Str(f.nome), "especie" := Str(f.especie), "raca" := Str(f.raca),
            "idade" := NumberField(f.idade)])
  }

  /** The explicit header: `Bearer ${token}` with the looked-up value, `null` included. */
  function ExplicitAuth(storage: Storage): map<string, string> {
    map[Authorization := "Bearer " + ToStr(EitherToken(storage))]
  }

  function Submit(w: World, server: Server, f: Fields, foto: bool): (r: (World, Feedback))
    ensures Sent(w, r.0, 1)
    ensures var req := r.0.trace[|w.trace|];
      && req.verb == POST && req.path == "/v1/pets" && req.params == map[]
      && req.payload.Json? && req.payload.value.Obj?
      && req.payload.value.fields.Keys == {"nome", "especie", "raca", "idade"}
      && req.payload.value.fields["nome"] == Str(f.nome)
      && req.payload.value.fields["especie"] == Str(f.especie)
      && req.payload.value.fields["raca"] == Str(f.raca)
      && req.payload.value.fields["idade"] == NumberField(f.idade)
      && (AllDigits(f.idade) ==> req.payload.value.fields["idade"] == Num(DigitsValue(f.idade)))
      && Resource.Through(w, req, ExplicitAuth(w.storage))
    ensures var reply := ReplyAt(server, r.0, |w.trace|);
      && (reply.Ok? ==> r.1 == Feedback(Some(Saved), Some("/pets")))
      && (reply == Err(401) ==> r.1 == Feedback(None, None))
      && (reply.Err? && reply.status != 401 ==> r.1 == Feedback(Some(SaveError), None))
  {
    var req := Outgoing(w, POST, "/v1/pets", map[], Json(Body(f)), ExplicitAuth(w.storage));
    var (w1, reply) := Send(w, server, req);
    assert w1.trace[..|w.trace|] == w.trace;
    var feedback :=
      if reply.Ok? then Feedback(Some(Saved), Some("/pets"))
      else if IsUnauthorized(Rejection(reply)) then Feedback(None, None)
      else Feedback(Some(SaveError), None);
    (w1, feedback)
  }

  /** The selected photo plays no part: submitting with or without one is the same. */
  lemma PhotoNeverSent(w: World, server: Server, f: Fields)
    ensures Submit(w, server, f, true) == Submit(w, server, f, false)
    ensures !Submit(w, server, f, true).0.trace[|w.trace|].payload.Multipart?
  {
  }

  /**
   * The header falls back from `token` to `access_token`; with neither key
   * and no other source of a header, the request goes out as `Bearer null`.
   */
  lemma HeaderFallback(w: World, server: Server, f: Fields)
    ensures var req := Submit(w, server, f, false).0.trace[|w.trace|];
      && (HasToken(w.storage) ==> req.headers[Authorization] == "Bearer " + w.storage[TokenKey])
      && (!HasToken(w.storage) && "access_token" in w.storage ==>
            req.headers[Authorization] == "Bearer " + w.storage["access_token"])
      && (TokenKey !in w.storage && "access_token" !in w.storage ==> req.headers[Authorization] == "Bearer null")
  {
    var req := Submit(w, server, f, false).0.trace[|w.trace|];
    OutgoingAuthHeader(w, POST, "/v1/pets", map[], Json(Body(f)), ExplicitAuth(w.storage));
    assert "Bearer " + "null" == "Bearer null";
  }
}
