/**
 * The records the API exchanges (src/api/types.ts), and how each is
 * written as the JSON body a server sends. Optional fields that are absent
 * are left out of the object.
 */
module Types {
  import opened JsValues

  datatype PetFoto = PetFoto(id: string, nome: string, contentType: string, url: string)

  datatype Pet = Pet(
    id: Option<string>,
    nome: string,
    especie: string,
    raca: string,
    idade: int,
    peso: int,
    observacoes: Option<string>,
    foto: Option<PetFoto>,
    tutorId: Option<string>,
    tutor: Option<Tutor>)

  datatype Tutor = Tutor(
    id: Option<string>,
    nome: string,
    email: string,
    telefone: string,
    endereco: string,
    foto: Option<PetFoto>,
    pets: PetList)

  /** `pets?: Pet[]`: a tutor's pets, when the server includes them. */
  datatype PetList = Omitted | Listed(items: seq<Pet>)

  datatype PaginatedResponse<T> = PaginatedResponse(
    content: seq<T>,
    totalPages: int,
    totalElements: int,
    size: int,
    number: int)

  /** `m` with key `k` bound to `v` when `o` is present. */
  function WithOptional<T>(m: map<string, Value>, k: string, o: Option<T>, enc: T -> Value): map<string, Value> {
    if o.Some? then m[k := enc(o.value)] else m
  }

  function FotoValue(f: PetFoto): Value {
    Obj(map["id" := Str(f.id), "nome" := Str(f.nome), "contentType" := Str(f.contentType), "url" := Str(f.url)])
  }

  function PetValue(p: Pet): (v: Value)
    ensures v.Obj?
    decreases p, 0
  {
    var m := map["nome" := Str(p.nome), "especie" := Str(p.especie), "raca" := Str(p.raca),
                 "idade" := Num(p.idade), "peso" := Num(p.peso)];
    var m := WithOptional(m, "id", p.id, s => Str(s));
    var m := WithOptional(m, "observacoes", p.observacoes, s => Str(s));
    var m := WithOptional(m, "foto", p.foto, FotoValue);
    var m := WithOptional(m, "tutorId", p.tutorId, s => Str(s));
    var m := if p.tutor.Some? then m["tutor" := TutorValue(p.tutor.value)] else m;
    Obj(m)
  }

  function TutorValue(t: Tutor): (v: Value)
    ensures v.Obj?
    decreases t, 1
  {
    var m := map["nome" := Str(t.nome), "email" := Str(t.email), "telefone" := Str(t.telefone),
                 "endereco" := Str(t.endereco)];
    var m := WithOptional(m, "id", t.id, s => Str(s));
    var m := WithOptional(m, "foto", t.foto, FotoValue);
    var m := if t.pets.Listed? then m["pets" := Arr(PetsValue(t, 0))] else m;
    Obj(m)
  }

  /** The encoded pets of `t` from index `k` on. */
  function PetsValue(t: Tutor, k: nat): (vs: seq<Value>)
    requires t.pets.Listed? && k <= |t.pets.items|
    ensures |vs| == |t.pets.items| - k
    decreases t, 0, |t.pets.items| - k
  {
    if k == |t.pets.items| then []
    else
      var p := t.pets.items[k];
      assert p in t.pets.items;
      [PetValue(p)] + PetsValue(t, k + 1)
  }

  function PageValue<T>(r: PaginatedResponse<T>, enc: T -> Value): Value {
    Obj(map["content" := Arr(seq(|r.content|, i requires 0 <= i < |r.content| => enc(r.content[i]))),
            "totalPages" := Num(r.totalPages), "totalElements" := Num(r.totalElements),
            "size" := Num(r.size), "number" := Num(r.number)])
  }

  /** The server's `tutor` entry of an encoded pet is the encoded tutor. */
  lemma PetValueTutor(p: Pet)
    ensures p.tutor.Some? ==> Get(PetValue(p), "tutor") == Some(TutorValue(p.tutor.value))
    ensures p.tutor.None? ==> Get(PetValue(p), "tutor") == Some(Undefined)
    ensures p.tutorId.Some? ==> Get(PetValue(p), "tutorId") == Some(Str(p.tutorId.value))
    ensures p.tutorId.None? ==> Get(PetValue(p), "tutorId") == Some(Undefined)
  {
  }
}
