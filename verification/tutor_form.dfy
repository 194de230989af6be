/**
 * src/features/tutores/components/TutorForm.tsx: the form's change handlers
 * and a create-only submit through the tutores service.
 */
module TutorForm {
  import opened JsValues
  import opened Api
  import Resource
  import TutoresService

  const SaveError := "Erro ao salvar. Verifique se a API está rodando em /v1/tutores"

  /** A file picked in the browser; only its identity matters here. */
  datatype File = File(name: string)

  datatype FormState = FormState(nome: string, telefone: string, endereco: string, foto: Option<File>, loading: bool)

  const Initial := FormState("", "", "", None, false)

  /** `handleFileChange`: take the first chosen file; with none chosen, keep the previous one. */
  function FileChange(st: FormState, files: Option<seq<File>>): (st': FormState)
    ensures files.Some? && |files.value| > 0 ==> st' == st.(foto := Some(files.value[0]))
    ensures files.None? || |files.value| == 0 ==> st' == st
  {
    if files.Some? && |files.value| > 0 then st.(foto := Some(files.value[0])) else st
  }

  /** `nome` is upper-cased on every change (`upper` stands for `toUpperCase`). */
  function NomeChange(st: FormState, text: string, upper: string -> string): FormState {
    st.(nome := upper(text))
  }

  /** `telefone` is stored as typed. */
  function TelefoneChange(st: FormState, text: string): FormState {
    st.(telefone := text)
  }

  /** `endereco` is upper-cased on every change. */
  function EnderecoChange(st: FormState, text: string, upper: string -> string): FormState {
    st.(endereco := upper(text))
  }

  /** One thing the user does to the form before submitting. */
  datatype Input =
    | Nome(text: string)
    | Telefone(text: string)
    | Endereco(text: string)
    | Files(files: Option<seq<File>>)   // the file input's `onChange`

  datatype Field = NomeField | TelefoneField | EnderecoField | FotoField

  /** The handler an input reaches. */
  function Handle(st: FormState, x: Input, upper: string -> string): FormState {
    match x
    case Nome(text) => NomeChange(st, text, upper)
    case Telefone(text) => TelefoneChange(st, text)
    case Endereco(text) => EnderecoChange(st, text, upper)
    case Files(files) => FileChange(st, files)
  }

  /** The inputs in the order the user made them. */
  function Fill(st: FormState, inputs: seq<Input>, upper: string -> string): FormState
    decreases |inputs|
  {
    if inputs == [] then st else Fill(Handle(st, inputs[0], upper), inputs[1..], upper)
  }

  /** Whether `x` sets field `f`: a file choice with no file in it sets nothing. */
  predicate Touches(x: Input, f: Field) {
    match x
    case Nome(_) => f == NomeField
    case Telefone(_) => f == TelefoneField
    case Endereco(_) => f == EnderecoField
    case Files(files) => f == FotoField && files.Some? && |files.value| > 0
  }

  /** `a` and `b` hold the same value in field `f`. */
  predicate Agree(a: FormState, b: FormState, f: Field) {
    match f
    case NomeField => a.nome == b.nome
    case TelefoneField => a.telefone == b.telefone
    case EnderecoField => a.endereco == b.endereco
    case FotoField => a.foto == b.foto
  }

  /** `inputs[i]` is the last input that sets `f`. */
  predicate LastTouch(inputs: seq<Input>, i: int, f: Field) {
    0 <= i < |inputs| && Touches(inputs[i], f) && forall j :: i < j < |inputs| ==> !Touches(inputs[j], f)
  }

  /** An input that sets a field sets it to the same value from any state. */
  lemma HandleSets(a: FormState, b: FormState, x: Input, f: Field, upper: string -> string)
    requires Touches(x, f)
    ensures Agree(Handle(a, x, upper), Handle(b, x, upper), f)
  {
  }

  /** An input leaves every field it does not set as it was. */
  lemma HandleKeeps(st: FormState, x: Input, f: Field, upper: string -> string)
    requires !Touches(x, f)
    ensures Agree(Handle(st, x, upper), st, f)
  {
  }

  /**
   * Each field of the filled form is what the last input that set it made of
   * it, or its starting value if none did. For the photo this means the first
   * file of the last non-empty choice: choosing nothing afterwards keeps it.
   */
  lemma {:induction false} FillKeepsLastTouch(st: FormState, inputs: seq<Input>, upper: string -> string)
    ensures forall i, f :: LastTouch(inputs, i, f) ==>
      Agree(Fill(st, inputs, upper), Handle(st, inputs[i], upper), f)
    ensures forall f :: (forall i :: 0 <= i < |inputs| ==> !Touches(inputs[i], f)) ==>
      Agree(Fill(st, inputs, upper), st, f)
    decreases |inputs|
  {
    if inputs != [] {
      var x, rest := inputs[0], inputs[1..];
      var st1 := Handle(st, x, upper);
      FillKeepsLastTouch(st1, rest, upper);
      assert Fill(st, inputs, upper) == Fill(st1, rest, upper);
      forall i, f | LastTouch(inputs, i, f)
        ensures Agree(Fill(st, inputs, upper), Handle(st, inputs[i], upper), f)
      {
        if i == 0 {
          assert forall j :: 0 <= j < |rest| ==> !Touches(rest[j], f) by {
            forall j | 0 <= j < |rest| ensures !Touches(rest[j], f) {
              assert rest[j] == inputs[j + 1];
            }
          }
        } else {
          assert rest[i - 1] == inputs[i];
          assert LastTouch(rest, i - 1, f) by {
            forall j | i - 1 < j < |rest| ensures !Touches(rest[j], f) {
              assert rest[j] == inputs[j + 1];
            }
          }
          HandleSets(st1, st, inputs[i], f, upper);
        }
      }
      forall f | forall i :: 0 <= i < |inputs| ==> !Touches(inputs[i], f)
        ensures Agree(Fill(st, inputs, upper), st, f)
      {
        assert !Touches(inputs[0], f);
        assert forall j :: 0 <= j < |rest| ==> !Touches(rest[j], f) by {
          forall j | 0 <= j < |rest| ensures !Touches(rest[j], f) {
            assert rest[j] == inputs[j + 1];
          }
        }
        assert Agree(Fill(st1, rest, upper), st1, f);
        HandleKeeps(st, x, f, upper);
      }
    }
  }

  /** Some input sets `f`, so a last one does. */
  lemma {:induction false} LastTouchExists(inputs: seq<Input>, i: int, f: Field)
    requires 0 <= i < |inputs| && Touches(inputs[i], f)
    ensures exists j :: LastTouch(inputs, j, f)
    decreases |inputs| - i
  {
    if forall j :: i < j < |inputs| ==> !Touches(inputs[j], f) {
      assert LastTouch(inputs, i, f);
    } else {
      var j :| i < j < |inputs| && Touches(inputs[j], f);
      LastTouchExists(inputs, j, f);
    }
  }

  /** The submitted form data: the three text fields, nothing else. */
  function FormValue(st: FormState): Value {
    Obj(map["nome" := Str(st.nome), "telefone" := Str(st.telefone), "endereco" := Str(st.endereco)])
  }

  datatype SubmitRun = SubmitRun(world: World, during: FormState, state: FormState,
                                 alert: Option<string>, nav: Option<string>)

  /**
   * `handleSubmit`: `tutoresService.save(undefined, formData, foto)`; on
   * success go to `/tutores`, on failure alert and stay, without rethrowing.
   */
  function Submit(w: World, server: Server, st: FormState): (r: SubmitRun)
    ensures r.during == st.(loading := true)
    ensures r.state == st.(loading := false)
    ensures r.world == TutoresService.Save(w, server, None, FormValue(st), st.foto.Some?).world
    // Create-only: the first request posts the three fields to the collection.
    ensures var first := r.world.trace[|w.trace|];
      && first.verb == POST && first.path == "/v1/tutores"
      && first.payload.Json? && first.payload.value.Obj?
      && first.payload.value.fields.Keys == {"nome", "telefone", "endereco"}
    ensures var s := TutoresService.Save(w, server, None, FormValue(st), st.foto.Some?);
      && (s.result.Done? ==> r.nav == Some("/tutores") && r.alert.None?)
      && (s.result.Fail? ==> r.nav.None? && r.alert == Some(SaveError))
  {
    var s := TutoresService.Save(w, server, None, FormValue(st), st.foto.Some?);
    var st' := st.(loading := false);
    if s.result.Done? then SubmitRun(s.world, st.(loading := true), st', None, Some("/tutores"))
    else SubmitRun(s.world, st.(loading := true), st', Some(SaveError), None)
  }

  /** Some file choice among `inputs` held a file. */
  predicate Chosen(inputs: seq<Input>) {
    exists i :: 0 <= i < |inputs| && Touches(inputs[i], FotoField)
  }

  /** A filled form holds a photo exactly when some file choice held a file. */
  lemma FilledPhoto(st: FormState, inputs: seq<Input>, upper: string -> string)
    requires st.foto.None?
    ensures Fill(st, inputs, upper).foto.Some? <==> Chosen(inputs)
  {
    var filled := Fill(st, inputs, upper);
    FillKeepsLastTouch(st, inputs, upper);
    if i :| 0 <= i < |inputs| && Touches(inputs[i], FotoField) {
      LastTouchExists(inputs, i, FotoField);
      var j :| LastTouch(inputs, j, FotoField);
      assert Agree(filled, Handle(st, inputs[j], upper), FotoField);
    } else {
      assert Agree(filled, st, FotoField);
    }
  }

  /**
   * Starting from the empty form, the submit hands the photo to the tutores
   * save exactly when some file choice held a file, however many empty choices
   * came after it. The upload itself then happens exactly when, in addition,
   * the create succeeded with a truthy id; a failed create uploads nothing.
   */
  lemma PhotoUploadedIffChosen(w: World, server: Server, inputs: seq<Input>, upper: string -> string)
    ensures var st := Fill(Initial, inputs, upper);
      var r := Submit(w, server, st);
      var r1 := ReplyAt(server, r.world, |w.trace|);
      && r.world == TutoresService.Save(w, server, None, FormValue(st), Chosen(inputs)).world
      && (r1.Err? ==> |r.world.trace| == |w.trace| + 1)
      && (r1.Ok? && Resource.PhaseOneId(None, r1.body).Some? && Truthy(Resource.PhaseOneId(None, r1.body).value) ==>
            && (|r.world.trace| == |w.trace| + 2 <==> Chosen(inputs))
            && (Chosen(inputs) ==>
                  r.world.trace[|w.trace| + 1].verb == POST && r.world.trace[|w.trace| + 1].payload == Multipart("file")))
  {
    FilledPhoto(Initial, inputs, upper);
  }
}
