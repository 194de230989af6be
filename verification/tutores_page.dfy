/**
 * src/features/tutores/pages/TutoresPage.tsx as a state machine. Unlike the
 * pets page there is no debounce: every change of `(page, searchTerm)` fetches
 * at once, and the response is normalised from one of two shapes.
 */
module TutoresPage {
  import opened JsValues
  import opened Api
  import TutoresService
  import Types

  datatype TutoresState = TutoresState(tutores: Value, page: int, totalPages: Value, search: string, loading: bool)

  /** Before the mount fetch completes: empty list, page 0, no pages, and loading. */
  const Initial := TutoresState(Arr([]), 0, Num(0), "", true)

  datatype Event =
    | Type(text: string)   // the search box's `onChange`
    | Prev                 // the "previous" button
    | Next                 // the "next" button

  /** `!loading && totalPages > 1`. */
  predicate PaginatorShown(st: TutoresState) {
    !st.loading && Exceeds(st.totalPages, 1)
  }

  predicate PrevEnabled(st: TutoresState) {
    PaginatorShown(st) && st.page != 0
  }

  predicate NextEnabled(st: TutoresState) {
    PaginatorShown(st) && !AtLeast(st.page + 1, st.totalPages)
  }

  /** `data && data.content`: a truthy body whose `content` is truthy. */
  predicate Paginated(data: Value) {
    Truthy(data) && Truthy(Get(data, "content").value)
  }

  /** The response normalisation of `fetchTutores`. */
  function Normalise(st: TutoresState, data: Value): (st': TutoresState)
    // A paginated body: its content and its `totalPages`.
    ensures Paginated(data) ==>
      st' == st.(tutores := Get(data, "content").value, totalPages := Get(data, "totalPages").value)
    // A bare array: the array, as one page.
    ensures !Paginated(data) && data.Arr? ==> st' == st.(tutores := data, totalPages := Num(1))
    // Any other shape: nothing changes.
    ensures !Paginated(data) && !data.Arr? ==> st' == st
  {
    if Truthy(data) && Truthy(Get(data, "content").value) then
      st.(tutores := Get(data, "content").value, totalPages := Get(data, "totalPages").value)
    else if data.Arr? then st.(tutores := data, totalPages := Num(1))
    else st
  }

  /** A bare array is one page, so no paginator follows it. */
  lemma BareArrayHidesPaginator(st: TutoresState, items: seq<Value>)
    ensures var st' := Normalise(st, Arr(items)).(loading := false);
      st'.tutores == Arr(items) && !PaginatorShown(st')
  {
  }

  /** A well-formed page from the server is always taken as paginated, even when its content is empty. */
  lemma PageResponseTaken<T>(st: TutoresState, page: Types.PaginatedResponse<T>, enc: T -> Value)
    ensures var st' := Normalise(st, Types.PageValue(page, enc));
      && st'.totalPages == Num(page.totalPages)
      && st'.tutores.Arr? && |st'.tutores.items| == |page.content|
      && (forall i :: 0 <= i < |page.content| ==> st'.tutores.items[i] == enc(page.content[i]))
  {
  }

  /**
   * `fetchTutores()` with the current page and term: one list request; on
   * failure the list is emptied and `totalPages` kept.
   */
  function FetchTutores(w: World, server: Server, st: TutoresState): (r: (World, TutoresState))
    ensures Sent(w, r.0, 1)
    ensures var req := r.0.trace[|w.trace|];
      && req.verb == GET && req.path == "/v1/tutores" && req.params.Keys == {"page", "size", "nome"}
      && req.params["page"] == Num(st.page) && req.params["nome"] == Str(st.search)
    ensures !r.1.loading && r.1.page == st.page && r.1.search == st.search
    ensures var reply := ReplyAt(server, r.0, |w.trace|);
      && (reply.Ok? ==> r.1 == Normalise(st, reply.body).(loading := false))
      && (reply.Err? ==> r.1 == st.(tutores := Arr([]), loading := false))
  {
    var s := TutoresService.List(w, server, Some(st.page), Some(st.search));
    match s.result
    case Done(data) => (s.world, Normalise(st, data).(loading := false))
    case Fail(_) => (s.world, st.(tutores := Arr([]), loading := false))
  }

  /** Mounting runs the effect once. */
  function Mount(w: World, server: Server): (r: (World, TutoresState))
    ensures Sent(w, r.0, 1)
    ensures var req := r.0.trace[|w.trace|];
      && req.verb == GET && req.path == "/v1/tutores"
      && "page" in req.params && req.params["page"] == Num(0)
      && "nome" in req.params && req.params["nome"] == Str("")
    ensures r.1.page == 0 && r.1.search == "" && !r.1.loading
  {
    FetchTutores(w, server, Initial)
  }

  /** A render with new `page`/`searchTerm` reruns the effect, which fetches straight away. */
  function Rerender(w: World, server: Server, st: TutoresState, page: int, search: string): (World, TutoresState) {
    if page == st.page && search == st.search then (w, st)
    else FetchTutores(w, server, st.(page := page, search := search))
  }

  function Step(w: World, server: Server, st: TutoresState, e: Event): (r: (World, TutoresState))
    ensures e.Type? ==> r.1.search == e.text && r.1.page == 0
    // "Previous" clamps at 0 through `Math.max` as well as being disabled there.
    ensures e.Prev? && PrevEnabled(st) ==> r.1.page == (if st.page - 1 > 0 then st.page - 1 else 0)
    ensures e.Next? && NextEnabled(st) ==>
      r.1.page == st.page + 1 && ToNumber(st.totalPages).Some? && r.1.page < ToNumber(st.totalPages).value
    ensures (e.Prev? && !PrevEnabled(st)) || (e.Next? && !NextEnabled(st)) ==> r == (w, st)
    ensures st.page >= 0 ==> r.1.page >= 0
    // Each change of page or term costs exactly one request, for the new values.
    ensures var (page, search) := (r.1.page, r.1.search);
      (page, search) != (st.page, st.search) ==>
        && Sent(w, r.0, 1)
        && r.0.trace[|w.trace|].params.Keys == {"page", "size", "nome"}
        && r.0.trace[|w.trace|].params["page"] == Num(page)
        && r.0.trace[|w.trace|].params["nome"] == Str(search)
    ensures (r.1.page, r.1.search) == (st.page, st.search) ==> r == (w, st)
  {
    match e
    case Type(text) => Rerender(w, server, st, 0, text)
    case Prev =>
      if PrevEnabled(st) then Rerender(w, server, st, if st.page - 1 > 0 then st.page - 1 else 0, st.search)
      else (w, st)
    case Next => if NextEnabled(st) then Rerender(w, server, st, st.page + 1, st.search) else (w, st)
  }

  /** Events in order: the page never navigates, so all of them are handled. */
  function Run(w: World, server: Server, st: TutoresState, events: seq<Event>): (World, TutoresState)
    decreases |events|
  {
    if events == [] then (w, st)
    else
      var (w1, st1) := Step(w, server, st, events[0]);
      Run(w1, server, st1, events[1..])
  }

  /** The number of events in `events` that changed the page or the term. */
  function Changes(w: World, server: Server, st: TutoresState, events: seq<Event>): nat
    decreases |events|
  {
    if events == [] then 0
    else
      var (w1, st1) := Step(w, server, st, events[0]);
      (if (st1.page, st1.search) != (st.page, st.search) then 1 else 0) + Changes(w1, server, st1, events[1..])
  }

  /** Without a debounce, a run issues one request per change, and never a negative page. */
  lemma {:induction false} RequestPerChange(w: World, server: Server, st: TutoresState, events: seq<Event>)
    requires st.page >= 0
    ensures var (w', st') := Run(w, server, st, events);
      && Sent(w, w', Changes(w, server, st, events))
      && st'.page >= 0
    decreases |events|
  {
    if events != [] {
      var (w1, st1) := Step(w, server, st, events[0]);
      RequestPerChange(w1, server, st1, events[1..]);
    }
  }

  /** Typing two different terms in a row sends two requests, the first one for the abandoned term. */
  lemma TypingTwiceFetchesTwice(w: World, server: Server, a: string, b: string)
    requires a != "" && b != a
    ensures var (w1, st1) := Step(w, server, TutoresState(Arr([]), 0, Num(0), "", false), Type(a));
      var (w2, _) := Step(w1, server, st1, Type(b));
      && |w2.trace| == |w.trace| + 2
      && w2.trace[|w.trace|].params["nome"] == Str(a)
      && w2.trace[|w.trace| + 1].params["nome"] == Str(b)
  {
    var (w1, st1) := Step(w, server, TutoresState(Arr([]), 0, Num(0), "", false), Type(a));
    var (w2, _) := Step(w1, server, st1, Type(b));
    assert w2.trace[..|w1.trace|] == w1.trace;
    assert w2.trace[|w.trace|] == w1.trace[|w.trace|];
  }
}
