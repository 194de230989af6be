/**
 * src/features/Pets/pages/PetsPage.tsx as a state machine: the species icon,
 * the search box and the paginator as events, and the 500 ms debounce as a
 * single pending timer that every change of `(page, searchTerm)` replaces.
 * A fetch happens only when the pending timer fires.
 */
module PetsPage {
  import opened JsValues
  import opened Api
  import PetsService

  // ---------------------------------------------------------------------------
  // `getPetIcon`

  datatype Icon = Dog | Cat | Rabbit

  /** `especie?.toLowerCase() || ''`; `lower` stands for `toLowerCase`, `None` for a missing species. */
  function Species(especie: Option<string>, lower: string -> string): string {
    match especie
    case None => ""
    case Some(s) => lower(s)
  }

  function PetIcon(especie: Option<string>, lower: string -> string): (icon: Icon)
    ensures especie.None? ==> icon == Rabbit
  {
    var esp := Species(especie, lower);
    if Includes(esp, "cão") || Includes(esp, "cachorro") then Dog
    else if Includes(esp, "gato") then Cat
    else Rabbit
  }

  /** `sub` occurs somewhere in `s`. */
  ghost predicate Mentions(s: string, sub: string) {
    exists i :: OccursAt(s, sub, i)
  }

  /** The icon in terms of what the lower-cased species mentions: dog first, then cat, else rabbit. */
  lemma PetIconIff(especie: Option<string>, lower: string -> string)
    ensures var esp := Species(especie, lower);
      && (PetIcon(especie, lower) == Dog <==> Mentions(esp, "cão") || Mentions(esp, "cachorro"))
      && (PetIcon(especie, lower) == Cat <==>
            !Mentions(esp, "cão") && !Mentions(esp, "cachorro") && Mentions(esp, "gato"))
      && (PetIcon(especie, lower) == Rabbit <==>
            !Mentions(esp, "cão") && !Mentions(esp, "cachorro") && !Mentions(esp, "gato"))
  {
    var esp := Species(especie, lower);
    IncludesIffOccurs(esp, "cão");
    IncludesIffOccurs(esp, "cachorro");
    IncludesIffOccurs(esp, "gato");
  }

  // ---------------------------------------------------------------------------
  // The page

  /** The arguments of one `fetchPets(page, searchTerm)`. */
  datatype Query = Query(page: int, search: string)

  /**
   * The page's state. `pending` is the timer the effect has scheduled and not
   * yet cleared or fired, with the values it will fetch.
   */
  datatype PetsState = PetsState(pets: Value, page: int, totalPages: Value, loading: bool, search: string,
                                 pending: Option<Query>)

  /** After mounting: empty list, page 0, no pages, and the effect's first timer scheduled. */
  const Mounted := PetsState(Arr([]), 0, Num(0), false, "", Some(Query(0, "")))

  datatype Event =
    | Type(text: string)   // the search box's `onChange`
    | Prev                 // the "previous" button
    | Next                 // the "next" button
    | Fire                 // the pending timer elapses

  /** The paginator renders only when `totalPages > 1`. */
  predicate PaginatorShown(st: PetsState) {
    Exceeds(st.totalPages, 1)
  }

  /** "Previous" exists and is not `disabled={page === 0}`. */
  predicate PrevEnabled(st: PetsState) {
    PaginatorShown(st) && st.page != 0
  }

  /** "Next" exists and is not `disabled={page + 1 >= totalPages}`. */
  predicate NextEnabled(st: PetsState) {
    PaginatorShown(st) && !AtLeast(st.page + 1, st.totalPages)
  }

  /**
   * A render with new `page`/`searchTerm`: when either changed, the effect's
   * cleanup clears the pending timer and a new one is scheduled with the new
   * values; otherwise the effect does not run.
   */
  function Rerender(st: PetsState, page: int, search: string): PetsState {
    if page == st.page && search == st.search then st
    else st.(page := page, search := search, pending := Some(Query(page, search)))
  }

  /** What one event leaves behind: the world, the page's state, and where it navigated. */
  datatype Tick = Tick(world: World, state: PetsState, nav: Option<string>)

  /**
   * `fetchPets(page, nameFilter)`: list through the service; a `null` or
   * `undefined` body throws on `.content` before anything is set, while an
   * object without `content` sets the list to `undefined`. Only a 401 navigates.
   */
  function FetchPets(w: World, server: Server, st: PetsState, q: Query): (r: Tick)
    ensures Sent(w, r.world, 1)
    ensures var req := r.world.trace[|w.trace|];
      && req.verb == GET && req.path == "/v1/pets" && "page" in req.params
      && req.params["page"] == Num(q.page)
      && ("nome" in req.params <==> q.search != "")
      && ("nome" in req.params ==> req.params["nome"] == Str(q.search))
    ensures !r.state.loading && r.state.pending.None?
    ensures r.state.page == st.page && r.state.search == st.search
    ensures var reply := ReplyAt(server, r.world, |w.trace|);
      && (reply.Ok? && !(reply.body.Undefined? || reply.body.Null?) ==>
            && r.state.pets == Get(reply.body, "content").value
            && r.state.totalPages == Get(reply.body, "totalPages").value
            && r.nav.None?)
      && (reply.Ok? && (reply.body.Undefined? || reply.body.Null?) ==>
            r.state.pets == st.pets && r.state.totalPages == st.totalPages && r.nav.None?)
      && (reply.Err? ==>
            && r.state.pets == st.pets && r.state.totalPages == st.totalPages
            && (r.nav == Some("/login") <==> reply.status == 401)
            && (r.nav.Some? ==> r.nav == Some("/login")))
  {
    var s := PetsService.List(w, server, q.page, Some(q.search));
    var st' := st.(loading := false, pending := None);
    match s.result
    case Done(data) =>
      (match Get(data, "content")
       case None => Tick(s.world, st', None)
       case Some(content) => Tick(s.world, st'.(pets := content, totalPages := Get(data, "totalPages").value), None))
    case Fail(f) => Tick(s.world, st', if IsUnauthorized(f) then Some("/login") else None)
  }

  /** `page` never goes negative, and a scheduled timer always carries the current values. */
  predicate Coherent(st: PetsState) {
    st.page >= 0 && (st.pending.Some? ==> st.pending.value == Query(st.page, st.search))
  }

  function Step(w: World, server: Server, st: PetsState, e: Event): (r: Tick)
    // Only a firing timer talks to the server.
    ensures !e.Fire? ==> r.world == w && r.nav.None?
    // Typing sets the term and returns to the first page.
    ensures e.Type? ==> r.state.search == e.text && r.state.page == 0
    // A change replaces the pending fetch with one for the new values.
    ensures e.Type? && (st.page != 0 || st.search != e.text) ==> r.state.pending == Some(Query(0, e.text))
    // "Previous" steps back one page and schedules that page's fetch; disabled, it does nothing.
    ensures e.Prev? && PrevEnabled(st) ==>
      r.state.page == st.page - 1 && r.state.pending == Some(Query(st.page - 1, st.search))
    ensures e.Prev? && !PrevEnabled(st) ==> r.state == st
    // "Next" steps forward and schedules that page's fetch, only ever to a page below `totalPages`.
    ensures e.Next? && NextEnabled(st) ==>
      && r.state.page == st.page + 1 && r.state.search == st.search
      && r.state.pending == Some(Query(st.page + 1, st.search))
      && ToNumber(st.totalPages).Some? && r.state.page < ToNumber(st.totalPages).value
    ensures e.Next? && !NextEnabled(st) ==> r.state == st
    // With no timer pending, nothing happens; with one, exactly its fetch.
    ensures e.Fire? && st.pending.None? ==> r == Tick(w, st, None)
    ensures e.Fire? && st.pending.Some? ==> r == FetchPets(w, server, st, st.pending.value)
    ensures Coherent(st) ==> Coherent(r.state)
  {
    match e
    case Type(text) => Tick(w, Rerender(st, 0, text), None)
    case Prev => Tick(w, if PrevEnabled(st) then Rerender(st, st.page - 1, st.search) else st, None)
    case Next => Tick(w, if NextEnabled(st) then Rerender(st, st.page + 1, st.search) else st, None)
    case Fire =>
      match st.pending
      case None => Tick(w, st, None)
      case Some(q) => FetchPets(w, server, st, q)
  }

  /** A sequence of events; a navigation unmounts the page, so nothing after it is handled. */
  function Run(w: World, server: Server, st: PetsState, events: seq<Event>): Tick
    decreases |events|
  {
    if events == [] then Tick(w, st, None)
    else
      var t := Step(w, server, st, events[0]);
      if t.nav.Some? then t else Run(t.world, server, t.state, events[1..])
  }

  /** No event handled from a coherent state makes it incoherent: in particular `page >= 0` always. */
  lemma {:induction false} RunCoherent(w: World, server: Server, st: PetsState, events: seq<Event>)
    requires Coherent(st)
    ensures Coherent(Run(w, server, st, events).state)
    decreases |events|
  {
    if events != [] {
      var t := Step(w, server, st, events[0]);
      if t.nav.None? {
        RunCoherent(t.world, server, t.state, events[1..]);
      }
    }
  }

  /** Handling one more event after a run that did not navigate. */
  lemma {:induction false} RunSnoc(w: World, server: Server, st: PetsState, events: seq<Event>, e: Event)
    requires Run(w, server, st, events).nav.None?
    ensures var t := Run(w, server, st, events);
      Run(w, server, st, events + [e]) == Step(t.world, server, t.state, e)
    decreases |events|
  {
    if events == [] {
      assert events + [e] == [e];
    } else {
      var t := Step(w, server, st, events[0]);
      assert (events + [e])[0] == events[0];
      assert (events + [e])[1..] == events[1..] + [e];
      RunSnoc(t.world, server, t.state, events[1..], e);
    }
  }

  /** A burst of typing and paging with no timer elapsing. */
  predicate Burst(events: seq<Event>) {
    forall i :: 0 <= i < |events| ==> !events[i].Fire?
  }

  /** A burst sends nothing and leaves at most one fetch pending: the one for the values it ended on. */
  lemma {:induction false} BurstSendsNothing(w: World, server: Server, st: PetsState, events: seq<Event>)
    requires Coherent(st) && Burst(events)
    ensures var t := Run(w, server, st, events);
      t.world == w && t.nav.None? && Coherent(t.state)
    decreases |events|
  {
    if events != [] {
      var t := Step(w, server, st, events[0]);
      assert !events[0].Fire?;
      assert Burst(events[1..]) by {
        forall i | 0 <= i < |events[1..]| ensures !events[1..][i].Fire? {
          assert events[1..][i] == events[i + 1];
        }
      }
      BurstSendsNothing(t.world, server, t.state, events[1..]);
    }
  }

  /**
   * The debounce: when the timer fires after a burst, one request goes out
   * exactly when a fetch is pending, and it asks for the page and search term
   * the burst ended on.
   */
  lemma OnlyLastValuesFetched(w: World, server: Server, st: PetsState, events: seq<Event>)
    requires Coherent(st) && Burst(events)
    ensures var last := Run(w, server, st, events).state;
      var t := Run(w, server, st, events + [Fire]);
      && |w.trace| <= |t.world.trace| <= |w.trace| + 1
      && (|t.world.trace| == |w.trace| + 1 <==> last.pending.Some?)
      && (|t.world.trace| == |w.trace| + 1 ==>
            var req := t.world.trace[|w.trace|];
            && "page" in req.params && req.params["page"] == Num(last.page)
            && ("nome" in req.params <==> last.search != "")
            && ("nome" in req.params ==> req.params["nome"] == Str(last.search)))
  {
    BurstSendsNothing(w, server, st, events);
    RunSnoc(w, server, st, events, Fire);
  }

  /** Two keystrokes before the timer elapses cost one request, for the second text. */
  lemma TypingTwiceFetchesOnce(w: World, server: Server, a: string, b: string)
    requires b != ""
    ensures var t := Run(w, server, Mounted, [Type(a), Type(b), Fire]);
      && |t.world.trace| == |w.trace| + 1
      && "nome" in t.world.trace[|w.trace|].params
      && t.world.trace[|w.trace|].params["nome"] == Str(b)
  {
    var t1 := Step(w, server, Mounted, Type(a));
    var t2 := Step(t1.world, server, t1.state, Type(b));
    assert t2.state.pending == Some(Query(0, b));
    assert Run(w, server, Mounted, [Type(a), Type(b), Fire]) == Run(t2.world, server, t2.state, [Fire]) by {
      assert [Type(a), Type(b), Fire][1..] == [Type(b), Fire];
      assert [Type(b), Fire][1..] == [Fire];
    }
  }
}
