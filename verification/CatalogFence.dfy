/** One catalog over every interleaving of hints and fetches: a fetch is judged
    current only if no hint for its style arrived since it began, and a hint
    stays pending until a fetch begun after it completes.

    A node carries its history: every hint ever accepted (`log`), and for each
    fetch the length of that log when its fence was captured (`start`).
  */
module CatalogFence {
  import opened Text
  import opened StyleCatalog

  datatype Hint = Hint(style: StyleId, id: Option<string>)
  datatype Flight = Flight(style: StyleId, fence: Fence, start: nat)
  datatype Fetch = Fetch(style: StyleId, start: nat, version: nat)

  datatype Node = Node(catalog: Catalog, log: seq<Hint>, flights: map<nat, Flight>, fetched: seq<Fetch>)

  datatype NodeEvent =
    | HintArrives(hint: Hint)
    | FetchBegins(flight: nat, style: StyleId)
    | FetchCompletes(flight: nat, version: nat, freshness: nat, now: nat, slot: nat)
    | ObservationArrives(observation: Observation)
    | Configure(byId: map<StyleId, nat>, namespaces: set<string>, hasDefaultTemplate: bool)

  /** Fewer than 2^64 hints arrive during one flight. */
  predicate Possible(n: Node, e: NodeEvent) {
    match e
    case FetchBegins(flight, _) => flight !in n.flights
    case FetchCompletes(flight, _, _, _, _) => flight in n.flights && |n.log| < n.flights[flight].start + U64
    case _ => true
  }

  function Apply(n: Node, e: NodeEvent): Node
    requires Possible(n, e)
  {
    match e
    case HintArrives(hint) =>
      n.(catalog := Request(n.catalog, hint.style, hint.id), log := n.log + [hint])
    case FetchBegins(flight, style) =>
      n.(flights := n.flights[flight := Flight(style, CaptureFence(n.catalog, style), |n.log|)])
    case FetchCompletes(flight, version, freshness, now, slot) =>
      var f := n.flights[flight];
      n.(catalog := Recorded(n.catalog, f.style, version, freshness, f.fence, now, slot),
         flights := n.flights - {flight},
         fetched := n.fetched + [Fetch(f.style, f.start, version)])
    case ObservationArrives(o) =>
      n.(catalog := ApplyObservation(n.catalog, o))
    case Configure(byId, namespaces, hasDefaultTemplate) =>
      n.(catalog := n.catalog.(byId := byId, namespaces := namespaces, hasDefaultTemplate := hasDefaultTemplate))
  }

  predicate Legal(n: Node, run: seq<NodeEvent>)
    decreases |run|
  {
    run == [] || (Possible(n, run[0]) && Legal(Apply(n, run[0]), run[1..]))
  }

  function Run(n: Node, run: seq<NodeEvent>): Node
    requires Legal(n, run)
    decreases |run|
  {
    if run == [] then n else Run(Apply(n, run[0]), run[1..])
  }

  predicate Fresh(n: Node) {
    && n.log == [] && n.flights == map[] && n.fetched == []
    && n.catalog.observed == map[] && n.catalog.cluster == map[] && n.catalog.pendingHints == map[]
    && n.catalog.generations == map[] && n.catalog.requests == 0
  }

  // ---- Reading the history -----------------------------------------------

  /** Hints for one style, of those since position `start`. */
  function HintsSince(log: seq<Hint>, start: nat, style: StyleId): nat
    decreases |log|
  {
    if |log| <= start then 0
    else HintsSince(log[..|log| - 1], start, style) + (if log[|log| - 1].style == style then 1 else 0)
  }

  /** Where the latest named hint for a style is. */
  function LastNamed(log: seq<Hint>, style: StyleId): Option<nat>
    decreases |log|
  {
    if log == [] then None
    else if log[|log| - 1].style == style && log[|log| - 1].id.Some? then Some(|log| - 1)
    else LastNamed(log[..|log| - 1], style)
  }

  /** The latest beginning among the completed fetches of a style. */
  function SettledFrom(fetched: seq<Fetch>, style: StyleId): nat
    decreases |fetched|
  {
    if fetched == [] then 0
    else
      var last, before := fetched[|fetched| - 1], SettledFrom(fetched[..|fetched| - 1], style);
      if last.style == style then Max(last.start, before) else before
  }

  /** Some hint for the style is newer than every completed fetch's beginning. */
  predicate Unsatisfied(n: Node, style: StyleId) {
    HintsSince(n.log, SettledFrom(n.fetched, style), style) > 0
  }

  lemma HintsSinceAppend(log: seq<Hint>, h: Hint, start: nat, style: StyleId)
    ensures HintsSince(log + [h], start, style) ==
            HintsSince(log, start, style) + (if start <= |log| && h.style == style then 1 else 0)
  {
    assert (log + [h])[..|log|] == log;
    if |log| < start {
      assert HintsSince(log, start, style) == 0;
    }
  }

  lemma {:induction false} HintsSinceBound(log: seq<Hint>, start: nat, style: StyleId)
    ensures HintsSince(log, start, style) <= if |log| <= start then 0 else |log| - start
    decreases |log|
  {
    if |log| > start {
      HintsSinceBound(log[..|log| - 1], start, style);
    }
  }

  lemma {:induction false} HintsSinceMonotone(log: seq<Hint>, early: nat, late: nat, style: StyleId)
    requires early <= late
    ensures HintsSince(log, late, style) <= HintsSince(log, early, style)
    decreases |log|
  {
    if |log| > late {
      HintsSinceMonotone(log[..|log| - 1], early, late, style);
    }
  }

  lemma {:induction false} NoHintsSince(log: seq<Hint>, start: nat, style: StyleId, i: nat)
    requires HintsSince(log, start, style) == 0 && start <= i < |log|
    ensures log[i].style != style
    decreases |log|
  {
    if i < |log| - 1 {
      NoHintsSince(log[..|log| - 1], start, style, i);
    }
  }

  lemma {:induction false} LastNamedIsNamed(log: seq<Hint>, style: StyleId)
    requires LastNamed(log, style).Some?
    ensures
      var i := LastNamed(log, style).value;
      && i < |log| && log[i].style == style && log[i].id.Some?
      && forall j | i < j < |log| :: log[j].style == style ==> log[j].id.None?
    decreases |log|
  {
    if !(log[|log| - 1].style == style && log[|log| - 1].id.Some?) {
      LastNamedIsNamed(log[..|log| - 1], style);
    }
  }

  // ---- The invariant -----------------------------------------------------

  predicate CountersOk(n: Node) {
    && n.catalog.requests == |n.log| % U64
    && n.catalog.generations.Keys <= n.catalog.observed.Keys
    && forall s | s in n.catalog.generations :: n.catalog.generations[s] < U64
  }

  /** What a flight's fence still says about the hints since it began. */
  predicate FlightOk(n: Node, f: Flight) {
    && f.start <= |n.log|
    && f.fence.requests == f.start % U64
    && match f.fence.generation
       case Some(g) =>
         && g < U64 && f.style in n.catalog.generations
         && n.catalog.generations[f.style] == (g + HintsSince(n.log, f.start, f.style)) % U64
       case None =>
         f.style in n.catalog.generations ==> HintsSince(n.log, f.start, f.style) > 0
  }

  predicate FlightsOk(n: Node) {
    forall f | f in n.flights :: FlightOk(n, n.flights[f])
  }

  predicate PendingAt(n: Node, s: StyleId) {
    Unsatisfied(n, s) && s in n.catalog.observed ==> n.catalog.observed[s].pending
  }

  ghost predicate PendingOk(n: Node) {
    forall s :: PendingAt(n, s)
  }

  /** The stored hint is the latest named one the node received for the style. */
  predicate NamedAt(n: Node, s: StyleId) {
    s in n.catalog.pendingHints ==>
      && LastNamed(n.log, s).Some? && LastNamed(n.log, s).value < |n.log|
      && n.log[LastNamed(n.log, s).value].id == Some(n.catalog.pendingHints[s])
  }

  ghost predicate NamedOk(n: Node) {
    forall s :: NamedAt(n, s)
  }

  ghost predicate NodeOk(n: Node) {
    CountersOk(n) && FlightsOk(n) && PendingOk(n) && NamedOk(n)
  }

  // ---- The fence ---------------------------------------------------------

  /** Exactly when a completing fetch is judged current, wrap-around included. */
  lemma FenceExact(n: Node, f: Flight)
    requires CountersOk(n) && FlightOk(n, f)
    ensures FetchIsCurrent(n.catalog, f.style, f.fence) <==>
              || (|n.log| - f.start) % U64 == 0
              || (f.fence.generation.Some? && HintsSince(n.log, f.start, f.style) % U64 == 0)
  {
    hide HintsSince;
  }

  /** Soundness: with fewer than 2^64 hints in flight, a fetch is judged current
      exactly when no hint arrived at all, or the style had a fence entry and no
      hint for it arrived. */
  lemma FenceSound(n: Node, f: Flight)
    requires CountersOk(n) && FlightOk(n, f) && |n.log| < f.start + U64
    ensures FetchIsCurrent(n.catalog, f.style, f.fence) <==>
              || |n.log| == f.start
              || (f.fence.generation.Some? && HintsSince(n.log, f.start, f.style) == 0)
    ensures FetchIsCurrent(n.catalog, f.style, f.fence) ==> HintsSince(n.log, f.start, f.style) == 0
  {
    FenceExact(n, f);
    HintsSinceBound(n.log, f.start, f.style);
  }

  // ---- Preservation ------------------------------------------------------

  lemma HintKeepsCounters(n: Node, h: Hint)
    requires CountersOk(n)
    ensures CountersOk(Apply(n, HintArrives(h)))
  {
    hide StoresHint, StoresGeneration;
    assert n.catalog.generations.Keys <= n.catalog.observed.Keys;
  }

  lemma Wraps(x: nat)
    ensures (x % U64 + 1) % U64 == (x + 1) % U64
  {
  }

  /** A hint advances its own style's generation and no other. */
  lemma GenerationAfterHint(n: Node, h: Hint, style: StyleId)
    requires CountersOk(n)
    ensures var after := Apply(n, HintArrives(h)).catalog.generations;
            && (style in n.catalog.generations ==>
                  style in after && after[style] ==
                     (n.catalog.generations[style] + (if h.style == style then 1 else 0)) % U64)
            && (style in after && style !in n.catalog.generations ==> h.style == style)
  {
    hide StoresHint, StoresGeneration, HintsSince;
    if style in n.catalog.generations {
      assert style in n.catalog.generations.Keys;
      assert style in n.catalog.observed;
    }
  }

  lemma HintKeepsFlight(n: Node, h: Hint, f: Flight)
    requires CountersOk(n) && FlightOk(n, f)
    ensures FlightOk(Apply(n, HintArrives(h)), f)
  {
    hide Request, HintsSince;
    HintsSinceAppend(n.log, h, f.start, f.style);
    GenerationAfterHint(n, h, f.style);
    if f.fence.generation.Some? {
      Wraps(f.fence.generation.value + HintsSince(n.log, f.start, f.style));
    }
  }

  lemma HintKeepsPending(n: Node, h: Hint, s: StyleId)
    requires PendingAt(n, s)
    ensures PendingAt(Apply(n, HintArrives(h)), s)
  {
    hide StoresHint, NextGeneration;
    HintsSinceAppend(n.log, h, SettledFrom(n.fetched, s), s);
  }

  lemma HintKeepsNamed(n: Node, h: Hint, s: StyleId)
    requires NamedAt(n, s)
    ensures NamedAt(Apply(n, HintArrives(h)), s)
  {
    hide NextGeneration;
    var next := Apply(n, HintArrives(h));
    assert next.log[..|n.log|] == n.log;
    if s in n.catalog.pendingHints {
      assert StoresHint(n.catalog.pendingHints, s);
    }
  }

  lemma SettledAppend(fetched: seq<Fetch>, f: Fetch, style: StyleId)
    ensures SettledFrom(fetched + [f], style) ==
            if f.style == style then Max(f.start, SettledFrom(fetched, style)) else SettledFrom(fetched, style)
  {
    assert (fetched + [f])[..|fetched|] == fetched;
  }

  lemma CompletionKeepsPending(n: Node, e: NodeEvent, s: StyleId)
    requires CountersOk(n) && FlightsOk(n) && PendingAt(n, s) && Possible(n, e) && e.FetchCompletes?
    ensures PendingAt(Apply(n, e), s)
  {
    hide FetchIsCurrent, ClusterAfter, Configured, Encodable;
    var f := n.flights[e.flight];
    SettledAppend(n.fetched, Fetch(f.style, f.start, e.version), s);
    if s == f.style && FetchIsCurrent(n.catalog, f.style, f.fence) {
      FenceSound(n, f);
      HintsSinceMonotone(n.log, f.start, Max(f.start, SettledFrom(n.fetched, s)), s);
    }
  }

  lemma CompletionKeepsFlight(n: Node, e: NodeEvent, f: Flight)
    requires CountersOk(n) && FlightOk(n, f) && Possible(n, e) && e.FetchCompletes?
    ensures FlightOk(Apply(n, e), f) && CountersOk(Apply(n, e))
  {
    hide FetchIsCurrent, ClusterAfter, Observe, Encodable, HintsSince;
  }

  lemma CompletionKeepsCounters(n: Node, e: NodeEvent)
    requires CountersOk(n) && Possible(n, e) && e.FetchCompletes?
    ensures CountersOk(Apply(n, e))
  {
    hide FetchIsCurrent, ClusterAfter, Observe, Encodable;
  }

  lemma CompletionKeepsNamed(n: Node, e: NodeEvent, s: StyleId)
    requires NamedAt(n, s) && Possible(n, e) && e.FetchCompletes?
    ensures NamedAt(Apply(n, e), s)
  {
    hide FetchIsCurrent, ClusterAfter, Observe, Encodable, LastNamed;
  }

  lemma AdoptionKeepsNamed(n: Node, o: Observation, s: StyleId)
    requires NamedAt(n, s)
    ensures NamedAt(Apply(n, ObservationArrives(o)), s)
  {
    hide Encodable, LatestVersion, LastNamed;
  }

  lemma HintKeeps(n: Node, h: Hint)
    requires NodeOk(n)
    ensures NodeOk(Apply(n, HintArrives(h)))
  {
    hide Request, FlightOk, PendingAt, NamedAt, CountersOk;
    var next := Apply(n, HintArrives(h));
    HintKeepsCounters(n, h);
    forall f | f in next.flights ensures FlightOk(next, next.flights[f]) {
      HintKeepsFlight(n, h, n.flights[f]);
    }
    forall s ensures PendingAt(next, s) && NamedAt(next, s) {
      assert PendingAt(n, s) && NamedAt(n, s);
      HintKeepsPending(n, h, s);
      HintKeepsNamed(n, h, s);
    }
  }

  lemma CompletionKeeps(n: Node, e: NodeEvent)
    requires NodeOk(n) && Possible(n, e) && e.FetchCompletes?
    ensures NodeOk(Apply(n, e))
  {
    hide Recorded, FlightOk, PendingAt, NamedAt, CountersOk, Encodable;
    var next := Apply(n, e);
    CompletionKeepsCounters(n, e);
    forall f | f in next.flights ensures FlightOk(next, next.flights[f]) {
      CompletionKeepsFlight(n, e, n.flights[f]);
    }
    forall s ensures PendingAt(next, s) && NamedAt(next, s) {
      assert PendingAt(n, s) && NamedAt(n, s);
      CompletionKeepsPending(n, e, s);
      CompletionKeepsNamed(n, e, s);
    }
  }

  lemma OtherEventKeeps(n: Node, e: NodeEvent)
    requires NodeOk(n) && Possible(n, e) && !e.HintArrives? && !e.FetchCompletes?
    ensures NodeOk(Apply(n, e))
  {
    hide Encodable, HintsSince, SettledFrom, LastNamed, LatestVersion, PendingAt, NamedAt;
    var next := Apply(n, e);
    forall s ensures PendingAt(next, s) && NamedAt(next, s) {
      assert PendingAt(n, s) && NamedAt(n, s);
      QuietKeepsPending(n, e, s);
      QuietKeepsNamed(n, e, s);
    }
    forall f | f in next.flights ensures FlightOk(next, next.flights[f]) {
      if e.FetchBegins? && f == e.flight {
        BeginOk(n, e.flight, e.style);
      } else {
        assert FlightOk(n, n.flights[f]);
      }
    }
  }

  lemma BeginOk(n: Node, flight: nat, style: StyleId)
    requires CountersOk(n)
    ensures FlightOk(n, Flight(style, CaptureFence(n.catalog, style), |n.log|))
  {
    HintsSinceBound(n.log, |n.log|, style);
  }

  lemma QuietKeepsPending(n: Node, e: NodeEvent, s: StyleId)
    requires PendingAt(n, s) && Possible(n, e) && !e.HintArrives? && !e.FetchCompletes?
    ensures PendingAt(Apply(n, e), s)
  {
    hide Adopts, Superseded, HintsSince, SettledFrom;
  }

  lemma QuietKeepsNamed(n: Node, e: NodeEvent, s: StyleId)
    requires NamedAt(n, s) && Possible(n, e) && !e.HintArrives? && !e.FetchCompletes?
    ensures NamedAt(Apply(n, e), s)
  {
    hide LastNamed;
    if e.ObservationArrives? {
      AdoptionKeepsNamed(n, e.observation, s);
    }
  }

  lemma EventKeeps(n: Node, e: NodeEvent)
    requires NodeOk(n) && Possible(n, e)
    ensures NodeOk(Apply(n, e))
  {
    hide NodeOk, Apply, Possible;
    match e
    case HintArrives(h) => HintKeeps(n, h);
    case FetchCompletes(_, _, _, _, _) => CompletionKeeps(n, e);
    case _ => OtherEventKeeps(n, e);
  }

  lemma {:induction false} RunKeeps(n: Node, run: seq<NodeEvent>)
    requires NodeOk(n) && Legal(n, run)
    ensures NodeOk(Run(n, run))
    decreases |run|
  {
    hide NodeOk, Apply, Possible;
    if run != [] {
      EventKeeps(n, run[0]);
      RunKeeps(Apply(n, run[0]), run[1..]);
    }
  }

  lemma FreshOk(n: Node)
    requires Fresh(n)
    ensures NodeOk(n)
  {
    forall s ensures PendingAt(n, s) && NamedAt(n, s) {
    }
  }

  // ---- Theorems over every run -------------------------------------------

  /** A completing fetch is judged current only if no hint for its style arrived
      since its fence was captured, whatever happened to other styles and even
      with both bounded maps full. */
  lemma FenceSoundInEveryRun(n: Node, run: seq<NodeEvent>, flight: nat)
    requires Fresh(n) && Legal(n, run)
    requires flight in Run(n, run).flights
    requires |Run(n, run).log| < Run(n, run).flights[flight].start + U64
    ensures
      var m := Run(n, run);
      var f := m.flights[flight];
      && f.start <= |m.log|
      && (FetchIsCurrent(m.catalog, f.style, f.fence) <==>
            || |m.log| == f.start
            || (f.fence.generation.Some? && forall i | f.start <= i < |m.log| :: m.log[i].style != f.style))
  {
    hide Fresh, Legal, Run, FetchIsCurrent, HintsSince, PendingOk, NamedOk;
    FreshOk(n);
    RunKeeps(n, run);
    var m := Run(n, run);
    var f := m.flights[flight];
    FenceSound(m, f);
    if HintsSince(m.log, f.start, f.style) == 0 {
      forall i | f.start <= i < |m.log| ensures m.log[i].style != f.style {
        NoHintsSince(m.log, f.start, f.style, i);
      }
    }
    if forall i | f.start <= i < |m.log| :: m.log[i].style != f.style {
      NoneSince(m.log, f.start, f.style);
    }
  }

  lemma {:induction false} NoneSince(log: seq<Hint>, start: nat, style: StyleId)
    requires forall i | start <= i < |log| :: log[i].style != style
    ensures HintsSince(log, start, style) == 0
    decreases |log|
  {
    if |log| > start {
      NoneSince(log[..|log| - 1], start, style);
    }
  }

  /** A hint keeps its style pending, or unfetched and therefore due, until a
      fetch begun after it completes; the output cache is then bypassed for
      every revision except the current cluster revision. */
  lemma HintStaysPending(n: Node, run: seq<NodeEvent>, style: StyleId, version: nat, now: nat)
    requires Fresh(n) && Legal(n, run) && Unsatisfied(Run(n, run), style)
    ensures
      var c := Run(n, run).catalog;
      && (style in c.observed ==> c.observed[style].pending)
      && (BlocksOutputCache(c, style, version, now) <==> !IsCurrentClusterRevision(c, style, version))
  {
    hide Fresh, Legal, Run, CountersOk, FlightsOk, NamedOk, Unsatisfied;
    FreshOk(n);
    RunKeeps(n, run);
    assert PendingAt(Run(n, run), style);
  }

  /** In every run no fetch is scheduled before the style's last fetch plus the
      floor, however many hints press for it. */
  lemma FloorInEveryRun(n: Node, run: seq<NodeEvent>, style: StyleId)
    requires Fresh(n) && Legal(n, run) && style in Run(n, run).catalog.observed
    ensures var c := Run(n, run).catalog;
            c.observed[style].revalidateAfter >= c.observed[style].lastObservedAt + n.catalog.floor
  {
    hide Run, Legal;
    RunKeepsFloor(n, run);
  }

  lemma {:induction false} RunKeepsFloor(n: Node, run: seq<NodeEvent>)
    requires FloorHolds(n.catalog) && Legal(n, run)
    ensures FloorHolds(Run(n, run).catalog) && Run(n, run).catalog.floor == n.catalog.floor
    decreases |run|
  {
    hide FloorHolds, Request, Recorded, ApplyObservation;
    if run != [] {
      var e := run[0];
      match e {
        case HintArrives(h) => FloorKeptByHint(n.catalog, h.style, h.id);
        case FetchCompletes(flight, v, freshness, now, slot) =>
          FloorKeptByFetch(n.catalog, n.flights[flight].style, v, freshness, n.flights[flight].fence, now, slot);
        case ObservationArrives(o) => FloorKeptByAdoption(n.catalog, o);
        case _ =>
      }
      SameFloor(n, e);
      RunKeepsFloor(Apply(n, e), run[1..]);
    }
  }

  lemma SameFloor(n: Node, e: NodeEvent)
    requires Possible(n, e)
    ensures Apply(n, e).catalog.floor == n.catalog.floor
    ensures e.Configure? && FloorHolds(n.catalog) ==> FloorHolds(Apply(n, e).catalog)
  {
    hide StoresHint, NextGeneration, Adopts, Superseded, Observe, ClusterAfter, FetchIsCurrent;
  }

  /** No hint at all arrived since the flight began, or its style had a fence entry
      and none for that style did. */
  predicate Undisturbed(n: Node, f: Flight) {
    || |n.log| == f.start
    || (f.fence.generation.Some? && forall i | f.start <= i < |n.log| :: n.log[i].style != f.style)
  }

  /** When the next fetch is due, over every run: a fetch that was not disturbed by
      hints buys the style its freshness, but no less than the floor; any other buys
      only the floor, so that a hint accepted during the flight is not put off. */
  lemma ScheduledExactly(n: Node, run: seq<NodeEvent>, e: NodeEvent)
    requires Fresh(n) && Legal(n, run) && Possible(Run(n, run), e) && e.FetchCompletes?
    ensures
      var m := Run(n, run);
      var f := m.flights[e.flight];
      var after := Apply(m, e).catalog.observed;
      && f.start <= |m.log| && f.style in after && after[f.style].lastObservedAt == e.now
      && (after[f.style].pending <==> !Undisturbed(m, f))
      && after[f.style].revalidateAfter ==
           (if Undisturbed(m, f) && e.freshness > n.catalog.floor then e.now + e.freshness
            else e.now + n.catalog.floor)
      && ((exists i | f.start <= i < |m.log| :: m.log[i].style == f.style) ==>
            after[f.style].revalidateAfter == e.now + n.catalog.floor)
  {
    hide Fresh, Legal, Run, Configured, ClusterAfter, Panics;
    FenceSoundInEveryRun(n, run, e.flight);
    FloorNeverChanges(n, run);
    var m := Run(n, run);
    var f := m.flights[e.flight];
    if i :| f.start <= i < |m.log| && m.log[i].style == f.style {
      assert !Undisturbed(m, f);
    }
  }

  lemma {:induction false} FloorNeverChanges(n: Node, run: seq<NodeEvent>)
    requires Legal(n, run)
    ensures Run(n, run).catalog.floor == n.catalog.floor
    decreases |run|
  {
    hide Apply, Possible, FloorHolds;
    if run != [] {
      SameFloor(n, run[0]);
      FloorNeverChanges(Apply(n, run[0]), run[1..]);
    }
  }

  /** A pending style is due within the floor of its last fetch. */
  ghost predicate PulledIn(c: Catalog) {
    forall s | s in c.observed && c.observed[s].pending ::
      c.observed[s].revalidateAfter <= c.observed[s].lastObservedAt + c.floor
  }

  lemma PulledInKept(n: Node, e: NodeEvent)
    requires PulledIn(n.catalog) && Possible(n, e)
    ensures PulledIn(Apply(n, e).catalog)
  {
    hide StoresHint, NextGeneration, Adopts, Superseded, ClusterAfter, FetchIsCurrent, Configured, Panics;
  }

  lemma {:induction false} RunKeepsPulledIn(n: Node, run: seq<NodeEvent>)
    requires PulledIn(n.catalog) && Legal(n, run)
    ensures PulledIn(Run(n, run).catalog)
    decreases |run|
  {
    hide Apply, Possible, PulledIn;
    if run != [] {
      PulledInKept(n, run[0]);
      RunKeepsPulledIn(Apply(n, run[0]), run[1..]);
    }
  }

  /** In every run the style of an unsatisfied hint is due as soon as the floor after
      its last fetch allows, and not a moment earlier; one never fetched is due now. */
  lemma UnsatisfiedIsDue(n: Node, run: seq<NodeEvent>, style: StyleId, now: nat)
    requires Fresh(n) && Legal(n, run) && Unsatisfied(Run(n, run), style)
    ensures
      var c := Run(n, run).catalog;
      && (style in c.observed ==>
            c.observed[style].revalidateAfter == c.observed[style].lastObservedAt + n.catalog.floor)
      && (style !in c.observed ==> NeedsRevalidation(c, style, now))
  {
    hide Legal, Run, Unsatisfied, BlocksOutputCache;
    HintStaysPending(n, run, style, 0, now);
    RunKeepsPulledIn(n, run);
    FloorNeverChanges(n, run);
    if style in Run(n, run).catalog.observed {
      FloorInEveryRun(n, run, style);
    }
  }

  /** Short ids always fit the gossip envelope. */
  lemma AnnouncementFits(hint: string, style: StyleId, v: nat)
    requires 0 < |hint| <= 128 && 0 < |style| <= 256 && RESERVED_VERSION_BIT <= v < U64
    ensures Encodable(Observation(1, hint, style, v))
  {
    MachineDecimalLength(v);
  }

  lemma {:induction false} Then(n: Node, run: seq<NodeEvent>, e: NodeEvent)
    requires Legal(n, run) && Possible(Run(n, run), e)
    ensures Legal(n, run + [e]) && Run(n, run + [e]) == Apply(Run(n, run), e)
    decreases |run|
  {
    hide Possible, Apply;
    if run == [] {
      assert run + [e] == [e] && [e][1..] == [];
    } else {
      Then(Apply(n, run[0]), run[1..], e);
      assert (run + [e])[1..] == run[1..] + [e];
    }
  }

  /** The exemption is real: after a hint, its fetch and a second hint, the
      revision the first hint announced is still served from the output cache. */
  lemma SecondHintDoesNotBlock(n: Node, v: nat) returns (run: seq<NodeEvent>)
    requires Fresh(n) && RESERVED_VERSION_BIT <= v < U64
    ensures Legal(n, run) && Unsatisfied(Run(n, run), "s")
    ensures !BlocksOutputCache(Run(n, run).catalog, "s", v, 0)
  {
    AnnouncementFits("h", "s", v);
    hide Encodable, Run, Legal;
    var a, b := HintArrives(Hint("s", Some("h"))), FetchBegins(0, "s");
    var c, d := FetchCompletes(0, v, 0, 0, 0), HintArrives(Hint("s", Some("k")));
    Nothing(n);
    Then(n, [], a);
    Then(n, [] + [a], b);
    Then(n, [] + [a] + [b], c);
    var n3 := Run(n, [] + [a] + [b] + [c]);
    Then(n, [] + [a] + [b] + [c], d);
    run := [] + [a] + [b] + [c] + [d];
    var n4 := Run(n, run);
    assert n4.catalog.cluster["s"].version == v;
    assert n4.log == n3.log + [d.hint] && |n3.log| == 1;
    SettledAppend([], Fetch("s", 1, v), "s");
    assert n4.fetched == [] + [Fetch("s", 1, v)];
    HintsSinceAppend(n3.log, d.hint, 1, "s");
  }

  lemma Nothing(n: Node)
    ensures Legal(n, []) && Run(n, []) == n
  {}

  /** Stranding is real: a style fetched once is hinted, the hint's revision is
      adopted from a peer, and an ordinary fetch that finds a third version makes the
      adopted revision, until then the latest, unacceptable. */
  lemma StrandingHappens(n: Node, first: nat, adopted: nat, third: nat)
    returns (before: seq<NodeEvent>, last: NodeEvent)
    requires Fresh(n) && RESERVED_VERSION_BIT <= adopted < U64
    requires first != adopted && third != adopted && third != first
    ensures Legal(n, before) && Legal(n, before + [last]) && last.FetchCompletes? && last.version == third
    ensures LatestVersion(Run(n, before).catalog, "s") == Some(adopted)
    ensures AcceptsVersion(Run(n, before).catalog, "s", adopted)
    ensures !AcceptsVersion(Run(n, before + [last]).catalog, "s", adopted)
  {
    AnnouncementFits("h", "s", adopted);
    hide Encodable, Run, Legal, Configured;
    var a, b := FetchBegins(0, "s"), FetchCompletes(0, first, 0, 0, 0);
    var c, d := HintArrives(Hint("s", Some("h"))), ObservationArrives(Observation(1, "h", "s", adopted));
    var e := FetchBegins(1, "s");
    last := FetchCompletes(1, third, 0, 0, 0);
    Nothing(n);
    Then(n, [], a);
    Then(n, [] + [a], b);
    before := [] + [a] + [b];
    assert Run(n, before).catalog.observed["s"].version == first;
    Then(n, before, c);
    Then(n, before + [c], d);
    before := before + [c] + [d];
    assert Run(n, before).catalog.cluster["s"].version == adopted;
    Then(n, before, e);
    before := before + [e];
    Then(n, before, last);
  }
}
