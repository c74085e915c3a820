/** The render output cache: one leader per key renders, followers wait for it,
    an invalidation fences renders that began before it, and bytes are only
    served to readers whose grants cover those recorded with the bytes.

    `lookup_or_join_key` is split at its real interleaving points: the lock-free
    first read, the section under the flight lock, and the epoch load after it.
    The bounded cache below may drop any entry at any time.
  */
module RenderCache {
  import opened Text
  import opened NamespaceSet

  const U64: nat := 0x1_0000_0000_0000_0000

  type ActorId = nat
  type Channel = nat
  type Grant = g: Option<seq<string>> | g.Some? ==> Canonical(g.value) witness None

  /** Every other component of the code's key (version, request, scale, format,
      source) is folded into `request`. */
  datatype RenderKey = RenderKey(style: string, request: string)

  /** `elected` and `since` are history variables: how often the epoch had advanced
      when the leader that rendered these bytes took the flight, and when it became
      ready by loading the epoch. */
  datatype Entry = Entry(output: string, required: Grant, elected: nat, since: nat)

  /** `CachedRenderOutput::is_authorized_for`. */
  predicate Authorized(required: Grant, readable: Grant) {
    match (required, readable)
    case (None, None) => true
    case (Some(r), Some(g)) => Allows(g, r)
    case _ => false
  }

  // ---- The shared structures ---------------------------------------------

  /** `woken` holds the channels whose followers have been notified;
      `invalidations` lists every style whose invalidation advanced the epoch, so
      the epoch is its length; `removing` is the style whose invalidation still
      holds the mutation gate, its entries not yet removed. */
  datatype Store = Store(
    cache: map<RenderKey, Entry>, flights: map<RenderKey, Channel>, woken: set<Channel>, channels: nat,
    invalidations: seq<string>, removing: Option<string>)

  function Epoch(s: Store): nat {
    |s.invalidations| % U64
  }

  /** How many invalidations have been carried out in full. */
  function Settled(s: Store): nat {
    if s.removing.Some? && s.invalidations != [] then |s.invalidations| - 1 else |s.invalidations|
  }

  datatype Lookup = Hit(entry: Entry) | Join(channel: Channel) | Elected(channel: Channel)

  function Get(s: Store, key: RenderKey, readable: Grant): Option<Entry> {
    if key in s.cache && Authorized(s.cache[key].required, readable) then Some(s.cache[key]) else None
  }

  /** The section of `lookup_or_join_key` under the flight lock. */
  function LookupLocked(s: Store, key: RenderKey, readable: Grant): Lookup {
    match Get(s, key, readable)
    case Some(entry) => Hit(entry)
    case None => if key in s.flights then Join(s.flights[key]) else Elected(s.channels)
  }

  function AfterLookup(s: Store, key: RenderKey, result: Lookup): Store {
    if result.Elected? then s.(flights := s.flights[key := result.channel], channels := s.channels + 1) else s
  }

  /** `insert_from_outcome` under the mutation gate. */
  predicate Admits(s: Store, key: RenderKey, required: Grant, epoch: nat) {
    epoch == Epoch(s) && (key in s.cache ==> s.cache[key].required == required)
  }

  function Admit(s: Store, key: RenderKey, entry: Entry, epoch: nat): Store {
    if Admits(s, key, entry.required, epoch) then s.(cache := s.cache[key := entry]) else s
  }

  function WithoutStyle(cache: map<RenderKey, Entry>, style: string): map<RenderKey, Entry> {
    map k | k in cache && k.style != style :: cache[k]
  }

  /** `invalidate_style` takes the mutation gate and advances the epoch. */
  function Advance(s: Store, style: string): Store {
    s.(invalidations := s.invalidations + [style], removing := Some(style))
  }

  /** Then it removes the style's entries and releases the gate. Reads and epoch
      loads take no gate and may fall in between. */
  function RemoveStyle(s: Store, style: string): Store {
    s.(cache := WithoutStyle(s.cache, style), removing := None)
  }

  function ReleaseFlight(s: Store, key: RenderKey): Store {
    s.(flights := s.flights - {key})
  }

  function WakeFollowers(s: Store, channel: Channel): Store {
    s.(woken := s.woken + {channel})
  }

  function Evict(s: Store, key: RenderKey): Store {
    s.(cache := s.cache - {key})
  }

  // ---- Actors ------------------------------------------------------------

  datatype Phase =
    | Reading
    | Looking
    | Electing(channel: Channel, elected: nat)
    | Leading(channel: Channel, elected: nat, epoch: nat, since: nat)
    | Releasing(channel: Channel)
    | Waiting(channel: Channel)
    | Served(entry: Entry, at: nat)
    | Ended

  datatype Actor = Actor(key: RenderKey, readable: Grant, phase: Phase)

  datatype World = World(store: Store, actors: map<ActorId, Actor>)

  datatype Event =
    | Arrive(id: ActorId, key: RenderKey, readable: Grant)
    | FirstRead(id: ActorId)
    | LockedLookup(id: ActorId)
    | LoadEpoch(id: ActorId)
    | InsertOutcome(id: ActorId, output: string)
    | DropLeader(id: ActorId)
    | Notify(id: ActorId)
    | Recheck(id: ActorId)
    | GiveUp(id: ActorId)
    | AdvanceEpoch(style: string)
    | RemoveEntries
    | EvictEntry(key: RenderKey)

  /** A follower rechecks once its channel was notified; insertions and
      invalidations exclude each other by the mutation gate; fewer than 2^64
      invalidations happen during one flight. */
  predicate Possible(w: World, e: Event) {
    match e
    case Arrive(id, _, _) => id !in w.actors
    case FirstRead(id) => id in w.actors && w.actors[id].phase.Reading?
    case LockedLookup(id) => id in w.actors && w.actors[id].phase.Looking?
    case LoadEpoch(id) => id in w.actors && w.actors[id].phase.Electing?
    case InsertOutcome(id, _) =>
      && id in w.actors && w.actors[id].phase.Leading? && w.store.removing.None?
      && |w.store.invalidations| < w.actors[id].phase.since + U64
    case DropLeader(id) => id in w.actors && w.actors[id].phase.Leading?
    case Notify(id) => id in w.actors && w.actors[id].phase.Releasing?
    case Recheck(id) => id in w.actors && w.actors[id].phase.Waiting? && w.actors[id].phase.channel in w.store.woken
    case GiveUp(id) => id in w.actors && w.actors[id].phase.Waiting?
    case AdvanceEpoch(_) => w.store.removing.None?
    case RemoveEntries => w.store.removing.Some?
    case EvictEntry(_) => true
  }

  function Moved(w: World, id: ActorId, store: Store, phase: Phase): World
    requires id in w.actors
  {
    World(store, w.actors[id := w.actors[id].(phase := phase)])
  }

  function LookupPhase(s: Store, result: Lookup): Phase {
    match result
    case Hit(entry) => Served(entry, Settled(s))
    case Join(channel) => Waiting(channel)
    case Elected(channel) => Electing(channel, |s.invalidations|)
  }

  function EntryOf(a: Actor, output: string): Entry
    requires a.phase.Leading?
  {
    Entry(output, a.readable, a.phase.elected, a.phase.since)
  }

  function Apply(w: World, e: Event): World
    requires Possible(w, e)
  {
    var s := w.store;
    match e
    case Arrive(id, key, readable) => w.(actors := w.actors[id := Actor(key, readable, Reading)])
    case FirstRead(id) =>
      Moved(w, id, s,
        match Get(s, w.actors[id].key, w.actors[id].readable)
        case Some(entry) => Served(entry, Settled(s))
        case None => Looking)
    case LockedLookup(id) =>
      var result := LookupLocked(s, w.actors[id].key, w.actors[id].readable);
      Moved(w, id, AfterLookup(s, w.actors[id].key, result), LookupPhase(s, result))
    case LoadEpoch(id) =>
      var p := w.actors[id].phase;
      Moved(w, id, s, Leading(p.channel, p.elected, Epoch(s), |s.invalidations|))
    case InsertOutcome(id, output) =>
      var a := w.actors[id];
      w.(store := Admit(s, a.key, EntryOf(a, output), a.phase.epoch))
    case DropLeader(id) =>
      Moved(w, id, ReleaseFlight(s, w.actors[id].key), Releasing(w.actors[id].phase.channel))
    case Notify(id) =>
      Moved(w, id, WakeFollowers(s, w.actors[id].phase.channel), Ended)
    case Recheck(id) => Moved(w, id, s, Reading)
    case GiveUp(id) => Moved(w, id, s, Ended)
    case AdvanceEpoch(style) => w.(store := Advance(s, style))
    case RemoveEntries => w.(store := RemoveStyle(s, s.removing.value))
    case EvictEntry(key) => w.(store := Evict(s, key))
  }

  predicate Legal(w: World, run: seq<Event>)
    decreases |run|
  {
    run == [] || (Possible(w, run[0]) && Legal(Apply(w, run[0]), run[1..]))
  }

  function Run(w: World, run: seq<Event>): World
    requires Legal(w, run)
    decreases |run|
  {
    if run == [] then w else Run(Apply(w, run[0]), run[1..])
  }

  predicate Init(w: World) {
    w == World(Store(map[], map[], {}, 0, [], None), map[])
  }

  // ---- The invariant -----------------------------------------------------

  predicate Leads(a: Actor) {
    a.phase.Electing? || a.phase.Leading?
  }

  predicate Owns(a: Actor, c: Channel) {
    (a.phase.Electing? || a.phase.Leading? || a.phase.Releasing?) && a.phase.channel == c
  }

  /** Both answer for the followers of one channel. */
  predicate Share(a: Actor, b: Actor) {
    (a.phase.Electing? || a.phase.Leading? || a.phase.Releasing?) && Owns(b, a.phase.channel)
  }

  /** No invalidation of `style` since the one counted `since`. */
  predicate NotInvalidated(s: Store, style: string, since: nat, until: nat) {
    forall i | since <= i < until && i < |s.invalidations| :: s.invalidations[i] != style
  }

  predicate ActorOk(s: Store, a: Actor) {
    match a.phase
    case Electing(c, elected) =>
      && c < s.channels && c !in s.woken && a.key in s.flights && s.flights[a.key] == c
      && elected <= |s.invalidations|
    case Leading(c, elected, epoch, since) =>
      && c < s.channels && c !in s.woken && a.key in s.flights && s.flights[a.key] == c
      && elected <= since <= |s.invalidations| && epoch == since % U64
    case Releasing(c) => c < s.channels && c !in s.woken && (a.key in s.flights ==> s.flights[a.key] != c)
    case Waiting(c) => c < s.channels
    case Served(entry, at) =>
      && Authorized(entry.required, a.readable)
      && entry.since <= at <= Settled(s) && NotInvalidated(s, a.key.style, entry.since, at)
    case _ => true
  }

  ghost predicate ActorsOk(w: World) {
    && (forall id | id in w.actors :: ActorOk(w.store, w.actors[id]))
    && (forall i, j | i in w.actors && j in w.actors && i != j :: !Share(w.actors[i], w.actors[j]))
  }

  /** Whoever still waits on a channel has someone who will notify it. */
  ghost predicate FollowersOk(w: World) {
    forall id | id in w.actors :: Attended(w, id)
  }

  ghost predicate Attended(w: World, id: ActorId)
    requires id in w.actors
  {
    w.actors[id].phase.Waiting? && w.actors[id].phase.channel !in w.store.woken ==>
      HasOwner(w, w.actors[id].key, w.actors[id].phase.channel)
  }

  ghost predicate HasOwner(w: World, key: RenderKey, c: Channel) {
    exists owner :: owner in w.actors && Owns(w.actors[owner], c) && w.actors[owner].key == key
  }

  ghost predicate FlightsOk(w: World) {
    forall key | key in w.store.flights :: Led(w, key)
  }

  /** The gate is held for the style that advanced the epoch last. */
  predicate GateOk(s: Store) {
    s.removing.Some? ==> s.invalidations != [] && s.invalidations[|s.invalidations| - 1] == s.removing.value
  }

  predicate CacheOk(s: Store) {
    && GateOk(s)
    && forall key | key in s.cache :: EntryOk(s, key.style, s.cache[key])
  }

  predicate EntryOk(s: Store, style: string, entry: Entry) {
    entry.elected <= entry.since <= Settled(s) && NotInvalidated(s, style, entry.since, Settled(s))
  }

  ghost predicate WorldOk(w: World) {
    ActorsOk(w) && FollowersOk(w) && FlightsOk(w) && CacheOk(w.store) && ChannelsIssued(w.store)
  }

  // ---- Preservation ------------------------------------------------------

  predicate Moves(e: Event) {
    e.FirstRead? || e.LockedLookup? || e.LoadEpoch? || e.DropLeader? || e.Notify? || e.Recheck? || e.GiveUp?
  }

  predicate ChannelsIssued(s: Store) {
    && (forall key | key in s.flights :: s.flights[key] < s.channels)
    && (forall c | c in s.woken :: c < s.channels)
  }

  lemma EventKeepsCache(w: World, e: Event)
    requires ActorsOk(w) && CacheOk(w.store) && Possible(w, e)
    ensures CacheOk(Apply(w, e).store)
  {
    hide Authorized, Canonical, Owns;
    if e.InsertOutcome? {
      assert ActorOk(w.store, w.actors[e.id]);
    }
  }

  lemma EventKeepsChannels(w: World, e: Event)
    requires ActorsOk(w) && ChannelsIssued(w.store) && Possible(w, e)
    ensures ChannelsIssued(Apply(w, e).store)
  {
    hide Authorized, Canonical, Owns, Admits, WithoutStyle, NotInvalidated;
    if Moves(e) {
      assert ActorOk(w.store, w.actors[e.id]);
    }
  }

  /** A step leaves the condition of everyone it does not move intact. */
  lemma BystanderOk(w: World, e: Event, id: ActorId)
    requires ActorsOk(w) && Possible(w, e) && id in w.actors
    requires Moves(e) ==> e.id != id
    ensures ActorOk(Apply(w, e).store, w.actors[id])
  {
    hide Authorized, Canonical, Get, Admits, WithoutStyle;
    assert ActorOk(w.store, w.actors[id]);
    if e.DropLeader? || e.Notify? {
      assert ActorOk(w.store, w.actors[e.id]);
      assert Owns(w.actors[e.id], w.actors[e.id].phase.channel);
    }
  }

  lemma MoverOk(w: World, e: Event)
    requires ActorsOk(w) && CacheOk(w.store) && ChannelsIssued(w.store) && Possible(w, e) && Moves(e)
    ensures ActorOk(Apply(w, e).store, Apply(w, e).actors[e.id])
  {
    hide Authorized, Canonical;
    assert ActorOk(w.store, w.actors[e.id]);
  }

  /** What a step lets an actor own: what it owned before, or a new channel. */
  lemma OwnershipMoves(w: World, e: Event, id: ActorId, c: Channel)
    requires Possible(w, e) && id in Apply(w, e).actors && Owns(Apply(w, e).actors[id], c)
    ensures id in w.actors
    ensures Owns(w.actors[id], c) || (e.LockedLookup? && e.id == id && c == w.store.channels)
  {
    hide Authorized, Canonical, Admits, WithoutStyle, Get;
  }

  lemma EventKeepsActors(w: World, e: Event)
    requires ActorsOk(w) && CacheOk(w.store) && ChannelsIssued(w.store) && Possible(w, e)
    ensures ActorsOk(Apply(w, e))
  {
    hide ActorOk, Share, CacheOk, ChannelsIssued, Possible, Apply;
    var t := Apply(w, e);
    forall id | id in t.actors ensures ActorOk(t.store, t.actors[id]) {
      ActorKept(w, e, id);
    }
    forall i, j | i in t.actors && j in t.actors && i != j ensures !Share(t.actors[i], t.actors[j]) {
      OwnersDiffer(w, e, i, j);
    }
  }

  lemma ActorKept(w: World, e: Event, id: ActorId)
    requires ActorsOk(w) && CacheOk(w.store) && ChannelsIssued(w.store) && Possible(w, e) && id in Apply(w, e).actors
    ensures ActorOk(Apply(w, e).store, Apply(w, e).actors[id])
  {
    hide Authorized, Canonical, ActorsOk, CacheOk, ChannelsIssued, Admits, WithoutStyle, Get;
    if Moves(e) && e.id == id {
      MoverOk(w, e);
    } else if id in w.actors {
      BystanderOk(w, e, id);
    }
  }

  lemma OwnersDiffer(w: World, e: Event, i: ActorId, j: ActorId)
    requires ActorsOk(w) && Possible(w, e) && i in Apply(w, e).actors && j in Apply(w, e).actors && i != j
    ensures !Share(Apply(w, e).actors[i], Apply(w, e).actors[j])
  {
    hide Apply, Possible, Authorized, Canonical, NotInvalidated;
    if Share(Apply(w, e).actors[i], Apply(w, e).actors[j]) {
      var c := Apply(w, e).actors[i].phase.channel;
      OwnershipMoves(w, e, i, c);
      OwnershipMoves(w, e, j, c);
      OwnersWereApart(w, e, i, j, c);
      assert false;
    }
  }

  lemma OwnersWereApart(w: World, e: Event, i: ActorId, j: ActorId, c: Channel)
    requires ActorsOk(w) && i in w.actors && j in w.actors && i != j
    ensures !(Owns(w.actors[i], c) && Owns(w.actors[j], c))
    ensures Owns(w.actors[i], c) || Owns(w.actors[j], c) ==> c != w.store.channels
  {
    hide Authorized, Canonical, NotInvalidated;
    assert ActorOk(w.store, w.actors[i]) && ActorOk(w.store, w.actors[j]);
    assert !Share(w.actors[i], w.actors[j]);
  }

  /** Whoever leads stays in the lead until it is dropped. */
  lemma LeadKept(w: World, e: Event, id: ActorId)
    requires Possible(w, e) && id in w.actors && Leads(w.actors[id]) && !(e.DropLeader? && e.id == id)
    ensures id in Apply(w, e).actors && Leads(Apply(w, e).actors[id])
    ensures Apply(w, e).actors[id].key == w.actors[id].key
  {
    hide Authorized, Canonical, Admits, WithoutStyle, Get;
  }

  ghost predicate Led(w: World, key: RenderKey) {
    exists leader :: leader in w.actors && Leads(w.actors[leader]) && w.actors[leader].key == key
  }

  lemma EventKeepsFlights(w: World, e: Event)
    requires ActorsOk(w) && FlightsOk(w) && Possible(w, e)
    ensures FlightsOk(Apply(w, e))
  {
    hide Apply, Possible, ActorsOk, Authorized, Canonical;
    var t := Apply(w, e);
    forall key | key in t.store.flights ensures Led(t, key) {
      FlightLed(w, e, key);
    }
  }

  lemma FlightLed(w: World, e: Event, key: RenderKey)
    requires ActorsOk(w) && FlightsOk(w) && Possible(w, e) && key in Apply(w, e).store.flights
    ensures Led(Apply(w, e), key)
  {
    hide Authorized, Canonical, ActorsOk, Admits, WithoutStyle, Get;
    var t := Apply(w, e);
    if key in w.store.flights {
      var leader :| leader in w.actors && Leads(w.actors[leader]) && w.actors[leader].key == key;
      LeadKept(w, e, leader);
      assert leader in t.actors && Leads(t.actors[leader]) && t.actors[leader].key == key;
    } else {
      assert e.LockedLookup?;
      assert Leads(t.actors[e.id]) && t.actors[e.id].key == key;
    }
  }

  /** An owner keeps its channel until it has notified it. */
  lemma OwnerKept(w: World, e: Event, id: ActorId, c: Channel)
    requires Possible(w, e) && id in w.actors && Owns(w.actors[id], c)
    ensures id in Apply(w, e).actors && Apply(w, e).actors[id].key == w.actors[id].key
    ensures Owns(Apply(w, e).actors[id], c) || c in Apply(w, e).store.woken
  {
    hide Authorized, Canonical, Admits, WithoutStyle, Get;
  }

  lemma OwnerRemains(w: World, e: Event, owner: ActorId, c: Channel)
    requires Possible(w, e) && owner in w.actors && Owns(w.actors[owner], c) && c !in Apply(w, e).store.woken
    ensures HasOwner(Apply(w, e), w.actors[owner].key, c)
  {
    hide Apply, Possible, Owns;
    OwnerKept(w, e, owner, c);
    assert Owns(Apply(w, e).actors[owner], c);
  }

  /** A waiting actor waited before on the same channel, or has just joined the
      flight of its key. */
  lemma WaitingSince(w: World, e: Event, id: ActorId)
    requires Possible(w, e) && id in Apply(w, e).actors && Apply(w, e).actors[id].phase.Waiting?
    ensures id in w.actors && w.actors[id].key == Apply(w, e).actors[id].key
    ensures var c := Apply(w, e).actors[id].phase.channel;
            w.actors[id].phase == Waiting(c) ||
            (w.actors[id].key in w.store.flights && w.store.flights[w.actors[id].key] == c)
  {
    hide Authorized, Canonical, Admits, WithoutStyle, Get;
  }

  lemma WokenStays(w: World, e: Event, c: Channel)
    requires Possible(w, e) && c in w.store.woken
    ensures c in Apply(w, e).store.woken
  {
    hide Authorized, Canonical, Admits, WithoutStyle, Get, LookupLocked;
  }

  lemma FollowerKept(w: World, e: Event, id: ActorId)
    requires ActorsOk(w) && FollowersOk(w) && FlightsOk(w) && Possible(w, e) && id in Apply(w, e).actors
    ensures Attended(Apply(w, e), id)
  {
    hide Apply, Possible, Authorized, NotInvalidated;
    var t := Apply(w, e);
    if t.actors[id].phase.Waiting? && t.actors[id].phase.channel !in t.store.woken {
      var c := t.actors[id].phase.channel;
      WaitingSince(w, e, id);
      if w.actors[id].phase == Waiting(c) {
        if c in w.store.woken { WokenStays(w, e, c); }
        assert Attended(w, id);
        var owner :| owner in w.actors && Owns(w.actors[owner], c) && w.actors[owner].key == w.actors[id].key;
        OwnerRemains(w, e, owner, c);
      } else {
        assert Led(w, w.actors[id].key);
        var leader :| leader in w.actors && Leads(w.actors[leader]) && w.actors[leader].key == w.actors[id].key;
        assert ActorOk(w.store, w.actors[leader]);
        OwnerRemains(w, e, leader, c);
      }
    }
  }

  lemma EventKeeps(w: World, e: Event)
    requires WorldOk(w) && Possible(w, e)
    ensures WorldOk(Apply(w, e))
  {
    hide Apply, Possible, ActorsOk, FlightsOk, CacheOk, ChannelsIssued, Attended;
    EventKeepsActors(w, e);
    EventKeepsCache(w, e);
    EventKeepsChannels(w, e);
    EventKeepsFlights(w, e);
    forall id | id in Apply(w, e).actors ensures Attended(Apply(w, e), id) {
      FollowerKept(w, e, id);
    }
  }

  lemma {:induction false} RunKeeps(w: World, run: seq<Event>)
    requires WorldOk(w) && Legal(w, run)
    ensures WorldOk(Run(w, run))
    decreases |run|
  {
    hide WorldOk, Apply, Possible;
    if run != [] {
      EventKeeps(w, run[0]);
      RunKeeps(Apply(w, run[0]), run[1..]);
    }
  }

  lemma Reachable(init: World, run: seq<Event>)
    requires Init(init) && Legal(init, run)
    ensures WorldOk(Run(init, run))
  {
    hide Run, Legal;
    RunKeeps(init, run);
  }

  // ---- Single flight -----------------------------------------------------

  /** In every run a key has a flight entry exactly when it has a live leader, and
      never two. */
  lemma SingleFlight(init: World, run: seq<Event>, key: RenderKey)
    requires Init(init) && Legal(init, run)
    ensures key in Run(init, run).store.flights <==> Led(Run(init, run), key)
    ensures forall i, j :: LeadsKey(Run(init, run), i, key) && LeadsKey(Run(init, run), j, key) ==> i == j
  {
    hide Run, Legal, Authorized, Canonical, NotInvalidated, CacheOk;
    Reachable(init, run);
    var t := Run(init, run);
    forall i | LeadsKey(t, i, key) ensures key in t.store.flights && Owns(t.actors[i], t.store.flights[key]) {
      assert ActorOk(t.store, t.actors[i]);
    }
  }

  predicate LeadsKey(w: World, id: ActorId, key: RenderKey) {
    id in w.actors && Leads(w.actors[id]) && w.actors[id].key == key
  }

  function ReleaseSchedule(w: World, owner: ActorId): seq<Event>
    requires owner in w.actors
  {
    match w.actors[owner].phase
    case Electing(_, _) => [LoadEpoch(owner), DropLeader(owner), Notify(owner)]
    case Leading(_, _, _, _) => [DropLeader(owner), Notify(owner)]
    case Releasing(_) => [Notify(owner)]
    case _ => []
  }

  /** No follower is stranded: in every run, whoever waits can recheck now, or
      after the remaining steps of a single other actor that holds the same key. */
  lemma NoStrandedFollower(init: World, run: seq<Event>, id: ActorId) returns (owner: ActorId)
    requires Init(init) && Legal(init, run)
    requires id in Run(init, run).actors && Run(init, run).actors[id].phase.Waiting?
    ensures owner in Run(init, run).actors
    ensures !Possible(Run(init, run), Recheck(id)) ==> Run(init, run).actors[owner].key == Run(init, run).actors[id].key
    ensures Legal(Run(init, run), ReleaseSchedule(Run(init, run), owner))
    ensures Possible(Run(Run(init, run), ReleaseSchedule(Run(init, run), owner)), Recheck(id))
  {
    hide Run, Legal, CacheOk, ActorsOk, FlightsOk, ChannelsIssued;
    Reachable(init, run);
    var w := Run(init, run);
    assert Attended(w, id);
    var c := w.actors[id].phase.channel;
    owner := id;
    if c !in w.store.woken {
      owner :| owner in w.actors && Owns(w.actors[owner], c) && w.actors[owner].key == w.actors[id].key;
    }
    ReleaseWakes(w, owner, id);
  }

  lemma ReleaseWakes(w: World, owner: ActorId, id: ActorId)
    requires owner in w.actors && id in w.actors && w.actors[id].phase.Waiting?
    requires w.actors[id].phase.channel in w.store.woken || Owns(w.actors[owner], w.actors[id].phase.channel)
    requires w.actors[id].phase.channel in w.store.woken ==> owner == id
    ensures Legal(w, ReleaseSchedule(w, owner))
    ensures Possible(Run(w, ReleaseSchedule(w, owner)), Recheck(id))
  {
    match w.actors[owner].phase
    case Electing(_, _) =>
      ThreeSteps(w, LoadEpoch(owner), DropLeader(owner), Notify(owner));
    case Leading(_, _, _, _) =>
      var v := Apply(w, DropLeader(owner));
      OneStep(v, Notify(owner));
      assert [DropLeader(owner), Notify(owner)][1..] == [Notify(owner)];
    case Releasing(_) =>
      OneStep(w, Notify(owner));
    case _ =>
  }

  lemma OneStep(w: World, a: Event)
    requires Possible(w, a)
    ensures Legal(w, [a]) && Run(w, [a]) == Apply(w, a)
  {
    hide Apply, Possible;
    assert [a][1..] == [];
    assert Legal(Apply(w, a), []);
  }

  lemma ThreeSteps(w: World, a: Event, b: Event, c: Event)
    requires Possible(w, a) && Possible(Apply(w, a), b) && Possible(Apply(Apply(w, a), b), c)
    ensures Legal(w, [a, b, c]) && Run(w, [a, b, c]) == Apply(Apply(Apply(w, a), b), c)
  {
    hide Apply, Possible;
    OneStep(Apply(Apply(w, a), b), c);
    assert [a, b, c][1..] == [b, c] && [b, c][1..] == [c];
    assert Legal(Apply(w, a), [b, c]);
  }

  // ---- Fencing -----------------------------------------------------------

  /** Whatever is resident was rendered by a leader that became ready after the
      last completed invalidation of its style. */
  lemma ResidentIsCurrent(init: World, run: seq<Event>, key: RenderKey, i: nat)
    requires Init(init) && Legal(init, run)
    requires key in Run(init, run).store.cache && i < Settled(Run(init, run).store)
    requires Run(init, run).store.invalidations[i] == key.style
    ensures i < Run(init, run).store.cache[key].since
  {
    hide Run, Legal, ActorsOk, FlightsOk, ChannelsIssued, Attended;
    Reachable(init, run);
    assert EntryOk(Run(init, run).store, key.style, Run(init, run).store.cache[key]);
  }

  /** No invalidation of the style came between taking the flight and loading the
      epoch. */
  predicate UndisturbedElection(s: Store, style: string, entry: Entry) {
    NotInvalidated(s, style, entry.elected, entry.since)
  }

  /** A resident entry's leader was elected after the last completed invalidation of
      its style if and only if none fell between its election and its epoch load. */
  lemma ElectedAfterExactly(init: World, run: seq<Event>, key: RenderKey)
    requires Init(init) && Legal(init, run) && key in Run(init, run).store.cache
    ensures var s := Run(init, run).store;
            (forall i | 0 <= i < Settled(s) && s.invalidations[i] == key.style :: i < s.cache[key].elected) <==>
            UndisturbedElection(s, key.style, s.cache[key])
  {
    hide Run, Legal, ActorsOk, FlightsOk, ChannelsIssued, Attended;
    Reachable(init, run);
    assert EntryOk(Run(init, run).store, key.style, Run(init, run).store.cache[key]);
  }

  /** The other case is real: an invalidation that slips in after the election leaves
      the bytes resident, rendered by a leader elected before it. */
  lemma ElectedBeforeInvalidation(init: World, key: RenderKey, readable: Grant, output: string)
    returns (run: seq<Event>)
    requires Init(init)
    ensures Legal(init, run) && key in Run(init, run).store.cache
    ensures var s := Run(init, run).store;
            s.invalidations == [key.style] && Settled(s) == 1 && s.cache[key].elected == 0
            && s.cache[key].output == output
  {
    run := [Arrive(0, key, readable), FirstRead(0), LockedLookup(0), AdvanceEpoch(key.style), RemoveEntries,
            LoadEpoch(0), InsertOutcome(0, output)];
    var d := Apply(Apply(Apply(init, run[0]), run[1]), run[2]);
    var g := Apply(Apply(Apply(d, run[3]), run[4]), run[5]);
    assert run[3..][3..] == run[6..] == [run[6]];
    OneStep(g, run[6]);
    ThreeMore(d, run[3..]);
    ThreeMore(init, run);
  }

  lemma ThreeMore(w: World, run: seq<Event>)
    requires |run| >= 3 && Possible(w, run[0]) && Possible(Apply(w, run[0]), run[1])
    requires Possible(Apply(Apply(w, run[0]), run[1]), run[2])
    requires Legal(Apply(Apply(Apply(w, run[0]), run[1]), run[2]), run[3..])
    ensures Legal(w, run) && Run(w, run) == Run(Apply(Apply(Apply(w, run[0]), run[1]), run[2]), run[3..])
  {
    hide Apply, Possible;
    var a, b := Apply(w, run[0]), Apply(Apply(w, run[0]), run[1]);
    assert run[1..][1..] == run[2..] && run[2..][1..] == run[3..];
    assert Legal(b, run[2..]) && Run(b, run[2..]) == Run(Apply(b, run[2]), run[3..]);
    assert Legal(a, run[1..]) && Run(a, run[1..]) == Run(b, run[2..]);
  }

  /** A hit hands out bytes of its own key's entry only to a reader that may read
      everything the rendering reader could, and only bytes rendered after the
      last invalidation of the style completed before the hit. */
  lemma HitsAreAuthorizedAndCurrent(init: World, run: seq<Event>, id: ActorId)
    requires Init(init) && Legal(init, run)
    requires id in Run(init, run).actors && Run(init, run).actors[id].phase.Served?
    ensures var a := Run(init, run).actors[id]; var required := a.phase.entry.required;
            && (required.None? <==> a.readable.None?)
            && (required.Some? ==> forall x :: Grants(required.value, x) ==> Grants(a.readable.value, x))
    ensures var a := Run(init, run).actors[id];
            forall i | a.phase.entry.since <= i < a.phase.at :: i < |Run(init, run).store.invalidations|
              && Run(init, run).store.invalidations[i] != a.key.style
  {
    hide Run, Legal, CacheOk, FlightsOk, ChannelsIssued, Attended, Allows, Grants;
    Reachable(init, run);
    var a := Run(init, run).actors[id];
    assert ActorOk(Run(init, run).store, a);
    if a.readable.Some? {
      AllowsIsCoverage(a.readable.value, a.phase.entry.required.value);
    }
  }

  /** An outcome is admitted exactly when no style was invalidated since its
      leader became ready and nothing with another requirement is resident; the
      leader's own reader is then served those bytes. */
  lemma AdmittedExactly(init: World, run: seq<Event>, id: ActorId, output: string)
    requires Init(init) && Legal(init, run) && Possible(Run(init, run), InsertOutcome(id, output))
    ensures var w := Run(init, run); var a := w.actors[id];
            Admits(w.store, a.key, a.readable, a.phase.epoch) <==>
            a.phase.since == |w.store.invalidations| &&
            (a.key in w.store.cache ==> w.store.cache[a.key].required == a.readable)
    ensures var w := Run(init, run); var a := w.actors[id];
            Admits(w.store, a.key, a.readable, a.phase.epoch) ==>
              Get(Apply(w, InsertOutcome(id, output)).store, a.key, a.readable)
              == Some(EntryOf(a, output))
  {
    hide Run, Legal, CacheOk, FlightsOk, ChannelsIssued, Attended, Allows, Grants;
    Reachable(init, run);
    var a := Run(init, run).actors[id];
    assert ActorOk(Run(init, run).store, a);
    if a.readable.Some? {
      AllowsIsCoverage(a.readable.value, a.readable.value);
    }
  }

  /** In every run, completing an invalidation removes exactly the entries of the style
      whose epoch advanced last, and leaves every other entry as it was. */
  lemma InvalidationIsLocal(init: World, run: seq<Event>, key: RenderKey)
    requires Init(init) && Legal(init, run) && Possible(Run(init, run), RemoveEntries)
    ensures
      var s, t := Run(init, run).store, Apply(Run(init, run), RemoveEntries).store;
      && s.invalidations != [] && t.invalidations == s.invalidations && t.flights == s.flights && t.removing == None
      && (key in t.cache <==> key in s.cache && key.style != s.invalidations[|s.invalidations| - 1])
      && (key in t.cache ==> t.cache[key] == s.cache[key])
  {
    hide Run, Legal, ActorsOk, FlightsOk, ChannelsIssued, Attended, EntryOk;
    Reachable(init, run);
  }

  // ---- Recorded requirements ---------------------------------------------

  predicate ResidentThroughout(w: World, run: seq<Event>, key: RenderKey)
    requires Legal(w, run)
    decreases |run|
  {
    key in w.store.cache && (run == [] || ResidentThroughout(Apply(w, run[0]), run[1..], key))
  }

  /** While an entry stays resident its recorded requirement never changes, from
      any state on and whatever else happens. */
  lemma {:induction false} RequirementNeverChanges(w: World, run: seq<Event>, key: RenderKey)
    requires Legal(w, run) && ResidentThroughout(w, run, key)
    ensures key in Run(w, run).store.cache
    ensures Run(w, run).store.cache[key].required == w.store.cache[key].required
    decreases |run|
  {
    hide Authorized, Canonical, Get;
    if run != [] {
      RequirementNeverChanges(Apply(w, run[0]), run[1..], key);
    }
  }

  predicate Rests(run: seq<Event>, id: ActorId) {
    forall i | 0 <= i < |run| :: run[i].LockedLookup? ==> run[i].id != id
  }

  lemma {:induction false} LookingStays(w: World, run: seq<Event>, id: ActorId)
    requires Legal(w, run) && Rests(run, id) && id in w.actors && w.actors[id].phase.Looking?
    ensures id in Run(w, run).actors && Run(w, run).actors[id] == w.actors[id]
    decreases |run|
  {
    hide Authorized, Canonical, Get, Admits;
    if run != [] {
      assert !(run[0].LockedLookup? && run[0].id == id);
      assert Rests(run[1..], id) by {
        forall i | 0 <= i < |run[1..]| ensures run[1..][i].LockedLookup? ==> run[1..][i].id != id {
          assert run[1..][i] == run[i + 1];
        }
      }
      LookingStays(Apply(w, run[0]), run[1..], id);
    }
  }

  /** The race between a missed first read and the lock is closed: once bytes a
      reader may have are resident, and as long as they stay, that reader is served
      at the lock and never starts a render of its own. */
  lemma MissedReaderIsServed(w: World, run: seq<Event>, id: ActorId)
    requires Legal(w, run) && Rests(run, id) && id in w.actors && w.actors[id].phase.Looking?
    requires ResidentThroughout(w, run, w.actors[id].key)
    requires Authorized(w.store.cache[w.actors[id].key].required, w.actors[id].readable)
    ensures Possible(Run(w, run), LockedLookup(id))
    ensures var v := Apply(Run(w, run), LockedLookup(id));
            v.actors[id].phase.Served? && v.store.flights == Run(w, run).store.flights
  {
    hide Run, Legal, Rests, ResidentThroughout, Authorized, Canonical;
    LookingStays(w, run, id);
    RequirementNeverChanges(w, run, w.actors[id].key);
  }

  // ---- The mutable cache -------------------------------------------------

  /** `RenderOutputCacheInner`. `invalidations` only serves the specification. */
  class RenderOutputCache {
    var cache: map<RenderKey, Entry>
    var inFlight: map<RenderKey, Channel>
    var woken: set<Channel>
    var channels: nat
    var epoch: nat
    var removing: Option<string>
    ghost var invalidations: seq<string>

    ghost predicate Valid()
      reads this
    {
      epoch == |invalidations| % U64
    }

    ghost function View(): Store
      reads this
    {
      Store(cache, inFlight, woken, channels, invalidations, removing)
    }

    constructor ()
      ensures Valid() && Init(World(View(), map[]))
    {
      cache, inFlight, woken, channels := map[], map[], {}, 0;
      epoch, removing, invalidations := 0, None, [];
    }

    method Read(key: RenderKey, readable: Grant) returns (hit: Option<Entry>)
      ensures hit == Get(View(), key, readable)
    {
      hit := None;
      if key in cache {
        var entry := cache[key];
        if Authorized(entry.required, readable) {
          hit := Some(entry);
        }
      }
    }

    /** The section under the flight lock. */
    method Locked(key: RenderKey, readable: Grant) returns (result: Lookup)
      modifies this`inFlight, this`channels
      ensures result == LookupLocked(old(View()), key, readable)
      ensures View() == AfterLookup(old(View()), key, result)
    {
      var hit := Read(key, readable);
      if hit.Some? {
        return Hit(hit.value);
      }
      if key in inFlight {
        return Join(inFlight[key]);
      }
      result := Elected(channels);
      inFlight, channels := inFlight[key := channels], channels + 1;
    }

    /** `lookup_or_join_key` when nothing intervenes between its sections: it
        elects only if neither bytes it may serve nor a flight exist. */
    method LookupOrJoin(key: RenderKey, readable: Grant) returns (result: Lookup, epochAtStart: nat)
      requires Valid()
      modifies this`inFlight, this`channels
      ensures Valid() && epochAtStart == Epoch(View())
      ensures result == LookupLocked(old(View()), key, readable)
      ensures View() == AfterLookup(old(View()), key, result)
    {
      epochAtStart := epoch;
      var hit := Read(key, readable);
      if hit.Some? {
        return Hit(hit.value), epochAtStart;
      }
      result := Locked(key, readable);
      epochAtStart := epoch;
    }

    /** The leader's two history variables come along; the code has only the epoch. */
    method InsertFromOutcome(key: RenderKey, required: Grant, epochAtStart: nat, elected: nat, since: nat,
                             outcome: Option<string>)
      returns (inserted: bool)
      requires Valid()
      modifies this`cache
      ensures Valid() && inserted == (outcome.Some? && Admits(old(View()), key, required, epochAtStart))
      ensures View() == if outcome.Some?
                        then Admit(old(View()), key, Entry(outcome.value, required, elected, since), epochAtStart)
                        else old(View())
    {
      if outcome.None? || epochAtStart != epoch {
        return false;
      }
      if key in cache && cache[key].required != required {
        return false;
      }
      cache := cache[key := Entry(outcome.value, required, elected, since)];
      inserted := true;
    }

    method BeginInvalidation(style: string)
      requires Valid()
      modifies this`epoch, this`invalidations, this`removing
      ensures Valid() && View() == Advance(old(View()), style)
    {
      epoch := (epoch + 1) % U64;
      invalidations := invalidations + [style];
      removing := Some(style);
    }

    method EndInvalidation(style: string)
      modifies this`cache, this`removing
      ensures View() == RemoveStyle(old(View()), style)
    {
      cache := map k | k in cache && k.style != style :: cache[k];
      removing := None;
    }

    /** `invalidate_style` when nothing reads in between: the epoch advances and
        exactly the style's entries go. */
    method InvalidateStyle(style: string)
      requires Valid()
      modifies this`cache, this`epoch, this`invalidations, this`removing
      ensures Valid() && View() == RemoveStyle(Advance(old(View()), style), style)
    {
      BeginInvalidation(style);
      EndInvalidation(style);
    }

    /** `RenderFlightLeader::drop` up to the notification. */
    method RemoveFlight(key: RenderKey) returns (changed: Option<Channel>)
      modifies this`inFlight
      ensures View() == ReleaseFlight(old(View()), key)
      ensures changed == if key in old(inFlight) then Some(old(inFlight)[key]) else None
    {
      changed := if key in inFlight then Some(inFlight[key]) else None;
      inFlight := inFlight - {key};
    }

    method NotifyFollowers(changed: Option<Channel>)
      modifies this`woken
      ensures View() == if changed.Some? then WakeFollowers(old(View()), changed.value) else old(View())
    {
      if changed.Some? {
        woken := woken + {changed.value};
      }
    }
  }
}
