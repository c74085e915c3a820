/** The style catalog: which revision of a style is current, when it must be
    fetched again, and the fence that keeps a publisher hint from being lost
    while a fetch is in flight.

    Time is a `nat`. The two 64-bit counters wrap, as in the code.
  */
module StyleCatalog {
  import opened Text

  const U64: nat := 0x1_0000_0000_0000_0000
  const RESERVED_VERSION_BIT: nat := 0x8000_0000_0000_0000
  const INITIAL_STYLE_VERSION: nat := 1
  const MAX_REVALIDATION_GENERATIONS: nat := 4096
  const MAX_PENDING_STYLE_HINTS: nat := 4096
  const MAX_STYLE_REVISION_GOSSIP_BYTES: nat := 1024

  type StyleId = string

  datatype Observed = Observed(
    version: nat, previous: Option<nat>, bootstrap: Option<nat>,
    lastObservedAt: nat, revalidateAfter: nat, pending: bool)

  datatype ClusterObserved = ClusterObserved(version: nat, previous: Option<nat>)

  datatype Observation = Observation(schema: nat, hint: string, style: StyleId, version: nat)

  datatype Fence = Fence(generation: Option<nat>, requests: nat)

  datatype RequestOutcome = Accepted | AcceptedWithoutFence | AlreadyDue

  datatype Catalog = Catalog(
    floor: nat,
    byId: map<StyleId, nat>,
    namespaces: set<string>,
    hasDefaultTemplate: bool,
    observed: map<StyleId, Observed>,
    cluster: map<StyleId, ClusterObserved>,
    pendingHints: map<StyleId, string>,
    announcements: map<nat, Observation>,
    generations: map<StyleId, nat>,
    requests: nat)

  function Min(a: nat, b: nat): nat { if a <= b then a else b }
  function Max(a: nat, b: nat): nat { if a >= b then a else b }

  // ---- Queries -----------------------------------------------------------

  predicate HasTemplate(c: Catalog, id: StyleId) {
    || c.hasDefaultTemplate
    || match SplitOnce(id, '/')
       case Some((namespace, _)) => namespace in c.namespaces
       case None => false
  }

  /** The revision configured before any content was observed. */
  function Configured(c: Catalog, id: StyleId): Option<nat> {
    if id in c.byId then Some(c.byId[id])
    else if HasTemplate(c, id) then Some(INITIAL_STYLE_VERSION)
    else None
  }

  function LatestVersion(c: Catalog, id: StyleId): Option<nat> {
    if id in c.cluster then Some(c.cluster[id].version)
    else if id in c.observed then Some(c.observed[id].version)
    else Configured(c, id)
  }

  predicate AcceptsVersion(c: Catalog, id: StyleId, v: nat) {
    || (id in c.cluster && (c.cluster[id].version == v || c.cluster[id].previous == Some(v)))
    || (id in c.observed &&
        (c.observed[id].version == v || c.observed[id].previous == Some(v) || c.observed[id].bootstrap == Some(v)))
    || (id !in c.cluster && id !in c.observed && LatestVersion(c, id) == Some(v))
  }

  predicate NeedsRevalidation(c: Catalog, id: StyleId, now: nat) {
    || (id in c.cluster && (id !in c.observed || c.observed[id].version != c.cluster[id].version))
    || id !in c.observed
    || now >= c.observed[id].revalidateAfter
  }

  predicate HasPendingRevalidation(c: Catalog, id: StyleId) {
    id in c.pendingHints || (id in c.observed && c.observed[id].pending)
  }

  predicate IsCurrentClusterRevision(c: Catalog, id: StyleId, v: nat) {
    id in c.cluster && c.cluster[id].version == v
  }

  predicate BlocksOutputCache(c: Catalog, id: StyleId, v: nat, now: nat) {
    !IsCurrentClusterRevision(c, id, v) && (HasPendingRevalidation(c, id) || NeedsRevalidation(c, id, now))
  }

  function CaptureFence(c: Catalog, id: StyleId): Fence {
    Fence(if id in c.generations then Some(c.generations[id]) else None, c.requests)
  }

  predicate FetchIsCurrent(c: Catalog, id: StyleId, fence: Fence) {
    c.requests == fence.requests || (id in c.generations && Some(c.generations[id]) == fence.generation)
  }

  /** Byte length of the announcement's JSON when its ids need no escaping. */
  function EncodedLength(o: Observation): nat {
    58 + |o.hint| + |o.style| + |Decimal(o.version)|
  }

  predicate Encodable(o: Observation) {
    && o.schema == 1 && o.hint != "" && o.style != "" && RESERVED_VERSION_BIT <= o.version < U64
    && EncodedLength(o) <= MAX_STYLE_REVISION_GOSSIP_BYTES
  }

  // ---- Updates -----------------------------------------------------------

  /** What the fetch found, merged into what was known of the style. */
  function Observe(c: Catalog, id: StyleId, v: nat, due: nat, now: nat, current: bool): Observed {
    if id !in c.observed then
      var placeholder := Configured(c, id);
      Observed(v, None, if placeholder == Some(v) then None else placeholder, now, due, !current)
    else if c.observed[id].version == v then
      c.observed[id].(lastObservedAt := now, revalidateAfter := due, pending := !current)
    else
      Observed(v, Some(c.observed[id].version), None, now, due, !current)
  }

  /** A direct provider observation resolves the waiting transition, or else
      drops a peer revision it contradicts. */
  function ClusterAfter(c: Catalog, id: StyleId, v: nat, current: bool): map<StyleId, ClusterObserved> {
    if !current then c.cluster
    else if id in c.pendingHints then c.cluster[id := ClusterObserved(v, None)]
    else if id in c.cluster && c.cluster[id].version != v then c.cluster - {id}
    else c.cluster
  }

  function DueAfter(c: Catalog, freshness: nat, now: nat, current: bool): nat {
    now + (if current then Max(freshness, c.floor) else c.floor)
  }

  /** A completed fetch that began under `fence`; `slot` is the gossip slot its
      hint hashes to. */
  function Record(c: Catalog, id: StyleId, v: nat, freshness: nat, fence: Fence, now: nat, slot: nat): Catalog {
    var current := FetchIsCurrent(c, id, fence);
    var resolves := current && id in c.pendingHints;
    c.(observed := c.observed[id := Observe(c, id, v, DueAfter(c, freshness, now, current), now, current)],
       cluster := ClusterAfter(c, id, v, current),
       pendingHints := if resolves then c.pendingHints - {id} else c.pendingHints,
       announcements := if resolves then c.announcements[slot := Observation(1, c.pendingHints[id], id, v)]
                        else c.announcements)
  }

  /** The waiting hint of a current fetch does not fit the gossip envelope. */
  predicate Panics(c: Catalog, id: StyleId, v: nat, fence: Fence) {
    FetchIsCurrent(c, id, fence) && id in c.pendingHints && !Encodable(Observation(1, c.pendingHints[id], id, v))
  }

  /** What is left then: the version is recorded and the hint is gone, unannounced. */
  function Panicked(c: Catalog, id: StyleId, v: nat, freshness: nat, fence: Fence, now: nat): Catalog {
    var current := FetchIsCurrent(c, id, fence);
    c.(observed := c.observed[id := Observe(c, id, v, DueAfter(c, freshness, now, current), now, current)],
       pendingHints := c.pendingHints - {id})
  }

  /** `record_observed_for_generation`, whether it returns or panics. */
  function Recorded(c: Catalog, id: StyleId, v: nat, freshness: nat, fence: Fence, now: nat, slot: nat): Catalog {
    if Panics(c, id, v, fence) then Panicked(c, id, v, freshness, fence, now)
    else Record(c, id, v, freshness, fence, now, slot)
  }

  predicate StoresHint(pendingHints: map<StyleId, string>, id: StyleId) {
    id in pendingHints || |pendingHints| < MAX_PENDING_STYLE_HINTS
  }

  predicate StoresGeneration(generations: map<StyleId, nat>, id: StyleId) {
    id in generations || |generations| < MAX_REVALIDATION_GENERATIONS
  }

  function NextGeneration(generations: map<StyleId, nat>, id: StyleId): map<StyleId, nat> {
    if id in generations then generations[id := (generations[id] + 1) % U64]
    else if StoresGeneration(generations, id) then generations[id := 1]
    else generations
  }

  function PulledForward(o: Observed, floor: nat): Observed {
    o.(revalidateAfter := Min(o.revalidateAfter, o.lastObservedAt + floor), pending := true)
  }

  /** A publisher hint: `request_revalidation_inner`. */
  function Request(c: Catalog, id: StyleId, hint: Option<string>): Catalog {
    c.(requests := (c.requests + 1) % U64,
       pendingHints :=
         if hint.Some? && StoresHint(c.pendingHints, id) then c.pendingHints[id := hint.value] else c.pendingHints,
       generations := if id in c.observed then NextGeneration(c.generations, id) else c.generations,
       observed := if id in c.observed then c.observed[id := PulledForward(c.observed[id], c.floor)] else c.observed)
  }

  function RequestResult(c: Catalog, id: StyleId, hint: Option<string>): RequestOutcome {
    if hint.Some? && !StoresHint(c.pendingHints, id) then AcceptedWithoutFence
    else if id !in c.observed then AlreadyDue
    else if StoresGeneration(c.generations, id) then Accepted
    else AcceptedWithoutFence
  }

  /** The observation answers exactly the transition this catalog waits for. */
  predicate Adopts(c: Catalog, o: Observation) {
    Encodable(o) && o.style in c.pendingHints && c.pendingHints[o.style] == o.hint
  }

  function Superseded(c: Catalog, o: Observation): Option<nat> {
    if LatestVersion(c, o.style) == Some(o.version) then None else LatestVersion(c, o.style)
  }

  function ApplyObservation(c: Catalog, o: Observation): Catalog {
    if !Adopts(c, o) then c
    else c.(cluster := c.cluster[o.style := ClusterObserved(o.version, Superseded(c, o))],
            pendingHints := c.pendingHints - {o.style})
  }

  // ---- Continuity --------------------------------------------------------

  /** No fetch is ever scheduled before the last one plus the floor. */
  ghost predicate FloorHolds(c: Catalog) {
    forall id | id in c.observed :: c.observed[id].revalidateAfter >= c.observed[id].lastObservedAt + c.floor
  }

  lemma FloorKeptByFetch(c: Catalog, id: StyleId, v: nat, freshness: nat, fence: Fence, now: nat, slot: nat)
    requires FloorHolds(c)
    ensures FloorHolds(Recorded(c, id, v, freshness, fence, now, slot))
  {
    hide Configured, FetchIsCurrent, ClusterAfter, Panics;
  }

  lemma FloorKeptByHint(c: Catalog, id: StyleId, hint: Option<string>)
    requires FloorHolds(c)
    ensures FloorHolds(Request(c, id, hint))
  {
    hide NextGeneration, StoresHint;
  }

  lemma FloorKeptByAdoption(c: Catalog, o: Observation)
    requires FloorHolds(c)
    ensures FloorHolds(ApplyObservation(c, o))
  {
    hide Adopts, Superseded;
  }

  /** One hint pulls the next fetch to exactly the floor; more hints leave it there. */
  lemma HintPullsToFloor(c: Catalog, id: StyleId, first: Option<string>, second: Option<string>)
    requires FloorHolds(c) && id in c.observed
    ensures
      var once := Request(c, id, first);
      && once.observed[id].revalidateAfter == c.observed[id].lastObservedAt + c.floor
      && once.observed[id].pending
      && Request(once, id, second).observed == once.observed
  {
    var once := Request(c, id, first);
    assert Request(once, id, second).observed[id] == once.observed[id];
  }

  /** Routing never sends a task with a revision its own node would refuse. */
  lemma LatestIsAccepted(c: Catalog, id: StyleId)
    ensures LatestVersion(c, id).Some? ==> AcceptsVersion(c, id, LatestVersion(c, id).value)
  {}

  /** A direct fetch drops a cluster revision that is neither what it found nor
      what it superseded. */
  predicate Strands(c: Catalog, id: StyleId, v: nat, fence: Fence) {
    && FetchIsCurrent(c, id, fence)
    && id in c.cluster && c.cluster[id].version != v
    && var latest := c.cluster[id].version;
       if id !in c.observed then Configured(c, id) != Some(latest)
       else if c.observed[id].version == v then
         c.observed[id].previous != Some(latest) && c.observed[id].bootstrap != Some(latest)
       else c.observed[id].version != latest
  }

  /** Exactly when a step makes the previously latest revision unacceptable. */
  lemma ContinuityExact(c: Catalog, id: StyleId, latest: nat,
                        v: nat, freshness: nat, fence: Fence, now: nat, slot: nat)
    requires LatestVersion(c, id) == Some(latest)
    ensures AcceptsVersion(Recorded(c, id, v, freshness, fence, now, slot), id, latest) <==>
            Panics(c, id, v, fence) || !Strands(c, id, v, fence)
  {
    hide FetchIsCurrent, HasTemplate, Encodable;
  }

  /** Hints, adoptions and fetches of other styles never strand a revision. */
  lemma ContinuityUnderHint(c: Catalog, id: StyleId, latest: nat, other: StyleId, hint: Option<string>)
    requires LatestVersion(c, id) == Some(latest)
    ensures AcceptsVersion(Request(c, other, hint), id, latest)
  {
    hide NextGeneration, StoresHint;
    assert Configured(Request(c, other, hint), id) == Configured(c, id);
  }

  lemma ContinuityUnderAdoption(c: Catalog, id: StyleId, latest: nat, o: Observation)
    requires LatestVersion(c, id) == Some(latest)
    ensures AcceptsVersion(ApplyObservation(c, o), id, latest)
  {
    hide Encodable;
    assert Configured(ApplyObservation(c, o), id) == Configured(c, id);
  }

  lemma ContinuityUnderOtherFetch(c: Catalog, id: StyleId, latest: nat, other: StyleId,
                                  v: nat, freshness: nat, fence: Fence, now: nat, slot: nat)
    requires LatestVersion(c, id) == Some(latest) && other != id
    ensures AcceptsVersion(Recorded(c, other, v, freshness, fence, now, slot), id, latest)
  {
    hide Recorded;
    OthersUntouched(c, id, other, v, freshness, fence, now, slot);
    assert Configured(Recorded(c, other, v, freshness, fence, now, slot), id) == Configured(c, id);
  }

  lemma OthersUntouched(c: Catalog, id: StyleId, other: StyleId,
                        v: nat, freshness: nat, fence: Fence, now: nat, slot: nat)
    requires other != id
    ensures
      var next := Recorded(c, other, v, freshness, fence, now, slot);
      && next.byId == c.byId && next.namespaces == c.namespaces && next.hasDefaultTemplate == c.hasDefaultTemplate
      && (id in next.observed <==> id in c.observed) && (id in next.cluster <==> id in c.cluster)
      && (id in c.observed ==> next.observed[id] == c.observed[id])
      && (id in c.cluster ==> next.cluster[id] == c.cluster[id])
  {
    hide FetchIsCurrent, Observe, Panics, ClusterAfter, DueAfter;
    ClusterElsewhere(c, id, other, v, FetchIsCurrent(c, other, fence));
  }

  lemma ClusterElsewhere(c: Catalog, id: StyleId, other: StyleId, v: nat, current: bool)
    requires other != id
    ensures id in ClusterAfter(c, other, v, current) <==> id in c.cluster
    ensures id in c.cluster ==> ClusterAfter(c, other, v, current)[id] == c.cluster[id]
  {}

  /** In particular nothing is stranded while the cluster revision is absent or
      equals the local one. */
  lemma ContinuityHolds(c: Catalog, id: StyleId, v: nat, fence: Fence)
    requires id in c.cluster ==> id in c.observed && c.observed[id].version == c.cluster[id].version
    ensures !Strands(c, id, v, fence)
  {}

  /** What the publisher is told of its hint: accepted exactly when the style is known
      and both the hint, if it has a name, and the style's fence entry are stored;
      already due exactly when the style was never fetched and the hint is stored. */
  lemma OutcomeExactly(c: Catalog, id: StyleId, hint: Option<string>)
    ensures
      var d := Request(c, id, hint);
      var stored := hint.Some? ==> id in d.pendingHints && d.pendingHints[id] == hint.value;
      && (RequestResult(c, id, hint).AlreadyDue? <==> id !in c.observed && Kept(c, id, hint))
      && (RequestResult(c, id, hint).Accepted? <==> id in c.observed && Kept(c, id, hint) && id in d.generations)
      && (Kept(c, id, hint) ==> stored)
  {
  }

  /** A named hint finds its style's place or a free one among the 4096. */
  predicate Kept(c: Catalog, id: StyleId, hint: Option<string>) {
    hint.Some? ==> id in c.pendingHints || |c.pendingHints| < 4096
  }

  /** A style is fetched again exactly when it was never fetched, its time has come, or
      the cluster moved to another version than was fetched here. */
  lemma AdoptionCausesFetch(c: Catalog, o: Observation, now: nat)
    requires Adopts(c, o)
    ensures
      var d := ApplyObservation(c, o);
      NeedsRevalidation(d, o.style, now) <==>
        || o.style !in c.observed || c.observed[o.style].version != o.version
        || c.observed[o.style].revalidateAfter <= now
  {
    hide Encodable;
  }

  /** A fetch that is current settles it until the next one is due. */
  lemma FetchSettles(c: Catalog, id: StyleId, v: nat, freshness: nat, fence: Fence, now: nat, slot: nat, later: nat)
    requires FetchIsCurrent(c, id, fence) && !Panics(c, id, v, fence)
    ensures
      var d := Recorded(c, id, v, freshness, fence, now, slot);
      && id in d.observed && d.observed[id].version == v && !HasPendingRevalidation(d, id)
      && (NeedsRevalidation(d, id, later) <==> d.observed[id].revalidateAfter <= later)
      && (BlocksOutputCache(d, id, v, later) <==> id !in d.cluster && d.observed[id].revalidateAfter <= later)
  {
    hide FetchIsCurrent, Encodable, Configured;
  }

  /** Which observations move the catalog: those that answer the very hint it waits for,
      in this schema, naming a content-derived version, and small enough for gossip. */
  lemma AdoptsExactly(c: Catalog, o: Observation)
    ensures ApplyObservation(c, o) != c <==>
              && o.style in c.pendingHints && c.pendingHints[o.style] == o.hint
              && o.schema == 1 && o.hint != "" && o.style != ""
              && 0x8000_0000_0000_0000 <= o.version < 0x1_0000_0000_0000_0000
              && 58 + |o.hint| + |o.style| + |Decimal(o.version)| <= 1024
  {
    hide Decimal, LatestVersion;
    if Adopts(c, o) {
      assert o.style !in ApplyObservation(c, o).pendingHints;
    }
  }

  /** A style is unknown exactly when it was neither observed, adopted nor configured,
      and no template covers it: neither the default one nor one for its namespace. */
  lemma UnknownExactly(c: Catalog, id: StyleId)
    ensures LatestVersion(c, id).None? <==>
              && id !in c.cluster && id !in c.observed && id !in c.byId && !c.hasDefaultTemplate
              && forall namespace, rest | id == namespace + ['/'] + rest && '/' !in namespace ::
                   namespace !in c.namespaces
  {
    hide SplitOnce;
    SplitOnceParts(id, '/');
    forall namespace, rest | id == namespace + ['/'] + rest && '/' !in namespace
      ensures SplitOnce(id, '/') == Some((namespace, rest))
    {
      SplitOnceAtFirst(namespace, '/', rest);
    }
  }

  /** Replaying an applied observation changes nothing. */
  lemma ReplayIsIdle(c: Catalog, o: Observation)
    ensures ApplyObservation(ApplyObservation(c, o), o) == ApplyObservation(c, o)
    ensures !Adopts(ApplyObservation(c, o), o)
  {}

  // ---- The catalog as the code updates it --------------------------------

  class StyleCatalog {
    const floor: nat
    var byId: map<StyleId, nat>
    var namespaces: set<string>
    var hasDefaultTemplate: bool
    var observed: map<StyleId, Observed>
    var cluster: map<StyleId, ClusterObserved>
    var pendingHints: map<StyleId, string>
    var announcements: map<nat, Observation>
    var generations: map<StyleId, nat>
    var requests: nat

    function View(): Catalog
      reads this
    {
      Catalog(floor, byId, namespaces, hasDefaultTemplate, observed, cluster, pendingHints, announcements,
              generations, requests)
    }

    constructor (floor: nat)
      ensures this.floor == floor && View() == Catalog(floor, map[], {}, false, map[], map[], map[], map[], map[], 0)
    {
      this.floor := floor;
      byId, namespaces, hasDefaultTemplate := map[], {}, false;
      observed, cluster, pendingHints, announcements, generations := map[], map[], map[], map[], map[];
      requests := 0;
    }

    method RevalidationFence(id: StyleId) returns (fence: Fence)
      ensures fence == CaptureFence(View(), id)
    {
      var generation := None;
      if id in generations {
        generation := Some(generations[id]);
      }
      fence := Fence(generation, requests);
    }

    /** `record_observed_for_generation`; `None` when it panics on a waiting hint that
        does not fit the gossip envelope. */
    method RecordObservedForGeneration(id: StyleId, version: nat, freshness: nat, fence: Fence, now: nat, slot: nat)
      returns (changed: Option<bool>)
      modifies this
      ensures changed.None? <==> Panics(old(View()), id, version, fence)
      ensures View() == Recorded(old(View()), id, version, freshness, fence, now, slot)
      ensures changed.Some? ==> changed.value == (id !in old(observed) || old(observed[id].version) != version)
    {
      hide Encodable;
      var current;
      if requests == fence.requests {
        current := true;
      } else {
        current := id in generations && Some(generations[id]) == fence.generation;
      }
      var due := if current then now + Max(freshness, floor) else now + floor;
      if id in observed && observed[id].version == version {
        observed := observed[id := observed[id].(lastObservedAt := now, revalidateAfter := due, pending := !current)];
        changed := Some(false);
      } else if id in observed {
        observed := observed[id := Observed(version, Some(observed[id].version), None, now, due, !current)];
        changed := Some(true);
      } else {
        var bootstrap := Configured(View(), id);
        if bootstrap == Some(version) {
          bootstrap := None;
        }
        observed := observed[id := Observed(version, None, bootstrap, now, due, !current)];
        changed := Some(true);
      }
      if current {
        if id in pendingHints {
          var observation := Observation(1, pendingHints[id], id, version);
          pendingHints := pendingHints - {id};
          if !Encodable(observation) {
            return None;
          }
          announcements := announcements[slot := observation];
          cluster := cluster[id := ClusterObserved(version, None)];
        } else if id in cluster && cluster[id].version != version {
          cluster := cluster - {id};
        }
      }
    }

    method StoreHint(id: StyleId, hint: string) returns (stored: bool)
      modifies this`pendingHints
      ensures stored == StoresHint(old(pendingHints), id)
      ensures pendingHints == if stored then old(pendingHints)[id := hint] else old(pendingHints)
    {
      stored := id in pendingHints || |pendingHints| < MAX_PENDING_STYLE_HINTS;
      if stored {
        pendingHints := pendingHints[id := hint];
      }
    }

    method AdvanceGeneration(id: StyleId) returns (outcome: RequestOutcome)
      modifies this`generations
      ensures generations == NextGeneration(old(generations), id)
      ensures outcome == if StoresGeneration(old(generations), id) then Accepted else AcceptedWithoutFence
    {
      if id in generations {
        generations := generations[id := (generations[id] + 1) % U64];
        outcome := Accepted;
      } else if |generations| < MAX_REVALIDATION_GENERATIONS {
        generations := generations[id := 1];
        outcome := Accepted;
      } else {
        outcome := AcceptedWithoutFence;
      }
    }

    method RequestRevalidation(id: StyleId, hint: Option<string>) returns (outcome: RequestOutcome)
      modifies this
      ensures View() == Request(old(View()), id, hint)
      ensures outcome == RequestResult(old(View()), id, hint)
    {
      hide StoresHint, StoresGeneration, NextGeneration;
      requests := (requests + 1) % U64;
      var stored := true;
      if hint.Some? {
        stored := StoreHint(id, hint.value);
      }
      if id !in observed {
        return if stored then AlreadyDue else AcceptedWithoutFence;
      }
      var earliest := observed[id].lastObservedAt + floor;
      outcome := AdvanceGeneration(id);
      var revalidateAfter := Min(observed[id].revalidateAfter, earliest);
      observed := observed[id := observed[id].(revalidateAfter := revalidateAfter, pending := true)];
      if !stored {
        outcome := AcceptedWithoutFence;
      }
    }

    /** Returns whether the cluster-visible current revision changed. */
    method ApplyClusterObservation(o: Observation) returns (changed: bool)
      modifies this
      ensures View() == ApplyObservation(old(View()), o)
      ensures changed ==> LatestVersion(View(), o.style) != LatestVersion(old(View()), o.style)
      ensures changed <==> Adopts(old(View()), o) && Superseded(old(View()), o).Some?
    {
      if !Encodable(o) || o.style !in pendingHints || pendingHints[o.style] != o.hint {
        return false;
      }
      var previous := LatestVersion(View(), o.style);
      if previous == Some(o.version) {
        previous := None;
      }
      cluster := cluster[o.style := ClusterObserved(o.version, previous)];
      pendingHints := pendingHints - {o.style};
      changed := previous.Some?;
    }

    method RevalidationBlocksOutputCache(id: StyleId, version: nat, now: nat) returns (blocks: bool)
      ensures blocks == BlocksOutputCache(View(), id, version, now)
    {
      var exempt := id in cluster && cluster[id].version == version;
      var pending := id in pendingHints || (id in observed && observed[id].pending);
      var due := NeedsRevalidation(View(), id, now);
      blocks := !exempt && (pending || due);
    }
  }
}
