/** Many catalogs exchanging revision announcements.

    The network may lose, reorder and duplicate announcements: a delivery picks
    any announcement ever made. The fixed gossip ring only narrows that choice.
  */
module ClusterAdoption {
  import opened Text
  import opened StyleCatalog
  import opened CatalogFence

  type NodeId = nat

  /** An announcement and where it came from: the fetch on node `origin` began at
      position `start` of that node's hint log, after the hint at `hintAt`. */
  datatype Announced = Announced(observation: Observation, origin: NodeId, start: nat, hintAt: nat)

  /** An adoption by `node` when its hint log had length `at`. */
  datatype Adoption = Adoption(node: NodeId, source: Announced, at: nat)

  datatype Cluster = Cluster(nodes: map<NodeId, Node>, network: set<Announced>, adoptions: seq<Adoption>)

  datatype ClusterEvent =
    | Local(node: NodeId, event: NodeEvent)
    | Deliver(node: NodeId, source: Announced)

  predicate Possible(w: Cluster, e: ClusterEvent) {
    match e
    case Local(node, event) =>
      node in w.nodes && !event.ObservationArrives? && CatalogFence.Possible(w.nodes[node], event)
    case Deliver(node, source) => node in w.nodes && source in w.network
  }

  /** What a completing fetch announces, if anything. */
  function Announces(id: NodeId, n: Node, e: NodeEvent): set<Announced>
    requires CatalogFence.Possible(n, e)
  {
    if !e.FetchCompletes? then {}
    else
      var f := n.flights[e.flight];
      if FetchIsCurrent(n.catalog, f.style, f.fence) && f.style in n.catalog.pendingHints
         && LastNamed(n.log, f.style).Some? && !Panics(n.catalog, f.style, e.version, f.fence) then
        {Announced(Observation(1, n.catalog.pendingHints[f.style], f.style, e.version), id, f.start,
                   LastNamed(n.log, f.style).value)}
      else {}
  }

  function Apply(w: Cluster, e: ClusterEvent): Cluster
    requires Possible(w, e)
  {
    match e
    case Local(id, event) =>
      var n := w.nodes[id];
      w.(nodes := w.nodes[id := CatalogFence.Apply(n, event)], network := w.network + Announces(id, n, event))
    case Deliver(id, source) =>
      var n := w.nodes[id];
      w.(nodes := w.nodes[id := CatalogFence.Apply(n, ObservationArrives(source.observation))],
         adoptions := if Adopts(n.catalog, source.observation)
                      then w.adoptions + [Adoption(id, source, |n.log|)] else w.adoptions)
  }

  predicate Legal(w: Cluster, run: seq<ClusterEvent>)
    decreases |run|
  {
    run == [] || (Possible(w, run[0]) && Legal(Apply(w, run[0]), run[1..]))
  }

  function Run(w: Cluster, run: seq<ClusterEvent>): Cluster
    requires Legal(w, run)
    decreases |run|
  {
    if run == [] then w else Run(Apply(w, run[0]), run[1..])
  }

  ghost predicate Init(w: Cluster) {
    && w.network == {} && w.adoptions == []
    && forall id | id in w.nodes :: Fresh(w.nodes[id])
  }

  // ---- Provenance --------------------------------------------------------

  /** The announced version was fetched on `origin` by a fetch that began after
      that node received the announced hint. */
  predicate Proven(nodes: map<NodeId, Node>, a: Announced) {
    && a.origin in nodes
    && var n := nodes[a.origin];
       && a.hintAt < a.start <= |n.log|
       && n.log[a.hintAt] == Hint(a.observation.style, Some(a.observation.hint))
       && Fetch(a.observation.style, a.start, a.observation.version) in n.fetched
  }

  /** The adopter's latest named hint for the style was the announced one. */
  predicate Awaited(nodes: map<NodeId, Node>, d: Adoption) {
    && d.node in nodes && d.at <= |nodes[d.node].log|
    && var i := LastNamed(nodes[d.node].log[..d.at], d.source.observation.style);
       i.Some? && i.value < d.at && nodes[d.node].log[i.value].id == Some(d.source.observation.hint)
  }

  ghost predicate ClusterOk(w: Cluster) {
    && (forall id | id in w.nodes :: NodeOk(w.nodes[id]))
    && (forall a | a in w.network :: Proven(w.nodes, a))
    && (forall i | 0 <= i < |w.adoptions| :: w.adoptions[i].source in w.network && Awaited(w.nodes, w.adoptions[i]))
  }

  /** Histories only grow. */
  predicate Grows(before: map<NodeId, Node>, after: map<NodeId, Node>) {
    && before.Keys == after.Keys
    && forall id | id in before ::
         id in after && before[id].log <= after[id].log && before[id].fetched <= after[id].fetched
  }

  lemma ProvenStable(before: map<NodeId, Node>, after: map<NodeId, Node>, a: Announced)
    requires Grows(before, after) && Proven(before, a)
    ensures Proven(after, a)
  {
    var n, m := before[a.origin], after[a.origin];
    assert n.log <= m.log && n.fetched <= m.fetched;
    var i :| 0 <= i < |n.fetched| && n.fetched[i] == Fetch(a.observation.style, a.start, a.observation.version);
    assert m.fetched[i] == n.fetched[i];
  }

  lemma AwaitedStable(before: map<NodeId, Node>, after: map<NodeId, Node>, d: Adoption)
    requires Grows(before, after) && Awaited(before, d)
    ensures Awaited(after, d)
  {
    assert after[d.node].log[..d.at] == before[d.node].log[..d.at];
  }

  lemma NodeGrows(n: Node, e: NodeEvent)
    requires CatalogFence.Possible(n, e)
    ensures n.log <= CatalogFence.Apply(n, e).log && n.fetched <= CatalogFence.Apply(n, e).fetched
  {
    hide Recorded, Request, ApplyObservation;
  }

  /** A fetch that resolves a hint began after that hint arrived. */
  lemma AnnouncementProven(id: NodeId, n: Node, e: NodeEvent, a: Announced)
    requires NodeOk(n) && CatalogFence.Possible(n, e) && a in Announces(id, n, e)
    ensures Proven(map[id := CatalogFence.Apply(n, e)], a)
  {
    hide PendingOk, Recorded, FetchIsCurrent, Encodable;
    var f := n.flights[e.flight];
    FenceSound(n, f);
    assert NamedAt(n, f.style);
    LastNamedIsNamed(n.log, f.style);
    if f.start <= a.hintAt {
      NoHintsSince(n.log, f.start, f.style, a.hintAt);
    }
    var m := CatalogFence.Apply(n, e);
    assert m.fetched[|n.fetched|] == Fetch(f.style, f.start, e.version);
  }

  /** What is put on the wire is exactly what the catalog stores in its ring. */
  lemma AnnouncesWhatIsStored(id: NodeId, n: Node, e: NodeEvent)
    requires NodeOk(n) && CatalogFence.Possible(n, e) && e.FetchCompletes?
    ensures
      var ring := CatalogFence.Apply(n, e).catalog.announcements;
      if Announces(id, n, e) == {} then ring == n.catalog.announcements
      else exists a | a in Announces(id, n, e) ::
            Encodable(a.observation) && ring == n.catalog.announcements[e.slot := a.observation]
  {
    hide PendingOk, FetchIsCurrent, Encodable, LastNamed, Observe, ClusterAfter;
    var f := n.flights[e.flight];
    assert NamedAt(n, f.style);
    if f.style in n.catalog.pendingHints && FetchIsCurrent(n.catalog, f.style, f.fence)
       && !Panics(n.catalog, f.style, e.version, f.fence) {
      var a := Announced(Observation(1, n.catalog.pendingHints[f.style], f.style, e.version), id, f.start,
                         LastNamed(n.log, f.style).value);
      assert a in Announces(id, n, e);
    }
  }

  lemma LocalKeeps(w: Cluster, id: NodeId, event: NodeEvent)
    requires ClusterOk(w) && Possible(w, Local(id, event))
    ensures ClusterOk(Apply(w, Local(id, event)))
  {
    hide NodeOk, CatalogFence.Apply, CatalogFence.Possible, Announces, Proven, Awaited;
    var n, next := w.nodes[id], Apply(w, Local(id, event));
    EventKeeps(n, event);
    NodeGrows(n, event);
    forall a | a in next.network ensures Proven(next.nodes, a) {
      if a in w.network {
        ProvenStable(w.nodes, next.nodes, a);
      } else {
        AnnouncementProven(id, n, event, a);
        ProvenHere(next.nodes, id, a);
      }
    }
    forall i | 0 <= i < |next.adoptions| ensures Awaited(next.nodes, next.adoptions[i]) {
      AwaitedStable(w.nodes, next.nodes, w.adoptions[i]);
    }
  }

  lemma ProvenHere(nodes: map<NodeId, Node>, id: NodeId, a: Announced)
    requires id in nodes && Proven(map[id := nodes[id]], a)
    ensures Proven(nodes, a)
  {}

  lemma DeliverKeeps(w: Cluster, id: NodeId, source: Announced)
    requires ClusterOk(w) && Possible(w, Deliver(id, source))
    ensures ClusterOk(Apply(w, Deliver(id, source)))
  {
    hide NodeOk, CatalogFence.Apply, Proven, Awaited, Adopts;
    var n, next := w.nodes[id], Apply(w, Deliver(id, source));
    EventKeeps(n, ObservationArrives(source.observation));
    NodeGrows(n, ObservationArrives(source.observation));
    forall a | a in next.network ensures Proven(next.nodes, a) {
      ProvenStable(w.nodes, next.nodes, a);
    }
    forall i | 0 <= i < |next.adoptions|
      ensures next.adoptions[i].source in next.network && Awaited(next.nodes, next.adoptions[i])
    {
      if i < |w.adoptions| {
        AwaitedStable(w.nodes, next.nodes, w.adoptions[i]);
      } else {
        AdoptionAwaited(w.nodes, id, source);
        AwaitedStable(w.nodes, next.nodes, next.adoptions[i]);
      }
    }
  }

  lemma AdoptionAwaited(nodes: map<NodeId, Node>, id: NodeId, source: Announced)
    requires id in nodes && NodeOk(nodes[id]) && Adopts(nodes[id].catalog, source.observation)
    ensures Awaited(nodes, Adoption(id, source, |nodes[id].log|))
  {
    hide PendingOk, FlightsOk, CountersOk, Encodable, LastNamed;
    var n := nodes[id];
    assert NamedAt(n, source.observation.style);
    assert n.log[..|n.log|] == n.log;
  }

  lemma {:induction false} RunKeeps(w: Cluster, run: seq<ClusterEvent>)
    requires ClusterOk(w) && Legal(w, run)
    ensures ClusterOk(Run(w, run))
    decreases |run|
  {
    hide ClusterOk, Apply, Possible;
    if run != [] {
      match run[0]
      case Local(id, event) => LocalKeeps(w, id, event); RunKeeps(Apply(w, run[0]), run[1..]);
      case Deliver(id, source) => DeliverKeeps(w, id, source); RunKeeps(Apply(w, run[0]), run[1..]);
    }
  }

  lemma InitOk(w: Cluster)
    requires Init(w)
    ensures ClusterOk(w)
  {
    hide NodeOk, Fresh;
    forall id | id in w.nodes ensures NodeOk(w.nodes[id]) {
      FreshOk(w.nodes[id]);
    }
  }

  /** Over every run: each adopted version was fetched by some node in a fetch
      begun after that node received the same hint, and was adopted while that
      hint was the adopter's latest one and still unresolved. */
  lemma AdoptionProvenance(w: Cluster, run: seq<ClusterEvent>, k: nat)
    requires Init(w) && Legal(w, run) && k < |Run(w, run).adoptions|
    ensures
      var f := Run(w, run);
      Proven(f.nodes, f.adoptions[k].source) && Awaited(f.nodes, f.adoptions[k])
  {
    hide Init, Legal, Run, NodeOk, Proven, Awaited;
    InitOk(w);
    RunKeeps(w, run);
  }

  /** Adoption happens only while the announced hint is stored as unresolved, it
      resolves that hint, and any later replay of it changes nothing. */
  lemma AdoptionIsOnce(w: Cluster, id: NodeId, source: Announced)
    requires Possible(w, Deliver(id, source))
    ensures
      var next := Apply(w, Deliver(id, source));
      && (next.adoptions != w.adoptions <==> Adopts(w.nodes[id].catalog, source.observation))
      && (next.adoptions != w.adoptions ==> source.observation.style !in next.nodes[id].catalog.pendingHints)
      && Possible(next, Deliver(id, source))
      && Apply(next, Deliver(id, source)) == next
  {
    hide Encodable, LatestVersion;
    var next := Apply(w, Deliver(id, source));
    ReplayIsIdle(w.nodes[id].catalog, source.observation);
    assert next.nodes[id := next.nodes[id]] == next.nodes;
  }
}
