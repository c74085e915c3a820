/** Tier 3: which busy or foreign-loaded workers to drain for a task, in an order
    every dispatcher with the same view agrees on. */
module DrainSwap {
  import opened Text
  import opened Profiles
  import opened Gossip
  import opened Ranking
  import opened ClusterState

  const U32_RANGE: nat := 0x1_0000_0000
  const MAX_COUNT: nat := U64 - 1

  datatype Entry = Entry(node: NodeId, worker: WorkerView)

  datatype Candidate = Candidate(node: NodeId, drain: Option<nat>)

  // ---- Estimates ---------------------------------------------------------

  /** Durations in nanoseconds, saturating at `longest`. */
  datatype Costs = Costs(warm: nat, first: nat, setup: nat, longest: nat)

  function Saturate(n: nat, longest: nat): nat {
    if n > longest then longest else n
  }

  /** `estimate_drain_eta`; the depth is cut to 32 bits before it is multiplied. */
  function DrainEta(c: Costs, w: WorkerView, profile: WorkerProfile): nat {
    var wait := Saturate((c.first + c.setup) * (w.depth % U32_RANGE), c.longest);
    Saturate(wait + (if w.loaded == Some(profile) then c.warm else c.setup + c.first), c.longest)
  }

  // ---- Candidates --------------------------------------------------------

  function NodeEntries(id: NodeId, node: NodeState): seq<Entry> {
    if node.accepts then seq(|node.workers|, i requires 0 <= i < |node.workers| => Entry(id, node.workers[i])) else []
  }

  /** Every worker of every accepting node, in iteration order. */
  function Entries(states: map<NodeId, NodeState>, order: seq<NodeId>): seq<Entry>
    requires forall i | 0 <= i < |order| :: order[i] in states
  {
    if order == [] then [] else NodeEntries(order[0], states[order[0]]) + Entries(states, order[1..])
  }

  function LoadCount(entries: seq<Entry>, profile: WorkerProfile): nat {
    if entries == [] then 0
    else LoadCount(entries[..|entries| - 1], profile) +
         (if entries[|entries| - 1].worker.loaded == Some(profile) then 1 else 0)
  }

  /** A drainable worker with its sort key: protect the only copy of a profile,
      prefer the task's shape, evict the most copied, then the shortest queue,
      then stable names. */
  datatype Drain = Drain(protected: bool, mismatch: bool, count: nat, depth: nat, node: NodeId, worker: nat)

  predicate Drainable(w: WorkerView, profile: WorkerProfile, drainMax: nat) {
    w.depth < drainMax && w.loaded != Some(profile)
  }

  function DrainOf(e: Entry, profile: WorkerProfile, counts: WorkerProfile -> nat): Drain {
    match e.worker.loaded
    case None => Drain(false, true, MAX_COUNT, e.worker.depth, e.node, e.worker.id)
    case Some(p) =>
      Drain(counts(p) <= 1, p.mode != profile.mode || p.scale != profile.scale, counts(p),
            e.worker.depth, e.node, e.worker.id)
  }

  function Drains(
    entries: seq<Entry>, profile: WorkerProfile, counts: WorkerProfile -> nat, drainMax: nat): seq<Drain>
  {
    if entries == [] then []
    else
      var e := entries[|entries| - 1];
      Drains(entries[..|entries| - 1], profile, counts, drainMax) +
      (if Drainable(e.worker, profile, drainMax) then [DrainOf(e, profile, counts)] else [])
  }

  predicate DrainLess(a: Drain, b: Drain) {
    if a.protected != b.protected then b.protected
    else if a.mismatch != b.mismatch then b.mismatch
    else if a.count != b.count then a.count > b.count
    else if a.depth != b.depth then a.depth < b.depth
    else if a.node != b.node then Less(a.node, b.node)
    else a.worker < b.worker
  }

  lemma DrainTotal(a: Drain, b: Drain)
    ensures DrainLess(a, b) || a == b || DrainLess(b, a)
    ensures !(DrainLess(a, b) && DrainLess(b, a))
  {
    hide Less;
    LessTotal(a.node, b.node);
    if Less(a.node, b.node) && Less(b.node, a.node) {
      LessTransitive(a.node, b.node, a.node);
      LessIrreflexive(a.node);
    }
  }

  lemma DrainTransitive(a: Drain, b: Drain, c: Drain)
    requires !DrainLess(b, a) && !DrainLess(c, b)
    ensures !DrainLess(c, a)
  {
    hide Less;
    LessTotal(a.node, b.node);
    LessTotal(b.node, c.node);
    LessIrreflexive(a.node);
    if Less(a.node, b.node) && Less(b.node, c.node) {
      LessTransitive(a.node, b.node, c.node);
    }
    if Less(c.node, a.node) && Less(a.node, b.node) {
      LessTransitive(c.node, a.node, b.node);
    }
    if Less(c.node, a.node) && Less(b.node, c.node) {
      LessTransitive(b.node, c.node, a.node);
    }
  }

  // ---- Sorting -----------------------------------------------------------

  predicate Ordered(s: seq<Drain>) {
    forall i, j | 0 <= i < j < |s| :: !DrainLess(s[j], s[i])
  }

  function InsertDrain(s: seq<Drain>, x: Drain): seq<Drain> {
    if s == [] || DrainLess(x, s[0]) then [x] + s else [s[0]] + InsertDrain(s[1..], x)
  }

  /** `sort_by` under the total order. */
  function Sort(s: seq<Drain>): seq<Drain> {
    if s == [] then [] else InsertDrain(Sort(s[..|s| - 1]), s[|s| - 1])
  }

  lemma {:induction false} InsertSorts(s: seq<Drain>, x: Drain)
    requires Ordered(s)
    ensures Ordered(InsertDrain(s, x)) && multiset(InsertDrain(s, x)) == multiset(s) + multiset{x}
  {
    hide DrainLess;
    if s == [] {
    } else if DrainLess(x, s[0]) {
      forall j | 0 <= j < |s| ensures !DrainLess(s[j], x) {
        DrainTotal(x, s[0]);
        if j > 0 {
          DrainTransitive(x, s[0], s[j]);
        }
      }
    } else {
      InsertSorts(s[1..], x);
      var t := InsertDrain(s[1..], x);
      assert s == [s[0]] + s[1..];
      forall j | 0 <= j < |t| ensures !DrainLess(t[j], s[0]) {
        assert t[j] in multiset(t);
        if t[j] != x {
          assert t[j] in multiset(s[1..]);
          var i :| 0 <= i < |s[1..]| && s[1..][i] == t[j];
          assert s[i + 1] == t[j];
        }
      }
    }
  }

  lemma {:induction false} SortSorts(s: seq<Drain>)
    ensures Ordered(Sort(s)) && multiset(Sort(s)) == multiset(s)
  {
    if s != [] {
      SortSorts(s[..|s| - 1]);
      InsertSorts(Sort(s[..|s| - 1]), s[|s| - 1]);
      assert s == s[..|s| - 1] + [s[|s| - 1]];
    }
  }

  lemma FirstIsLeast(a: seq<Drain>, x: Drain)
    requires Ordered(a) && x in multiset(a)
    ensures a != [] && !DrainLess(x, a[0])
  {
    hide DrainLess;
    var i :| 0 <= i < |a| && a[i] == x;
    DrainTotal(x, x);
  }

  lemma TailMultiset<T>(a: seq<T>)
    requires a != []
    ensures multiset(a[1..]) == multiset(a) - multiset{a[0]} && a[0] in multiset(a)
  {
    assert a == [a[0]] + a[1..];
  }

  /** A sorted arrangement is determined by what is arranged. */
  lemma {:induction false} OrderedUnique(a: seq<Drain>, b: seq<Drain>)
    requires Ordered(a) && Ordered(b) && multiset(a) == multiset(b)
    ensures a == b
  {
    hide DrainLess;
    SameSize(a, b);
    if a != [] {
      TailMultiset(a);
      TailMultiset(b);
      FirstIsLeast(a, b[0]);
      FirstIsLeast(b, a[0]);
      DrainTotal(a[0], b[0]);
      OrderedTail(a);
      OrderedTail(b);
      OrderedUnique(a[1..], b[1..]);
      assert a == [a[0]] + a[1..] && b == [b[0]] + b[1..];
    }
  }

  lemma OrderedTail(a: seq<Drain>)
    requires Ordered(a) && a != []
    ensures Ordered(a[1..])
  {
    hide DrainLess;
  }

  lemma SameSize<T>(a: seq<T>, b: seq<T>)
    requires multiset(a) == multiset(b)
    ensures |a| == |b|
  {
    assert |multiset(a)| == |a| && |multiset(b)| == |b|;
  }

  // ---- Independence of the iteration order -------------------------------

  lemma {:induction false} LoadCountConcat(a: seq<Entry>, b: seq<Entry>, profile: WorkerProfile)
    ensures LoadCount(a + b, profile) == LoadCount(a, profile) + LoadCount(b, profile)
  {
    if b == [] {
      assert a + b == a;
    } else {
      LoadCountConcat(a, b[..|b| - 1], profile);
      assert (a + b)[..|a + b| - 1] == a + b[..|b| - 1];
    }
  }

  lemma {:induction false} DrainsConcat(
    a: seq<Entry>, b: seq<Entry>, profile: WorkerProfile, counts: WorkerProfile -> nat, drainMax: nat)
    ensures Drains(a + b, profile, counts, drainMax) ==
            Drains(a, profile, counts, drainMax) + Drains(b, profile, counts, drainMax)
  {
    if b == [] {
      assert a + b == a;
    } else {
      DrainsConcat(a, b[..|b| - 1], profile, counts, drainMax);
      assert (a + b)[..|a + b| - 1] == a + b[..|b| - 1];
    }
  }

  lemma {:induction false} EntriesConcat(states: map<NodeId, NodeState>, a: seq<NodeId>, b: seq<NodeId>)
    requires forall i | 0 <= i < |a| :: a[i] in states
    requires forall i | 0 <= i < |b| :: b[i] in states
    ensures Entries(states, a + b) == Entries(states, a) + Entries(states, b)
  {
    if a == [] {
      assert a + b == b;
    } else {
      EntriesConcat(states, a[1..], b);
      assert (a + b)[1..] == a[1..] + b;
    }
  }

  lemma EntriesSplit(states: map<NodeId, NodeState>, order: seq<NodeId>, k: nat)
    requires k < |order| && forall i | 0 <= i < |order| :: order[i] in states
    ensures Entries(states, order) ==
            Entries(states, order[..k]) + NodeEntries(order[k], states[order[k]]) + Entries(states, order[k + 1..])
  {
    hide NodeEntries;
    var tail := order[k..];
    assert order == order[..k] + tail && tail[1..] == order[k + 1..];
    EntriesConcat(states, order[..k], tail);
  }

  /** Two iteration orders of the same states. */
  predicate Rearranged(a: seq<NodeId>, b: seq<NodeId>) {
    multiset(a) == multiset(b)
  }

  lemma Extract(a: seq<NodeId>, b: seq<NodeId>) returns (k: nat)
    requires a != [] && Rearranged(a, b)
    ensures k < |b| && b[k] == a[0] && Rearranged(a[1..], b[..k] + b[k + 1..])
  {
    TailMultiset(a);
    k :| 0 <= k < |b| && b[k] == a[0];
    assert b == b[..k] + [b[k]] + b[k + 1..];
  }

  lemma {:induction false} CountsAgree(
    states: map<NodeId, NodeState>, a: seq<NodeId>, b: seq<NodeId>, profile: WorkerProfile)
    requires Rearranged(a, b)
    requires (forall i | 0 <= i < |a| :: a[i] in states) && (forall i | 0 <= i < |b| :: b[i] in states)
    ensures LoadCount(Entries(states, a), profile) == LoadCount(Entries(states, b), profile)
    decreases |a|
  {
    hide NodeEntries, LoadCount;
    SameSize(a, b);
    if a != [] {
      var k := Extract(a, b);
      var rest := b[..k] + b[k + 1..];
      EntriesSplit(states, b, k);
      EntriesConcat(states, b[..k], b[k + 1..]);
      CountsAgree(states, a[1..], rest, profile);
      var x, y, z := Entries(states, b[..k]), NodeEntries(b[k], states[b[k]]), Entries(states, b[k + 1..]);
      LoadCountConcat(x + y, z, profile);
      LoadCountConcat(x, y, profile);
      LoadCountConcat(x, z, profile);
      LoadCountConcat(y, Entries(states, a[1..]), profile);
    }
  }

  lemma {:induction false} DrainsAgree(
    states: map<NodeId, NodeState>, a: seq<NodeId>, b: seq<NodeId>, profile: WorkerProfile,
    counts: WorkerProfile -> nat, drainMax: nat)
    requires Rearranged(a, b)
    requires (forall i | 0 <= i < |a| :: a[i] in states) && (forall i | 0 <= i < |b| :: b[i] in states)
    ensures multiset(Drains(Entries(states, a), profile, counts, drainMax)) ==
            multiset(Drains(Entries(states, b), profile, counts, drainMax))
    decreases |a|
  {
    hide NodeEntries, Drains;
    SameSize(a, b);
    if a != [] {
      var k := Extract(a, b);
      var rest := b[..k] + b[k + 1..];
      EntriesSplit(states, b, k);
      EntriesConcat(states, b[..k], b[k + 1..]);
      DrainsAgree(states, a[1..], rest, profile, counts, drainMax);
      var x, y, z := Entries(states, b[..k]), NodeEntries(b[k], states[b[k]]), Entries(states, b[k + 1..]);
      DrainsConcat(x + y, z, profile, counts, drainMax);
      DrainsConcat(x, y, profile, counts, drainMax);
      DrainsConcat(x, z, profile, counts, drainMax);
      DrainsConcat(y, Entries(states, a[1..]), profile, counts, drainMax);
    }
  }

  lemma {:induction false} DrainsSameCounts(
    entries: seq<Entry>, profile: WorkerProfile, f: WorkerProfile -> nat, g: WorkerProfile -> nat, drainMax: nat)
    requires forall p :: f(p) == g(p)
    ensures Drains(entries, profile, f, drainMax) == Drains(entries, profile, g, drainMax)
  {
    if entries != [] {
      DrainsSameCounts(entries[..|entries| - 1], profile, f, g, drainMax);
    }
  }

  // ---- Selection ---------------------------------------------------------

  /** The task's side of the choice; without a representable deadline everything
      fits. */
  datatype Terms = Terms(profile: WorkerProfile, costs: Costs, drainMax: nat, now: nat, deadline: Option<nat>)

  /** A drainable worker is never warm for the task, so its estimate depends on
      its depth alone. */
  function ColdEta(c: Costs, depth: nat): nat {
    Saturate(Saturate((c.first + c.setup) * (depth % U32_RANGE), c.longest) + (c.setup + c.first), c.longest)
  }

  lemma DrainableIsCold(c: Costs, w: WorkerView, profile: WorkerProfile, drainMax: nat)
    requires Drainable(w, profile, drainMax)
    ensures DrainEta(c, w, profile) == ColdEta(c, w.depth)
  {
  }

  predicate Fits(t: Terms, d: Drain) {
    t.deadline.None? || t.now + ColdEta(t.costs, d.depth) <= t.deadline.value
  }

  /** The first `limit` that fit, in order. */
  function Take(t: Terms, drains: seq<Drain>, limit: nat): seq<Candidate> {
    if drains == [] || limit == 0 then []
    else if Fits(t, drains[0]) then
      [Candidate(drains[0].node, Some(drains[0].worker))] + Take(t, drains[1..], limit - 1)
    else Take(t, drains[1..], limit)
  }

  function CountsIn(entries: seq<Entry>): WorkerProfile -> nat {
    p => LoadCount(entries, p)
  }

  function DrainCandidates(states: map<NodeId, NodeState>, order: seq<NodeId>, t: Terms, limit: nat): seq<Candidate>
    requires forall i | 0 <= i < |order| :: order[i] in states
  {
    var entries := Entries(states, order);
    Take(t, Sort(Drains(entries, t.profile, CountsIn(entries), t.drainMax)), limit)
  }

  lemma EnumerationsRearrange(states: map<NodeId, NodeState>, a: seq<NodeId>, b: seq<NodeId>)
    requires Enumerates(a, states) && Enumerates(b, states)
    ensures Rearranged(a, b)
  {
    forall id ensures multiset(a)[id] == multiset(b)[id] {
      OnceEach(a, id);
      OnceEach(b, id);
    }
  }

  lemma {:induction false} OnceEach(a: seq<NodeId>, id: NodeId)
    requires forall i, j | 0 <= i < j < |a| :: a[i] != a[j]
    ensures multiset(a)[id] == if id in a then 1 else 0
  {
    if a != [] {
      OnceEach(a[1..], id);
      assert a == [a[0]] + a[1..];
      assert a[0] !in a[1..];
    }
  }

  /** Tier 3 does not depend on the order in which the states are iterated. */
  lemma DrainOrderIndependent(states: map<NodeId, NodeState>, a: seq<NodeId>, b: seq<NodeId>, t: Terms, limit: nat)
    requires Enumerates(a, states) && Enumerates(b, states)
    ensures DrainCandidates(states, a, t, limit) == DrainCandidates(states, b, t, limit)
  {
    hide Drains, Sort, Entries, Take, LoadCount;
    EnumerationsRearrange(states, a, b);
    var x, y := Entries(states, a), Entries(states, b);
    forall p ensures CountsIn(x)(p) == CountsIn(y)(p) {
      CountsAgree(states, a, b, p);
    }
    DrainsSameCounts(y, t.profile, CountsIn(x), CountsIn(y), t.drainMax);
    DrainsAgree(states, a, b, t.profile, CountsIn(x), t.drainMax);
    var d, e := Drains(x, t.profile, CountsIn(x), t.drainMax), Drains(y, t.profile, CountsIn(y), t.drainMax);
    SortSorts(d);
    SortSorts(e);
    OrderedUnique(Sort(d), Sort(e));
  }

  // ---- The loops ---------------------------------------------------------

  /** `tier3_candidates_view`: count the loaded profiles, collect what can be
      drained, sort, and keep the first that fit. */
  method DrainTargets(states: map<NodeId, NodeState>, order: seq<NodeId>, t: Terms, limit: nat)
    returns (selected: seq<Candidate>)
    requires (forall i | 0 <= i < |order| :: order[i] in states) && limit > 0
    ensures selected == DrainCandidates(states, order, t, limit)
  {
    var entries := Entries(states, order);
    var counts := CountLoaded(entries);
    var drains := Collect(entries, t, counts);
    var sorted := Sort(drains);
    selected := TakeFitting(t, sorted, limit);
  }

  /** The selection loop over the sorted candidates. */
  method TakeFitting(t: Terms, sorted: seq<Drain>, limit: nat) returns (selected: seq<Candidate>)
    requires limit > 0
    ensures selected == Take(t, sorted, limit)
  {
    hide Fits;
    selected := [];
    for n := 0 to |sorted|
      invariant |selected| < limit
      invariant Take(t, sorted, limit) == selected + Take(t, sorted[n..], limit - |selected|)
    {
      TakeStep(t, sorted[n..], limit - |selected|);
      assert sorted[n..][1..] == sorted[n + 1..];
      if Fits(t, sorted[n]) {
        selected := selected + [Candidate(sorted[n].node, Some(sorted[n].worker))];
        if |selected| >= limit {
          return;
        }
      }
    }
  }

  lemma TakeStep(t: Terms, drains: seq<Drain>, limit: nat)
    requires drains != [] && limit > 0
    ensures Take(t, drains, limit) ==
            if Fits(t, drains[0]) then
            [Candidate(drains[0].node, Some(drains[0].worker))] + Take(t, drains[1..], limit - 1)
            else Take(t, drains[1..], limit)
  {
  }

  method CountLoaded(entries: seq<Entry>) returns (counts: map<WorkerProfile, nat>)
    ensures forall p :: (if p in counts then counts[p] else 0) == LoadCount(entries, p)
  {
    counts := map[];
    for n := 0 to |entries|
      invariant forall p :: (if p in counts then counts[p] else 0) == LoadCount(entries[..n], p)
    {
      assert entries[..n + 1][..n] == entries[..n];
      var loaded := entries[n].worker.loaded;
      if loaded.Some? {
        var before := if loaded.value in counts then counts[loaded.value] else 0;
        counts := counts[loaded.value := before + 1];
      }
    }
    assert entries[..|entries|] == entries;
  }

  method Collect(entries: seq<Entry>, t: Terms, counts: map<WorkerProfile, nat>) returns (drains: seq<Drain>)
    requires forall p :: (if p in counts then counts[p] else 0) == LoadCount(entries, p)
    ensures drains == Drains(entries, t.profile, CountsIn(entries), t.drainMax)
  {
    hide LoadCount;
    drains := [];
    for n := 0 to |entries|
      invariant drains == Drains(entries[..n], t.profile, CountsIn(entries), t.drainMax)
    {
      assert entries[..n + 1][..n] == entries[..n];
      var e := entries[n];
      if e.worker.depth < t.drainMax && (e.worker.loaded.None? || e.worker.loaded.value != t.profile) {
        drains := drains + [DrainOf(e, t.profile, p => if p in counts then counts[p] else 0)];
      }
    }
    assert entries[..|entries|] == entries;
  }

  // ---- What is selected --------------------------------------------------

  /** The worker may be evicted for the task and is estimated to finish in time. */
  predicate DrainsInTime(t: Terms, w: WorkerView) {
    && Drainable(w, t.profile, t.drainMax)
    && (t.deadline.Some? ==> t.now + DrainEta(t.costs, w, t.profile) <= t.deadline.value)
  }

  /** Some worker of an accepting node, drainable and in time. */
  predicate Justified(states: map<NodeId, NodeState>, t: Terms, c: Candidate) {
    && c.node in states && states[c.node].accepts && c.drain.Some?
    && exists w :: w in states[c.node].workers && w.id == c.drain.value && DrainsInTime(t, w)
  }

  lemma {:induction false} EntriesOrigin(states: map<NodeId, NodeState>, order: seq<NodeId>, k: nat)
    requires (forall i | 0 <= i < |order| :: order[i] in states) && k < |Entries(states, order)|
    ensures var e := Entries(states, order)[k];
            e.node in states && states[e.node].accepts && e.worker in states[e.node].workers
  {
    if order != [] {
      var head := NodeEntries(order[0], states[order[0]]);
      if k >= |head| {
        EntriesOrigin(states, order[1..], k - |head|);
      }
    }
  }

  lemma {:induction false} DrainsOrigin(
    entries: seq<Entry>, profile: WorkerProfile, counts: WorkerProfile -> nat, drainMax: nat, k: nat) returns (i: nat)
    requires k < |Drains(entries, profile, counts, drainMax)|
    ensures i < |entries| && Drainable(entries[i].worker, profile, drainMax)
    ensures Drains(entries, profile, counts, drainMax)[k] == DrainOf(entries[i], profile, counts)
  {
    var n := |entries| - 1;
    if k < |Drains(entries[..n], profile, counts, drainMax)| {
      i := DrainsOrigin(entries[..n], profile, counts, drainMax, k);
    } else {
      i := n;
    }
  }

  lemma {:induction false} TakeOrigin(t: Terms, drains: seq<Drain>, limit: nat, k: nat) returns (i: nat)
    requires k < |Take(t, drains, limit)|
    ensures i < |drains| && Fits(t, drains[i]) && Take(t, drains, limit)[k] ==
            Candidate(drains[i].node, Some(drains[i].worker))
  {
    if Fits(t, drains[0]) && k == 0 {
      i := 0;
    } else {
      i := TakeOrigin(t, drains[1..], if Fits(t, drains[0]) then limit - 1 else limit,
                      if Fits(t, drains[0]) then k - 1 else k);
      i := i + 1;
    }
  }

  /** Every selected candidate names a worker that may be drained in time. */
  lemma DrainsAreJustified(states: map<NodeId, NodeState>, order: seq<NodeId>, t: Terms, limit: nat, k: nat)
    requires (forall i | 0 <= i < |order| :: order[i] in states) && k < |DrainCandidates(states, order, t, limit)|
    ensures Justified(states, t, DrainCandidates(states, order, t, limit)[k])
  {
    hide Drains, Sort, Entries, Take, LoadCount, ColdEta, DrainEta;
    var entries := Entries(states, order);
    var drains := Drains(entries, t.profile, CountsIn(entries), t.drainMax);
    var i := TakeOrigin(t, Sort(drains), limit, k);
    SortSorts(drains);
    assert Sort(drains)[i] in multiset(drains);
    var j :| 0 <= j < |drains| && drains[j] == Sort(drains)[i];
    var m := DrainsOrigin(entries, t.profile, CountsIn(entries), t.drainMax, j);
    EntriesOrigin(states, order, m);
    DrainableIsCold(t.costs, entries[m].worker, t.profile, t.drainMax);
  }

  lemma {:induction false} TakeBounded(t: Terms, drains: seq<Drain>, limit: nat)
    ensures |Take(t, drains, limit)| <= limit
  {
    if drains != [] && limit > 0 {
      TakeBounded(t, drains[1..], if Fits(t, drains[0]) then limit - 1 else limit);
    }
  }

  /** When nothing is selected, nothing could have been: no accepting node has a
      drainable worker that fits. */
  lemma {:induction false} TakeComplete(t: Terms, drains: seq<Drain>, limit: nat)
    requires limit > 0 && Take(t, drains, limit) == []
    ensures forall i | 0 <= i < |drains| :: !Fits(t, drains[i])
  {
    if drains != [] {
      TakeComplete(t, drains[1..], limit);
      assert drains == [drains[0]] + drains[1..];
    }
  }

  lemma {:induction false} EntriesComplete(states: map<NodeId, NodeState>, order: seq<NodeId>, k: nat, m: nat)
    returns (i: nat)
    requires (forall j | 0 <= j < |order| :: order[j] in states) && k < |order|
    requires states[order[k]].accepts && m < |states[order[k]].workers|
    ensures i < |Entries(states, order)| && Entries(states, order)[i] == Entry(order[k], states[order[k]].workers[m])
  {
    if k == 0 {
      i := m;
    } else {
      i := EntriesComplete(states, order[1..], k - 1, m);
      i := i + |NodeEntries(order[0], states[order[0]])|;
    }
  }

  lemma {:induction false} DrainsComplete(
    entries: seq<Entry>, profile: WorkerProfile, counts: WorkerProfile -> nat, drainMax: nat, i: nat) returns (k: nat)
    requires i < |entries| && Drainable(entries[i].worker, profile, drainMax)
    ensures k < |Drains(entries, profile, counts, drainMax)|
    ensures Drains(entries, profile, counts, drainMax)[k] == DrainOf(entries[i], profile, counts)
  {
    var n := |entries| - 1;
    if i < n {
      k := DrainsComplete(entries[..n], profile, counts, drainMax, i);
    } else {
      k := |Drains(entries[..n], profile, counts, drainMax)|;
    }
  }

  lemma WouldBeTaken(
    states: map<NodeId, NodeState>, order: seq<NodeId>, t: Terms, limit: nat, id: NodeId, w: WorkerView)
    requires Enumerates(order, states) && limit > 0 && id in states && states[id].accepts && w in states[id].workers
    requires DrainsInTime(t, w)
    ensures DrainCandidates(states, order, t, limit) != []
  {
    hide Drains, Sort, Entries, Take, LoadCount, ColdEta, DrainEta;
    var k :| 0 <= k < |order| && order[k] == id;
    var m :| 0 <= m < |states[id].workers| && states[id].workers[m] == w;
    var entries := Entries(states, order);
    var i := EntriesComplete(states, order, k, m);
    var drains := Drains(entries, t.profile, CountsIn(entries), t.drainMax);
    var j := DrainsComplete(entries, t.profile, CountsIn(entries), t.drainMax, i);
    DrainableIsCold(t.costs, w, t.profile, t.drainMax);
    SortSorts(drains);
    assert drains[j] in multiset(Sort(drains));
    var n :| 0 <= n < |Sort(drains)| && Sort(drains)[n] == drains[j];
    if Take(t, Sort(drains), limit) == [] {
      TakeComplete(t, Sort(drains), limit);
      assert false;
    }
  }

  /** Draining finds nothing exactly when no accepting node has a worker that may
      be evicted in time. */
  lemma DrainEmptyIff(states: map<NodeId, NodeState>, order: seq<NodeId>, t: Terms, limit: nat)
    requires Enumerates(order, states) && limit > 0
    ensures DrainCandidates(states, order, t, limit) == [] <==>
            forall id, w | id in states && states[id].accepts && w in states[id].workers :: !DrainsInTime(t, w)
  {
    hide DrainCandidates, DrainsInTime;
    if DrainCandidates(states, order, t, limit) != [] {
      DrainsAreJustified(states, order, t, limit, 0);
    }
    forall id, w | id in states && states[id].accepts && w in states[id].workers && DrainsInTime(t, w)
      ensures DrainCandidates(states, order, t, limit) != []
    {
      WouldBeTaken(states, order, t, limit, id, w);
    }
  }

  // ---- What the order means ----------------------------------------------

  /** Evicting this worker would lose the cluster's only copy of a profile. */
  predicate OnlyCopy(entries: seq<Entry>, w: WorkerView) {
    w.loaded.Some? && LoadCount(entries, w.loaded.value) <= 1
  }

  lemma {:induction false} FirstTakenIsLeast(t: Terms, drains: seq<Drain>, limit: nat) returns (i: nat)
    requires Take(t, drains, limit) != [] && Ordered(drains)
    ensures i < |drains| && Fits(t, drains[i]) && Take(t, drains, limit)[0] ==
            Candidate(drains[i].node, Some(drains[i].worker))
    ensures forall j | 0 <= j < |drains| && Fits(t, drains[j]) :: !DrainLess(drains[j], drains[i])
  {
    hide DrainLess, Fits;
    if Fits(t, drains[0]) {
      i := 0;
      forall j | 0 <= j < |drains| ensures !DrainLess(drains[j], drains[0]) {
        DrainTotal(drains[0], drains[0]);
      }
    } else {
      OrderedTail(drains);
      i := FirstTakenIsLeast(t, drains[1..], limit);
      i := i + 1;
      assert forall j | 1 <= j < |drains| :: drains[j] == drains[1..][j - 1];
    }
  }

  /** The documented preference between two workers, in terms of the cluster. */
  predicate PreferredTo(entries: seq<Entry>, profile: WorkerProfile, v: WorkerView, w: WorkerView) {
    if OnlyCopy(entries, v) != OnlyCopy(entries, w) then OnlyCopy(entries, w)
    else if Misshapen(v, profile) != Misshapen(w, profile) then Misshapen(w, profile)
    else if Copies(entries, v) != Copies(entries, w) then Copies(entries, v) > Copies(entries, w)
    else v.depth <= w.depth
  }

  /** A fresh worker counts as of another shape and as copied without end. */
  predicate Misshapen(w: WorkerView, profile: WorkerProfile) {
    w.loaded.Some? ==> w.loaded.value.mode != profile.mode || w.loaded.value.scale != profile.scale
  }

  function Copies(entries: seq<Entry>, w: WorkerView): nat {
    if w.loaded.Some? then LoadCount(entries, w.loaded.value) else MAX_COUNT
  }

  /** The first worker drained is preferred to every other that could be drained in
      time: an only copy is evicted last, then the task's own shape and the most
      copied profile go first, then the shorter queue. */
  lemma FirstIsPreferred(
    states: map<NodeId, NodeState>, order: seq<NodeId>, t: Terms, limit: nat, id: NodeId, w: WorkerView)
    requires Enumerates(order, states) && limit > 0 && id in states && states[id].accepts && w in states[id].workers
    requires DrainsInTime(t, w)
    ensures DrainCandidates(states, order, t, limit) != []
    ensures var c := DrainCandidates(states, order, t, limit)[0];
            c.node in states &&
            exists v :: v in states[c.node].workers && c.drain == Some(v.id) && DrainsInTime(t, v) &&
                        PreferredTo(Entries(states, order), t.profile, v, w)
  {
    hide Drains, Sort, Entries, Take, LoadCount, ColdEta, DrainEta, DrainLess, PreferredTo;
    WouldBeTaken(states, order, t, limit, id, w);
    var entries := Entries(states, order);
    var drains := Drains(entries, t.profile, CountsIn(entries), t.drainMax);
    SortSorts(drains);
    var i := FirstTakenIsLeast(t, Sort(drains), limit);
    var j := InSorted(states, order, t, id, w);
    assert !DrainLess(Sort(drains)[j], Sort(drains)[i]);
    assert Sort(drains)[i] in multiset(drains);
    var k :| 0 <= k < |drains| && drains[k] == Sort(drains)[i];
    var m := DrainsOrigin(entries, t.profile, CountsIn(entries), t.drainMax, k);
    EntriesOrigin(states, order, m);
    DrainableIsCold(t.costs, entries[m].worker, t.profile, t.drainMax);
    NotLessIsPreferred(entries, t.profile, entries[m], Entry(id, w));
  }

  lemma NotLessIsPreferred(entries: seq<Entry>, profile: WorkerProfile, a: Entry, b: Entry)
    requires !DrainLess(DrainOf(b, profile, CountsIn(entries)), DrainOf(a, profile, CountsIn(entries)))
    ensures PreferredTo(entries, profile, a.worker, b.worker)
  {
    hide LoadCount, Less;
  }

  lemma InSorted(states: map<NodeId, NodeState>, order: seq<NodeId>, t: Terms, id: NodeId, w: WorkerView)
    returns (n: nat)
    requires Enumerates(order, states) && id in states && states[id].accepts && w in states[id].workers
             && DrainsInTime(t, w)
    ensures var entries := Entries(states, order);
            var sorted := Sort(Drains(entries, t.profile, CountsIn(entries), t.drainMax));
            n < |sorted| && sorted[n] == DrainOf(Entry(id, w), t.profile, CountsIn(entries)) && Fits(t, sorted[n])
  {
    hide Drains, Sort, Entries, LoadCount, ColdEta, DrainEta;
    var k :| 0 <= k < |order| && order[k] == id;
    var m :| 0 <= m < |states[id].workers| && states[id].workers[m] == w;
    var entries := Entries(states, order);
    var i := EntriesComplete(states, order, k, m);
    var drains := Drains(entries, t.profile, CountsIn(entries), t.drainMax);
    var j := DrainsComplete(entries, t.profile, CountsIn(entries), t.drainMax, i);
    DrainableIsCold(t.costs, w, t.profile, t.drainMax);
    SortSorts(drains);
    assert drains[j] in multiset(Sort(drains));
    n :| 0 <= n < |Sort(drains)| && Sort(drains)[n] == drains[j];
  }

  // ---- The estimate and its 32-bit depth ---------------------------------

  /** What the task itself takes once the queue is done. */
  function OwnTime(c: Costs, w: WorkerView, profile: WorkerProfile): nat {
    if w.loaded == Some(profile) then c.warm else c.setup + c.first
  }

  /** The estimate that counts every queued task. */
  function TrueEta(c: Costs, w: WorkerView, profile: WorkerProfile): nat {
    Saturate((c.first + c.setup) * w.depth + OwnTime(c, w, profile), c.longest)
  }

  /** The depth fits in 32 bits, a queued task costs nothing, or already the tasks
      counted after the cut reach the longest duration. */
  predicate DepthCounted(c: Costs, w: WorkerView, profile: WorkerProfile) {
    || w.depth < U32_RANGE
    || c.first + c.setup == 0
    || (c.first + c.setup) * (w.depth % U32_RANGE) + OwnTime(c, w, profile) >= c.longest
  }

  lemma SaturateTwice(wait: nat, own: nat, longest: nat)
    ensures Saturate(Saturate(wait, longest) + own, longest) == Saturate(wait + own, longest)
  {
  }

  lemma MoreTasksTakeLonger(cost: nat, fewer: nat, more: nat)
    requires fewer < more
    ensures cost * fewer + cost <= cost * more
  {
    var n := more - fewer - 1;
    assert cost * more == cost * fewer + cost + cost * n;
    ProductIsNat(cost, n);
  }

  lemma ProductIsNat(a: nat, b: nat)
    ensures a * b >= 0
  {
  }

  /** The code's estimate is the true one exactly when every queued task counts. */
  lemma EstimateExactly(c: Costs, w: WorkerView, profile: WorkerProfile)
    ensures DrainEta(c, w, profile) == TrueEta(c, w, profile) <==> DepthCounted(c, w, profile)
  {
    var cost, own, cut := c.first + c.setup, OwnTime(c, w, profile), w.depth % U32_RANGE;
    ProductIsNat(cost, cut);
    ProductIsNat(cost, w.depth);
    SaturateTwice(cost * cut, own, c.longest);
    if w.depth < U32_RANGE {
      assert cut == w.depth;
    } else if cost == 0 {
      assert cost * cut == 0 == cost * w.depth;
    } else {
      MoreTasksTakeLonger(cost, cut, w.depth);
    }
  }

  /** A configured queue bound of at most 2^32 makes every drainable worker's
      estimate true. */
  lemma BoundedEstimateIsTrue(c: Costs, w: WorkerView, profile: WorkerProfile, drainMax: nat)
    requires drainMax <= U32_RANGE && Drainable(w, profile, drainMax)
    ensures DrainEta(c, w, profile) == TrueEta(c, w, profile)
  {
    EstimateExactly(c, w, profile);
  }

  /** Above that bound a worker can be drained for a task it cannot finish: its
      estimate meets the deadline and its true estimate does not. */
  lemma EstimateFails(profile: WorkerProfile, id: nat) returns (t: Terms, w: WorkerView)
    ensures w.id == id && t.profile == profile && t.drainMax == U32_RANGE + 1 && DrainsInTime(t, w)
    ensures t.deadline.Some? && t.now + TrueEta(t.costs, w, profile) > t.deadline.value
  {
    w := WorkerView(id, None, U32_RANGE);
    t := Terms(profile, Costs(1, 1, 1, 4 * U32_RANGE), U32_RANGE + 1, 0, Some(2));
    assert U32_RANGE % U32_RANGE == 0;
  }
}
