/** The warm planner: which one profile, if any, a node prepares ahead of traffic.

    `hrw_weight` is an arbitrary function of style id, mode, scale and node; style
    versions do not enter it.
  */
module WarmPlan {
  import opened Text
  import opened Profiles
  import opened Gossip
  import opened Ranking

  const MAX_CANDIDATE_PROFILES: nat := 64
  const WARM_HRW_DEPTH: nat := 2
  const MAX_WEIGHT: nat := U64 - 1

  /** The part of a recommendation that is trusted. */
  datatype Key = Key(id: string, mode: RenderMode, scale: Scale)

  type Hrw = (Key, NodeId) -> nat

  datatype Skip =
    | Draining
    | NotAcceptingRenders
    | WarmInFlight
    | QueuesBusy
    | NoSpareSlot
    | CandidateSetTooLarge
    | NoEligibleCandidate

  datatype Plan = Warm(profile: WorkerProfile) | Skipped(why: Skip)

  datatype Readiness = Readiness(draining: bool, accepts: bool, inFlight: bool, reserved: nat)

  /** Everything but the recommendations. `accepting` tells, for members whose
      state is known, whether they take new renders. */
  datatype Situation = Situation(
    local: NodeId, members: seq<NodeId>, accepting: map<NodeId, bool>, workers: seq<WorkerView>,
    readiness: Readiness, resolve: string -> Option<nat>, hrw: Hrw)

  function KeyOf(p: WorkerProfile): Key {
    Key(p.style.id, p.mode, p.scale)
  }

  function WeightFor(s: Situation, key: Key): Weight {
    n => s.hrw(key, n)
  }

  // ---- Ownership ---------------------------------------------------------

  function Accepts(accepting: map<NodeId, bool>): NodeId -> bool {
    n => n in accepting && accepting[n]
  }

  function CouldOwn(s: Situation): NodeId -> bool {
    n => n == s.local || (n in s.accepting && s.accepting[n])
  }

  /** The nodes ownership is predicted over; the local node is always one. */
  function Owners(s: Situation): (owners: seq<NodeId>)
    ensures s.local in owners
  {
    var found := Eligible(s.members, CouldOwn(s));
    if s.local in found then found else found + [s.local]
  }

  function FirstIndex(nodes: seq<NodeId>, n: NodeId): (i: nat)
    requires n in nodes
    ensures i < |nodes| && nodes[i] == n && n !in nodes[..i]
  {
    if nodes[0] == n then 0 else 1 + FirstIndex(nodes[1..], n)
  }

  /** The local node's rank, counted from one. */
  function LocalRank(s: Situation, key: Key): nat {
    1 + Rank(Weights(Owners(s), WeightFor(s, key)), FirstIndex(Owners(s), s.local))
  }

  lemma FirstIsFirst(nodes: seq<NodeId>, n: NodeId, q: nat)
    requires n in nodes && q < FirstIndex(nodes, n)
    ensures nodes[q] != n
  {
    assert nodes[..FirstIndex(nodes, n)][q] == nodes[q];
  }

  lemma FirstIsBest(nodes: seq<NodeId>, weight: Weight, n: NodeId, q: nat)
    requires n in nodes && q < |nodes| && nodes[q] == n
    ensures Rank(Weights(nodes, weight), FirstIndex(nodes, n)) <= Rank(Weights(nodes, weight), q)
  {
    var ws, i := Weights(nodes, weight), FirstIndex(nodes, n);
    if q < i {
      FirstIsFirst(nodes, n, q);
      assert false;
    }
    assert ws[i] == ws[q];
    assert AheadOf(ws, i) <= AheadOf(ws, q);
    SubsetIsSmaller(AheadOf(ws, i), AheadOf(ws, q));
  }

  /** The planner agrees with the dispatcher: the local rank is within `depth`
      exactly when the dispatcher, asked for `depth` candidates among the same
      owners, would name the local node. Repeated members are no exception. */
  lemma RankAgreesWithDispatcher(s: Situation, key: Key, depth: nat)
    ensures LocalRank(s, key) <= depth <==> s.local in Best(Owners(s), WeightFor(s, key), depth)
  {
    hide Rank, Weights, FullRanking, Bounded, Owners;
    var owners, weight := Owners(s), WeightFor(s, key);
    var ws := Weights(owners, weight);
    var i := FirstIndex(owners, s.local);
    SelectedIffRank(ws, i, depth);
    BoundedIsPrefix(ws, depth);
    var top := FullRanking(ws)[..Most(depth, |ws|)];
    assert Best(owners, weight, depth) == NodesAt(owners, top);
    if s.local in NodesAt(owners, top) {
      var a :| 0 <= a < |top| && owners[top[a]] == s.local;
      SelectedIffRank(ws, top[a], depth);
      FirstIsBest(owners, weight, s.local, top[a]);
    }
    if i in top {
      var a :| 0 <= a < |top| && top[a] == i;
      assert NodesAt(owners, top)[a] == s.local;
    }
  }

  lemma {:induction false} EligibleSame(members: seq<NodeId>, f: NodeId -> bool, g: NodeId -> bool)
    requires forall n | n in members :: f(n) == g(n)
    ensures Eligible(members, f) == Eligible(members, g)
  {
    if members != [] {
      EligibleSame(members[..|members| - 1], f, g);
    }
  }

  /** Accepting members of one view predict ownership over the same list. */
  lemma SharedOwners(s: Situation)
    requires s.local in s.members && Accepts(s.accepting)(s.local)
    ensures Owners(s) == Eligible(s.members, Accepts(s.accepting))
  {
    EligibleSame(s.members, CouldOwn(s), Accepts(s.accepting));
    EligibleMember(s.members, CouldOwn(s), s.local);
  }

  // ---- Choosing ----------------------------------------------------------

  /** Smaller is better: rank, then the stronger weight, then a stable name. */
  datatype Claim = Claim(rank: nat, inverseWeight: int, name: string, mode: nat, scale: nat)

  predicate ClaimLess(a: Claim, b: Claim) {
    if a.rank != b.rank then a.rank < b.rank
    else if a.inverseWeight != b.inverseWeight then a.inverseWeight < b.inverseWeight
    else if a.name != b.name then Less(a.name, b.name)
    else if a.mode != b.mode then a.mode < b.mode
    else a.scale < b.scale
  }

  lemma ClaimTotal(a: Claim, b: Claim)
    ensures ClaimLess(a, b) || a == b || ClaimLess(b, a)
    ensures !(ClaimLess(a, b) && ClaimLess(b, a))
  {
    hide Less;
    LessTotal(a.name, b.name);
    if Less(a.name, b.name) && Less(b.name, a.name) {
      LessTransitive(a.name, b.name, a.name);
      LessIrreflexive(a.name);
    }
  }

  lemma ClaimTransitive(a: Claim, b: Claim, c: Claim)
    requires ClaimLess(a, b) && ClaimLess(b, c)
    ensures ClaimLess(a, c)
  {
    hide Less;
    if Less(a.name, b.name) && Less(b.name, c.name) {
      LessTransitive(a.name, b.name, c.name);
      LessIrreflexive(a.name);
    }
  }

  function ProfileFor(key: Key, version: nat): WorkerProfile {
    WorkerProfile(StyleRevision(key.id, version), key.mode, key.scale)
  }

  /** `sort_key`, behind the rank and the inverted weight. */
  function ClaimFor(s: Situation, key: Key, version: nat): Claim {
    ClaimAt(s, key, version, LocalRank(s, key))
  }

  function ClaimAt(s: Situation, key: Key, version: nat, rank: nat): Claim {
    Claim(rank, MAX_WEIGHT - s.hrw(key, s.local), RevisionValue(StyleRevision(key.id, version)),
          if key.mode.Static? then 0 else 1, if key.scale.X1? then 0 else 1)
  }

  predicate Loaded(workers: seq<WorkerView>, p: WorkerProfile) {
    exists i :: 0 <= i < |workers| && workers[i].loaded == Some(p)
  }

  function FreeSlots(workers: seq<WorkerView>): nat {
    if workers == [] then 0
    else FreeSlots(workers[..|workers| - 1]) + (if workers[|workers| - 1].loaded.None? then 1 else 0)
  }

  predicate Busy(workers: seq<WorkerView>) {
    exists i :: 0 <= i < |workers| && workers[i].depth > 0
  }

  /** Resolvable here, not loaded here, and owned deeply enough. */
  predicate Qualifies(s: Situation, key: Key) {
    && s.resolve(key.id).Some?
    && !Loaded(s.workers, ProfileFor(key, s.resolve(key.id).value))
    && LocalRank(s, key) <= WARM_HRW_DEPTH
  }

  function ClaimOf(s: Situation, key: Key): Claim
    requires Qualifies(s, key)
  {
    ClaimFor(s, key, s.resolve(key.id).value)
  }

  /** No two candidates tie. */
  lemma ClaimInjective(s: Situation, a: Key, b: Key)
    requires Qualifies(s, a) && Qualifies(s, b) && ClaimOf(s, a) == ClaimOf(s, b)
    ensures a == b
  {
    hide RevisionValue, LocalRank;
    RevisionValueInjective(StyleRevision(a.id, s.resolve(a.id).value), StyleRevision(b.id, s.resolve(b.id).value));
  }

  predicate Wins(s: Situation, keys: set<Key>, key: Key) {
    && key in keys && Qualifies(s, key)
    && forall k | k in keys && Qualifies(s, k) :: k == key || ClaimLess(ClaimOf(s, key), ClaimOf(s, k))
  }

  /** What refuses before any candidate is looked at, in order. */
  function Gate(s: Situation): Option<Skip> {
    if s.readiness.draining then Some(Draining)
    else if !s.readiness.accepts then Some(NotAcceptingRenders)
    else if s.readiness.inFlight then Some(WarmInFlight)
    else if Busy(s.workers) then Some(QueuesBusy)
    else if FreeSlots(s.workers) <= s.readiness.reserved then Some(NoSpareSlot)
    else None
  }

  /** What a plan means, in terms of the set of recommended keys alone. */
  ghost predicate IsPlan(s: Situation, keys: set<Key>, plan: Plan) {
    if Gate(s).Some? then plan == Skipped(Gate(s).value)
    else if |keys| > MAX_CANDIDATE_PROFILES then plan == Skipped(CandidateSetTooLarge)
    else
      match plan
      case Warm(profile) => exists key :: Wins(s, keys, key) && profile == ProfileFor(key, s.resolve(key.id).value)
      case Skipped(why) => why == NoEligibleCandidate && forall key | key in keys :: !Qualifies(s, key)
  }

  /** The plan depends on nothing but the set of recommended keys: neither their
      order, nor repetition, nor the versions they carried. */
  lemma PlanIsUnique(s: Situation, keys: set<Key>, a: Plan, b: Plan)
    requires IsPlan(s, keys, a) && IsPlan(s, keys, b)
    ensures a == b
  {
    hide LocalRank, Loaded, ClaimLess, ClaimFor;
    if a.Warm? && b.Warm? {
      var k :| Wins(s, keys, k) && a.profile == ProfileFor(k, s.resolve(k.id).value);
      var m :| Wins(s, keys, m) && b.profile == ProfileFor(m, s.resolve(m.id).value);
      ClaimTotal(ClaimOf(s, k), ClaimOf(s, m));
    }
  }

  /** What is warmed is owned at least as firmly as anything else that qualifies:
      a primary claim before a secondary one, then the stronger weight, then the lesser
      revision text, then static before tiles and single before double scale. */
  lemma FirmestClaimWins(s: Situation, keys: set<Key>, plan: Plan, other: Key)
    requires IsPlan(s, keys, plan) && plan.Warm? && other in keys && Qualifies(s, other)
    ensures var key := KeyOf(plan.profile);
            && key in keys && Qualifies(s, key) && plan.profile == ProfileFor(key, s.resolve(key.id).value)
            && LocalRank(s, key) <= LocalRank(s, other)
            && (LocalRank(s, key) == LocalRank(s, other) ==> s.hrw(key, s.local) >= s.hrw(other, s.local))
            && (LocalRank(s, key) == LocalRank(s, other) && s.hrw(key, s.local) == s.hrw(other, s.local) ==>
                  var a, b := TextOf(s, key), TextOf(s, other);
                  && (a == b || Less(a, b))
                  && (a == b && key.mode.Tile? ==> other.mode.Tile?)
                  && (a == b && key.mode == other.mode && key.scale.X2? ==> other.scale.X2?))
  {
    hide LocalRank, Loaded, Less, RevisionValue;
    var key :| Wins(s, keys, key) && plan.profile == ProfileFor(key, s.resolve(key.id).value);
    assert KeyOf(plan.profile) == key;
  }

  function TextOf(s: Situation, key: Key): string
    requires s.resolve(key.id).Some?
  {
    RevisionValue(StyleRevision(key.id, s.resolve(key.id).value))
  }

  /** A key qualifies exactly when its style resolves here, no worker here holds that
      very profile, and at most one owner ranks ahead of this node. */
  lemma QualifiesExactly(s: Situation, key: Key)
    ensures Qualifies(s, key) <==>
              && s.resolve(key.id).Some?
              && (forall i | 0 <= i < |s.workers| ::
                    s.workers[i].loaded !=
                    Some(WorkerProfile(StyleRevision(key.id, s.resolve(key.id).value), key.mode, key.scale)))
              && |AheadOf(Weights(Owners(s), WeightFor(s, key)), FirstIndex(Owners(s), s.local))| <= 1
  {
    hide Owners, FirstIndex, AheadOf;
  }

  // ---- The planner -------------------------------------------------------

  function KeysOf(recommendations: seq<WorkerProfile>): set<Key> {
    set i | 0 <= i < |recommendations| :: KeyOf(recommendations[i])
  }

  function Members(keys: seq<Key>): set<Key> {
    set i | 0 <= i < |keys| :: keys[i]
  }

  /** The deduplicating loop. */
  method CandidateKeys(recommendations: seq<WorkerProfile>) returns (keys: seq<Key>)
    ensures Members(keys) == KeysOf(recommendations) && |keys| == |KeysOf(recommendations)|
  {
    keys := [];
    var seen: set<Key> := {};
    for n := 0 to |recommendations|
      invariant seen == Members(keys) == KeysOf(recommendations[..n]) && |keys| == |seen|
    {
      var key := KeyOf(recommendations[n]);
      KeysOfStep(recommendations, n);
      MembersAppend(keys, key);
      if key !in seen {
        seen := seen + {key};
        keys := keys + [key];
      }
    }
    assert recommendations[..|recommendations|] == recommendations;
  }

  lemma KeysOfStep(recommendations: seq<WorkerProfile>, n: nat)
    requires n < |recommendations|
    ensures KeysOf(recommendations[..n + 1]) == KeysOf(recommendations[..n]) + {KeyOf(recommendations[n])}
  {
    var a, b := recommendations[..n + 1], recommendations[..n];
    forall k | k in KeysOf(a) ensures k in KeysOf(b) + {KeyOf(recommendations[n])} {
      var i :| 0 <= i < |a| && KeyOf(a[i]) == k;
      assert i < n ==> KeyOf(b[i]) == k;
    }
    forall k | k in KeysOf(b) ensures k in KeysOf(a) {
      var i :| 0 <= i < |b| && KeyOf(b[i]) == k;
      assert KeyOf(a[i]) == k;
    }
    assert KeyOf(a[n]) == KeyOf(recommendations[n]);
  }

  lemma MembersAppend(keys: seq<Key>, key: Key)
    ensures Members(keys + [key]) == Members(keys) + {key}
  {
    var a := keys + [key];
    forall k | k in Members(a) ensures k in Members(keys) + {key} {
      var i :| 0 <= i < |a| && a[i] == k;
      assert i < |keys| ==> keys[i] == k;
    }
    forall k | k in Members(keys) ensures k in Members(a) {
      var i :| 0 <= i < |keys| && keys[i] == k;
      assert a[i] == k;
    }
    assert a[|keys|] == key;
  }

  method Position(nodes: seq<NodeId>, n: NodeId) returns (position: nat)
    requires n in nodes
    ensures position == FirstIndex(nodes, n)
  {
    position := 0;
    while nodes[position] != n
      invariant position < |nodes| && n in nodes[position..]
      invariant FirstIndex(nodes, n) == position + FirstIndex(nodes[position..], n)
      decreases |nodes| - position
    {
      assert nodes[position..] == [nodes[position]] + nodes[position + 1..];
      assert nodes[position..][1..] == nodes[position + 1..];
      position := position + 1;
    }
  }

  /** The local node's rank as the loop counts it. */
  method CountRank(owners: seq<NodeId>, weight: Weight, local: NodeId) returns (rank: nat)
    requires local in owners
    ensures rank == 1 + Rank(Weights(owners, weight), FirstIndex(owners, local))
  {
    var position := Position(owners, local);
    var localWeight := weight(local);
    ghost var ws := Weights(owners, weight);
    var ahead := 0;
    for n := 0 to |owners|
      invariant ahead == |AheadBelow(ws, position, n)|
    {
      AheadBelowStep(ws, position, n);
      var w := weight(owners[n]);
      if w > localWeight || (w == localWeight && n < position) {
        ahead := ahead + 1;
      }
    }
    assert AheadBelow(ws, position, |ws|) == AheadOf(ws, position);
    rank := 1 + ahead;
  }

  ghost function AheadBelow(ws: seq<nat>, i: nat, n: nat): set<nat>
    requires i < |ws| && n <= |ws|
  {
    set j: nat | j < n && Ahead(ws, j, i)
  }

  lemma AheadBelowStep(ws: seq<nat>, i: nat, n: nat)
    requires i < |ws| && n < |ws|
    ensures |AheadBelow(ws, i, n + 1)| == |AheadBelow(ws, i, n)| + (if Ahead(ws, n, i) then 1 else 0)
  {
    assert AheadBelow(ws, i, n + 1) == AheadBelow(ws, i, n) + (if Ahead(ws, n, i) then {n} else {});
  }

  /** The best candidate of the keys looked at so far. */
  ghost predicate BestSoFar(s: Situation, keys: seq<Key>, best: Option<Key>) {
    match best
    case None => forall i | 0 <= i < |keys| :: !Qualifies(s, keys[i])
    case Some(key) => Wins(s, Members(keys), key)
  }

  lemma BestStep(s: Situation, keys: seq<Key>, best: Option<Key>, key: Key)
    requires BestSoFar(s, keys, best)
    ensures !Qualifies(s, key) ==> BestSoFar(s, keys + [key], best)
    ensures Qualifies(s, key) &&
              (best.None? || (Qualifies(s, best.value) && ClaimLess(ClaimOf(s, key), ClaimOf(s, best.value))))
            ==> BestSoFar(s, keys + [key], Some(key))
    ensures Qualifies(s, key) && best.Some? && Qualifies(s, best.value) &&
              !ClaimLess(ClaimOf(s, key), ClaimOf(s, best.value))
            ==> BestSoFar(s, keys + [key], best)
  {
    hide Qualifies, ClaimLess, ClaimFor, Members;
    MembersAppend(keys, key);
    MembersAre(keys);
    if Qualifies(s, key) && best.Some? {
      ClaimTotal(ClaimOf(s, key), ClaimOf(s, best.value));
      if ClaimOf(s, key) == ClaimOf(s, best.value) {
        ClaimInjective(s, key, best.value);
      }
      forall k | k in Members(keys) && Qualifies(s, k) && ClaimLess(ClaimOf(s, key), ClaimOf(s, best.value))
        ensures ClaimLess(ClaimOf(s, key), ClaimOf(s, k))
      {
        if k != best.value {
          ClaimTransitive(ClaimOf(s, key), ClaimOf(s, best.value), ClaimOf(s, k));
        }
      }
    }
  }

  lemma MembersAre(keys: seq<Key>)
    ensures forall k :: k in Members(keys) <==> k in keys
  {
  }

  /** `plan_warm`. */
  method PlanWarm(s: Situation, recommendations: seq<WorkerProfile>) returns (plan: Plan)
    ensures IsPlan(s, KeysOf(recommendations), plan)
  {
    hide Qualifies, LocalRank, ClaimOf, ClaimAt, ClaimLess, Members, KeysOf, BestSoFar, Wins, Loaded;
    var gate := Gate(s);
    if gate.Some? {
      return Skipped(gate.value);
    }
    var keys := CandidateKeys(recommendations);
    if |keys| > MAX_CANDIDATE_PROFILES {
      return Skipped(CandidateSetTooLarge);
    }
    var owners := Owners(s);
    var best: Option<(Claim, WorkerProfile)> := None;
    ghost var bestKey: Option<Key> := None;
    NothingBest(s);
    for n := 0 to |keys|
      invariant BestSoFar(s, keys[..n], bestKey)
      invariant best.Some? <==> bestKey.Some?
      invariant bestKey.Some? ==>
                  Qualifies(s, bestKey.value) && best.value == (ClaimOf(s, bestKey.value), Resolved(s, bestKey.value))
    {
      var key := keys[n];
      assert keys[..n + 1] == keys[..n] + [key];
      BestStep(s, keys[..n], bestKey, key);
      QualifiesIff(s, key);
      var version := s.resolve(key.id);
      if version.None? || Loaded(s.workers, ProfileFor(key, version.value)) {
        continue;
      }
      var rank := CountRank(owners, WeightFor(s, key), s.local);
      if rank > WARM_HRW_DEPTH {
        continue;
      }
      var claim := ClaimAt(s, key, version.value, rank);
      if best.None? || ClaimLess(claim, best.value.0) {
        best := Some((claim, ProfileFor(key, version.value)));
        bestKey := Some(key);
      }
    }
    assert keys[..|keys|] == keys;
    BestIsPlan(s, keys, bestKey);
    plan := if best.Some? then Warm(best.value.1) else Skipped(NoEligibleCandidate);
  }

  function Resolved(s: Situation, key: Key): WorkerProfile {
    ProfileFor(key, if s.resolve(key.id).Some? then s.resolve(key.id).value else 0)
  }

  lemma NothingBest(s: Situation)
    ensures BestSoFar(s, [], None)
  {
  }

  lemma QualifiesIff(s: Situation, key: Key)
    ensures Qualifies(s, key) <==>
              && s.resolve(key.id).Some? && !Loaded(s.workers, ProfileFor(key, s.resolve(key.id).value))
              && 1 + Rank(Weights(Owners(s), WeightFor(s, key)), FirstIndex(Owners(s), s.local)) <= WARM_HRW_DEPTH
    ensures Qualifies(s, key) ==>
              ClaimOf(s, key) ==
              ClaimAt(s, key, s.resolve(key.id).value,
                      1 + Rank(Weights(Owners(s), WeightFor(s, key)), FirstIndex(Owners(s), s.local)))
  {
  }

  lemma BestIsPlan(s: Situation, keys: seq<Key>, best: Option<Key>)
    requires BestSoFar(s, keys, best) && Gate(s).None? && |Members(keys)| <= MAX_CANDIDATE_PROFILES
    ensures best.Some? ==> IsPlan(s, Members(keys), Warm(Resolved(s, best.value)))
    ensures best.None? ==> IsPlan(s, Members(keys), Skipped(NoEligibleCandidate))
  {
    hide Members, LocalRank, Loaded, Gate;
    MembersAre(keys);
    if best.Some? {
      assert Wins(s, Members(keys), best.value);
    }
  }

  // ---- Why nothing is warmed ---------------------------------------------

  function FreeSet(workers: seq<WorkerView>): set<nat> {
    set i: nat | i < |workers| && workers[i].loaded.None?
  }

  lemma {:induction false} FreeSlotsCount(workers: seq<WorkerView>)
    ensures FreeSlots(workers) == |FreeSet(workers)|
  {
    if workers != [] {
      var n := |workers| - 1;
      FreeSlotsCount(workers[..n]);
      var before := FreeSet(workers[..n]);
      assert FreeSet(workers) == if workers[n].loaded.None? then before + {n} else before;
    }
  }

  /** Ready to warm: serving, not draining, nothing being warmed, no worker with a task,
      and more free workers than are held back. */
  ghost predicate CanWarm(s: Situation) {
    && !s.readiness.draining && s.readiness.accepts && !s.readiness.inFlight
    && (forall i | 0 <= i < |s.workers| :: s.workers[i].depth == 0)
    && |FreeSet(s.workers)| > s.readiness.reserved
  }

  /** Exactly when each answer is given: the first reason that applies, in this order. */
  lemma SkipsExactly(s: Situation, keys: set<Key>, plan: Plan)
    requires IsPlan(s, keys, plan)
    ensures
      var r := s.readiness;
      var idle := forall i | 0 <= i < |s.workers| :: s.workers[i].depth == 0;
      && (plan == Skipped(Draining) <==> r.draining)
      && (plan == Skipped(NotAcceptingRenders) <==> !r.draining && !r.accepts)
      && (plan == Skipped(WarmInFlight) <==> !r.draining && r.accepts && r.inFlight)
      && (plan == Skipped(QueuesBusy) <==> !r.draining && r.accepts && !r.inFlight && !idle)
      && (plan == Skipped(NoSpareSlot) <==>
            !r.draining && r.accepts && !r.inFlight && idle && |FreeSet(s.workers)| <= r.reserved)
      && (plan == Skipped(CandidateSetTooLarge) <==> CanWarm(s) && |keys| > 64)
      && (plan == Skipped(NoEligibleCandidate) <==>
            CanWarm(s) && |keys| <= 64 && forall key | key in keys :: !Qualifies(s, key))
      && (plan.Warm? <==>
            CanWarm(s) && |keys| <= 64 && exists key :: key in keys && Qualifies(s, key))
  {
    hide Qualifies, FreeSlots, FreeSet, ClaimLess;
    FreeSlotsCount(s.workers);
  }

  // ---- The cluster -------------------------------------------------------

  /** `s` is the situation of an accepting member of the view. */
  ghost predicate InView(s: Situation, members: seq<NodeId>, accepting: map<NodeId, bool>, hrw: Hrw) {
    && s.members == members && s.accepting == accepting && (forall k, n :: s.hrw(k, n) == hrw(k, n))
    && s.local in members && s.local in accepting && accepting[s.local]
  }

  lemma WarmersAreBest(s: Situation, keys: set<Key>, plan: Plan)
    requires IsPlan(s, keys, plan) && plan.Warm? && InView(s, s.members, s.accepting, s.hrw)
    ensures var key := KeyOf(plan.profile);
            s.local in Best(Eligible(s.members, Accepts(s.accepting)), n => s.hrw(key, n), WARM_HRW_DEPTH)
  {
    hide Eligible, Best, ClaimLess, ClaimFor, Gate, Loaded, Owners;
    var key :| Wins(s, keys, key) && plan.profile == ProfileFor(key, s.resolve(key.id).value);
    RankAgreesWithDispatcher(s, key, WARM_HRW_DEPTH);
    SharedOwners(s);
    BestSameWeight(Owners(s), WeightFor(s, key), n => s.hrw(key, n), WARM_HRW_DEPTH);
  }

  lemma BestSameWeight(nodes: seq<NodeId>, f: Weight, g: Weight, limit: nat)
    requires forall n :: f(n) == g(n)
    ensures Best(nodes, f, limit) == Best(nodes, g, limit)
  {
    hide FullRanking;
    assert Weights(nodes, f) == Weights(nodes, g);
  }

  lemma FewDistinct(nodes: set<NodeId>, best: seq<NodeId>)
    requires forall n | n in nodes :: n in best
    ensures |nodes| <= |best|
    decreases |best|
  {
    if best != [] {
      FewDistinct(nodes - {best[0]}, best[1..]);
    } else {
      assert nodes == {};
    }
  }

  /** Among the accepting members of one view, whatever each was recommended and
      whichever versions each resolves, at most two warm the same style id, mode
      and scale. */
  lemma AtMostTwoWarm(
    members: seq<NodeId>, accepting: map<NodeId, bool>, hrw: Hrw, key: Key,
    nodes: set<NodeId>, situation: NodeId -> Situation, keys: NodeId -> set<Key>, plan: NodeId -> Plan)
    requires forall n | n in nodes ::
               && situation(n).local == n && InView(situation(n), members, accepting, hrw)
               && IsPlan(situation(n), keys(n), plan(n)) && plan(n).Warm? && KeyOf(plan(n).profile) == key
    ensures |nodes| <= 2
  {
    hide Eligible, FullRanking, IsPlan, Weights;
    var best := Best(Eligible(members, Accepts(accepting)), n => hrw(key, n), WARM_HRW_DEPTH);
    forall n | n in nodes ensures n in best {
      WarmersAreBest(situation(n), keys(n), plan(n));
      BestSameWeight(Eligible(members, Accepts(accepting)), m => situation(n).hrw(key, m),
                     m => hrw(key, m), WARM_HRW_DEPTH);
    }
    FewDistinct(nodes, best);
  }
}
