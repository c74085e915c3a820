/** The routing decision: four tiers tried in turn, then the hop rule. */
module Dispatcher {
  import opened Text
  import opened Profiles
  import opened Gossip
  import opened Ranking
  import opened ClusterState
  import opened WarmTarget
  import opened DrainSwap

  const FORWARD_CANDIDATES: nat := 2

  datatype Tier = WarmTracking | HrwSoft | DrainAndSwap | Overflow

  datatype Decision =
    | Local(tier: Tier, hint: Option<nat>, fallback: seq<Candidate>)
    | Forward(tier: Tier, candidates: seq<Candidate>)
    | Reject

  /** `queueCapacity` as given; the dispatcher never uses one below `bl`. */
  datatype Config = Config(
    self: NodeId, strategy: Strategy, drainEnabled: bool, bl: nat, queueCapacity: nat)

  function HardLimit(c: Config): nat {
    if c.queueCapacity < c.bl then c.bl else c.queueCapacity
  }

  /** `terms` carries the task's profile, the clock and the service deadline;
      `raw` and `raw'` are the task's two random draws. */
  datatype Task = Task(terms: Terms, hops: nat, raw: nat, raw': nat)

  // ---- The tiers ---------------------------------------------------------

  function RoomFor(view: View, capacity: nat): NodeId -> bool {
    n => StateOf(view, n).Some? && HasRoom(StateOf(view, n).value, capacity)
  }

  function RoomForOther(view: View, capacity: nat, target: NodeId): NodeId -> bool {
    n => n != target && StateOf(view, n).Some? && HasRoom(StateOf(view, n).value, capacity)
  }

  function Named(nodes: seq<NodeId>): (r: seq<Candidate>)
    ensures |r| == |nodes| && forall i | 0 <= i < |r| :: r[i] == Candidate(nodes[i], None)
  {
    seq(|nodes|, i requires 0 <= i < |nodes| => Candidate(nodes[i], None))
  }

  function ByWeight(view: View, weight: Weight, eligible: NodeId -> bool): seq<Candidate> {
    Named(Best(Eligible(view.cluster.members, eligible), weight, FORWARD_CANDIDATES))
  }

  /** The warm target, backed by the best other member with soft headroom. */
  function WarmTier(c: Config, view: View, weight: Weight, target: NodeId): seq<Candidate> {
    var others := ByWeight(view, weight, RoomForOther(view, c.bl, target));
    [Candidate(target, None)] + others[..Most(FORWARD_CANDIDATES - 1, |others|)]
  }

  function NotSelf(c: Config, candidates: seq<Candidate>): seq<Candidate> {
    if candidates == [] then []
    else (if candidates[0].node != c.self then [candidates[0]] else []) + NotSelf(c, candidates[1..])
  }

  /** `materialize_candidates`: a forwarded task is never forwarded again. */
  function Materialize(c: Config, task: Task, tier: Tier, candidates: seq<Candidate>): Decision {
    if candidates == [] then Reject
    else if candidates[0].node == c.self then
      Local(tier, candidates[0].drain, if task.hops >= 1 then [] else NotSelf(c, candidates[1..]))
    else if task.hops >= 1 then Local(tier, None, [])
    else Forward(tier, NotSelf(c, candidates))
  }

  function Target(c: Config, task: Task, view: View, order: seq<NodeId>): Option<NodeId>
    requires Enumerates(order, States(view))
  {
    SelectWarm(WarmList(States(view), order, task.terms.profile, c.bl), c.strategy, task.raw, task.raw')
  }

  /** The first tier with a candidate, and its candidates. */
  function Choose(c: Config, task: Task, view: View, order: seq<NodeId>, weight: Weight): Option<(Tier, seq<Candidate>)>
    requires Enumerates(order, States(view))
  {
    var target := Target(c, task, view, order);
    if target.Some? then Some((WarmTracking, WarmTier(c, view, weight, target.value)))
    else
      var soft := ByWeight(view, weight, RoomFor(view, c.bl));
      if soft != [] then Some((HrwSoft, soft))
      else
        var drains :=
          if c.drainEnabled then DrainCandidates(States(view), order, task.terms, FORWARD_CANDIDATES) else [];
        if drains != [] then Some((DrainAndSwap, drains))
        else
          var hard := ByWeight(view, weight, RoomFor(view, HardLimit(c)));
          if hard != [] then Some((Overflow, hard)) else None
  }

  /** `decide_view`. */
  function Decide(c: Config, task: Task, view: View, order: seq<NodeId>, weight: Weight): Decision
    requires Enumerates(order, States(view))
  {
    match Choose(c, task, view, order, weight)
    case None => Reject
    case Some((tier, candidates)) => Materialize(c, task, tier, candidates)
  }

  // ---- The same, by the loops --------------------------------------------

  method WarmCandidates(states: map<NodeId, NodeState>, order: seq<NodeId>, profile: WorkerProfile, bl: nat)
    returns (warm: seq<Warm>)
    requires forall i | 0 <= i < |order| :: order[i] in states
    ensures warm == WarmList(states, order, profile, bl)
  {
    hide WarmOf;
    warm := [];
    for n := 0 to |order|
      invariant warm == WarmList(states, order[..n], profile, bl)
    {
      assert order[..n + 1][..n] == order[..n];
      var candidate := WarmCandidate(states[order[n]], profile, bl);
      if candidate.Some? {
        warm := warm + [candidate.value];
      }
    }
    assert order[..|order|] == order;
  }

  /** The decision computed with the bounded insertion, the ticket walk and the
      drain loops is the decision specified with sorts and intervals. */
  method DecideTask(c: Config, task: Task, view: View, order: seq<NodeId>, weight: Weight) returns (decision: Decision)
    requires Enumerates(order, States(view))
    ensures decision == Decide(c, task, view, order, weight)
  {
    hide Best, Eligible, WarmList, SelectWarm, DrainCandidates, NotSelf, HasRoom;
    var members := view.cluster.members;
    var warm := WarmCandidates(States(view), order, task.terms.profile, c.bl);
    var target := SelectWarmTarget(warm, c.strategy, task.raw, task.raw');
    if target.Some? {
      var others := TopCandidates(members, weight, FORWARD_CANDIDATES, RoomForOther(view, c.bl, target.value));
      var candidates := [Candidate(target.value, None)] + Named(others)[..Most(FORWARD_CANDIDATES - 1, |others|)];
      return Materialize(c, task, WarmTracking, candidates);
    }
    var soft := TopCandidates(members, weight, FORWARD_CANDIDATES, RoomFor(view, c.bl));
    if soft != [] {
      return Materialize(c, task, HrwSoft, Named(soft));
    }
    if c.drainEnabled {
      var drains := DrainTargets(States(view), order, task.terms, FORWARD_CANDIDATES);
      if drains != [] {
        return Materialize(c, task, DrainAndSwap, drains);
      }
    }
    var hard := TopCandidates(members, weight, FORWARD_CANDIDATES, RoomFor(view, HardLimit(c)));
    if hard != [] {
      return Materialize(c, task, Overflow, Named(hard));
    }
    decision := Reject;
  }

  /** `decide_with_local_state`. */
  method DecideWithLocalState(
    c: Config, task: Task, cluster: Cluster, local: NodeState, order: seq<NodeId>, weight: Weight)
    returns (decision: Decision)
    requires Enumerates(order, States(NewView(cluster, Some(local))))
    ensures decision == Decide(c, task, NewView(cluster, Some(local)), order, weight)
  {
    decision := DecideTask(c, task, NewView(cluster, Some(local)), order, weight);
  }

  lemma {:induction false} EligibleSame(members: seq<NodeId>, f: NodeId -> bool, g: NodeId -> bool)
    requires forall n :: f(n) == g(n)
    ensures Eligible(members, f) == Eligible(members, g)
  {
    if members != [] {
      EligibleSame(members[..|members| - 1], f, g);
    }
  }

  lemma SameTiers(c: Config, task: Task, a: View, b: View, order: seq<NodeId>, weight: Weight)
    requires a.cluster.members == b.cluster.members && States(a) == States(b) && Enumerates(order, States(a))
    requires forall n :: StateOf(a, n) == StateOf(b, n)
    ensures Decide(c, task, a, order, weight) == Decide(c, task, b, order, weight)
  {
    hide Eligible, Best, States, StateOf, HasRoom, WarmList, SelectWarm, DrainCandidates, Materialize, Enumerates;
    var members := a.cluster.members;
    EligibleSame(members, RoomFor(a, c.bl), RoomFor(b, c.bl));
    EligibleSame(members, RoomFor(a, HardLimit(c)), RoomFor(b, HardLimit(c)));
    var target := Target(c, task, a, order);
    if target.Some? {
      EligibleSame(members, RoomForOther(a, c.bl, target.value), RoomForOther(b, c.bl, target.value));
    }
  }

  /** What gossip says about this node never decides: with a stale entry of its own,
      or none, the decision is the same. A node that is no member decides from gossip
      alone. */
  lemma LocalIsAuthoritative(
    c: Config, task: Task, cluster: Cluster, local: NodeState, stale: NodeState, order: seq<NodeId>, weight: Weight)
    requires Enumerates(order, States(NewView(cluster, Some(local))))
    ensures local.id in cluster.members ==>
              var other := cluster.(states := cluster.states[local.id := stale]);
              && Enumerates(order, States(NewView(other, Some(local))))
              && Decide(c, task, NewView(other, Some(local)), order, weight) ==
                 Decide(c, task, NewView(cluster, Some(local)), order, weight)
    ensures local.id in cluster.members ==>
              var other := cluster.(states := cluster.states - {local.id});
              && Enumerates(order, States(NewView(other, Some(local))))
              && Decide(c, task, NewView(other, Some(local)), order, weight) ==
                 Decide(c, task, NewView(cluster, Some(local)), order, weight)
    ensures local.id !in cluster.members ==> NewView(cluster, Some(local)) == NewView(cluster, None)
  {
    hide Decide, Enumerates;
    if local.id in cluster.members {
      var view := NewView(cluster, Some(local));
      var second := NewView(cluster.(states := cluster.states[local.id := stale]), Some(local));
      var third := NewView(cluster.(states := cluster.states - {local.id}), Some(local));
      assert States(second) == States(view) && States(third) == States(view);
      SameTiers(c, task, view, second, order, weight);
      SameTiers(c, task, view, third, order, weight);
    }
  }

  // ---- Who can be a candidate --------------------------------------------

  predicate AcceptsNow(view: View, n: NodeId) {
    n in States(view) && States(view)[n].accepts
  }

  lemma BestAreEligible(view: View, weight: Weight, eligible: NodeId -> bool, k: nat)
    requires k < |ByWeight(view, weight, eligible)|
    ensures eligible(ByWeight(view, weight, eligible)[k].node)
    ensures ByWeight(view, weight, eligible)[k].node in view.cluster.members
  {
    hide FullRanking, Weights;
    var nodes := Eligible(view.cluster.members, eligible);
    var n := ByWeight(view, weight, eligible)[k].node;
    assert n in nodes;
    EligibleMember(view.cluster.members, eligible, n);
  }

  /** A tier by weight is empty exactly when no member is eligible. */
  lemma ByWeightEmptyIff(view: View, weight: Weight, eligible: NodeId -> bool)
    ensures ByWeight(view, weight, eligible) == [] <==> forall n | n in view.cluster.members :: !eligible(n)
    ensures |ByWeight(view, weight, eligible)| <= FORWARD_CANDIDATES
  {
    hide FullRanking, Weights, NodesAt;
    var nodes := Eligible(view.cluster.members, eligible);
    if ByWeight(view, weight, eligible) == [] {
      assert nodes == [];
    } else {
      EligibleMember(view.cluster.members, eligible, nodes[0]);
    }
    forall n | n in view.cluster.members && eligible(n) ensures nodes != [] {
      EligibleMember(view.cluster.members, eligible, n);
    }
  }

  predicate AllAccept(view: View, candidates: seq<Candidate>) {
    forall i | 0 <= i < |candidates| :: AcceptsNow(view, candidates[i].node)
  }

  lemma RoomyAccept(view: View, weight: Weight, eligible: NodeId -> bool)
    requires forall n | eligible(n) :: AcceptsNow(view, n)
    ensures AllAccept(view, ByWeight(view, weight, eligible))
  {
    hide ByWeight, AcceptsNow;
    forall k | 0 <= k < |ByWeight(view, weight, eligible)|
      ensures AcceptsNow(view, ByWeight(view, weight, eligible)[k].node) {
      BestAreEligible(view, weight, eligible, k);
    }
  }

  lemma RoomMeansAccepting(view: View, capacity: nat, target: NodeId)
    ensures forall n | RoomFor(view, capacity)(n) :: AcceptsNow(view, n)
    ensures forall n | RoomForOther(view, capacity, target)(n) :: AcceptsNow(view, n)
  {
    forall n ensures StateOf(view, n).Some? ==> n in States(view) && StateOf(view, n).value == States(view)[n] {
      StateOfIsEffective(view, n);
    }
  }

  lemma WarmCounts(states: map<NodeId, NodeState>, order: seq<NodeId>, profile: WorkerProfile, bl: nat)
    requires forall i | 0 <= i < |order| :: order[i] in states
    ensures forall k | 0 <= k < |WarmList(states, order, profile, bl)| ::
              WarmList(states, order, profile, bl)[k].count > 0
  {
    hide WarmList;
    forall k | 0 <= k < |WarmList(states, order, profile, bl)|
      ensures WarmList(states, order, profile, bl)[k].count > 0 {
      var id := WarmListOrigin(states, order, profile, bl, k);
    }
  }

  lemma TargetAccepts(c: Config, task: Task, view: View, order: seq<NodeId>)
    requires Enumerates(order, States(view)) && Keyed(States(view)) && Target(c, task, view, order).Some?
    ensures AcceptsNow(view, Target(c, task, view, order).value)
  {
    hide WarmList, SelectWarm, WarmCount, Usable;
    var warm := WarmList(States(view), order, task.terms.profile, c.bl);
    WarmCounts(States(view), order, task.terms.profile, c.bl);
    SelectsIffWarm(warm, c.strategy, task.raw, task.raw');
    var k :| 0 <= k < |warm| && warm[k].node == Target(c, task, view, order).value;
    var id := WarmListOrigin(States(view), order, task.terms.profile, c.bl, k);
  }

  lemma DrainsAccept(states: map<NodeId, NodeState>, order: seq<NodeId>, t: Terms, k: nat)
    requires Enumerates(order, states) && k < |DrainCandidates(states, order, t, FORWARD_CANDIDATES)|
    ensures var n := DrainCandidates(states, order, t, FORWARD_CANDIDATES)[k].node; n in states && states[n].accepts
  {
    hide DrainCandidates;
    DrainsAreJustified(states, order, t, FORWARD_CANDIDATES, k);
  }

  /** Whatever tier answers, every candidate accepts new renders. */
  lemma ChosenAccept(c: Config, task: Task, view: View, order: seq<NodeId>, weight: Weight)
    requires Enumerates(order, States(view)) && Keyed(States(view))
    ensures Choose(c, task, view, order, weight).Some? ==>
              var (_, candidates) := Choose(c, task, view, order, weight).value;
              candidates != [] && AllAccept(view, candidates)
  {
    hide ByWeight, DrainCandidates, Target, AcceptsNow, RoomFor, RoomForOther;
    var target := Target(c, task, view, order);
    RoomMeansAccepting(view, c.bl, if target.Some? then target.value else c.self);
    RoomMeansAccepting(view, HardLimit(c), c.self);
    RoomyAccept(view, weight, RoomFor(view, c.bl));
    RoomyAccept(view, weight, RoomFor(view, HardLimit(c)));
    if target.Some? {
      TargetAccepts(c, task, view, order);
      RoomyAccept(view, weight, RoomForOther(view, c.bl, target.value));
    }
    forall k | 0 <= k < |DrainCandidates(States(view), order, task.terms, FORWARD_CANDIDATES)|
      ensures AcceptsNow(view, DrainCandidates(States(view), order, task.terms, FORWARD_CANDIDATES)[k].node)
    {
      DrainsAccept(States(view), order, task.terms, k);
      AcceptsIs(view, DrainCandidates(States(view), order, task.terms, FORWARD_CANDIDATES)[k].node);
    }
  }

  lemma AcceptsIs(view: View, n: NodeId)
    ensures AcceptsNow(view, n) <==> n in States(view) && States(view)[n].accepts
  {
  }

  lemma {:induction false} NotSelfIs(c: Config, candidates: seq<Candidate>, view: View)
    requires AllAccept(view, candidates)
    ensures AllAccept(view, NotSelf(c, candidates))
    ensures forall i | 0 <= i < |NotSelf(c, candidates)| :: NotSelf(c, candidates)[i].node != c.self
    ensures candidates != [] && candidates[0].node != c.self ==> NotSelf(c, candidates) != []
    ensures |NotSelf(c, candidates)| <= |candidates|
  {
    hide AcceptsNow;
    if candidates != [] {
      NotSelfIs(c, candidates[1..], view);
    }
  }

  /** A task that has not been forwarded goes only to accepting nodes: to this one
      with fallbacks elsewhere, or to a non-empty list that excludes this one. A
      forwarded task always stays, without fallbacks. */
  lemma TargetsAccept(c: Config, task: Task, view: View, order: seq<NodeId>, weight: Weight)
    requires Enumerates(order, States(view)) && Keyed(States(view))
    ensures match Decide(c, task, view, order, weight)
            case Reject => true
            case Local(_, _, fallback) =>
              && (task.hops >= 1 ==> fallback == [])
              && (task.hops == 0 ==> AcceptsNow(view, c.self) && AllAccept(view, fallback))
              && (forall i | 0 <= i < |fallback| :: fallback[i].node != c.self)
            case Forward(_, candidates) =>
              && task.hops == 0 && candidates != [] && AllAccept(view, candidates)
              && (forall i | 0 <= i < |candidates| :: candidates[i].node != c.self)
  {
    hide Choose, AcceptsNow, NotSelf;
    ChosenAccept(c, task, view, order, weight);
    var choice := Choose(c, task, view, order, weight);
    if choice.Some? {
      var candidates := choice.value.1;
      NotSelfIs(c, candidates, view);
      NotSelfIs(c, candidates[1..], view);
    }
  }

  // ---- When nothing is found ---------------------------------------------

  predicate CanAdmit(c: Config, view: View, n: NodeId) {
    && n in view.cluster.members && AcceptsNow(view, n)
    && exists i :: 0 <= i < |States(view)[n].workers| &&
         (States(view)[n].workers[i].depth < c.bl || States(view)[n].workers[i].depth < c.queueCapacity)
  }

  lemma RoomIsAdmission(c: Config, view: View, n: NodeId)
    ensures n in view.cluster.members && RoomFor(view, HardLimit(c))(n) <==> CanAdmit(c, view, n)
    ensures RoomFor(view, c.bl)(n) ==> RoomFor(view, HardLimit(c))(n)
  {
    StateOfIsEffective(view, n);
  }

  /** A decision is a rejection exactly when no member can admit, no node is warm
      with room, and draining is off or no worker can be evicted in time. In particular an accepting
      member with a worker below the hard limit rules it out. */
  lemma RejectExactly(c: Config, task: Task, view: View, order: seq<NodeId>, weight: Weight)
    requires Enumerates(order, States(view))
    ensures Decide(c, task, view, order, weight).Reject? <==>
              && (forall n :: !CanAdmit(c, view, n))
              && (forall id | id in States(view) :: WarmOf(States(view)[id], task.terms.profile, c.bl).None?)
              && (c.drainEnabled ==> forall id, w | AcceptsNow(view, id) && w in States(view)[id].workers ::
                                       !DrainsInTime(task.terms, w))
  {
    hide ByWeight, DrainCandidates, WarmOf, SelectWarm, RoomFor, CanAdmit, Enumerates, NotSelf, DrainsInTime;
    DrainEmptyIff(States(view), order, task.terms, FORWARD_CANDIDATES);
    ByWeightEmptyIff(view, weight, RoomFor(view, c.bl));
    ByWeightEmptyIff(view, weight, RoomFor(view, HardLimit(c)));
    forall n ensures (n in view.cluster.members && RoomFor(view, HardLimit(c))(n) <==> CanAdmit(c, view, n)) &&
                     (RoomFor(view, c.bl)(n) ==> RoomFor(view, HardLimit(c))(n))
    {
      RoomIsAdmission(c, view, n);
    }
    TargetIffWarm(c, task, view, order);
  }

  lemma TargetIffWarm(c: Config, task: Task, view: View, order: seq<NodeId>)
    requires Enumerates(order, States(view))
    ensures Target(c, task, view, order).None? <==>
            forall id | id in States(view) :: WarmOf(States(view)[id], task.terms.profile, c.bl).None?
  {
    hide WarmList, SelectWarm, WarmOf;
    var warm := WarmList(States(view), order, task.terms.profile, c.bl);
    WarmCounts(States(view), order, task.terms.profile, c.bl);
    SelectsIffWarm(warm, c.strategy, task.raw, task.raw');
    if warm != [] {
      var id := WarmListOrigin(States(view), order, task.terms.profile, c.bl, 0);
    }
    forall id | id in States(view) && WarmOf(States(view)[id], task.terms.profile, c.bl).Some? ensures warm != [] {
      var k :| 0 <= k < |order| && order[k] == id;
      WarmListComplete(States(view), order, task.terms.profile, c.bl, k);
    }
  }

  // ---- Which tier answers ------------------------------------------------

  predicate IsWarm(c: Config, task: Task, view: View, id: NodeId) {
    id in States(view) && WarmOf(States(view)[id], task.terms.profile, c.bl).Some?
  }

  predicate HasSoftRoom(c: Config, view: View, n: NodeId) {
    && n in view.cluster.members && AcceptsNow(view, n)
    && exists i :: 0 <= i < |States(view)[n].workers| && States(view)[n].workers[i].depth < c.bl
  }

  predicate CanDrain(task: Task, view: View, id: NodeId, w: WorkerView) {
    AcceptsNow(view, id) && w in States(view)[id].workers && DrainsInTime(task.terms, w)
  }

  /** What the view offers, tier by tier. */
  ghost predicate Offers(c: Config, task: Task, view: View, tier: Tier) {
    match tier
    case WarmTracking => exists id :: IsWarm(c, task, view, id)
    case HrwSoft => exists n :: HasSoftRoom(c, view, n)
    case DrainAndSwap => c.drainEnabled && exists id, w :: CanDrain(task, view, id, w)
    case Overflow => exists n :: CanAdmit(c, view, n)
  }

  lemma SoftIsRoom(c: Config, view: View, n: NodeId)
    ensures n in view.cluster.members && RoomFor(view, c.bl)(n) <==> HasSoftRoom(c, view, n)
  {
    StateOfIsEffective(view, n);
  }

  /** The tier that answers is the first one the view offers: warm nodes, then
      members below the soft limit, then draining, then overflow. */
  lemma TierExactly(c: Config, task: Task, view: View, order: seq<NodeId>, weight: Weight)
    requires Enumerates(order, States(view))
    ensures var choice := Choose(c, task, view, order, weight);
            && (choice.Some? && choice.value.0.WarmTracking? <==> Offers(c, task, view, WarmTracking))
            && (choice.Some? && choice.value.0.HrwSoft? <==>
                  !Offers(c, task, view, WarmTracking) && Offers(c, task, view, HrwSoft))
            && (choice.Some? && choice.value.0.DrainAndSwap? <==>
                  !Offers(c, task, view, WarmTracking) && !Offers(c, task, view, HrwSoft)
                    && Offers(c, task, view, DrainAndSwap))
            && (choice.None? <==>
                  && !Offers(c, task, view, WarmTracking) && !Offers(c, task, view, HrwSoft)
                  && !Offers(c, task, view, DrainAndSwap) && !Offers(c, task, view, Overflow))
  {
    hide ByWeight, DrainCandidates, WarmOf, Target, RoomFor, CanAdmit, HasSoftRoom, Enumerates, DrainsInTime, WarmTier;
    DrainEmptyIff(States(view), order, task.terms, FORWARD_CANDIDATES);
    ByWeightEmptyIff(view, weight, RoomFor(view, c.bl));
    ByWeightEmptyIff(view, weight, RoomFor(view, HardLimit(c)));
    TargetIffWarm(c, task, view, order);
    OffersAre(c, task, view);
    forall n ensures (n in view.cluster.members && RoomFor(view, HardLimit(c))(n) <==> CanAdmit(c, view, n)) &&
                     (n in view.cluster.members && RoomFor(view, c.bl)(n) <==> HasSoftRoom(c, view, n))
    {
      RoomIsAdmission(c, view, n);
      SoftIsRoom(c, view, n);
    }
  }

  lemma OffersAre(c: Config, task: Task, view: View)
    ensures Offers(c, task, view, WarmTracking) <==>
              exists id | id in States(view) :: WarmOf(States(view)[id], task.terms.profile, c.bl).Some?
    ensures Offers(c, task, view, DrainAndSwap) <==>
              c.drainEnabled &&
                exists id, w | id in States(view) && States(view)[id].accepts && w in States(view)[id].workers ::
                DrainsInTime(task.terms, w)
  {
    hide WarmOf, DrainsInTime;
    if id :| id in States(view) && WarmOf(States(view)[id], task.terms.profile, c.bl).Some? {
      assert IsWarm(c, task, view, id);
    }
    if id, w :|
      id in States(view) && States(view)[id].accepts && w in States(view)[id].workers && DrainsInTime(task.terms, w)
    {
      assert CanDrain(task, view, id, w);
    }
  }
}
