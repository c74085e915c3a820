/** What a decision says, read against the candidates and the members: who is named
    first, with which worker, and who stands behind.
  */
module Decisions {
  import opened Text
  import opened Ranking
  import opened ClusterState
  import opened WarmTarget
  import opened DrainSwap
  import opened Dispatcher

  // ---- Leaving this node out ---------------------------------------------

  /** Entry `k` of `r` is the candidate at `at[k]`, which is on another node. */
  predicate PickedAt(r: seq<Candidate>, cs: seq<Candidate>, self: NodeId, at: seq<nat>, k: nat)
    requires k < |at| == |r|
  {
    at[k] < |cs| && r[k] == cs[at[k]] && cs[at[k]].node != self
  }

  predicate Rising(at: seq<nat>) {
    forall j, k | 0 <= j < k < |at| :: at[j] < at[k]
  }

  predicate Complete(cs: seq<Candidate>, self: NodeId, at: seq<nat>) {
    forall i: nat | i < |cs| && cs[i].node != self :: i in at
  }

  /** `r` lists the candidates of `cs` at the positions `at`: those on other nodes, all
      of them, in the order of `cs`. */
  predicate Picks(r: seq<Candidate>, cs: seq<Candidate>, self: NodeId, at: seq<nat>) {
    && |at| == |r| && (forall k: nat | k < |at| :: PickedAt(r, cs, self, at, k))
    && Rising(at) && Complete(cs, self, at)
  }

  ghost predicate OthersOf(r: seq<Candidate>, cs: seq<Candidate>, self: NodeId) {
    exists at :: Picks(r, cs, self, at)
  }

  function Shifted(at: seq<nat>): (r: seq<nat>)
    ensures |r| == |at| && forall k | 0 <= k < |at| :: r[k] == at[k] + 1
  {
    seq(|at|, k requires 0 <= k < |at| => at[k] + 1)
  }

  lemma ShiftedComplete(cs: seq<Candidate>, self: NodeId, at: seq<nat>)
    requires cs != [] && Complete(cs[1..], self, at)
    ensures Complete(cs, self, [0] + Shifted(at))
    ensures cs[0].node == self ==> Complete(cs, self, Shifted(at))
  {
    hide Shifted;
    forall i: nat | 0 < i < |cs| && cs[i].node != self ensures i in Shifted(at) {
      assert cs[1..][i - 1] == cs[i];
      var k :| 0 <= k < |at| && at[k] == i - 1;
      assert Shifted(at)[k] == i;
    }
    assert ([0] + Shifted(at))[0] == 0;
  }

  lemma ShiftedRising(at: seq<nat>)
    requires Rising(at)
    ensures Rising(Shifted(at)) && Rising([0] + Shifted(at))
  {
    hide Shifted;
  }

  lemma PicksSkip(r: seq<Candidate>, cs: seq<Candidate>, self: NodeId, at: seq<nat>)
    requires cs != [] && cs[0].node == self && Picks(r, cs[1..], self, at)
    ensures Picks(r, cs, self, Shifted(at))
  {
    hide Shifted, Rising, Complete;
    ShiftedComplete(cs, self, at);
    ShiftedRising(at);
    forall k: nat | k < |at| ensures PickedAt(r, cs, self, Shifted(at), k) {
      assert PickedAt(r, cs[1..], self, at, k);
    }
  }

  lemma PicksKeep(r: seq<Candidate>, cs: seq<Candidate>, self: NodeId, at: seq<nat>)
    requires cs != [] && cs[0].node != self && Picks(r, cs[1..], self, at)
    ensures Picks([cs[0]] + r, cs, self, [0] + Shifted(at))
  {
    hide Shifted, Rising, Complete;
    ShiftedComplete(cs, self, at);
    ShiftedRising(at);
    forall k: nat | k < |at| + 1 ensures PickedAt([cs[0]] + r, cs, self, [0] + Shifted(at), k) {
      if k > 0 {
        assert PickedAt(r, cs[1..], self, at, k - 1);
      }
    }
  }

  lemma {:induction false} NotSelfPicks(c: Config, cs: seq<Candidate>) returns (at: seq<nat>)
    ensures Picks(NotSelf(c, cs), cs, c.self, at)
  {
    hide Picks;
    if cs == [] {
      at := [];
      PicksNothing(c.self);
    } else {
      at := NotSelfPicks(c, cs[1..]);
      if cs[0].node != c.self {
        PicksKeep(NotSelf(c, cs[1..]), cs, c.self, at);
        at := [0] + Shifted(at);
      } else {
        PicksSkip(NotSelf(c, cs[1..]), cs, c.self, at);
        at := Shifted(at);
        assert [] + NotSelf(c, cs[1..]) == NotSelf(c, cs[1..]);
      }
    }
  }

  lemma PicksNothing(self: NodeId)
    ensures Picks([], [], self, [])
  {}

  /** What is decided about a choice: the task stays exactly when this node comes first
      or it was forwarded before; the worker to drain is kept only if it is this
      node's; behind it, or as targets, stand all other candidates in their order. */
  lemma DecisionExactly(c: Config, task: Task, view: View, order: seq<NodeId>, weight: Weight)
    requires Enumerates(order, States(view))
    ensures
      var d := Decide(c, task, view, order, weight);
      match Choose(c, task, view, order, weight)
      case None => d.Reject?
      case Some((tier, cs)) =>
        && cs != [] && !d.Reject? && d.tier == tier
        && (d.Local? <==> cs[0].node == c.self || task.hops >= 1)
        && (d.Local? ==> d.hint == if cs[0].node == c.self then cs[0].drain else None)
        && (d.Local? && task.hops >= 1 ==> d.fallback == [])
        && (d.Local? && task.hops == 0 ==> OthersOf(d.fallback, cs[1..], c.self))
        && (d.Forward? ==> OthersOf(d.candidates, cs, c.self))
  {
    hide NotSelf, Picks, ByWeight, DrainCandidates, Target;
    match Choose(c, task, view, order, weight)
    case None =>
    case Some((tier, cs)) =>
      var all := NotSelfPicks(c, cs);
      var rest := NotSelfPicks(c, cs[1..]);
  }

  // ---- Candidates by weight ----------------------------------------------

  /** Member `p` ranks before member `q`: heavier, or as heavy and listed earlier. */
  predicate Outranks(members: seq<NodeId>, weight: Weight, p: nat, q: nat)
    requires p < |members| && q < |members|
  {
    weight(members[p]) > weight(members[q]) || (weight(members[p]) == weight(members[q]) && p < q)
  }

  /** `cs` names the members at the positions `at`: the eligible ones that no other
      eligible member outranks, best first, and as many as there are up to `limit`. */
  ghost predicate BestOf(
    cs: seq<Candidate>, members: seq<NodeId>, weight: Weight, eligible: NodeId -> bool, limit: nat, at: seq<nat>)
  {
    && |at| == |cs| <= limit
    && (forall k | 0 <= k < |at| ::
          at[k] < |members| && cs[k] == Candidate(members[at[k]], None) && eligible(members[at[k]]))
    && (forall j, k | 0 <= j < k < |at| :: Outranks(members, weight, at[j], at[k]))
    && (forall q: nat | q < |members| && eligible(members[q]) && q !in at ::
          |cs| == limit && OutrankedByAll(members, weight, at, q))
  }

  predicate OutrankedByAll(members: seq<NodeId>, weight: Weight, at: seq<nat>, q: nat)
    requires q < |members| && forall k | 0 <= k < |at| :: at[k] < |members|
  {
    forall k | 0 <= k < |at| :: Outranks(members, weight, at[k], q)
  }

  predicate Positions(at: seq<nat>, members: seq<NodeId>, eligible: NodeId -> bool) {
    && |at| == |Eligible(members, eligible)|
    && (forall i | 0 <= i < |at| :: at[i] < |members| && Eligible(members, eligible)[i] == members[at[i]])
    && (forall i, j | 0 <= i < j < |at| :: at[i] < at[j])
    && (forall q: nat | q < |members| && eligible(members[q]) :: q in at)
  }

  lemma {:induction false} EligiblePositions(members: seq<NodeId>, eligible: NodeId -> bool) returns (at: seq<nat>)
    ensures Positions(at, members, eligible)
    ensures forall i | 0 <= i < |at| :: eligible(members[at[i]])
  {
    if members == [] {
      at := [];
    } else {
      var n := |members| - 1;
      var before := EligiblePositions(members[..n], eligible);
      at := before + (if eligible(members[n]) then [n] else []);
      forall q: nat | q < |members| && eligible(members[q]) ensures q in at {
        if q < n {
          assert members[..n][q] == members[q];
          assert q in before;
        }
      }
    }
  }

  lemma ByWeightAt(view: View, weight: Weight, eligible: NodeId -> bool)
    ensures
      var nodes := Eligible(view.cluster.members, eligible);
      var s, cs := FullRanking(Weights(nodes, weight)), ByWeight(view, weight, eligible);
      && |cs| == Most(FORWARD_CANDIDATES, |nodes|)
      && forall k | 0 <= k < |cs| :: cs[k] == Candidate(nodes[s[k]], None)
  {
    hide FullRanking, Eligible, Weights;
  }

  lemma ByWeightIsBest(view: View, weight: Weight, eligible: NodeId -> bool) returns (at: seq<nat>)
    ensures BestOf(ByWeight(view, weight, eligible), view.cluster.members, weight, eligible, FORWARD_CANDIDATES, at)
  {
    hide FullRanking, Eligible, Outranks, Ahead, ByWeight, Weights, OutrankedByAll;
    ByWeightAt(view, weight, eligible);
    var members := view.cluster.members;
    var nodes := Eligible(members, eligible);
    var pos := EligiblePositions(members, eligible);
    var ws := Weights(nodes, weight);
    var s := FullRanking(ws);
    FullRankingIsRanked(ws);
    var n := Most(FORWARD_CANDIDATES, |nodes|);
    at := seq(n, k requires 0 <= k < n => pos[s[k]]);
    forall j, k | 0 <= j < k < n ensures Outranks(members, weight, at[j], at[k]) {
      AheadIsOutranks(members, weight, eligible, pos, s[j], s[k]);
    }
    forall q: nat | q < |members| && eligible(members[q]) && q !in at
      ensures n == FORWARD_CANDIDATES && OutrankedByAll(members, weight, at, q)
    {
      LeftOut(members, weight, eligible, pos, at, q);
    }
  }

  /** An eligible member that is not among the first `|at|` of the ranking. */
  lemma LeftOut(
    members: seq<NodeId>, weight: Weight, eligible: NodeId -> bool, pos: seq<nat>, at: seq<nat>, q: nat)
    requires Positions(pos, members, eligible) && |at| <= |pos|
    requires
      var s := FullRanking(Weights(Eligible(members, eligible), weight));
      forall k | 0 <= k < |at| :: at[k] == pos[s[k]]
    requires q < |members| && eligible(members[q]) && q !in at
    ensures |at| < |pos| && (forall k | 0 <= k < |at| :: at[k] < |members|) && OutrankedByAll(members, weight, at, q)
  {
    hide FullRanking, Eligible, Outranks, Ahead;
    var ws := Weights(Eligible(members, eligible), weight);
    var s := FullRanking(ws);
    FullRankingIsRanked(ws);
    var i :| 0 <= i < |pos| && pos[i] == q;
    var a := RankedCovers(ws, s, i);
    assert |at| <= a;
    forall k | 0 <= k < |at| ensures Outranks(members, weight, at[k], q) {
      AheadIsOutranks(members, weight, eligible, pos, s[k], i);
    }
  }

  lemma AheadIsOutranks(
    members: seq<NodeId>, weight: Weight, eligible: NodeId -> bool, pos: seq<nat>, i: nat, j: nat)
    requires Positions(pos, members, eligible) && i < |pos| && j < |pos|
    requires Ahead(Weights(Eligible(members, eligible), weight), i, j)
    ensures Outranks(members, weight, pos[i], pos[j])
  {
    hide Eligible;
  }

  lemma SameEligible(cs: seq<Candidate>, members: seq<NodeId>, weight: Weight,
                     f: NodeId -> bool, g: NodeId -> bool, limit: nat, at: seq<nat>)
    requires BestOf(cs, members, weight, f, limit, at) && forall n | n in members :: f(n) == g(n)
    ensures BestOf(cs, members, weight, g, limit, at)
  {
    forall k | 0 <= k < |at| ensures g(members[at[k]]) {
      assert members[at[k]] in members;
    }
    forall q: nat | q < |members| && g(members[q]) ensures f(members[q]) {
      assert members[q] in members;
    }
  }

  function SoftRoom(c: Config, view: View): NodeId -> bool {
    n => HasSoftRoom(c, view, n)
  }

  function HardRoom(c: Config, view: View): NodeId -> bool {
    n => CanAdmit(c, view, n)
  }

  function SoftRoomBut(c: Config, view: View, target: NodeId): NodeId -> bool {
    n => n != target && HasSoftRoom(c, view, n)
  }

  /** Who a tier by weight names: the members with room that no other member with room
      outranks. Below the soft limit in tier 2, below the hard limit in tier 4, and
      below the soft limit without the warm target behind tier 1. */
  lemma TiersNameTheBest(c: Config, task: Task, view: View, order: seq<NodeId>, weight: Weight)
    requires Enumerates(order, States(view)) && Choose(c, task, view, order, weight).Some?
    ensures
      var (tier, cs) := Choose(c, task, view, order, weight).value;
      var members := view.cluster.members;
      match tier
      case HrwSoft =>
        exists at :: BestOf(cs, members, weight, SoftRoom(c, view), FORWARD_CANDIDATES, at)
      case Overflow => exists at :: BestOf(cs, members, weight, HardRoom(c, view), FORWARD_CANDIDATES, at)
      case WarmTracking =>
        && cs != [] && cs[0].drain == None
        && exists others, at ::
             && BestOf(others, members, weight, SoftRoomBut(c, view, cs[0].node), FORWARD_CANDIDATES, at)
             && cs[1..] == others[..Most(FORWARD_CANDIDATES - 1, |others|)]
      case DrainAndSwap => cs == DrainCandidates(States(view), order, task.terms, FORWARD_CANDIDATES)
  {
    hide ByWeight, DrainCandidates, Target, BestOf, HasSoftRoom, CanAdmit, RoomFor, RoomForOther, Enumerates;
    var (tier, cs) := Choose(c, task, view, order, weight).value;
    var members := view.cluster.members;
    match tier
    case HrwSoft => var at := SoftBest(c, view, weight);
    case Overflow => var at := HardBest(c, view, weight);
    case WarmTracking => var at := OtherBest(c, view, weight, cs[0].node);
    case DrainAndSwap =>
  }

  lemma SoftBest(c: Config, view: View, weight: Weight) returns (at: seq<nat>)
    ensures BestOf(ByWeight(view, weight, RoomFor(view, c.bl)), view.cluster.members, weight,
                   SoftRoom(c, view), FORWARD_CANDIDATES, at)
  {
    hide ByWeight, BestOf, RoomFor, HasSoftRoom;
    at := ByWeightIsBest(view, weight, RoomFor(view, c.bl));
    forall n | n in view.cluster.members ensures RoomFor(view, c.bl)(n) == HasSoftRoom(c, view, n) {
      SoftIsRoom(c, view, n);
    }
    SameEligible(ByWeight(view, weight, RoomFor(view, c.bl)), view.cluster.members, weight,
                 RoomFor(view, c.bl), SoftRoom(c, view), FORWARD_CANDIDATES, at);
  }

  lemma HardBest(c: Config, view: View, weight: Weight) returns (at: seq<nat>)
    ensures BestOf(ByWeight(view, weight, RoomFor(view, HardLimit(c))), view.cluster.members, weight,
                   HardRoom(c, view), FORWARD_CANDIDATES, at)
  {
    hide ByWeight, BestOf, RoomFor, CanAdmit;
    at := ByWeightIsBest(view, weight, RoomFor(view, HardLimit(c)));
    forall n | n in view.cluster.members ensures RoomFor(view, HardLimit(c))(n) == CanAdmit(c, view, n) {
      RoomIsAdmission(c, view, n);
    }
    SameEligible(ByWeight(view, weight, RoomFor(view, HardLimit(c))), view.cluster.members, weight,
                 RoomFor(view, HardLimit(c)), HardRoom(c, view), FORWARD_CANDIDATES, at);
  }

  lemma OtherBest(c: Config, view: View, weight: Weight, target: NodeId) returns (at: seq<nat>)
    ensures BestOf(ByWeight(view, weight, RoomForOther(view, c.bl, target)), view.cluster.members, weight,
                   SoftRoomBut(c, view, target), FORWARD_CANDIDATES, at)
  {
    hide ByWeight, BestOf, HasSoftRoom;
    at := ByWeightIsBest(view, weight, RoomForOther(view, c.bl, target));
    forall n | n in view.cluster.members
      ensures RoomForOther(view, c.bl, target)(n) == (n != target && HasSoftRoom(c, view, n))
    {
      SoftIsRoom(c, view, n);
    }
    SameEligible(ByWeight(view, weight, RoomForOther(view, c.bl, target)), view.cluster.members, weight,
                 RoomForOther(view, c.bl, target), SoftRoomBut(c, view, target), FORWARD_CANDIDATES, at);
  }

  /** The node a decision names first. */
  function NamedFirst(c: Config, d: Decision): NodeId
    requires d.Local? || (d.Forward? && d.candidates != [])
  {
    match d case Local(_, _, _) => c.self case Forward(_, candidates) => candidates[0].node
  }

  lemma FirstOfOthers(r: seq<Candidate>, cs: seq<Candidate>, self: NodeId)
    requires OthersOf(r, cs, self) && cs != [] && cs[0].node != self
    ensures r != [] && r[0] == cs[0]
  {
    var at :| Picks(r, cs, self, at);
    hide Rising, PickedAt;
    assert 0 in at;
    StartsAtZero(at);
    assert PickedAt(r, cs, self, at, 0);
    PickedFirst(r, cs, self, at);
  }

  lemma StartsAtZero(at: seq<nat>)
    requires Rising(at) && 0 in at
    ensures at != [] && at[0] == 0
  {
    var k :| 0 <= k < |at| && at[k] == 0;
  }

  lemma PickedFirst(r: seq<Candidate>, cs: seq<Candidate>, self: NodeId, at: seq<nat>)
    requires 0 < |at| == |r| && PickedAt(r, cs, self, at, 0) && at[0] == 0
    ensures cs != [] && r[0] == cs[0]
  {}

  /** A task that was not forwarded and goes by weight goes to the member with room
      that no other member with room outranks: here if that is this node, to it
      otherwise. */
  lemma HeaviestIsNamed(c: Config, task: Task, view: View, order: seq<NodeId>, weight: Weight) returns (p: nat)
    requires Enumerates(order, States(view)) && task.hops == 0
    requires
      var d := Decide(c, task, view, order, weight);
      !d.Reject? && (d.tier.HrwSoft? || d.tier.Overflow?)
    ensures
      var d := Decide(c, task, view, order, weight);
      var members := view.cluster.members;
      && (d.Forward? ==> d.candidates != [])
      && p < |members| && members[p] == NamedFirst(c, d)
      && (d.tier.HrwSoft? ==>
            && HasSoftRoom(c, view, members[p])
            && forall q: nat | q < |members| && HasSoftRoom(c, view, members[q]) && q != p ::
                 Outranks(members, weight, p, q))
      && (d.tier.Overflow? ==>
            && CanAdmit(c, view, members[p])
            && forall q: nat | q < |members| && CanAdmit(c, view, members[q]) && q != p ::
                 Outranks(members, weight, p, q))
  {
    hide Decide, Choose, Picks, BestOf, HasSoftRoom, CanAdmit, Outranks, Enumerates;
    DecisionExactly(c, task, view, order, weight);
    TiersNameTheBest(c, task, view, order, weight);
    var d := Decide(c, task, view, order, weight);
    var (tier, cs) := Choose(c, task, view, order, weight).value;
    if d.Forward? {
      FirstOfOthers(d.candidates, cs, c.self);
    }
    if tier.HrwSoft? {
      p := BestFirst(cs, view.cluster.members, weight, SoftRoom(c, view), FORWARD_CANDIDATES);
    } else {
      p := BestFirst(cs, view.cluster.members, weight, HardRoom(c, view), FORWARD_CANDIDATES);
    }
  }

  lemma BestFirst(cs: seq<Candidate>, members: seq<NodeId>, weight: Weight, eligible: NodeId -> bool, limit: nat)
    returns (p: nat)
    requires cs != [] && exists at :: BestOf(cs, members, weight, eligible, limit, at)
    ensures p < |members| && cs[0].node == members[p] && eligible(members[p])
    ensures forall q: nat | q < |members| && eligible(members[q]) && q != p :: Outranks(members, weight, p, q)
  {
    var at :| BestOf(cs, members, weight, eligible, limit, at);
    p := at[0];
    forall q: nat | q < |members| && eligible(members[q]) && q != p ensures Outranks(members, weight, p, q) {
      if q in at {
        var k :| 0 <= k < |at| && at[k] == q;
      }
    }
  }
}
