/** Tier 1: choosing among nodes that already hold the task's profile. */
module WarmTarget {
  import opened Text
  import opened Profiles
  import opened Gossip
  import opened Ranking
  import opened ClusterState

  datatype Warm = Warm(node: NodeId, count: nat, spare: nat)

  // ---- Warm candidates ---------------------------------------------------

  function Headroom(bl: nat, depth: nat): nat {
    if depth < bl then bl - depth else 0
  }

  function WarmCount(workers: seq<WorkerView>, profile: WorkerProfile): nat {
    if workers == [] then 0
    else WarmCount(workers[..|workers| - 1], profile) +
         (if workers[|workers| - 1].loaded == Some(profile) then 1 else 0)
  }

  function WarmSpare(workers: seq<WorkerView>, profile: WorkerProfile, bl: nat): nat {
    if workers == [] then 0
    else
      var w := workers[|workers| - 1];
      WarmSpare(workers[..|workers| - 1], profile, bl) +
      (if w.loaded == Some(profile) then Headroom(bl, w.depth) else 0)
  }

  /** A warm worker below the soft limit, or a fresh worker at any depth. */
  predicate Usable(workers: seq<WorkerView>, profile: WorkerProfile, bl: nat) {
    exists i :: 0 <= i < |workers| &&
      (workers[i].loaded.None? || (workers[i].loaded == Some(profile) && workers[i].depth < bl))
  }

  function WarmOf(node: NodeState, profile: WorkerProfile, bl: nat): Option<Warm> {
    if node.accepts && WarmCount(node.workers, profile) > 0 && Usable(node.workers, profile, bl)
    then Some(Warm(node.id, WarmCount(node.workers, profile), WarmSpare(node.workers, profile, bl)))
    else None
  }

  /** `warm_candidate`: one pass over the node's workers. */
  method WarmCandidate(node: NodeState, profile: WorkerProfile, bl: nat) returns (warm: Option<Warm>)
    ensures warm == WarmOf(node, profile, bl)
  {
    if !node.accepts {
      return None;
    }
    var count, spare, usable := 0, 0, false;
    for n := 0 to |node.workers|
      invariant count == WarmCount(node.workers[..n], profile) && spare == WarmSpare(node.workers[..n], profile, bl)
      invariant usable == Usable(node.workers[..n], profile, bl)
    {
      var w := node.workers[n];
      UsableStep(node.workers, profile, bl, n);
      assert node.workers[..n + 1][..n] == node.workers[..n];
      if w.loaded == Some(profile) {
        count := count + 1;
        spare := spare + Headroom(bl, w.depth);
        usable := usable || w.depth < bl;
      } else if w.loaded.None? {
        usable := true;
      }
    }
    assert node.workers[..|node.workers|] == node.workers;
    warm := if count > 0 && usable then Some(Warm(node.id, count, spare)) else None;
  }

  lemma UsableStep(workers: seq<WorkerView>, profile: WorkerProfile, bl: nat, n: nat)
    requires n < |workers|
    ensures Usable(workers[..n + 1], profile, bl) <==>
              || Usable(workers[..n], profile, bl)
              || workers[n].loaded.None? || (workers[n].loaded == Some(profile) && workers[n].depth < bl)
  {
    var a, b := workers[..n + 1], workers[..n];
    assert a[n] == workers[n];
    if Usable(b, profile, bl) {
      var i :| 0 <= i < |b| && (b[i].loaded.None? || (b[i].loaded == Some(profile) && b[i].depth < bl));
      assert a[i] == b[i];
    }
    if Usable(a, profile, bl) {
      var i :| 0 <= i < |a| && (a[i].loaded.None? || (a[i].loaded == Some(profile) && a[i].depth < bl));
      assert i < n ==> b[i] == a[i];
    }
  }

  /** The warm nodes in iteration order; every pass sees the same list. */
  function WarmList(states: map<NodeId, NodeState>, order: seq<NodeId>, profile: WorkerProfile, bl: nat): seq<Warm>
    requires forall i | 0 <= i < |order| :: order[i] in states
  {
    if order == [] then []
    else
      var n := |order| - 1;
      var warm := WarmOf(states[order[n]], profile, bl);
      WarmList(states, order[..n], profile, bl) + (if warm.Some? then [warm.value] else [])
  }

  lemma {:induction false} WarmListOrigin(
    states: map<NodeId, NodeState>, order: seq<NodeId>, profile: WorkerProfile, bl: nat, k: nat) returns (id: NodeId)
    requires (forall i | 0 <= i < |order| :: order[i] in states) && k < |WarmList(states, order, profile, bl)|
    ensures id in order && WarmOf(states[id], profile, bl) == Some(WarmList(states, order, profile, bl)[k])
  {
    var n := |order| - 1;
    if k < |WarmList(states, order[..n], profile, bl)| {
      id := WarmListOrigin(states, order[..n], profile, bl, k);
    } else {
      id := order[n];
    }
  }

  lemma {:induction false} WarmListComplete(
    states: map<NodeId, NodeState>, order: seq<NodeId>, profile: WorkerProfile, bl: nat, k: nat)
    requires (forall i | 0 <= i < |order| :: order[i] in states) && k < |order|
    requires WarmOf(states[order[k]], profile, bl).Some?
    ensures WarmList(states, order, profile, bl) != []
  {
    if k < |order| - 1 {
      WarmListComplete(states, order[..|order| - 1], profile, bl, k);
    }
  }

  function WarmWorkers(workers: seq<WorkerView>, profile: WorkerProfile): set<nat> {
    set i: nat | i < |workers| && workers[i].loaded == Some(profile)
  }

  lemma {:induction false} WarmCountIs(workers: seq<WorkerView>, profile: WorkerProfile)
    ensures WarmCount(workers, profile) == |WarmWorkers(workers, profile)|
  {
    if workers != [] {
      var n := |workers| - 1;
      WarmCountIs(workers[..n], profile);
      var before := WarmWorkers(workers[..n], profile);
      assert WarmWorkers(workers, profile) == if workers[n].loaded == Some(profile) then before + {n} else before;
    }
  }

  /** What the warm workers already hold of the room below the soft limit. */
  function WarmLoad(workers: seq<WorkerView>, profile: WorkerProfile, bl: nat): nat {
    if workers == [] then 0
    else
      var w := workers[|workers| - 1];
      WarmLoad(workers[..|workers| - 1], profile, bl) +
      (if w.loaded != Some(profile) then 0 else if w.depth < bl then w.depth else bl)
  }

  /** Room taken and room left add up to one soft limit per warm worker. */
  lemma {:induction false} SpareExactly(workers: seq<WorkerView>, profile: WorkerProfile, bl: nat)
    ensures WarmSpare(workers, profile, bl) + WarmLoad(workers, profile, bl) == bl * WarmCount(workers, profile)
  {
    if workers != [] {
      SpareExactly(workers[..|workers| - 1], profile, bl);
      OneMore(bl, WarmCount(workers[..|workers| - 1], profile));
    }
  }

  lemma OneMore(bl: nat, n: nat)
    ensures bl * (n + 1) == bl * n + bl
  {}

  /** Which nodes are warm candidates and with how many tickets: accepting ones that hold
      the profile and have a warm worker below the soft limit or a worker holding
      nothing. */
  lemma WarmExactly(node: NodeState, profile: WorkerProfile, bl: nat)
    ensures WarmOf(node, profile, bl).Some? <==>
              && node.accepts && WarmWorkers(node.workers, profile) != {}
              && exists i :: 0 <= i < |node.workers| &&
                   (node.workers[i].loaded.None? ||
                    (node.workers[i].loaded == Some(profile) && node.workers[i].depth < bl))
    ensures WarmOf(node, profile, bl).Some? ==>
              && WarmOf(node, profile, bl).value.node == node.id
              && WarmOf(node, profile, bl).value.count == |WarmWorkers(node.workers, profile)|
  {
    hide WarmCount, WarmWorkers;
    WarmCountIs(node.workers, profile);
  }

  // ---- Weighted tickets --------------------------------------------------

  /** Tickets held by the first `n` candidates. */
  function TicketsBelow(warm: seq<Warm>, n: nat): nat
    requires n <= |warm|
  {
    if n == 0 then 0 else TicketsBelow(warm, n - 1) + warm[n - 1].count
  }

  function TotalTickets(warm: seq<Warm>): nat {
    TicketsBelow(warm, |warm|)
  }

  /** Ticket `ticket` falls in candidate `k`'s interval. */
  predicate Draws(warm: seq<Warm>, ticket: nat, k: nat) {
    k < |warm| && TicketsBelow(warm, k) <= ticket < TicketsBelow(warm, k + 1)
  }

  lemma {:induction false} TicketsGrow(warm: seq<Warm>, a: nat, b: nat)
    requires a <= b <= |warm|
    ensures TicketsBelow(warm, a) <= TicketsBelow(warm, b)
  {
    if a < b {
      TicketsGrow(warm, a, b - 1);
    }
  }

  /** A ticket belongs to one candidate only. */
  lemma DrawsOnce(warm: seq<Warm>, ticket: nat, j: nat, k: nat)
    requires Draws(warm, ticket, j) && Draws(warm, ticket, k)
    ensures j == k
  {
    if j < k {
      TicketsGrow(warm, j + 1, k);
    } else if k < j {
      TicketsGrow(warm, k + 1, j);
    }
  }

  /** The walk: every ticket below the total selects exactly one candidate. */
  method WalkTickets(warm: seq<Warm>, draw: nat) returns (k: nat)
    requires draw < TotalTickets(warm)
    ensures Draws(warm, draw, k)
  {
    var ticket: nat := draw;
    k := 0;
    while k < |warm|
      invariant k <= |warm| && TicketsBelow(warm, k) + ticket == draw
    {
      assert TicketsBelow(warm, k + 1) == TicketsBelow(warm, k) + warm[k].count;
      if ticket < warm[k].count {
        return;
      }
      ticket := ticket - warm[k].count;
      k := k + 1;
    }
  }

  function TicketsOf(warm: seq<Warm>, k: nat): set<nat>
    requires k < |warm|
  {
    set t: nat | t < TotalTickets(warm) && Draws(warm, t, k)
  }

  function Span(low: nat, size: nat): (r: set<nat>)
    ensures |r| == size && forall t: nat :: t in r <==> low <= t < low + size
  {
    if size == 0 then {} else Span(low, size - 1) + {low + size - 1}
  }

  /** Fair shares: out of all tickets each candidate holds exactly as many as it
      has warm workers. */
  lemma TicketShare(warm: seq<Warm>, k: nat)
    requires k < |warm|
    ensures |TicketsOf(warm, k)| == warm[k].count
  {
    TicketsGrow(warm, k + 1, |warm|);
    assert TicketsBelow(warm, k + 1) == TicketsBelow(warm, k) + warm[k].count;
    var span := Span(TicketsBelow(warm, k), warm[k].count);
    forall t: nat ensures t in TicketsOf(warm, k) <==> t in span {
      assert t in span <==> Draws(warm, t, k);
    }
    assert TicketsOf(warm, k) == span;
  }

  // ---- Power of two ------------------------------------------------------

  /** The second draw, shifted past the first so that the two always differ. */
  function SecondIndex(first: nat, draw: nat): nat {
    if draw >= first then draw + 1 else draw
  }

  /** Every ordered pair of different candidates comes from exactly one pair of
      draws. */
  lemma PairsAreUniform(n: nat, a: nat, b: nat)
    requires a < n && b < n && a != b
    ensures var draw := if b > a then b - 1 else b;
            draw < n - 1 && SecondIndex(a, draw) == b &&
            forall other: nat | other < n - 1 && SecondIndex(a, other) == b :: other == draw
    ensures forall draw: nat | draw < n - 1 :: SecondIndex(a, draw) < n && SecondIndex(a, draw) != a
  {
  }

  /** The pass that picks out the two sampled candidates and keeps the roomier. */
  method BetterOfTwo(warm: seq<Warm>, first: nat, second: nat) returns (chosen: nat)
    requires first < |warm| && second < |warm| && first != second
    ensures chosen == first || chosen == second
    ensures warm[chosen].spare >= warm[first].spare && warm[chosen].spare >= warm[second].spare
    ensures warm[first].spare == warm[second].spare ==> chosen == first
  {
    var a: Option<Warm>, b: Option<Warm> := None, None;
    for n := 0 to |warm|
      invariant n > first ==> a == Some(warm[first])
      invariant n > second ==> b == Some(warm[second])
    {
      if n == first {
        a := Some(warm[n]);
      } else if n == second {
        b := Some(warm[n]);
      }
    }
    chosen := if a.value.spare >= b.value.spare then first else second;
  }

  // ---- The choice --------------------------------------------------------

  datatype Strategy = WeightedRandom | PowerOfTwo

  /** `random_range(0..n)` applied to raw randomness: any value below `n`. */
  function InRangeOf(raw: nat, n: nat): (r: nat)
    requires n > 0
    ensures r < n
  {
    raw % n
  }

  /** Where a ticket lands. */
  function Holder(warm: seq<Warm>, ticket: nat): (k: nat)
    requires ticket < TotalTickets(warm)
    ensures Draws(warm, ticket, k)
  {
    HolderIn(warm, ticket, |warm|)
  }

  function HolderIn(warm: seq<Warm>, ticket: nat, n: nat): (k: nat)
    requires n <= |warm| && ticket < TicketsBelow(warm, n)
    ensures Draws(warm, ticket, k)
  {
    if TicketsBelow(warm, n - 1) <= ticket then n - 1 else HolderIn(warm, ticket, n - 1)
  }

  /** `select_warm_target`, with the generator's two draws as parameters. */
  function SelectWarm(warm: seq<Warm>, strategy: Strategy, raw: nat, raw': nat): Option<NodeId> {
    match strategy
    case WeightedRandom =>
      if TotalTickets(warm) == 0 then None
      else Some(warm[Holder(warm, InRangeOf(raw, TotalTickets(warm)))].node)
    case PowerOfTwo =>
      if |warm| == 0 then None
      else if |warm| == 1 then Some(warm[0].node)
      else
        var first := InRangeOf(raw, |warm|);
        var second := SecondIndex(first, InRangeOf(raw', |warm| - 1));
        Some(warm[if warm[first].spare >= warm[second].spare then first else second].node)
  }

  method SelectWarmTarget(warm: seq<Warm>, strategy: Strategy, raw: nat, raw': nat) returns (target: Option<NodeId>)
    ensures target == SelectWarm(warm, strategy, raw, raw')
  {
    match strategy
    case WeightedRandom =>
      var total := TotalTickets(warm);
      if total == 0 {
        return None;
      }
      var k := WalkTickets(warm, InRangeOf(raw, total));
      DrawsOnce(warm, InRangeOf(raw, total), k, Holder(warm, InRangeOf(raw, total)));
      target := Some(warm[k].node);
    case PowerOfTwo =>
      if |warm| == 0 {
        return None;
      }
      if |warm| == 1 {
        return Some(warm[0].node);
      }
      var first := InRangeOf(raw, |warm|);
      var second := SecondIndex(first, InRangeOf(raw', |warm| - 1));
      var chosen := BetterOfTwo(warm, first, second);
      target := Some(warm[chosen].node);
  }

  /** A target is chosen exactly when there is a warm candidate, and it is one. */
  lemma SelectsIffWarm(warm: seq<Warm>, strategy: Strategy, raw: nat, raw': nat)
    requires forall i | 0 <= i < |warm| :: warm[i].count > 0
    ensures SelectWarm(warm, strategy, raw, raw').Some? <==> warm != []
    ensures var target := SelectWarm(warm, strategy, raw, raw');
            target.Some? ==> exists i :: 0 <= i < |warm| && warm[i].node == target.value
  {
    if warm != [] {
      TicketsGrow(warm, 1, |warm|);
      assert TicketsBelow(warm, 1) == TicketsBelow(warm, 0) + warm[0].count;
    }
  }
}
