/** Highest-random-weight ranking: members by descending weight, earlier members
    first among equals. The dispatcher keeps only the best few by bounded
    insertion; the warm planner counts who is ahead of it. Both are compared here
    with the full ranking.

    A ranking is a sequence of positions into the member list, so that repeated
    members stay distinguishable.
  */
module Ranking {
  type NodeId = string
  type Weight = NodeId -> nat

  /** `i` ranks ahead of `j`: the order of a stable descending sort. */
  predicate Ahead(ws: seq<nat>, i: nat, j: nat)
    requires i < |ws| && j < |ws|
  {
    ws[i] > ws[j] || (ws[i] == ws[j] && i < j)
  }

  predicate InRange(ws: seq<nat>, s: seq<nat>) {
    forall a | 0 <= a < |s| :: s[a] < |ws|
  }

  /** `s` lists every position once, best first. */
  predicate Ranked(ws: seq<nat>, s: seq<nat>) {
    && |s| == |ws| && InRange(ws, s)
    && forall a, b | 0 <= a < b < |s| :: Ahead(ws, s[a], s[b])
  }

  /** How many positions rank ahead of `i`. */
  function AheadOf(ws: seq<nat>, i: nat): set<nat>
    requires i < |ws|
  {
    set j: nat | j < |ws| && Ahead(ws, j, i)
  }

  function Rank(ws: seq<nat>, i: nat): nat
    requires i < |ws|
  {
    |AheadOf(ws, i)|
  }

  // ---- Insertion ---------------------------------------------------------

  function InsertAt<T>(s: seq<T>, a: nat, x: T): seq<T>
    requires a <= |s|
  {
    s[..a] + [x] + s[a..]
  }

  /** Where a newcomer of weight `weight` goes: before the first lighter entry. */
  function Place(ws: seq<nat>, s: seq<nat>, weight: nat): (a: nat)
    requires InRange(ws, s)
    ensures a <= |s|
  {
    if s == [] || ws[s[0]] < weight then 0 else 1 + Place(ws, s[1..], weight)
  }

  predicate PlacedAt(ws: seq<nat>, s: seq<nat>, weight: nat, a: nat)
    requires InRange(ws, s)
  {
    a <= |s| && (forall b | 0 <= b < a :: ws[s[b]] >= weight) && (a < |s| ==> ws[s[a]] < weight)
  }

  lemma {:induction false} PlaceIsPlaced(ws: seq<nat>, s: seq<nat>, weight: nat)
    requires InRange(ws, s)
    ensures PlacedAt(ws, s, weight, Place(ws, s, weight))
  {
    if s != [] && ws[s[0]] >= weight {
      PlaceIsPlaced(ws, s[1..], weight);
    }
  }

  function Most(limit: nat, n: nat): nat {
    if n <= limit then n else limit
  }

  /** The full ranking, by unbounded insertion in member order. */
  function FullRanking(ws: seq<nat>): (s: seq<nat>)
    ensures |s| == |ws| && InRange(ws, s)
  {
    if ws == [] then []
    else
      var p := |ws| - 1;
      var s := FullRanking(ws[..p]);
      InsertAt(s, Place(ws, s, ws[p]), p)
  }

  /** One round of the bounded loop: the last position joins if it places in time. */
  function Round(ws: seq<nat>, s: seq<nat>, limit: nat): (r: seq<nat>)
    requires ws != [] && InRange(ws, s) && |s| <= limit
    ensures |r| <= limit && InRange(ws, r)
  {
    var p := |ws| - 1;
    var a := Place(ws, s, ws[p]);
    if a < limit then InsertAt(s, a, p)[..Most(limit, |s| + 1)] else s
  }

  /** What the bounded loop keeps. */
  function Bounded(ws: seq<nat>, limit: nat): (s: seq<nat>)
    ensures |s| <= limit && InRange(ws, s)
  {
    if ws == [] then [] else Round(ws, Bounded(ws[..|ws| - 1], limit), limit)
  }

  lemma InsertedAt<T>(s: seq<T>, a: nat, x: T, c: nat)
    requires a <= |s| && c <= |s|
    ensures InsertAt(s, a, x)[c] == if c < a then s[c] else if c == a then x else s[c - 1]
  {
  }

  lemma NewcomerAhead(ws: seq<nat>, s: seq<nat>, a: nat, b: nat)
    requires ws != [] && Ranked(ws[..|ws| - 1], s) && a <= b < |s| && ws[s[a]] < ws[|ws| - 1]
    ensures Ahead(ws, |ws| - 1, s[b])
  {
    var p := |ws| - 1;
    if a < b {
      assert Ahead(ws[..p], s[a], s[b]);
    }
  }

  lemma PairAhead(ws: seq<nat>, s: seq<nat>, c: nat, d: nat)
    requires ws != [] && Ranked(ws[..|ws| - 1], s) && c < d <= |s|
    ensures InRange(ws, s)
    ensures var t := InsertAt(s, Place(ws, s, ws[|ws| - 1]), |ws| - 1);
            t[c] < |ws| && t[d] < |ws| && Ahead(ws, t[c], t[d])
  {
    hide InsertAt;
    var p := |ws| - 1;
    assert InRange(ws, s);
    var a := Place(ws, s, ws[p]);
    PlaceIsPlaced(ws, s, ws[p]);
    InsertedAt(s, a, p, c);
    InsertedAt(s, a, p, d);
    if c == a {
      NewcomerAhead(ws, s, a, d - 1);
    } else if d != a {
      assert Ahead(ws[..p], s[if c < a then c else c - 1], s[if d < a then d else d - 1]);
    }
  }

  lemma InsertKeepsRanked(ws: seq<nat>, s: seq<nat>)
    requires ws != [] && Ranked(ws[..|ws| - 1], s)
    ensures InRange(ws, s) && Ranked(ws, InsertAt(s, Place(ws, s, ws[|ws| - 1]), |ws| - 1))
  {
    hide Place, Ahead;
    assert InRange(ws, s);
    var t := InsertAt(s, Place(ws, s, ws[|ws| - 1]), |ws| - 1);
    forall c, d | 0 <= c < d < |t| ensures t[c] < |ws| && t[d] < |ws| && Ahead(ws, t[c], t[d]) {
      PairAhead(ws, s, c, d);
    }
  }

  /** Insertion in member order is the stable descending sort. */
  lemma {:induction false} FullRankingIsRanked(ws: seq<nat>)
    ensures Ranked(ws, FullRanking(ws))
  {
    if ws != [] {
      FullRankingIsRanked(ws[..|ws| - 1]);
      InsertKeepsRanked(ws, FullRanking(ws[..|ws| - 1]));
    }
  }

  lemma {:induction false} PlaceInPrefix(ws: seq<nat>, s: seq<nat>, n: nat, weight: nat)
    requires InRange(ws, s) && n <= |s|
    ensures InRange(ws, s[..n])
    ensures Place(ws, s[..n], weight) == Most(n, Place(ws, s, weight))
  {
    if n > 0 && ws[s[0]] >= weight {
      PlaceInPrefix(ws, s[1..], n - 1, weight);
      assert s[..n][1..] == s[1..][..n - 1];
    }
  }

  lemma InsertInPrefix<T>(s: seq<T>, a: nat, x: T, limit: nat)
    requires a < limit && a <= |s|
    ensures var t, u := InsertAt(s[..Most(limit, |s|)], a, x), InsertAt(s, a, x);
            t[..Most(limit, |t|)] == u[..Most(limit, |u|)]
  {
  }

  lemma FullStep(ws: seq<nat>)
    requires ws != []
    ensures var p := |ws| - 1; var s := FullRanking(ws[..p]);
            InRange(ws, s) && FullRanking(ws) == InsertAt(s, Place(ws, s, ws[p]), p)
  {
  }

  /** Bounded insertion keeps exactly the first `limit` of the full ranking. */
  lemma {:induction false} BoundedIsPrefix(ws: seq<nat>, limit: nat)
    ensures Bounded(ws, limit) == FullRanking(ws)[..Most(limit, |ws|)]
  {
    if ws != [] {
      hide FullRanking, Place;
      var p := |ws| - 1;
      BoundedIsPrefix(ws[..p], limit);
      var full := FullRanking(ws[..p]);
      FullStep(ws);
      PlaceInPrefix(ws, full, Most(limit, p), ws[p]);
      var a := Place(ws, full, ws[p]);
      if a < limit {
        InsertInPrefix(full, a, p, limit);
      } else {
        assert InsertAt(full, a, p)[..limit] == full[..limit];
      }
    }
  }

  // ---- Ranks -------------------------------------------------------------

  function Firsts(s: seq<nat>, a: nat): set<nat>
    requires a <= |s|
  {
    set b | 0 <= b < a :: s[b]
  }

  lemma {:induction false} FirstsCount(s: seq<nat>, a: nat)
    requires a <= |s| && forall b, c | 0 <= b < c < |s| :: s[b] != s[c]
    ensures |Firsts(s, a)| == a
  {
    if a > 0 {
      FirstsCount(s, a - 1);
      assert Firsts(s, a) == Firsts(s, a - 1) + {s[a - 1]};
    }
  }

  /** Nothing is missing from a ranking. */
  lemma RankedCovers(ws: seq<nat>, s: seq<nat>, i: nat) returns (a: nat)
    requires Ranked(ws, s) && i < |ws|
    ensures a < |s| && s[a] == i
  {
    FirstsCount(s, |s|);
    assert Firsts(s, |s|) <= Positions(|ws|);
    SubsetSameSize(Firsts(s, |s|), Positions(|ws|));
    assert i in Firsts(s, |s|);
    a :| 0 <= a < |s| && s[a] == i;
  }

  function Positions(n: nat): (r: set<nat>)
    ensures |r| == n && forall j: nat :: j in r <==> j < n
  {
    if n == 0 then {} else Positions(n - 1) + {n - 1}
  }

  lemma SubsetSameSize<T>(a: set<T>, b: set<T>)
    requires a <= b && |a| == |b|
    ensures a == b
  {
    if a != b {
      var x :| x in b && x !in a;
      assert a <= b - {x};
      SubsetIsSmaller(a, b - {x});
    }
  }

  lemma {:induction false} SubsetIsSmaller<T>(a: set<T>, b: set<T>)
    requires a <= b
    ensures |a| <= |b|
    decreases |a|
  {
    if a != {} {
      var x :| x in a;
      SubsetIsSmaller(a - {x}, b - {x});
    }
  }

  /** In a ranking the index of a position is the number of positions ahead of it. */
  lemma RankIsIndex(ws: seq<nat>, s: seq<nat>, a: nat)
    requires Ranked(ws, s) && a < |s|
    ensures Rank(ws, s[a]) == a
  {
    FirstsCount(s, a);
    forall j | j in AheadOf(ws, s[a]) ensures j in Firsts(s, a) {
      var b := RankedCovers(ws, s, j);
    }
    assert AheadOf(ws, s[a]) == Firsts(s, a);
  }

  /** The stable sort is unique. */
  lemma RankedUnique(ws: seq<nat>, s: seq<nat>, t: seq<nat>)
    requires Ranked(ws, s) && Ranked(ws, t)
    ensures s == t
  {
    forall a | 0 <= a < |s| ensures s[a] == t[a] {
      var b := RankedCovers(ws, t, s[a]);
      RankIsIndex(ws, s, a);
      RankIsIndex(ws, t, b);
    }
  }

  lemma NotTaken(s: seq<nat>, n: nat, a: nat)
    requires n <= |s| && a < |s| && s[a] !in s[..n]
    ensures n <= a
  {
  }

  /** A position is among the best `limit` exactly when fewer than `limit`
      positions rank ahead of it. */
  lemma SelectedIffRank(ws: seq<nat>, i: nat, limit: nat)
    requires i < |ws|
    ensures i in Bounded(ws, limit) <==> Rank(ws, i) < limit
  {
    hide Bounded, FullRanking, Rank;
    var s := FullRanking(ws);
    FullRankingIsRanked(ws);
    BoundedIsPrefix(ws, limit);
    var a := RankedCovers(ws, s, i);
    RankIsIndex(ws, s, a);
    var top := s[..Most(limit, |ws|)];
    if i in top {
      var b :| 0 <= b < |top| && top[b] == i;
      RankIsIndex(ws, s, b);
    } else {
      NotTaken(s, Most(limit, |ws|), a);
    }
  }

  // ---- The dispatcher's loop ---------------------------------------------

  function Eligible(members: seq<NodeId>, eligible: NodeId -> bool): seq<NodeId> {
    if members == [] then []
    else Eligible(members[..|members| - 1], eligible) +
         (if eligible(members[|members| - 1]) then [members[|members| - 1]] else [])
  }

  lemma {:induction false} EligibleMember(members: seq<NodeId>, f: NodeId -> bool, n: NodeId)
    ensures n in Eligible(members, f) <==> n in members && f(n)
  {
    if members != [] {
      EligibleMember(members[..|members| - 1], f, n);
      assert members == members[..|members| - 1] + [members[|members| - 1]];
    }
  }

  function Weights(nodes: seq<NodeId>, weight: Weight): (ws: seq<nat>)
    ensures |ws| == |nodes| && forall i | 0 <= i < |ws| :: ws[i] == weight(nodes[i])
  {
    seq(|nodes|, i requires 0 <= i < |nodes| => weight(nodes[i]))
  }

  function NodesAt(nodes: seq<NodeId>, s: seq<nat>): (r: seq<NodeId>)
    requires forall a | 0 <= a < |s| :: s[a] < |nodes|
    ensures |r| == |s| && forall a | 0 <= a < |r| :: r[a] == nodes[s[a]]
  {
    seq(|s|, a requires 0 <= a < |s| => nodes[s[a]])
  }

  /** The first `limit` nodes of the stable descending sort of `nodes`. */
  function Best(nodes: seq<NodeId>, weight: Weight, limit: nat): seq<NodeId> {
    NodesAt(nodes, FullRanking(Weights(nodes, weight)))[..Most(limit, |nodes|)]
  }

  /** The entries the loop holds for the positions `s`. */
  predicate Holds(top: seq<(nat, NodeId)>, nodes: seq<NodeId>, weight: Weight, s: seq<nat>) {
    |top| == |s| && forall a | 0 <= a < |s| :: s[a] < |nodes| && top[a] == (weight(nodes[s[a]]), nodes[s[a]])
  }

  method InsertPosition(top: seq<(nat, NodeId)>, weight: nat) returns (at: nat)
    ensures at <= |top| && (forall b | 0 <= b < at :: top[b].0 >= weight) && (at < |top| ==> top[at].0 < weight)
  {
    at := 0;
    while at < |top|
      invariant at <= |top| && forall b | 0 <= b < at :: top[b].0 >= weight
    {
      if weight > top[at].0 {
        return;
      }
      at := at + 1;
    }
  }

  lemma PlaceUnique(ws: seq<nat>, s: seq<nat>, weight: nat, a: nat)
    requires InRange(ws, s) && PlacedAt(ws, s, weight, a)
    ensures Place(ws, s, weight) == a
  {
    PlaceIsPlaced(ws, s, weight);
  }

  lemma WeightsAppend(nodes: seq<NodeId>, x: NodeId, weight: Weight)
    ensures Weights(nodes + [x], weight)[..|nodes|] == Weights(nodes, weight)
  {
  }

  lemma HoldsInsert(top: seq<(nat, NodeId)>, nodes: seq<NodeId>, weight: Weight, s: seq<nat>, at: nat, x: NodeId)
    requires Holds(top, nodes, weight, s) && at <= |s|
    ensures Holds(InsertAt(top, at, (weight(x), x)), nodes + [x], weight, InsertAt(s, at, |nodes|))
    ensures Holds(top, nodes + [x], weight, s)
  {
    var t, u := InsertAt(top, at, (weight(x), x)), InsertAt(s, at, |nodes|);
    forall a | 0 <= a < |u| ensures u[a] <= |nodes| && t[a] == (weight((nodes + [x])[u[a]]), (nodes + [x])[u[a]]) {
      InsertedAt(s, at, |nodes|, a);
      InsertedAt(top, at, (weight(x), x), a);
    }
  }

  /** One round of the loop on entries is one round of `Bounded` on positions. */
  lemma RoundHolds(top: seq<(nat, NodeId)>, nodes: seq<NodeId>, weight: Weight, x: NodeId, limit: nat, at: nat)
    requires Holds(top, nodes, weight, Bounded(Weights(nodes, weight), limit)) && at <= |top|
    requires (forall b | 0 <= b < at :: top[b].0 >= weight(x)) && (at < |top| ==> top[at].0 < weight(x))
    ensures var t := if at < limit then InsertAt(top, at, (weight(x), x)) else top;
            Holds(t[..Most(limit, |t|)], nodes + [x], weight, Bounded(Weights(nodes + [x], weight), limit))
  {
    hide Place, Weights;
    var ws := Weights(nodes + [x], weight);
    var s := Bounded(Weights(nodes, weight), limit);
    assert ws[..|ws| - 1] == Weights(nodes, weight) by { WeightsAppend(nodes, x, weight); }
    assert InRange(ws, s);
    assert PlacedAt(ws, s, weight(x), at);
    PlaceUnique(ws, s, weight(x), at);
    HoldsInsert(top, nodes, weight, s, at, x);
  }

  lemma {:induction false} EligibleStep(members: seq<NodeId>, eligible: NodeId -> bool, n: nat)
    requires n < |members|
    ensures Eligible(members[..n + 1], eligible) ==
            Eligible(members[..n], eligible) + (if eligible(members[n]) then [members[n]] else [])
  {
    assert members[..n + 1][..n] == members[..n];
  }

  lemma BoundedEmpty(weight: Weight, limit: nat)
    ensures Bounded(Weights([], weight), limit) == []
  {
  }

  /** `top_hrw_candidates`: the loop returns the first `limit` of the stable
      descending sort of the eligible members. */
  method TopCandidates(members: seq<NodeId>, weight: Weight, limit: nat, eligible: NodeId -> bool)
    returns (best: seq<NodeId>)
    ensures best == Best(Eligible(members, eligible), weight, limit)
  {
    hide Bounded, FullRanking, Weights;
    var top: seq<(nat, NodeId)> := [];
    BoundedEmpty(weight, limit);
    for n := 0 to |members|
      invariant Holds(top, Eligible(members[..n], eligible), weight,
                      Bounded(Weights(Eligible(members[..n], eligible), weight), limit))
    {
      EligibleStep(members, eligible, n);
      if eligible(members[n]) {
        var at := InsertPosition(top, weight(members[n]));
        RoundHolds(top, Eligible(members[..n], eligible), weight, members[n], limit, at);
        if at < limit {
          top := top[..at] + [(weight(members[n]), members[n])] + top[at..];
          top := top[..Most(limit, |top|)];
        } else {
          assert top[..Most(limit, |top|)] == top;
        }
      } else {
        assert Eligible(members[..n + 1], eligible) == Eligible(members[..n], eligible);
      }
    }
    assert members[..|members|] == members;
    best := seq(|top|, a requires 0 <= a < |top| => top[a].1);
    BoundedIsPrefix(Weights(Eligible(members, eligible), weight), limit);
  }

  // ---- A member leaves ---------------------------------------------------

  function RemoveAt<T>(s: seq<T>, a: nat): (r: seq<T>)
    requires a < |s|
    ensures |r| == |s| - 1
    ensures forall b | 0 <= b < |r| :: r[b] == s[if b < a then b else b + 1]
  {
    s[..a] + s[a + 1..]
  }

  /** Where position `p` ends up when position `q` is removed. */
  function Shift(p: nat, q: nat): nat {
    if p > q then p - 1 else p
  }

  function ShiftAll(s: seq<nat>, q: nat): (r: seq<nat>)
    ensures |r| == |s| && forall a | 0 <= a < |r| :: r[a] == Shift(s[a], q)
  {
    seq(|s|, a requires 0 <= a < |s| => Shift(s[a], q))
  }

  lemma AheadShifts(ws: seq<nat>, i: nat, j: nat, q: nat)
    requires i < |ws| && j < |ws| && q < |ws| && i != q && j != q && Ahead(ws, i, j)
    ensures Shift(i, q) < |ws| - 1 && Shift(j, q) < |ws| - 1
    ensures RemoveAt(ws, q)[Shift(i, q)] == ws[i]
    ensures Ahead(RemoveAt(ws, q), Shift(i, q), Shift(j, q))
  {
  }

  lemma OthersElsewhere(ws: seq<nat>, s: seq<nat>, a: nat, b: nat)
    requires Ranked(ws, s) && a < |s| && b < |s| && a != b
    ensures s[a] != s[b]
  {
    assert a < b ==> Ahead(ws, s[a], s[b]);
    assert b < a ==> Ahead(ws, s[b], s[a]);
  }

  lemma RankedWithout(ws: seq<nat>, s: seq<nat>, a: nat)
    requires Ranked(ws, s) && a < |s|
    ensures Ranked(RemoveAt(ws, s[a]), ShiftAll(RemoveAt(s, a), s[a]))
  {
    hide Ahead, RemoveAt;
    var q := s[a];
    var t, u := RemoveAt(s, a), ShiftAll(RemoveAt(s, a), s[a]);
    forall c | 0 <= c < |u| ensures u[c] < |ws| - 1 {
      InRangeWithout(ws, s, a, c);
    }
    forall c, d | 0 <= c < d < |u| ensures u[c] < |ws| - 1 && u[d] < |ws| - 1 && Ahead(RemoveAt(ws, q), u[c], u[d]) {
      var c', d' := if c < a then c else c + 1, if d < a then d else d + 1;
      OthersElsewhere(ws, s, c', a);
      OthersElsewhere(ws, s, d', a);
      assert Ahead(ws, s[c'], s[d']);
      AheadShifts(ws, s[c'], s[d'], q);
    }
  }

  lemma InRangeWithout(ws: seq<nat>, s: seq<nat>, a: nat, c: nat)
    requires Ranked(ws, s) && a < |s| && c < |s| - 1
    ensures Shift(RemoveAt(s, a)[c], s[a]) < |ws| - 1
  {
    var c' := if c < a then c else c + 1;
    OthersElsewhere(ws, s, c', a);
  }

  /** The whole ranking, as nodes. */
  function RankedNodes(nodes: seq<NodeId>, weight: Weight): seq<NodeId> {
    NodesAt(nodes, FullRanking(Weights(nodes, weight)))
  }

  /** Removing a member removes it from the ranking and moves nobody past anybody. */
  lemma RankingWithout(nodes: seq<NodeId>, weight: Weight, q: nat) returns (a: nat)
    requires q < |nodes|
    ensures a < |nodes| && a == Rank(Weights(nodes, weight), q) && RankedNodes(nodes, weight)[a] == nodes[q]
    ensures RankedNodes(RemoveAt(nodes, q), weight) == RemoveAt(RankedNodes(nodes, weight), a)
  {
    hide FullRanking, Weights, Rank, Ahead, RemoveAt;
    var ws := Weights(nodes, weight);
    var s := FullRanking(ws);
    FullRankingIsRanked(ws);
    a := RankedCovers(ws, s, q);
    RankIsIndex(ws, s, a);
    RankedWithout(ws, s, a);
    assert RemoveAt(ws, q) == Weights(RemoveAt(nodes, q), weight);
    FullRankingIsRanked(RemoveAt(ws, q));
    RankedUnique(RemoveAt(ws, q), FullRanking(RemoveAt(ws, q)), ShiftAll(RemoveAt(s, a), q));
    forall c | 0 <= c < |nodes| - 1
      ensures RankedNodes(RemoveAt(nodes, q), weight)[c] == RemoveAt(RankedNodes(nodes, weight), a)[c]
    {
      InRangeWithout(ws, s, a, c);
      OthersElsewhere(ws, s, if c < a then c else c + 1, a);
    }
  }

  lemma CandidateRemoval(nodes: seq<NodeId>, weight: Weight, limit: nat, q: nat)
    requires q < |nodes|
    ensures ClosesGap(nodes, weight, limit, q, Best(nodes, weight, limit), Best(RemoveAt(nodes, q), weight, limit))
  {
    hide FullRanking, Weights, Rank, Ahead;
    var a := RankingWithout(nodes, weight, q);
    var all := RankedNodes(nodes, weight);
    assert Best(nodes, weight, limit) == all[..Most(limit, |nodes|)];
    assert Best(RemoveAt(nodes, q), weight, limit) == RemoveAt(all, a)[..Most(limit, |nodes| - 1)];
  }

  /** Removing candidate `q`: nothing changes if it was not selected; otherwise the gap
      it leaves is closed and at most one node is added, at the end. */
  predicate ClosesGap(
    nodes: seq<NodeId>, weight: Weight, limit: nat, q: nat, before: seq<NodeId>, after: seq<NodeId>)
    requires q < |nodes|
  {
    var a := Rank(Weights(nodes, weight), q);
    if a >= limit then after == before
    else
      && a < |before| && before[a] == nodes[q]
      && after == RemoveAt(before, a) + RankedNodes(nodes, weight)[Most(limit, |nodes|)..Most(limit + 1, |nodes|)]
  }

  lemma {:induction false} EligibleConcat(a: seq<NodeId>, b: seq<NodeId>, eligible: NodeId -> bool)
    ensures Eligible(a + b, eligible) == Eligible(a, eligible) + Eligible(b, eligible)
    decreases |b|
  {
    if b == [] {
      assert a + b == a;
    } else {
      EligibleConcat(a, b[..|b| - 1], eligible);
      assert (a + b)[..|a + b| - 1] == a + b[..|b| - 1];
    }
  }

  /** Filtering and removing commute; `p` is where the member stands among the eligible. */
  lemma EligibleWithout(members: seq<NodeId>, eligible: NodeId -> bool, q: nat) returns (p: nat)
    requires q < |members|
    ensures p == |Eligible(members[..q], eligible)|
    ensures !eligible(members[q]) ==> Eligible(RemoveAt(members, q), eligible) == Eligible(members, eligible)
    ensures eligible(members[q]) ==>
              && p < |Eligible(members, eligible)| && Eligible(members, eligible)[p] == members[q]
              && Eligible(RemoveAt(members, q), eligible) == RemoveAt(Eligible(members, eligible), p)
  {
    hide Eligible;
    p := |Eligible(members[..q], eligible)|;
    EligibleStep(members, eligible, q);
    EligibleConcat(members[..q], members[q + 1..], eligible);
    EligibleConcat(members[..q + 1], members[q + 1..], eligible);
    assert RemoveAt(members, q) == members[..q] + members[q + 1..];
    assert members == members[..q + 1] + members[q + 1..];
    if eligible(members[q]) {
      var nodes, rest := Eligible(members, eligible), Eligible(members[q + 1..], eligible);
      assert nodes == Eligible(members[..q], eligible) + [members[q]] + rest;
      assert RemoveAt(nodes, p) == Eligible(members[..q], eligible) + rest;
    }
  }

  /** A member leaves the cluster: what `TopCandidates` selects stays the same if the
      member was not eligible or not selected; otherwise the gap is closed and at most
      one node is added, at the end. */
  lemma RemovalIsLocal(members: seq<NodeId>, weight: Weight, limit: nat, eligible: NodeId -> bool, q: nat)
    requires q < |members|
    ensures
      var nodes := Eligible(members, eligible);
      var before := Best(nodes, weight, limit);
      var after := Best(Eligible(RemoveAt(members, q), eligible), weight, limit);
      var p := |Eligible(members[..q], eligible)|;
      if eligible(members[q])
      then p < |nodes| && nodes[p] == members[q] && ClosesGap(nodes, weight, limit, p, before, after)
      else after == before
  {
    hide Best, Eligible, ClosesGap, RemoveAt;
    var p := EligibleWithout(members, eligible, q);
    if eligible(members[q]) {
      CandidateRemoval(Eligible(members, eligible), weight, limit, p);
    }
  }
}
