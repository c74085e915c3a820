/** Which local worker takes a task: one scan for the least score among the workers
    that are available and below the hard limit. */
module WorkerPick {
  import opened Text
  import opened Profiles
  import opened PoolState

  const MAX_COUNT: nat := U64 - 1

  datatype Tier = WarmComfort | Fresh | WarmFull | AllocSwapIdle | WarmOverflow | WarmSaturated | ShortestQueue

  function TierRank(t: Tier): nat {
    match t
    case WarmComfort => 0
    case Fresh => 1
    case WarmFull => 2
    case AllocSwapIdle => 3
    case WarmOverflow => 4
    case WarmSaturated => 5
    case ShortestQueue => 6
  }

  datatype Score = Score(
    tier: Tier, sourceMiss: bool, depth: nat, protected: bool, mismatch: bool, count: nat, lastSeen: Option<nat>)

  /** What a pick sees: the pool's prediction and each worker's depth and flag. */
  datatype Picture = Picture(
    pool: Pool, depths: seq<nat>, available: seq<bool>, profile: WorkerProfile, source: Option<string>,
    bl: nat, queueCapacity: nat)

  predicate Consistent(x: Picture) {
    Sized(x.pool) && |x.depths| == |x.available| == |x.pool.loaded|
  }

  // ---- Scores ------------------------------------------------------------

  function ExpandThreshold(bl: nat): nat {
    var t := bl * 2 / 3;
    if t < 1 then 1 else t
  }

  function TierOf(x: Picture, loaded: Option<WorkerProfile>, depth: nat): Tier {
    if loaded == Some(x.profile) then
      if depth < ExpandThreshold(x.bl) then WarmComfort
      else if depth < x.bl then WarmFull
      else if depth < x.queueCapacity then WarmOverflow
      else WarmSaturated
    else if loaded.None? then Fresh
    else if depth == 0 then AllocSwapIdle
    else ShortestQueue
  }

  function CountOf(counts: map<WorkerProfile, nat>, p: WorkerProfile): nat {
    if p in counts then counts[p] else 0
  }

  /** `pick_score`. */
  function ScoreOf(x: Picture, i: nat): Score
    requires Consistent(x) && i < |x.depths|
  {
    var loaded, depth := x.pool.loaded[i], x.depths[i];
    var tier := TierOf(x, loaded, depth);
    var miss := x.source.Some? && x.source.value !in x.pool.sourceIds[i];
    if tier.AllocSwapIdle? then
      var p := loaded.value;
      Score(tier, miss, depth, CountOf(x.pool.counts, p) <= 1, p.mode != x.profile.mode || p.scale != x.profile.scale,
            CountOf(x.pool.counts, p), x.pool.lastUsed[i])
    else Score(tier, miss, depth, false, false, MAX_COUNT, None)
  }

  /** Lexicographic; larger profile counts first, never-used before used. */
  predicate ScoreLess(a: Score, b: Score) {
    if a.tier != b.tier then TierRank(a.tier) < TierRank(b.tier)
    else if a.sourceMiss != b.sourceMiss then b.sourceMiss
    else if a.depth != b.depth then a.depth < b.depth
    else if a.protected != b.protected then b.protected
    else if a.mismatch != b.mismatch then b.mismatch
    else if a.count != b.count then a.count > b.count
    else b.lastSeen.Some? && (a.lastSeen.None? || a.lastSeen.value < b.lastSeen.value)
  }

  lemma ScoreTransitive(a: Score, b: Score, c: Score)
    requires !ScoreLess(a, b) && ScoreLess(c, b)
    ensures ScoreLess(c, a)
  {
  }

  // ---- The scan ----------------------------------------------------------

  predicate CanTake(x: Picture, i: nat)
    requires Consistent(x)
  {
    i < |x.depths| && x.available[i] && x.depths[i] < x.queueCapacity
  }

  /** The earliest of the best. */
  predicate Picked(x: Picture, i: nat, n: nat)
    requires Consistent(x) && n <= |x.depths|
  {
    && i < n && CanTake(x, i)
    && (forall j: nat | j < n && CanTake(x, j) :: !ScoreLess(ScoreOf(x, j), ScoreOf(x, i)))
    && (forall j: nat | j < i && CanTake(x, j) :: ScoreLess(ScoreOf(x, i), ScoreOf(x, j)))
  }

  /** `best_available_worker`: nobody exactly when nobody can take the task. */
  method BestAvailable(x: Picture) returns (best: Option<nat>)
    requires Consistent(x)
    ensures best.None? <==> forall i: nat | i < |x.depths| :: !x.available[i] || x.depths[i] >= x.queueCapacity
    ensures best.Some? ==> Picked(x, best.value, |x.depths|)
  {
    hide ScoreOf, ScoreLess;
    best := None;
    for n := 0 to |x.depths|
      invariant best.None? ==> forall i: nat | i < n :: !CanTake(x, i)
      invariant best.Some? ==> Picked(x, best.value, n)
    {
      if x.available[n] && x.depths[n] < x.queueCapacity {
        if best.None? || ScoreLess(ScoreOf(x, n), ScoreOf(x, best.value)) {
          if best.Some? {
            forall j: nat | j < n && CanTake(x, j) ensures ScoreLess(ScoreOf(x, n), ScoreOf(x, j)) {
              ScoreTransitive(ScoreOf(x, j), ScoreOf(x, best.value), ScoreOf(x, n));
            }
            LessOnce(x, n);
          } else {
            LessOnce(x, n);
          }
          best := Some(n);
        }
      }
    }
    if best.Some? {
      assert CanTake(x, best.value);
    } else {
      forall i: nat | i < |x.depths| ensures !x.available[i] || x.depths[i] >= x.queueCapacity {
        assert !CanTake(x, i);
      }
    }
  }

  lemma LessOnce(x: Picture, n: nat)
    requires Consistent(x) && n < |x.depths|
    ensures !ScoreLess(ScoreOf(x, n), ScoreOf(x, n))
    ensures forall j: nat | j < |x.depths| && ScoreLess(ScoreOf(x, n), ScoreOf(x, j)) ::
              !ScoreLess(ScoreOf(x, j), ScoreOf(x, n))
  {
    hide ScoreOf;
    forall j: nat | j < |x.depths| && ScoreLess(ScoreOf(x, n), ScoreOf(x, j))
      ensures !ScoreLess(ScoreOf(x, j), ScoreOf(x, n))
    {
      LessAsymmetric(ScoreOf(x, n), ScoreOf(x, j));
    }
  }

  lemma LessAsymmetric(a: Score, b: Score)
    ensures !(ScoreLess(a, b) && ScoreLess(b, a))
  {
  }

  // ---- What the choice means ---------------------------------------------

  predicate Evicts(x: Picture, i: nat)
    requires Consistent(x) && i < |x.depths|
  {
    x.pool.loaded[i].Some? && x.pool.loaded[i].value != x.profile
  }

  /** A worker warm for another profile is taken only when no worker that can take
      the task is fresh or warm for it below the soft limit. */
  lemma EvictionIsLastResort(x: Picture, i: nat, j: nat)
    requires Consistent(x) && Picked(x, i, |x.depths|) && Evicts(x, i) && CanTake(x, j)
    ensures x.pool.loaded[j].Some?
    ensures x.pool.loaded[j].value == x.profile ==> x.depths[j] >= x.bl
  {
    assert !ScoreLess(ScoreOf(x, j), ScoreOf(x, i));
  }

  /** An idle worker with the pool's only copy of a profile is evicted only when
      every idle worker of another profile that matches the sources as well holds
      an only copy too; the pool's counts being exact, that is the true number. */
  lemma OnlyCopiesEvictedLast(x: Picture, i: nat, j: nat)
    requires Consistent(x) && PoolOk(x.pool) && Picked(x, i, |x.depths|) && CanTake(x, j)
    requires Evicts(x, i) && x.depths[i] == 0 && Multiplicity(x.pool.loaded, x.pool.loaded[i].value) <= 1
    requires Evicts(x, j) && x.depths[j] == 0 && ScoreOf(x, j).sourceMiss == ScoreOf(x, i).sourceMiss
    ensures Multiplicity(x.pool.loaded, x.pool.loaded[j].value) <= 1
  {
    hide Multiplicity;
    assert !ScoreLess(ScoreOf(x, j), ScoreOf(x, i));
    assert CountOk(x.pool.counts, x.pool.loaded, x.pool.loaded[i].value);
    assert CountOk(x.pool.counts, x.pool.loaded, x.pool.loaded[j].value);
  }

  /** One more task still leaves the queue within two thirds of the soft limit. */
  predicate Comfortable(bl: nat, depth: nat) {
    depth == 0 || 3 * (depth + 1) <= 2 * bl
  }

  lemma ComfortIsThreshold(bl: nat, depth: nat)
    ensures Comfortable(bl, depth) <==> depth < ExpandThreshold(bl)
  {
  }

  predicate WarmComfortable(x: Picture, i: nat)
    requires Consistent(x) && i < |x.depths|
  {
    x.pool.loaded[i] == Some(x.profile) && Comfortable(x.bl, x.depths[i])
  }

  /** Below two thirds of the soft limit a warm worker is always used, and among
      such workers one with the task's source, then the shortest queue. */
  lemma ComfortIsUsed(x: Picture, i: nat, j: nat)
    requires Consistent(x) && Picked(x, i, |x.depths|) && CanTake(x, j)
    requires WarmComfortable(x, j)
    ensures WarmComfortable(x, i)
    ensures x.source.Some? && x.source.value in x.pool.sourceIds[j] ==> x.source.value in x.pool.sourceIds[i]
    ensures (x.source.Some? ==> (x.source.value in x.pool.sourceIds[i] <==> x.source.value in x.pool.sourceIds[j])) ==>
              x.depths[i] <= x.depths[j]
  {
    ComfortIsThreshold(x.bl, x.depths[i]);
    ComfortIsThreshold(x.bl, x.depths[j]);
    assert !ScoreLess(ScoreOf(x, j), ScoreOf(x, i));
  }

  predicate WarmBelow(x: Picture, i: nat, limit: nat)
    requires Consistent(x) && i < |x.depths|
  {
    x.pool.loaded[i] == Some(x.profile) && x.depths[i] < limit
  }

  predicate Idle(x: Picture, i: nat)
    requires Consistent(x) && i < |x.depths|
  {
    x.depths[i] == 0
  }

  /** Who goes before whom, by what a worker holds and how long its queue is: warm with
      a comfortable queue, then fresh, then warm below the soft limit, then idle with
      another profile, then warm below the hard limit, then the rest. */
  lemma PreferenceOrder(x: Picture, i: nat, j: nat)
    requires Consistent(x) && Picked(x, i, |x.depths|) && CanTake(x, j)
    ensures WarmComfortable(x, j) ==> WarmComfortable(x, i)
    ensures x.pool.loaded[j].None? ==> WarmComfortable(x, i) || x.pool.loaded[i].None?
    ensures WarmBelow(x, j, x.bl) ==>
              WarmComfortable(x, i) || x.pool.loaded[i].None? || WarmBelow(x, i, x.bl)
    ensures Evicts(x, j) && Idle(x, j) ==>
              || WarmComfortable(x, i) || x.pool.loaded[i].None? || WarmBelow(x, i, x.bl)
              || (Evicts(x, i) && Idle(x, i))
    ensures WarmBelow(x, j, x.queueCapacity) ==> !Evicts(x, i) || Idle(x, i)
  {
    ComfortIsThreshold(x.bl, x.depths[i]);
    ComfortIsThreshold(x.bl, x.depths[j]);
    assert !ScoreLess(ScoreOf(x, j), ScoreOf(x, i));
  }

  /** Both stand in the same class of that order. */
  predicate Alike(x: Picture, i: nat, j: nat)
    requires Consistent(x) && i < |x.depths| && j < |x.depths|
  {
    || (WarmComfortable(x, i) && WarmComfortable(x, j))
    || (x.pool.loaded[i].None? && x.pool.loaded[j].None?)
    || (&& !WarmComfortable(x, i) && !WarmComfortable(x, j)
        && (x.pool.loaded[i] == Some(x.profile) && x.pool.loaded[j] == Some(x.profile))
        && (x.depths[i] < x.bl <==> x.depths[j] < x.bl))
    || (Evicts(x, i) && Evicts(x, j) && (Idle(x, i) <==> Idle(x, j)))
  }

  predicate HasSource(x: Picture, i: nat)
    requires Consistent(x) && i < |x.depths|
  {
    x.source.Some? ==> x.source.value in x.pool.sourceIds[i]
  }

  /** Among workers of one class the task's source decides, then the shorter queue. */
  lemma SourceThenQueue(x: Picture, i: nat, j: nat)
    requires Consistent(x) && Picked(x, i, |x.depths|) && CanTake(x, j) && Alike(x, i, j)
    ensures HasSource(x, j) ==> HasSource(x, i)
    ensures HasSource(x, j) == HasSource(x, i) ==> x.depths[i] <= x.depths[j]
  {
    ComfortIsThreshold(x.bl, x.depths[i]);
    ComfortIsThreshold(x.bl, x.depths[j]);
    assert !ScoreLess(ScoreOf(x, j), ScoreOf(x, i));
  }

  function Copies(x: Picture, i: nat): nat
    requires Consistent(x) && i < |x.depths| && x.pool.loaded[i].Some?
  {
    Multiplicity(x.pool.loaded, x.pool.loaded[i].value)
  }

  predicate SameShape(x: Picture, i: nat)
    requires Consistent(x) && i < |x.depths| && x.pool.loaded[i].Some?
  {
    x.pool.loaded[i].value.mode == x.profile.mode && x.pool.loaded[i].value.scale == x.profile.scale
  }

  /** Among idle workers to evict that match the source alike: one whose profile is
      loaded elsewhere too, then one of the task's shape, then the most copied profile,
      then the one never or least recently used. */
  lemma EvictionOrder(x: Picture, i: nat, j: nat)
    requires Consistent(x) && PoolOk(x.pool) && Picked(x, i, |x.depths|) && CanTake(x, j)
    requires Evicts(x, i) && Evicts(x, j) && Idle(x, i) && Idle(x, j) && HasSource(x, i) == HasSource(x, j)
    ensures Copies(x, j) > 1 ==> Copies(x, i) > 1
    ensures (Copies(x, i) > 1) == (Copies(x, j) > 1) ==> SameShape(x, j) ==> SameShape(x, i)
    ensures (Copies(x, i) > 1) == (Copies(x, j) > 1) && SameShape(x, i) == SameShape(x, j) ==>
              Copies(x, i) >= Copies(x, j)
    ensures Copies(x, i) == Copies(x, j) && SameShape(x, i) == SameShape(x, j) ==>
              var a, b := x.pool.lastUsed[i], x.pool.lastUsed[j];
              a.None? || (b.Some? && a.value <= b.value)
  {
    hide Multiplicity;
    assert !ScoreLess(ScoreOf(x, j), ScoreOf(x, i));
    assert CountOk(x.pool.counts, x.pool.loaded, x.pool.loaded[i].value);
    assert CountOk(x.pool.counts, x.pool.loaded, x.pool.loaded[j].value);
  }
}
