/** The pool-side prediction of what each worker is warm for, kept under one lock:
    loaded profiles with their multiplicities, dispatch generations, and a bounded
    recency list of add-layer sources per worker.
  */
module PoolState {
  import opened Text
  import opened Profiles

  const AFFINITY_CAPACITY: nat := 64

  datatype Pool = Pool(
    loaded: seq<Option<WorkerProfile>>, generations: seq<nat>, counts: map<WorkerProfile, nat>,
    lastUsed: seq<Option<nat>>, sourceIds: seq<set<string>>, sourceLru: seq<seq<string>>)

  predicate Sized(p: Pool) {
    |p.loaded| == |p.generations| == |p.lastUsed| == |p.sourceIds| == |p.sourceLru|
  }

  function NewPool(n: nat): Pool {
    Pool(seq(n, _ => None), seq(n, _ => 0), map[], seq(n, _ => None), seq(n, _ => {}), seq(n, _ => []))
  }

  // ---- Operations --------------------------------------------------------

  function Decrement(counts: map<WorkerProfile, nat>, profile: WorkerProfile): map<WorkerProfile, nat> {
    if profile !in counts then counts
    else if counts[profile] <= 1 then counts - {profile}
    else counts[profile := counts[profile] - 1]
  }

  function Increment(counts: map<WorkerProfile, nat>, profile: WorkerProfile): map<WorkerProfile, nat> {
    counts[profile := if profile in counts then counts[profile] + 1 else 1]
  }

  function Forget(counts: map<WorkerProfile, nat>, previous: Option<WorkerProfile>): map<WorkerProfile, nat> {
    if previous.Some? then Decrement(counts, previous.value) else counts
  }

  function MarkLoaded(p: Pool, i: nat, profile: WorkerProfile, now: nat): Pool
    requires Sized(p) && i < |p.loaded|
  {
    var same := p.loaded[i] == Some(profile);
    Pool(
      p.loaded[i := Some(profile)],
      p.generations[i := (p.generations[i] + 1) % U64],
      if same then p.counts else Increment(Forget(p.counts, p.loaded[i]), profile),
      p.lastUsed[i := Some(now)],
      if same then p.sourceIds else p.sourceIds[i := {}],
      if same then p.sourceLru else p.sourceLru[i := []])
  }

  function ClearLoaded(p: Pool, i: nat): Pool
    requires Sized(p) && i < |p.loaded|
  {
    Pool(p.loaded[i := None], p.generations, Forget(p.counts, p.loaded[i]), p.lastUsed[i := None],
         p.sourceIds[i := {}], p.sourceLru[i := []])
  }

  function ClearIfLatest(p: Pool, i: nat, generation: nat): Pool
    requires Sized(p) && i < |p.loaded|
  {
    if p.generations[i] == generation then ClearLoaded(p, i) else p
  }

  /** The recency list without one source. */
  function Without(lru: seq<string>, id: string): seq<string> {
    if lru == [] then []
    else if lru[0] == id then Without(lru[1..], id)
    else [lru[0]] + Without(lru[1..], id)
  }

  /** What the recency list becomes: the source moves to the back, and the oldest
      entry makes room when the list was full. */
  function Touched(lru: seq<string>, id: string): seq<string> {
    if id in lru then Without(lru, id) + [id]
    else if |lru| >= AFFINITY_CAPACITY then lru[|lru| - AFFINITY_CAPACITY + 1..] + [id]
    else lru + [id]
  }

  function Elements(s: seq<string>): set<string> {
    set x | x in s
  }

  function MarkSource(p: Pool, i: nat, id: string): Pool
    requires Sized(p) && i < |p.loaded|
  {
    var lru := Touched(p.sourceLru[i], id);
    p.(sourceIds := p.sourceIds[i := Elements(lru)], sourceLru := p.sourceLru[i := lru])
  }

  // ---- What every operation keeps ----------------------------------------

  /** How many workers are predicted to hold `profile`. */
  function Multiplicity(loaded: seq<Option<WorkerProfile>>, profile: WorkerProfile): nat {
    if loaded == [] then 0
    else Multiplicity(loaded[1..], profile) + (if loaded[0] == Some(profile) then 1 else 0)
  }

  predicate CountOk(counts: map<WorkerProfile, nat>, loaded: seq<Option<WorkerProfile>>, profile: WorkerProfile) {
    var n := Multiplicity(loaded, profile);
    (profile in counts <==> n > 0) && (profile in counts ==> counts[profile] == n)
  }

  /** `profile_counts` is the multiplicity map of `loaded`. */
  ghost predicate CountsExact(p: Pool) {
    forall profile :: CountOk(p.counts, p.loaded, profile)
  }

  predicate NoRepeats(s: seq<string>) {
    forall i, j | 0 <= i < j < |s| :: s[i] != s[j]
  }

  /** A worker's source set is exactly its recency list, without repeats and
      within the bound. */
  predicate AffinityOk(ids: set<string>, lru: seq<string>) {
    NoRepeats(lru) && |lru| <= AFFINITY_CAPACITY && ids == Elements(lru)
  }

  predicate AffinitiesOk(p: Pool)
    requires Sized(p)
  {
    forall i | 0 <= i < |p.sourceLru| :: AffinityOk(p.sourceIds[i], p.sourceLru[i])
  }

  ghost predicate PoolOk(p: Pool) {
    Sized(p) && CountsExact(p) && AffinitiesOk(p)
  }

  lemma NewPoolOk(n: nat)
    ensures PoolOk(NewPool(n)) && |NewPool(n).loaded| == n
  {
    forall profile ensures CountOk(map[], NewPool(n).loaded, profile) {
      NobodyLoaded(NewPool(n).loaded, profile);
    }
  }

  lemma {:induction false} NobodyLoaded(loaded: seq<Option<WorkerProfile>>, profile: WorkerProfile)
    requires forall i | 0 <= i < |loaded| :: loaded[i].None?
    ensures Multiplicity(loaded, profile) == 0
  {
    if loaded != [] {
      NobodyLoaded(loaded[1..], profile);
    }
  }

  lemma {:induction false} MultiplicityUpdate(
    loaded: seq<Option<WorkerProfile>>, i: nat, value: Option<WorkerProfile>, profile: WorkerProfile)
    requires i < |loaded|
    ensures Multiplicity(loaded[i := value], profile) + (if loaded[i] == Some(profile) then 1 else 0)
         == Multiplicity(loaded, profile) + (if value == Some(profile) then 1 else 0)
  {
    if i == 0 {
      assert loaded[0 := value][1..] == loaded[1..];
    } else {
      MultiplicityUpdate(loaded[1..], i - 1, value, profile);
      assert loaded[i := value][1..] == loaded[1..][i - 1 := value];
    }
  }

  lemma MarkLoadedKeeps(p: Pool, i: nat, profile: WorkerProfile, now: nat)
    requires PoolOk(p) && i < |p.loaded|
    ensures PoolOk(MarkLoaded(p, i, profile, now))
  {
    hide Multiplicity, AffinityOk;
    var q := MarkLoaded(p, i, profile, now);
    assert AffinityOk({}, []) by { EmptyAffinity(); }
    if p.loaded[i] == Some(profile) {
      assert q.loaded == p.loaded;
    }
    forall x ensures CountOk(q.counts, q.loaded, x) {
      assert CountOk(p.counts, p.loaded, x) && CountOk(p.counts, p.loaded, profile);
      MultiplicityUpdate(p.loaded, i, Some(profile), x);
      if p.loaded[i].Some? {
        assert CountOk(p.counts, p.loaded, p.loaded[i].value);
      }
    }
  }

  lemma EmptyAffinity()
    ensures AffinityOk({}, [])
  {
  }

  lemma ClearLoadedKeeps(p: Pool, i: nat)
    requires PoolOk(p) && i < |p.loaded|
    ensures PoolOk(ClearLoaded(p, i))
  {
    hide Multiplicity, AffinityOk;
    var q := ClearLoaded(p, i);
    EmptyAffinity();
    forall x ensures CountOk(q.counts, q.loaded, x) {
      assert CountOk(p.counts, p.loaded, x);
      MultiplicityUpdate(p.loaded, i, None, x);
    }
  }

  lemma {:induction false} WithoutIsFilter(lru: seq<string>, id: string)
    requires NoRepeats(lru)
    ensures NoRepeats(Without(lru, id)) && id !in Without(lru, id)
    ensures forall x :: x in Without(lru, id) <==> x in lru && x != id
    ensures |Without(lru, id)| == if id in lru then |lru| - 1 else |lru|
  {
    if lru != [] {
      WithoutIsFilter(lru[1..], id);
      assert lru == [lru[0]] + lru[1..];
      assert forall x | x in lru[1..] :: x != lru[0];
      assert forall x :: x in lru <==> x == lru[0] || x in lru[1..];
      assert lru[0] !in Without(lru[1..], id);
    }
  }

  /** Touching keeps the list duplicate-free and bounded, puts the source last,
      and forgets a source only when the list was full and the source new. */
  lemma TouchedKeeps(lru: seq<string>, id: string)
    requires NoRepeats(lru) && |lru| <= AFFINITY_CAPACITY
    ensures var t := Touched(lru, id); NoRepeats(t) && 0 < |t| <= AFFINITY_CAPACITY && t[|t| - 1] == id
    ensures var lost := if id !in lru && |lru| == AFFINITY_CAPACITY then {lru[0]} else {};
            forall x :: x in Touched(lru, id) <==> x == id || (x in lru && x !in lost)
  {
    WithoutIsFilter(lru, id);
    if lru != [] {
      assert lru == [lru[0]] + lru[1..];
      assert lru[0] !in lru[1..];
    }
    assert forall x :: x in Without(lru, id) + [id] <==> x in Without(lru, id) || x == id;
  }

  lemma MarkSourceKeeps(p: Pool, i: nat, id: string)
    requires PoolOk(p) && i < |p.loaded|
    ensures PoolOk(MarkSource(p, i, id))
  {
    hide Touched, CountOk;
    assert AffinityOk(p.sourceIds[i], p.sourceLru[i]);
    TouchedKeeps(p.sourceLru[i], id);
  }

  // ---- The mutable state -------------------------------------------------

  lemma {:induction false} ElementsCount(s: seq<string>)
    requires NoRepeats(s)
    ensures |Elements(s)| == |s|
  {
    if s != [] {
      ElementsCount(s[1..]);
      assert s == [s[0]] + s[1..];
      assert Elements(s) == Elements(s[1..]) + {s[0]};
      assert s[0] !in s[1..];
    }
  }

  lemma {:induction false} WithoutAppend(a: seq<string>, x: string, id: string)
    ensures Without(a + [x], id) == Without(a, id) + (if x == id then [] else [x])
  {
    if a == [] {
      assert a + [x] == [x];
      assert Without([x][1..], id) == [];
    } else {
      WithoutAppend(a[1..], x, id);
      assert (a + [x])[1..] == a[1..] + [x];
    }
  }

  /** `retain`: one pass that keeps everything but `id`, in order. */
  method Retain(lru: seq<string>, id: string) returns (kept: seq<string>)
    ensures kept == Without(lru, id)
  {
    kept := [];
    for n := 0 to |lru|
      invariant kept == Without(lru[..n], id)
    {
      WithoutAppend(lru[..n], lru[n], id);
      assert lru[..n + 1] == lru[..n] + [lru[n]];
      if lru[n] != id {
        kept := kept + [lru[n]];
      }
    }
    assert lru[..|lru|] == lru;
  }

  /** The eviction loop: drop from the front until a new source fits. */
  method EvictOldest(ids: set<string>, lru: seq<string>) returns (ids': set<string>, lru': seq<string>)
    requires AffinityOk(ids, lru)
    ensures lru' == (if |lru| >= AFFINITY_CAPACITY then lru[|lru| - AFFINITY_CAPACITY + 1..] else lru)
    ensures ids' == Elements(lru') && NoRepeats(lru')
  {
    ids', lru' := ids, lru;
    ghost var dropped := 0;
    ElementsCount(lru);
    while |ids'| >= AFFINITY_CAPACITY && lru' != []
      invariant dropped <= |lru| && lru' == lru[dropped..]
      invariant dropped > 0 ==> |lru| - dropped >= AFFINITY_CAPACITY - 1
      invariant NoRepeats(lru') && ids' == Elements(lru') && |ids'| == |lru'|
      decreases |lru'|
    {
      var evicted := lru'[0];
      assert lru' == [evicted] + lru'[1..] && evicted !in lru'[1..];
      assert Elements(lru'[1..]) == ids' - {evicted};
      ElementsCount(lru'[1..]);
      ids', lru' := ids' - {evicted}, lru'[1..];
      dropped := dropped + 1;
    }
  }

  /** `PoolState`, whose methods run under the pool lock. */
  class SharedPool {
    var loaded: seq<Option<WorkerProfile>>
    var generations: seq<nat>
    var counts: map<WorkerProfile, nat>
    var lastUsed: seq<Option<nat>>
    var sourceIds: seq<set<string>>
    var sourceLru: seq<seq<string>>

    ghost function View(): Pool
      reads this
    {
      Pool(loaded, generations, counts, lastUsed, sourceIds, sourceLru)
    }

    ghost predicate Valid()
      reads this
    {
      PoolOk(View())
    }

    constructor (n: nat)
      ensures Valid() && View() == NewPool(n)
    {
      loaded := seq(n, _ => None);
      generations := seq(n, _ => 0);
      counts := map[];
      lastUsed := seq(n, _ => None);
      sourceIds := seq(n, _ => {});
      sourceLru := seq(n, _ => []);
      new;
      NewPoolOk(n);
    }

    method DecrementProfileCount(profile: WorkerProfile)
      modifies this`counts
      ensures counts == Decrement(old(counts), profile)
    {
      if profile in counts {
        if counts[profile] <= 1 {
          counts := counts - {profile};
        } else {
          counts := counts[profile := counts[profile] - 1];
        }
      }
    }

    method MarkWorkerLoaded(i: nat, profile: WorkerProfile, now: nat) returns (generation: nat)
      requires Valid() && i < |loaded|
      modifies this
      ensures Valid() && View() == MarkLoaded(old(View()), i, profile, now) && generation == generations[i]
    {
      MarkLoadedKeeps(View(), i, profile, now);
      hide PoolOk, CountsExact, AffinitiesOk;
      assert Sized(View()) by { SizedIfOk(View()); }
      generation := (generations[i] + 1) % U64;
      generations := generations[i := generation];
      lastUsed := lastUsed[i := Some(now)];
      if loaded[i] == Some(profile) {
        assert loaded[i := Some(profile)] == loaded;
        return;
      }
      if loaded[i].Some? {
        DecrementProfileCount(loaded[i].value);
      }
      sourceIds, sourceLru := sourceIds[i := {}], sourceLru[i := []];
      counts := counts[profile := if profile in counts then counts[profile] + 1 else 1];
      loaded := loaded[i := Some(profile)];
    }

    method ClearWorkerIfLatest(i: nat, generation: nat)
      requires Valid() && i < |loaded|
      modifies this
      ensures Valid() && View() == ClearIfLatest(old(View()), i, generation)
    {
      ClearLoadedKeeps(View(), i);
      hide PoolOk, CountsExact, AffinitiesOk;
      assert Sized(View()) by { SizedIfOk(View()); }
      if generations[i] == generation {
        if loaded[i].Some? {
          DecrementProfileCount(loaded[i].value);
        }
        loaded, lastUsed := loaded[i := None], lastUsed[i := None];
        sourceIds, sourceLru := sourceIds[i := {}], sourceLru[i := []];
      }
    }

    method MarkAddlayerSource(i: nat, id: string)
      requires Valid() && i < |loaded|
      modifies this`sourceIds, this`sourceLru
      ensures Valid() && View() == MarkSource(old(View()), i, id)
    {
      MarkSourceKeeps(View(), i, id);
      assert AffinityOk(sourceIds[i], sourceLru[i]);
      hide PoolOk, CountsExact, AffinitiesOk;
      assert Sized(View()) by { SizedIfOk(View()); }
      var ids, lru := sourceIds[i], sourceLru[i];
      if id in ids {
        assert id in lru;
        ghost var before := lru;
        lru := Retain(lru, id);
        WithoutIsFilter(before, id);
        lru := lru + [id];
        assert Elements(lru) == ids;
      } else {
        ids, lru := EvictOldest(ids, lru);
        ids, lru := ids + {id}, lru + [id];
        assert Elements(lru) == ids;
      }
      sourceIds, sourceLru := sourceIds[i := ids], sourceLru[i := lru];
    }
  }

  lemma SizedIfOk(p: Pool)
    requires PoolOk(p)
    ensures Sized(p)
  {
  }
}
