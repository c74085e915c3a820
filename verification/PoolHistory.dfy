/** The pool's state as a summary of what was done to it: for every sequence of marks
    and clears, what the pool predicts of a worker is read off that worker's own
    history.
  */
module PoolHistory {
  import opened Text
  import opened Profiles
  import opened PoolState
  import SourceCache
  import Worker = WorkerProtocol

  /** A dispatch marks its worker, with the add-layer source it carries; a dropped
      completion clears the worker under the generation it was given. */
  datatype Op =
    | Mark(worker: nat, profile: WorkerProfile, source: Option<string>, now: nat)
    | Clear(worker: nat, generation: nat)

  function ApplyOp(p: Pool, op: Op): Pool
    requires Sized(p) && op.worker < |p.loaded|
  {
    match op
    case Mark(i, profile, source, now) =>
      var marked := MarkLoaded(p, i, profile, now);
      if source.Some? then MarkSource(marked, i, source.value) else marked
    case Clear(i, generation) => ClearIfLatest(p, i, generation)
  }

  predicate Within(n: nat, ops: seq<Op>) {
    forall k | 0 <= k < |ops| :: ops[k].worker < n
  }

  function After(n: nat, ops: seq<Op>): (p: Pool)
    requires Within(n, ops)
    ensures Sized(p) && |p.loaded| == n
  {
    if ops == [] then NewPool(n) else ApplyOp(After(n, ops[..|ops| - 1]), ops[|ops| - 1])
  }

  // ---- Reading a worker's history ----------------------------------------

  predicate Marks(op: Op, i: nat) {
    op.Mark? && op.worker == i
  }

  /** How often a worker was dispatched to. */
  function Dispatches(ops: seq<Op>, i: nat): nat {
    if ops == [] then 0
    else Dispatches(ops[..|ops| - 1], i) + (if Marks(ops[|ops| - 1], i) then 1 else 0)
  }

  /** Step `k` is the worker's latest dispatch. */
  predicate Latest(ops: seq<Op>, i: nat, k: nat) {
    k < |ops| && Marks(ops[k], i) && forall m | k < m < |ops| :: !Marks(ops[m], i)
  }

  /** After step `k` the worker was cleared for its latest dispatch. */
  predicate ClearedSince(ops: seq<Op>, i: nat, k: nat) {
    exists m :: k < m < |ops| && ops[m] == Clear(i, Dispatches(ops, i) % U64)
  }

  predicate Dispatched(ops: seq<Op>, i: nat) {
    exists k :: 0 <= k < |ops| && Marks(ops[k], i)
  }

  /** What the history predicts: the profile of the latest dispatch, unless that very
      dispatch was cleared. */
  ghost predicate Predicts(ops: seq<Op>, i: nat, loaded: Option<WorkerProfile>, lastUsed: Option<nat>) {
    && (!Dispatched(ops, i) ==> loaded.None? && lastUsed.None?)
    && forall k: nat | Latest(ops, i, k) ::
         if ClearedSince(ops, i, k) then loaded.None? && lastUsed.None?
         else loaded == Some(ops[k].profile) && lastUsed == Some(ops[k].now)
  }

  // ---- One more step -----------------------------------------------------

  lemma LatestStep(ops: seq<Op>, op: Op, i: nat, k: nat)
    ensures Marks(op, i) ==> (Latest(ops + [op], i, k) <==> k == |ops|)
    ensures !Marks(op, i) ==> (Latest(ops + [op], i, k) <==> Latest(ops, i, k))
  {
    var more := ops + [op];
    assert more[|ops|] == op;
    if Latest(more, i, k) && k < |ops| {
      forall m | k < m < |ops| ensures !Marks(ops[m], i) {
        assert more[m] == ops[m];
      }
    }
  }

  lemma ClearedStep(ops: seq<Op>, op: Op, i: nat, k: nat)
    requires !Marks(op, i) && k < |ops|
    ensures ClearedSince(ops + [op], i, k) <==>
              ClearedSince(ops, i, k) || op == Clear(i, Dispatches(ops, i) % U64)
  {
    var more := ops + [op];
    assert more[..|ops|] == ops && more[|ops|] == op;
    if m :| k < m < |more| && more[m] == Clear(i, Dispatches(more, i) % U64) {
      assert m < |ops| ==> ops[m] == more[m];
    }
    if m :| k < m < |ops| && ops[m] == Clear(i, Dispatches(ops, i) % U64) {
      assert more[m] == ops[m];
    }
  }

  lemma DispatchedStep(ops: seq<Op>, op: Op, i: nat)
    ensures Dispatched(ops + [op], i) <==> Dispatched(ops, i) || Marks(op, i)
  {
    var more := ops + [op];
    assert more[|ops|] == op;
    if k :| 0 <= k < |more| && Marks(more[k], i) {
      assert k < |ops| ==> Marks(ops[k], i);
    }
    if k :| 0 <= k < |ops| && Marks(ops[k], i) {
      assert Marks(more[k], i);
    }
  }

  lemma PredictsStep(ops: seq<Op>, op: Op, i: nat, loaded: Option<WorkerProfile>, lastUsed: Option<nat>)
    requires Predicts(ops, i, loaded, lastUsed)
    ensures Marks(op, i) ==> Predicts(ops + [op], i, Some(op.profile), Some(op.now))
    ensures op == Clear(i, Dispatches(ops, i) % U64) ==> Predicts(ops + [op], i, None, None)
    ensures !Marks(op, i) && op != Clear(i, Dispatches(ops, i) % U64) ==> Predicts(ops + [op], i, loaded, lastUsed)
  {
    hide Latest, ClearedSince, Dispatched;
    var more := ops + [op];
    DispatchedStep(ops, op, i);
    forall k: nat | Latest(more, i, k)
      ensures Marks(op, i) ==> k == |ops| && !ClearedSince(more, i, k)
      ensures !Marks(op, i) ==>
                && k < |ops| && Latest(ops, i, k) && more[k] == ops[k]
                && (ClearedSince(more, i, k) <==> ClearedSince(ops, i, k) || op == Clear(i, Dispatches(ops, i) % U64))
    {
      LatestStep(ops, op, i, k);
      if Marks(op, i) {
        NothingAfter(more, i);
      } else {
        LatestBound(ops, i, k);
        ClearedStep(ops, op, i, k);
      }
    }
  }

  lemma LatestBound(ops: seq<Op>, i: nat, k: nat)
    requires Latest(ops, i, k)
    ensures k < |ops|
  {}

  lemma NothingAfter(ops: seq<Op>, i: nat)
    requires ops != []
    ensures !ClearedSince(ops, i, |ops| - 1)
  {}

  lemma WorkerAfter(n: nat, ops: seq<Op>, i: nat)
    requires Within(n, ops) && ops != [] && i < n
    ensures
      var op, q, p := ops[|ops| - 1], After(n, ops[..|ops| - 1]), After(n, ops);
      && p.generations[i] == (if Marks(op, i) then (q.generations[i] + 1) % U64 else q.generations[i])
      && (p.loaded[i], p.lastUsed[i]) ==
           (if Marks(op, i) then (Some(op.profile), Some(op.now))
            else if op == Clear(i, q.generations[i]) then (None, None)
            else (q.loaded[i], q.lastUsed[i]))
  {
    hide Touched, Increment, Forget;
  }

  /** For every history: a worker's generation is the number of its dispatches, and the
      pool predicts for it, and dates, exactly the latest of them, unless that very
      dispatch was cleared; clears for earlier dispatches change nothing. */
  lemma {:induction false} PredictionIsLatestDispatch(n: nat, ops: seq<Op>, i: nat)
    requires Within(n, ops) && i < n
    ensures After(n, ops).generations[i] == Dispatches(ops, i) % U64
    ensures Predicts(ops, i, After(n, ops).loaded[i], After(n, ops).lastUsed[i])
  {
    hide ApplyOp, Predicts;
    if ops == [] {
      NothingPredicted(n, i);
    } else {
      var before, op := ops[..|ops| - 1], ops[|ops| - 1];
      assert ops == before + [op];
      PredictionIsLatestDispatch(n, before, i);
      WorkerAfter(n, ops, i);
      PredictsStep(before, op, i, After(n, before).loaded[i], After(n, before).lastUsed[i]);
    }
  }

  lemma NothingPredicted(n: nat, i: nat)
    requires i < n
    ensures Predicts([], i, NewPool(n).loaded[i], NewPool(n).lastUsed[i]) && NewPool(n).generations[i] == 0
  {}

  // ---- Sources -----------------------------------------------------------

  /** Every source a worker was given since it last changed its predicted profile, in
      the order they came. */
  function Given(n: nat, ops: seq<Op>, i: nat): seq<string>
    requires Within(n, ops) && i < n
  {
    if ops == [] then []
    else
      var before, op := ops[..|ops| - 1], ops[|ops| - 1];
      if Marks(op, i) then
        var kept := if After(n, before).loaded[i] == Some(op.profile) then Given(n, before, i) else [];
        if op.source.Some? then kept + [op.source.value] else kept
      else if After(n, before).loaded[i].Some? && After(n, ops).loaded[i].None? then []
      else Given(n, before, i)
  }

  lemma {:induction false} WithoutIsRemove(lru: seq<string>, id: string)
    requires NoRepeats(lru)
    ensures Without(lru, id) == SourceCache.Remove(lru, id)
  {
    if lru != [] {
      assert forall x | x in lru[1..] :: x != lru[0];
      WithoutIsRemove(lru[1..], id);
      if lru[0] == id {
        SourceCache.RemoveAbsent(lru[1..], id);
      }
    }
  }

  /** Touching a list within the bound is touching it without a bound, then cutting. */
  lemma TouchedIsTouch(lru: seq<string>, id: string)
    requires NoRepeats(lru) && |lru| <= AFFINITY_CAPACITY
    ensures Touched(lru, id) == SourceCache.LastOf(SourceCache.Remove(lru, id) + [id], AFFINITY_CAPACITY)
  {
    hide Without, SourceCache.Remove;
    WithoutIsRemove(lru, id);
    WithoutIsFilter(lru, id);
    if id !in lru {
      SourceCache.RemoveAbsent(lru, id);
    }
  }

  lemma TouchRecent(given: seq<string>, lru: seq<string>, id: string)
    requires lru == SourceCache.LastOf(SourceCache.Recency(given), AFFINITY_CAPACITY) && NoRepeats(lru)
    ensures Touched(lru, id) == SourceCache.LastOf(SourceCache.Recency(given + [id]), AFFINITY_CAPACITY)
  {
    hide Touched, SourceCache.Remove;
    SourceCache.RecencyIs(given);
    TouchedIsTouch(lru, id);
    SourceCache.TouchCommutes(SourceCache.Recency(given), id, AFFINITY_CAPACITY);
    assert (given + [id])[..|given|] == given;
  }

  lemma SourcesAfter(n: nat, ops: seq<Op>, i: nat)
    requires Within(n, ops) && ops != [] && i < n
    requires After(n, ops[..|ops| - 1]).loaded[i].None? ==> After(n, ops[..|ops| - 1]).sourceLru[i] == []
    ensures
      var op, q, p := ops[|ops| - 1], After(n, ops[..|ops| - 1]), After(n, ops);
      && (Marks(op, i) ==>
            var kept := if q.loaded[i] == Some(op.profile) then q.sourceLru[i] else [];
            p.sourceLru[i] == if op.source.Some? then Touched(kept, op.source.value) else kept)
      && (!Marks(op, i) ==>
            p.sourceLru[i] == if q.loaded[i].Some? && p.loaded[i].None? then [] else q.sourceLru[i])
      && (p.loaded[i].None? ==> p.sourceLru[i] == [])
  {
    hide Touched, Increment, Forget;
  }

  /** For every history: the sources credited to a worker are exactly the most recent
      ones it was given since it last changed its predicted profile, up to the bound. */
  lemma {:induction false} AffinityIsRecent(n: nat, ops: seq<Op>, i: nat)
    requires Within(n, ops) && i < n
    ensures
      var p := After(n, ops);
      && p.sourceLru[i] == SourceCache.LastOf(SourceCache.Recency(Given(n, ops, i)), AFFINITY_CAPACITY)
      && PoolOk(p) && p.sourceIds[i] == Elements(p.sourceLru[i])
      && (p.loaded[i].None? ==> p.sourceLru[i] == [])
  {
    hide PoolOk, Touched, SourceCache.Recency, SourceCache.LastOf;
    if ops == [] {
      NewPoolOk(n);
      NothingRecent();
    } else {
      var before, op := ops[..|ops| - 1], ops[|ops| - 1];
      AffinityIsRecent(n, before, i);
      StaysOk(n, ops);
      SourcesAfter(n, ops, i);
      ListsOk(After(n, before), i);
      NothingRecent();
      if Marks(op, i) && op.source.Some? {
        if After(n, before).loaded[i] == Some(op.profile) {
          TouchRecent(Given(n, before, i), After(n, before).sourceLru[i], op.source.value);
        } else {
          TouchRecent([], [], op.source.value);
        }
      }
      ListsOk(After(n, ops), i);
    }
  }

  lemma NothingRecent()
    ensures SourceCache.LastOf(SourceCache.Recency<string>([]), AFFINITY_CAPACITY) == []
  {}

  lemma ListsOk(p: Pool, i: nat)
    requires PoolOk(p) && i < |p.loaded|
    ensures NoRepeats(p.sourceLru[i]) && p.sourceIds[i] == Elements(p.sourceLru[i])
  {
    assert AffinityOk(p.sourceIds[i], p.sourceLru[i]);
  }

  lemma StaysOk(n: nat, ops: seq<Op>)
    requires Within(n, ops) && ops != [] && PoolOk(After(n, ops[..|ops| - 1]))
    ensures PoolOk(After(n, ops))
  {
    hide PoolOk, MarkLoaded, MarkSource, ClearLoaded;
    var q, op := After(n, ops[..|ops| - 1]), ops[|ops| - 1];
    match op
    case Mark(i, profile, source, now) =>
      MarkLoadedKeeps(q, i, profile, now);
      var marked := MarkLoaded(q, i, profile, now);
      SizedIfOk(marked);
      if source.Some? {
        assert |marked.loaded| == n by { StillSized(q, i, profile, now); }
        MarkSourceKeeps(marked, i, source.value);
      }
    case Clear(i, generation) => ClearLoadedKeeps(q, i);
  }

  lemma StillSized(p: Pool, i: nat, profile: WorkerProfile, now: nat)
    requires Sized(p) && i < |p.loaded|
    ensures |MarkLoaded(p, i, profile, now).loaded| == |p.loaded|
  {}

  // ---- The pool of the worker protocol -----------------------------------

  /** What a step of the protocol does to the pool. */
  function OpOf(w: Worker.World, e: Worker.Event): Option<Op>
    requires Worker.Possible(w, e)
  {
    match e
    case Mark(t, source, now) => Some(Mark(w.issued[t].worker, w.issued[t].job.profile, source, now))
    case Clear(t) => Some(Clear(w.issued[t].worker, Worker.GenerationOf(w, t)))
    case _ => None
  }

  lemma StepIsOp(w: Worker.World, e: Worker.Event)
    requires Worker.Shaped(w) && Worker.Possible(w, e)
    ensures OpOf(w, e).Some? ==> OpOf(w, e).value.worker < |w.pool.loaded|
    ensures Worker.PoolAfter(w, e) == if OpOf(w, e).Some? then ApplyOp(w.pool, OpOf(w, e).value) else w.pool
  {
    hide MarkLoaded, MarkSource, ClearIfLatest, Worker.GenerationOf;
  }

  lemma AfterOp(n: nat, ops: seq<Op>, op: Op)
    requires Within(n, ops) && op.worker < n
    ensures Within(n, ops + [op]) && After(n, ops + [op]) == ApplyOp(After(n, ops), op)
  {
    assert (ops + [op])[..|ops|] == ops;
  }

  lemma {:induction false} RunIsHistory(w: Worker.World, run: seq<Worker.Event>, before: seq<Op>)
    returns (ops: seq<Op>)
    requires Worker.Shaped(w) && Worker.Legal(w, run) && Within(|w.workers|, before)
    requires w.pool == After(|w.workers|, before)
    ensures Within(|w.workers|, ops) && Worker.Run(w, run).pool == After(|w.workers|, ops)
    decreases |run|
  {
    hide ApplyOp, After, Worker.Possible, OpOf, Worker.PoolAfter;
    if run == [] {
      ops := before;
    } else {
      Worker.StaysShaped(w, run[0]);
      StepIsOp(w, run[0]);
      ops := before;
      if OpOf(w, run[0]).Some? {
        AfterOp(|w.workers|, before, OpOf(w, run[0]).value);
        ops := before + [OpOf(w, run[0]).value];
      }
      ops := RunIsHistory(Worker.Apply(w, run[0]), run[1..], ops);
    }
  }

  /** In every run of the worker protocol the pool is such a summary, so the results
      above hold of it. */
  lemma PoolIsHistory(init: Worker.World, run: seq<Worker.Event>) returns (ops: seq<Op>)
    requires Worker.Init(init) && Worker.Shaped(init) && Worker.Legal(init, run)
    ensures Within(|init.workers|, ops) && Worker.Run(init, run).pool == After(|init.workers|, ops)
  {
    hide Worker.Run, Worker.Legal;
    ops := RunIsHistory(init, run, []);
  }
}
