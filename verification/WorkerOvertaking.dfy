/** Why the order of sends matters: two commands marked for one worker and sent
    in the other order leave a false prediction behind. */
module WorkerOvertaking {
  import opened Text
  import opened Profiles
  import opened PoolState
  import opened WorkerProtocol
  import opened WorkerWarmth

  lemma {:induction false} Continue(w: World, a: seq<Event>, b: seq<Event>)
    requires Shaped(w) && Legal(w, a) && Shaped(Run(w, a)) && Legal(Run(w, a), b)
    ensures Legal(w, a + b) && Run(w, a + b) == Run(Run(w, a), b)
    decreases |a|
  {
    hide Apply, Possible, Shaped;
    if a == [] {
      assert a + b == b;
    } else {
      StaysShaped(w, a[0]);
      Continue(Apply(w, a[0]), a[1..], b);
      assert (a + b)[0] == a[0] && (a + b)[1..] == a[1..] + b;
    }
  }

  lemma Then(w: World, run: seq<Event>, e: Event) returns (longer: seq<Event>)
    requires Shaped(w) && Legal(w, run) && Shaped(Run(w, run)) && Possible(Run(w, run), e)
    ensures Legal(w, longer) && Run(w, longer) == Apply(Run(w, run), e) && Shaped(Run(w, longer))
  {
    hide Apply, Possible, Shaped;
    var v := Run(w, run);
    StaysShaped(v, e);
    assert [e][1..] == [] && Legal(Apply(v, e), []);
    assert Legal(v, [e]) && Run(v, [e]) == Apply(v, e);
    Continue(w, run, [e]);
    longer := run + [e];
  }

  /** An idle worker with nothing queued. */
  predicate Free(w: World, i: nat) {
    && Shaped(w) && i < |w.workers| && w.workers[i].pc.Idle? && w.workers[i].queue == []
    && w.workers[i].open && w.workers[i].available
  }

  predicate Marked(w: World, i: nat, t: TicketId) {
    At(w, t) && w.issued[t].worker == i && w.tickets[t].AtSender?
  }

  /** What serving one marked command to completion changes. */
  predicate ServedBy(w: World, v: World, i: nat, t: TicketId)
    requires Free(w, i) && Marked(w, i, t)
  {
    && Free(v, i) && v.pool == w.pool && v.issued == w.issued && v.calls.Keys == w.calls.Keys
    && v.tickets == w.tickets - {t}
    && |v.workers| == |w.workers|
    && v.workers[i].depth == w.workers[i].depth - 1 && v.workers[i].current == Some(w.issued[t].job)
  }

  lemma Empty(w: World)
    requires Shaped(w)
    ensures Legal(w, []) && Run(w, []) == w
  {
  }

  /** How far the command has come, relative to the state it was marked in. */
  predicate Progress(w: World, v: World, i: nat, t: TicketId, phase: Phase, pc: WorkerPc, queue: seq<TicketId>) {
    && Shaped(w) && Shaped(v) && v.pool == w.pool && v.issued == w.issued && v.calls.Keys == w.calls.Keys
    && v.tickets == w.tickets[t := phase] && |v.workers| == |w.workers|
    && i < |w.workers| && v.workers[i].pc == pc && v.workers[i].queue == queue
    && v.workers[i].open && v.workers[i].available && v.workers[i].depth == w.workers[i].depth
    && At(w, t) && w.issued[t].worker == i
  }

  predicate HasJob(w: World, v: World, i: nat, t: TicketId) {
    t in w.issued && i < |v.workers| && v.workers[i].current == Some(w.issued[t].job)
  }

  lemma Sending(w: World, i: nat, t: TicketId) returns (g: nat)
    requires Free(w, i) && Marked(w, i, t)
    ensures Possible(w, Send(t)) && Progress(w, Apply(w, Send(t)), i, t, Queued(g), Idle, [t])
  {
    hide PoolAfter;
    g := GenerationOf(w, t);
    StaysShaped(w, Send(t));
    assert w.workers[i].queue + [t] == [t];
    assert PoolAfter(w, Send(t)) == w.pool by { SamePool(w, Send(t)); }
  }

  lemma SamePool(w: World, e: Event)
    requires Shaped(w) && Possible(w, e) && !e.Mark? && !e.Clear?
    ensures PoolAfter(w, e) == w.pool
  {
  }

  lemma Dequeuing(w: World, v: World, i: nat, t: TicketId, g: nat)
    requires Progress(w, v, i, t, Queued(g), Idle, [t])
    ensures Possible(v, Dequeue(i)) && Progress(w, Apply(v, Dequeue(i)), i, t, Taken(g), Checking(t), [])
  {
    hide PoolAfter;
    StaysShaped(v, Dequeue(i));
    SamePool(v, Dequeue(i));
    assert [t][1..] == [];
  }

  lemma Accepting(w: World, v: World, i: nat, t: TicketId, g: nat)
    requires Progress(w, v, i, t, Taken(g), Checking(t), [])
    ensures Possible(v, Accept(i)) && Progress(w, Apply(v, Accept(i)), i, t, Taken(g), Staging(t, Begin, true), [])
  {
    hide PoolAfter;
    StaysShaped(v, Accept(i));
    SamePool(v, Accept(i));
  }

  lemma SettingUp(w: World, v: World, i: nat, t: TicketId, g: nat)
    requires Progress(w, v, i, t, Taken(g), Staging(t, Begin, true), [])
    ensures Possible(v, SetUp(i)) && Progress(w, Apply(v, SetUp(i)), i, t, Taken(g), Staging(t, Ready, true), [])
    ensures HasJob(w, Apply(v, SetUp(i)), i, t)
  {
    hide PoolAfter;
    StaysShaped(v, SetUp(i));
    SamePool(v, SetUp(i));
  }

  lemma RenderStarts(w: World, v: World, i: nat, t: TicketId, g: nat)
    requires Progress(w, v, i, t, Taken(g), Staging(t, Ready, true), []) && HasJob(w, v, i, t)
    ensures Possible(v, StartRender(i))
    ensures Progress(w, Apply(v, StartRender(i)), i, t, Taken(g), Staging(t, Rendering, true), [])
    ensures HasJob(w, Apply(v, StartRender(i)), i, t)
  {
    hide PoolAfter;
    StaysShaped(v, StartRender(i));
    SamePool(v, StartRender(i));
  }

  lemma Completes(w: World, v: World, i: nat, t: TicketId, g: nat)
    requires Progress(w, v, i, t, Taken(g), Staging(t, Rendering, true), []) && HasJob(w, v, i, t)
    ensures Possible(v, StageEnds(i, Completed, false))
    ensures Progress(w, Apply(v, StageEnds(i, Completed, false)), i, t, Settling,
                     Answering(t, Some(Finished(Completed))), [])
    ensures HasJob(w, Apply(v, StageEnds(i, Completed, false)), i, t)
  {
    hide PoolAfter;
    StaysShaped(v, StageEnds(i, Completed, false));
    SamePool(v, StageEnds(i, Completed, false));
  }

  lemma GivesBack(w: World, v: World, i: nat, t: TicketId, answer: Option<Answer>)
    requires Free(w, i) && Marked(w, i, t)
    requires Progress(w, v, i, t, Settling, Answering(t, answer), []) && HasJob(w, v, i, t)
    ensures Possible(v, Release(t)) && Shaped(Apply(v, Release(t))) && Possible(Apply(v, Release(t)), Reply(i))
    ensures ServedBy(w, Apply(Apply(v, Release(t)), Reply(i)), i, t)
  {
    hide PoolAfter;
    StaysShaped(v, Release(t));
    SamePool(v, Release(t));
    var u := Apply(v, Release(t));
    assert u.tickets == w.tickets - {t};
    StaysShaped(u, Reply(i));
    SamePool(u, Reply(i));
  }

  lemma Serve(w: World, i: nat, t: TicketId) returns (run: seq<Event>)
    requires Free(w, i) && Marked(w, i, t)
    ensures Legal(w, run) && Shaped(Run(w, run)) && ServedBy(w, Run(w, run), i, t)
  {
    hide Run, Legal, Possible, Apply, Progress, HasJob, ServedBy;
    Empty(w);
    var g := Sending(w, i, t);
    run := Then(w, [], Send(t));
    Dequeuing(w, Run(w, run), i, t, g);
    run := Then(w, run, Dequeue(i));
    Accepting(w, Run(w, run), i, t, g);
    run := Then(w, run, Accept(i));
    SettingUp(w, Run(w, run), i, t, g);
    run := Then(w, run, SetUp(i));
    RenderStarts(w, Run(w, run), i, t, g);
    run := Then(w, run, StartRender(i));
    Completes(w, Run(w, run), i, t, g);
    run := Then(w, run, StageEnds(i, Completed, false));
    GivesBack(w, Run(w, run), i, t, Some(Finished(Completed)));
    run := Then(w, run, Release(t));
    run := Then(w, run, Reply(i));
  }

  /** Two marked commands, served to completion one after the other, end with an
      idle worker whose prediction is true exactly when the one served last is
      for the predicted profile. Sent in generation order it is; sent the other
      way, for another profile, it is not. */
  lemma OrderDecides(w: World, i: nat, first: TicketId, second: TicketId) returns (run: seq<Event>)
    requires Free(w, i) && Marked(w, i, first) && Marked(w, i, second) && first != second
    requires w.workers[i].depth == 2 && w.pool.loaded[i].Some?
    ensures Legal(w, run) && Shaped(Run(w, run)) && i < |Run(w, run).workers| && Run(w, run).workers[i].depth == 0
    ensures Agrees(Run(w, run), i) <==> w.issued[second].job.profile == w.pool.loaded[i].value
  {
    hide Run, Legal, Possible, Apply;
    run := Serve(w, i, first);
    var v := Run(w, run);
    assert Marked(v, i, second);
    var rest := Serve(v, i, second);
    Continue(w, run, rest);
    run := run + rest;
  }

  // ---- The failing state is reachable ------------------------------------

  predicate CanDispatch(w: World, i: nat, c: CallId, t: TicketId) {
    && Shaped(w) && i < |w.workers| && w.workers[i].available && w.workers[i].depth < w.capacity
    && c !in w.calls && t !in w.issued && t !in w.tickets && w.pool.generations[i] + 1 < U64
  }

  /** Everything about a dispatch before the mark, by the call's phase. */
  function Underway(w: World, i: nat, c: CallId, job: Job, phase: CallPhase): World {
    w.(calls := w.calls[c := Call(job, phase, None, 0)])
  }

  function Reserved(w: World, i: nat, c: CallId, t: TicketId, job: Job, phase: Phase): World
    requires i < |w.workers|
  {
    w.(calls := w.calls[c := Call(job, Holding(t), Some(t), 0)],
       tickets := w.tickets[t := phase],
       issued := w.issued[t := Issue(c, i, job)],
       workers := w.workers[i := w.workers[i].(depth := w.workers[i].depth + 1)])
  }

  function Dispatched(w: World, i: nat, c: CallId, t: TicketId, job: Job): World
    requires Shaped(w) && i < |w.workers|
  {
    Reserved(w, i, c, t, job, AtSender(w.pool.generations[i] + 1)).(pool := MarkLoaded(w.pool, i, job.profile, 0))
  }

  lemma Reaches(w: World, i: nat, c: CallId, t: TicketId, job: Job)
    requires CanDispatch(w, i, c, t)
    ensures var u := Underway(w, i, c, job, Picking); Possible(w, Arrive(c, job)) && Apply(w, Arrive(c, job)) == u
    ensures var u, v := Underway(w, i, c, job, Picking), Underway(w, i, c, job, Probing(i));
            Possible(u, Probe(c, i)) && Apply(u, Probe(c, i)) == v
    ensures var u, v := Underway(w, i, c, job, Probing(i)), Underway(w, i, c, job, Reading(i, w.workers[i].depth));
            Possible(u, LoadDepth(c)) && Apply(u, LoadDepth(c)) == v
  {
  }

  lemma Reserves(w: World, i: nat, c: CallId, t: TicketId, job: Job)
    requires CanDispatch(w, i, c, t)
    ensures var u := Underway(w, i, c, job, Reading(i, w.workers[i].depth));
            Possible(u, CompareExchange(c, t, false)) &&
            Apply(u, CompareExchange(c, t, false)) == Reserved(w, i, c, t, job, Rechecking)
  {
    hide PoolAfter;
    var u := Underway(w, i, c, job, Reading(i, w.workers[i].depth));
    SamePool(u, CompareExchange(c, t, false));
  }

  lemma Marks(w: World, i: nat, c: CallId, t: TicketId, job: Job)
    requires CanDispatch(w, i, c, t)
    ensures var u, v := Reserved(w, i, c, t, job, Rechecking), Reserved(w, i, c, t, job, Confirmed);
            Possible(u, Recheck(t)) && Apply(u, Recheck(t)) == v
    ensures var u, v := Reserved(w, i, c, t, job, Confirmed), Dispatched(w, i, c, t, job);
            Possible(u, Mark(t, None, 0)) && Apply(u, Mark(t, None, 0)) == v
  {
    hide MarkLoaded;
  }

  lemma Dispatch(w: World, i: nat, c: CallId, t: TicketId, job: Job) returns (run: seq<Event>)
    requires CanDispatch(w, i, c, t)
    ensures Legal(w, run) && Run(w, run) == Dispatched(w, i, c, t, job) && Shaped(Run(w, run))
  {
    hide Run, Legal, Possible, Apply, Dispatched, Reserved, Underway;
    Reaches(w, i, c, t, job);
    Reserves(w, i, c, t, job);
    Marks(w, i, c, t, job);
    Empty(w);
    run := Then(w, [], Arrive(c, job));
    run := Then(w, run, Probe(c, i));
    run := Then(w, run, LoadDepth(c));
    run := Then(w, run, CompareExchange(c, t, false));
    run := Then(w, run, Recheck(t));
    run := Then(w, run, Mark(t, None, 0));
  }

  /** From every fresh pool with an available worker and room for two, there is a
      run after which the worker is idle and holds another profile than predicted. */
  lemma OvertakingHappens(init: World, i: nat, early: Job, late: Job) returns (run: seq<Event>)
    requires Init(init) && Shaped(init) && i < |init.workers| && init.workers[i].available && init.capacity >= 2
    requires early.profile != late.profile
    ensures Legal(init, run) && Shaped(Run(init, run)) && i < |Run(init, run).workers|
    ensures Run(init, run).workers[i].depth == 0 && !Agrees(Run(init, run), i)
  {
    hide Run, Legal, Possible, Apply;
    assert IdleWorker(init.workers[i]);
    run := Dispatch(init, i, 0, 0, early);
    var v := Run(init, run);
    assert CanDispatch(v, i, 1, 1);
    var more := Dispatch(v, i, 1, 1, late);
    Continue(init, run, more);
    run := run + more;
    var w := Run(init, run);
    assert Free(w, i) && Marked(w, i, 0) && Marked(w, i, 1);
    var rest := OrderDecides(w, i, 1, 0);
    Continue(init, run, rest);
    run := run + rest;
  }
}
