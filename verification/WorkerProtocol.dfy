/** The worker pool and its worker loops as interleaved atomic steps.

    A `process` call picks a worker, checks its flag, loads its depth, wins or
    loses a compare-and-swap, rechecks the flag, marks the predicted profile and
    sends a command whose accounting (here a ticket) travels with it. The worker
    dequeues, bounces the command or runs its stages, settles the accounting and
    replies. Callers may leave at any await, flags flip at any time, a worker may
    exit with commands still queued, and dropping a ticket is two steps: the warm
    state is cleared under the lock, then the depth is decremented.
  */
module WorkerProtocol {
  import opened Text
  import opened Profiles
  import opened PoolState

  type CallId = nat
  type TicketId = nat

  /** What a worker sets its renderer up for: `current_profile` holds both parts. */
  datatype Job = Job(profile: WorkerProfile, partition: Option<nat>)

  /** Where an accepted reservation is. From `AtSender` on it is a
      `WorkerCompletion` holding a dispatch generation. */
  datatype Phase =
    | Rechecking
    | Confirmed
    | AtSender(generation: nat)
    | Queued(generation: nat)
    | Taken(generation: nat)
    | Dropping(generation: nat)
    | Settling

  datatype Issue = Issue(call: CallId, worker: nat, job: Job)

  /** How `run_stages` ends; a renderer error may invalidate the warm state, as
      the hard-wedge timeout always does. */
  datatype StageResult = Completed | Rejected | PermitClosed | RendererError(invalidates: bool)

  datatype Answer = Redispatched | TimedOut | Finished(result: StageResult)

  datatype Stage = Begin | Ready | Rendering

  /** `slot` says whether the one-shot reply sender is still there. */
  datatype WorkerPc =
    | Idle
    | Checking(ticket: TicketId)
    | Staging(ticket: TicketId, stage: Stage, slot: bool)
    | Answering(ticket: TicketId, answer: Option<Answer>)

  /** A command put on a worker's channel, and whether it completed. */
  datatype Sent = Sent(ticket: TicketId, generation: nat, done: bool)

  /** `last` and `top` are history: the command sent here last, and the highest
      generation sent here so far. */
  datatype Worker = Worker(
    depth: int, queue: seq<TicketId>, current: Option<Job>, pc: WorkerPc, available: bool, open: bool,
    last: Option<Sent>, top: nat)

  datatype CallPhase =
    | Picking
    | Probing(worker: nat)
    | Reading(worker: nat, depth: int)
    | Holding(ticket: TicketId)
    | Waiting(ticket: TicketId)
    | Left

  /** `last` and `renders` are history: the latest ticket, and how often a native
      render was started for this call. */
  datatype Call = Call(job: Job, phase: CallPhase, last: Option<TicketId>, renders: nat)

  /** How the worker was done with a dequeued command. */
  datatype Fate = HandedBack | Ended(result: StageResult)

  /** `answers`, `taken`, `late`, `elapsed` and `fates` are history: replies sent per
      ticket, tickets dequeued, tickets whose completion was found past the deadline,
      tickets whose deadline elapsed during their stages, and how each one ended. */
  datatype World = World(
    capacity: nat, calls: map<CallId, Call>, tickets: map<TicketId, Phase>, issued: map<TicketId, Issue>,
    workers: seq<Worker>, pool: Pool, answers: map<TicketId, seq<Answer>>, taken: set<TicketId>, late: set<TicketId>,
    elapsed: set<TicketId>, fates: map<TicketId, Fate>)

  datatype Event =
    | Arrive(call: CallId, job: Job)
    | Probe(call: CallId, worker: nat)
    | LoadDepth(call: CallId)
    | CompareExchange(call: CallId, ticket: TicketId, spurious: bool)
    | Recheck(ticket: TicketId)
    | Mark(ticket: TicketId, source: Option<string>, now: nat)
    | Send(ticket: TicketId)
    | FailSend(ticket: TicketId)
    | Leave(call: CallId)
    | Receive(call: CallId)
    | Dequeue(worker: nat)
    | Bounce(worker: nat)
    | Accept(worker: nat)
    | SetUp(worker: nat)
    | StartRender(worker: nat)
    | DeadlineElapses(worker: nat)
    | StageEnds(worker: nat, result: StageResult, late: bool)
    | Reply(worker: nat)
    | Exit(worker: nat)
    | DropQueued(worker: nat)
    | SetAvailable(worker: nat, available: bool)
    | Clear(ticket: TicketId)
    | Release(ticket: TicketId)

  // ---- Which steps can happen --------------------------------------------

  predicate Known(w: World, t: TicketId) {
    t in w.issued && w.issued[t].worker < |w.workers| && w.issued[t].call in w.calls
  }

  predicate At(w: World, t: TicketId) {
    t in w.tickets && Known(w, t)
  }

  predicate Stagewise(stage: Stage, result: StageResult) {
    match result
    case Completed => stage.Rendering?
    case Rejected => !stage.Rendering?
    case PermitClosed => !stage.Rendering?
    case RendererError(_) => true
  }

  /** `Leave` covers a full queue while picking, and cancellation, the response
      deadline and a lost reply while waiting. `FailSend` covers a closed channel
      and a caller cancelled while sending. Availability is republished by the
      worker itself, never during its stages. Fewer than 2^64 dispatches per worker. */
  predicate Possible(w: World, e: Event) {
    match e
    case Arrive(c, _) => c !in w.calls
    case Probe(c, i) => c in w.calls && w.calls[c].phase.Picking? && i < |w.workers| && w.workers[i].available
    case LoadDepth(c) => c in w.calls && w.calls[c].phase.Probing? && w.calls[c].phase.worker < |w.workers|
    case CompareExchange(c, t, _) =>
      c in w.calls && w.calls[c].phase.Reading? && w.calls[c].phase.worker < |w.workers| && t !in w.issued
    case Recheck(t) => At(w, t) && w.tickets[t].Rechecking?
    case Mark(t, _, _) =>
      && At(w, t) && w.tickets[t].Confirmed? && w.issued[t].worker < |w.pool.generations|
      && w.pool.generations[w.issued[t].worker] + 1 < U64
    case Send(t) => At(w, t) && w.tickets[t].AtSender? && w.workers[w.issued[t].worker].open
    case FailSend(t) => At(w, t) && w.tickets[t].AtSender?
    case Leave(c) => c in w.calls && (w.calls[c].phase.Picking? || w.calls[c].phase.Waiting?)
    case Receive(c) =>
      && c in w.calls && w.calls[c].phase.Waiting? && w.calls[c].phase.ticket in w.answers
      && w.answers[w.calls[c].phase.ticket] != []
    case Dequeue(i) => i < |w.workers| && w.workers[i].pc.Idle? && w.workers[i].open && w.workers[i].queue != []
    case Bounce(i) => i < |w.workers| && w.workers[i].pc.Checking? && !w.workers[i].available
    case Accept(i) => i < |w.workers| && w.workers[i].pc.Checking? && w.workers[i].available
    case SetUp(i) =>
      && i < |w.workers| && w.workers[i].pc.Staging? && w.workers[i].pc.stage.Begin?
      && w.workers[i].pc.ticket in w.issued
    case StartRender(i) =>
      && i < |w.workers| && w.workers[i].pc.Staging? && w.workers[i].pc.stage.Ready?
      && Known(w, w.workers[i].pc.ticket)
    case DeadlineElapses(i) => i < |w.workers| && w.workers[i].pc.Staging? && w.workers[i].pc.slot
    case StageEnds(i, result, _) =>
      i < |w.workers| && w.workers[i].pc.Staging? && Stagewise(w.workers[i].pc.stage, result)
    case Reply(i) => i < |w.workers| && w.workers[i].pc.Answering? && w.workers[i].pc.ticket !in w.tickets
    case Exit(i) => i < |w.workers| && w.workers[i].pc.Idle? && w.workers[i].open
    case DropQueued(i) => i < |w.workers| && !w.workers[i].open && w.workers[i].queue != []
    case SetAvailable(i, _) => i < |w.workers| && !w.workers[i].pc.Staging?
    case Clear(t) => At(w, t) && w.tickets[t].Dropping?
    case Release(t) => At(w, t) && w.tickets[t].Settling?
  }

  predicate Wins(w: World, c: CallId, spurious: bool)
    requires c in w.calls && w.calls[c].phase.Reading? && w.calls[c].phase.worker < |w.workers|
  {
    var r := w.calls[c].phase;
    r.depth < w.capacity && w.workers[r.worker].depth == r.depth && !spurious
  }

  // ---- Tickets -----------------------------------------------------------

  function GenerationOf(w: World, t: TicketId): nat {
    if t in w.tickets && !w.tickets[t].Rechecking? && !w.tickets[t].Confirmed? && !w.tickets[t].Settling?
    then w.tickets[t].generation else 0
  }

  /** The ticket a step changes, if any. */
  function Subject(w: World, e: Event): Option<TicketId>
    requires Possible(w, e)
  {
    match e
    case CompareExchange(c, t, spurious) => if Wins(w, c, spurious) then Some(t) else None
    case Recheck(t) => Some(t)
    case Mark(t, _, _) => Some(t)
    case Send(t) => Some(t)
    case FailSend(t) => Some(t)
    case Dequeue(i) => Some(w.workers[i].queue[0])
    case DropQueued(i) => Some(w.workers[i].queue[0])
    case Bounce(i) => Some(w.workers[i].pc.ticket)
    case StageEnds(i, _, _) => Some(w.workers[i].pc.ticket)
    case Clear(t) => Some(t)
    case Release(t) => Some(t)
    case _ => None
  }

  /** Its phase afterwards; `None` once the depth has been given back. */
  function PhaseAfter(w: World, e: Event): Option<Phase>
    requires Possible(w, e)
  {
    match e
    case CompareExchange(_, _, _) => Some(Rechecking)
    case Recheck(t) => Some(if w.workers[w.issued[t].worker].available then Confirmed else Settling)
    case Mark(t, _, _) => Some(AtSender(w.pool.generations[w.issued[t].worker] + 1))
    case Send(t) => Some(Queued(GenerationOf(w, t)))
    case FailSend(t) => Some(Dropping(GenerationOf(w, t)))
    case Dequeue(i) => Some(Taken(GenerationOf(w, w.workers[i].queue[0])))
    case DropQueued(i) => Some(Dropping(GenerationOf(w, w.workers[i].queue[0])))
    case Bounce(i) => Some(Dropping(GenerationOf(w, w.workers[i].pc.ticket)))
    case StageEnds(i, result, _) =>
      Some(if result.Completed? then Settling else Dropping(GenerationOf(w, w.workers[i].pc.ticket)))
    case Clear(_) => Some(Settling)
    case _ => None
  }

  function TicketsAfter(w: World, e: Event): map<TicketId, Phase>
    requires Possible(w, e)
  {
    match Subject(w, e)
    case None => w.tickets
    case Some(t) => match PhaseAfter(w, e) case None => w.tickets - {t} case Some(phase) => w.tickets[t := phase]
  }

  // ---- Workers -----------------------------------------------------------

  /** The worker a step changes, if any. */
  function Site(w: World, e: Event): Option<nat>
    requires Possible(w, e)
  {
    match e
    case CompareExchange(c, t, spurious) => if Wins(w, c, spurious) then Some(w.calls[c].phase.worker) else None
    case Send(t) => Some(w.issued[t].worker)
    case Release(t) => Some(w.issued[t].worker)
    case Dequeue(i) => Some(i)
    case Bounce(i) => Some(i)
    case Accept(i) => Some(i)
    case SetUp(i) => Some(i)
    case StartRender(i) => Some(i)
    case DeadlineElapses(i) => Some(i)
    case StageEnds(i, _, _) => Some(i)
    case Reply(i) => Some(i)
    case Exit(i) => Some(i)
    case DropQueued(i) => Some(i)
    case SetAvailable(i, _) => Some(i)
    case _ => None
  }

  /** The reply left to send once a ticket has settled. */
  function AnswerLeft(slot: bool, result: StageResult, late: bool): Option<Answer> {
    if slot && !(late && result.Completed?) then Some(Finished(result)) else None
  }

  function Max(a: nat, b: nat): nat {
    if a < b then b else a
  }

  function Finish(last: Option<Sent>, t: TicketId): Option<Sent> {
    if last.Some? && last.value.ticket == t then Some(last.value.(done := true)) else last
  }

  function WorkerAfter(w: World, e: Event): Worker
    requires Possible(w, e) && Site(w, e).Some? && Site(w, e).value < |w.workers|
  {
    var k := w.workers[Site(w, e).value];
    match e
    case CompareExchange(_, _, _) => k.(depth := k.depth + 1)
    case Release(_) => k.(depth := k.depth - 1)
    case Send(t) =>
      k.(queue := k.queue + [t], last := Some(Sent(t, GenerationOf(w, t), false)),
         top := Max(k.top, GenerationOf(w, t)))
    case Dequeue(_) => k.(queue := k.queue[1..], pc := Checking(k.queue[0]))
    case DropQueued(_) => k.(queue := k.queue[1..])
    case Bounce(_) => k.(pc := Answering(k.pc.ticket, Some(Redispatched)))
    case Accept(_) => k.(pc := Staging(k.pc.ticket, Begin, true))
    case SetUp(_) => k.(pc := k.pc.(stage := Ready), current := Some(w.issued[k.pc.ticket].job))
    case StartRender(_) => k.(pc := k.pc.(stage := Rendering))
    case DeadlineElapses(_) => k.(pc := k.pc.(slot := false), available := false)
    case StageEnds(_, result, late) =>
      k.(pc := Answering(k.pc.ticket, AnswerLeft(k.pc.slot, result, late)),
         current := if result.RendererError? && result.invalidates then None else k.current,
         last := if result.Completed? then Finish(k.last, k.pc.ticket) else k.last)
    case Reply(_) => k.(pc := Idle)
    case Exit(_) => k.(open := false)
    case SetAvailable(_, b) => k.(available := b)
    case _ => k
  }

  lemma SiteExists(w: World, e: Event)
    requires Possible(w, e)
    ensures Site(w, e).Some? ==> Site(w, e).value < |w.workers|
  {
  }

  function WorkersAfter(w: World, e: Event): seq<Worker>
    requires Possible(w, e)
  {
    SiteExists(w, e);
    if Site(w, e).Some? then w.workers[Site(w, e).value := WorkerAfter(w, e)] else w.workers
  }

  // ---- Calls -------------------------------------------------------------

  /** The call a step changes, if any. */
  function Caller(w: World, e: Event): Option<CallId>
    requires Possible(w, e)
  {
    match e
    case Arrive(c, _) => Some(c)
    case Probe(c, _) => Some(c)
    case LoadDepth(c) => Some(c)
    case CompareExchange(c, _, _) => Some(c)
    case Recheck(t) => if w.workers[w.issued[t].worker].available then None else Some(w.issued[t].call)
    case Send(t) => Some(w.issued[t].call)
    case FailSend(t) => Some(w.issued[t].call)
    case Leave(c) => Some(c)
    case Receive(c) => Some(c)
    case StartRender(i) => Some(w.issued[w.workers[i].pc.ticket].call)
    case _ => None
  }

  function CallAfter(w: World, e: Event, call: Call): Call
    requires Possible(w, e)
  {
    match e
    case Probe(_, i) => call.(phase := Probing(i))
    case LoadDepth(c) => call.(phase := Reading(w.calls[c].phase.worker, w.workers[w.calls[c].phase.worker].depth))
    case CompareExchange(c, t, spurious) =>
      var r := w.calls[c].phase;
      if r.depth >= w.capacity then call.(phase := Picking)
      else if Wins(w, c, spurious) then call.(phase := Holding(t), last := Some(t))
      else call.(phase := Reading(r.worker, w.workers[r.worker].depth))
    case Recheck(_) => call.(phase := Picking)
    case Send(t) => call.(phase := Waiting(t))
    case FailSend(_) => call.(phase := Left)
    case Leave(_) => call.(phase := Left)
    case Receive(c) => call.(phase := if w.answers[w.calls[c].phase.ticket][0].Redispatched? then Picking else Left)
    case StartRender(_) => call.(renders := call.renders + 1)
    case _ => call
  }

  function CallsAfter(w: World, e: Event): map<CallId, Call>
    requires Possible(w, e)
  {
    match Caller(w, e)
    case None => w.calls
    case Some(c) =>
      if c in w.calls then w.calls[c := CallAfter(w, e, w.calls[c])]
      else if e.Arrive? then w.calls[c := Call(e.job, Picking, None, 0)]
      else w.calls
  }

  // ---- The rest ----------------------------------------------------------

  function IssuedAfter(w: World, e: Event): map<TicketId, Issue>
    requires Possible(w, e)
  {
    if e.CompareExchange? && Wins(w, e.call, e.spurious)
    then w.issued[e.ticket := Issue(e.call, w.calls[e.call].phase.worker, w.calls[e.call].job)]
    else w.issued
  }

  predicate Shaped(w: World) {
    Sized(w.pool) && |w.pool.loaded| == |w.workers|
  }

  function PoolAfter(w: World, e: Event): Pool
    requires Possible(w, e) && Shaped(w)
  {
    match e
    case Mark(t, source, now) =>
      var i := w.issued[t].worker;
      var marked := MarkLoaded(w.pool, i, w.issued[t].job.profile, now);
      if source.Some? then MarkSource(marked, i, source.value) else marked
    case Clear(t) => ClearIfLatest(w.pool, w.issued[t].worker, GenerationOf(w, t))
    case _ => w.pool
  }

  function AnswersOf(answers: map<TicketId, seq<Answer>>, t: TicketId): seq<Answer> {
    if t in answers then answers[t] else []
  }

  /** The reply a step sends, if any. */
  function Sends(w: World, e: Event): Option<Answer>
    requires Possible(w, e)
  {
    match e
    case DeadlineElapses(_) => Some(TimedOut)
    case StageEnds(i, result, late) =>
      if w.workers[i].pc.slot && late && result.Completed? then Some(TimedOut) else None
    case Reply(i) => w.workers[i].pc.answer
    case _ => None
  }

  function AnswersAfter(w: World, e: Event): map<TicketId, seq<Answer>>
    requires Possible(w, e)
  {
    match Sends(w, e)
    case None => w.answers
    case Some(a) => var t := w.workers[e.worker].pc.ticket; w.answers[t := AnswersOf(w.answers, t) + [a]]
  }

  function TakenAfter(w: World, e: Event): set<TicketId>
    requires Possible(w, e)
  {
    if e.Dequeue? then w.taken + {w.workers[e.worker].queue[0]} else w.taken
  }

  function LateAfter(w: World, e: Event): set<TicketId>
    requires Possible(w, e)
  {
    if e.StageEnds? && e.result.Completed? && (e.late || !w.workers[e.worker].pc.slot)
    then w.late + {w.workers[e.worker].pc.ticket} else w.late
  }

  function ElapsedAfter(w: World, e: Event): set<TicketId>
    requires Possible(w, e)
  {
    if e.DeadlineElapses? then w.elapsed + {w.workers[e.worker].pc.ticket} else w.elapsed
  }

  function FatesAfter(w: World, e: Event): map<TicketId, Fate>
    requires Possible(w, e)
  {
    match e
    case Bounce(i) => w.fates[w.workers[i].pc.ticket := HandedBack]
    case StageEnds(i, result, _) => w.fates[w.workers[i].pc.ticket := Ended(result)]
    case _ => w.fates
  }

  function Apply(w: World, e: Event): World
    requires Shaped(w) && Possible(w, e)
  {
    World(w.capacity, CallsAfter(w, e), TicketsAfter(w, e), IssuedAfter(w, e), WorkersAfter(w, e), PoolAfter(w, e),
          AnswersAfter(w, e), TakenAfter(w, e), LateAfter(w, e), ElapsedAfter(w, e), FatesAfter(w, e))
  }

  lemma StaysShaped(w: World, e: Event)
    requires Shaped(w) && Possible(w, e)
    ensures Shaped(Apply(w, e)) && |Apply(w, e).workers| == |w.workers|
  {
    hide WorkerAfter, Forget, Increment, Touched, Wins, CallsAfter, TicketsAfter, AnswersAfter;
    SiteExists(w, e);
  }

  predicate Legal(w: World, run: seq<Event>)
    requires Shaped(w)
    decreases |run|
  {
    run == [] || (Possible(w, run[0]) && (StaysShaped(w, run[0]); Legal(Apply(w, run[0]), run[1..])))
  }

  function Run(w: World, run: seq<Event>): World
    requires Shaped(w) && Legal(w, run)
    decreases |run|
  {
    if run == [] then w
    else
      StaysShaped(w, run[0]);
      Run(Apply(w, run[0]), run[1..])
  }

  predicate IdleWorker(k: Worker) {
    k.depth == 0 && k.queue == [] && k.current == None && k.pc == Idle && k.open && k.last == None && k.top == 0
  }

  /** A freshly spawned pool; the renderers may be born unavailable. */
  predicate Init(w: World) {
    && w == World(w.capacity, map[], map[], map[], w.workers, NewPool(|w.workers|), map[], {}, {}, {}, map[])
    && forall i | 0 <= i < |w.workers| :: IdleWorker(w.workers[i])
  }
}
