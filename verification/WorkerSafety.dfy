/** What every run of the worker pool keeps: admission accounting, single renders
    and single replies. */
module WorkerSafety {
  import opened Text
  import opened Profiles
  import opened PoolState
  import opened WorkerProtocol

  // ---- Structure ---------------------------------------------------------

  predicate Works(k: Worker, t: TicketId) {
    (k.pc.Checking? || k.pc.Staging?) && k.pc.ticket == t
  }

  predicate Unsent(phase: Phase) {
    phase.Rechecking? || phase.Confirmed? || phase.AtSender?
  }

  predicate TicketOk(w: World, t: TicketId)
    requires t in w.tickets
  {
    && Known(w, t)
    && (Unsent(w.tickets[t]) ==> w.calls[w.issued[t].call].phase == Holding(t))
    && (Unsent(w.tickets[t]) || w.tickets[t].Queued? ==> t !in w.taken)
    && (w.tickets[t].Taken? ==> t in w.taken && Works(w.workers[w.issued[t].worker], t))
  }

  predicate QueuedAt(w: World, i: nat, t: TicketId) {
    t in w.tickets && w.tickets[t].Queued? && t in w.issued && w.issued[t].worker == i
  }

  predicate QueueOk(w: World, i: nat)
    requires i < |w.workers|
  {
    && (forall k | 0 <= k < |w.workers[i].queue| :: QueuedAt(w, i, w.workers[i].queue[k]))
    && (forall j, k | 0 <= j < k < |w.workers[i].queue| :: w.workers[i].queue[j] != w.workers[i].queue[k])
  }

  predicate PcOk(w: World, i: nat)
    requires i < |w.workers|
  {
    var pc := w.workers[i].pc;
    pc.Idle? ||
    (&& pc.ticket in w.issued && w.issued[pc.ticket].worker == i && pc.ticket in w.taken
     && (if pc.Answering?
         then pc.ticket in w.tickets ==> w.tickets[pc.ticket].Dropping? || w.tickets[pc.ticket].Settling?
         else pc.ticket in w.tickets && w.tickets[pc.ticket].Taken?))
  }

  predicate CallOk(w: World, c: CallId)
    requires c in w.calls
  {
    var call := w.calls[c];
    && (call.phase.Holding? || call.phase.Waiting? ==> call.last == Some(call.phase.ticket))
    && (call.last.Some? ==> call.last.value in w.issued && w.issued[call.last.value].call == c)
  }

  predicate IssueOk(w: World, t: TicketId)
    requires t in w.issued
  {
    w.issued[t].worker < |w.workers| && w.issued[t].call in w.calls
  }

  predicate StructureOk(w: World) {
    && Shaped(w)
    && w.taken <= w.issued.Keys
    && (forall t | t in w.issued :: IssueOk(w, t))
    && (forall t | t in w.tickets :: TicketOk(w, t))
    && (forall i | 0 <= i < |w.workers| :: QueueOk(w, i))
    && (forall i | 0 <= i < |w.workers| :: PcOk(w, i))
    && (forall c | c in w.calls :: CallOk(w, c))
  }

  // ---- Frames ------------------------------------------------------------

  lemma TicketFrame(w: World, e: Event, t: TicketId)
    requires Possible(w, e) && Subject(w, e) != Some(t)
    ensures t in TicketsAfter(w, e) <==> t in w.tickets
    ensures t in w.tickets ==> TicketsAfter(w, e)[t] == w.tickets[t]
  {
    hide Possible, Subject, PhaseAfter;
  }

  lemma WorkerFrame(w: World, e: Event, i: nat)
    requires Possible(w, e) && Site(w, e) != Some(i) && i < |w.workers|
    ensures |WorkersAfter(w, e)| == |w.workers| && WorkersAfter(w, e)[i] == w.workers[i]
  {
    hide Possible, Site, WorkerAfter;
    SiteExists(w, e);
  }

  lemma CallFrame(w: World, e: Event, c: CallId)
    requires Possible(w, e) && Caller(w, e) != Some(c)
    ensures c in CallsAfter(w, e) <==> c in w.calls
    ensures c in w.calls ==> CallsAfter(w, e)[c] == w.calls[c]
  {
    hide Possible, Caller, CallAfter;
  }

  /** Calls never vanish, and tickets keep what they were issued for. */
  lemma Grows(w: World, e: Event)
    requires Possible(w, e)
    ensures forall c | c in w.calls :: c in CallsAfter(w, e)
    ensures forall t | t in w.issued :: t in IssuedAfter(w, e) && IssuedAfter(w, e)[t] == w.issued[t]
  {
    hide Possible, Caller, CallAfter, Wins;
    if e.CompareExchange? { FreshTicket(w, e); }
  }

  lemma FreshTicket(w: World, e: Event)
    requires Possible(w, e) && e.CompareExchange?
    ensures e.ticket !in w.issued
  {
  }

  /** What the invariant says about the entities a step is about. */
  predicate Local(w: World, e: Event)
    requires Possible(w, e)
  {
    && (Subject(w, e).Some? && Subject(w, e).value in w.tickets ==> TicketOk(w, Subject(w, e).value))
    && (e.CompareExchange? ==> e.ticket !in w.tickets && e.ticket !in w.taken)
    && (e.Dequeue? || e.DropQueued? ==> QueuedAt(w, e.worker, w.workers[e.worker].queue[0]))
    && (e.Bounce? || e.StageEnds? || e.StartRender? || e.SetUp? || e.Reply? || e.DeadlineElapses? ==> PcOk(w, e.worker))
  }

  lemma LocalFacts(w: World, e: Event)
    requires StructureOk(w) && Possible(w, e)
    ensures Local(w, e)
  {
    hide TicketOk, PcOk, IssueOk, CallOk, PhaseAfter;
    if e.Dequeue? || e.DropQueued? {
      assert QueueOk(w, e.worker) && QueuedAt(w, e.worker, w.workers[e.worker].queue[0]);
    }
    if e.CompareExchange? && e.ticket in w.tickets {
      assert TicketOk(w, e.ticket);
      KnownIssued(w, e.ticket);
    }
  }

  lemma KnownIssued(w: World, t: TicketId)
    requires t in w.tickets && TicketOk(w, t)
    ensures t in w.issued
  {
  }

  // ---- Structure is kept -------------------------------------------------

  lemma IssueKept(w: World, e: Event, t: TicketId)
    requires StructureOk(w) && Possible(w, e) && t in Apply(w, e).issued
    ensures IssueOk(Apply(w, e), t)
  {
    hide PoolAfter, AnswersAfter, WorkerAfter, TicketOk, QueueOk, PcOk, CallOk, CallAfter, TicketsAfter;
    StaysShaped(w, e);
    Grows(w, e);
    assert t in w.issued ==> IssueOk(w, t);
  }

  predicate SenderSide(e: Event) {
    e.CompareExchange? || e.Recheck? || e.Mark? || e.Send? || e.FailSend?
  }

  lemma SenderSubjectKept(w: World, e: Event)
    requires Shaped(w) && Possible(w, e) && Local(w, e) && SenderSide(e)
    requires Subject(w, e).Some? && Subject(w, e).value in Apply(w, e).tickets
    ensures TicketOk(Apply(w, e), Subject(w, e).value)
  {
    hide PoolAfter, AnswersAfter, GenerationOf, QueuedAt, PcOk;
    StaysShaped(w, e);
  }

  lemma WorkerSubjectKept(w: World, e: Event)
    requires Shaped(w) && Possible(w, e) && Local(w, e) && !SenderSide(e)
    requires Subject(w, e).Some? && Subject(w, e).value in Apply(w, e).tickets
    ensures TicketOk(Apply(w, e), Subject(w, e).value)
  {
    hide PoolAfter, AnswersAfter, GenerationOf, CallsAfter;
    StaysShaped(w, e);
    Grows(w, e);
  }

  /** Nobody else moves the call that holds an unsent ticket. */
  lemma HolderKept(w: World, e: Event, t: TicketId)
    requires Possible(w, e) && Local(w, e) && t in w.tickets && Subject(w, e) != Some(t) && TicketOk(w, t)
    requires Unsent(w.tickets[t])
    ensures w.issued[t].call in CallsAfter(w, e) && CallsAfter(w, e)[w.issued[t].call].phase == Holding(t)
  {
    hide GenerationOf, PcOk, QueuedAt;
    if Caller(w, e) != Some(w.issued[t].call) {
      CallFrame(w, e, w.issued[t].call);
    }
  }

  /** A worker leaves a ticket only by a step of that ticket. */
  lemma WorkKept(w: World, e: Event, t: TicketId)
    requires Possible(w, e) && Local(w, e) && t in w.tickets && Subject(w, e) != Some(t) && TicketOk(w, t)
    requires w.tickets[t].Taken? && w.issued[t].worker < |WorkersAfter(w, e)|
    ensures Works(WorkersAfter(w, e)[w.issued[t].worker], t)
  {
    hide GenerationOf, QueuedAt, Wins, AnswerLeft;
    if Site(w, e) != Some(w.issued[t].worker) {
      WorkerFrame(w, e, w.issued[t].worker);
    }
  }

  lemma TakenFrame(w: World, e: Event, t: TicketId)
    requires Possible(w, e) && Subject(w, e) != Some(t)
    ensures t in TakenAfter(w, e) <==> t in w.taken
  {
    hide Wins, Known;
  }

  lemma BystanderKept(w: World, e: Event, t: TicketId)
    requires Shaped(w) && Possible(w, e) && Local(w, e) && t in w.tickets && Subject(w, e) != Some(t) && TicketOk(w, t)
    ensures t in Apply(w, e).tickets && TicketOk(Apply(w, e), t)
  {
    hide PoolAfter, AnswersAfter, TicketsAfter, WorkersAfter, CallsAfter, TakenAfter, Possible, Local, Works, Subject;
    StaysShaped(w, e);
    TicketFrame(w, e, t);
    TakenFrame(w, e, t);
    Grows(w, e);
    if Unsent(w.tickets[t]) {
      HolderKept(w, e, t);
    } else if w.tickets[t].Taken? {
      WorkKept(w, e, t);
    }
  }

  lemma TicketKept(w: World, e: Event, t: TicketId)
    requires StructureOk(w) && Possible(w, e) && t in Apply(w, e).tickets
    ensures TicketOk(Apply(w, e), t)
  {
    hide Possible, Local, Subject, PhaseAfter, TicketOk, PoolAfter, AnswersAfter, CallsAfter,
         WorkersAfter, TicketsAfter;
    LocalFacts(w, e);
    if Subject(w, e) != Some(t) {
      TicketFrame(w, e, t);
      BystanderKept(w, e, t);
    } else if SenderSide(e) {
      SenderSubjectKept(w, e);
    } else {
      WorkerSubjectKept(w, e);
    }
  }

  predicate Pops(e: Event, i: nat) {
    (e.Dequeue? || e.DropQueued?) && e.worker == i
  }

  lemma QueueAfter(w: World, e: Event, i: nat)
    requires Possible(w, e) && i < |w.workers| && i < |WorkersAfter(w, e)|
    ensures (Pops(e, i) ==> w.workers[i].queue != []) && (e.Send? ==> e.ticket in w.issued)
    ensures var q := w.workers[i].queue;
            WorkersAfter(w, e)[i].queue ==
              if Pops(e, i) then q[1..]
              else if e.Send? && w.issued[e.ticket].worker == i then q + [e.ticket]
              else q
  {
    hide Wins, AnswerLeft;
    if Site(w, e) != Some(i) {
      WorkerFrame(w, e, i);
    }
  }

  lemma QueuedStays(w: World, e: Event, i: nat, t: TicketId)
    requires Shaped(w) && Possible(w, e) && Local(w, e) && QueuedAt(w, i, t)
    requires i < |w.workers| && (Pops(e, i) ==> t != w.workers[i].queue[0])
    ensures QueuedAt(Apply(w, e), i, t)
  {
    hide PoolAfter, AnswersAfter, CallsAfter, WorkersAfter, TicketsAfter, Wins, TicketOk;
    assert Subject(w, e) != Some(t);
    TicketFrame(w, e, t);
    Grows(w, e);
  }

  lemma SentIsQueued(w: World, e: Event)
    requires Shaped(w) && Possible(w, e) && e.Send?
    ensures QueuedAt(Apply(w, e), w.issued[e.ticket].worker, e.ticket)
  {
    hide PoolAfter, AnswersAfter, CallsAfter, WorkersAfter;
  }

  lemma QueuedKept(w: World, e: Event, i: nat, k: nat)
    requires Shaped(w) && Possible(w, e) && Local(w, e) && i < |w.workers| && QueueOk(w, i)
    requires i < |Apply(w, e).workers| && k < |Apply(w, e).workers[i].queue|
    ensures QueuedAt(Apply(w, e), i, Apply(w, e).workers[i].queue[k])
  {
    hide PoolAfter, AnswersAfter, CallsAfter, WorkersAfter, TicketsAfter, IssuedAfter, Local, Possible, QueuedAt;
    QueueAfter(w, e, i);
    var q := w.workers[i].queue;
    if Pops(e, i) {
      assert q[1..][k] == q[k + 1];
      PopKeeps(w, e, i, k + 1);
    } else if k < |q| {
      QueuedStays(w, e, i, q[k]);
    } else {
      SentIsQueued(w, e);
    }
  }

  lemma PopKeeps(w: World, e: Event, i: nat, k: nat)
    requires Shaped(w) && Possible(w, e) && Local(w, e) && i < |w.workers| && QueueOk(w, i)
    requires Pops(e, i) && 0 < k < |w.workers[i].queue|
    ensures QueuedAt(Apply(w, e), i, w.workers[i].queue[k])
  {
    hide PoolAfter, AnswersAfter, CallsAfter, WorkersAfter, TicketsAfter, IssuedAfter, Local, Possible, QueuedAt, Apply;
    QueuedStays(w, e, i, w.workers[i].queue[k]);
  }

  lemma QueueKept(w: World, e: Event, i: nat)
    requires StructureOk(w) && Possible(w, e) && i < |w.workers|
    ensures i < |Apply(w, e).workers| && QueueOk(Apply(w, e), i)
  {
    hide PoolAfter, AnswersAfter, CallsAfter, WorkersAfter, IssueOk, CallOk, PcOk, TicketOk,
         Local, TicketsAfter, Possible;
    StaysShaped(w, e);
    LocalFacts(w, e);
    var v := Apply(w, e);
    assert QueueOk(w, i);
    QueueAfter(w, e, i);
    if e.Send? && w.issued[e.ticket].worker == i {
      SentOnce(w, e, i);
    }
    forall k | 0 <= k < |v.workers[i].queue| ensures QueuedAt(v, i, v.workers[i].queue[k]) {
      QueuedKept(w, e, i, k);
    }
  }

  lemma SentOnce(w: World, e: Event, i: nat)
    requires Possible(w, e) && e.Send? && i < |w.workers| && QueueOk(w, i)
    ensures forall k | 0 <= k < |w.workers[i].queue| :: w.workers[i].queue[k] != e.ticket
  {
    forall k | 0 <= k < |w.workers[i].queue| ensures w.workers[i].queue[k] != e.ticket {
      assert QueuedAt(w, i, w.workers[i].queue[k]);
    }
  }

  lemma OwnPcKept(w: World, e: Event, i: nat)
    requires Shaped(w) && Possible(w, e) && Local(w, e) && Site(w, e) == Some(i) && i < |w.workers| && PcOk(w, i)
    ensures i < |Apply(w, e).workers| && PcOk(Apply(w, e), i)
  {
    hide PoolAfter, AnswersAfter, CallsAfter, GenerationOf;
    StaysShaped(w, e);
    Grows(w, e);
  }

  lemma OtherPcKept(w: World, e: Event, i: nat)
    requires Shaped(w) && Possible(w, e) && Local(w, e) && Site(w, e) != Some(i) && i < |w.workers| && PcOk(w, i)
    ensures i < |Apply(w, e).workers| && PcOk(Apply(w, e), i)
  {
    hide PoolAfter, AnswersAfter, CallsAfter, GenerationOf, WorkersAfter, WorkerAfter;
    StaysShaped(w, e);
    WorkerFrame(w, e, i);
    Grows(w, e);
  }

  lemma PcKept(w: World, e: Event, i: nat)
    requires StructureOk(w) && Possible(w, e) && i < |w.workers|
    ensures i < |Apply(w, e).workers| && PcOk(Apply(w, e), i)
  {
    hide Apply, Possible, Local, PcOk, Site;
    LocalFacts(w, e);
    if Site(w, e) == Some(i) {
      OwnPcKept(w, e, i);
    } else {
      OtherPcKept(w, e, i);
    }
  }

  lemma CallKept(w: World, e: Event, c: CallId)
    requires Shaped(w) && Possible(w, e) && Local(w, e) && c in Apply(w, e).calls && (c in w.calls ==> CallOk(w, c))
    ensures CallOk(Apply(w, e), c)
  {
    hide PoolAfter, AnswersAfter, TicketsAfter, WorkersAfter, PcOk, QueuedAt, ElapsedAfter, FatesAfter;
    Grows(w, e);
    if Caller(w, e) != Some(c) {
      CallFrame(w, e, c);
    }
  }

  lemma TakenKept(w: World, e: Event)
    requires StructureOk(w) && Possible(w, e)
    ensures Apply(w, e).taken <= Apply(w, e).issued.Keys
  {
    hide PoolAfter, AnswersAfter, TicketsAfter, WorkersAfter, CallsAfter, TicketOk, PcOk, IssueOk, CallOk;
    if e.Dequeue? {
      assert QueueOk(w, e.worker) && QueuedAt(w, e.worker, w.workers[e.worker].queue[0]);
    }
  }

  lemma StructureKept(w: World, e: Event)
    requires StructureOk(w) && Possible(w, e)
    ensures StructureOk(Apply(w, e))
  {
    hide Possible, Apply, TicketOk, QueueOk, PcOk, CallOk, IssueOk, Local;
    StaysShaped(w, e);
    LocalFacts(w, e);
    TakenKept(w, e);
    var v := Apply(w, e);
    forall t | t in v.issued ensures IssueOk(v, t) { IssueKept(w, e, t); }
    forall t | t in v.tickets ensures TicketOk(v, t) { TicketKept(w, e, t); }
    forall i | 0 <= i < |v.workers| ensures QueueOk(v, i) { QueueKept(w, e, i); }
    forall i | 0 <= i < |v.workers| ensures PcOk(v, i) { PcKept(w, e, i); }
    forall c | c in v.calls ensures CallOk(v, c) { CallKept(w, e, c); }
  }

  // ---- Admission ---------------------------------------------------------

  function TicketsAt(w: World, i: nat): set<TicketId> {
    set t | t in w.tickets && t in w.issued && w.issued[t].worker == i
  }

  predicate DepthOk(w: World, i: nat)
    requires i < |w.workers|
  {
    w.workers[i].depth == |TicketsAt(w, i)| <= w.capacity
  }

  predicate Admits(w: World, e: Event, i: nat)
    requires Possible(w, e)
  {
    e.CompareExchange? && Wins(w, e.call, e.spurious) && w.calls[e.call].phase.worker == i
  }

  predicate Stands(w: World, t: TicketId, i: nat) {
    t in w.tickets && t in w.issued && w.issued[t].worker == i
  }

  lemma StandsAfter(w: World, e: Event, i: nat, t: TicketId)
    requires Shaped(w) && Possible(w, e) && Local(w, e)
    ensures Stands(Apply(w, e), t, i) <==>
              (Admits(w, e, i) && t == e.ticket) || (Stands(w, t, i) && !(e.Release? && t == e.ticket))
  {
    hide PoolAfter, AnswersAfter, CallsAfter, WorkersAfter, GenerationOf, TicketsAfter, ElapsedAfter, FatesAfter;
    Grows(w, e);
    if Subject(w, e) != Some(t) {
      TicketFrame(w, e, t);
    } else {
      SubjectStands(w, e);
    }
  }

  lemma SubjectStands(w: World, e: Event)
    requires Possible(w, e) && Local(w, e) && Subject(w, e).Some?
    ensures !e.CompareExchange? ==> Subject(w, e).value in w.tickets && Subject(w, e).value in w.issued
    ensures Subject(w, e).value in TicketsAfter(w, e) <==> !e.Release?
  {
    hide GenerationOf;
  }

  lemma DepthAfter(w: World, e: Event, i: nat)
    requires Possible(w, e) && i < |w.workers| && i < |WorkersAfter(w, e)|
    ensures WorkersAfter(w, e)[i].depth ==
            if Admits(w, e, i) then w.workers[i].depth + 1
            else if e.Release? && w.issued[e.ticket].worker == i then w.workers[i].depth - 1
            else w.workers[i].depth
  {
    hide AnswerLeft, GenerationOf;
    if Site(w, e) != Some(i) {
      WorkerFrame(w, e, i);
    }
  }

  lemma AdmitsBelowCapacity(w: World, e: Event, i: nat)
    requires Possible(w, e) && Admits(w, e, i)
    ensures i < |w.workers| && w.workers[i].depth < w.capacity
  {
  }

  lemma ReleaseStands(w: World, e: Event)
    requires Possible(w, e) && e.Release?
    ensures e.ticket in w.issued && Stands(w, e.ticket, w.issued[e.ticket].worker)
  {
  }

  lemma DepthKept(w: World, e: Event, i: nat)
    requires StructureOk(w) && Possible(w, e) && i < |w.workers| && DepthOk(w, i)
    ensures i < |Apply(w, e).workers| && DepthOk(Apply(w, e), i)
  {
    hide StructureOk, Possible, Local, Stands, Wins, CallsAfter, TicketsAfter, IssuedAfter, WorkersAfter, PoolAfter,
         AnswersAfter, TakenAfter, LateAfter;
    ShapedIfOk(w);
    StaysShaped(w, e);
    LocalFacts(w, e);
    DepthAfter(w, e, i);
    var v := Apply(w, e);
    TicketsAtIsStands(w, i);
    TicketsAtIsStands(v, i);
    forall t ensures Stands(v, t, i) <==>
      (Admits(w, e, i) && t == e.ticket) || (Stands(w, t, i) && !(e.Release? && t == e.ticket))
    {
      StandsAfter(w, e, i, t);
    }
    if Admits(w, e, i) {
      AdmitsBelowCapacity(w, e, i);
      NotYetStanding(w, e, i);
      assert TicketsAt(v, i) == TicketsAt(w, i) + {e.ticket};
    } else if e.Release? {
      ReleaseStands(w, e);
      StandsOnce(w, e.ticket, w.issued[e.ticket].worker, i);
      assert TicketsAt(v, i) == TicketsAt(w, i) - {e.ticket};
    } else {
      assert TicketsAt(v, i) == TicketsAt(w, i);
    }
  }

  lemma StandsOnce(w: World, t: TicketId, i: nat, j: nat)
    requires Stands(w, t, i)
    ensures Stands(w, t, j) <==> i == j
  {
  }

  lemma NotYetStanding(w: World, e: Event, i: nat)
    requires Possible(w, e) && Admits(w, e, i)
    ensures !Stands(w, e.ticket, i) && !e.Release?
  {
  }

  lemma ShapedIfOk(w: World)
    requires StructureOk(w)
    ensures Shaped(w)
  {
  }

  lemma TicketsAtIsStands(w: World, i: nat)
    ensures forall t :: t in TicketsAt(w, i) <==> Stands(w, t, i)
  {
  }

  // ---- Replies -----------------------------------------------------------

  /** Replies sent for a ticket so far, by where its worker stands with it. */
  predicate AnswerOk(w: World, t: TicketId)
    requires t in w.issued && w.issued[t].worker < |w.workers|
  {
    var a, pc := AnswersOf(w.answers, t), w.workers[w.issued[t].worker].pc;
    && (t in w.late && t in w.tickets ==> w.tickets[t].Settling?)
    && if t !in w.taken then a == [] && t !in w.late
       else if pc.Idle? || pc.ticket != t then
         |a| == 1 && (a[0].TimedOut? || t !in w.tickets) && (t in w.late ==> a[0].TimedOut?)
       else match pc
         case Staging(_, _, slot) => a == (if slot then [] else [TimedOut]) && t !in w.late
         case Answering(_, left) => a == (if left.Some? then [] else [TimedOut]) && (t in w.late ==> left.None?)
         case _ => a == [] && t !in w.late
  }

  predicate BaseOk(w: World, e: Event, t: TicketId)
    requires Possible(w, e)
  {
    && Shaped(w) && Local(w, e) && Known(w, t) && PcOk(w, w.issued[t].worker)
    && (t in w.tickets ==> TicketOk(w, t))
  }

  lemma BaseFacts(w: World, e: Event, t: TicketId)
    requires StructureOk(w) && Possible(w, e) && t in w.issued
    ensures BaseOk(w, e, t)
  {
    hide Possible, Local, TicketOk, PcOk;
    LocalFacts(w, e);
    assert IssueOk(w, t);
  }

  lemma AnswersFrame(w: World, e: Event, t: TicketId)
    requires Possible(w, e) && Local(w, e) && t in w.issued && w.issued[t].worker < |w.workers|
    requires Site(w, e) != Some(w.issued[t].worker)
    ensures AnswersOf(AnswersAfter(w, e), t) == AnswersOf(w.answers, t)
    ensures t in LateAfter(w, e) <==> t in w.late
    ensures t in TakenAfter(w, e) <==> t in w.taken
  {
    hide TicketOk;
  }

  lemma SettlingStays(w: World, e: Event, t: TicketId)
    requires Possible(w, e) && Local(w, e) && t in w.issued && t in TicketsAfter(w, e)
    ensures t in w.tickets && (w.tickets[t].Settling? ==> TicketsAfter(w, e)[t].Settling?)
  {
    hide GenerationOf;
  }

  lemma AnswerKeptElsewhere(w: World, e: Event, t: TicketId)
    requires Possible(w, e) && BaseOk(w, e, t) && AnswerOk(w, t) && Site(w, e) != Some(w.issued[t].worker)
    ensures Known(Apply(w, e), t) && AnswerOk(Apply(w, e), t)
  {
    hide PoolAfter, AnswersAfter, CallsAfter, TakenAfter, LateAfter, WorkersAfter, ElapsedAfter, FatesAfter,
         TicketsAfter, Possible, Local, TicketOk, PcOk;
    StaysShaped(w, e);
    Grows(w, e);
    WorkerFrame(w, e, w.issued[t].worker);
    AnswersFrame(w, e, t);
    if t in TicketsAfter(w, e) {
      SettlingStays(w, e, t);
    }
  }

  predicate Speaks(e: Event) {
    e.DeadlineElapses? || e.StageEnds? || e.Reply?
  }

  lemma AnswerKeptSilently(w: World, e: Event, t: TicketId)
    requires Possible(w, e) && BaseOk(w, e, t) && AnswerOk(w, t) && Site(w, e) == Some(w.issued[t].worker) && !Speaks(e)
    ensures Known(Apply(w, e), t) && AnswerOk(Apply(w, e), t)
  {
    hide PoolAfter, CallsAfter, GenerationOf, ElapsedAfter, FatesAfter, TicketsAfter;
    StaysShaped(w, e);
    Grows(w, e);
    if t in TicketsAfter(w, e) {
      SettlingStays(w, e, t);
    }
  }

  lemma AnswerKeptSpeaking(w: World, e: Event, t: TicketId)
    requires Possible(w, e) && BaseOk(w, e, t) && AnswerOk(w, t) && Site(w, e) == Some(w.issued[t].worker) && Speaks(e)
    ensures Known(Apply(w, e), t) && AnswerOk(Apply(w, e), t)
  {
    hide PoolAfter, CallsAfter, GenerationOf, TicketOk, ElapsedAfter, FatesAfter;
    StaysShaped(w, e);
    Grows(w, e);
  }

  lemma NewTicketUnanswered(w: World, e: Event)
    requires StructureOk(w) && Possible(w, e) && e.CompareExchange? && e.ticket in Apply(w, e).issued
    requires e.ticket !in w.answers && e.ticket !in w.late
    ensures Known(Apply(w, e), e.ticket) && AnswerOk(Apply(w, e), e.ticket)
  {
    hide PoolAfter, GenerationOf, TicketOk, QueueOk, PcOk, CallOk, WorkerAfter;
    StaysShaped(w, e);
  }

  // ---- Renders -----------------------------------------------------------

  predicate Unstarted(w: World, t: TicketId)
    requires t in w.tickets && Known(w, t)
  {
    && !w.tickets[t].Dropping? && !w.tickets[t].Settling?
    && var pc := w.workers[w.issued[t].worker].pc;
    !(pc.Staging? && pc.ticket == t && pc.stage.Rendering?)
  }

  predicate RenderOk(w: World, t: TicketId)
    requires t in w.tickets && Known(w, t)
  {
    Unstarted(w, t) ==>
      var call := w.calls[w.issued[t].call];
      call.renders == 0 && call.last == Some(t) && (call.phase in {Holding(t), Waiting(t), Left})
  }

  predicate Bounced(w: World, t: TicketId)
    requires t in w.issued && w.issued[t].worker < |w.workers|
  {
    AnswersOf(w.answers, t) == [Redispatched] ||
    w.workers[w.issued[t].worker].pc == Answering(t, Some(Redispatched))
  }

  predicate RendersOk(w: World, c: CallId)
    requires c in w.calls
  {
    var call := w.calls[c];
    && call.renders <= 1
    && (call.phase.Picking? || call.phase.Probing? || call.phase.Reading? ==> call.renders == 0)
    && (call.last.Some? && Known(w, call.last.value) && Bounced(w, call.last.value) ==> call.renders == 0)
  }

  predicate PcRenderOk(w: World, i: nat)
    requires i < |w.workers|
  {
    var pc := w.workers[i].pc;
    (pc.Checking? || pc.Staging?) && pc.ticket in w.tickets && Known(w, pc.ticket) ==>
      RenderOk(w, pc.ticket) && AnswerOk(w, pc.ticket)
  }

  lemma NewTicketRender(w: World, e: Event)
    requires Shaped(w) && Possible(w, e) && Local(w, e)
    requires e.CompareExchange? && Wins(w, e.call, e.spurious) && RendersOk(w, e.call)
    ensures e.ticket in Apply(w, e).tickets && Known(Apply(w, e), e.ticket) && RenderOk(Apply(w, e), e.ticket)
  {
    hide PoolAfter, AnswersAfter, GenerationOf, TicketOk, WorkerAfter, Bounced, AnswersOf;
    StaysShaped(w, e);
  }

  lemma PhaseBefore(w: World, e: Event, t: TicketId)
    requires Possible(w, e) && Local(w, e) && t in w.tickets && t in TicketsAfter(w, e)
    requires !TicketsAfter(w, e)[t].Dropping? && !TicketsAfter(w, e)[t].Settling?
    ensures !w.tickets[t].Dropping? && !w.tickets[t].Settling?
    ensures e.Recheck? && e.ticket == t ==> At(w, t) && w.workers[w.issued[t].worker].available
    ensures !(e.FailSend? && e.ticket == t)
    ensures !(e.StageEnds? && w.workers[e.worker].pc.ticket == t)
  {
    hide GenerationOf, Wins;
  }

  predicate Renders(k: Worker, t: TicketId) {
    k.pc.Staging? && k.pc.ticket == t && k.pc.stage.Rendering?
  }

  lemma RendersAfter(w: World, e: Event, i: nat, t: TicketId)
    requires Possible(w, e) && Local(w, e) && i < |w.workers| && i < |WorkersAfter(w, e)|
    requires !(e.StageEnds? && w.workers[e.worker].pc.ticket == t) && !Renders(WorkersAfter(w, e)[i], t)
    ensures !Renders(w.workers[i], t) && !(e.StartRender? && e.worker == i && w.workers[i].pc.ticket == t)
  {
    hide GenerationOf, Wins, TicketOk, QueuedAt, PcOk;
    if Site(w, e) != Some(i) {
      WorkerFrame(w, e, i);
    }
  }

  lemma UnstartedBefore(w: World, e: Event, t: TicketId)
    requires Possible(w, e) && BaseOk(w, e, t) && t in w.tickets && t in Apply(w, e).tickets
    requires Known(Apply(w, e), t) && Unstarted(Apply(w, e), t)
    ensures Unstarted(w, t) && !(e.StartRender? && w.workers[e.worker].pc.ticket == t)
    ensures e.Recheck? && e.ticket == t ==> w.workers[w.issued[t].worker].available
    ensures !(e.FailSend? && e.ticket == t)
  {
    hide PoolAfter, AnswersAfter, CallsAfter, GenerationOf, TicketsAfter, WorkersAfter, TicketOk, QueuedAt;
    PhaseBefore(w, e, t);
    Grows(w, e);
    assert !Renders(Apply(w, e).workers[w.issued[t].worker], t);
    RendersAfter(w, e, w.issued[t].worker, t);
  }

  /** A ticket that has not started keeps its call at zero renders. */
  lemma RenderKept(w: World, e: Event, t: TicketId)
    requires Possible(w, e) && BaseOk(w, e, t) && t in w.tickets && RenderOk(w, t) && AnswerOk(w, t)
    requires e.StartRender? ==> PcRenderOk(w, e.worker)
    requires t in Apply(w, e).tickets && Known(Apply(w, e), t)
    ensures RenderOk(Apply(w, e), t)
  {
    hide PoolAfter, AnswersAfter, GenerationOf, WorkersAfter, TicketsAfter, Unstarted;
    Grows(w, e);
    if Unstarted(Apply(w, e), t) {
      UnstartedBefore(w, e, t);
      UnstartedCallKept(w, e, t);
    }
  }

  lemma UnstartedCallKept(w: World, e: Event, t: TicketId)
    requires Possible(w, e) && BaseOk(w, e, t) && t in w.tickets && RenderOk(w, t) && AnswerOk(w, t) && Unstarted(w, t)
    requires e.StartRender? ==> PcRenderOk(w, e.worker) && w.workers[e.worker].pc.ticket != t
    requires e.Recheck? && e.ticket == t ==> w.workers[w.issued[t].worker].available
    ensures w.issued[t].call in CallsAfter(w, e)
    ensures var call := CallsAfter(w, e)[w.issued[t].call];
            call.renders == 0 && call.last == Some(t) && (call.phase in {Holding(t), Waiting(t), Left})
  {
    hide GenerationOf;
    if Caller(w, e) != Some(w.issued[t].call) {
      CallFrame(w, e, w.issued[t].call);
    }
  }

  predicate LastOk(w: World, c: CallId)
    requires c in w.calls
  {
    var last := w.calls[c].last;
    last.Some? ==>
      && Known(w, last.value) && AnswerOk(w, last.value) && PcOk(w, w.issued[last.value].worker)
      && (last.value in w.tickets ==> RenderOk(w, last.value))
  }

  lemma RendersCounted(w: World, e: Event, c: CallId)
    requires Shaped(w) && Possible(w, e) && Local(w, e) && c in w.calls
             && RendersOk(w, c) && CallOk(w, c) && LastOk(w, c)
    requires e.StartRender? ==> PcRenderOk(w, e.worker)
    requires e.Recheck? ==> RenderOk(w, e.ticket)
    ensures c in CallsAfter(w, e) && CallsAfter(w, e)[c].renders <= 1
    ensures var call := CallsAfter(w, e)[c];
            call.phase.Picking? || call.phase.Probing? || call.phase.Reading? ==> call.renders == 0
  {
    hide GenerationOf;
    if Caller(w, e) != Some(c) {
      CallFrame(w, e, c);
    }
  }

  lemma BouncedSince(w: World, e: Event, t: TicketId)
    requires Shaped(w) && Possible(w, e) && Local(w, e) && Known(w, t) && AnswerOk(w, t)
    requires t in Apply(w, e).issued && Apply(w, e).issued[t].worker < |Apply(w, e).workers| && Bounced(Apply(w, e), t)
    ensures Bounced(w, t) || (e.Bounce? && w.workers[e.worker].pc.ticket == t)
  {
    hide PoolAfter, GenerationOf, TicketsAfter, LateAfter, TakenAfter, CallsAfter, ElapsedAfter, FatesAfter;
    Grows(w, e);
    if Sends(w, e).Some? {
      var was := AnswersOf(w.answers, w.workers[e.worker].pc.ticket);
      assert (was + [Sends(w, e).value])[|was|] == Sends(w, e).value;
    }
  }

  /** A bounced ticket was never started, so its call still has no render. */
  lemma BouncedUnrendered(w: World, e: Event, c: CallId)
    requires Shaped(w) && Possible(w, e) && Local(w, e) && c in w.calls
             && RendersOk(w, c) && CallOk(w, c) && LastOk(w, c)
    requires e.StartRender? ==> PcRenderOk(w, e.worker)
    requires w.calls[c].last.Some?
    requires Bounced(w, w.calls[c].last.value) || (e.Bounce? && w.workers[e.worker].pc.ticket == w.calls[c].last.value)
    ensures c in CallsAfter(w, e) && CallsAfter(w, e)[c].renders == 0
  {
    hide GenerationOf;
    if Caller(w, e) != Some(c) {
      CallFrame(w, e, c);
    }
  }

  // ---- Every run ---------------------------------------------------------

  predicate HistoryOk(w: World) {
    w.answers.Keys <= w.issued.Keys && w.late <= w.issued.Keys
  }

  predicate RepliesOk(w: World) {
    forall t | t in w.issued :: Known(w, t) && AnswerOk(w, t)
  }

  predicate StartsOk(w: World) {
    forall t | t in w.tickets :: Known(w, t) && RenderOk(w, t)
  }

  predicate CallsOk(w: World) {
    forall c | c in w.calls :: RendersOk(w, c)
  }

  predicate DepthsOk(w: World) {
    forall i | 0 <= i < |w.workers| :: DepthOk(w, i)
  }

  ghost predicate SafeOk(w: World) {
    StructureOk(w) && HistoryOk(w) && RepliesOk(w) && StartsOk(w) && CallsOk(w) && DepthsOk(w) && PoolOk(w.pool)
  }

  lemma HistoryKept(w: World, e: Event)
    requires StructureOk(w) && HistoryOk(w) && Possible(w, e)
    ensures HistoryOk(Apply(w, e))
  {
    hide PoolAfter, CallsAfter, WorkersAfter, TicketsAfter, StructureOk, TicketOk, ElapsedAfter, FatesAfter;
    LocalFacts(w, e);
    Grows(w, e);
    assert StructureOk(w) ==> forall i | 0 <= i < |w.workers| :: PcOk(w, i) by { PcsOk(w); }
  }

  lemma PcsOk(w: World)
    requires StructureOk(w)
    ensures forall i | 0 <= i < |w.workers| :: PcOk(w, i)
  {
  }

  lemma RepliesKept(w: World, e: Event)
    requires StructureOk(w) && HistoryOk(w) && RepliesOk(w) && Possible(w, e)
    ensures RepliesOk(Apply(w, e))
  {
    hide StructureOk, Possible, Local, BaseOk, AnswerOk, CallsAfter, TicketsAfter, WorkersAfter, PoolAfter,
         AnswersAfter, TakenAfter, LateAfter, Site, Wins;
    ShapedIfOk(w);
    var v := Apply(w, e);
    forall t | t in v.issued ensures Known(v, t) && AnswerOk(v, t) {
      if t in w.issued {
        BaseFacts(w, e, t);
        if Site(w, e) == Some(w.issued[t].worker) {
          if Speaks(e) { AnswerKeptSpeaking(w, e, t); } else { AnswerKeptSilently(w, e, t); }
        } else {
          AnswerKeptElsewhere(w, e, t);
        }
      } else {
        NewTicketUnanswered(w, e);
      }
    }
  }

  lemma PcRenderFacts(w: World, i: nat)
    requires RepliesOk(w) && StartsOk(w) && i < |w.workers|
    ensures PcRenderOk(w, i)
  {
    hide RenderOk, AnswerOk;
  }

  lemma StartKept(w: World, e: Event, t: TicketId)
    requires StructureOk(w) && RepliesOk(w) && StartsOk(w) && CallsOk(w) && Possible(w, e) && t in Apply(w, e).tickets
    ensures Known(Apply(w, e), t) && RenderOk(Apply(w, e), t)
  {
    hide Local, BaseOk, AnswerOk, RenderOk, RendersOk, TicketOk, QueueOk, PcOk, CallOk, IssueOk, PcRenderOk,
         CallsAfter, WorkersAfter, PoolAfter, AnswersAfter, TakenAfter, LateAfter, Unstarted;
    StructureKept(w, e);
    assert TicketOk(Apply(w, e), t);
    KnownIfOk(Apply(w, e), t);
    LocalFacts(w, e);
    if t in w.tickets {
      KnownIfOk(w, t);
      BaseFacts(w, e, t);
      if e.StartRender? { PcRenderFacts(w, e.worker); }
      RenderKept(w, e, t);
    } else {
      if Subject(w, e) != Some(t) { TicketFrame(w, e, t); } else { SubjectStands(w, e); }
      assert e.CompareExchange?;
      NewTicketRender(w, e);
    }
  }

  lemma KnownIfOk(w: World, t: TicketId)
    requires t in w.tickets && TicketOk(w, t)
    ensures Known(w, t)
  {
  }

  lemma LastFacts(w: World, c: CallId)
    requires StructureOk(w) && RepliesOk(w) && StartsOk(w) && c in w.calls
    ensures CallOk(w, c) && LastOk(w, c)
  {
    hide AnswerOk, RenderOk, TicketOk, QueueOk, PcOk;
    assert CallOk(w, c);
  }

  lemma CallRendersKept(w: World, e: Event, c: CallId)
    requires StructureOk(w) && RepliesOk(w) && StartsOk(w) && CallsOk(w) && HistoryOk(w)
             && Possible(w, e) && c in Apply(w, e).calls
    ensures RendersOk(Apply(w, e), c)
  {
    hide StructureOk, RepliesOk, StartsOk, Local, Possible, AnswerOk, RenderOk, CallOk, LastOk, PcRenderOk, Bounced,
         TicketsAfter, WorkersAfter, PoolAfter, AnswersAfter, TakenAfter, LateAfter, IssuedAfter, CallsAfter;
    ShapedIfOk(w);
    LocalFacts(w, e);
    var v := Apply(w, e);
    if c in w.calls {
      LastFacts(w, c);
      StepRenderFacts(w, e);
      RendersCounted(w, e, c);
      var last := v.calls[c].last;
      if last.Some? && Known(v, last.value) && Bounced(v, last.value) {
        if last == w.calls[c].last {
          LastKnown(w, c);
          BouncedSince(w, e, last.value);
          BouncedUnrendered(w, e, c);
        } else {
          NewLastNotBounced(w, e, c);
        }
      }
    } else {
      ArrivesClean(w, e, c);
    }
  }

  lemma LastKnown(w: World, c: CallId)
    requires c in w.calls && LastOk(w, c) && w.calls[c].last.Some?
    ensures Known(w, w.calls[c].last.value) && AnswerOk(w, w.calls[c].last.value)
  {
  }

  lemma StepRenderFacts(w: World, e: Event)
    requires RepliesOk(w) && StartsOk(w) && Possible(w, e)
    ensures e.StartRender? ==> e.worker < |w.workers| && PcRenderOk(w, e.worker)
    ensures e.Recheck? ==> e.ticket in w.tickets && Known(w, e.ticket) && RenderOk(w, e.ticket)
  {
    hide RenderOk, AnswerOk, PcRenderOk, RepliesOk;
    if e.StartRender? { PcRenderFacts(w, e.worker); }
  }

  lemma ArrivesClean(w: World, e: Event, c: CallId)
    requires Shaped(w) && Possible(w, e) && c in Apply(w, e).calls && c !in w.calls
    ensures RendersOk(Apply(w, e), c)
  {
    hide PoolAfter, AnswersAfter, TicketsAfter, WorkersAfter;
  }

  lemma NewLastNotBounced(w: World, e: Event, c: CallId)
    requires StructureOk(w) && HistoryOk(w) && Possible(w, e) && c in w.calls && c in Apply(w, e).calls
    requires Apply(w, e).calls[c].last.Some? && Apply(w, e).calls[c].last != w.calls[c].last
    ensures Known(Apply(w, e), Apply(w, e).calls[c].last.value) ==>
              !Bounced(Apply(w, e), Apply(w, e).calls[c].last.value)
  {
    hide PoolAfter, TicketsAfter, TakenAfter, LateAfter, TicketOk, QueueOk, IssueOk, CallOk, ElapsedAfter,
         FatesAfter;
    assert e.CompareExchange? && Wins(w, e.call, e.spurious) && Apply(w, e).calls[c].last == Some(e.ticket);
    assert PcOk(w, w.calls[e.call].phase.worker);
  }

  lemma PoolKept(w: World, e: Event)
    requires StructureOk(w) && PoolOk(w.pool) && Possible(w, e)
    ensures PoolOk(Apply(w, e).pool)
  {
    hide StructureOk, PoolOk, CallsAfter, TicketsAfter, WorkersAfter, AnswersAfter, MarkLoaded, MarkSource, ClearLoaded;
    ShapedIfOk(w);
    match e
    case Mark(t, source, now) =>
      var i := w.issued[t].worker;
      MarkLoadedKeeps(w.pool, i, w.issued[t].job.profile, now);
      var marked := MarkLoaded(w.pool, i, w.issued[t].job.profile, now);
      SizedIfOk(marked);
      MarkedSize(w.pool, i, w.issued[t].job.profile, now);
      if source.Some? {
        MarkSourceKeeps(marked, i, source.value);
      }
    case Clear(t) => ClearLoadedKeeps(w.pool, w.issued[t].worker);
    case _ =>
  }

  lemma MarkedSize(p: Pool, i: nat, profile: WorkerProfile, now: nat)
    requires Sized(p) && i < |p.loaded|
    ensures |MarkLoaded(p, i, profile, now).loaded| == |p.loaded|
  {
  }

  lemma EventKeeps(w: World, e: Event)
    requires SafeOk(w) && Possible(w, e)
    ensures SafeOk(Apply(w, e))
  {
    hide Possible, Apply, StructureOk, HistoryOk, RepliesOk, PoolOk, Known, RenderOk, RendersOk, DepthOk;
    StructureKept(w, e);
    HistoryKept(w, e);
    RepliesKept(w, e);
    PoolKept(w, e);
    ShapedIfOk(w);
    StaysShaped(w, e);
    var v := Apply(w, e);
    forall t | t in v.tickets ensures Known(v, t) && RenderOk(v, t) { StartKept(w, e, t); }
    forall c | c in v.calls ensures RendersOk(v, c) { CallRendersKept(w, e, c); }
    forall i | 0 <= i < |v.workers| ensures DepthOk(v, i) { DepthKept(w, e, i); }
  }

  lemma InitSafe(w: World)
    requires Init(w)
    ensures Shaped(w) && SafeOk(w)
  {
    hide Multiplicity, AffinityOk;
    NewPoolOk(|w.workers|);
    forall i | 0 <= i < |w.workers| ensures QueueOk(w, i) && PcOk(w, i) && DepthOk(w, i) {
      assert IdleWorker(w.workers[i]);
      assert TicketsAt(w, i) == {};
    }
  }

  lemma {:induction false} RunKeeps(w: World, run: seq<Event>)
    requires Shaped(w) && SafeOk(w) && Legal(w, run)
    ensures SafeOk(Run(w, run))
    decreases |run|
  {
    hide SafeOk, Apply, Possible, Shaped;
    if run != [] {
      StaysShaped(w, run[0]);
      EventKeeps(w, run[0]);
      RunKeeps(Apply(w, run[0]), run[1..]);
    }
  }

  /** Conservation: in every run a worker's depth is the number of reservations in
      transit plus live completions, never negative and never above the hard limit. */
  lemma AdmissionConserved(init: World, run: seq<Event>, i: nat)
    requires Init(init) && Shaped(init) && Legal(init, run) && i < |Run(init, run).workers|
    ensures var w := Run(init, run);
            0 <= w.workers[i].depth == |TicketsAt(w, i)| <= w.capacity
  {
    hide Run, Legal, Init, StructureOk, HistoryOk, RepliesOk, StartsOk, CallsOk, PoolOk;
    InitSafe(init);
    RunKeeps(init, run);
    assert DepthOk(Run(init, run), i);
  }

  /** However often a call is redispatched, at most one native render is started
      for it. */
  lemma AtMostOneRender(init: World, run: seq<Event>, c: CallId)
    requires Init(init) && Shaped(init) && Legal(init, run) && c in Run(init, run).calls
    ensures Run(init, run).calls[c].renders <= 1
  {
    hide Run, Legal, Init, StructureOk, HistoryOk, RepliesOk, StartsOk, DepthsOk, PoolOk;
    InitSafe(init);
    RunKeeps(init, run);
    assert RendersOk(Run(init, run), c);
  }

  /** A command that was never dequeued gets no reply; a dequeued one gets exactly
      one by the time its worker turns to something else, and never two. */
  lemma OneReply(init: World, run: seq<Event>, t: TicketId)
    requires Init(init) && Shaped(init) && Legal(init, run) && t in Run(init, run).issued
    ensures var w := Run(init, run); var a := AnswersOf(w.answers, t);
            && w.issued[t].worker < |w.workers| && |a| <= 1
            && (t !in w.taken ==> a == [])
            && var pc := w.workers[w.issued[t].worker].pc;
            t in w.taken && (pc.Idle? || pc.ticket != t) ==> |a| == 1
  {
    hide Run, Legal, Init, StructureOk, HistoryOk, StartsOk, CallsOk, DepthsOk, PoolOk;
    InitSafe(init);
    RunKeeps(init, run);
    assert AnswerOk(Run(init, run), t);
  }

  /** A reply that carries an outcome or hands the task back is sent only after
      the reservation was given back. */
  lemma SettledBeforeReply(init: World, run: seq<Event>, t: TicketId)
    requires Init(init) && Shaped(init) && Legal(init, run) && t in Run(init, run).issued
    requires AnswersOf(Run(init, run).answers, t) != [] && !AnswersOf(Run(init, run).answers, t)[0].TimedOut?
    ensures t !in Run(init, run).tickets
  {
    hide Run, Legal, Init, StructureOk, HistoryOk, StartsOk, CallsOk, DepthsOk, PoolOk;
    InitSafe(init);
    RunKeeps(init, run);
    assert AnswerOk(Run(init, run), t);
  }

  /** A completion found past its deadline is answered as a timeout and nothing
      else, and its accounting is settled or about to be. */
  lemma LateIsNeverCompleted(init: World, run: seq<Event>, t: TicketId)
    requires Init(init) && Shaped(init) && Legal(init, run) && t in Run(init, run).late
    ensures AnswersOf(Run(init, run).answers, t) == [TimedOut]
    ensures t in Run(init, run).tickets ==> Possible(Run(init, run), Release(t))
  {
    hide Run, Legal, Init, StructureOk, StartsOk, CallsOk, DepthsOk, PoolOk;
    InitSafe(init);
    RunKeeps(init, run);
    assert AnswerOk(Run(init, run), t);
  }

  /** In every run the predicted profile counts are the exact multiplicities and
      every worker's source set is its bounded, duplicate-free recency list. */
  lemma PoolStateExact(init: World, run: seq<Event>)
    requires Init(init) && Shaped(init) && Legal(init, run)
    ensures PoolOk(Run(init, run).pool)
  {
    hide Run, Legal, Init, StructureOk, HistoryOk, RepliesOk, StartsOk, CallsOk, DepthsOk, PoolOk;
    InitSafe(init);
    RunKeeps(init, run);
  }

  // ---- Hidden workers ----------------------------------------------------

  predicate HiddenOk(k: Worker) {
    k.pc.Staging? && !k.pc.slot ==> !k.available
  }

  lemma HiddenKept(w: World, e: Event, i: nat)
    requires Possible(w, e) && i < |w.workers| && i < |WorkersAfter(w, e)| && HiddenOk(w.workers[i])
    ensures HiddenOk(WorkersAfter(w, e)[i])
  {
    hide Wins, GenerationOf, AnswerLeft;
    if Site(w, e) != Some(i) {
      WorkerFrame(w, e, i);
    }
  }

  lemma {:induction false} RunKeepsHidden(w: World, run: seq<Event>)
    requires Shaped(w) && Legal(w, run) && forall i | 0 <= i < |w.workers| :: HiddenOk(w.workers[i])
    ensures forall i | 0 <= i < |Run(w, run).workers| :: HiddenOk(Run(w, run).workers[i])
    decreases |run|
  {
    hide Possible, Shaped, HiddenOk, CallsAfter, TicketsAfter, IssuedAfter, WorkersAfter, PoolAfter, AnswersAfter;
    if run != [] {
      StaysShaped(w, run[0]);
      var v := Apply(w, run[0]);
      forall i | 0 <= i < |v.workers| ensures HiddenOk(v.workers[i]) {
        HiddenKept(w, run[0], i);
      }
      RunKeepsHidden(v, run[1..]);
    }
  }

  /** A worker still busy with a command past its response deadline attracts no new
      work: no call can start reserving it, and a reservation that slipped in before
      is taken back at the recheck. */
  lemma LateWorkerIsHidden(init: World, run: seq<Event>, i: nat, c: CallId, t: TicketId)
    requires Init(init) && Shaped(init) && Legal(init, run) && i < |Run(init, run).workers|
    requires Run(init, run).workers[i].pc.Staging? && !Run(init, run).workers[i].pc.slot
    ensures !Possible(Run(init, run), Probe(c, i))
    ensures var w := Run(init, run);
            Shaped(w) && Possible(w, Recheck(t)) && w.issued[t].worker == i ==>
              Apply(w, Recheck(t)).tickets[t].Settling?
  {
    hide Run, Legal, PoolAfter, CallsAfter, WorkersAfter, AnswersAfter;
    forall j | 0 <= j < |init.workers| ensures HiddenOk(init.workers[j]) {
      assert IdleWorker(init.workers[j]);
    }
    RunKeepsHidden(init, run);
  }

  // ---- Source affinity ---------------------------------------------------

  /** A worker predicted to hold nothing is credited with no source. */
  predicate NoStrayAffinity(p: Pool)
    requires Sized(p)
  {
    forall i | 0 <= i < |p.loaded| && p.loaded[i].None? :: p.sourceIds[i] == {} && p.sourceLru[i] == []
  }

  lemma AffinityKept(w: World, e: Event)
    requires Shaped(w) && Possible(w, e) && NoStrayAffinity(w.pool)
    ensures Sized(PoolAfter(w, e)) && NoStrayAffinity(PoolAfter(w, e))
  {
    hide Increment, Forget, Touched, Elements, GenerationOf, Wins;
  }

  lemma {:induction false} RunKeepsAffinity(w: World, run: seq<Event>)
    requires Shaped(w) && Legal(w, run) && NoStrayAffinity(w.pool)
    ensures Sized(Run(w, run).pool) && NoStrayAffinity(Run(w, run).pool)
    decreases |run|
  {
    hide Possible, CallsAfter, TicketsAfter, IssuedAfter, WorkersAfter, PoolAfter, AnswersAfter, NoStrayAffinity;
    if run != [] {
      StaysShaped(w, run[0]);
      AffinityKept(w, run[0]);
      RunKeepsAffinity(Apply(w, run[0]), run[1..]);
    }
  }

  /** In every run a worker with no predicted profile attracts no task by its
      sources. */
  lemma AffinityNeedsProfile(init: World, run: seq<Event>, i: nat)
    requires Init(init) && Shaped(init) && Legal(init, run)
    ensures Sized(Run(init, run).pool)
    ensures i < |Run(init, run).pool.loaded| && Run(init, run).pool.loaded[i].None? ==>
              Run(init, run).pool.sourceIds[i] == {} && Run(init, run).pool.sourceLru[i] == []
  {
    hide Run, Legal;
    RunKeepsAffinity(init, run);
  }
}
