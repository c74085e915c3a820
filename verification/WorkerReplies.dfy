/** Which reply a command gets, over every run: read off what happened to it, and
    what the caller can do with it.
  */
module WorkerReplies {
  import opened Text
  import opened PoolState
  import opened WorkerProtocol
  import opened WorkerSafety

  /** The deadline passed before the command was done. */
  predicate Overdue(w: World, t: TicketId) {
    t in w.elapsed || t in w.late
  }

  /** The reply the history of a ticket calls for. */
  function Due(w: World, t: TicketId): Option<Answer> {
    if Overdue(w, t) then Some(TimedOut)
    else if t !in w.fates then None
    else match w.fates[t] case HandedBack => Some(Redispatched) case Ended(result) => Some(Finished(result))
  }

  /** What the worker of a ticket knows of it, by where it stands. */
  predicate FateOk(w: World, t: TicketId)
    requires t in w.issued && w.issued[t].worker < |w.workers|
  {
    var a, pc := AnswersOf(w.answers, t), w.workers[w.issued[t].worker].pc;
    && (t in w.fates && w.fates[t].HandedBack? ==> !Overdue(w, t))
    && if t !in w.taken then a == [] && !Overdue(w, t) && t !in w.fates
       else if pc.Idle? || pc.ticket != t then t in w.fates && a == [Due(w, t).value]
       else match pc
         case Checking(_) => a == [] && !Overdue(w, t) && t !in w.fates
         case Staging(_, _, slot) =>
           && t !in w.fates && t !in w.late && (slot <==> t !in w.elapsed)
           && a == if slot then [] else [TimedOut]
         case Answering(_, left) =>
           && t in w.fates && left == (if Overdue(w, t) then None else Due(w, t))
           && a == if Overdue(w, t) then [TimedOut] else []
  }

  ghost predicate FatesOk(w: World) {
    forall t | t in w.issued :: Known(w, t) && FateOk(w, t)
  }

  /** Only what was dequeued has a history. */
  predicate HistoryKnown(w: World) {
    w.elapsed <= w.issued.Keys && w.fates.Keys <= w.issued.Keys
  }

  lemma FatesFrame(w: World, e: Event, t: TicketId)
    requires Possible(w, e) && Local(w, e) && t in w.issued && w.issued[t].worker < |w.workers|
    requires Site(w, e) != Some(w.issued[t].worker)
    ensures t in ElapsedAfter(w, e) <==> t in w.elapsed
    ensures t in FatesAfter(w, e) <==> t in w.fates
    ensures t in w.fates ==> FatesAfter(w, e)[t] == w.fates[t]
  {
    hide TicketOk;
  }

  lemma FateKeptElsewhere(w: World, e: Event, t: TicketId)
    requires Possible(w, e) && BaseOk(w, e, t) && FateOk(w, t) && Site(w, e) != Some(w.issued[t].worker)
    ensures Known(Apply(w, e), t) && FateOk(Apply(w, e), t)
  {
    hide PoolAfter, AnswersAfter, CallsAfter, TakenAfter, LateAfter, ElapsedAfter, FatesAfter, WorkersAfter,
         TicketsAfter, GenerationOf;
    StaysShaped(w, e);
    Grows(w, e);
    WorkerFrame(w, e, w.issued[t].worker);
    AnswersFrame(w, e, t);
    FatesFrame(w, e, t);
  }

  lemma FateKeptSilently(w: World, e: Event, t: TicketId)
    requires Possible(w, e) && BaseOk(w, e, t) && FateOk(w, t) && Site(w, e) == Some(w.issued[t].worker) && !Speaks(e)
    ensures Known(Apply(w, e), t) && FateOk(Apply(w, e), t)
  {
    hide PoolAfter, CallsAfter, GenerationOf, TicketsAfter;
    StaysShaped(w, e);
    Grows(w, e);
  }

  lemma FateKeptSpeaking(w: World, e: Event, t: TicketId)
    requires Possible(w, e) && BaseOk(w, e, t) && FateOk(w, t) && Site(w, e) == Some(w.issued[t].worker) && Speaks(e)
    ensures Known(Apply(w, e), t) && FateOk(Apply(w, e), t)
  {
    hide PoolAfter, CallsAfter, GenerationOf, TicketsAfter, TicketOk;
    StaysShaped(w, e);
    Grows(w, e);
  }

  lemma NewTicketFateless(w: World, e: Event)
    requires StructureOk(w) && HistoryOk(w) && HistoryKnown(w) && Possible(w, e) && e.CompareExchange?
    requires e.ticket in Apply(w, e).issued
    ensures Known(Apply(w, e), e.ticket) && FateOk(Apply(w, e), e.ticket)
  {
    hide PoolAfter, GenerationOf, TicketOk, QueueOk, PcOk, CallOk, WorkerAfter, TicketsAfter;
    StaysShaped(w, e);
    LocalFacts(w, e);
  }

  lemma FatesKept(w: World, e: Event)
    requires StructureOk(w) && HistoryOk(w) && HistoryKnown(w) && FatesOk(w) && Possible(w, e)
    ensures FatesOk(Apply(w, e))
  {
    hide StructureOk, HistoryOk, HistoryKnown, Possible, Local, BaseOk, FateOk, CallsAfter, TicketsAfter, WorkersAfter,
         PoolAfter, AnswersAfter, TakenAfter, LateAfter, ElapsedAfter, FatesAfter, Site, Wins;
    ShapedIfOk(w);
    var v := Apply(w, e);
    forall t | t in v.issued ensures Known(v, t) && FateOk(v, t) {
      if t in w.issued {
        BaseFacts(w, e, t);
        if Site(w, e) == Some(w.issued[t].worker) {
          if Speaks(e) { FateKeptSpeaking(w, e, t); } else { FateKeptSilently(w, e, t); }
        } else {
          FateKeptElsewhere(w, e, t);
        }
      } else {
        NewTicketFateless(w, e);
      }
    }
  }

  lemma HistoryStaysKnown(w: World, e: Event)
    requires StructureOk(w) && HistoryKnown(w) && Possible(w, e)
    ensures HistoryKnown(Apply(w, e))
  {
    hide PoolAfter, CallsAfter, WorkersAfter, TicketsAfter, AnswersAfter, StructureOk, TicketOk;
    LocalFacts(w, e);
    Grows(w, e);
    assert forall i | 0 <= i < |w.workers| :: PcOk(w, i) by { PcsOk(w); }
  }

  ghost predicate RepliedOk(w: World) {
    SafeOk(w) && HistoryKnown(w) && FatesOk(w)
  }

  lemma EventKeepsReplies(w: World, e: Event)
    requires RepliedOk(w) && Possible(w, e)
    ensures RepliedOk(Apply(w, e))
  {
    hide Possible, Apply, FatesOk, HistoryKnown, StructureOk, HistoryOk, RepliesOk, StartsOk, CallsOk, DepthsOk, PoolOk;
    EventKeeps(w, e);
    ShapedIfOk(w);
    FatesKept(w, e);
    HistoryStaysKnown(w, e);
  }

  lemma InitReplies(w: World)
    requires Init(w)
    ensures Shaped(w) && RepliedOk(w)
  {
    hide SafeOk;
    InitSafe(w);
  }

  lemma {:induction false} RunKeepsReplies(w: World, run: seq<Event>)
    requires Shaped(w) && RepliedOk(w) && Legal(w, run)
    ensures RepliedOk(Run(w, run))
    decreases |run|
  {
    hide RepliedOk, Apply, Possible, Shaped;
    if run != [] {
      StaysShaped(w, run[0]);
      EventKeepsReplies(w, run[0]);
      RunKeepsReplies(Apply(w, run[0]), run[1..]);
    }
  }

  /** The worker is done with the ticket and has yet to send its reply. */
  predicate ReplyLeft(w: World, t: TicketId) {
    exists i :: 0 <= i < |w.workers| && w.workers[i].pc.Answering? && w.workers[i].pc.ticket == t
  }

  /** In every run the reply to a command is what happened to it: handed back exactly
      when its worker bounced it, timed out exactly when its deadline elapsed in its
      stages or its completion came late, and otherwise the result its stages ended
      with; there is no other reply. */
  lemma ReplyIsFate(init: World, run: seq<Event>, t: TicketId)
    requires Init(init) && Shaped(init) && Legal(init, run) && t in Run(init, run).issued
    ensures
      var w := Run(init, run);
      var a := AnswersOf(w.answers, t);
      && (a == [Redispatched] <==> t in w.fates && w.fates[t] == HandedBack && !ReplyLeft(w, t))
      && (a == [TimedOut] <==> t in w.elapsed || t in w.late)
      && (forall r :: a == [Finished(r)] <==>
            t in w.fates && w.fates[t] == Ended(r) && t !in w.elapsed && t !in w.late && !ReplyLeft(w, t))
      && (a == [] || a == [Redispatched] || a == [TimedOut] || exists r :: a == [Finished(r)])
      && (t in w.fates && w.fates[t].HandedBack? ==> t in w.taken && t !in w.elapsed && t !in w.late)
  {
    hide Run, Legal, Init, SafeOk;
    InitReplies(init);
    RunKeepsReplies(init, run);
    FateIsReply(Run(init, run), t);
  }

  lemma FateIsReply(w: World, t: TicketId)
    requires RepliedOk(w) && t in w.issued
    ensures
      var a := AnswersOf(w.answers, t);
      && (a == [Redispatched] <==> t in w.fates && w.fates[t] == HandedBack && !ReplyLeft(w, t))
      && (a == [TimedOut] <==> t in w.elapsed || t in w.late)
      && (forall r :: a == [Finished(r)] <==>
            t in w.fates && w.fates[t] == Ended(r) && t !in w.elapsed && t !in w.late && !ReplyLeft(w, t))
      && (a == [] || a == [Redispatched] || a == [TimedOut] || exists r :: a == [Finished(r)])
      && (t in w.fates && w.fates[t].HandedBack? ==> t in w.taken && t !in w.elapsed && t !in w.late)
  {
    hide SafeOk, AnswersOf;
    assert FateOk(w, t) && Known(w, t);
    var i := w.issued[t].worker;
    LeftAtHome(w, t);
    assert [Redispatched][0] != [TimedOut][0];
    assert forall r :: [Finished(r)][0] == Finished(r);
  }

  lemma LeftAtHome(w: World, t: TicketId)
    requires SafeOk(w) && t in w.issued && w.issued[t].worker < |w.workers|
    ensures ReplyLeft(w, t) <==>
              w.workers[w.issued[t].worker].pc.Answering? && w.workers[w.issued[t].worker].pc.ticket == t
  {
    hide TicketOk, QueueOk, IssueOk, CallOk, RepliesOk, StartsOk, CallsOk, DepthsOk, PoolOk;
    if i :| 0 <= i < |w.workers| && w.workers[i].pc.Answering? && w.workers[i].pc.ticket == t {
      assert PcOk(w, i);
    }
  }

  // ---- What the caller does with it --------------------------------------

  /** A caller that is handed its task back picks a worker again: its job and its
      render count are as they were, and it may probe any available worker. Any other
      reply ends the call. */
  lemma ReceivedReply(w: World, c: CallId, i: nat)
    requires Shaped(w) && Possible(w, Receive(c)) && i < |w.workers|
    ensures Shaped(Apply(w, Receive(c))) && c in Apply(w, Receive(c)).calls
    ensures
      var v := Apply(w, Receive(c));
      && v.workers == w.workers && v.calls[c].job == w.calls[c].job && v.calls[c].renders == w.calls[c].renders
      && if w.answers[w.calls[c].phase.ticket][0] == Redispatched
         then v.calls[c].phase == Picking && (Possible(v, Probe(c, i)) <==> w.workers[i].available)
         else v.calls[c].phase == Left
  {
    hide PoolAfter;
    StaysShaped(w, Receive(c));
  }

  /** A call ends only by leaving, by a send that fails, or by a reply that does not hand
      the task back; until then every setback, a full queue or a worker that became
      unavailable, sets it back to picking. */
  lemma CallEndsExactly(w: World, e: Event, c: CallId)
    requires Shaped(w) && Possible(w, e) && c in w.calls && w.calls[c].phase != Left
    ensures c in Apply(w, e).calls && Apply(w, e).calls[c].job == w.calls[c].job
    ensures Apply(w, e).calls[c].phase == Left <==>
              || e == Leave(c)
              || (e.FailSend? && w.issued[e.ticket].call == c)
              || (e == Receive(c) && w.answers[w.calls[c].phase.ticket][0] != Redispatched)
    ensures e.Recheck? && w.issued[e.ticket].call == c && !w.workers[w.issued[e.ticket].worker].available ==>
              Apply(w, e).calls[c].phase == Picking
    ensures e.CompareExchange? && e.call == c && w.calls[c].phase.depth >= w.capacity ==>
              Apply(w, e).calls[c].phase == Picking
  {
    hide PoolAfter, TicketsAfter, WorkersAfter, AnswersAfter, IssuedAfter, TakenAfter, LateAfter, ElapsedAfter,
         FatesAfter, GenerationOf, Wins;
    if Caller(w, e) != Some(c) {
      CallFrame(w, e, c);
    }
  }

  /** A compare-and-swap goes through exactly when the queue is not full and no other
      call changed the depth that was read, nor does it fail by itself; then the call
      holds its ticket and the depth grew by one. A lost one reads the depth again, and
      a full queue is given up. */
  lemma ReservationExactly(w: World, e: Event)
    requires Shaped(w) && Possible(w, e) && e.CompareExchange?
    ensures
      var r, v := w.calls[e.call].phase, Apply(w, e);
      var i := r.worker;
      && i < |v.workers| && e.call in v.calls
      && if r.depth >= w.capacity then v.calls[e.call].phase == Picking && v.workers == w.workers
         else if w.workers[i].depth != r.depth || e.spurious then
           v.calls[e.call].phase == Reading(i, w.workers[i].depth) && v.workers == w.workers
         else
           && v.calls[e.call].phase == Holding(e.ticket) && v.workers[i].depth == w.workers[i].depth + 1
           && e.ticket in v.tickets && v.tickets[e.ticket] == Rechecking
  {
    hide PoolAfter, AnswersAfter;
    StaysShaped(w, e);
  }

  // ---- What a worker holds -----------------------------------------------

  /** Worker `i` set its renderer up for this job with ticket `t`, which is still in its
      stages or ended without invalidating the renderer. */
  predicate SetUpBy(w: World, i: nat, job: Job, t: TicketId)
    requires i < |w.workers|
  {
    && t in w.issued && w.issued[t].worker == i && w.issued[t].job == job
    && if t in w.fates then w.fates[t].Ended? && w.fates[t] != Ended(RendererError(true))
       else w.workers[i].pc.Staging? && w.workers[i].pc.ticket == t
  }

  ghost predicate HoldOk(w: World, i: nat)
    requires i < |w.workers|
  {
    w.workers[i].current.Some? ==> exists t :: SetUpBy(w, i, w.workers[i].current.value, t)
  }

  ghost predicate HeldOk(w: World) {
    forall i | 0 <= i < |w.workers| :: HoldOk(w, i)
  }

  /** What one step does to the job a worker is set up for. */
  lemma HeldAfter(w: World, e: Event, i: nat)
    requires Shaped(w) && Possible(w, e) && i < |w.workers| && i < |Apply(w, e).workers|
    ensures Apply(w, e).workers[i].current ==
              if e == SetUp(i) then Some(w.issued[w.workers[i].pc.ticket].job)
              else if e.StageEnds? && e.worker == i && e.result == RendererError(true) then None
              else w.workers[i].current
  {
    hide PoolAfter, TicketsAfter, CallsAfter, AnswersAfter, Wins, GenerationOf;
    if Site(w, e) != Some(i) {
      WorkerFrame(w, e, i);
    }
  }

  lemma SetUpStays(w: World, e: Event, i: nat, job: Job, t: TicketId)
    requires Shaped(w) && Possible(w, e) && i < |w.workers| && SetUpBy(w, i, job, t) && FateOk(w, t)
    requires !(e.StageEnds? && e.worker == i && e.result == RendererError(true))
    requires (e.StageEnds? || e.Bounce?) && w.workers[e.worker].pc.ticket == t ==> e.worker == i
    ensures i < |Apply(w, e).workers| && SetUpBy(Apply(w, e), i, job, t)
  {
    hide PoolAfter, TicketsAfter, CallsAfter, AnswersAfter, GenerationOf;
    StaysShaped(w, e);
    Grows(w, e);
    if Site(w, e) != Some(i) {
      WorkerFrame(w, e, i);
    }
  }

  lemma WorksOnItsOwn(w: World, i: nat)
    requires SafeOk(w) && i < |w.workers| && !w.workers[i].pc.Idle?
    ensures Known(w, w.workers[i].pc.ticket) && w.issued[w.workers[i].pc.ticket].worker == i
  {
    hide TicketOk, QueueOk, CallOk, RepliesOk, StartsOk, CallsOk, DepthsOk, PoolOk;
    assert PcOk(w, i);
  }

  lemma FateKnown(w: World, t: TicketId)
    requires RepliedOk(w) && t in w.issued
    ensures Known(w, t) && FateOk(w, t)
  {
    hide SafeOk, FateOk;
  }

  lemma HoldKept(w: World, e: Event, i: nat)
    requires Shaped(w) && RepliedOk(w) && Possible(w, e) && i < |w.workers| && HoldOk(w, i)
    ensures i < |Apply(w, e).workers| && HoldOk(Apply(w, e), i)
  {
    hide RepliedOk, FateOk, Apply;
    StaysShaped(w, e);
    HeldAfter(w, e, i);
    if e == SetUp(i) {
      SetUpHolds(w, i);
    } else if Apply(w, e).workers[i].current.Some? {
      var job := w.workers[i].current.value;
      var t :| SetUpBy(w, i, job, t);
      FateKnown(w, t);
      OwnStep(w, e);
      SetUpStays(w, e, i, job, t);
    }
  }

  lemma OwnStep(w: World, e: Event)
    requires RepliedOk(w) && Possible(w, e)
    ensures e.StageEnds? || e.Bounce? ==>
              var t := w.workers[e.worker].pc.ticket; Known(w, t) && w.issued[t].worker == e.worker
  {
    hide SafeOk, FatesOk;
    if e.StageEnds? || e.Bounce? {
      WorksOnItsOwn(w, e.worker);
    }
  }

  lemma SetUpHolds(w: World, i: nat)
    requires Shaped(w) && RepliedOk(w) && Possible(w, SetUp(i)) && i < |Apply(w, SetUp(i)).workers|
    ensures HoldOk(Apply(w, SetUp(i)), i)
  {
    hide SafeOk, FatesOk, PoolAfter, TicketsAfter, CallsAfter, AnswersAfter;
    var t := w.workers[i].pc.ticket;
    WorksOnItsOwn(w, i);
    FateKnown(w, t);
    assert SetUpBy(Apply(w, SetUp(i)), i, w.issued[t].job, t);
  }

  lemma HeldKept(w: World, e: Event)
    requires Shaped(w) && RepliedOk(w) && Possible(w, e) && HeldOk(w)
    ensures HeldOk(Apply(w, e))
  {
    hide Shaped, RepliedOk, Possible, HoldOk, Apply;
    StaysShaped(w, e);
    forall i | 0 <= i < |Apply(w, e).workers| ensures HoldOk(Apply(w, e), i) {
      HoldKept(w, e, i);
    }
  }

  lemma {:induction false} RunKeepsHeld(w: World, run: seq<Event>)
    requires Shaped(w) && RepliedOk(w) && Legal(w, run) && HeldOk(w)
    ensures HeldOk(Run(w, run))
    decreases |run|
  {
    hide RepliedOk, Apply, Possible, Shaped, HeldOk;
    if run != [] {
      StaysShaped(w, run[0]);
      EventKeepsReplies(w, run[0]);
      HeldKept(w, run[0]);
      RunKeepsHeld(Apply(w, run[0]), run[1..]);
    }
  }

  /** In every run a worker that counts as set up for a job was set up for it by one of
      its own tickets, and not by one whose stages invalidated the renderer. */
  lemma HeldIsSound(init: World, run: seq<Event>, i: nat)
    requires Init(init) && Shaped(init) && Legal(init, run) && i < |Run(init, run).workers|
    requires Run(init, run).workers[i].current.Some?
    ensures exists t :: SetUpBy(Run(init, run), i, Run(init, run).workers[i].current.value, t)
  {
    hide Run, Legal, RepliedOk;
    assert HeldOk(init);
    InitReplies(init);
    RunKeepsHeld(init, run);
    assert HoldOk(Run(init, run), i);
  }

  // ---- Handing a command back ---------------------------------------------

  lemma Next(w: World, e: Event, rest: seq<Event>)
    requires Shaped(w) && Possible(w, e) && Shaped(Apply(w, e)) && Legal(Apply(w, e), rest)
    ensures Legal(w, [e] + rest) && Run(w, [e] + rest) == Run(Apply(w, e), rest)
  {
    hide Apply, Possible, Shaped;
    assert ([e] + rest)[1..] == rest;
  }

  /** The worker, the ticket and the caller of a command being handed back. */
  predicate Returning(w: World, i: nat, t: TicketId, c: CallId) {
    && Shaped(w) && Known(w, t) && w.issued[t] == Issue(c, i, w.issued[t].job)
    && i < |w.workers| && w.workers[i].pc == Answering(t, Some(Redispatched))
    && w.calls[c].phase == Waiting(t) && AnswersOf(w.answers, t) == []
  }

  lemma Bounces(w: World, i: nat, t: TicketId, c: CallId)
    requires Shaped(w) && Possible(w, Bounce(i)) && w.workers[i].pc.ticket == t && At(w, t)
    requires w.issued[t].worker == i && w.issued[t].call == c
    requires w.calls[c].phase == Waiting(t) && AnswersOf(w.answers, t) == []
    ensures
      var v := Apply(w, Bounce(i));
      Returning(v, i, t, c) && At(v, t) && v.tickets[t].Dropping? && v.calls == w.calls
  {
    hide PoolAfter;
    StaysShaped(w, Bounce(i));
  }

  lemma Clears(w: World, i: nat, t: TicketId, c: CallId)
    requires Returning(w, i, t, c) && At(w, t) && w.tickets[t].Dropping?
    ensures Possible(w, Clear(t))
    ensures
      var v := Apply(w, Clear(t));
      Returning(v, i, t, c) && At(v, t) && v.tickets[t].Settling? && v.calls == w.calls
  {
    hide PoolAfter;
    StaysShaped(w, Clear(t));
  }

  lemma Releases(w: World, i: nat, t: TicketId, c: CallId)
    requires Returning(w, i, t, c) && At(w, t) && w.tickets[t].Settling?
    ensures Possible(w, Release(t))
    ensures
      var v := Apply(w, Release(t));
      Returning(v, i, t, c) && t !in v.tickets && v.calls == w.calls
  {
    hide PoolAfter;
    StaysShaped(w, Release(t));
  }

  lemma RepliesBack(w: World, i: nat, t: TicketId, c: CallId)
    requires Returning(w, i, t, c) && t !in w.tickets
    ensures Possible(w, Reply(i))
    ensures
      var v := Apply(w, Reply(i));
      && Shaped(v) && v.calls == w.calls && t in v.answers && v.answers[t] == [Redispatched]
      && Possible(v, Receive(c)) && |v.workers| == |w.workers|
  {
    hide PoolAfter;
    StaysShaped(w, Reply(i));
  }

  lemma WaitingOnWork(w: World, i: nat, c: CallId)
    requires RepliedOk(w) && i < |w.workers| && w.workers[i].pc.Checking? && c in w.calls
    requires w.calls[c].phase == Waiting(w.workers[i].pc.ticket)
    ensures Shaped(w) && At(w, w.workers[i].pc.ticket) && w.issued[w.workers[i].pc.ticket].worker == i
    ensures w.issued[w.workers[i].pc.ticket].call == c && AnswersOf(w.answers, w.workers[i].pc.ticket) == []
  {
    hide TicketOk, QueueOk, RepliesOk, StartsOk, CallsOk, DepthsOk, PoolOk, AnswersOf;
    assert PcOk(w, i) && CallOk(w, c);
    assert FateOk(w, w.workers[i].pc.ticket);
  }

  /** Progress: whenever a worker is to hand back a command that its caller still waits
      for, the remaining steps of that reply are possible, and after them the caller is
      picking again, free to probe every available worker. */
  lemma BouncedCallerPicksAgain(init: World, before: seq<Event>, i: nat, c: CallId) returns (run: seq<Event>)
    requires Init(init) && Shaped(init) && Legal(init, before) && Shaped(Run(init, before))
    requires i < |Run(init, before).workers| && c in Run(init, before).calls
    requires Possible(Run(init, before), Bounce(i))
    requires Run(init, before).calls[c].phase == Waiting(Run(init, before).workers[i].pc.ticket)
    ensures run != [] && run[0] == Bounce(i) && Legal(Run(init, before), run)
    ensures
      var w, v := Run(init, before), Run(Run(init, before), run);
      && c in v.calls && v.calls[c].phase == Picking && v.calls[c].job == w.calls[c].job
      && forall j | 0 <= j < |v.workers| && v.workers[j].available :: Possible(v, Probe(c, j))
  {
    hide Init, RepliedOk, Apply, Legal, Run, Known;
    InitReplies(init);
    RunKeepsReplies(init, before);
    var w := Run(init, before);
    var t := w.workers[i].pc.ticket;
    WaitingOnWork(w, i, c);
    Bounces(w, i, t, c);
    var a := Apply(w, Bounce(i));
    Clears(a, i, t, c);
    var b := Apply(a, Clear(t));
    Releases(b, i, t, c);
    var d := Apply(b, Release(t));
    RepliesBack(d, i, t, c);
    var e := Apply(d, Reply(i));
    ReceivedReply(e, c, i);
    forall j | 0 <= j < |e.workers| { ReceivedReply(e, c, j); }
    Finish(e, c);
    Next(d, Reply(i), [Receive(c)]);
    Next(b, Release(t), [Reply(i)] + [Receive(c)]);
    Next(a, Clear(t), [Release(t)] + ([Reply(i)] + [Receive(c)]));
    Next(w, Bounce(i), [Clear(t)] + ([Release(t)] + ([Reply(i)] + [Receive(c)])));
    run := [Bounce(i)] + ([Clear(t)] + ([Release(t)] + ([Reply(i)] + [Receive(c)])));
  }

  lemma Finish(w: World, c: CallId)
    requires Shaped(w) && Possible(w, Receive(c))
    ensures Legal(w, [Receive(c)]) && Run(w, [Receive(c)]) == Apply(w, Receive(c))
  {
    hide Apply, Possible, Shaped;
    StaysShaped(w, Receive(c));
    assert [Receive(c)][1..] == [];
  }
}
