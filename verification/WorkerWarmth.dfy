/** Does the pool's prediction agree with what a worker has really loaded?

    Marking and sending share no lock, so a command may overtake one marked after
    it. What decides is the command sent last: if none sent before it carries a
    later generation, the prediction for a worker with nothing outstanding is
    true, whatever overtook what before.
  */
module WorkerWarmth {
  import opened Text
  import opened PoolState
  import opened WorkerProtocol
  import opened WorkerSafety

  predicate HasGeneration(phase: Phase) {
    phase.AtSender? || phase.Queued? || phase.Taken? || phase.Dropping?
  }

  /** A live completion is no newer than its worker's generation counter, and the
      newest one is what the prediction was made for. */
  predicate PredictedOk(w: World, t: TicketId)
    requires Shaped(w) && t in w.tickets && Known(w, t)
  {
    var i, g := w.issued[t].worker, GenerationOf(w, t);
    HasGeneration(w.tickets[t]) ==>
      && 0 < g <= w.pool.generations[i]
      && (g == w.pool.generations[i] && w.pool.loaded[i].Some? ==> w.pool.loaded[i].value == w.issued[t].job.profile)
  }

  /** Past setup the renderer holds the running command's job. */
  predicate SetUpOk(w: World, i: nat)
    requires i < |w.workers|
  {
    var k := w.workers[i];
    k.pc.Staging? && !k.pc.stage.Begin? ==> k.pc.ticket in w.issued && k.current == Some(w.issued[k.pc.ticket].job)
  }

  predicate Newest(w: World, i: nat, t: TicketId)
    requires Shaped(w) && i < |w.workers|
  {
    Stands(w, t, i) && HasGeneration(w.tickets[t]) && GenerationOf(w, t) == w.pool.generations[i]
  }

  predicate Agrees(w: World, i: nat)
    requires Shaped(w) && i < |w.workers|
  {
    w.pool.loaded[i].Some? ==>
      w.workers[i].current.Some? && w.workers[i].current.value.profile == w.pool.loaded[i].value
  }

  /** The command sent last stands last in the queue; once it has completed, the
      worker is done with everything sent and holds its job. */
  predicate SentOk(w: World, i: nat)
    requires i < |w.workers|
  {
    var k := w.workers[i];
    && (k.queue != [] ==> k.last.Some? && k.last.value.ticket == k.queue[|k.queue| - 1])
    && (k.last.Some? ==> k.last.value.ticket in w.issued && k.last.value.generation <= k.top)
    && (k.last.Some? && k.last.value.done ==>
          k.queue == [] && !k.pc.Checking? && !k.pc.Staging? && k.current == Some(w.issued[k.last.value.ticket].job))
  }

  /** The command sent last carries the newest generation, and the prediction made
      for it stands. */
  predicate LastIsNewest(w: World, i: nat)
    requires Shaped(w) && i < |w.workers|
  {
    var k := w.workers[i];
    k.last.Some? && k.last.value.generation == w.pool.generations[i] && w.pool.loaded[i].Some?
  }

  /** Then the prediction is its profile, and it is still under way or completed. */
  predicate LastPredicted(w: World, i: nat)
    requires Shaped(w) && i < |w.workers|
  {
    LastIsNewest(w, i) ==>
      var l := w.workers[i].last.value;
      && l.ticket in w.issued && w.pool.loaded[i].value == w.issued[l.ticket].job.profile
      && (l.done || Newest(w, i, l.ticket))
  }

  /** The newest command has not been sent, and perhaps never will be. */
  predicate Unsettled(w: World, i: nat, t: TicketId)
    requires Shaped(w) && i < |w.workers|
  {
    Newest(w, i, t) && (w.tickets[t].AtSender? || w.tickets[t].Dropping?)
  }

  /** A standing prediction was made for a command that was sent or is at hand. */
  ghost predicate PredictionSent(w: World, i: nat)
    requires Shaped(w) && i < |w.workers|
  {
    && w.workers[i].top <= w.pool.generations[i]
    && (w.pool.loaded[i].Some? ==>
          (w.workers[i].last.Some? && w.workers[i].top == w.pool.generations[i]) || exists t :: Unsettled(w, i, t))
  }

  ghost predicate WarmthOk(w: World) {
    && StructureOk(w)
    && (forall t | t in w.tickets :: Known(w, t) && PredictedOk(w, t))
    && (forall i | 0 <= i < |w.workers| :: SetUpOk(w, i))
    && (forall i | 0 <= i < |w.workers| :: SentOk(w, i))
    && (forall i | 0 <= i < |w.workers| :: LastPredicted(w, i))
    && (forall i | 0 <= i < |w.workers| :: PredictionSent(w, i))
  }

  // ---- Generations -------------------------------------------------------

  /** A ticket's generation is fixed from the moment it is marked. */
  lemma GenerationKept(w: World, e: Event, t: TicketId)
    requires Shaped(w) && Possible(w, e) && Local(w, e)
    requires t in w.tickets && HasGeneration(w.tickets[t])
             && t in TicketsAfter(w, e) && HasGeneration(TicketsAfter(w, e)[t])
    ensures GenerationOf(Apply(w, e), t) == GenerationOf(w, t)
  {
    hide PoolAfter, CallsAfter, WorkersAfter, AnswersAfter, IssuedAfter;
  }

  lemma MarkedFrom(w: World, e: Event, t: TicketId)
    requires Shaped(w) && Possible(w, e) && Local(w, e)
    requires t in TicketsAfter(w, e) && HasGeneration(TicketsAfter(w, e)[t])
    ensures t in w.tickets && (HasGeneration(w.tickets[t]) || (e.Mark? && e.ticket == t))
  {
    hide GenerationOf;
  }

  lemma GenerationsAfter(w: World, e: Event, i: nat)
    requires Shaped(w) && Possible(w, e) && i < |w.workers|
    ensures Shaped(Apply(w, e)) && i < |Apply(w, e).workers|
    ensures Apply(w, e).pool.generations[i] ==
            w.pool.generations[i] + (if e.Mark? && w.issued[e.ticket].worker == i then 1 else 0)
    ensures Apply(w, e).pool.loaded[i] ==
            if e.Mark? && w.issued[e.ticket].worker == i then Some(w.issued[e.ticket].job.profile)
            else if e.Clear? && w.issued[e.ticket].worker == i && w.pool.generations[i] == GenerationOf(w, e.ticket)
            then None
            else w.pool.loaded[i]
  {
    hide CallsAfter, WorkersAfter, AnswersAfter, TicketsAfter, Increment, Forget, Touched, GenerationOf;
    StaysShaped(w, e);
  }

  lemma PredictedKept(w: World, e: Event, t: TicketId)
    requires Shaped(w) && Possible(w, e) && Local(w, e) && t in TicketsAfter(w, e)
    requires t in w.tickets ==> Known(w, t) && PredictedOk(w, t)
    requires Shaped(Apply(w, e)) && t in Apply(w, e).tickets && Known(Apply(w, e), t)
    ensures PredictedOk(Apply(w, e), t)
  {
    hide Possible, Local, CallsAfter, WorkersAfter, AnswersAfter, TicketsAfter, PoolAfter, GenerationOf;
    if HasGeneration(TicketsAfter(w, e)[t]) {
      MarkedFrom(w, e, t);
      KnownWorker(w, t);
      Grows(w, e);
      GenerationsAfter(w, e, w.issued[t].worker);
      if HasGeneration(w.tickets[t]) {
        GenerationKept(w, e, t);
      } else {
        MarkedGeneration(w, e);
      }
    }
  }

  lemma KnownWorker(w: World, t: TicketId)
    requires Known(w, t)
    ensures t in w.issued && w.issued[t].worker < |w.workers|
  {
  }

  lemma MarkedGeneration(w: World, e: Event)
    requires Shaped(w) && Possible(w, e) && e.Mark?
    ensures GenerationOf(Apply(w, e), e.ticket) == w.pool.generations[w.issued[e.ticket].worker] + 1
  {
    hide PoolAfter, CallsAfter, WorkersAfter, AnswersAfter;
  }

  // ---- What was sent last ------------------------------------------------

  predicate SendsTo(w: World, e: Event, i: nat) {
    e.Send? && e.ticket in w.issued && w.issued[e.ticket].worker == i
  }

  predicate CompletesAt(e: Event, i: nat) {
    e.StageEnds? && e.worker == i && e.result.Completed?
  }

  lemma SentAfter(w: World, e: Event, i: nat)
    requires Possible(w, e) && i < |w.workers| && i < |WorkersAfter(w, e)|
    ensures CompletesAt(e, i) ==> w.workers[i].pc.Staging? && w.workers[i].pc.stage.Rendering?
    ensures WorkersAfter(w, e)[i].last ==
            if SendsTo(w, e, i) then Some(Sent(e.ticket, GenerationOf(w, e.ticket), false))
            else if CompletesAt(e, i) then Finish(w.workers[i].last, w.workers[i].pc.ticket)
            else w.workers[i].last
    ensures WorkersAfter(w, e)[i].top ==
            if SendsTo(w, e, i) then Max(w.workers[i].top, GenerationOf(w, e.ticket)) else w.workers[i].top
  {
    hide Wins, AnswerLeft, GenerationOf, Max, Finish;
    if Site(w, e) != Some(i) {
      WorkerFrame(w, e, i);
    }
  }

  lemma WorksAfter(w: World, e: Event, i: nat, t: TicketId)
    requires Possible(w, e) && i < |w.workers| && i < |WorkersAfter(w, e)| && Works(WorkersAfter(w, e)[i], t)
    ensures Works(w.workers[i], t) || (e.Dequeue? && e.worker == i && t == w.workers[i].queue[0])
  {
    hide Wins, AnswerLeft, GenerationOf, Finish;
    if Site(w, e) != Some(i) {
      WorkerFrame(w, e, i);
    }
  }

  // ---- Warmth ------------------------------------------------------------

  lemma SetUpKept(w: World, e: Event, i: nat)
    requires Possible(w, e) && i < |w.workers| && SetUpOk(w, i)
    requires Shaped(w) && i < |Apply(w, e).workers|
    ensures SetUpOk(Apply(w, e), i)
  {
    hide PoolAfter, AnswersAfter, CallsAfter, TicketsAfter, Wins, GenerationOf, AnswerLeft;
    Grows(w, e);
    if Site(w, e) != Some(i) {
      WorkerFrame(w, e, i);
    }
  }

  lemma CurrentAfter(w: World, e: Event, i: nat)
    requires Possible(w, e) && i < |w.workers| && i < |WorkersAfter(w, e)|
    requires !w.workers[i].pc.Staging? || (e.StageEnds? && e.worker == i && e.result.Completed?)
    ensures WorkersAfter(w, e)[i].current == w.workers[i].current
  {
    hide Wins, GenerationOf, AnswerLeft;
    if Site(w, e) != Some(i) {
      WorkerFrame(w, e, i);
    }
  }

  /** The newest completion stops being one only by clearing the prediction or by
      completing a render. */
  lemma NewestLost(w: World, e: Event, i: nat, t: TicketId)
    requires Shaped(w) && Possible(w, e) && Local(w, e) && i < |w.workers| && Newest(w, i, t)
    requires t !in TicketsAfter(w, e) || !HasGeneration(TicketsAfter(w, e)[t])
    ensures (e.Clear? && e.ticket == t) ||
            (e.StageEnds? && e.worker == i && e.result.Completed? && w.workers[i].pc.ticket == t
             && w.workers[i].pc.Staging? && w.workers[i].pc.stage.Rendering?)
  {
    hide Wins, GenerationOf;
  }

  lemma NewestStays(w: World, e: Event, i: nat, t: TicketId)
    requires Shaped(w) && Possible(w, e) && Local(w, e) && i < |w.workers| && Newest(w, i, t)
    requires t in TicketsAfter(w, e) && HasGeneration(TicketsAfter(w, e)[t])
             && !(e.Mark? && w.issued[e.ticket].worker == i)
    ensures Shaped(Apply(w, e)) && i < |Apply(w, e).workers| && Newest(Apply(w, e), i, t)
  {
    hide Possible, Local, CallsAfter, WorkersAfter, AnswersAfter, TicketsAfter, PoolAfter, GenerationOf;
    Grows(w, e);
    GenerationsAfter(w, e, i);
    GenerationKept(w, e, t);
  }

  lemma MarkIsNewest(w: World, e: Event, i: nat)
    requires Shaped(w) && Possible(w, e) && Local(w, e) && i < |w.workers| && e.Mark? && w.issued[e.ticket].worker == i
    ensures Shaped(Apply(w, e)) && i < |Apply(w, e).workers| && Newest(Apply(w, e), i, e.ticket)
  {
    hide CallsAfter, WorkersAfter, AnswersAfter, PoolAfter, GenerationOf;
    GenerationsAfter(w, e, i);
    MarkedGeneration(w, e);
  }

  /** When the command sent last is running, nothing waits behind it. */
  lemma RunningLast(w: World, i: nat)
    requires i < |w.workers| && QueueOk(w, i) && PcOk(w, i) && SentOk(w, i)
    requires w.workers[i].pc.Staging? && w.workers[i].last.Some?
    requires w.workers[i].last.value.ticket == w.workers[i].pc.ticket
    ensures w.workers[i].queue == []
  {
    if w.workers[i].queue != [] {
      LastIsQueued(w, i);
      assert false;
    }
  }

  lemma LastIsQueued(w: World, i: nat)
    requires i < |w.workers| && QueueOk(w, i) && SentOk(w, i) && w.workers[i].queue != []
    ensures QueuedAt(w, i, w.workers[i].last.value.ticket)
  {
    assert QueuedAt(w, i, w.workers[i].queue[|w.workers[i].queue| - 1]);
  }

  lemma SentKept(w: World, e: Event, i: nat)
    requires Shaped(w) && Possible(w, e) && i < |w.workers| && i < |Apply(w, e).workers|
    requires QueueOk(w, i) && PcOk(w, i) && SetUpOk(w, i) && SentOk(w, i)
    ensures SentOk(Apply(w, e), i)
  {
    hide CallsAfter, AnswersAfter, TicketsAfter, PoolAfter, GenerationOf, WorkersAfter, IssuedAfter, Possible,
         QueueOk, PcOk;
    Grows(w, e);
    SentAfter(w, e, i);
    QueueAfter(w, e, i);
    var k, j := w.workers[i], Apply(w, e).workers[i];
    if j.last.Some? && j.last.value.done {
      if CompletesAt(e, i) && k.last.Some? && k.pc.ticket == k.last.value.ticket {
        RunningLast(w, i);
        EndsAfter(w, e, i);
      } else {
        CurrentAfter(w, e, i);
        if j.pc.Checking? || j.pc.Staging? {
          WorksAfter(w, e, i, j.pc.ticket);
        }
      }
    }
  }

  lemma EndsAfter(w: World, e: Event, i: nat)
    requires Possible(w, e) && i < |w.workers| && i < |WorkersAfter(w, e)| && CompletesAt(e, i)
    ensures WorkersAfter(w, e)[i].pc.Answering? && WorkersAfter(w, e)[i].current == w.workers[i].current
  {
    hide GenerationOf, AnswerLeft, Finish;
  }

  lemma SenderKnown(w: World, e: Event, i: nat)
    requires WarmthOk(w) && Possible(w, e) && i < |w.workers| && SendsTo(w, e, i)
    ensures Shaped(w) && Stands(w, e.ticket, i) && w.tickets[e.ticket].AtSender? && PredictedOk(w, e.ticket)
  {
    hide StructureOk, SetUpOk, SentOk, LastPredicted, PredictionSent;
    ShapedIfOk(w);
    assert Known(w, e.ticket) && PredictedOk(w, e.ticket);
  }

  lemma SentStays(w: World, e: Event)
    requires Shaped(w) && Possible(w, e) && e.Send?
    ensures e.ticket in TicketsAfter(w, e) && TicketsAfter(w, e)[e.ticket].Queued?
  {
  }

  lemma LastPredictedKept(w: World, e: Event, i: nat)
    requires WarmthOk(w) && Possible(w, e) && i < |w.workers|
    ensures Shaped(Apply(w, e)) && i < |Apply(w, e).workers| && LastPredicted(Apply(w, e), i)
  {
    hide StructureOk, SetUpOk, PredictedOk, SentOk, PredictionSent, Local, Newest, CallsAfter, AnswersAfter,
         TicketsAfter,
         PoolAfter, WorkersAfter, TakenAfter, LateAfter, GenerationOf, SendsTo, IssuedAfter, Possible;
    ShapedIfOk(w);
    LocalFacts(w, e);
    Grows(w, e);
    GenerationsAfter(w, e, i);
    SentAfter(w, e, i);
    assert LastPredicted(w, i) && SentOk(w, i) && PredictionSent(w, i);
    var v := Apply(w, e);
    if LastIsNewest(v, i) {
      if SendsTo(w, e, i) {
        SentPredicted(w, e, i);
      } else {
        NotMarked(w, e, i);
        var t := v.workers[i].last.value.ticket;
        if !v.workers[i].last.value.done {
          StillUnderWay(w, e, i, t);
        }
      }
    }
  }

  lemma NotMarked(w: World, e: Event, i: nat)
    requires Shaped(w) && Possible(w, e) && i < |w.workers| && SentOk(w, i) && PredictionSent(w, i)
    requires Shaped(Apply(w, e)) && i < |Apply(w, e).workers| && LastIsNewest(Apply(w, e), i) && !SendsTo(w, e, i)
    ensures !(e.Mark? && w.issued[e.ticket].worker == i) && LastIsNewest(w, i)
  {
    hide CallsAfter, AnswersAfter, TicketsAfter, PoolAfter, WorkersAfter, GenerationOf, SendsTo, Possible;
    GenerationsAfter(w, e, i);
    SentAfter(w, e, i);
  }

  lemma SentPredicted(w: World, e: Event, i: nat)
    requires WarmthOk(w) && Possible(w, e) && i < |w.workers| && SendsTo(w, e, i)
    requires Shaped(w) && Shaped(Apply(w, e)) && i < |Apply(w, e).workers| && LastIsNewest(Apply(w, e), i)
    ensures LastPredicted(Apply(w, e), i)
  {
    hide WarmthOk, CallsAfter, AnswersAfter, TicketsAfter, PoolAfter, WorkersAfter, IssuedAfter, GenerationOf, Possible,
         Local;
    SenderKnown(w, e, i);
    Grows(w, e);
    GenerationsAfter(w, e, i);
    SentAfter(w, e, i);
    SentStays(w, e);
    assert Local(w, e) by { WarmIsLocal(w, e); }
    NewestStays(w, e, i, e.ticket);
  }

  lemma WarmIsLocal(w: World, e: Event)
    requires WarmthOk(w) && Possible(w, e)
    ensures Local(w, e)
  {
    hide Local, StructureOk, PredictedOk, SetUpOk, SentOk, LastPredicted, PredictionSent;
    LocalFacts(w, e);
  }

  lemma StillUnderWay(w: World, e: Event, i: nat, t: TicketId)
    requires Shaped(w) && Possible(w, e) && Local(w, e) && i < |w.workers| && Newest(w, i, t)
    requires Shaped(Apply(w, e)) && i < |Apply(w, e).workers| && Apply(w, e).pool.loaded[i].Some?
    requires !(e.Mark? && w.issued[e.ticket].worker == i) && !SendsTo(w, e, i)
    requires w.workers[i].last.Some? && w.workers[i].last.value.ticket == t
    requires Apply(w, e).workers[i].last.Some? && !Apply(w, e).workers[i].last.value.done
    ensures Newest(Apply(w, e), i, t)
  {
    hide CallsAfter, AnswersAfter, TicketsAfter, PoolAfter, WorkersAfter, IssuedAfter, GenerationOf, Possible, Local,
         SendsTo;
    GenerationsAfter(w, e, i);
    SentAfter(w, e, i);
    if t in TicketsAfter(w, e) && HasGeneration(TicketsAfter(w, e)[t]) {
      NewestStays(w, e, i, t);
    } else {
      NewestLost(w, e, i, t);
      assert false;
    }
  }

  // ---- What was never sent -----------------------------------------------

  lemma UnsettledLost(w: World, e: Event, i: nat, t: TicketId)
    requires Shaped(w) && Possible(w, e) && Local(w, e) && i < |w.workers| && Unsettled(w, i, t)
    requires !(e.Clear? && e.ticket == t) && !(e.Send? && e.ticket == t)
    ensures t in TicketsAfter(w, e) && (TicketsAfter(w, e)[t].AtSender? || TicketsAfter(w, e)[t].Dropping?)
  {
    hide Wins, GenerationOf;
  }

  lemma UnsettledKept(w: World, e: Event, i: nat, t: TicketId)
    requires Shaped(w) && Possible(w, e) && Local(w, e) && i < |w.workers| && Unsettled(w, i, t)
    requires Shaped(Apply(w, e)) && i < |Apply(w, e).workers| && Apply(w, e).pool.loaded[i].Some?
    requires !(e.Mark? && w.issued[e.ticket].worker == i) && w.workers[i].top <= w.pool.generations[i]
    ensures Unsettled(Apply(w, e), i, t) ||
            (Apply(w, e).workers[i].last.Some? && Apply(w, e).workers[i].top == Apply(w, e).pool.generations[i])
  {
    hide CallsAfter, AnswersAfter, TicketsAfter, PoolAfter, WorkersAfter, IssuedAfter, GenerationOf, Possible, Local;
    GenerationsAfter(w, e, i);
    SentAfter(w, e, i);
    if !(e.Send? && e.ticket == t) {
      UnsettledLost(w, e, i, t);
      NewestStays(w, e, i, t);
    }
  }

  lemma PredictionSentKept(w: World, e: Event, i: nat)
    requires WarmthOk(w) && Possible(w, e) && i < |w.workers|
    ensures Shaped(Apply(w, e)) && i < |Apply(w, e).workers| && PredictionSent(Apply(w, e), i)
  {
    hide StructureOk, SetUpOk, PredictedOk, SentOk, LastPredicted, Local, Unsettled, CallsAfter, AnswersAfter,
         TicketsAfter, PoolAfter, WorkersAfter, TakenAfter, LateAfter, GenerationOf, SendsTo, IssuedAfter;
    ShapedIfOk(w);
    LocalFacts(w, e);
    GenerationsAfter(w, e, i);
    SentAfter(w, e, i);
    if SendsTo(w, e, i) { SenderBound(w, e, i); }
    assert PredictionSent(w, i);
    var v := Apply(w, e);
    if v.pool.loaded[i].Some? {
      if e.Mark? && w.issued[e.ticket].worker == i {
        MarkIsUnsettled(w, e, i);
      } else if t :| Unsettled(w, i, t) {
        UnsettledKept(w, e, i, t);
      }
    }
  }

  lemma SenderBound(w: World, e: Event, i: nat)
    requires WarmthOk(w) && Possible(w, e) && i < |w.workers| && SendsTo(w, e, i)
    ensures Shaped(w) && GenerationOf(w, e.ticket) <= w.pool.generations[i]
  {
    hide WarmthOk;
    SenderKnown(w, e, i);
  }

  lemma MarkIsUnsettled(w: World, e: Event, i: nat)
    requires Shaped(w) && Possible(w, e) && Local(w, e) && i < |w.workers| && e.Mark? && w.issued[e.ticket].worker == i
    ensures Shaped(Apply(w, e)) && i < |Apply(w, e).workers| && Unsettled(Apply(w, e), i, e.ticket)
  {
    hide CallsAfter, WorkersAfter, AnswersAfter, PoolAfter, GenerationOf;
    MarkIsNewest(w, e, i);
  }

  // ---- Every run ---------------------------------------------------------

  lemma EventKeepsWarmth(w: World, e: Event)
    requires WarmthOk(w) && Possible(w, e)
    ensures Shaped(Apply(w, e)) && WarmthOk(Apply(w, e))
  {
    hide StructureOk, SetUpOk, PredictedOk, SentOk, LastPredicted, PredictionSent, Apply, Possible;
    ShapedIfOk(w);
    StaysShaped(w, e);
    StructureKept(w, e);
    var v := Apply(w, e);
    forall t | t in v.tickets ensures Known(v, t) && PredictedOk(v, t) { PredictedStep(w, e, t); }
    forall i | 0 <= i < |v.workers| ensures SetUpOk(v, i) { SetUpKept(w, e, i); }
    forall i | 0 <= i < |v.workers| ensures SentOk(v, i) { SentStep(w, e, i); }
    forall i | 0 <= i < |v.workers| ensures LastPredicted(v, i) { LastPredictedKept(w, e, i); }
    forall i | 0 <= i < |v.workers| ensures PredictionSent(v, i) { PredictionSentKept(w, e, i); }
  }

  lemma SentStep(w: World, e: Event, i: nat)
    requires WarmthOk(w) && Possible(w, e) && i < |w.workers|
    requires Shaped(w) && i < |Apply(w, e).workers|
    ensures SentOk(Apply(w, e), i)
  {
    hide SetUpOk, PredictedOk, SentOk, LastPredicted, PredictionSent, Apply, Possible, QueueOk, PcOk, TicketOk, IssueOk,
         CallOk;
    assert QueueOk(w, i) && PcOk(w, i) && SetUpOk(w, i) && SentOk(w, i);
    SentKept(w, e, i);
  }

  lemma PredictedStep(w: World, e: Event, t: TicketId)
    requires WarmthOk(w) && Possible(w, e) && t in Apply(w, e).tickets
    ensures Shaped(Apply(w, e)) && Known(Apply(w, e), t) && PredictedOk(Apply(w, e), t)
  {
    hide SetUpOk, PredictedOk, Local, SentOk, LastPredicted, PredictionSent, CallsAfter, TicketsAfter, IssuedAfter,
         WorkersAfter, PoolAfter, AnswersAfter,
         QueueOk, PcOk, CallOk, IssueOk, TicketOk;
    StaysShaped(w, e);
    StructureKept(w, e);
    LocalFacts(w, e);
    assert TicketOk(Apply(w, e), t);
    KnownIfOk(Apply(w, e), t);
    PredictedKept(w, e, t);
  }

  lemma InitWarm(w: World)
    requires Init(w)
    ensures Shaped(w) && WarmthOk(w)
  {
    InitSafe(w);
    hide SafeOk, StructureOk;
    assert StructureOk(w) by { SafeIsStructured(w); }
    forall i | 0 <= i < |w.workers| 
      ensures SetUpOk(w, i) && SentOk(w, i) && LastPredicted(w, i) && PredictionSent(w, i)
    {
      assert IdleWorker(w.workers[i]);
    }
  }

  lemma SafeIsStructured(w: World)
    requires SafeOk(w)
    ensures StructureOk(w)
  {
  }

  lemma {:induction false} RunKeepsWarmth(w: World, run: seq<Event>)
    requires Shaped(w) && WarmthOk(w) && Legal(w, run)
    ensures WarmthOk(Run(w, run))
    decreases |run|
  {
    hide WarmthOk, Apply, Possible, Shaped;
    if run != [] {
      EventKeepsWarmth(w, run[0]);
      RunKeepsWarmth(Apply(w, run[0]), run[1..]);
    }
  }

  /** Of all commands sent to this worker, the one sent last carries the highest
      generation; so does a worker that was sent none. */
  predicate LastNotOvertaken(k: Worker) {
    k.last.None? || k.last.value.generation == k.top
  }

  /** In every run, for a worker with nothing outstanding: the pool's prediction is
      true if the command sent last was not overtaken by a later generation, and if
      that command completed, the prediction is true exactly when it is for the
      predicted profile. */
  lemma WarmAgreement(init: World, run: seq<Event>, i: nat)
    requires Init(init) && Shaped(init) && Legal(init, run) && Shaped(Run(init, run)) && i < |Run(init, run).workers|
    requires Run(init, run).workers[i].depth == 0
    ensures
      var w := Run(init, run);
      var last := w.workers[i].last;
      && (LastNotOvertaken(w.workers[i]) ==> Agrees(w, i))
      && (last.Some? ==> last.value.ticket in w.issued)
      && (last.Some? && last.value.done ==>
            (Agrees(w, i) <==>
               w.pool.loaded[i].Some? ==> w.pool.loaded[i].value == w.issued[last.value.ticket].job.profile))
  {
    hide Run, Legal, Init, StructureOk, SetUpOk, PredictedOk, GenerationOf;
    InitWarm(init);
    RunKeepsWarmth(init, run);
    AdmissionConserved(init, run, i);
    var w := Run(init, run);
    TicketsAtIsStands(w, i);
    assert SentOk(w, i) && LastPredicted(w, i) && PredictionSent(w, i);
    assert TicketsAt(w, i) == {};
    forall t ensures !Newest(w, i, t) {
      assert t !in TicketsAt(w, i);
    }
  }
}
