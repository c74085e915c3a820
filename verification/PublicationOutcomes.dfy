/** What a publisher is told, over every run: a conflict exactly when the key
    belongs to another mutation, and a refusal only while its precondition does
    not hold.
  */
module PublicationOutcomes {
  import opened Text
  import opened MutationIdentity
  import opened PublicationProtocol
  import opened PublicationSafety
  import opened PublicationRecovery

  // ---- Conflicts ---------------------------------------------------------

  /** The stored intent is another mutation than the request asks for. */
  predicate OtherMutation(i: Intent, r: Request) {
    || i.digest != KeyDigest(r.idempotencyKey)
    || i.actor != r.actor
    || i.action != Publish
    || i.target.account != r.account
    || i.target.kind != Style
    || i.target.localId != r.styleId
    || i.input != InputDigest(StyleInputIdentity(r.location, r.precondition, r.body))
    || (i.locator.Some? && i.locator.value != r.location)
  }

  lemma MatchesExactly(i: Intent, r: Request)
    ensures Matches(i, r) <==> !OtherMutation(i, r)
  {
    hide StyleInputIdentity;
  }

  predicate PastIntent(pc: Pc) {
    !pc.CreateIntent? && !pc.ReadIntent? && pc != Done(IdempotencyConflict)
  }

  lemma PastIntentStays(s: Shared, id: JobId, job: Job, given: Supply)
    requires Enabled(s, job, given) && PastIntent(job.pc)
    ensures PastIntent(Step(s, id, job, given).1.pc)
  {
    hide Matches, SameResult, StyleCommit, InputOf, StoreObject, Locate, ValidStyle;
  }

  lemma {:induction false} NoConflictLater(s: Shared, id: JobId, job: Job, given: Supply)
    requires Ready(s, job, given) && PastIntent(job.pc)
    ensures Alone(s, id, job, given).1 != IdempotencyConflict
    decreases Rank(job.pc)
  {
    hide Step, PastIntent;
    if !job.pc.Done? {
      StepStaysReady(s, id, job, given);
      PastIntentStays(s, id, job, given);
      var (t, next) := Step(s, id, job, given);
      NoConflictLater(t, id, next, given);
      AloneStep(s, id, job, given);
    } else {
      AloneDone(s, id, job.task, job.pc.outcome, given);
      NotConflict(job.pc);
    }
  }

  lemma NotConflict(pc: Pc)
    requires PastIntent(pc) && pc.Done?
    ensures pc.outcome != IdempotencyConflict
  {}

  /** A request whose key holds an intent is a conflict, and changes nothing, if and
      only if that intent is another mutation. */
  lemma ConflictExactly(s: Shared, id: JobId, r: Request, given: Supply)
    requires RequestKey(r) in s.intents
    requires given.reference !in s.usedReferences && given.version !in s.usedVersions
    ensures Ready(s, Begin(PublishStyle(r)), given)
    ensures Alone(s, id, Begin(PublishStyle(r)), given) == (s, IdempotencyConflict) <==>
            OtherMutation(s.intents[RequestKey(r)], r)
  {
    hide Alone, Matches, OtherMutation, Ready;
    var job, i := Begin(PublishStyle(r)), s.intents[RequestKey(r)];
    MatchesExactly(i, r);
    assert Ready(s, job, given) by { ReadyAtStart(s, r, given); }
    AloneStep(s, id, job, given);
    AloneStep(s, id, job.(pc := ReadIntent), given);
    if Matches(i, r) {
      NoConflictLater(s, id, job.(pc := ReadCompletion(i)), given);
    } else {
      AloneDone(s, id, PublishStyle(r), IdempotencyConflict, given);
    }
  }

  lemma ReadyAtStart(s: Shared, r: Request, given: Supply)
    requires given.reference !in s.usedReferences && given.version !in s.usedVersions
    ensures Ready(s, Begin(PublishStyle(r)), given)
  {}

  // ---- Every run ---------------------------------------------------------

  predicate Versioned(o: Outcome) {
    o.Committed? || o.AlreadyCompleted?
  }

  /** What a publisher found out on the way, and still holds. */
  predicate Learned(s: Shared, job: Job) {
    job.task.PublishStyle? ==>
      var r, key := job.task.request, TaskKey(job.task);
      match job.pc
      case PutReplacement(_, v) => r.location in s.objects && v in s.usedVersions
      case ResolveRace(_) =>
        && r.location in s.objects
        && (r.precondition.MustMatch? ==>
              r.precondition.expected in s.usedVersions && s.objects[r.location].version != r.precondition.expected)
      case Done(o) =>
        && (o.IdempotencyConflict? ==> key in s.intents && !Matches(s.intents[key], r))
        && (Versioned(o) ==> key in s.intents && Matches(s.intents[key], r))
      case _ => true
  }

  /** Objects are replaced under new versions and never deleted. */
  ghost predicate Replacing(s: Shared, t: Shared) {
    && s.usedVersions <= t.usedVersions
    && forall l | l in s.objects ::
         l in t.objects && (t.objects[l] == s.objects[l] || t.objects[l].version !in s.usedVersions)
  }

  ghost predicate Forward(s: Shared, t: Shared) {
    Extends(s, t) && Replacing(s, t)
  }

  lemma PutReplaces(s: Shared, r: Request, i: Intent, v: Evidence, replaced: Option<VersionEvidence>)
    requires v !in s.usedVersions
    ensures Replacing(s, StoreObject(s, r, i, v, replaced))
  {}

  lemma SameObjects(s: Shared, t: Shared)
    requires t.objects == s.objects && t.usedVersions == s.usedVersions
    ensures Replacing(s, t)
  {}

  lemma StepReplaces(s: Shared, id: JobId, job: Job, given: Supply)
    requires Enabled(s, job, given)
    ensures Replacing(s, Step(s, id, job, given).0)
  {
    hide Matches, PlanCommit, PlanAfterRace, PlanReconcile, StyleCommit, InputOf, SameResult, StoreObject, Replacing;
    var t := Step(s, id, job, given).0;
    if t.objects == s.objects && t.usedVersions == s.usedVersions {
      SameObjects(s, t);
    } else if job.pc.PutNew? {
      PutReplaces(s, job.task.request, job.pc.intent, given.version, None);
    } else {
      PutReplaces(s, job.task.request, job.pc.intent, given.version, Some(job.pc.expected));
    }
  }

  lemma StepForward(s: Shared, id: JobId, job: Job, given: Supply)
    requires SharedOk(s) && JobOk(s, id, job) && Enabled(s, job, given)
    ensures Forward(s, Step(s, id, job, given).0)
  {
    hide SharedOk, JobOk, Extends, Replacing, Step, Enabled;
    StepKeeps(s, id, job, given);
    StepReplaces(s, id, job, given);
  }

  lemma LearnedStays(s: Shared, t: Shared, job: Job)
    requires Forward(s, t) && Learned(s, job)
    ensures Learned(t, job)
  {
    hide Matches;
  }

  lemma StepLearns(s: Shared, id: JobId, job: Job, given: Supply)
    requires SharedOk(s) && JobOk(s, id, job) && Enabled(s, job, given) && Learned(s, job)
    ensures Learned(Step(s, id, job, given).0, Step(s, id, job, given).1)
  {
    hide IntentsOk, PutsOk, CompletionsOk, SeenAt, LinkedAt, Matches, AdoptCurrent, PlanReconcile, StyleCommit, Backed,
         ValidStyle, InputOf;
    AdoptionGoesOn(s, job);
  }

  lemma AdoptionGoesOn(s: Shared, job: Job)
    ensures forall i: Intent, o: Object, l: string, d: Option<Digest> ::
              var pc := AdoptCurrent(i, o, l, d);
              pc.CreateCompletion? || (pc.Done? && !Versioned(pc.outcome) && !pc.outcome.IdempotencyConflict?)
  {
    hide ValidStyle, StyleCommit;
  }

  ghost predicate AllLearned(w: World) {
    forall id | id in w.jobs :: Learned(w.shared, w.jobs[id])
  }

  lemma EventLearns(w: World, e: Event)
    requires WorldOk(w) && AllLearned(w) && Possible(w, e)
    ensures AllLearned(Apply(w, e))
  {
    hide SharedOk, JobOk, Step, Forward, Learned;
    var next := Apply(w, e);
    match e
    case Advance(id, given) =>
      assert JobOk(w.shared, id, w.jobs[id]);
      StepForward(w.shared, id, w.jobs[id], given);
      StepLearns(w.shared, id, w.jobs[id], given);
      forall j | j in next.jobs ensures Learned(next.shared, next.jobs[j]) {
        if j != id {
          LearnedStays(w.shared, next.shared, w.jobs[j]);
        }
      }
    case Start(id, task) => NothingLearned(w.shared, Begin(task));
    case Crash(id) => NothingLearned(w.shared, w.jobs[id].(pc := Done(Crashed)));
  }

  lemma NothingLearned(s: Shared, job: Job)
    requires job.pc.CreateIntent? || job.pc.ReadIntent? || job.pc == Done(Crashed)
    ensures Learned(s, job)
  {}

  lemma {:induction false} RunLearns(w: World, run: seq<Event>)
    requires WorldOk(w) && AllLearned(w) && Legal(w, run)
    ensures AllLearned(Run(w, run))
    decreases |run|
  {
    hide WorldOk, AllLearned, Apply, Possible;
    if run != [] {
      EventKeeps(w, run[0]);
      EventLearns(w, run[0]);
      RunLearns(Apply(w, run[0]), run[1..]);
    }
  }

  lemma Reachable(w: World, run: seq<Event>)
    requires Init(w) && Legal(w, run)
    ensures WorldOk(Run(w, run)) && AllLearned(Run(w, run))
  {
    hide WorldOk, Run, Legal;
    InitOk(w);
    SafeRun(w, run);
    RunLearns(w, run);
  }

  /** In every run, a publisher told a conflict came with another mutation than its
      key's intent records, and one told a version came with that very mutation. */
  lemma ConflictInEveryRun(w: World, run: seq<Event>, id: JobId)
    requires Init(w) && Legal(w, run) && id in Run(w, run).jobs
    requires Run(w, run).jobs[id].task.PublishStyle? && Run(w, run).jobs[id].pc.Done?
    ensures
      var s, r, o := Run(w, run).shared, Run(w, run).jobs[id].task.request, Run(w, run).jobs[id].pc.outcome;
      && (o.IdempotencyConflict? ==> RequestKey(r) in s.intents && OtherMutation(s.intents[RequestKey(r)], r))
      && (Versioned(o) ==> RequestKey(r) in s.intents && !OtherMutation(s.intents[RequestKey(r)], r))
  {
    hide Init, Legal, Run, WorldOk, Matches, OtherMutation;
    Reachable(w, run);
    var s, r := Run(w, run).shared, Run(w, run).jobs[id].task.request;
    assert Learned(s, Run(w, run).jobs[id]);
    if RequestKey(r) in s.intents {
      MatchesExactly(s.intents[RequestKey(r)], r);
    }
  }

  /** Two publishers under one key are told a version only if they asked for the same
      thing: the same actor, style, location, precondition and body. */
  lemma OneMutationPerKey(w: World, run: seq<Event>, a: JobId, b: JobId)
    requires Init(w) && Legal(w, run) && a in Run(w, run).jobs && b in Run(w, run).jobs
    requires
      var f := Run(w, run);
      && f.jobs[a].task.PublishStyle? && f.jobs[a].pc.Done? && Versioned(f.jobs[a].pc.outcome)
      && f.jobs[b].task.PublishStyle? && f.jobs[b].pc.Done? && Versioned(f.jobs[b].pc.outcome)
      && TaskKey(f.jobs[a].task) == TaskKey(f.jobs[b].task)
    ensures
      var x, y := Run(w, run).jobs[a].task.request, Run(w, run).jobs[b].task.request;
      && x.actor == y.actor && x.account == y.account && x.styleId == y.styleId
      && x.location == y.location && x.precondition == y.precondition && x.body == y.body
  {
    hide Init, Legal, Run, StyleInputIdentity;
    ConflictInEveryRun(w, run, a);
    ConflictInEveryRun(w, run, b);
    var x, y := Run(w, run).jobs[a].task.request, Run(w, run).jobs[b].task.request;
    InputIdentityInjective(x.location, x.precondition, x.body, y.location, y.precondition, y.body);
  }

  /** In every run, what was put is a style of one byte to two mebibytes. */
  lemma PutsAreBounded(w: World, run: seq<Event>, i: nat)
    requires Init(w) && Legal(w, run) && i < |Run(w, run).shared.puts|
    ensures 0 < |Run(w, run).shared.puts[i].body| <= 2_097_152
  {
    hide Init, Legal, Run, ChainOk, CompletionsOk, JobOk, Spent, StyleInputIdentity, TryStylePath;
    SafeRun(w, run);
    assert Requested(Run(w, run).shared, Run(w, run).shared.puts[i]);
  }

  // ---- Refusals ----------------------------------------------------------

  predicate Refused(o: Outcome) {
    o.StyleExists? || o.PreconditionFailed? || o.StyleNotFound?
  }

  /** In every run, whenever a publisher is refused: its precondition does not hold at
      that moment, its own object is not current, and the error names what is wrong.
      Races with other publishers and retries included. */
  lemma RefusalIsTrue(w: World, run: seq<Event>, id: JobId, given: Supply)
    requires Init(w) && Legal(w, run) && Possible(Run(w, run), Advance(id, given))
    requires
      var next := Apply(Run(w, run), Advance(id, given)).jobs[id];
      next.task.PublishStyle? && next.pc.Done? && Refused(next.pc.outcome)
    ensures
      var s, next := Run(w, run).shared, Apply(Run(w, run), Advance(id, given)).jobs[id];
      var r := next.task.request;
      && !PreconditionHolds(s, r) && !StillCurrent(s, r)
      && (next.pc.outcome.StyleExists? <==> r.precondition.MustNotExist?)
      && (next.pc.outcome.StyleNotFound? <==> r.precondition.MustMatch? && r.location !in s.objects)
      && Apply(Run(w, run), Advance(id, given)).shared == s
  {
    hide Init, Legal, Run, SharedOk, JobOk, Learned, Step, Enabled, PreconditionHolds, StillCurrent, Refused;
    Reachable(w, run);
    var f := Run(w, run);
    assert JobOk(f.shared, id, f.jobs[id]) && Learned(f.shared, f.jobs[id]);
    SameTask(f.shared, id, f.jobs[id], given);
    RefusedStep(f.shared, id, f.jobs[id], given);
  }

  lemma SameTask(s: Shared, id: JobId, job: Job, given: Supply)
    requires Enabled(s, job, given)
    ensures Step(s, id, job, given).1.task == job.task
  {
    hide Matches, PlanCommit, PlanAfterRace, PlanReconcile, StyleCommit, InputOf, SameResult, StoreObject;
  }

  lemma RefusedStep(s: Shared, id: JobId, job: Job, given: Supply)
    requires JobOk(s, id, job) && Learned(s, job) && Enabled(s, job, given) && job.task.PublishStyle?
    requires Step(s, id, job, given).1.pc.Done? && Refused(Step(s, id, job, given).1.pc.outcome)
    ensures
      var r, o := job.task.request, Step(s, id, job, given).1.pc.outcome;
      && !PreconditionHolds(s, r) && !StillCurrent(s, r)
      && (o.StyleExists? <==> r.precondition.MustNotExist?)
      && (o.StyleNotFound? <==> r.precondition.MustMatch? && r.location !in s.objects)
      && Step(s, id, job, given).0 == s
  {
    hide Matches, StyleCommit, ValidStyle, Backed, InputOf, SameResult;
  }
}
