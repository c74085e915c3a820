/** Recovery after a crash: what a retried request and a quiet reconciliation
    scan do from any reachable state of the stores.
  */
module PublicationRecovery {
  import opened Text
  import opened MutationIdentity
  import opened PublicationProtocol
  import opened PublicationSafety

  // ---- A job running without interference --------------------------------

  function Rank(pc: Pc): nat {
    match pc
    case CreateIntent => 8
    case ReadIntent => 7
    case ReadCompletion(_) => 6
    case ReadState(_) => 5
    case PutNew(_) => 4
    case PutReplacement(_, _) => 4
    case ResolveRace(_) => 3
    case CreateCompletion(_, _) => 2
    case CompareCompletion(_, _) => 1
    case Done(_) => 0
  }

  /** The supplied reference and version are still unused where the job may need them. */
  predicate Ready(s: Shared, job: Job, given: Supply) {
    && (job.pc.CreateIntent? ==> given.reference !in s.usedReferences)
    && (job.task.PublishStyle? && Rank(job.pc) >= 4 ==> given.version !in s.usedVersions)
    && (job.task.Reconcile? ==>
          !job.pc.CreateIntent? && !job.pc.PutNew? && !job.pc.PutReplacement? && !job.pc.ResolveRace?)
  }

  lemma PublishPlansAdvance(s: Shared, r: Request, i: Intent)
    ensures Rank(PlanCommit(s, r, i)) < 5 && Rank(PlanAfterRace(s, r, i)) < 3
  {
    hide ValidStyle, StyleCommit;
  }

  lemma ReconcilePlanAdvances(s: Shared, layout: Layout, i: Intent)
    ensures Rank(PlanReconcile(s, layout, i)) < 3
  {
    hide Locate, ValidStyle, StyleCommit;
  }

  lemma StepStaysReady(s: Shared, id: JobId, job: Job, given: Supply)
    requires Ready(s, job, given) && !job.pc.Done?
    ensures Enabled(s, job, given)
    ensures
      var (t, next) := Step(s, id, job, given);
      Ready(t, next, given) && Rank(next.pc) < Rank(job.pc) && next.task == job.task
  {
    hide Matches, SameResult, StyleCommit, InputOf, PlanCommit, PlanAfterRace, PlanReconcile, StoreObject;
    match job.pc
    case ReadState(i) =>
      match job.task {
        case PublishStyle(r) => PublishPlansAdvance(s, r, i);
        case Reconcile(layout, key) => ReconcilePlanAdvances(s, layout, i);
      }
    case ResolveRace(i) => PublishPlansAdvance(s, job.task.request, i);
    case _ =>
  }

  /** Runs a job to its end with no other job in between. */
  function Alone(s: Shared, id: JobId, job: Job, given: Supply): (Shared, Outcome)
    requires Ready(s, job, given)
    decreases Rank(job.pc)
  {
    match job.pc
    case Done(o) => (s, o)
    case _ =>
      StepStaysReady(s, id, job, given);
      var (t, next) := Step(s, id, job, given);
      Alone(t, id, next, given)
  }

  lemma AloneStep(s: Shared, id: JobId, job: Job, given: Supply)
    requires Ready(s, job, given) && !job.pc.Done?
    ensures Enabled(s, job, given)
    ensures
      var (t, next) := Step(s, id, job, given);
      Ready(t, next, given) && Alone(s, id, job, given) == Alone(t, id, next, given)
  {
    hide Step;
    StepStaysReady(s, id, job, given);
  }

  lemma AloneDone(s: Shared, id: JobId, task: Task, o: Outcome, given: Supply)
    ensures Ready(s, Job(task, Done(o)), given) && Alone(s, id, Job(task, Done(o)), given) == (s, o)
  {}

  /** A solo run is a legal run of the protocol, so every safety theorem covers it. */
  lemma {:induction false} AloneIsRun(w: World, id: JobId, given: Supply) returns (run: seq<Event>)
    requires id in w.jobs && Ready(w.shared, w.jobs[id], given)
    ensures Legal(w, run)
    ensures
      var (t, o) := Alone(w.shared, id, w.jobs[id], given);
      Run(w, run) == World(t, w.jobs[id := w.jobs[id].(pc := Done(o))])
    decreases Rank(w.jobs[id].pc)
  {
    hide Step;
    if w.jobs[id].pc.Done? {
      run := [];
      assert w.jobs[id := w.jobs[id]] == w.jobs;
    } else {
      StepStaysReady(w.shared, id, w.jobs[id], given);
      AloneStep(w.shared, id, w.jobs[id], given);
      var next := Apply(w, Advance(id, given));
      var rest := AloneIsRun(next, id, given);
      run := [Advance(id, given)] + rest;
      assert run[1..] == rest;
      var (t, o) := Alone(w.shared, id, w.jobs[id], given);
      assert next.jobs[id := next.jobs[id].(pc := Done(o))] == w.jobs[id := w.jobs[id].(pc := Done(o))];
    }
  }

  // ---- Retrying a request ------------------------------------------------

  /** The state a retry starts from: the intent is durable and matches. */
  ghost predicate Retry(s: Shared, r: Request, given: Supply) {
    && SharedOk(s) && ValidStyle(r.body)
    && RequestKey(r) in s.intents && Matches(s.intents[RequestKey(r)], r)
    && given.reference !in s.usedReferences && given.version !in s.usedVersions
  }

  /** The object this mutation wrote is still the current one. */
  predicate StillCurrent(s: Shared, r: Request) {
    && RequestKey(r) in s.intents
    && r.location in s.objects
    && s.objects[r.location].reference == Some(s.intents[RequestKey(r)].reference)
  }

  ghost predicate Published(s: Shared, key: Key) {
    exists i :: 0 <= i < |s.puts| && s.puts[i].key == key
  }

  function Completed(s: Shared, id: JobId, key: Key, i: Intent, c: Commit, now: nat): Shared {
    s.(completions := s.completions[key := Completion(i.digest, c.version, c.state, now)],
       winners := s.winners[key := id])
  }

  lemma RetryReachesState(s: Shared, id: JobId, r: Request, given: Supply)
    requires Retry(s, r, given) && RequestKey(r) !in s.completions
    ensures
      var job := Job(PublishStyle(r), ReadState(s.intents[RequestKey(r)]));
      && Ready(s, job, given)
      && Ready(s, Begin(PublishStyle(r)), given)
      && Alone(s, id, Begin(PublishStyle(r)), given) == Alone(s, id, job, given)
  {
    hide SharedOk, Alone, Matches;
    var job := Begin(PublishStyle(r));
    var i := s.intents[RequestKey(r)];
    AloneStep(s, id, job, given);
    AloneStep(s, id, job.(pc := ReadIntent), given);
    AloneStep(s, id, job.(pc := ReadCompletion(i)), given);
  }

  lemma RecordAlone(s: Shared, id: JobId, task: Task, i: Intent, c: Commit, given: Supply)
    requires TaskKey(task) !in s.completions
    ensures
      var job := Job(task, CreateCompletion(i, c));
      Ready(s, job, given) &&
      Alone(s, id, job, given) == (Completed(s, id, TaskKey(task), i, c, given.now), Committed(c.version))
  {
    AloneStep(s, id, Job(task, CreateCompletion(i, c)), given);
  }

  /** Not superseded: the retry adopts the version originally written. */
  lemma RetryAdopts(s: Shared, id: JobId, r: Request, given: Supply) returns (n: nat)
    requires Retry(s, r, given) && RequestKey(r) !in s.completions && StillCurrent(s, r)
    ensures Ready(s, Begin(PublishStyle(r)), given)
    ensures n < |s.puts| && s.puts[n].key == RequestKey(r) && s.puts[n].version == s.objects[r.location].version
    ensures
      var (t, o) := Alone(s, id, Begin(PublishStyle(r)), given);
      && o == Committed(s.puts[n].version)
      && t == Completed(s, id, RequestKey(r), s.intents[RequestKey(r)],
                        StyleCommit(r.location, ContentDigest(r.body), s.puts[n].version), given.now)
  {
    hide IntentsOk, PutsOk, CompletionsOk, Alone, Matches, SeenAt, LinkedAt, ValidStyle;
    var key, i := RequestKey(r), s.intents[RequestKey(r)];
    RetryReachesState(s, id, r, given);
    assert SeenAt(s, r.location);
    n := OwnObject(s, key, r.location);
    OwnContent(s, n, r);
    AloneStep(s, id, Job(PublishStyle(r), ReadState(i)), given);
    RecordAlone(s, id, PublishStyle(r), i, StyleCommit(r.location, ContentDigest(r.body), s.puts[n].version), given);
  }

  lemma OwnContent(s: Shared, n: nat, r: Request)
    requires PutsOk(s) && n < |s.puts| && s.puts[n].key == RequestKey(r)
    requires RequestKey(r) in s.intents && Matches(s.intents[RequestKey(r)], r)
    ensures s.puts[n].location == r.location && s.puts[n].body == r.body
    ensures AskedForMatches(s.puts[n], r) && ValidStyle(r.body)
  {
    hide StyleInputIdentity, TryStylePath;
    assert Requested(s, s.puts[n]);
    SameInput(s, s.puts[n], r, s.intents[RequestKey(r)]);
  }

  predicate AskedForMatches(p: Put, r: Request) {
    p.replaced == ReplacedVersion(r.precondition)
  }

  /** How a publication whose precondition does not hold is refused. */
  function Refusal(s: Shared, r: Request): Outcome {
    if r.precondition.MustNotExist? then StyleExists
    else if r.location in s.objects then PreconditionFailed
    else StyleNotFound
  }

  /** Neither completed nor current: the retry publishes now if and only if its
      precondition holds, and is otherwise refused without changing anything. */
  lemma RetryPublishes(s: Shared, id: JobId, r: Request, given: Supply)
    requires Retry(s, r, given) && RequestKey(r) !in s.completions && !StillCurrent(s, r)
    ensures Ready(s, Begin(PublishStyle(r)), given)
    ensures
      var i := s.intents[RequestKey(r)];
      var stored := StoreObject(s, r, i, given.version, ReplacedVersion(r.precondition));
      var commit := StyleCommit(r.location, ContentDigest(r.body), given.version);
      Alone(s, id, Begin(PublishStyle(r)), given) ==
      if PreconditionHolds(s, r)
      then (Completed(stored, id, RequestKey(r), i, commit, given.now), Committed(given.version))
      else (s, Refusal(s, r))
  {
    hide SharedOk, Alone, Matches, ValidStyle;
    var i, task := s.intents[RequestKey(r)], PublishStyle(r);
    RetryReachesState(s, id, r, given);
    AloneStep(s, id, Job(task, ReadState(i)), given);
    if PreconditionHolds(s, r) {
      var put := if r.precondition.MustNotExist? then PutNew(i) else PutReplacement(i, r.precondition.expected);
      AloneStep(s, id, Job(task, put), given);
      var stored := StoreObject(s, r, i, given.version, ReplacedVersion(r.precondition));
      RecordAlone(stored, id, task, i, StyleCommit(r.location, ContentDigest(r.body), given.version), given);
    } else {
      AloneDone(s, id, task, Refusal(s, r), given);
    }
  }

  /** Superseded and never completed: the retry is refused and changes nothing. */
  lemma RetryRefused(s: Shared, id: JobId, r: Request, given: Supply)
    requires Retry(s, r, given) && RequestKey(r) !in s.completions
    requires !StillCurrent(s, r) && Published(s, RequestKey(r))
    ensures Ready(s, Begin(PublishStyle(r)), given)
    ensures
      Alone(s, id, Begin(PublishStyle(r)), given) ==
      (s, if r.precondition.MustNotExist? then StyleExists else PreconditionFailed)
  {
    hide IntentsOk, ChainOk, CompletionsOk, Alone, Matches, Requested, ValidStyle;
    var n :| 0 <= n < |s.puts| && s.puts[n].key == RequestKey(r);
    OwnContent(s, n, r);
    assert Spent(s, s.puts[n]);
    RetryPublishes(s, id, r, given);
  }

  /** From every reachable state, retrying a request that was once published ends
      with the version it originally wrote if and only if the mutation is already
      completed or its object is still current; no retry ever puts twice. */
  lemma RetryAfterCrash(w: World, run: seq<Event>, id: JobId, r: Request, given: Supply, n: nat)
    requires Init(w) && Legal(w, run)
    requires Retry(Run(w, run).shared, r, given)
    requires n < |Run(w, run).shared.puts| && Run(w, run).shared.puts[n].key == RequestKey(r)
    ensures
      var s := Run(w, run).shared;
      Ready(s, Begin(PublishStyle(r)), given) &&
      var (t, o) := Alone(s, id, Begin(PublishStyle(r)), given);
      && ((o.Committed? || o.AlreadyCompleted?) <==> (RequestKey(r) in s.completions || StillCurrent(s, r)))
      && (o.Committed? || o.AlreadyCompleted? ==> o.version == s.puts[n].version)
      && t.puts == s.puts && t.objects == s.objects
  {
    hide Init, Legal, Run, IntentsOk, ChainOk, CompletionsOk, Alone, Matches, Requested, Spent, ValidStyle, StyleCommit;
    SafeRun(w, run);
    var s := Run(w, run).shared;
    var key := RequestKey(r);
    if key in s.completions {
      RetryCompleted(s, id, r, given, n);
    } else if StillCurrent(s, r) {
      var m := RetryAdopts(s, id, r, given);
      assert m == n;
    } else {
      assert Published(s, key);
      RetryRefused(s, id, r, given);
    }
  }

  lemma RetryCompleted(s: Shared, id: JobId, r: Request, given: Supply, n: nat)
    requires Retry(s, r, given) && RequestKey(r) in s.completions
    requires n < |s.puts| && s.puts[n].key == RequestKey(r)
    ensures Ready(s, Begin(PublishStyle(r)), given)
    ensures Alone(s, id, Begin(PublishStyle(r)), given) == (s, AlreadyCompleted(s.puts[n].version))
  {
    hide IntentsOk, ChainOk, Alone, Matches, Requested, Spent, ValidStyle;
    var job, i, key := Begin(PublishStyle(r)), s.intents[RequestKey(r)], RequestKey(r);
    AloneStep(s, id, job, given);
    AloneStep(s, id, job.(pc := ReadIntent), given);
    AloneStep(s, id, job.(pc := ReadCompletion(i)), given);
    var p := s.puts[n];
    assert Describes(p, key, StyleCommit(p.location, ContentDigest(p.body), p.version));
    BackedUnique(s, key, CommitOf(s.completions[key]), StyleCommit(p.location, ContentDigest(p.body), p.version));
    AloneDone(s, id, PublishStyle(r), AlreadyCompleted(p.version), given);
  }

  // ---- A quiet reconciliation scan ---------------------------------------

  datatype Report = Report(
    scanned: nat, unfinished: nat, completed: nat, alreadyCompleted: nat,
    notCommitted: nat, superseded: nat, unsupported: nat)

  const EMPTY_REPORT := Report(0, 0, 0, 0, 0, 0, 0)

  /** One iteration of the scan's accounting; `None` aborts it with an error. */
  function Count(report: Report, o: Outcome): Option<Report> {
    var seen := report.(scanned := report.scanned + 1);
    var unfinished := seen.(unfinished := seen.unfinished + 1);
    match o
    case Finished => Some(seen)
    case Committed(_) => Some(unfinished.(completed := unfinished.completed + 1))
    case AlreadyCompleted(_) => Some(unfinished.(alreadyCompleted := unfinished.alreadyCompleted + 1))
    case NotCommitted => Some(unfinished.(notCommitted := unfinished.notCommitted + 1))
    case Superseded => Some(unfinished.(superseded := unfinished.superseded + 1))
    case Unsupported => Some(unfinished.(unsupported := unfinished.unsupported + 1))
    case _ => None
  }

  function ReconcileOne(s: Shared, id: JobId, layout: Layout, key: Key, given: Supply): (Shared, Outcome) {
    Alone(s, id, Begin(Reconcile(layout, key)), given)
  }

  function Scan(s: Shared, id: JobId, layout: Layout, keys: seq<Key>, report: Report, given: Supply)
    : (Shared, Option<Report>)
    decreases |keys|
  {
    if keys == [] then (s, Some(report))
    else
      var (t, o) := ReconcileOne(s, id, layout, keys[0], given);
      match Count(report, o)
      case None => (t, None)
      case Some(next) => Scan(t, id, layout, keys[1..], next, given)
  }

  /** An unfinished style intent whose reference is on the object it names. */
  predicate Recoverable(s: Shared, layout: Layout, key: Key) {
    && key in s.intents && key !in s.completions
    && s.intents[key].action == Publish && s.intents[key].target.kind == Style
    && Locate(s.intents[key], layout).Some?
    && var path := Locate(s.intents[key], layout).value.path;
       path in s.objects && s.objects[path].reference == Some(s.intents[key].reference)
  }

  /** An unfinished style intent whose object path does not resolve: the scan fails
      with an error when it comes to it. */
  predicate Stuck(s: Shared, layout: Layout, key: Key) {
    && key in s.intents && key !in s.completions
    && s.intents[key].action == Publish && s.intents[key].target.kind == Style
    && Locate(s.intents[key], layout).None?
  }

  /** Only the journal's completion side differs, and it only grew. */
  ghost predicate OnlyCompleted(s: Shared, t: Shared) {
    && t == s.(completions := t.completions, winners := t.winners)
    && forall k | k in s.completions :: k in t.completions && t.completions[k] == s.completions[k]
  }

  /** What the scan makes of one listed intent. */
  datatype Verdict = Complete | Recovers | Absent | Replaced | Foreign | Unusable

  /** The verdict the state of the stores calls for. */
  function VerdictOf(s: Shared, layout: Layout, key: Key): Verdict
    requires key in s.intents
  {
    var i := s.intents[key];
    if key in s.completions then Complete
    else if i.action != Publish || i.target.kind != Style then Foreign
    else if Locate(i, layout).None? then Unusable
    else if Locate(i, layout).value.path !in s.objects then Absent
    else if s.objects[Locate(i, layout).value.path].reference != Some(i.reference) then Replaced
    else Recovers
  }

  predicate Reports(o: Outcome, v: Verdict) {
    match v
    case Complete => o.Finished?
    case Recovers => o.Committed?
    case Absent => o.NotCommitted?
    case Replaced => o.Superseded?
    case Foreign => o.Unsupported?
    case Unusable => o.UnusableLocator?
  }

  lemma VerdictMeaning(s: Shared, layout: Layout, key: Key)
    requires key in s.intents
    ensures VerdictOf(s, layout, key).Recovers? <==> Recoverable(s, layout, key)
    ensures VerdictOf(s, layout, key).Unusable? <==> Stuck(s, layout, key)
    ensures VerdictOf(s, layout, key).Complete? <==> key in s.completions
  {
    hide Locate;
  }

  lemma ReconcileSkips(s: Shared, id: JobId, layout: Layout, key: Key, given: Supply)
    requires CompletionsOk(s) && key in s.intents && !VerdictOf(s, layout, key).Recovers?
    ensures ReconcileOne(s, id, layout, key, given).0 == s
    ensures Reports(ReconcileOne(s, id, layout, key, given).1, VerdictOf(s, layout, key))
  {
    hide Alone, Locate, Backed;
    var task, i := Reconcile(layout, key), s.intents[key];
    AloneStep(s, id, Begin(task), given);
    AloneStep(s, id, Job(task, ReadCompletion(i)), given);
    if key in s.completions {
      AloneDone(s, id, task, Finished, given);
    } else {
      AloneStep(s, id, Job(task, ReadState(i)), given);
      AloneDone(s, id, task, PlanReconcile(s, layout, i).outcome, given);
    }
  }

  lemma ReconcileCompletes(s: Shared, id: JobId, layout: Layout, key: Key, given: Supply) returns (c: Commit)
    requires SharedOk(s) && Recoverable(s, layout, key)
    ensures ReconcileOne(s, id, layout, key, given) ==
            (Completed(s, id, key, s.intents[key], c, given.now), Committed(c.version))
    ensures SharedOk(Completed(s, id, key, s.intents[key], c, given.now))
  {
    hide IntentsOk, PutsOk, CompletionsOk, Alone, Locate, SeenAt, LinkedAt, ValidStyle, StyleCommit, Backed;
    var task, i := Reconcile(layout, key), s.intents[key];
    var path := Locate(i, layout).value.path;
    AloneStep(s, id, Begin(task), given);
    AloneStep(s, id, Job(task, ReadCompletion(i)), given);
    AloneStep(s, id, Job(task, ReadState(i)), given);
    SeenByChain(s, path);
    AdoptBacked(s, task, i, path);
    c := AdoptCurrent(i, s.objects[path], path, None).commit;
    RecordAlone(s, id, task, i, c, given);
    CompletedOk(s, id, task, i, c, given);
  }

  /** One reconciled intent: completed exactly when recoverable, an error exactly
      when stuck, reported as the stores stand, published state untouched. */
  lemma ReconcileOneEffect(s: Shared, id: JobId, layout: Layout, key: Key, given: Supply)
    requires SharedOk(s) && key in s.intents
    ensures
      var (t, o) := ReconcileOne(s, id, layout, key, given);
      && SharedOk(t) && OnlyCompleted(s, t) && Gained(s, t, layout, [key])
      && Reports(o, VerdictOf(s, layout, key))
      && (o.Committed? <==> Recoverable(s, layout, key))
      && (o.UnusableLocator? <==> Stuck(s, layout, key))
      && |t.completions| == |s.completions| + (if o.Committed? then 1 else 0)
      && (!o.Committed? ==> t == s)
  {
    hide SharedOk, ReconcileOne, Recoverable, Stuck, VerdictOf, OnlyCompleted, Gained;
    VerdictMeaning(s, layout, key);
    if Recoverable(s, layout, key) {
      var c := ReconcileCompletes(s, id, layout, key, given);
      GainedOne(s, id, layout, key, c, given.now);
    } else {
      SharedParts(s);
      ReconcileSkips(s, id, layout, key, given);
      GainedNone(s, layout, key);
    }
  }

  lemma GainedOne(s: Shared, id: JobId, layout: Layout, key: Key, c: Commit, now: nat)
    requires Recoverable(s, layout, key)
    ensures
      var t := Completed(s, id, key, s.intents[key], c, now);
      OnlyCompleted(s, t) && Gained(s, t, layout, [key]) && |t.completions| == |s.completions| + 1
  {
    hide Locate;
  }

  lemma GainedNone(s: Shared, layout: Layout, key: Key)
    requires !Recoverable(s, layout, key)
    ensures OnlyCompleted(s, s) && Gained(s, s, layout, [key])
  {
    hide Recoverable;
  }

  lemma SharedParts(s: Shared)
    requires SharedOk(s)
    ensures CompletionsOk(s)
  {}

  lemma SeenByChain(s: Shared, l: string)
    requires ChainOk(s)
    ensures SeenAt(s, l)
  {}

  lemma CompletedOk(s: Shared, id: JobId, task: Task, i: Intent, c: Commit, given: Supply)
    requires SharedOk(s) && Held(s, task, i) && Backed(s, TaskKey(task), c) && TaskKey(task) !in s.completions
    requires task.Reconcile?
    ensures SharedOk(Completed(s, id, TaskKey(task), i, c, given.now))
  {
    hide SharedOk, Backed, Matches;
    NewCompletionKeeps(s, id, Job(task, CreateCompletion(i, c)), given);
  }

  /** The completions of `t` are those of `s` and the recoverable intents of the listing. */
  ghost predicate Gained(s: Shared, t: Shared, layout: Layout, keys: seq<Key>) {
    forall k :: k in t.completions <==> k in s.completions || (k in keys && Recoverable(s, layout, k))
  }

  lemma GainedMore(s: Shared, t: Shared, u: Shared, layout: Layout, keys: seq<Key>)
    requires keys != [] && OnlyCompleted(s, t)
    requires Gained(s, t, layout, [keys[0]]) && Gained(t, u, layout, keys[1..])
    ensures Gained(s, u, layout, keys)
  {
    hide Locate, IsStylePublication;
    forall k ensures k in u.completions <==> k in s.completions || (k in keys && Recoverable(s, layout, k)) {
      assert k in keys <==> k == keys[0] || k in keys[1..];
      assert k !in t.completions ==> (Recoverable(t, layout, k) <==> Recoverable(s, layout, k));
      assert k in [keys[0]] <==> k == keys[0];
    }
  }

  /** The part of a listing before its first stuck intent. */
  function Reached(s: Shared, layout: Layout, keys: seq<Key>): seq<Key> {
    if keys == [] || Stuck(s, layout, keys[0]) then [] else [keys[0]] + Reached(s, layout, keys[1..])
  }

  lemma {:induction false} ReachedIsPrefix(s: Shared, layout: Layout, keys: seq<Key>)
    ensures Reached(s, layout, keys) <= keys
    ensures forall k | k in Reached(s, layout, keys) :: !Stuck(s, layout, k)
    ensures var n := |Reached(s, layout, keys)|; n < |keys| ==> Stuck(s, layout, keys[n])
  {
    hide Stuck;
    if keys != [] && !Stuck(s, layout, keys[0]) {
      ReachedIsPrefix(s, layout, keys[1..]);
      assert keys == [keys[0]] + keys[1..];
    }
  }

  lemma {:induction false} ReachedStable(s: Shared, t: Shared, layout: Layout, keys: seq<Key>)
    requires forall k :: Stuck(s, layout, k) <==> Stuck(t, layout, k)
    ensures Reached(s, layout, keys) == Reached(t, layout, keys)
  {
    hide Stuck;
    if keys != [] {
      ReachedStable(s, t, layout, keys[1..]);
    }
  }

  /** Completing recoverable intents frees no stuck one. */
  lemma StuckStable(s: Shared, t: Shared, layout: Layout, keys: seq<Key>)
    requires OnlyCompleted(s, t) && Gained(s, t, layout, keys)
    ensures forall k :: Stuck(s, layout, k) <==> Stuck(t, layout, k)
  {
    hide Locate;
  }

  ghost predicate Listed(s: Shared, keys: seq<Key>) {
    forall k | k in keys :: k in s.intents
  }

  /** The verdict on each listed intent from the state the scan starts in; an intent
      listed again finds itself complete. */
  function VerdictAt(s: Shared, layout: Layout, keys: seq<Key>, n: nat): Verdict
    requires n < |keys| && keys[n] in s.intents
  {
    var v := VerdictOf(s, layout, keys[n]);
    if v.Recovers? && keys[n] in keys[..n] then Complete else v
  }

  ghost function Verdicts(s: Shared, layout: Layout, keys: seq<Key>): seq<Verdict>
    requires Listed(s, keys)
  {
    seq(|keys|, n requires 0 <= n < |keys| => VerdictAt(s, layout, keys, n))
  }

  lemma VerdictsShift(s: Shared, t: Shared, layout: Layout, keys: seq<Key>)
    requires keys != [] && Listed(s, keys) && OnlyCompleted(s, t) && Gained(s, t, layout, [keys[0]])
    ensures Listed(t, keys[1..])
    ensures Verdicts(s, layout, keys) == [VerdictOf(s, layout, keys[0])] + Verdicts(t, layout, keys[1..])
  {
    hide Locate, VerdictOf, Gained, OnlyCompleted;
    forall k | k in keys[1..] ensures k in t.intents {
      SameIntents(s, t);
    }
    forall n | 1 <= n < |keys| ensures VerdictAt(s, layout, keys, n) == VerdictAt(t, layout, keys[1..], n - 1) {
      assert keys[n] in keys[..n] <==> keys[n] == keys[0] || keys[n] in keys[1..][..n - 1] by {
        assert keys[..n] == [keys[0]] + keys[1..][..n - 1];
      }
      VerdictAfter(s, t, layout, keys[0], keys[n]);
    }
  }

  lemma SameIntents(s: Shared, t: Shared)
    requires OnlyCompleted(s, t)
    ensures s.intents == t.intents
  {}

  lemma VerdictAfter(s: Shared, t: Shared, layout: Layout, done: Key, key: Key)
    requires key in s.intents && OnlyCompleted(s, t) && Gained(s, t, layout, [done])
    ensures key in t.intents
    ensures VerdictOf(t, layout, key) ==
            if key == done && VerdictOf(s, layout, key).Recovers? then Complete else VerdictOf(s, layout, key)
  {
    hide Locate;
    assert key in [done] <==> key == done;
  }

  /** Every counter of the report is the number of verdicts of its kind. */
  ghost predicate Tallied(before: Report, verdicts: seq<Verdict>, after: Report) {
    var m := multiset(verdicts);
    && after.scanned == before.scanned + |verdicts|
    && after.unfinished + m[Complete] == before.unfinished + |verdicts|
    && after.completed == before.completed + m[Recovers]
    && after.alreadyCompleted == before.alreadyCompleted
    && after.notCommitted == before.notCommitted + m[Absent]
    && after.superseded == before.superseded + m[Replaced]
    && after.unsupported == before.unsupported + m[Foreign]
  }

  lemma TalliedMore(before: Report, v: Verdict, o: Outcome, rest: seq<Verdict>, after: Report)
    requires Reports(o, v) && !v.Unusable?
    requires Tallied(Count(before, o).value, rest, after)
    ensures Tallied(before, [v] + rest, after)
  {
    assert multiset([v] + rest) == multiset{v} + multiset(rest);
  }

  /** A quiet scan of a listing: it fails exactly when the listing holds a stuck
      intent, has then completed exactly the recoverable intents listed before the
      first such one, and leaves published state alone; a scan that does not fail
      counts every verdict. */
  ghost predicate Scanned(
    s: Shared, layout: Layout, keys: seq<Key>, before: Report, t: Shared, after: Option<Report>)
    requires Listed(s, keys)
  {
    && OnlyCompleted(s, t) && Gained(s, t, layout, Reached(s, layout, keys))
    && (after.None? <==> exists k :: k in keys && Stuck(s, layout, k))
    && (after.Some? ==> Tallied(before, Verdicts(s, layout, keys), after.value))
    && (after.Some? ==> after.value.completed + |s.completions| == before.completed + |t.completions|)
    && (|t.completions| == |s.completions| ==> t == s)
    && |t.completions| >= |s.completions|
  }

  lemma {:induction false} ScanEffect(
    s: Shared, id: JobId, layout: Layout, keys: seq<Key>, report: Report, given: Supply)
    requires SharedOk(s) && Listed(s, keys)
    ensures
      var (t, result) := Scan(s, id, layout, keys, report, given);
      SharedOk(t) && Scanned(s, layout, keys, report, t, result)
    decreases |keys|
  {
    hide SharedOk, ReconcileOne, Recoverable, Stuck, VerdictOf, Verdicts, Gained, OnlyCompleted, Count, Scanned,
         Tallied;
    if keys == [] {
      ScannedNothing(s, layout, report);
    } else {
      var key := keys[0];
      var (t, o) := ReconcileOne(s, id, layout, key, given);
      ReconcileOneEffect(s, id, layout, key, given);
      VerdictMeaning(s, layout, key);
      if Stuck(s, layout, key) {
        Counts(report, o);
        ScannedStuck(s, layout, keys, report, t);
      } else {
        Counts(report, o);
        VerdictsShift(s, t, layout, keys);
        var next := Count(report, o).value;
        ScanEffect(t, id, layout, keys[1..], next, given);
        var (u, result) := Scan(t, id, layout, keys[1..], next, given);
        ScannedMore(s, layout, keys, report, t, o, u, result);
      }
    }
  }

  lemma Counts(report: Report, o: Outcome)
    ensures o.UnusableLocator? ==> Count(report, o).None?
    ensures forall v: Verdict | Reports(o, v) && !v.Unusable? :: Count(report, o).Some?
    ensures Count(report, o).Some? ==>
              Count(report, o).value.completed == report.completed + (if o.Committed? then 1 else 0)
  {}

  lemma ScannedNothing(s: Shared, layout: Layout, report: Report)
    ensures Scanned(s, layout, [], report, s, Some(report))
  {
    assert Verdicts(s, layout, []) == [];
  }

  lemma ScannedStuck(s: Shared, layout: Layout, keys: seq<Key>, report: Report, t: Shared)
    requires keys != [] && Listed(s, keys) && Stuck(s, layout, keys[0]) && t == s
    ensures Scanned(s, layout, keys, report, t, None)
  {
    hide Stuck, Recoverable;
    assert keys[0] in keys;
  }

  lemma ScannedMore(s: Shared, layout: Layout, keys: seq<Key>, before: Report,
                    t: Shared, o: Outcome, u: Shared, after: Option<Report>)
    requires keys != [] && Listed(s, keys) && Listed(t, keys[1..]) && !Stuck(s, layout, keys[0])
    requires OnlyCompleted(s, t) && Gained(s, t, layout, [keys[0]])
    requires |t.completions| == |s.completions| + (if o.Committed? then 1 else 0)
    requires !o.Committed? ==> t == s
    requires Reports(o, VerdictOf(s, layout, keys[0])) && Count(before, o).Some?
    requires Verdicts(s, layout, keys) == [VerdictOf(s, layout, keys[0])] + Verdicts(t, layout, keys[1..])
    requires Scanned(t, layout, keys[1..], Count(before, o).value, u, after)
    ensures Scanned(s, layout, keys, before, u, after)
  {
    hide Gained, OnlyCompleted, Stuck, VerdictOf, Verdicts, Tallied, Count, Reports;
    StuckStable(s, t, layout, [keys[0]]);
    ReachedStable(s, t, layout, keys[1..]);
    assert Reached(s, layout, keys) == [keys[0]] + Reached(t, layout, keys[1..]);
    GainedMore(s, t, u, layout, Reached(s, layout, keys));
    OnlyCompletedTransitive(s, t, u);
    Counts(before, o);
    VerdictMeaning(s, layout, keys[0]);
    assert forall k :: k in keys <==> k == keys[0] || k in keys[1..];
    if after.Some? {
      TalliedMore(before, VerdictOf(s, layout, keys[0]), o, Verdicts(t, layout, keys[1..]), after.value);
    }
  }

  lemma OnlyCompletedTransitive(s: Shared, t: Shared, u: Shared)
    requires OnlyCompleted(s, t) && OnlyCompleted(t, u)
    ensures OnlyCompleted(s, u)
  {}

  /** Over every run, for every listing of the journal: reconciliation never changes
      published state; it fails exactly when a stuck intent is listed, and has then
      completed exactly the recoverable intents before the first one; a second quiet
      scan changes nothing, fails exactly when the first did, and otherwise reports
      the same counts with nothing left to complete. */
  lemma SecondScanIsIdle(
    w: World, run: seq<Event>, id: JobId, layout: Layout, keys: seq<Key>, given: Supply, later: Supply)
    requires Init(w) && Legal(w, run) && Listed(Run(w, run).shared, keys)
    ensures
      var s := Run(w, run).shared;
      var (t, first) := Scan(s, id, layout, keys, EMPTY_REPORT, given);
      var (u, second) := Scan(t, id, layout, keys, EMPTY_REPORT, later);
      && Scanned(s, layout, keys, EMPTY_REPORT, t, first)
      && u == t && (second.None? <==> first.None?)
      && (first.Some? ==>
            second.value == first.value.(completed := 0, unfinished := second.value.unfinished) &&
            second.value.unfinished + first.value.completed == first.value.unfinished)
  {
    hide Init, Legal, Run, SharedOk, Scan, Locate, Stuck, Gained, OnlyCompleted, Verdicts, Tallied;
    SafeRun(w, run);
    var s := Run(w, run).shared;
    var (t, first) := Scan(s, id, layout, keys, EMPTY_REPORT, given);
    ScanEffect(s, id, layout, keys, EMPTY_REPORT, given);
    SameIntents(s, t);
    ScanEffect(t, id, layout, keys, EMPTY_REPORT, later);
    var (u, second) := Scan(t, id, layout, keys, EMPTY_REPORT, later);
    StuckStable(s, t, layout, Reached(s, layout, keys));
    ReachedStable(s, t, layout, keys);
    NothingGained(s, t, u, layout, Reached(s, layout, keys));
    if first.Some? {
      AllReached(s, layout, keys);
      SecondTally(s, t, layout, keys, first.value, second.value);
    }
  }

  lemma AllReached(s: Shared, layout: Layout, keys: seq<Key>)
    requires !exists k :: k in keys && Stuck(s, layout, k)
    ensures Reached(s, layout, keys) == keys
  {
    hide Stuck, Reached;
    ReachedIsPrefix(s, layout, keys);
  }

  lemma SecondTally(s: Shared, t: Shared, layout: Layout, keys: seq<Key>, first: Report, second: Report)
    requires Listed(s, keys) && Listed(t, keys) && OnlyCompleted(s, t) && Gained(s, t, layout, keys)
    requires Tallied(EMPTY_REPORT, Verdicts(s, layout, keys), first)
    requires Tallied(EMPTY_REPORT, Verdicts(t, layout, keys), second)
    ensures second == first.(completed := 0, unfinished := second.unfinished)
    ensures second.unfinished + first.completed == first.unfinished
  {
    hide Gained, OnlyCompleted, VerdictAt;
    var a, b := Verdicts(s, layout, keys), Verdicts(t, layout, keys);
    forall n | 0 <= n < |keys| ensures b[n] == if a[n].Recovers? then Complete else a[n] {
      VerdictAgain(s, t, layout, keys, n);
    }
    RecoveredCounts(a, b);
  }

  lemma VerdictAgain(s: Shared, t: Shared, layout: Layout, keys: seq<Key>, n: nat)
    requires n < |keys| && keys[n] in s.intents && keys[n] in t.intents
    requires OnlyCompleted(s, t) && Gained(s, t, layout, keys)
    ensures VerdictAt(t, layout, keys, n) ==
            var v := VerdictAt(s, layout, keys, n); if v.Recovers? then Complete else v
  {
    hide Locate;
    assert keys[n] in keys;
  }

  lemma {:induction false} RecoveredCounts(a: seq<Verdict>, b: seq<Verdict>)
    requires |a| == |b| && forall n | 0 <= n < |a| :: b[n] == if a[n].Recovers? then Complete else a[n]
    ensures multiset(b)[Recovers] == 0
    ensures multiset(b)[Complete] == multiset(a)[Complete] + multiset(a)[Recovers]
    ensures forall v: Verdict | !v.Recovers? && !v.Complete? :: multiset(b)[v] == multiset(a)[v]
  {
    if a != [] {
      RecoveredCounts(a[1..], b[1..]);
      assert a == [a[0]] + a[1..] && b == [b[0]] + b[1..];
    }
  }

  lemma NothingGained(s: Shared, t: Shared, u: Shared, layout: Layout, keys: seq<Key>)
    requires OnlyCompleted(s, t) && OnlyCompleted(t, u)
    requires Gained(s, t, layout, keys) && Gained(t, u, layout, keys)
    ensures |u.completions| == |t.completions|
  {
    hide Locate, IsStylePublication;
    forall k ensures k in u.completions <==> k in t.completions {
      assert Recoverable(t, layout, k) ==> Recoverable(s, layout, k);
    }
    assert u.completions.Keys == t.completions.Keys;
  }
}
