/** Safety of publication over every run: each intent is published at most once,
    the puts at one location form a linear chain, completions tell the truth and
    agree, and at most one caller commits each mutation.
  */
module PublicationSafety {
  import opened Text
  import opened MutationIdentity
  import opened PublicationProtocol

  // ---- The invariant -----------------------------------------------------

  function LastPut(puts: seq<Put>, location: string): Option<Put> {
    if puts == [] then None
    else if puts[|puts| - 1].location == location then Some(puts[|puts| - 1])
    else LastPut(puts[..|puts| - 1], location)
  }

  lemma {:induction false} LastPutIsPut(puts: seq<Put>, location: string) returns (i: nat)
    requires LastPut(puts, location).Some?
    ensures i < |puts| && LastPut(puts, location).value == puts[i] && puts[i].location == location
  {
    if puts[|puts| - 1].location == location {
      i := |puts| - 1;
    } else {
      i := LastPutIsPut(puts[..|puts| - 1], location);
    }
  }

  function Stored(p: Put): Object {
    Object(p.version, Some(p.reference), true, p.body)
  }

  /** What a reader must find at `location` after `puts`. */
  function ObjectAfter(origin: map<string, Object>, puts: seq<Put>, location: string): Option<Object> {
    match LastPut(puts, location)
    case Some(p) => Some(Stored(p))
    case None => if location in origin then Some(origin[location]) else None
  }

  function VersionAfter(origin: map<string, Object>, puts: seq<Put>, location: string): Option<VersionEvidence> {
    match ObjectAfter(origin, puts, location)
    case Some(o) => Some(o.version)
    case None => None
  }

  ghost predicate IntentsOk(s: Shared) {
    && (forall k | k in s.intents :: k == Key(s.intents[k].target.account, s.intents[k].digest))
    && (forall k | k in s.intents :: s.intents[k].reference in s.usedReferences)
    && (forall k1, k2 | k1 in s.intents && k2 in s.intents && k1 != k2 ::
          s.intents[k1].reference != s.intents[k2].reference)
    && (forall l | l in s.origin && s.origin[l].reference.Some? ::
          s.origin[l].reference.value in s.usedReferences)
    && (forall l, k | l in s.origin && k in s.intents ::
          s.origin[l].reference != Some(s.intents[k].reference))
  }

  /** A put was asked for by the intent it names: same location, precondition and body. */
  ghost predicate Requested(s: Shared, p: Put) {
    && p.key in s.intents
    && IsStylePublication(s.intents[p.key])
    && s.intents[p.key].reference == p.reference
    && TryStylePath(p.location).Some?
    && ValidStyle(p.body)
    && (p.replaced.Some? ==> UsableEvidence(p.replaced.value))
    && s.intents[p.key].input ==
         InputDigest(StyleInputIdentity(p.location, AskedFor(p.replaced), p.body))
  }

  function AskedFor(replaced: Option<VersionEvidence>): StylePrecondition
    requires replaced.Some? ==> UsableEvidence(replaced.value)
  {
    match replaced case None => MustNotExist case Some(v) => MustMatch(v)
  }

  /** What a put replaced can never become current again. */
  ghost predicate Spent(s: Shared, p: Put) {
    && p.location in s.objects
    && p.version in s.usedVersions
    && (p.replaced.Some? ==>
          p.replaced.value in s.usedVersions && s.objects[p.location].version != p.replaced.value)
  }

  ghost predicate PutsOk(s: Shared) {
    && (forall i | 0 <= i < |s.puts| :: Requested(s, s.puts[i]))
    && (forall i | 0 <= i < |s.puts| :: Spent(s, s.puts[i]))
    && (forall i, j | 0 <= i < j < |s.puts| :: s.puts[i].key != s.puts[j].key)
  }

  /** Put `i` replaced what its predecessors left at its location. */
  predicate LinkedAt(s: Shared, i: nat)
    requires i < |s.puts|
  {
    s.puts[i].replaced == VersionAfter(s.origin, s.puts[..i], s.puts[i].location)
  }

  /** A reader of `l` finds exactly what the puts so far left there. */
  predicate SeenAt(s: Shared, l: string) {
    (if l in s.objects then Some(s.objects[l]) else None) == ObjectAfter(s.origin, s.puts, l)
  }

  ghost predicate ChainOk(s: Shared) {
    && (forall l | l in s.objects :: s.objects[l].version in s.usedVersions)
    && (forall l :: SeenAt(s, l))
    && (forall i: nat | i < |s.puts| :: LinkedAt(s, i))
  }

  predicate Describes(p: Put, key: Key, c: Commit) {
    p.key == key && c == StyleCommit(p.location, ContentDigest(p.body), p.version)
  }

  ghost predicate Backed(s: Shared, key: Key, c: Commit) {
    exists i :: 0 <= i < |s.puts| && Describes(s.puts[i], key, c)
  }

  function CommitOf(c: Completion): Commit {
    Commit(c.version, c.state)
  }

  ghost predicate CompletionsOk(s: Shared) {
    && s.winners.Keys == s.completions.Keys
    && (forall k | k in s.completions ::
          && k in s.intents
          && s.completions[k].digest == s.intents[k].digest
          && Backed(s, k, CommitOf(s.completions[k])))
  }

  ghost predicate SharedOk(s: Shared) {
    IntentsOk(s) && PutsOk(s) && ChainOk(s) && CompletionsOk(s)
  }

  ghost predicate Held(s: Shared, task: Task, i: Intent) {
    && TaskKey(task) in s.intents && s.intents[TaskKey(task)] == i
    && (task.PublishStyle? ==> Matches(i, task.request))
  }

  /** Errors the code checks for and this protocol never produces. */
  predicate Impossible(o: Outcome) {
    o.Disappeared? || o.ForeignCompletion? || o.InvalidObject? || o.ContentMismatch? || o.Disagreement?
  }

  ghost predicate JobOk(s: Shared, id: JobId, job: Job) {
    var key := TaskKey(job.task);
    && (job.task.PublishStyle? ==> ValidStyle(job.task.request.body))
    && match job.pc
       case CreateIntent => job.task.PublishStyle?
       case ReadIntent => key in s.intents
       case ReadCompletion(i) => Held(s, job.task, i)
       case ReadState(i) => Held(s, job.task, i)
       case PutNew(i) => Held(s, job.task, i) && job.task.PublishStyle? && job.task.request.precondition.MustNotExist?
       case PutReplacement(i, v) =>
         Held(s, job.task, i) && job.task.PublishStyle? && job.task.request.precondition == MustMatch(v)
       case ResolveRace(i) => Held(s, job.task, i)
       case CreateCompletion(i, c) => Held(s, job.task, i) && Backed(s, key, c)
       case CompareCompletion(i, mine) =>
         && Held(s, job.task, i) && key in s.completions
         && mine.digest == i.digest && Backed(s, key, CommitOf(mine))
       case Done(o) =>
         && !Impossible(o)
         && (o.Committed? ==> key in s.winners && s.winners[key] == id)
         && (o.Committed? || o.AlreadyCompleted? ==>
               key in s.completions && s.completions[key].version == o.version)
  }

  ghost predicate WorldOk(w: World) {
    SharedOk(w.shared) && forall id | id in w.jobs :: JobOk(w.shared, id, w.jobs[id])
  }

  /** The stores only grow: nothing durable is ever rewritten by another job. */
  ghost predicate Extends(s: Shared, t: Shared) {
    && (forall k | k in s.intents :: k in t.intents && t.intents[k] == s.intents[k])
    && (forall k | k in s.completions :: k in t.completions && t.completions[k] == s.completions[k])
    && (forall k | k in s.winners :: k in t.winners && t.winners[k] == s.winners[k])
    && s.puts <= t.puts
  }

  // ---- Preservation ------------------------------------------------------

  lemma BackedStable(s: Shared, t: Shared, key: Key, c: Commit)
    requires s.puts <= t.puts && Backed(s, key, c)
    ensures Backed(t, key, c)
  {
    var i :| 0 <= i < |s.puts| && Describes(s.puts[i], key, c);
    assert t.puts[i] == s.puts[i];
  }

  lemma JobStable(s: Shared, t: Shared, id: JobId, job: Job)
    requires Extends(s, t) && JobOk(s, id, job)
    ensures JobOk(t, id, job)
  {
    hide Matches, Backed;
    match job.pc
    case CreateCompletion(i, c) => BackedStable(s, t, TaskKey(job.task), c);
    case CompareCompletion(i, mine) => BackedStable(s, t, TaskKey(job.task), CommitOf(mine));
    case _ =>
  }

  /** Only one put exists per intent, so two backed commits are the same commit. */
  lemma BackedUnique(s: Shared, key: Key, c: Commit, d: Commit)
    requires forall i, j | 0 <= i < j < |s.puts| :: s.puts[i].key != s.puts[j].key
    requires Backed(s, key, c) && Backed(s, key, d)
    ensures c == d
  {
    var i :| 0 <= i < |s.puts| && Describes(s.puts[i], key, c);
    var j :| 0 <= j < |s.puts| && Describes(s.puts[j], key, d);
    assert i == j;
  }

  /** An object carrying an intent's reference is that intent's own put. */
  lemma OwnObject(s: Shared, key: Key, location: string) returns (i: nat)
    requires IntentsOk(s) && PutsOk(s) && SeenAt(s, location)
    requires key in s.intents && location in s.objects
    requires s.objects[location].reference == Some(s.intents[key].reference)
    ensures i < |s.puts| && s.puts[i].key == key && s.puts[i].location == location
    ensures s.objects[location] == Stored(s.puts[i])
  {
    hide Matches, ValidStyle, TryStylePath, StyleInputIdentity;
    i := LastPutIsPut(s.puts, location);
    assert Requested(s, s.puts[i]);
  }

  /** The input digest of an intent fixes location, precondition and body. */
  lemma SameInput(s: Shared, p: Put, r: Request, i: Intent)
    requires Requested(s, p) && s.intents[p.key] == i && Matches(i, r)
    ensures p.location == r.location && AskedFor(p.replaced) == r.precondition && p.body == r.body
  {
    hide StyleInputIdentity;
    InputIdentityInjective(p.location, AskedFor(p.replaced), p.body, r.location, r.precondition, r.body);
  }

  function ContentExpectedBy(task: Task): Option<Digest> {
    match task
    case PublishStyle(r) => Some(ContentDigest(r.body))
    case Reconcile(_, _) => None
  }

  lemma AdoptBacked(s: Shared, task: Task, i: Intent, location: string)
    requires IntentsOk(s) && PutsOk(s) && SeenAt(s, location) && Held(s, task, i)
    requires location in s.objects && s.objects[location].reference == Some(i.reference)
    ensures
      var pc := AdoptCurrent(i, s.objects[location], location, ContentExpectedBy(task));
      pc.CreateCompletion? && pc.intent == i && Backed(s, TaskKey(task), pc.commit)
  {
    hide StyleInputIdentity, TryStylePath, IntentsOk, SeenAt;
    var n := OwnObject(s, TaskKey(task), location);
    var p := s.puts[n];
    assert Requested(s, p);
    if task.PublishStyle? {
      SameInput(s, p, task.request, i);
    }
    assert Describes(p, TaskKey(task), StyleCommit(location, ContentDigest(p.body), p.version));
  }

  lemma ReadStateKeeps(s: Shared, id: JobId, job: Job, given: Supply)
    requires SharedOk(s) && JobOk(s, id, job) && Enabled(s, job, given) && job.pc.ReadState?
    ensures JobOk(s, id, Step(s, id, job, given).1)
  {
    hide IntentsOk, PutsOk, CompletionsOk, AdoptCurrent, Matches, Backed, SeenAt, Locate;
    var i := job.pc.intent;
    match job.task
    case PublishStyle(r) =>
      if r.location in s.objects && s.objects[r.location].reference == Some(i.reference) {
        assert SeenAt(s, r.location);
        AdoptBacked(s, job.task, i, r.location);
      }
    case Reconcile(layout, _) =>
      if IsStylePublication(i) && Locate(i, layout).Some? {
        var path := Locate(i, layout).value.path;
        if path in s.objects && s.objects[path].reference == Some(i.reference) {
          assert SeenAt(s, path);
          AdoptBacked(s, job.task, i, path);
        }
      }
  }

  lemma ResolveRaceKeeps(s: Shared, id: JobId, job: Job, given: Supply)
    requires SharedOk(s) && JobOk(s, id, job) && Enabled(s, job, given) && job.pc.ResolveRace?
    ensures JobOk(s, id, Step(s, id, job, given).1)
  {
    hide IntentsOk, PutsOk, CompletionsOk, AdoptCurrent, Matches, Backed, SeenAt;
    var i, r := job.pc.intent, job.task.request;
    if r.location in s.objects && s.objects[r.location].reference == Some(i.reference) {
      assert SeenAt(s, r.location);
      AdoptBacked(s, job.task, i, r.location);
    }
  }

  lemma CompareKeeps(s: Shared, id: JobId, job: Job, given: Supply)
    requires SharedOk(s) && JobOk(s, id, job) && Enabled(s, job, given) && job.pc.CompareCompletion?
    ensures JobOk(s, id, Step(s, id, job, given).1)
  {
    hide IntentsOk, ChainOk, Matches, Backed, Requested, Spent;
    var key := TaskKey(job.task);
    BackedUnique(s, key, CommitOf(s.completions[key]), CommitOf(job.pc.mine));
  }

  lemma OtherReadKeeps(s: Shared, id: JobId, job: Job, given: Supply)
    requires CompletionsOk(s) && JobOk(s, id, job) && Enabled(s, job, given)
    requires !job.pc.ReadState? && !job.pc.ResolveRace? && !job.pc.CompareCompletion?
    requires Step(s, id, job, given).0 == s
    ensures JobOk(s, id, Step(s, id, job, given).1)
  {
    hide Matches, Backed;
    assert TaskKey(job.task) in s.completions ==>
             s.completions[TaskKey(job.task)].digest == s.intents[TaskKey(job.task)].digest;
  }

  /** Growing the journal touches no put, no object and no earlier record. */
  lemma JournalGrowth(s: Shared, t: Shared)
    requires PutsOk(s) && ChainOk(s) && Extends(s, t)
    requires t.puts == s.puts && t.objects == s.objects && t.origin == s.origin
    requires t.usedVersions == s.usedVersions
    ensures PutsOk(t) && ChainOk(t)
  {
    hide IsStylePublication, TryStylePath, ValidStyle, StyleInputIdentity, AskedFor, ObjectAfter, VersionAfter;
    forall i | 0 <= i < |t.puts| ensures Requested(t, t.puts[i]) && Spent(t, t.puts[i]) {
      assert Requested(s, s.puts[i]) && Spent(s, s.puts[i]);
    }
    forall l ensures SeenAt(t, l) {
      assert SeenAt(s, l);
    }
    forall i: nat | i < |t.puts| ensures LinkedAt(t, i) {
      assert LinkedAt(s, i);
    }
  }

  lemma CompletionsStable(s: Shared, t: Shared)
    requires CompletionsOk(s) && Extends(s, t)
    requires t.completions == s.completions && t.winners == s.winners
    ensures CompletionsOk(t)
  {
    hide Backed;
    forall k | k in t.completions
      ensures k in t.intents && t.completions[k].digest == t.intents[k].digest
      ensures Backed(t, k, CommitOf(t.completions[k]))
    {
      BackedStable(s, t, k, CommitOf(t.completions[k]));
    }
  }

  lemma IntentsGrow(s: Shared, t: Shared, key: Key, i: Intent)
    requires IntentsOk(s) && key !in s.intents
    requires key == Key(i.target.account, i.digest) && i.reference !in s.usedReferences
    requires t.intents == s.intents[key := i] && t.origin == s.origin
    requires t.usedReferences == s.usedReferences + {i.reference}
    ensures IntentsOk(t)
  {}

  lemma NewIntentKeeps(s: Shared, id: JobId, job: Job, given: Supply)
    requires SharedOk(s) && JobOk(s, id, job) && Enabled(s, job, given)
    requires job.pc.CreateIntent? && TaskKey(job.task) !in s.intents
    ensures
      var (t, next) := Step(s, id, job, given);
      SharedOk(t) && Extends(s, t) && JobOk(t, id, next)
  {
    hide IntentsOk, PutsOk, ChainOk, CompletionsOk, StyleInputIdentity, StoreObject;
    var (t, next) := Step(s, id, job, given);
    var i := NewIntent(job.task.request, given.reference);
    IntentsGrow(s, t, TaskKey(job.task), i);
    JournalGrowth(s, t);
    CompletionsStable(s, t);
  }

  lemma CompletionsGrow(s: Shared, t: Shared, key: Key, c: Completion, id: JobId)
    requires CompletionsOk(s) && key in s.intents && c.digest == s.intents[key].digest
    requires Backed(s, key, CommitOf(c))
    requires t.completions == s.completions[key := c] && t.winners == s.winners[key := id]
    requires t.intents == s.intents && t.puts == s.puts
    ensures CompletionsOk(t)
  {
    hide Backed;
    forall k | k in t.completions ensures Backed(t, k, CommitOf(t.completions[k])) {
      BackedStable(s, t, k, CommitOf(t.completions[k]));
    }
  }

  lemma NoWinnerYet(s: Shared, key: Key)
    requires CompletionsOk(s) && key !in s.completions
    ensures key !in s.winners
  {}

  lemma IntentsSame(s: Shared, t: Shared)
    requires IntentsOk(s)
    requires t.intents == s.intents && t.origin == s.origin && t.usedReferences == s.usedReferences
    ensures IntentsOk(t)
  {}

  lemma NewCompletionKeeps(s: Shared, id: JobId, job: Job, given: Supply)
    requires SharedOk(s) && JobOk(s, id, job) && Enabled(s, job, given)
    requires job.pc.CreateCompletion? && TaskKey(job.task) !in s.completions
    ensures
      var (t, next) := Step(s, id, job, given);
      SharedOk(t) && Extends(s, t) && JobOk(t, id, next)
  {
    hide IntentsOk, PutsOk, ChainOk, CompletionsOk, StoreObject, Backed, Matches;
    var (t, next) := Step(s, id, job, given);
    NoWinnerYet(s, TaskKey(job.task));
    IntentsSame(s, t);
    JournalGrowth(s, t);
    CompletionsGrow(s, t, TaskKey(job.task), NewCompletion(job.pc.intent, job.pc.commit, given.now), id);
  }

  /** What the precondition of a request says of the object it is about to replace. */
  predicate PreconditionHolds(s: Shared, r: Request) {
    match r.precondition
    case MustNotExist => r.location !in s.objects
    case MustMatch(v) => r.location in s.objects && s.objects[r.location].version == v
  }

  /** The heart of exactly-once: the store refuses a second put of one intent,
      because the first one consumed what the intent's precondition names. */
  lemma FirstPut(s: Shared, r: Request, i: Intent)
    requires PutsOk(s) && Held(s, PublishStyle(r), i) && PreconditionHolds(s, r)
    ensures forall n | 0 <= n < |s.puts| :: s.puts[n].key != RequestKey(r)
  {
    hide StyleInputIdentity, TryStylePath;
    forall n | 0 <= n < |s.puts| ensures s.puts[n].key != RequestKey(r) {
      assert Requested(s, s.puts[n]) && Spent(s, s.puts[n]);
      if s.puts[n].key == RequestKey(r) {
        SameInput(s, s.puts[n], r, i);
      }
    }
  }

  lemma ObjectAfterPut(origin: map<string, Object>, puts: seq<Put>, p: Put, location: string)
    ensures ObjectAfter(origin, puts + [p], location) ==
            if location == p.location then Some(Stored(p)) else ObjectAfter(origin, puts, location)
  {
    assert (puts + [p])[..|puts|] == puts;
  }

  lemma PutKeepsChain(s: Shared, r: Request, i: Intent, v: Evidence)
    requires ChainOk(s) && PreconditionHolds(s, r) && v !in s.usedVersions
    ensures ChainOk(StoreObject(s, r, i, v, ReplacedVersion(r.precondition)))
  {
    hide RequestKey, ObjectAfter, TryStylePath, UsableEvidence;
    var t := StoreObject(s, r, i, v, ReplacedVersion(r.precondition));
    var p := t.puts[|s.puts|];
    forall l ensures SeenAt(t, l) {
      assert SeenAt(s, l);
      ObjectAfterPut(s.origin, s.puts, p, l);
    }
    forall n: nat | n < |t.puts| ensures LinkedAt(t, n) {
      assert t.puts[..n] == s.puts[..n];
      if n < |s.puts| {
        assert LinkedAt(s, n);
      } else {
        assert s.puts[..n] == s.puts && SeenAt(s, r.location);
      }
    }
  }

  lemma PutKeepsPuts(s: Shared, r: Request, i: Intent, v: Evidence)
    requires PutsOk(s) && ChainOk(s) && Held(s, PublishStyle(r), i) && ValidStyle(r.body)
    requires PreconditionHolds(s, r) && v !in s.usedVersions
    ensures PutsOk(StoreObject(s, r, i, v, ReplacedVersion(r.precondition)))
  {
    hide StyleInputIdentity, TryStylePath, SeenAt, LinkedAt;
    var t := StoreObject(s, r, i, v, ReplacedVersion(r.precondition));
    var p := t.puts[|s.puts|];
    FirstPut(s, r, i);
    forall n | 0 <= n < |t.puts| ensures Requested(t, t.puts[n]) && Spent(t, t.puts[n]) {
      if n < |s.puts| {
        assert t.puts[n] == s.puts[n];
        assert Requested(s, s.puts[n]) && Spent(s, s.puts[n]);
      } else {
        assert AskedFor(p.replaced) == r.precondition;
      }
    }
  }

  lemma PutKeeps(s: Shared, r: Request, i: Intent, v: Evidence)
    requires SharedOk(s) && Held(s, PublishStyle(r), i) && ValidStyle(r.body)
    requires PreconditionHolds(s, r) && v !in s.usedVersions
    ensures
      var t := StoreObject(s, r, i, v, ReplacedVersion(r.precondition));
      && SharedOk(t) && Extends(s, t)
      && Backed(t, RequestKey(r), StyleCommit(r.location, ContentDigest(r.body), v))
  {
    hide PutsOk, ChainOk, CompletionsOk, Matches;
    var t := StoreObject(s, r, i, v, ReplacedVersion(r.precondition));
    PutKeepsPuts(s, r, i, v);
    PutKeepsChain(s, r, i, v);
    CompletionsStable(s, t);
    assert Describes(t.puts[|s.puts|], RequestKey(r), StyleCommit(r.location, ContentDigest(r.body), v));
  }

  lemma PutStepKeeps(s: Shared, id: JobId, job: Job, given: Supply)
    requires SharedOk(s) && JobOk(s, id, job) && Enabled(s, job, given)
    requires job.pc.PutNew? || job.pc.PutReplacement?
    requires PreconditionHolds(s, job.task.request)
    ensures
      var (t, next) := Step(s, id, job, given);
      SharedOk(t) && Extends(s, t) && JobOk(t, id, next)
  {
    hide SharedOk, Matches, StoreObject, Backed;
    PutKeeps(s, job.task.request, job.pc.intent, given.version);
  }

  /** One store operation keeps the invariant and forgets nothing durable. */
  lemma StepKeeps(s: Shared, id: JobId, job: Job, given: Supply)
    requires SharedOk(s) && JobOk(s, id, job) && Enabled(s, job, given)
    ensures
      var (t, next) := Step(s, id, job, given);
      SharedOk(t) && Extends(s, t) && JobOk(t, id, next)
  {
    hide IntentsOk, PutsOk, ChainOk, CompletionsOk, JobOk, StoreObject, PlanCommit, PlanAfterRace, PlanReconcile;
    match job.pc
    case ReadState(_) => ReadStateKeeps(s, id, job, given);
    case ResolveRace(_) => ResolveRaceKeeps(s, id, job, given);
    case CompareCompletion(_, _) => CompareKeeps(s, id, job, given);
    case CreateIntent =>
      if TaskKey(job.task) in s.intents {
        OtherReadKeeps(s, id, job, given);
      } else {
        NewIntentKeeps(s, id, job, given);
      }
    case CreateCompletion(_, _) =>
      if TaskKey(job.task) in s.completions {
        OtherReadKeeps(s, id, job, given);
      } else {
        NewCompletionKeeps(s, id, job, given);
      }
    case PutNew(_) => PutNewKeeps(s, id, job, given);
    case PutReplacement(_, _) => PutReplacementKeeps(s, id, job, given);
    case _ => OtherReadKeeps(s, id, job, given);
  }

  lemma PutNewKeeps(s: Shared, id: JobId, job: Job, given: Supply)
    requires SharedOk(s) && JobOk(s, id, job) && Enabled(s, job, given) && job.pc.PutNew?
    ensures
      var (t, next) := Step(s, id, job, given);
      SharedOk(t) && Extends(s, t) && JobOk(t, id, next)
  {
    hide IntentsOk, PutsOk, ChainOk, CompletionsOk, Matches, StoreObject, Backed;
    if job.task.request.location in s.objects {
      OtherReadKeeps(s, id, job, given);
    } else {
      PutStepKeeps(s, id, job, given);
    }
  }

  lemma PutReplacementKeeps(s: Shared, id: JobId, job: Job, given: Supply)
    requires SharedOk(s) && JobOk(s, id, job) && Enabled(s, job, given) && job.pc.PutReplacement?
    ensures
      var (t, next) := Step(s, id, job, given);
      SharedOk(t) && Extends(s, t) && JobOk(t, id, next)
  {
    hide IntentsOk, PutsOk, ChainOk, CompletionsOk, Matches, StoreObject, Backed;
    if PreconditionHolds(s, job.task.request) {
      PutStepKeeps(s, id, job, given);
    } else {
      OtherReadKeeps(s, id, job, given);
    }
  }

  lemma EventKeeps(w: World, e: Event)
    requires WorldOk(w) && Possible(w, e)
    ensures WorldOk(Apply(w, e)) && Extends(w.shared, Apply(w, e).shared)
  {
    hide SharedOk, Step, JobOk;
    match e
    case Start(id, task) => StartOk(w.shared, id, task);
    case Crash(id) => CrashOk(w.shared, id, w.jobs[id]);
    case Advance(id, given) =>
      StepKeeps(w.shared, id, w.jobs[id], given);
      var next := Apply(w, e);
      forall j | j in next.jobs ensures JobOk(next.shared, j, next.jobs[j]) {
        if j != id {
          JobStable(w.shared, next.shared, j, w.jobs[j]);
        }
      }
  }

  lemma StartOk(s: Shared, id: JobId, task: Task)
    requires task.PublishStyle? ==> ValidStyle(task.request.body)
    requires task.Reconcile? ==> task.key in s.intents
    ensures JobOk(s, id, Begin(task))
  {}

  lemma CrashOk(s: Shared, id: JobId, job: Job)
    requires JobOk(s, id, job)
    ensures JobOk(s, id, job.(pc := Done(Crashed)))
  {
    hide Held, Backed;
  }

  lemma InitOk(w: World)
    requires Init(w)
    ensures WorldOk(w)
  {}

  lemma {:induction false} RunKeeps(w: World, run: seq<Event>)
    requires WorldOk(w) && Legal(w, run)
    ensures WorldOk(Run(w, run)) && Extends(w.shared, Run(w, run).shared)
    decreases |run|
  {
    if run != [] {
      EventKeeps(w, run[0]);
      RunKeeps(Apply(w, run[0]), run[1..]);
    }
  }

  // ---- Theorems over every run -------------------------------------------

  lemma SafeRun(w: World, run: seq<Event>)
    requires Init(w) && Legal(w, run)
    ensures WorldOk(Run(w, run)) && Run(w, run).shared.origin == w.shared.origin
  {
    hide WorldOk, Run, Legal;
    InitOk(w);
    RunKeeps(w, run);
    OriginConstant(w, run);
  }

  lemma {:induction false} OriginConstant(w: World, run: seq<Event>)
    requires Legal(w, run)
    ensures Run(w, run).shared.origin == w.shared.origin
    decreases |run|
  {
    if run != [] {
      OriginConstant(Apply(w, run[0]), run[1..]);
    }
  }

  /** Exactly once: no two puts carry the reference of one intent. */
  lemma ExactlyOnce(w: World, run: seq<Event>, i: nat, j: nat)
    requires Init(w) && Legal(w, run)
    requires i < |Run(w, run).shared.puts| && j < |Run(w, run).shared.puts|
    requires Run(w, run).shared.puts[i].reference == Run(w, run).shared.puts[j].reference
    ensures i == j
  {
    hide Init, Legal, Run, ChainOk, CompletionsOk, JobOk;
    SafeRun(w, run);
    var s := Run(w, run).shared;
    assert Requested(s, s.puts[i]) && Requested(s, s.puts[j]);
    assert s.puts[i].key == s.puts[j].key;
  }

  /** No lost update: every put replaced exactly the version its immediate
      predecessor at that location left, and readers see the last put. */
  lemma LinearChain(w: World, run: seq<Event>)
    requires Init(w) && Legal(w, run)
    ensures
      var s := Run(w, run).shared;
      && (forall i: nat | i < |s.puts| :: LinkedAt(s, i))
      && (forall l :: SeenAt(s, l))
      && s.origin == w.shared.origin
  {
    hide Init, Legal, Run, IntentsOk, PutsOk, CompletionsOk, JobOk, LinkedAt, SeenAt;
    SafeRun(w, run);
  }

  /** A stored completion describes a put that really happened, under the
      precondition, location and body its own intent asked for. */
  lemma CompletionTruth(w: World, run: seq<Event>, key: Key) returns (i: nat)
    requires Init(w) && Legal(w, run) && key in Run(w, run).shared.completions
    ensures
      var s := Run(w, run).shared;
      && key in s.intents && i < |s.puts|
      && Requested(s, s.puts[i]) && s.puts[i].reference == s.intents[key].reference
      && Describes(s.puts[i], key, CommitOf(s.completions[key]))
  {
    hide Init, Legal, Run, ChainOk, JobOk, Spent;
    SafeRun(w, run);
    var s := Run(w, run).shared;
    assert Backed(s, key, CommitOf(s.completions[key]));
    i :| 0 <= i < |s.puts| && Describes(s.puts[i], key, CommitOf(s.completions[key]));
  }

  /** Agreement: a completion computed for an intent has the same result as the
      one stored for it, so none of the guarded errors can be reported. */
  lemma CompletionAgreement(w: World, run: seq<Event>, id: JobId)
    requires Init(w) && Legal(w, run) && id in Run(w, run).jobs
    ensures
      var s, job := Run(w, run).shared, Run(w, run).jobs[id];
      && (job.pc.Done? ==> !Impossible(job.pc.outcome))
      && (job.pc.CreateCompletion? && TaskKey(job.task) in s.completions ==>
            CommitOf(s.completions[TaskKey(job.task)]) == job.pc.commit)
      && (job.pc.CompareCompletion? ==>
            && TaskKey(job.task) in s.completions
            && SameResult(s.completions[TaskKey(job.task)], job.pc.mine))
  {
    hide Init, Legal, Run, ChainOk, IntentsOk, Requested, Spent, Backed, Matches;
    SafeRun(w, run);
    var s, job := Run(w, run).shared, Run(w, run).jobs[id];
    var key := TaskKey(job.task);
    assert JobOk(s, id, job);
    if key in s.completions {
      match job.pc
      case CreateCompletion(_, c) => BackedUnique(s, key, CommitOf(s.completions[key]), c);
      case CompareCompletion(_, mine) => BackedUnique(s, key, CommitOf(s.completions[key]), CommitOf(mine));
      case _ =>
    }
  }

  /** At most one caller in the whole run is told `Committed` for a mutation,
      and everyone who is told a version is told the same one. */
  lemma SingleCommitter(w: World, run: seq<Event>, a: JobId, b: JobId)
    requires Init(w) && Legal(w, run)
    requires a in Run(w, run).jobs && b in Run(w, run).jobs
    requires TaskKey(Run(w, run).jobs[a].task) == TaskKey(Run(w, run).jobs[b].task)
    requires Run(w, run).jobs[a].pc.Done? && Run(w, run).jobs[b].pc.Done?
    ensures
      var x, y := Run(w, run).jobs[a].pc.outcome, Run(w, run).jobs[b].pc.outcome;
      && (x.Committed? && y.Committed? ==> a == b)
      && ((x.Committed? || x.AlreadyCompleted?) && (y.Committed? || y.AlreadyCompleted?) ==> x.version == y.version)
  {
    hide Init, Legal, Run, SharedOk, Held, Backed;
    SafeRun(w, run);
    var f := Run(w, run);
    assert JobOk(f.shared, a, f.jobs[a]) && JobOk(f.shared, b, f.jobs[b]);
  }
}
