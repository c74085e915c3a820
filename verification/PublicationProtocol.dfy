/** The publication protocol: publishers and reconcilers over two conditional
    object stores, one store operation at a time.

    `Shared` is what the stores hold, plus history variables (`origin`, `puts`,
    `winners`, `usedReferences`, `usedVersions`) that no step reads to decide
    what to do. Any number of jobs run concurrently; a job may crash between any
    two of its store operations, in particular after a put took effect and
    before its response was seen.
  */
module PublicationProtocol {
  import opened Text
  import opened MutationIdentity

  type JobId = nat

  datatype ResourceKind = Style | Sprite | Tileset | Token
  datatype MutationAction = Create | Update | Delete | Publish
  datatype Actor = Actor(human: bool, issuer: string, subject: string)
  datatype Target = Target(account: string, kind: ResourceKind, localId: string)

  /** One journal directory: `journal/{account}/mutations/{key digest}`. */
  datatype Key = Key(account: string, digest: Digest)

  datatype Intent = Intent(
    digest: Digest, reference: string, actor: Actor, action: MutationAction, target: Target,
    input: Digest, locator: Option<string>)

  datatype Completion = Completion(digest: Digest, version: VersionEvidence, state: Digest, completedAt: nat)

  /** The two fields of a style object that this protocol reads back: the mutation
      reference and whether the response attributes are the style attributes. */
  datatype Object = Object(version: Evidence, reference: Option<string>, styled: bool, body: string)

  /** Size bound of `validate_style`; the JSON shape it also checks is not modelled. */
  predicate ValidStyle(body: string) {
    0 < |body| <= MAX_STYLE_BYTES
  }

  datatype Request = Request(
    idempotencyKey: string, actor: Actor, account: string, styleId: string,
    location: Location, precondition: StylePrecondition, body: string)

  function RequestKey(r: Request): Key {
    Key(r.account, KeyDigest(r.idempotencyKey))
  }

  function InputOf(r: Request): Digest {
    InputDigest(StyleInputIdentity(r.location, r.precondition, r.body))
  }

  function NewIntent(r: Request, reference: string): Intent {
    Intent(RequestKey(r).digest, reference, r.actor, Publish, Target(r.account, Style, r.styleId),
           InputOf(r), Some(r.location))
  }

  /** `MutationIntent::matches_request`; an intent from before locators has none. */
  predicate Matches(i: Intent, r: Request) {
    && i.digest == RequestKey(r).digest
    && i.actor == r.actor
    && i.action == Publish
    && i.target == Target(r.account, Style, r.styleId)
    && i.input == InputOf(r)
    && (i.locator.None? || i.locator == Some(r.location))
  }

  predicate SameResult(a: Completion, b: Completion) {
    a.digest == b.digest && a.version == b.version && a.state == b.state
  }

  // ---- Shared state ------------------------------------------------------

  /** A conditional put that took effect, and the version it replaced. */
  datatype Put = Put(key: Key, location: string, version: Evidence, reference: string, body: string,
                     replaced: Option<VersionEvidence>)

  datatype Shared = Shared(
    intents: map<Key, Intent>,
    completions: map<Key, Completion>,
    objects: map<string, Object>,
    origin: map<string, Object>,
    puts: seq<Put>,
    winners: map<Key, JobId>,
    usedReferences: set<string>,
    usedVersions: set<VersionEvidence>)

  // ---- Jobs --------------------------------------------------------------

  datatype Task = PublishStyle(request: Request) | Reconcile(layout: Layout, key: Key)

  datatype Commit = Commit(version: VersionEvidence, state: Digest)

  datatype Outcome =
    | Committed(version: VersionEvidence)
    | AlreadyCompleted(version: VersionEvidence)
    | IdempotencyConflict
    | StyleExists
    | PreconditionFailed
    | StyleNotFound
    | NotCommitted
    | Superseded
    | Unsupported
    | Finished
    | UnusableLocator
    | Crashed
    // Errors the code guards against.
    | Disappeared
    | ForeignCompletion
    | InvalidObject
    | ContentMismatch
    | Disagreement

  /** The next store operation of a job. */
  datatype Pc =
    | CreateIntent
    | ReadIntent
    | ReadCompletion(intent: Intent)
    | ReadState(intent: Intent)
    | PutNew(intent: Intent)
    | PutReplacement(intent: Intent, expected: Evidence)
    | ResolveRace(intent: Intent)
    | CreateCompletion(intent: Intent, commit: Commit)
    | CompareCompletion(intent: Intent, mine: Completion)
    | Done(outcome: Outcome)

  datatype Job = Job(task: Task, pc: Pc)

  /** Values the environment supplies to a step: a random reference, the version
      the store assigns, and the clock. */
  datatype Supply = Supply(reference: string, version: Evidence, now: nat)

  function TaskKey(t: Task): Key {
    match t
    case PublishStyle(request) => RequestKey(request)
    case Reconcile(_, key) => key
  }

  function Begin(t: Task): Job {
    Job(t, match t case PublishStyle(_) => CreateIntent case Reconcile(_, _) => ReadIntent)
  }

  /** References and versions are new when they are written. */
  predicate Enabled(s: Shared, job: Job, given: Supply) {
    && !job.pc.Done?
    && (job.pc.CreateIntent? ==> job.task.PublishStyle? && given.reference !in s.usedReferences)
    && (job.pc.PutNew? || job.pc.PutReplacement? ==>
          job.task.PublishStyle? && given.version !in s.usedVersions)
    && (job.pc.ResolveRace? ==> job.task.PublishStyle?)
  }

  function StyleCommit(location: string, content: Digest, version: VersionEvidence): Commit {
    Commit(version, StateDigest(location, content, version))
  }

  function NewCompletion(i: Intent, c: Commit, now: nat): Completion {
    Completion(i.digest, c.version, c.state, now)
  }

  /** `style_commit_from_current` and, when content is expected, `existing_style_commit`. */
  function AdoptCurrent(i: Intent, o: Object, location: string, expected: Option<Digest>): Pc {
    if !o.styled || !ValidStyle(o.body) then Done(InvalidObject)
    else if expected.Some? && expected.value != ContentDigest(o.body) then Done(ContentMismatch)
    else CreateCompletion(i, StyleCommit(location, ContentDigest(o.body), o.version))
  }

  /** The decision `commit_style` takes from its read of the current object. */
  function PlanCommit(s: Shared, r: Request, i: Intent): Pc {
    if r.location in s.objects then
      var current := s.objects[r.location];
      if current.reference == Some(i.reference) then
        AdoptCurrent(i, current, r.location, Some(ContentDigest(r.body)))
      else
        match r.precondition
        case MustNotExist => Done(StyleExists)
        case MustMatch(expected) =>
          if current.version != expected then Done(PreconditionFailed) else PutReplacement(i, expected)
    else if r.precondition.MustNotExist? then PutNew(i)
    else Done(StyleNotFound)
  }

  /** `resolve_write_race`. */
  function PlanAfterRace(s: Shared, r: Request, i: Intent): Pc {
    if r.location !in s.objects then
      Done(if r.precondition.MustNotExist? then StyleExists else StyleNotFound)
    else
      var current := s.objects[r.location];
      if current.reference == Some(i.reference) then
        AdoptCurrent(i, current, r.location, Some(ContentDigest(r.body)))
      else Done(if r.precondition.MustNotExist? then StyleExists else PreconditionFailed)
  }

  /** Where the reconciler looks for the state of an intent. */
  function Locate(i: Intent, layout: Layout): Option<StylePath> {
    match i.locator
    case Some(path) => TryStylePath(path)
    case None => ForResource(i.target.account, i.target.localId, layout)
  }

  predicate IsStylePublication(i: Intent) {
    i.action == Publish && i.target.kind == Style
  }

  /** `reconcile_style_intent` up to the completion write. */
  function PlanReconcile(s: Shared, layout: Layout, i: Intent): Pc {
    if !IsStylePublication(i) then Done(Unsupported)
    else
      match Locate(i, layout)
      case None => Done(UnusableLocator)
      case Some(p) =>
        if p.path !in s.objects then Done(NotCommitted)
        else if s.objects[p.path].reference != Some(i.reference) then Done(Superseded)
        else AdoptCurrent(i, s.objects[p.path], p.path, None)
  }

  function StoreObject(s: Shared, r: Request, i: Intent, v: Evidence, replaced: Option<VersionEvidence>): Shared {
    s.(objects := s.objects[r.location := Object(v, Some(i.reference), true, r.body)],
       puts := s.puts + [Put(RequestKey(r), r.location, v, i.reference, r.body, replaced)],
       usedVersions := s.usedVersions + {v})
  }

  /** One store operation of one job. */
  function Step(s: Shared, id: JobId, job: Job, given: Supply): (Shared, Job)
    requires Enabled(s, job, given)
  {
    var key := TaskKey(job.task);
    match job.pc
    case CreateIntent =>
      if key in s.intents then (s, job.(pc := ReadIntent))
      else
        var i := NewIntent(job.task.request, given.reference);
        (s.(intents := s.intents[key := i], usedReferences := s.usedReferences + {given.reference}),
         job.(pc := ReadCompletion(i)))
    case ReadIntent =>
      if key !in s.intents then (s, job.(pc := Done(Disappeared)))
      else if job.task.PublishStyle? && !Matches(s.intents[key], job.task.request) then
        (s, job.(pc := Done(IdempotencyConflict)))
      else (s, job.(pc := ReadCompletion(s.intents[key])))
    case ReadCompletion(i) =>
      (s, job.(pc :=
        if key !in s.completions then ReadState(i)
        else if s.completions[key].digest != i.digest then Done(ForeignCompletion)
        else if job.task.PublishStyle? then Done(AlreadyCompleted(s.completions[key].version))
        else Done(Finished)))
    case ReadState(i) =>
      (s, job.(pc :=
        match job.task
        case PublishStyle(r) => PlanCommit(s, r, i)
        case Reconcile(layout, _) => PlanReconcile(s, layout, i)))
    case PutNew(i) =>
      var r := job.task.request;
      if r.location in s.objects then (s, job.(pc := ResolveRace(i)))
      else (StoreObject(s, r, i, given.version, None),
            job.(pc := CreateCompletion(i, StyleCommit(r.location, ContentDigest(r.body), given.version))))
    case PutReplacement(i, expected) =>
      var r := job.task.request;
      if r.location !in s.objects || s.objects[r.location].version != expected then
        (s, job.(pc := ResolveRace(i)))
      else (StoreObject(s, r, i, given.version, Some(expected)),
            job.(pc := CreateCompletion(i, StyleCommit(r.location, ContentDigest(r.body), given.version))))
    case ResolveRace(i) =>
      (s, job.(pc := PlanAfterRace(s, job.task.request, i)))
    case CreateCompletion(i, c) =>
      var mine := NewCompletion(i, c, given.now);
      if key in s.completions then (s, job.(pc := CompareCompletion(i, mine)))
      else (s.(completions := s.completions[key := mine], winners := s.winners[key := id]),
            job.(pc := Done(Committed(c.version))))
    case CompareCompletion(i, mine) =>
      (s, job.(pc :=
        if key !in s.completions then Done(Disappeared)
        else if !SameResult(s.completions[key], mine) then Done(Disagreement)
        else Done(AlreadyCompleted(s.completions[key].version))))
  }

  // ---- Runs --------------------------------------------------------------

  datatype World = World(shared: Shared, jobs: map<JobId, Job>)

  datatype Event =
    | Start(id: JobId, task: Task)
    | Advance(id: JobId, given: Supply)
    | Crash(id: JobId)

  predicate Possible(w: World, e: Event) {
    match e
    case Start(id, task) =>
      && id !in w.jobs
      && (task.PublishStyle? ==> ValidStyle(task.request.body))
      && (task.Reconcile? ==> task.key in w.shared.intents)
    case Advance(id, given) => id in w.jobs && Enabled(w.shared, w.jobs[id], given)
    case Crash(id) => id in w.jobs && !w.jobs[id].pc.Done?
  }

  function Apply(w: World, e: Event): World
    requires Possible(w, e)
  {
    match e
    case Start(id, task) => w.(jobs := w.jobs[id := Begin(task)])
    case Advance(id, given) =>
      var (shared, job) := Step(w.shared, id, w.jobs[id], given);
      World(shared, w.jobs[id := job])
    case Crash(id) => w.(jobs := w.jobs[id := w.jobs[id].(pc := Done(Crashed))])
  }

  predicate Legal(w: World, run: seq<Event>)
    decreases |run|
  {
    run == [] || (Possible(w, run[0]) && Legal(Apply(w, run[0]), run[1..]))
  }

  function Run(w: World, run: seq<Event>): World
    requires Legal(w, run)
    decreases |run|
  {
    if run == [] then w else Run(Apply(w, run[0]), run[1..])
  }

  /** A journal may already hold intents, but none of them has committed yet;
      objects published before the journal existed carry other references. */
  ghost predicate Init(w: World) {
    var s := w.shared;
    && w.jobs == map[] && s.completions == map[] && s.puts == [] && s.winners == map[]
    && s.objects == s.origin
    && (forall k | k in s.intents :: k == Key(s.intents[k].target.account, s.intents[k].digest))
    && (forall k | k in s.intents :: s.intents[k].reference in s.usedReferences)
    && (forall k1, k2 | k1 in s.intents && k2 in s.intents && k1 != k2 ::
          s.intents[k1].reference != s.intents[k2].reference)
    && (forall l | l in s.objects :: s.objects[l].version in s.usedVersions)
    && (forall l | l in s.objects && s.objects[l].reference.Some? ::
          s.objects[l].reference.value in s.usedReferences)
    && (forall l, k | l in s.objects && k in s.intents ::
          s.objects[l].reference != Some(s.intents[k].reference))
  }
}
