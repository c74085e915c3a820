/** The publisher as the code runs it: sequential reads and conditional writes of
    the two stores. Each method is proved to be the uninterrupted run of the
    corresponding protocol steps, which the safety and recovery theorems cover.
  */
module StylePublisher {
  import opened Text
  import opened MutationIdentity
  import opened PublicationProtocol
  import opened PublicationSafety
  import opened PublicationRecovery

  class Publisher {
    var intents: map<Key, Intent>
    var completions: map<Key, Completion>
    var objects: map<string, Object>
    ghost var history: Shared

    ghost function View(): Shared
      reads this
    {
      history.(intents := intents, completions := completions, objects := objects)
    }

    constructor (intents: map<Key, Intent>, objects: map<string, Object>, ghost references: set<string>)
      ensures this.View().intents == intents && this.View().objects == objects
      ensures this.View().completions == map[] && this.View().puts == []
      ensures Init(World(this.View(), map[])) <==>
                (&& (forall k | k in intents ::
                       k == Key(intents[k].target.account, intents[k].digest) && intents[k].reference in references)
                 && (forall j, k | j in intents && k in intents && j != k ::
                      intents[j].reference != intents[k].reference)
                 && (forall l | l in objects && objects[l].reference.Some? :: objects[l].reference.value in references)
                 && (forall l, k | l in objects && k in intents :: objects[l].reference != Some(intents[k].reference)))
    {
      this.intents, this.completions, this.objects := intents, map[], objects;
      history := Shared(intents, map[], objects, objects, [], map[], references,
                        set l | l in objects :: objects[l].version);
    }

    /** `ensure_intent`: `None` is the idempotency conflict. */
    method EnsureIntent(request: Request, given: Supply) returns (intent: Option<Intent>)
      requires Ready(View(), Begin(PublishStyle(request)), given)
      modifies this
      ensures
        var job := Job(PublishStyle(request),
                       match intent case Some(i) => ReadCompletion(i) case None => Done(IdempotencyConflict));
        && Ready(View(), job, given)
        && forall id :: Alone(View(), id, job, given) == Alone(old(View()), id, Begin(PublishStyle(request)), given)
    {
      hide Alone;
      var key := RequestKey(request);
      ghost var s, begin := View(), Begin(PublishStyle(request));
      forall id { AloneStep(s, id, begin, given); }
      if key !in intents {
        var fresh' := NewIntent(request, given.reference);
        intents := intents[key := fresh'];
        history := history.(usedReferences := history.usedReferences + {given.reference});
        intent := Some(fresh');
      } else {
        forall id { AloneStep(s, id, begin.(pc := ReadIntent), given); }
        intent := if Matches(intents[key], request) then Some(intents[key]) else None;
      }
    }

    /** `record_completion`. */
    method RecordCompletion(id: JobId, task: Task, intent: Intent, commit: Commit, given: Supply)
      returns (outcome: Outcome)
      modifies this
      ensures Ready(old(View()), Job(task, CreateCompletion(intent, commit)), given)
      ensures (View(), outcome) == Alone(old(View()), id, Job(task, CreateCompletion(intent, commit)), given)
    {
      hide Alone;
      ghost var s := View();
      var key, mine := TaskKey(task), NewCompletion(intent, commit, given.now);
      AloneStep(s, id, Job(task, CreateCompletion(intent, commit)), given);
      if key !in completions {
        completions := completions[key := mine];
        history := history.(winners := history.winners[key := id]);
        outcome := Committed(commit.version);
      } else {
        AloneStep(s, id, Job(task, CompareCompletion(intent, mine)), given);
        var existing := completions[key];
        outcome := if SameResult(existing, mine) then AlreadyCompleted(existing.version) else Disagreement;
      }
      AloneDone(View(), id, task, outcome, given);
    }

    /** `commit_style`: the next step is the completion write or a conflict. */
    method CommitStyle(request: Request, intent: Intent, given: Supply) returns (next: Pc)
      requires Ready(View(), Job(PublishStyle(request), ReadState(intent)), given)
      modifies this
      ensures next.CreateCompletion? || next.Done?
      ensures
        && Ready(View(), Job(PublishStyle(request), next), given)
        && forall id :: Alone(View(), id, Job(PublishStyle(request), next), given) ==
                        Alone(old(View()), id, Job(PublishStyle(request), ReadState(intent)), given)
    {
      hide Alone, ValidStyle;
      ghost var s, task := View(), PublishStyle(request);
      forall id { AloneStep(s, id, Job(task, ReadState(intent)), given); }
      var content := ContentDigest(request.body);
      if request.location in objects {
        var current := objects[request.location];
        if current.reference == Some(intent.reference) {
          next := AdoptCurrent(intent, current, request.location, Some(content));
        } else if request.precondition.MustNotExist? {
          next := Done(StyleExists);
        } else if current.version != request.precondition.expected {
          next := Done(PreconditionFailed);
        } else {
          forall id { AloneStep(s, id, Job(task, PutReplacement(intent, request.precondition.expected)), given); }
          Put(request, intent, given.version);
          next := CreateCompletion(intent, StyleCommit(request.location, content, given.version));
        }
      } else if !request.precondition.MustNotExist? {
        next := Done(StyleNotFound);
      } else {
        forall id { AloneStep(s, id, Job(task, PutNew(intent)), given); }
        Put(request, intent, given.version);
        next := CreateCompletion(intent, StyleCommit(request.location, content, given.version));
      }
    }

    /** The conditional put itself, under the precondition the store checks. */
    method Put(request: Request, intent: Intent, version: Evidence)
      requires PreconditionHolds(View(), request)
      modifies this
      ensures View() == StoreObject(old(View()), request, intent, version, ReplacedVersion(request.precondition))
    {
      history := StoreObject(View(), request, intent, version, ReplacedVersion(request.precondition));
      objects := objects[request.location := Object(version, Some(intent.reference), true, request.body)];
    }

    /** `publish`. */
    method Publish(id: JobId, request: Request, given: Supply) returns (outcome: Outcome)
      requires Ready(View(), Begin(PublishStyle(request)), given)
      modifies this
      ensures (View(), outcome) == Alone(old(View()), id, Begin(PublishStyle(request)), given)
    {
      hide Alone;
      var key, task := RequestKey(request), PublishStyle(request);
      var ensured := EnsureIntent(request, given);
      if ensured.None? {
        outcome := IdempotencyConflict;
        AloneDone(View(), id, task, outcome, given);
        return;
      }
      var intent := ensured.value;
      AloneStep(View(), id, Job(task, ReadCompletion(intent)), given);
      if key in completions {
        outcome := if completions[key].digest == intent.digest
                   then AlreadyCompleted(completions[key].version) else ForeignCompletion;
        AloneDone(View(), id, task, outcome, given);
        return;
      }
      var next := CommitStyle(request, intent, given);
      if next.Done? {
        outcome := next.outcome;
        AloneDone(View(), id, task, outcome, given);
      } else {
        outcome := RecordCompletion(id, task, next.intent, next.commit, given);
      }
    }

    /** `unfinished_intent` and `reconcile_style_intent` for one listed intent. */
    method ReconcileIntent(id: JobId, layout: Layout, key: Key, given: Supply) returns (outcome: Outcome)
      modifies this
      ensures (View(), outcome) == ReconcileOne(old(View()), id, layout, key, given)
    {
      hide Alone, Locate, ValidStyle;
      ghost var s := View();
      var task := Reconcile(layout, key);
      AloneStep(s, id, Begin(task), given);
      if key !in intents {
        outcome := Disappeared;
        AloneDone(s, id, task, outcome, given);
        return;
      }
      var intent := intents[key];
      AloneStep(s, id, Job(task, ReadCompletion(intent)), given);
      if key in completions {
        outcome := if completions[key].digest == intent.digest then Finished else ForeignCompletion;
        AloneDone(s, id, task, outcome, given);
        return;
      }
      AloneStep(s, id, Job(task, ReadState(intent)), given);
      if !IsStylePublication(intent) {
        outcome := Unsupported;
      } else if Locate(intent, layout).None? {
        outcome := UnusableLocator;
      } else {
        var path := Locate(intent, layout).value.path;
        if path !in objects {
          outcome := NotCommitted;
        } else if objects[path].reference != Some(intent.reference) {
          outcome := Superseded;
        } else {
          var adopted := AdoptCurrent(intent, objects[path], path, None);
          if adopted.CreateCompletion? {
            outcome := RecordCompletion(id, task, intent, adopted.commit, given);
            return;
          }
          outcome := adopted.outcome;
        }
      }
      AloneDone(s, id, task, outcome, given);
    }

    /** `reconcile_unfinished`: the scan over a listing of the journal. */
    method ReconcileUnfinished(id: JobId, layout: Layout, listing: seq<Key>, given: Supply)
      returns (report: Option<Report>)
      modifies this
      ensures (View(), report) == Scan(old(View()), id, layout, listing, EMPTY_REPORT, given)
    {
      hide ReconcileOne, Count;
      var counted, n := EMPTY_REPORT, 0;
      while n < |listing|
        invariant 0 <= n <= |listing|
        invariant Scan(View(), id, layout, listing[n..], counted, given) ==
                  Scan(old(View()), id, layout, listing, EMPTY_REPORT, given)
      {
        var outcome := ReconcileIntent(id, layout, listing[n], given);
        var next := Count(counted, outcome);
        assert listing[n..][1..] == listing[n + 1..];
        if next.None? {
          return None;
        }
        counted, n := next.value, n + 1;
      }
      report := Some(counted);
    }
  }
}
