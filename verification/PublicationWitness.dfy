/** Runs that reach the awkward cases of recovery: a published request whose retry
    is refused, and a recoverable intent that no scan ever completes.
  */
module PublicationWitness {
  import opened Text
  import opened MutationIdentity
  import opened PublicationProtocol
  import opened PublicationSafety
  import opened PublicationRecovery

  // ---- A publisher that crashes after its put ----------------------------

  /** Nothing in the stores belongs to the request yet, and its precondition holds. */
  predicate Untried(s: Shared, r: Request, given: Supply) {
    && ValidStyle(r.body) && RequestKey(r) !in s.intents && RequestKey(r) !in s.completions
    && PreconditionHolds(s, r)
    && given.reference !in s.usedReferences && given.version !in s.usedVersions
    && (r.location in s.objects ==> s.objects[r.location].reference != Some(given.reference))
  }

  function Noted(s: Shared, r: Request, reference: string): Shared {
    s.(intents := s.intents[RequestKey(r) := NewIntent(r, reference)],
       usedReferences := s.usedReferences + {reference})
  }

  /** The stores after the put, with no completion written. */
  function Interrupted(s: Shared, r: Request, given: Supply): Shared {
    StoreObject(Noted(s, r, given.reference), r, NewIntent(r, given.reference), given.version,
                ReplacedVersion(r.precondition))
  }

  function At(w: World, s: Shared, id: JobId, r: Request, pc: Pc): World {
    World(s, w.jobs[id := Job(PublishStyle(r), pc)])
  }

  lemma Before(w: World, e: Event, rest: seq<Event>)
    requires Possible(w, e) && Legal(Apply(w, e), rest)
    ensures Legal(w, [e] + rest) && Run(w, [e] + rest) == Run(Apply(w, e), rest)
  {
    hide Possible, Apply;
    assert ([e] + rest)[1..] == rest;
  }

  predicate Takes(s: Shared, t: Shared, id: JobId, r: Request, from: Pc, to: Pc, given: Supply) {
    && Enabled(s, Job(PublishStyle(r), from), given)
    && Step(s, id, Job(PublishStyle(r), from), given) == (t, Job(PublishStyle(r), to))
  }

  lemma Advances(
    w: World, s: Shared, t: Shared, id: JobId, r: Request, from: Pc, to: Pc, given: Supply, rest: seq<Event>)
    requires Takes(s, t, id, r, from, to, given) && Legal(At(w, t, id, r, to), rest)
    ensures Legal(At(w, s, id, r, from), [Advance(id, given)] + rest)
    ensures Run(At(w, s, id, r, from), [Advance(id, given)] + rest) == Run(At(w, t, id, r, to), rest)
  {
    hide Step, Enabled, Legal, Run;
    var v := At(w, s, id, r, from);
    assert Apply(v, Advance(id, given)) == At(w, t, id, r, to);
    Before(v, Advance(id, given), rest);
  }

  lemma Crashes(w: World, s: Shared, id: JobId, r: Request, pc: Pc)
    requires !pc.Done?
    ensures Legal(At(w, s, id, r, pc), [Crash(id)])
    ensures Run(At(w, s, id, r, pc), [Crash(id)]) == At(w, s, id, r, Done(Crashed))
  {
    var v := At(w, s, id, r, pc);
    assert Apply(v, Crash(id)) == At(w, s, id, r, Done(Crashed));
    assert Possible(v, Crash(id)) && [Crash(id)][1..] == [];
  }

  function PutPc(r: Request, i: Intent): Pc {
    match r.precondition case MustNotExist => PutNew(i) case MustMatch(expected) => PutReplacement(i, expected)
  }

  function WrittenPc(r: Request, i: Intent, version: Evidence): Pc {
    CreateCompletion(i, StyleCommit(r.location, ContentDigest(r.body), version))
  }

  lemma PutSteps(s: Shared, id: JobId, r: Request, given: Supply)
    requires Untried(s, r, given)
    ensures
      var i, n := NewIntent(r, given.reference), Noted(s, r, given.reference);
      && Takes(s, n, id, r, CreateIntent, ReadCompletion(i), given)
      && Takes(n, n, id, r, ReadCompletion(i), ReadState(i), given)
      && Takes(n, n, id, r, ReadState(i), PutPc(r, i), given)
      && Takes(n, Interrupted(s, r, given), id, r, PutPc(r, i), WrittenPc(r, i, given.version), given)
  {
    hide ValidStyle, StyleCommit, InputOf;
  }

  /** The intent, two reads and the put; then the publisher is gone. */
  lemma PutThenCrash(w: World, id: JobId, r: Request, given: Supply) returns (run: seq<Event>)
    requires id !in w.jobs && Untried(w.shared, r, given)
    ensures Legal(w, run)
    ensures Run(w, run) == At(w, Interrupted(w.shared, r, given), id, r, Done(Crashed))
  {
    var s, i := w.shared, NewIntent(r, given.reference);
    var n, t := Noted(s, r, given.reference), Interrupted(s, r, given);
    var go := Advance(id, given);
    assert Possible(w, Start(id, PublishStyle(r)));
    assert Apply(w, Start(id, PublishStyle(r))) == At(w, s, id, r, CreateIntent);
    PutSteps(s, id, r, given);
    hide *;
    Crashes(w, t, id, r, WrittenPc(r, i, given.version));
    Advances(w, n, t, id, r, PutPc(r, i), WrittenPc(r, i, given.version), given, [Crash(id)]);
    Advances(w, n, n, id, r, ReadState(i), PutPc(r, i), given, [go] + [Crash(id)]);
    Advances(w, n, n, id, r, ReadCompletion(i), ReadState(i), given, [go] + ([go] + [Crash(id)]));
    Advances(w, s, n, id, r, CreateIntent, ReadCompletion(i), given, [go] + ([go] + ([go] + [Crash(id)])));
    run := [go] + ([go] + ([go] + ([go] + [Crash(id)])));
    Before(w, Start(id, PublishStyle(r)), run);
    run := [Start(id, PublishStyle(r))] + run;
  }

  lemma {:induction false} Then(w: World, a: seq<Event>, b: seq<Event>)
    requires Legal(w, a) && Legal(Run(w, a), b)
    ensures Legal(w, a + b) && Run(w, a + b) == Run(Run(w, a), b)
    decreases |a|
  {
    hide Possible, Apply;
    if a == [] {
      assert a + b == b;
    } else {
      Then(Apply(w, a[0]), a[1..], b);
      assert (a + b)[1..] == a[1..] + b;
    }
  }

  // ---- A refused retry ---------------------------------------------------

  /** Two publications of one style: `a` creates it and `b` replaces what `a` wrote. */
  ghost predicate Rivals(s: Shared, a: Request, b: Request, first: Supply, second: Supply) {
    && Untried(s, a, first) && a.precondition.MustNotExist?
    && ValidStyle(b.body) && RequestKey(b) !in s.intents && RequestKey(b) !in s.completions
    && RequestKey(b) != RequestKey(a) && b.location == a.location && b.precondition == MustMatch(first.version)
    && second.reference !in s.usedReferences + {first.reference}
    && second.version !in s.usedVersions + {first.version}
  }

  lemma SecondUntried(s: Shared, a: Request, b: Request, first: Supply, second: Supply)
    requires Rivals(s, a, b, first, second)
    ensures Untried(Interrupted(s, a, first), b, second)
  {
    hide ValidStyle, InputOf;
  }

  lemma FirstSuperseded(s: Shared, a: Request, b: Request, first: Supply, second: Supply)
    requires Rivals(s, a, b, first, second)
    ensures
      var t := Interrupted(Interrupted(s, a, first), b, second);
      && ValidStyle(a.body) && RequestKey(a) in t.intents && Matches(t.intents[RequestKey(a)], a)
      && RequestKey(a) !in t.completions && !StillCurrent(t, a) && Published(t, RequestKey(a))
      && t.usedReferences == s.usedReferences + {first.reference, second.reference}
      && t.usedVersions == s.usedVersions + {first.version, second.version}
  {
    hide ValidStyle, InputOf;
    var t := Interrupted(Interrupted(s, a, first), b, second);
    assert t.puts[|s.puts|].key == RequestKey(a);
  }

  /** From every initial state: a request publishes and crashes, a second one
      replaces its version, and every retry of the first is refused although it was
      published. */
  lemma RefusedRetryHappens(w: World, a: Request, b: Request, first: Supply, second: Supply, given: Supply)
    returns (run: seq<Event>)
    requires Init(w) && Rivals(w.shared, a, b, first, second)
    requires given.reference !in w.shared.usedReferences + {first.reference, second.reference}
    requires given.version !in w.shared.usedVersions + {first.version, second.version}
    ensures Legal(w, run)
    ensures
      var s := Run(w, run).shared;
      && Retry(s, a, given) && Published(s, RequestKey(a)) && RequestKey(a) !in s.completions
      && forall id :: Alone(s, id, Begin(PublishStyle(a)), given) == (s, StyleExists)
  {
    hide Run, Legal, SharedOk, Alone, Interrupted, Untried, ValidStyle, Matches, Published, StillCurrent;
    var x := PutThenCrash(w, 0, a, first);
    var v := Run(w, x);
    SecondUntried(w.shared, a, b, first, second);
    var y := PutThenCrash(v, 1, b, second);
    Then(w, x, y);
    run := x + y;
    SafeRun(w, run);
    var s := Run(w, run).shared;
    FirstSuperseded(w.shared, a, b, first, second);
    forall id ensures Alone(s, id, Begin(PublishStyle(a)), given) == (s, StyleExists) {
      RetryRefused(s, id, a, given);
    }
  }

  // ---- A starved intent --------------------------------------------------

  lemma PathIsPath(p: string)
    requires TryStylePath(p).Some?
    ensures TryStylePath(p).value.path == p
  {
    hide CanonicalStyleKey, StripPrefix, StripSuffix;
  }

  lemma InterruptedIsRecoverable(s: Shared, layout: Layout, r: Request, given: Supply)
    requires Untried(s, r, given)
    ensures Recoverable(Interrupted(s, r, given), layout, RequestKey(r))
  {
    hide ValidStyle, InputOf, TryStylePath;
    PathIsPath(r.location);
  }

  lemma StaysStuck(s: Shared, layout: Layout, stuck: Key, r: Request, given: Supply)
    requires Untried(s, r, given) && Stuck(s, layout, stuck)
    ensures Stuck(Interrupted(s, r, given), layout, stuck)
  {
    hide ValidStyle, InputOf, Locate, IsStylePublication;
  }

  /** An initial journal with a stuck intent starves what is listed after it: a
      publisher puts its object and crashes, its intent is recoverable, and every
      scan whose listing names the stuck intent first fails and leaves the other one
      recoverable as before. */
  lemma StarvedIntent(w: World, layout: Layout, stuck: Key, r: Request, given: Supply) returns (run: seq<Event>)
    requires Init(w) && Stuck(w.shared, layout, stuck) && Untried(w.shared, r, given)
    ensures Legal(w, run) && Recoverable(Run(w, run).shared, layout, RequestKey(r))
    ensures
      var s := Run(w, run).shared;
      forall id, keys: seq<Key>, n, later: Supply
        | Listed(s, keys) && 0 <= n < |keys| && keys[n] == stuck && RequestKey(r) !in keys[..n] ::
          var (t, report) := Scan(s, id, layout, keys, EMPTY_REPORT, later);
          report.None? && Recoverable(t, layout, RequestKey(r))
  {
    hide Run, Legal, SharedOk, Scan, Interrupted, Untried, Recoverable, Stuck, Listed;
    run := PutThenCrash(w, 0, r, given);
    SafeRun(w, run);
    var s := Run(w, run).shared;
    StaysStuck(w.shared, layout, stuck, r, given);
    InterruptedIsRecoverable(w.shared, layout, r, given);
    forall id, keys: seq<Key>, n, later: Supply
      | Listed(s, keys) && 0 <= n < |keys| && keys[n] == stuck && RequestKey(r) !in keys[..n]
      ensures var (t, report) := Scan(s, id, layout, keys, EMPTY_REPORT, later);
              report.None? && Recoverable(t, layout, RequestKey(r))
    {
      ScanStarves(s, id, layout, keys, n, RequestKey(r), later);
    }
  }

  lemma ScanStarves(s: Shared, id: JobId, layout: Layout, keys: seq<Key>, n: nat, key: Key, given: Supply)
    requires SharedOk(s) && Listed(s, keys) && n < |keys| && Stuck(s, layout, keys[n]) && key !in keys[..n]
    requires Recoverable(s, layout, key)
    ensures
      var (t, report) := Scan(s, id, layout, keys, EMPTY_REPORT, given);
      report.None? && Recoverable(t, layout, key)
  {
    hide SharedOk, Scan, Stuck, Reached, Locate, IsStylePublication;
    ScanEffect(s, id, layout, keys, EMPTY_REPORT, given);
    ReachedIsPrefix(s, layout, keys);
    var reached := Reached(s, layout, keys);
    assert |reached| <= n;
    assert reached == keys[..n][..|reached|];
    assert key !in reached;
  }

  /** Such a journal exists: an intent from before locators for the style id `style`,
      reconciled under the flat layout. */
  lemma StarvationHappens(r: Request, given: Supply) returns (w: World, stuck: Key)
    requires ValidStyle(r.body) && r.precondition.MustNotExist? && given.reference != "legacy"
    ensures Init(w) && Stuck(w.shared, Flat, stuck) && Untried(w.shared, r, given)
  {
    hide ValidStyle, TryStylePath, RelativePath;
    var account := if r.account == "a" then "b" else "a";
    stuck := Key(account, KeyDigest("legacy"));
    var i := Intent(stuck.digest, "legacy", Actor(true, "", ""), Publish, Target(account, Style, "style"),
                    InputDigest(""), None);
    ForResourceResolves(account, "style", Flat);
    w := World(Shared(map[stuck := i], map[], map[], map[], [], map[], {"legacy"}, {}), map[]);
  }
}
