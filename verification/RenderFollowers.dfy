/** What becomes of a follower: once woken it looks again, and while the bytes its
    leader rendered stay resident it can only end up served with them.
  */
module RenderFollowers {
  import opened Text
  import opened NamespaceSet
  import opened RenderCache

  /** The reader's grants cover everything the recorded requirement grants; bytes
      recorded without grants are for readers without grants. */
  ghost predicate Covers(readable: Grant, required: Grant) {
    && (required.None? <==> readable.None?)
    && (required.Some? ==> forall x :: Grants(required.value, x) ==> Grants(readable.value, x))
  }

  lemma AuthorizedIsCoverage(required: Grant, readable: Grant)
    ensures Authorized(required, readable) <==> Covers(readable, required)
  {
    hide Allows, Grants, Canonical;
    if required.Some? && readable.Some? {
      AllowsIsCoverage(readable.value, required.value);
    }
  }

  /** Bytes the actor may have are resident. */
  ghost predicate Available(w: World, id: ActorId)
    requires id in w.actors
  {
    var a := w.actors[id];
    a.key in w.store.cache && Covers(a.readable, w.store.cache[a.key].required)
  }

  /** A woken follower looks again: it is back where it arrived, with the same key and
      grants, and nothing else has changed. */
  lemma RecheckLooksAgain(w: World, id: ActorId)
    requires Possible(w, Recheck(id))
    ensures Possible(Apply(w, Recheck(id)), FirstRead(id))
    ensures
      var v := Apply(w, Recheck(id));
      && v.store == w.store && v.actors.Keys == w.actors.Keys
      && v.actors[id].key == w.actors[id].key && v.actors[id].readable == w.actors[id].readable
      && forall j | j in w.actors && j != id :: v.actors[j] == w.actors[j]
  {
  }

  /** Its next read serves it exactly when bytes it may have are resident, and
      otherwise takes it to the lock. */
  lemma NextRead(w: World, id: ActorId)
    requires Possible(w, FirstRead(id))
    ensures
      var v := Apply(w, FirstRead(id));
      && v.store == w.store && id in v.actors
      && if Available(w, id)
         then v.actors[id].phase.Served? && v.actors[id].phase.entry == w.store.cache[w.actors[id].key]
         else Possible(v, LockedLookup(id))
  {
    hide Authorized, Covers;
    if w.actors[id].key in w.store.cache {
      AuthorizedIsCoverage(w.store.cache[w.actors[id].key].required, w.actors[id].readable);
    }
  }

  /** At the lock, in every run: served exactly when bytes it may have are resident;
      otherwise it waits on the channel of the key's flight, or it is the key's only
      leader and the flight is its own. */
  lemma NextLookup(init: World, run: seq<Event>, id: ActorId)
    requires Init(init) && Legal(init, run) && Possible(Run(init, run), LockedLookup(id))
    ensures
      var w, v := Run(init, run), Apply(Run(init, run), LockedLookup(id));
      var a := w.actors[id];
      && id in v.actors && v.store.cache == w.store.cache
      && if Available(w, id) then
           v.actors[id].phase.Served? && v.actors[id].phase.entry == w.store.cache[a.key] && v.store == w.store
         else if Led(w, a.key) then
           a.key in w.store.flights && v.actors[id].phase == Waiting(w.store.flights[a.key]) && v.store == w.store
         else
           && LeadsKey(v, id, a.key) && (forall j :: LeadsKey(v, j, a.key) ==> j == id)
           && a.key in v.store.flights && v.actors[id].phase.channel == v.store.flights[a.key]
  {
    hide Run, Legal, Authorized, Covers, Available;
    var w := Run(init, run);
    var a := w.actors[id];
    SingleFlight(init, run, a.key);
    assert Available(w, id) <==> Get(w.store, a.key, a.readable).Some? by { GetIsAvailable(w, id); }
    if !Available(w, id) && !Led(w, a.key) {
      OnlyLeader(w, id, a.key);
    }
  }

  lemma GetIsAvailable(w: World, id: ActorId)
    requires id in w.actors
    ensures Available(w, id) <==> Get(w.store, w.actors[id].key, w.actors[id].readable).Some?
  {
    hide Authorized, Covers;
    if w.actors[id].key in w.store.cache {
      AuthorizedIsCoverage(w.store.cache[w.actors[id].key].required, w.actors[id].readable);
    }
  }

  lemma OnlyLeader(w: World, id: ActorId, key: RenderKey)
    requires Possible(w, LockedLookup(id)) && !Led(w, key)
    ensures forall j | j != id :: !LeadsKey(Apply(w, LockedLookup(id)), j, key)
  {
    hide Authorized, Get;
  }

  // ---- Over a run --------------------------------------------------------

  predicate Never(run: seq<Event>, e: Event) {
    forall i | 0 <= i < |run| :: run[i] != e
  }

  lemma NeverTail(run: seq<Event>, e: Event)
    requires run != []
    ensures Never(run, e) <==> run[0] != e && Never(run[1..], e)
  {
    if run[0] != e && Never(run[1..], e) {
      forall i | 0 <= i < |run| ensures run[i] != e {
        assert i > 0 ==> run[1..][i - 1] == run[i];
      }
    }
    if Never(run, e) {
      forall i | 0 <= i < |run[1..]| ensures run[1..][i] != e {
        assert run[1..][i] == run[i + 1];
      }
    }
  }

  /** The very entry stays where it is throughout the run. */
  predicate StaysResident(w: World, run: seq<Event>, key: RenderKey, entry: Entry)
    requires Legal(w, run)
    decreases |run|
  {
    && key in w.store.cache && w.store.cache[key] == entry
    && (run == [] || StaysResident(Apply(w, run[0]), run[1..], key, entry))
  }

  /** Where a follower can be while bytes it may have stay resident. */
  predicate Bound(a: Actor, entry: Entry, looks: bool, hasRead: bool) {
    if hasRead then a.phase.Served? && a.phase.entry == entry
    else if looks then a.phase.Reading?
    else a.phase.Waiting?
  }

  lemma BoundKept(w: World, e: Event, id: ActorId, entry: Entry, looks: bool, hasRead: bool)
    requires Possible(w, e) && id in w.actors && e != GiveUp(id) && Bound(w.actors[id], entry, looks, hasRead)
    requires w.actors[id].key in w.store.cache && w.store.cache[w.actors[id].key] == entry
    requires Authorized(entry.required, w.actors[id].readable)
    ensures id in Apply(w, e).actors
    ensures Apply(w, e).actors[id].key == w.actors[id].key && Apply(w, e).actors[id].readable == w.actors[id].readable
    ensures Bound(Apply(w, e).actors[id], entry, looks || e == Recheck(id), hasRead || e == FirstRead(id))
    ensures e == FirstRead(id) ==> looks
  {
    hide Authorized, Canonical, Admits, WithoutStyle;
  }

  lemma {:induction false} BoundThroughout(
    w: World, run: seq<Event>, id: ActorId, entry: Entry, looks: bool, hasRead: bool)
    requires Legal(w, run) && id in w.actors && Never(run, GiveUp(id)) && Bound(w.actors[id], entry, looks, hasRead)
    requires StaysResident(w, run, w.actors[id].key, entry) && Authorized(entry.required, w.actors[id].readable)
    ensures id in Run(w, run).actors
    ensures Bound(Run(w, run).actors[id], entry,
                  looks || !Never(run, Recheck(id)), hasRead || !Never(run, FirstRead(id)))
    decreases |run|
  {
    hide Apply, Possible, Authorized, Bound, Never;
    if run == [] {
      NeverEmpty(id);
    } else {
      var e := run[0];
      NeverTail(run, GiveUp(id));
      BoundKept(w, e, id, entry, looks, hasRead);
      NeverTail(run, Recheck(id));
      NeverTail(run, FirstRead(id));
      BoundThroughout(Apply(w, e), run[1..], id, entry, looks || e == Recheck(id), hasRead || e == FirstRead(id));
    }
  }

  lemma NeverEmpty(id: ActorId)
    ensures Never([], Recheck(id)) && Never([], FirstRead(id))
  {}

  /** Once bytes a follower may have are resident, and as long as they stay, whatever
      else happens: unless it gives up it waits until it rechecks, then it reads, and
      its read serves it those bytes; it never renders and never ends unserved. */
  lemma FollowerIsServed(w: World, run: seq<Event>, id: ActorId)
    requires Legal(w, run) && id in w.actors && w.actors[id].phase.Waiting? && Available(w, id)
    requires StaysResident(w, run, w.actors[id].key, w.store.cache[w.actors[id].key]) && Never(run, GiveUp(id))
    ensures id in Run(w, run).actors
    ensures
      var a := Run(w, run).actors[id];
      && (Never(run, Recheck(id)) ==> a.phase.Waiting?)
      && (!Never(run, Recheck(id)) && Never(run, FirstRead(id)) ==> Possible(Run(w, run), FirstRead(id)))
      && (!Never(run, FirstRead(id)) ==> a.phase.Served? && a.phase.entry == w.store.cache[w.actors[id].key])
  {
    hide Run, Legal, StaysResident, Never, Authorized;
    var entry := w.store.cache[w.actors[id].key];
    assert Authorized(entry.required, w.actors[id].readable) by {
      AuthorizedIsCoverage(entry.required, w.actors[id].readable);
    }
    if Never(run, Recheck(id)) {
      ReadAfterRecheck(w, run, id);
    }
    BoundThroughout(w, run, id, entry, false, false);
  }

  /** A waiting actor reads only after it rechecked. */
  lemma {:induction false} ReadAfterRecheck(w: World, run: seq<Event>, id: ActorId)
    requires Legal(w, run) && id in w.actors && w.actors[id].phase.Waiting? && Never(run, Recheck(id))
    ensures Never(run, FirstRead(id))
    decreases |run|
  {
    hide Authorized, Canonical, Admits, WithoutStyle, Get, Never;
    if run == [] {
      NeverEmpty(id);
    } else {
      NeverTail(run, Recheck(id));
      NeverTail(run, FirstRead(id));
      if run[0] != GiveUp(id) {
        ReadAfterRecheck(Apply(w, run[0]), run[1..], id);
      } else {
        EndedReadsNothing(Apply(w, run[0]), run[1..], id);
      }
    }
  }

  lemma {:induction false} EndedReadsNothing(w: World, run: seq<Event>, id: ActorId)
    requires Legal(w, run) && id in w.actors && w.actors[id].phase.Ended?
    ensures Never(run, FirstRead(id))
    decreases |run|
  {
    hide Authorized, Canonical, Admits, WithoutStyle, Get, Never;
    if run == [] {
      NeverEmpty(id);
    } else {
      NeverTail(run, FirstRead(id));
      EndedReadsNothing(Apply(w, run[0]), run[1..], id);
    }
  }

  /** In every run: when a leader's outcome is admitted and covers its follower, the
      rest of the leader's steps, the follower's recheck and its read are possible, and
      the follower is then served with exactly that output. */
  lemma FollowerGetsLeadersOutput(init: World, run: seq<Event>, owner: ActorId, id: ActorId, output: string)
    requires Init(init) && Legal(init, run) && Possible(Run(init, run), InsertOutcome(owner, output))
    requires id in Run(init, run).actors
    requires
      var w := Run(init, run);
      var a, b := w.actors[owner], w.actors[id];
      && b.phase == Waiting(a.phase.channel) && b.key == a.key && Covers(b.readable, a.readable)
      && Admits(w.store, a.key, a.readable, a.phase.epoch)
    ensures
      var v := Apply(Run(init, run), InsertOutcome(owner, output));
      var rest := [DropLeader(owner), Notify(owner), Recheck(id), FirstRead(id)];
      && Legal(v, rest) && id in Run(v, rest).actors
      && Run(v, rest).actors[id].phase.Served? && Run(v, rest).actors[id].phase.entry.output == output
  {
    hide Run, Legal, Authorized, Covers;
    var w := Run(init, run);
    var v := Apply(w, InsertOutcome(owner, output));
    AuthorizedIsCoverage(w.actors[owner].readable, w.actors[id].readable);
    var x := Apply(Apply(Apply(v, DropLeader(owner)), Notify(owner)), Recheck(id));
    var rest := [DropLeader(owner), Notify(owner), Recheck(id), FirstRead(id)];
    assert rest[3..] == [FirstRead(id)];
    OneStep(x, FirstRead(id));
    ThreeMore(v, rest);
  }
}
