/** The publisher loop of one node over any number of rounds: between two rounds the
    pool and the style catalog move on, and each round publishes what has changed.
    Its snapshots never lose a key, so the deltas rebuild the latest one.
  */
module GossipPublisher {
  import opened Text
  import opened Gossip
  import Catalog = StyleCatalog
  import Fence = CatalogFence

  const REVISION_PREFIX: string := "observed-style-revision-v1-"

  // ---- The announcement ring as gossip pairs -----------------------------

  /** `style_revision_gossip_key`: the slot in at least two digits. */
  function RevisionKey(slot: nat): string {
    REVISION_PREFIX + ((if slot < 10 then "0" else "") + Decimal(slot))
  }

  lemma {:induction false} ZeroAddsNothing(s: string)
    requires AllDigits(s)
    ensures AllDigits("0" + s) && DigitsValue("0" + s) == DigitsValue(s)
  {
    if s == "" {
      assert ("0" + s)[..0] == "" && ("0" + s)[0] == '0';
    } else {
      var n := |s| - 1;
      ZeroAddsNothing(s[..n]);
      assert ("0" + s)[..n + 1] == "0" + s[..n] && ("0" + s)[n + 1] == s[n];
    }
  }

  lemma RevisionKeyInjective(a: nat, b: nat)
    requires RevisionKey(a) == RevisionKey(b)
    ensures a == b
  {
    var n := |REVISION_PREFIX|;
    assert RevisionKey(a)[n..] == (if a < 10 then "0" else "") + Decimal(a);
    assert RevisionKey(b)[n..] == (if b < 10 then "0" else "") + Decimal(b);
    SlotValue(a);
    SlotValue(b);
  }

  lemma SlotValue(n: nat)
    ensures AllDigits((if n < 10 then "0" else "") + Decimal(n))
    ensures DigitsValue((if n < 10 then "0" else "") + Decimal(n)) == n
  {
    DecimalDigits(n);
    ZeroAddsNothing(Decimal(n));
    assert "" + Decimal(n) == Decimal(n);
  }

  lemma RevisionKeysDiffer()
    ensures forall a: nat, b: nat | RevisionKey(a) == RevisionKey(b) :: a == b
  {
    hide RevisionKey;
    forall a: nat, b: nat | RevisionKey(a) == RevisionKey(b) ensures a == b {
      RevisionKeyInjective(a, b);
    }
  }

  /** `revision_gossip_kvs`, for any encoding of an announcement. */
  function RevisionKvs(ring: map<nat, Catalog.Observation>, encode: Catalog.Observation -> string): Kvs {
    RevisionKeysDiffer();
    map slot | slot in ring :: RevisionKey(slot) := encode(ring[slot])
  }

  /** No announcement is taken for worker state or for the admission key. */
  lemma RevisionsAreForeign(ring: map<nat, Catalog.Observation>, encode: Catalog.Observation -> string)
    ensures Foreign(RevisionKvs(ring, encode))
  {
    forall k | k in RevisionKvs(ring, encode) ensures k != ADMISSION_KEY && !(WORKER_PREFIX <= k) {
      assert k[0] == REVISION_PREFIX[0] == 'o' && ADMISSION_KEY[0] == 'r' && WORKER_PREFIX[0] == 'w';
    }
  }

  /** A slot of the ring is overwritten and never emptied, whatever the catalog sees. */
  lemma {:induction false} RingGrows(n: Fence.Node, run: seq<Fence.NodeEvent>)
    requires Fence.Legal(n, run)
    ensures n.catalog.announcements.Keys <= Fence.Run(n, run).catalog.announcements.Keys
    decreases |run|
  {
    if run != [] {
      RingGrowsOnce(n, run[0]);
      RingGrows(Fence.Apply(n, run[0]), run[1..]);
    }
  }

  lemma RingGrowsOnce(n: Fence.Node, e: Fence.NodeEvent)
    requires Fence.Possible(n, e)
    ensures n.catalog.announcements.Keys <= Fence.Apply(n, e).catalog.announcements.Keys
  {
    hide Catalog.Observe, Catalog.ClusterAfter, Catalog.Adopts, Catalog.Superseded, Catalog.FetchIsCurrent,
         Catalog.StoresHint, Catalog.NextGeneration;
  }

  // ---- Rounds ------------------------------------------------------------

  /** What the catalog went through since the last round, then what the round reads
      of the pool and of the admission check. */
  datatype Round = Round(events: seq<Fence.NodeEvent>, slots: seq<Slot>, accepting: bool)

  /** The pool's workers are spawned once and keep their slots. */
  predicate Rounds(n: Fence.Node, workers: nat, rounds: seq<Round>)
    decreases |rounds|
  {
    rounds == [] ||
    (&& Fence.Legal(n, rounds[0].events) && |rounds[0].slots| == workers
     && Rounds(Fence.Run(n, rounds[0].events), workers, rounds[1..]))
  }

  function After(n: Fence.Node, workers: nat, rounds: seq<Round>): Fence.Node
    requires Rounds(n, workers, rounds)
    decreases |rounds|
  {
    if rounds == [] then n else After(Fence.Run(n, rounds[0].events), workers, rounds[1..])
  }

  function Published(n: Fence.Node, r: Round, encode: Catalog.Observation -> string): Kvs {
    Snapshot(r.slots, RevisionKvs(n.catalog.announcements, encode), r.accepting)
  }

  function Snapshots(
    n: Fence.Node, workers: nat, rounds: seq<Round>, encode: Catalog.Observation -> string): (r: seq<Kvs>)
    requires Rounds(n, workers, rounds)
    ensures |r| == |rounds|
    decreases |rounds|
  {
    if rounds == [] then []
    else
      var m := Fence.Run(n, rounds[0].events);
      [Published(m, rounds[0], encode)] + Snapshots(m, workers, rounds[1..], encode)
  }

  lemma {:induction false} LastPublished(
    n: Fence.Node, workers: nat, rounds: seq<Round>, encode: Catalog.Observation -> string)
    requires Rounds(n, workers, rounds) && rounds != []
    ensures LastOf(Snapshots(n, workers, rounds, encode)) ==
            Published(After(n, workers, rounds), rounds[|rounds| - 1], encode)
    ensures n.catalog.announcements.Keys <= After(n, workers, rounds).catalog.announcements.Keys
    ensures |rounds[|rounds| - 1].slots| == workers
    decreases |rounds|
  {
    hide Published;
    var m := Fence.Run(n, rounds[0].events);
    RingGrows(n, rounds[0].events);
    if |rounds| > 1 {
      LastPublished(m, workers, rounds[1..], encode);
    }
  }

  lemma SlotKeys(a: seq<Slot>, b: seq<Slot>, k: string)
    requires |a| == |b| <= U32 && k in EncodeSlots(a)
    ensures k in EncodeSlots(b)
  {
    hide EncodeSlots, WorkerKey, FieldValue;
    var id, f := EntryOrigin(a, k);
    EntryPresent(b, id, f);
  }

  lemma SnapshotKeys(m: Fence.Node, r: Round, n: Fence.Node, s: Round, encode: Catalog.Observation -> string, k: string)
    requires |r.slots| == |s.slots| <= U32 && m.catalog.announcements.Keys <= n.catalog.announcements.Keys
    requires k in Published(m, r, encode)
    ensures k in Published(n, s, encode)
  {
    hide EncodeSlots, RevisionKey;
    if k in RevisionKvs(m.catalog.announcements, encode) {
      var slot :| slot in m.catalog.announcements && k == RevisionKey(slot);
      assert slot in n.catalog.announcements;
    } else if k != ADMISSION_KEY {
      SlotKeys(r.slots, s.slots, k);
    }
  }

  /** No snapshot of a run holds a key that the latest one lacks. */
  lemma {:induction false} KeysOnlyGrow(
    n: Fence.Node, workers: nat, rounds: seq<Round>, encode: Catalog.Observation -> string, i: nat, k: string)
    requires Rounds(n, workers, rounds) && workers <= U32
    requires i < |rounds| && k in Snapshots(n, workers, rounds, encode)[i]
    ensures k in LastOf(Snapshots(n, workers, rounds, encode))
    decreases |rounds|
  {
    hide Published;
    var m := Fence.Run(n, rounds[0].events);
    if i > 0 {
      KeysOnlyGrow(m, workers, rounds[1..], encode, i - 1, k);
    } else if |rounds| > 1 {
      LastPublished(m, workers, rounds[1..], encode);
      SnapshotKeys(m, rounds[0], After(m, workers, rounds[1..]), rounds[|rounds| - 1], encode, k);
    }
  }

  /** Whatever the pool and the catalog did between the rounds, a peer that has
      applied every delta holds exactly the latest snapshot. */
  lemma DeltasRebuildLatest(
    n: Fence.Node, workers: nat, rounds: seq<Round>, encode: Catalog.Observation -> string)
    requires Rounds(n, workers, rounds) && workers <= U32
    ensures Replay(Snapshots(n, workers, rounds, encode)) == LastOf(Snapshots(n, workers, rounds, encode))
  {
    hide Snapshots, LastOf, Replay;
    var snapshots := Snapshots(n, workers, rounds, encode);
    forall k | EverPublished(snapshots, k) ensures k in LastOf(snapshots) {
      var i :| 0 <= i < |snapshots| && k in snapshots[i];
      KeysOnlyGrow(n, workers, rounds, encode, i, k);
    }
    ReplayIsLatest(snapshots);
  }

  /** End to end: a peer that has applied every delta, and holds the pairs in whatever
      order, decodes exactly the workers and the admission state of the last round. */
  lemma DeltasDecodeToLatest(n: Fence.Node, workers: nat, rounds: seq<Round>,
                             encode: Catalog.Observation -> string, kvs: seq<(string, string)>)
    requires Rounds(n, workers, rounds) && rounds != [] && AllPrintable(rounds[|rounds| - 1].slots)
    requires Received(kvs, Replay(Snapshots(n, workers, rounds, encode)))
    requires forall k | k in Replay(Snapshots(n, workers, rounds, encode)) :: Contains(kvs, k)
    ensures Decoded(kvs) == NodeView(rounds[|rounds| - 1].accepting, Views(rounds[|rounds| - 1].slots))
  {
    hide Snapshots, LastOf, Replay, Decoded, Received, Contains, Snapshot, RevisionKvs, Views;
    var last := rounds[|rounds| - 1];
    LastPublished(n, workers, rounds, encode);
    DeltasRebuildLatest(n, workers, rounds, encode);
    var ring := After(n, workers, rounds).catalog.announcements;
    RevisionsAreForeign(ring, encode);
    FullSnapshotRoundTrip(kvs, last.slots, RevisionKvs(ring, encode), last.accepting);
  }
}
