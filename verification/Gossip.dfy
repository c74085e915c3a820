/** Worker state as gossip key/value pairs: what a node publishes, what a peer
    decodes from any part of it that has arrived, and the delta publisher between.
  */
module Gossip {
  import opened Text
  import opened Profiles

  const U32: nat := 0x1_0000_0000
  const MAX_VERSION: nat := U64 - 1
  const MAX_DEPTH: nat := U64 - 1
  const WORKER_PREFIX: string := "worker."
  const ADMISSION_KEY: string := "renderer.accepting"
  const TRUE_VALUE: string := "true"
  const FALSE_VALUE: string := "false"
  const STATIC_VALUE: string := "static"
  const TILE_VALUE: string := "tile"
  const X1_VALUE: string := "1x"
  const X2_VALUE: string := "2x"

  type Kvs = map<string, string>

  datatype WorkerView = WorkerView(id: nat, loaded: Option<WorkerProfile>, depth: nat)

  datatype NodeView = NodeView(accepts: bool, workers: seq<WorkerView>)

  // ---- Values ------------------------------------------------------------

  function RevisionValue(r: StyleRevision): string {
    r.id + ['@'] + Decimal(r.version)
  }

  function ParseRevision(s: string): Option<StyleRevision> {
    match RSplitOnce(s, '@')
    case None => None
    case Some((id, v)) =>
      if id == "" then None
      else match ParseUnsigned(v, MAX_VERSION) case None => None case Some(n) => Some(StyleRevision(id, n))
  }

  /** A revision survives printing and parsing exactly when its id is not empty;
      ids may contain `@`. */
  lemma RevisionRoundTrip(r: StyleRevision)
    requires r.version <= MAX_VERSION
    ensures ParseRevision(RevisionValue(r)) == Some(r) <==> r.id != ""
    ensures RevisionValue(r) != ""
  {
    NotInDecimal(r.version, '@');
    RSplitOnceAtLast(r.id, '@', Decimal(r.version));
    DecimalRoundTrip(r.version, MAX_VERSION);
  }

  /** Different revisions print differently, whatever their ids contain. */
  lemma RevisionValueInjective(a: StyleRevision, b: StyleRevision)
    requires RevisionValue(a) == RevisionValue(b)
    ensures a == b
  {
    NotInDecimal(a.version, '@');
    NotInDecimal(b.version, '@');
    RSplitOnceAtLast(a.id, '@', Decimal(a.version));
    RSplitOnceAtLast(b.id, '@', Decimal(b.version));
    DecimalDigits(a.version);
    DecimalDigits(b.version);
  }

  function ModeValue(m: RenderMode): string {
    match m case Static => STATIC_VALUE case Tile => TILE_VALUE
  }

  function ParseMode(s: string): Option<RenderMode> {
    if s == STATIC_VALUE then Some(Static) else if s == TILE_VALUE then Some(Tile) else None
  }

  function ScaleValue(s: Scale): string {
    match s case X1 => X1_VALUE case X2 => X2_VALUE
  }

  function ParseScale(s: string): Option<Scale> {
    if s == X1_VALUE then Some(X1) else if s == X2_VALUE then Some(X2) else None
  }

  lemma ShapeRoundTrip(m: RenderMode, s: Scale)
    ensures ParseMode(ModeValue(m)) == Some(m) && ModeValue(m) != ""
    ensures ParseScale(ScaleValue(s)) == Some(s) && ScaleValue(s) != ""
  {
    assert STATIC_VALUE[0] == 's' && TILE_VALUE[0] == 't' && X1_VALUE[0] == '1' && X2_VALUE[0] == '2';
  }

  // ---- Keys --------------------------------------------------------------

  datatype Field = StyleField | ModeField | ScaleField | QueueField

  function FieldName(f: Field): string {
    match f
    case StyleField => "style"
    case ModeField => "mode"
    case ScaleField => "scale"
    case QueueField => "queue"
  }

  function ParseField(s: string): Option<Field> {
    if s == FieldName(StyleField) then Some(StyleField)
    else if s == FieldName(ModeField) then Some(ModeField)
    else if s == FieldName(ScaleField) then Some(ScaleField)
    else if s == FieldName(QueueField) then Some(QueueField)
    else None
  }

  lemma FieldRoundTrip(f: Field)
    ensures ParseField(FieldName(f)) == Some(f)
  {
    assert FieldName(StyleField)[1] == 't' && FieldName(ScaleField)[1] == 'c';
    assert FieldName(ModeField)[0] == 'm' && FieldName(QueueField)[0] == 'q' && FieldName(ScaleField)[0] == 's';
  }

  function WorkerKey(id: nat, f: Field): string {
    WORKER_PREFIX + (Decimal(id) + ['.'] + FieldName(f))
  }

  function StripPrefix(s: string, prefix: string): Option<string> {
    if prefix <= s then Some(s[|prefix|..]) else None
  }

  /** The worker id and the field text of a worker key; ids are 32-bit. */
  function ParseKey(key: string): Option<(nat, string)> {
    match StripPrefix(key, WORKER_PREFIX)
    case None => None
    case Some(rest) =>
      match SplitOnce(rest, '.')
      case None => None
      case Some((wid, field)) =>
        match ParseUnsigned(wid, U32 - 1) case None => None case Some(id) => Some((id, field))
  }

  lemma StripConcat(prefix: string, rest: string)
    ensures StripPrefix(prefix + rest, prefix) == Some(rest)
  {
  }

  lemma KeyRoundTrip(id: nat, f: Field)
    requires id < U32
    ensures ParseKey(WorkerKey(id, f)) == Some((id, FieldName(f))) && WorkerKey(id, f) != ADMISSION_KEY
  {
    hide FieldName;
    var rest := Decimal(id) + ['.'] + FieldName(f);
    StripConcat(WORKER_PREFIX, rest);
    NotInDecimal(id, '.');
    SplitOnceAtFirst(Decimal(id), '.', FieldName(f));
    DecimalRoundTrip(id, U32 - 1);
    assert WorkerKey(id, f)[0] == WORKER_PREFIX[0] == 'w' && ADMISSION_KEY[0] == 'r';
  }

  lemma KeyInjective(i: nat, f: Field, j: nat, g: Field)
    requires i < U32 && j < U32 && WorkerKey(i, f) == WorkerKey(j, g)
    ensures i == j && f == g
  {
    hide WorkerKey, FieldName, ParseField;
    KeyRoundTrip(i, f);
    KeyRoundTrip(j, g);
    FieldRoundTrip(f);
    FieldRoundTrip(g);
  }

  // ---- Decoding ----------------------------------------------------------

  datatype Builder = Builder(
    revision: Option<Option<StyleRevision>>, mode: Option<RenderMode>, scale: Option<Scale>, queue: Option<nat>)

  const EMPTY_BUILDER: Builder := Builder(None, None, None, None)

  /** What one value does to a worker under construction. A malformed revision is
      ignored; a malformed mode, scale or depth forgets the earlier one. */
  function Absorb(b: Builder, f: Field, value: string): Builder {
    match f
    case StyleField =>
      if value == "" then b.(revision := Some(None))
      else
        var parsed := ParseRevision(value);
        if parsed.Some? then b.(revision := Some(parsed)) else b
    case ModeField => if value == "" then b else b.(mode := ParseMode(value))
    case ScaleField => if value == "" then b else b.(scale := ParseScale(value))
    case QueueField => b.(queue := ParseUnsigned(value, MAX_DEPTH))
  }

  /** A worker is visible once all it needs has arrived. */
  function ViewOf(id: nat, b: Builder): Option<WorkerView> {
    if b.revision.None? || b.queue.None? then None
    else if b.revision.value.None? then Some(WorkerView(id, None, b.queue.value))
    else if b.mode.None? || b.scale.None? then None
    else Some(WorkerView(id, Some(WorkerProfile(b.revision.value.value, b.mode.value, b.scale.value)), b.queue.value))
  }

  datatype Decoding = Decoding(accepts: bool, builders: map<nat, Builder>)

  function BuilderAt(builders: map<nat, Builder>, id: nat): Builder {
    if id in builders then builders[id] else EMPTY_BUILDER
  }

  function DecodeStep(d: Decoding, key: string, value: string): Decoding {
    if key == ADMISSION_KEY then d.(accepts := value == TRUE_VALUE)
    else
      match ParseKey(key)
      case None => d
      case Some((id, field)) =>
        var b := BuilderAt(d.builders, id);
        match ParseField(field)
        case None => d.(builders := d.builders[id := b])
        case Some(f) => d.(builders := d.builders[id := Absorb(b, f, value)])
  }

  function Decode(kvs: seq<(string, string)>): Decoding {
    if kvs == [] then Decoding(false, map[])
    else
      var last := kvs[|kvs| - 1];
      DecodeStep(Decode(kvs[..|kvs| - 1]), last.0, last.1)
  }

  /** The visible workers below `n`, by ascending id. */
  function Collect(builders: map<nat, Builder>, n: nat): seq<WorkerView> {
    if n == 0 then []
    else
      var view := ViewOf(n - 1, BuilderAt(builders, n - 1));
      Collect(builders, n - 1) + (if view.Some? then [view.value] else [])
  }

  function Decoded(kvs: seq<(string, string)>): NodeView {
    NodeView(Decode(kvs).accepts, Collect(Decode(kvs).builders, U32))
  }

  /** `from_kvs`: one pass over the pairs, in whatever order they come. */
  method FromKvs(kvs: seq<(string, string)>) returns (view: NodeView)
    ensures view == Decoded(kvs)
  {
    hide ParseKey, ParseField, Absorb, Collect;
    var accepts, builders := false, map[];
    for n := 0 to |kvs|
      invariant Decoding(accepts, builders) == Decode(kvs[..n])
    {
      assert kvs[..n + 1][..n] == kvs[..n];
      var (key, value) := kvs[n];
      if key == ADMISSION_KEY {
        accepts := value == TRUE_VALUE;
        continue;
      }
      var parsed := ParseKey(key);
      if parsed.None? {
        continue;
      }
      var (id, field) := parsed.value;
      var entry := BuilderAt(builders, id);
      var f := ParseField(field);
      if f.Some? {
        entry := Absorb(entry, f.value, value);
      }
      builders := builders[id := entry];
    }
    assert kvs[..|kvs|] == kvs;
    view := NodeView(accepts, Collect(builders, U32));
  }

  // ---- Encoding ----------------------------------------------------------

  /** One worker slot of the publishing pool; its id is its index. */
  datatype Slot = Slot(loaded: Option<WorkerProfile>, depth: nat)

  /** What the types of the code bound, and the one thing they do not: an empty
      style id has no parseable revision. */
  predicate Printable(slot: Slot) {
    && slot.depth <= MAX_DEPTH
    && (slot.loaded.Some? ==> slot.loaded.value.style.version <= MAX_VERSION && slot.loaded.value.style.id != "")
  }

  function FieldValue(slot: Slot, f: Field): string {
    match f
    case StyleField => if slot.loaded.Some? then RevisionValue(slot.loaded.value.style) else ""
    case ModeField => if slot.loaded.Some? then ModeValue(slot.loaded.value.mode) else ""
    case ScaleField => if slot.loaded.Some? then ScaleValue(slot.loaded.value.scale) else ""
    case QueueField => Decimal(slot.depth)
  }

  function EncodeWorker(out: Kvs, id: nat, slot: Slot): Kvs {
    out[WorkerKey(id, StyleField) := FieldValue(slot, StyleField)]
       [WorkerKey(id, ModeField) := FieldValue(slot, ModeField)]
       [WorkerKey(id, ScaleField) := FieldValue(slot, ScaleField)]
       [WorkerKey(id, QueueField) := FieldValue(slot, QueueField)]
  }

  function EncodeSlots(slots: seq<Slot>): Kvs {
    if slots == [] then map[]
    else EncodeWorker(EncodeSlots(slots[..|slots| - 1]), |slots| - 1, slots[|slots| - 1])
  }

  /** `snapshot_kvs`: the loop over the pool's slots. */
  method SnapshotKvs(slots: seq<Slot>) returns (out: Kvs)
    ensures out == EncodeSlots(slots)
  {
    hide WorkerKey, FieldValue;
    out := map[];
    for n := 0 to |slots|
      invariant out == EncodeSlots(slots[..n])
    {
      assert slots[..n + 1][..n] == slots[..n];
      out := out[WorkerKey(n, StyleField) := FieldValue(slots[n], StyleField)];
      out := out[WorkerKey(n, ModeField) := FieldValue(slots[n], ModeField)];
      out := out[WorkerKey(n, ScaleField) := FieldValue(slots[n], ScaleField)];
      out := out[WorkerKey(n, QueueField) := FieldValue(slots[n], QueueField)];
    }
    assert slots[..|slots|] == slots;
  }

  /** Keys other publishers share the node's namespace with. */
  predicate Foreign(extra: Kvs) {
    forall k | k in extra :: k != ADMISSION_KEY && !(WORKER_PREFIX <= k)
  }

  /** A full published snapshot. */
  function Snapshot(slots: seq<Slot>, extra: Kvs, accepting: bool): Kvs {
    (EncodeSlots(slots) + extra)[ADMISSION_KEY := if accepting then TRUE_VALUE else FALSE_VALUE]
  }

  predicate IsWorkerEntry(slots: seq<Slot>, id: nat, f: Field, k: string, v: string) {
    id < |slots| && k == WorkerKey(id, f) && v == FieldValue(slots[id], f)
  }

  lemma EncodedBy(out: Kvs, id: nat, slot: Slot, k: string) returns (f: Field)
    requires k in EncodeWorker(out, id, slot)
    ensures (k in out && EncodeWorker(out, id, slot)[k] == out[k]) ||
            (k == WorkerKey(id, f) && EncodeWorker(out, id, slot)[k] == FieldValue(slot, f))
  {
    hide WorkerKey, FieldValue;
    f := if k == WorkerKey(id, QueueField) then QueueField
         else if k == WorkerKey(id, ScaleField) then ScaleField
         else if k == WorkerKey(id, ModeField) then ModeField
         else StyleField;
  }

  /** Every encoded pair is some slot's field. */
  lemma {:induction false} EntryOrigin(slots: seq<Slot>, k: string) returns (id: nat, f: Field)
    requires k in EncodeSlots(slots)
    ensures IsWorkerEntry(slots, id, f, k, EncodeSlots(slots)[k])
  {
    hide WorkerKey, FieldValue, EncodeWorker;
    var n := |slots| - 1;
    var before := EncodeSlots(slots[..n]);
    f := EncodedBy(before, n, slots[n], k);
    id := n;
    if k in before && EncodeSlots(slots)[k] == before[k] {
      id, f := EntryOrigin(slots[..n], k);
    }
  }

  lemma EncodeSets(out: Kvs, id: nat, slot: Slot, f: Field)
    requires id < U32
    ensures WorkerKey(id, f) in EncodeWorker(out, id, slot)
    ensures EncodeWorker(out, id, slot)[WorkerKey(id, f)] == FieldValue(slot, f)
  {
    hide WorkerKey, FieldValue;
    KeysDiffer(id, StyleField, ModeField);
    KeysDiffer(id, StyleField, ScaleField);
    KeysDiffer(id, StyleField, QueueField);
    KeysDiffer(id, ModeField, ScaleField);
    KeysDiffer(id, ModeField, QueueField);
    KeysDiffer(id, ScaleField, QueueField);
  }

  lemma KeysDiffer(id: nat, f: Field, g: Field)
    requires id < U32 && f != g
    ensures WorkerKey(id, f) != WorkerKey(id, g)
  {
    hide WorkerKey;
    if WorkerKey(id, f) == WorkerKey(id, g) {
      KeyInjective(id, f, id, g);
    }
  }

  lemma EncodeLeaves(out: Kvs, id: nat, slot: Slot, j: nat, f: Field)
    requires id < U32 && j < U32 && id != j && WorkerKey(j, f) in out
    ensures WorkerKey(j, f) in EncodeWorker(out, id, slot)
    ensures EncodeWorker(out, id, slot)[WorkerKey(j, f)] == out[WorkerKey(j, f)]
  {
    hide WorkerKey, FieldValue;
    forall g ensures WorkerKey(j, f) != WorkerKey(id, g) {
      if WorkerKey(j, f) == WorkerKey(id, g) {
        KeyInjective(j, f, id, g);
      }
    }
  }

  /** Every slot's every field is encoded. */
  lemma {:induction false} EntryPresent(slots: seq<Slot>, id: nat, f: Field)
    requires id < |slots| <= U32
    ensures WorkerKey(id, f) in EncodeSlots(slots) && EncodeSlots(slots)[WorkerKey(id, f)] == FieldValue(slots[id], f)
  {
    hide WorkerKey, FieldValue, EncodeWorker;
    var n := |slots| - 1;
    if id == n {
      EncodeSets(EncodeSlots(slots[..n]), n, slots[n], f);
    } else {
      EntryPresent(slots[..n], id, f);
      EncodeLeaves(EncodeSlots(slots[..n]), n, slots[n], id, f);
    }
  }

  // ---- Round trip --------------------------------------------------------

  /** `b` knows nothing about the slot that is not so. */
  predicate Within(b: Builder, slot: Slot) {
    && (b.revision.Some? ==> b.revision.value == if slot.loaded.Some? then Some(slot.loaded.value.style) else None)
    && (b.mode.Some? ==> slot.loaded.Some? && b.mode.value == slot.loaded.value.mode)
    && (b.scale.Some? ==> slot.loaded.Some? && b.scale.value == slot.loaded.value.scale)
    && (b.queue.Some? ==> b.queue.value == slot.depth)
  }

  /** Field `f` of the slot has arrived. */
  predicate Has(b: Builder, slot: Slot, f: Field) {
    match f
    case StyleField => b.revision.Some?
    case ModeField => slot.loaded.Some? ==> b.mode.Some?
    case ScaleField => slot.loaded.Some? ==> b.scale.Some?
    case QueueField => b.queue.Some?
  }

  lemma AbsorbKeeps(b: Builder, slot: Slot, f: Field)
    requires Within(b, slot) && Printable(slot)
    ensures Within(Absorb(b, f, FieldValue(slot, f)), slot) && Has(Absorb(b, f, FieldValue(slot, f)), slot, f)
    ensures forall g | Has(b, slot, g) :: Has(Absorb(b, f, FieldValue(slot, f)), slot, g)
  {
    hide RevisionValue, ParseRevision, ModeValue, ParseMode, ScaleValue, ParseScale, ParseUnsigned, Decimal;
    DecimalRoundTrip(slot.depth, MAX_DEPTH);
    if slot.loaded.Some? {
      RevisionRoundTrip(slot.loaded.value.style);
      ShapeRoundTrip(slot.loaded.value.mode, slot.loaded.value.scale);
    }
  }

  lemma FullViewOf(id: nat, b: Builder, slot: Slot)
    requires Within(b, slot)
    ensures ViewOf(id, b).Some? ==> ViewOf(id, b).value == WorkerView(id, slot.loaded, slot.depth)
    ensures (forall f :: Has(b, slot, f)) ==> ViewOf(id, b).Some?
  {
    assert (forall f :: Has(b, slot, f)) ==>
      Has(b, slot, StyleField) && Has(b, slot, ModeField) && Has(b, slot, ScaleField) && Has(b, slot, QueueField);
  }

  /** The pairs are some of the snapshot's, in any order, possibly repeated. */
  predicate Received(kvs: seq<(string, string)>, snapshot: Kvs) {
    forall i | 0 <= i < |kvs| :: kvs[i].0 in snapshot && snapshot[kvs[i].0] == kvs[i].1
  }

  predicate Consistent(d: Decoding, slots: seq<Slot>, accepting: bool) {
    && (d.accepts ==> accepting)
    && forall id | id in d.builders :: id < |slots| && Within(d.builders[id], slots[id])
  }

  predicate AllPrintable(slots: seq<Slot>) {
    |slots| <= U32 && forall i | 0 <= i < |slots| :: Printable(slots[i])
  }

  lemma ForeignIgnored(d: Decoding, k: string, v: string)
    requires k != ADMISSION_KEY && !(WORKER_PREFIX <= k)
    ensures DecodeStep(d, k, v) == d
  {
  }

  lemma WorkerEntryStep(d: Decoding, slots: seq<Slot>, id: nat, f: Field, k: string, v: string)
    requires id < U32 && IsWorkerEntry(slots, id, f, k, v)
    ensures DecodeStep(d, k, v) ==
            d.(builders := d.builders[id := Absorb(BuilderAt(d.builders, id), f, FieldValue(slots[id], f))])
  {
    hide WorkerKey, FieldValue, Absorb, ParseKey, ParseField;
    KeyRoundTrip(id, f);
    FieldRoundTrip(f);
  }

  lemma TruthValues()
    ensures TRUE_VALUE != FALSE_VALUE
  {
    assert TRUE_VALUE[0] == 't' && FALSE_VALUE[0] == 'f';
  }

  /** The step of every received pair, and what it leaves in place. */
  lemma ReceivedStep(d: Decoding, slots: seq<Slot>, extra: Kvs, accepting: bool, k: string, v: string)
    requires AllPrintable(slots) && Foreign(extra) && Consistent(d, slots, accepting)
    requires k in Snapshot(slots, extra, accepting) && Snapshot(slots, extra, accepting)[k] == v
    ensures Consistent(DecodeStep(d, k, v), slots, accepting)
    ensures k == ADMISSION_KEY ==> DecodeStep(d, k, v) == d.(accepts := accepting)
    ensures k != ADMISSION_KEY ==> DecodeStep(d, k, v).accepts == d.accepts
  {
    hide DecodeStep, EncodeSlots, FieldValue, WorkerKey, Absorb, Printable, Within;
    TruthValues();
    if k == ADMISSION_KEY {
      AdmissionStep(d, v);
    } else if k in extra {
      ForeignIgnored(d, k, v);
    } else {
      var id, f := EntryOrigin(slots, k);
      WorkerEntryStep(d, slots, id, f, k, v);
      EmptyWithin(slots[id]);
      AbsorbKeeps(BuilderAt(d.builders, id), slots[id], f);
    }
  }

  lemma AdmissionStep(d: Decoding, v: string)
    ensures DecodeStep(d, ADMISSION_KEY, v) == d.(accepts := v == TRUE_VALUE)
  {
  }

  lemma EmptyWithin(slot: Slot)
    ensures Within(EMPTY_BUILDER, slot)
  {
  }

  lemma {:induction false} DecodeConsistent(kvs: seq<(string, string)>, slots: seq<Slot>, extra: Kvs, accepting: bool)
    requires AllPrintable(slots) && Foreign(extra) && Received(kvs, Snapshot(slots, extra, accepting))
    ensures Consistent(Decode(kvs), slots, accepting)
  {
    hide DecodeStep, Snapshot, AllPrintable, Within;
    if kvs != [] {
      var n := |kvs| - 1;
      DecodeConsistent(kvs[..n], slots, extra, accepting);
      ReceivedStep(Decode(kvs[..n]), slots, extra, accepting, kvs[n].0, kvs[n].1);
    }
  }

  /** Every visible worker is a worker of the snapshot, as it was published. */
  lemma {:induction false} CollectSound(builders: map<nat, Builder>, slots: seq<Slot>, n: nat)
    requires forall id | id in builders :: id < |slots| && Within(builders[id], slots[id])
    ensures forall i | 0 <= i < |Collect(builders, n)| ::
              var v := Collect(builders, n)[i];
              v.id < n && v.id < |slots| && v == WorkerView(v.id, slots[v.id].loaded, slots[v.id].depth)
    ensures forall i, j | 0 <= i < j < |Collect(builders, n)| :: Collect(builders, n)[i].id < Collect(builders, n)[j].id
  {
    hide ViewOf, Within;
    if n > 0 {
      CollectSound(builders, slots, n - 1);
      if n - 1 in builders {
        FullViewOf(n - 1, builders[n - 1], slots[n - 1]);
      } else {
        NothingYet(n - 1);
      }
    }
  }

  lemma NothingYet(id: nat)
    ensures ViewOf(id, EMPTY_BUILDER) == None
  {
  }

  /** Whatever part of one snapshot has arrived, in whatever order, a peer sees only
      workers of that snapshot, each at most once and exactly as published, and
      never takes a node for accepting that is not. */
  lemma PartialSnapshotIsSound(kvs: seq<(string, string)>, slots: seq<Slot>, extra: Kvs, accepting: bool)
    requires AllPrintable(slots) && Foreign(extra) && Received(kvs, Snapshot(slots, extra, accepting))
    ensures Decoded(kvs).accepts ==> accepting
    ensures forall i | 0 <= i < |Decoded(kvs).workers| ::
              var v := Decoded(kvs).workers[i];
              v.id < |slots| && v == WorkerView(v.id, slots[v.id].loaded, slots[v.id].depth)
    ensures forall i, j | 0 <= i < j < |Decoded(kvs).workers| :: Decoded(kvs).workers[i].id < Decoded(kvs).workers[j].id
  {
    hide Decode, Snapshot, Collect, AllPrintable, Received, Within;
    DecodeConsistent(kvs, slots, extra, accepting);
    CollectSound(Decode(kvs).builders, slots, U32);
  }

  // ---- A complete snapshot -----------------------------------------------

  predicate Contains(kvs: seq<(string, string)>, k: string) {
    exists i :: 0 <= i < |kvs| && kvs[i].0 == k
  }

  /** Without the admission key a node is not taken for accepting; with it, it is
      exactly when it says so. */
  lemma {:induction false} AdmissionFailsClosed(
    kvs: seq<(string, string)>, slots: seq<Slot>, extra: Kvs, accepting: bool)
    requires AllPrintable(slots) && Foreign(extra) && Received(kvs, Snapshot(slots, extra, accepting))
    ensures Decode(kvs).accepts == (accepting && Contains(kvs, ADMISSION_KEY))
  {
    hide DecodeStep, Snapshot, AllPrintable, Within;
    if kvs != [] {
      var n := |kvs| - 1;
      AdmissionFailsClosed(kvs[..n], slots, extra, accepting);
      DecodeConsistent(kvs[..n], slots, extra, accepting);
      ReceivedStep(Decode(kvs[..n]), slots, extra, accepting, kvs[n].0, kvs[n].1);
      ContainsLast(kvs, ADMISSION_KEY);
    }
  }

  lemma ContainsLast(kvs: seq<(string, string)>, k: string)
    requires kvs != []
    ensures Contains(kvs, k) <==> kvs[|kvs| - 1].0 == k || Contains(kvs[..|kvs| - 1], k)
  {
    var n := |kvs| - 1;
    if Contains(kvs, k) && kvs[n].0 != k {
      var i :| 0 <= i < |kvs| && kvs[i].0 == k;
      assert kvs[..n][i].0 == k;
    }
    if i :| 0 <= i < n && kvs[..n][i].0 == k {
      assert kvs[i].0 == k;
    }
  }

  /** A fresh worker needs no mode and no scale. */
  predicate Needs(slot: Slot, f: Field) {
    slot.loaded.Some? || f.StyleField? || f.QueueField?
  }

  lemma AbsorbTouchesOne(b: Builder, slot: Slot, f: Field, g: Field)
    requires Within(b, slot) && Printable(slot)
    ensures Has(Absorb(b, f, FieldValue(slot, f)), slot, g) <==> f == g || Has(b, slot, g)
  {
    hide ParseRevision, ParseMode, ParseScale, ParseUnsigned, FieldValue;
    AbsorbKeeps(b, slot, f);
  }

  lemma WorkerKeyIsPrefixed(id: nat, f: Field)
    ensures WORKER_PREFIX <= WorkerKey(id, f)
  {
  }

  lemma ArrivalStep(d: Decoding, slots: seq<Slot>, extra: Kvs, accepting: bool, k: string, v: string, id: nat, f: Field)
    requires AllPrintable(slots) && Foreign(extra) && Consistent(d, slots, accepting)
             && id < |slots| && Needs(slots[id], f)
    requires k in Snapshot(slots, extra, accepting) && Snapshot(slots, extra, accepting)[k] == v
    ensures Has(BuilderAt(DecodeStep(d, k, v).builders, id), slots[id], f) <==>
              k == WorkerKey(id, f) || Has(BuilderAt(d.builders, id), slots[id], f)
  {
    hide DecodeStep, EncodeSlots, FieldValue, WorkerKey, Absorb, Printable, Within, Has;
    KeyRoundTrip(id, f);
    WorkerKeyIsPrefixed(id, f);
    if k == ADMISSION_KEY {
      AdmissionStep(d, v);
    } else if k in extra {
      ForeignIgnored(d, k, v);
    } else {
      var j, g := EntryOrigin(slots, k);
      WorkerEntryStep(d, slots, j, g, k, v);
      EmptyWithin(slots[j]);
      AbsorbTouchesOne(BuilderAt(d.builders, j), slots[j], g, f);
      if k == WorkerKey(id, f) {
        KeyInjective(id, f, j, g);
      }
    }
  }

  /** A field a worker needs is known exactly when its key has arrived. */
  lemma {:induction false} FieldArrived(
    kvs: seq<(string, string)>, slots: seq<Slot>, extra: Kvs, accepting: bool, id: nat, f: Field)
    requires AllPrintable(slots) && Foreign(extra) && Received(kvs, Snapshot(slots, extra, accepting))
    requires id < |slots| && Needs(slots[id], f)
    ensures Has(BuilderAt(Decode(kvs).builders, id), slots[id], f) <==> Contains(kvs, WorkerKey(id, f))
  {
    hide DecodeStep, Snapshot, AllPrintable, Within, WorkerKey, Consistent, Foreign;
    if kvs != [] {
      var n := |kvs| - 1;
      FieldArrived(kvs[..n], slots, extra, accepting, id, f);
      DecodeConsistent(kvs[..n], slots, extra, accepting);
      ArrivalStep(Decode(kvs[..n]), slots, extra, accepting, kvs[n].0, kvs[n].1, id, f);
      ContainsLast(kvs, WorkerKey(id, f));
    }
  }

  predicate Complete(kvs: seq<(string, string)>, slot: Slot, id: nat) {
    forall f: Field :: Needs(slot, f) ==> Contains(kvs, WorkerKey(id, f))
  }

  predicate Sees(workers: seq<WorkerView>, id: nat) {
    exists i :: 0 <= i < |workers| && workers[i].id == id
  }

  lemma SeesAppend(workers: seq<WorkerView>, v: WorkerView, id: nat)
    ensures Sees(workers + [v], id) <==> Sees(workers, id) || v.id == id
  {
    assert (workers + [v])[|workers|] == v;
    if i :| 0 <= i < |workers| && workers[i].id == id {
      assert (workers + [v])[i].id == id;
    }
  }

  lemma {:induction false} CollectedIff(builders: map<nat, Builder>, n: nat, id: nat)
    ensures Sees(Collect(builders, n), id) <==> id < n && ViewOf(id, BuilderAt(builders, id)).Some?
  {
    hide BuilderAt, Sees;
    if n == 0 {
      SeesNobody(id);
    } else {
      CollectedIff(builders, n - 1, id);
      var view := ViewOf(n - 1, BuilderAt(builders, n - 1));
      if view.Some? {
        SeesAppend(Collect(builders, n - 1), view.value, id);
      } else {
        assert Collect(builders, n) == Collect(builders, n - 1);
      }
    }
  }

  lemma SeesNobody(id: nat)
    ensures !Sees([], id)
  {
  }

  lemma VisibleIffHas(id: nat, b: Builder, slot: Slot)
    requires Within(b, slot)
    ensures ViewOf(id, b).Some? <==> forall f: Field :: Needs(slot, f) ==> Has(b, slot, f)
  {
    assert (forall f: Field :: Needs(slot, f) ==> Has(b, slot, f)) ==>
      Has(b, slot, StyleField) && Has(b, slot, QueueField) && Has(b, slot, ModeField) && Has(b, slot, ScaleField);
  }

  /** A worker is seen exactly when every key it needs has arrived. */
  lemma VisibleExactly(kvs: seq<(string, string)>, slots: seq<Slot>, extra: Kvs, accepting: bool, id: nat)
    requires AllPrintable(slots) && Foreign(extra) && Received(kvs, Snapshot(slots, extra, accepting)) && id < |slots|
    ensures Sees(Decoded(kvs).workers, id) <==> Complete(kvs, slots[id], id)
  {
    hide Decode, Snapshot, Collect, Received, Within, Has, ViewOf, Contains, WorkerKey, Needs, Printable, Foreign, Sees;
    DecodeConsistent(kvs, slots, extra, accepting);
    EmptyWithin(slots[id]);
    VisibleIffHas(id, BuilderAt(Decode(kvs).builders, id), slots[id]);
    CollectedIff(Decode(kvs).builders, U32, id);
    forall f: Field | Needs(slots[id], f)
      ensures Has(BuilderAt(Decode(kvs).builders, id), slots[id], f) <==> Contains(kvs, WorkerKey(id, f))
    {
      FieldArrived(kvs, slots, extra, accepting, id, f);
    }
  }

  function Views(slots: seq<Slot>): (r: seq<WorkerView>)
    ensures |r| == |slots| && forall i | 0 <= i < |r| :: r[i] == WorkerView(i, slots[i].loaded, slots[i].depth)
  {
    seq(|slots|, i requires 0 <= i < |slots| => WorkerView(i, slots[i].loaded, slots[i].depth))
  }

  lemma {:induction false} CollectAll(builders: map<nat, Builder>, slots: seq<Slot>, n: nat)
    requires forall id | id in builders :: id < |slots|
    requires forall i | 0 <= i < |slots| ::
               ViewOf(i, BuilderAt(builders, i)) == Some(WorkerView(i, slots[i].loaded, slots[i].depth))
    ensures Collect(builders, n) == Views(slots)[..if n <= |slots| then n else |slots|]
  {
    hide ViewOf;
    if n > 0 {
      CollectAll(builders, slots, n - 1);
      if n - 1 >= |slots| {
        NothingYet(n - 1);
      }
    }
  }

  /** The round trip: all of a snapshot, in any order, decodes to exactly the
      published workers and admission state. */
  lemma FullSnapshotRoundTrip(kvs: seq<(string, string)>, slots: seq<Slot>, extra: Kvs, accepting: bool)
    requires AllPrintable(slots) && Foreign(extra) && Received(kvs, Snapshot(slots, extra, accepting))
    requires forall k | k in Snapshot(slots, extra, accepting) :: Contains(kvs, k)
    ensures Decoded(kvs) == NodeView(accepting, Views(slots))
  {
    hide Decode, Collect, Received, Within, Has, ViewOf, Contains, WorkerKey, Printable, EncodeSlots, Views;
    DecodeConsistent(kvs, slots, extra, accepting);
    AdmissionFailsClosed(kvs, slots, extra, accepting);
    forall i | 0 <= i < |slots|
      ensures ViewOf(i, BuilderAt(Decode(kvs).builders, i)) == Some(WorkerView(i, slots[i].loaded, slots[i].depth))
    {
      SlotArrives(kvs, slots, extra, accepting, i);
    }
    CollectAll(Decode(kvs).builders, slots, U32);
  }

  lemma InSnapshot(slots: seq<Slot>, extra: Kvs, accepting: bool, id: nat, f: Field)
    requires AllPrintable(slots) && Foreign(extra) && id < |slots|
    ensures WorkerKey(id, f) in Snapshot(slots, extra, accepting)
  {
    hide WorkerKey, Printable, EncodeSlots;
    EntryPresent(slots, id, f);
  }

  lemma SlotArrives(kvs: seq<(string, string)>, slots: seq<Slot>, extra: Kvs, accepting: bool, i: nat)
    requires AllPrintable(slots) && Foreign(extra) && Received(kvs, Snapshot(slots, extra, accepting)) && i < |slots|
    requires forall k | k in Snapshot(slots, extra, accepting) :: Contains(kvs, k)
    ensures ViewOf(i, BuilderAt(Decode(kvs).builders, i)) == Some(WorkerView(i, slots[i].loaded, slots[i].depth))
  {
    hide Decode, Received, Within, Has, ViewOf, Contains, WorkerKey, Printable, Snapshot, Foreign, Needs, AllPrintable;
    DecodeConsistent(kvs, slots, extra, accepting);
    EmptyWithin(slots[i]);
    var b := BuilderAt(Decode(kvs).builders, i);
    forall f: Field | Needs(slots[i], f) ensures Has(b, slots[i], f) {
      InSnapshot(slots, extra, accepting, i, f);
      FieldArrived(kvs, slots, extra, accepting, i, f);
    }
    VisibleIffHas(i, b, slots[i]);
    FullViewOf(i, b, slots[i]);
  }

  // ---- The delta publisher -----------------------------------------------

  /** What one round sends: the pairs that differ from the last snapshot. */
  function Delta(last: Kvs, next: Kvs): Kvs {
    map k | k in next && !(k in last && last[k] == next[k]) :: next[k]
  }

  /** A peer applies each delta over what it has. */
  function Replay(snapshots: seq<Kvs>): Kvs {
    if snapshots == [] then map[]
    else
      var n := |snapshots| - 1;
      Replay(snapshots[..n]) + Delta(LastOf(snapshots[..n]), snapshots[n])
  }

  function LastOf(snapshots: seq<Kvs>): Kvs {
    if snapshots == [] then map[] else snapshots[|snapshots| - 1]
  }

  ghost predicate EverPublished(snapshots: seq<Kvs>, k: string) {
    exists i :: 0 <= i < |snapshots| && k in snapshots[i]
  }

  /** After any number of rounds a peer holds every pair of the latest snapshot,
      and besides only keys that an earlier snapshot had. */
  lemma {:induction false} ReplayCoversLatest(snapshots: seq<Kvs>)
    ensures forall k | k in LastOf(snapshots) :: k in Replay(snapshots) && Replay(snapshots)[k] == LastOf(snapshots)[k]
    ensures forall k :: k in Replay(snapshots) <==> EverPublished(snapshots, k)
  {
    if snapshots != [] {
      var n := |snapshots| - 1;
      ReplayCoversLatest(snapshots[..n]);
      forall k ensures k in Replay(snapshots) <==> EverPublished(snapshots, k) {
        EverPublishedStep(snapshots, k);
      }
    }
  }

  lemma EverPublishedStep(snapshots: seq<Kvs>, k: string)
    requires snapshots != []
    ensures var n := |snapshots| - 1;
            EverPublished(snapshots, k) <==> k in snapshots[n] || EverPublished(snapshots[..n], k)
  {
    var n := |snapshots| - 1;
    if i :| 0 <= i < |snapshots| && k in snapshots[i] {
      assert i < n ==> k in snapshots[..n][i];
    }
    if i :| 0 <= i < n && k in snapshots[..n][i] {
      assert k in snapshots[i];
    }
  }

  /** For snapshots of any kind: replaying all deltas rebuilds the latest one exactly
      when no key ever published is missing from it. */
  lemma ReplayIsLatest(snapshots: seq<Kvs>)
    ensures Replay(snapshots) == LastOf(snapshots) <==>
            forall k :: EverPublished(snapshots, k) ==> k in LastOf(snapshots)
  {
    hide Replay, LastOf, EverPublished;
    ReplayCoversLatest(snapshots);
    if forall k :: EverPublished(snapshots, k) ==> k in LastOf(snapshots) {
      assert Replay(snapshots) == LastOf(snapshots);
    }
  }

  /** The publisher loop: `lastSent` is replaced by the full snapshot each round. */
  class Publisher {
    var lastSent: Kvs

    constructor ()
      ensures lastSent == LastOf([])
    {
      lastSent := map[];
    }

    /** One round of the loop after `history`; nothing is sent when nothing changed. */
    method Round(kvs: Kvs, ghost history: seq<Kvs>) returns (changed: Kvs)
      requires lastSent == LastOf(history)
      modifies this
      ensures lastSent == LastOf(history + [kvs])
      ensures changed == Delta(old(lastSent), kvs) && Replay(history) + changed == Replay(history + [kvs])
    {
      changed := map k | k in kvs && !(k in lastSent && lastSent[k] == kvs[k]) :: kvs[k];
      assert (history + [kvs])[..|history|] == history;
      lastSent := kvs;
    }
  }
}
