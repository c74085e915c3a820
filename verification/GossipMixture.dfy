/** What a peer decodes while it holds values of different rounds: each field is some
    round's, and the whole is one round's exactly when every field it needs is.
  */
module GossipMixture {
  import opened Text
  import opened Profiles
  import opened Gossip

  // ---- Decoding a map ----------------------------------------------------

  /** The builder of one worker, read off the pairs a peer holds. */
  function Assembled(held: Kvs, id: nat): Builder {
    Builder(
      if WorkerKey(id, StyleField) in held then StyleOf(held[WorkerKey(id, StyleField)]) else None,
      if WorkerKey(id, ModeField) in held then ParseMode(held[WorkerKey(id, ModeField)]) else None,
      if WorkerKey(id, ScaleField) in held then ParseScale(held[WorkerKey(id, ScaleField)]) else None,
      if WorkerKey(id, QueueField) in held then ParseUnsigned(held[WorkerKey(id, QueueField)], MAX_DEPTH) else None)
  }

  function StyleOf(value: string): Option<Option<StyleRevision>> {
    if value == "" then Some(None)
    else match ParseRevision(value) case None => None case Some(r) => Some(Some(r))
  }

  /** Only keys a publisher writes: worker fields, the admission key, and foreign ones. */
  ghost predicate WellKeyed(held: Kvs) {
    forall k | k in held :: Recognised(k)
  }

  ghost predicate Recognised(k: string) {
    k == ADMISSION_KEY || !(WORKER_PREFIX <= k) || exists id: nat, f: Field :: id < U32 && k == WorkerKey(id, f)
  }

  function Arrived(kvs: seq<(string, string)>): Kvs {
    if kvs == [] then map[] else Arrived(kvs[..|kvs| - 1])[kvs[|kvs| - 1].0 := kvs[|kvs| - 1].1]
  }

  lemma {:induction false} ArrivedIsReceived(kvs: seq<(string, string)>, held: Kvs)
    requires Received(kvs, held)
    ensures forall k :: k in Arrived(kvs) <==> Contains(kvs, k)
    ensures forall k | k in Arrived(kvs) :: k in held && Arrived(kvs)[k] == held[k]
  {
    hide Contains;
    if kvs == [] {
      forall k ensures !Contains(kvs, k) { NothingContained(kvs, k); }
    } else {
      ArrivedIsReceived(kvs[..|kvs| - 1], held);
      forall k ensures k in Arrived(kvs) <==> Contains(kvs, k) { ContainsLast(kvs, k); }
    }
  }

  lemma NothingContained(kvs: seq<(string, string)>, k: string)
    requires kvs == []
    ensures !Contains(kvs, k)
  {}

  lemma AssembledMore(m: Kvs, id: nat, f: Field, v: string)
    requires id < U32 && (WorkerKey(id, f) in m ==> m[WorkerKey(id, f)] == v)
    ensures Absorb(Assembled(m, id), f, v) == Assembled(m[WorkerKey(id, f) := v], id)
  {
    hide WorkerKey, ParseRevision, ParseUnsigned;
    EmptyShapes();
    forall g | g != f ensures WorkerKey(id, g) != WorkerKey(id, f) {
      KeysDiffer(id, g, f);
    }
  }

  lemma EmptyShapes()
    ensures ParseMode("") == None && ParseScale("") == None
  {
    assert |STATIC_VALUE| == 6 && |TILE_VALUE| == 4 && |X1_VALUE| == 2 && |X2_VALUE| == 2;
  }

  lemma AssembledSame(m: Kvs, id: nat, k: string, v: string)
    requires forall f :: k != WorkerKey(id, f)
    ensures Assembled(m[k := v], id) == Assembled(m, id)
  {
    hide WorkerKey, StyleOf, ParseMode, ParseScale, ParseUnsigned;
  }

  lemma WorkerKeyStep(d: Decoding, id: nat, f: Field, v: string)
    requires id < U32
    ensures DecodeStep(d, WorkerKey(id, f), v) ==
            d.(builders := d.builders[id := Absorb(BuilderAt(d.builders, id), f, v)])
  {
    hide WorkerKey, Absorb, ParseKey, ParseField;
    KeyRoundTrip(id, f);
    FieldRoundTrip(f);
  }

  lemma AssembleStep(d: Decoding, m: Kvs, id: nat, k: string, v: string)
    requires id < U32 && BuilderAt(d.builders, id) == Assembled(m, id)
    requires Recognised(k) && (k in m ==> m[k] == v)
    ensures BuilderAt(DecodeStep(d, k, v).builders, id) == Assembled(m[k := v], id)
  {
    hide DecodeStep, WorkerKey, Absorb, Assembled;
    if k == ADMISSION_KEY || !(WORKER_PREFIX <= k) {
      if k == ADMISSION_KEY { AdmissionStep(d, v); } else { ForeignIgnored(d, k, v); }
      forall f ensures k != WorkerKey(id, f) {
        KeyRoundTrip(id, f);
        WorkerKeyIsPrefixed(id, f);
      }
      AssembledSame(m, id, k, v);
    } else {
      var j: nat, f: Field :| j < U32 && k == WorkerKey(j, f);
      WorkerKeyStep(d, j, f, v);
      if j == id {
        AssembledMore(m, id, f, v);
      } else {
        forall g ensures k != WorkerKey(id, g) {
          if k == WorkerKey(id, g) { KeyInjective(j, f, id, g); }
        }
        AssembledSame(m, id, k, v);
      }
    }
  }

  lemma {:induction false} DecodeAssembles(kvs: seq<(string, string)>, held: Kvs, id: nat)
    requires WellKeyed(held) && Received(kvs, held) && id < U32
    ensures BuilderAt(Decode(kvs).builders, id) == Assembled(Arrived(kvs), id)
  {
    hide DecodeStep, Assembled, Recognised;
    if kvs == [] {
      NothingAssembled(id);
    } else {
      var n := |kvs| - 1;
      DecodeAssembles(kvs[..n], held, id);
      ArrivedIsReceived(kvs[..n], held);
      AssembleStep(Decode(kvs[..n]), Arrived(kvs[..n]), id, kvs[n].0, kvs[n].1);
    }
  }

  lemma NothingAssembled(id: nat)
    ensures Assembled(map[], id) == EMPTY_BUILDER
  {}

  predicate AllOf(kvs: seq<(string, string)>, held: Kvs) {
    Received(kvs, held) && forall k | k in held :: Contains(kvs, k)
  }

  /** The pairs a peer holds decode, in whatever order, to what can be assembled from
      them worker by worker. */
  lemma HeldDecodes(kvs: seq<(string, string)>, held: Kvs, v: WorkerView)
    requires WellKeyed(held) && AllOf(kvs, held) && v.id < U32
    ensures v in Decoded(kvs).workers <==> ViewOf(v.id, Assembled(held, v.id)) == Some(v)
  {
    hide Decode, Collect, Assembled, Contains, Received, WellKeyed, ViewOf;
    ArrivedIsReceived(kvs, held);
    assert Arrived(kvs) == held;
    DecodeAssembles(kvs, held, v.id);
    CollectedExactly(Decode(kvs).builders, U32, v);
  }

  lemma {:induction false} CollectedExactly(builders: map<nat, Builder>, n: nat, v: WorkerView)
    ensures v in Collect(builders, n) <==> v.id < n && ViewOf(v.id, BuilderAt(builders, v.id)) == Some(v)
  {
    hide BuilderAt;
    if n > 0 {
      CollectedExactly(builders, n - 1, v);
    }
  }

  // ---- Mixtures ----------------------------------------------------------

  /** Field `f` of worker `id` in some round. */
  ghost predicate FieldOfSome(rounds: seq<seq<Slot>>, id: nat, f: Field, value: string) {
    exists r :: 0 <= r < |rounds| && id < |rounds[r]| && value == FieldValue(rounds[r][id], f)
  }

  /** Every worker field a peer holds was published in some round. */
  ghost predicate Mixture(held: Kvs, rounds: seq<seq<Slot>>) {
    && WellKeyed(held)
    && (forall r | 0 <= r < |rounds| :: AllPrintable(rounds[r]))
    && (forall id: nat, f: Field | id < U32 && WorkerKey(id, f) in held ::
          FieldOfSome(rounds, id, f, held[WorkerKey(id, f)]))
  }

  /** A worker's decoded view is that of the slot, field by field. */
  predicate HoldsFields(held: Kvs, id: nat, slot: Slot) {
    forall f | Needs(slot, f) :: WorkerKey(id, f) in held && held[WorkerKey(id, f)] == FieldValue(slot, f)
  }

  lemma SlotFields(slot: Slot)
    requires Printable(slot)
    ensures StyleOf(FieldValue(slot, StyleField)) ==
            Some(if slot.loaded.Some? then Some(slot.loaded.value.style) else None)
    ensures ParseMode(FieldValue(slot, ModeField)) == if slot.loaded.Some? then Some(slot.loaded.value.mode) else None
    ensures ParseScale(FieldValue(slot, ScaleField)) ==
            if slot.loaded.Some? then Some(slot.loaded.value.scale) else None
    ensures ParseUnsigned(FieldValue(slot, QueueField), MAX_DEPTH) == Some(slot.depth)
  {
    hide RevisionValue, ParseRevision, ParseMode, ParseScale, ParseUnsigned, Decimal, ModeValue, ScaleValue;
    EmptyShapes();
    DecimalRoundTrip(slot.depth, MAX_DEPTH);
    if slot.loaded.Some? {
      RevisionRoundTrip(slot.loaded.value.style);
      ShapeRoundTrip(slot.loaded.value.mode, slot.loaded.value.scale);
    }
  }

  ghost predicate Published(rounds: seq<seq<Slot>>, id: nat, slot: Slot) {
    exists r :: 0 <= r < |rounds| && id < |rounds[r]| && rounds[r][id] == slot
  }

  lemma SourceOf(held: Kvs, rounds: seq<seq<Slot>>, id: nat, f: Field) returns (slot: Slot)
    requires Mixture(held, rounds) && id < U32 && WorkerKey(id, f) in held
    ensures Printable(slot) && held[WorkerKey(id, f)] == FieldValue(slot, f)
    ensures Published(rounds, id, slot)
  {
    hide WorkerKey, FieldValue, Printable, WellKeyed;
    assert FieldOfSome(rounds, id, f, held[WorkerKey(id, f)]);
    var r :| 0 <= r < |rounds| && id < |rounds[r]| && held[WorkerKey(id, f)] == FieldValue(rounds[r][id], f);
    slot := rounds[r][id];
  }

  /** Each part of a decoded worker comes from that worker's slot in some round; a
      worker decoded as loaded takes its mode and scale from rounds in which it was. */
  lemma MixtureIsPublishedByField(kvs: seq<(string, string)>, held: Kvs, rounds: seq<seq<Slot>>, v: WorkerView)
    returns (style: Slot, mode: Slot, scale: Slot, queue: Slot)
    requires Mixture(held, rounds) && AllOf(kvs, held) && v.id < U32 && v in Decoded(kvs).workers
    ensures Published(rounds, v.id, style) && Published(rounds, v.id, queue) && v.depth == queue.depth
    ensures v.loaded.None? <==> style.loaded.None?
    ensures v.loaded.Some? ==>
              && Published(rounds, v.id, mode) && Published(rounds, v.id, scale)
              && mode.loaded.Some? && scale.loaded.Some?
              && v.loaded.value ==
                 WorkerProfile(style.loaded.value.style, mode.loaded.value.mode, scale.loaded.value.scale)
  {
    hide WorkerKey, FieldValue, Decoded, Mixture, AllOf, StyleOf, ParseMode, ParseScale, ParseUnsigned, Printable;
    assert WellKeyed(held) by { MixtureIsKeyed(held, rounds); }
    HeldDecodes(kvs, held, v);
    style := SourceOf(held, rounds, v.id, StyleField);
    queue := SourceOf(held, rounds, v.id, QueueField);
    SlotFields(style);
    SlotFields(queue);
    mode, scale := style, style;
    if v.loaded.Some? {
      mode := SourceOf(held, rounds, v.id, ModeField);
      scale := SourceOf(held, rounds, v.id, ScaleField);
      SlotFields(mode);
      SlotFields(scale);
    }
  }

  lemma MixtureIsKeyed(held: Kvs, rounds: seq<seq<Slot>>)
    requires Mixture(held, rounds)
    ensures WellKeyed(held)
  {}

  /** A peer sees worker `id` as some slot stood exactly when every field that slot
      needs is held with the slot's value: a mixture is a published worker exactly
      when its fields are those of one round. */
  lemma MixtureIsOneRound(kvs: seq<(string, string)>, held: Kvs, rounds: seq<seq<Slot>>, id: nat, slot: Slot)
    requires Mixture(held, rounds) && AllOf(kvs, held) && id < U32 && Printable(slot)
    ensures WorkerView(id, slot.loaded, slot.depth) in Decoded(kvs).workers <==> HoldsFields(held, id, slot)
  {
    hide WorkerKey, FieldValue, Decoded, Mixture, AllOf, StyleOf, ParseMode, ParseScale, ParseUnsigned, Printable;
    assert WellKeyed(held) by { MixtureIsKeyed(held, rounds); }
    HeldDecodes(kvs, held, WorkerView(id, slot.loaded, slot.depth));
    if HoldsFields(held, id, slot) {
      AssembledWhole(held, id, slot);
    }
    if ViewOf(id, Assembled(held, id)) == Some(WorkerView(id, slot.loaded, slot.depth)) {
      forall f | Needs(slot, f) ensures WorkerKey(id, f) in held && held[WorkerKey(id, f)] == FieldValue(slot, f) {
        FieldHeld(held, rounds, id, slot, f);
      }
    }
  }

  lemma FieldHeld(held: Kvs, rounds: seq<seq<Slot>>, id: nat, slot: Slot, f: Field)
    requires Mixture(held, rounds) && id < U32 && Printable(slot) && Needs(slot, f)
    requires ViewOf(id, Assembled(held, id)) == Some(WorkerView(id, slot.loaded, slot.depth))
    ensures WorkerKey(id, f) in held && held[WorkerKey(id, f)] == FieldValue(slot, f)
  {
    hide WorkerKey, FieldValue, Mixture, StyleOf, ParseMode, ParseScale, ParseUnsigned, Printable;
    match f {
      case StyleField => assert WorkerKey(id, StyleField) in held;
      case ModeField => assert WorkerKey(id, ModeField) in held;
      case ScaleField => assert WorkerKey(id, ScaleField) in held;
      case QueueField => assert WorkerKey(id, QueueField) in held;
    }
    var from := SourceOf(held, rounds, id, f);
    SlotFields(from);
    SlotFields(slot);
    SameField(slot, from, f);
  }

  lemma AssembledWhole(held: Kvs, id: nat, slot: Slot)
    requires Printable(slot) && HoldsFields(held, id, slot)
    ensures ViewOf(id, Assembled(held, id)) == Some(WorkerView(id, slot.loaded, slot.depth))
  {
    hide WorkerKey, FieldValue, StyleOf, ParseMode, ParseScale, ParseUnsigned, Printable;
    SlotFields(slot);
    assert Needs(slot, StyleField) && Needs(slot, QueueField);
    assert slot.loaded.Some? ==> Needs(slot, ModeField) && Needs(slot, ScaleField);
  }

  predicate SameIn(a: Slot, b: Slot, f: Field) {
    match f
    case StyleField =>
      a.loaded.Some? == b.loaded.Some? && (a.loaded.Some? ==> a.loaded.value.style == b.loaded.value.style)
    case ModeField => a.loaded.Some? && b.loaded.Some? && a.loaded.value.mode == b.loaded.value.mode
    case ScaleField => a.loaded.Some? && b.loaded.Some? && a.loaded.value.scale == b.loaded.value.scale
    case QueueField => a.depth == b.depth
  }

  lemma SameField(a: Slot, b: Slot, f: Field)
    ensures SameIn(a, b, f) ==> FieldValue(a, f) == FieldValue(b, f)
  {}

  /** Rounds do mix: a worker that swapped its whole profile between two rounds can be
      seen with the new style under the old mode and scale, a profile it never had. */
  lemma CrossRoundHappens(before: Slot, next: Slot) returns (held: Kvs, kvs: seq<(string, string)>)
    requires Printable(before) && Printable(next) && before.loaded.Some? && next.loaded.Some?
    requires before.loaded.value.style != next.loaded.value.style
    requires before.loaded.value.mode != next.loaded.value.mode
    ensures Mixture(held, [[before], [next]]) && AllOf(kvs, held)
    ensures
      var v := WorkerView(0, Some(before.loaded.value.(style := next.loaded.value.style)), before.depth);
      v in Decoded(kvs).workers && v.loaded != before.loaded && v.loaded != next.loaded
  {
    hide WorkerKey, FieldValue, Decoded, StyleOf, ParseMode, ParseScale, ParseUnsigned, Printable, Recognised;
    var s, m, c, q := WorkerKey(0, StyleField), WorkerKey(0, ModeField),
                      WorkerKey(0, ScaleField), WorkerKey(0, QueueField);
    kvs := [(s, FieldValue(next, StyleField)), (m, FieldValue(before, ModeField)), (c, FieldValue(before, ScaleField)),
            (q, FieldValue(before, QueueField))];
    held := map[s := kvs[0].1, m := kvs[1].1, c := kvs[2].1, q := kvs[3].1];
    FourKeys();
    FourContained(kvs);
    MixedHere(held, before, next);
    SlotFields(before);
    SlotFields(next);
    var v := WorkerView(0, Some(before.loaded.value.(style := next.loaded.value.style)), before.depth);
    HeldDecodes(kvs, held, v);
  }

  lemma FourKeys()
    ensures forall f, g | f != g :: WorkerKey(0, f) != WorkerKey(0, g)
    ensures forall f :: Recognised(WorkerKey(0, f))
  {
    hide WorkerKey;
    forall f, g | f != g ensures WorkerKey(0, f) != WorkerKey(0, g) {
      KeysDiffer(0, f, g);
    }
  }

  lemma FourContained(kvs: seq<(string, string)>)
    requires |kvs| == 4
    ensures forall i | 0 <= i < 4 :: Contains(kvs, kvs[i].0)
  {}

  lemma MixedHere(held: Kvs, before: Slot, next: Slot)
    requires Printable(before) && Printable(next)
    requires forall k | k in held :: exists f :: k == WorkerKey(0, f)
    requires forall f | WorkerKey(0, f) in held ::
               held[WorkerKey(0, f)] == FieldValue(if f.StyleField? then next else before, f)
    ensures Mixture(held, [[before], [next]])
  {
    hide WorkerKey, FieldValue, Printable, Recognised;
    FourKeys();
    var rounds := [[before], [next]];
    forall id: nat, f: Field | id < U32 && WorkerKey(id, f) in held
      ensures FieldOfSome(rounds, id, f, held[WorkerKey(id, f)])
    {
      var g :| WorkerKey(id, f) == WorkerKey(0, g);
      KeyInjective(id, f, 0, g);
      assert rounds[1][0] == next && rounds[0][0] == before;
    }
  }
}
