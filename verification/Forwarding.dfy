/** Forwarding a task to a peer: the time budget it carries, the frame its answer
    comes back in, and the timeline rebuilt from the peer's offsets.

    Instants and durations are nanoseconds; the peer's clock is offset from the
    origin's by an unknown amount.
  */
module Forwarding {
  import opened Text

  const MILLI: nat := 1_000_000
  const MAX_U32: nat := 0xFFFF_FFFF
  const MAX_U8: nat := 255

  // ---- Budget ------------------------------------------------------------

  function SaturatingSub(a: nat, b: nat): nat {
    if a < b then 0 else a - b
  }

  function Least(a: nat, b: nat): nat {
    if a < b then a else b
  }

  datatype Wire = Wire(budgetMs: nat, hops: nat)

  /** `to_forward_wire`: both hops are reserved; `longest` is the largest duration. */
  function ToForwardWire(deadline: nat, hops: nat, now: nat, hop: nat, longest: nat): Wire {
    var budget := SaturatingSub(SaturatingSub(deadline, now), Least(2 * hop, longest));
    Wire(Least(budget / MILLI, MAX_U32), Least(hops + 1, MAX_U8))
  }

  /** `into_internal`, on the peer's clock. */
  function PeerDeadline(wire: Wire, now: int): int {
    now + wire.budgetMs * MILLI
  }

  predicate RejectedOnArrival(wire: Wire, now: int) {
    now >= PeerDeadline(wire, now)
  }

  /** A forwarded task is rejected on arrival exactly when less than both hops and
      one millisecond were left, whatever the peer's clock shows. */
  lemma RejectedExactly(deadline: nat, hops: nat, now: nat, hop: nat, longest: nat, peerNow: int)
    requires SaturatingSub(deadline, now) <= longest
    ensures RejectedOnArrival(ToForwardWire(deadline, hops, now, hop, longest), peerNow) <==>
            deadline < now + 2 * hop + MILLI
  {
    var left := SaturatingSub(deadline, now);
    var budget := SaturatingSub(left, Least(2 * hop, longest));
    assert budget / MILLI == 0 <==> budget < MILLI;
  }

  /** Otherwise an answer finished by the peer's deadline is back by the origin's,
      late by no more than the hops themselves ran over their estimate. `out` and
      `back` are the actual hops, `offset` the difference between the clocks. */
  lemma AnswerInTime(
    deadline: nat, hops: nat, now: nat, hop: nat, longest: nat, out: nat, back: nat, offset: int, finished: int)
    requires SaturatingSub(deadline, now) <= longest
    requires var wire := ToForwardWire(deadline, hops, now, hop, longest); var peerNow := now + out + offset;
             !RejectedOnArrival(wire, peerNow) && finished <= PeerDeadline(wire, peerNow)
    ensures finished - offset + back <= deadline + SaturatingSub(out, hop) + SaturatingSub(back, hop)
    ensures out <= hop && back <= hop ==> finished - offset + back <= deadline
  {
    var left := SaturatingSub(deadline, now);
    var budget := SaturatingSub(left, Least(2 * hop, longest));
    assert budget / MILLI * MILLI <= budget;
    LeastScales(budget / MILLI, MAX_U32);
  }

  lemma LeastScales(a: nat, b: nat)
    ensures Least(a, b) * MILLI <= a * MILLI
  {
  }

  /** The forwarded task counts one hop more, so it is never forwarded again, and may
      take `b` milliseconds exactly when they fit between now and the deadline together
      with both hops, up to what 32 bits hold. */
  lemma BudgetExactly(deadline: nat, hops: nat, now: nat, hop: nat, longest: nat, b: nat)
    requires SaturatingSub(deadline, now) <= longest
    ensures
      var wire := ToForwardWire(deadline, hops, now, hop, longest);
      && (b <= wire.budgetMs <==> b == 0 || (b <= MAX_U32 && now + 2 * hop + b * MILLI <= deadline))
      && wire.hops == (if hops < MAX_U8 then hops + 1 else MAX_U8) && wire.hops >= 1
  {
    var left := SaturatingSub(deadline, now);
    var budget := SaturatingSub(left, Least(2 * hop, longest));
    WholeMillis(budget, b);
  }

  lemma WholeMillis(budget: nat, b: nat)
    ensures b <= budget / MILLI <==> b * MILLI <= budget
  {
  }

  // ---- The response frame ------------------------------------------------

  type Byte = b: nat | b < 256

  datatype Framed = Ok(header: seq<Byte>, image: seq<Byte>) | Truncated

  function BigEndian(n: nat): (r: seq<Byte>)
    requires n <= MAX_U32
    ensures |r| == 4
  {
    var a := n / 256;
    var b := a / 256;
    [b / 256, b % 256, a % 256, n % 256]
  }

  function FromBigEndian(a: Byte, b: Byte, c: Byte, d: Byte): nat {
    ((a * 256 + b) * 256 + c) * 256 + d
  }

  /** `encode_response_header` followed by the image; `None` when the header is too
      large for its length prefix. */
  function EncodeResponse(header: seq<Byte>, image: seq<Byte>): Option<seq<Byte>> {
    if |header| > MAX_U32 then None else Some(BigEndian(|header|) + header + image)
  }

  function DecodeResponse(body: seq<Byte>): Framed {
    if |body| < 4 then Truncated
    else
      var end := 4 + FromBigEndian(body[0], body[1], body[2], body[3]);
      if |body| < end then Truncated else Ok(body[4..end], body[end..])
  }

  lemma BigEndianBack(n: nat)
    requires n <= MAX_U32
    ensures var r := BigEndian(n); FromBigEndian(r[0], r[1], r[2], r[3]) == n
  {
  }

  /** A response survives framing, and every proper prefix of the framed header is
      recognised as truncated. */
  lemma ResponseRoundTrip(header: seq<Byte>, image: seq<Byte>, n: nat)
    requires |header| <= MAX_U32 && n < 4 + |header|
    ensures EncodeResponse(header, image).Some?
    ensures DecodeResponse(EncodeResponse(header, image).value) == Ok(header, image)
    ensures DecodeResponse(EncodeResponse(header, image).value[..n]) == Truncated
  {
    hide FromBigEndian, BigEndian;
    var body := EncodeResponse(header, image).value;
    BigEndianBack(|header|);
    assert body[..4] == BigEndian(|header|);
    assert body[0] == BigEndian(|header|)[0] && body[1] == BigEndian(|header|)[1]
        && body[2] == BigEndian(|header|)[2] && body[3] == BigEndian(|header|)[3];
    assert body[4..4 + |header|] == header;
  }

  // ---- The timeline ------------------------------------------------------

  /** A completed render's instants on one clock. */
  datatype Timeline = Timeline(arrived: nat, started: nat, nativeStarted: nat, nativeCompleted: nat, completed: nat)

  predicate InOrder(t: Timeline) {
    t.arrived <= t.started <= t.nativeStarted <= t.nativeCompleted <= t.completed
  }

  /** The same as whole milliseconds since arrival, as the answer carries them. */
  datatype Offsets = Offsets(started: nat, nativeStarted: nat, nativeCompleted: nat, completed: nat)

  predicate OffsetsInOrder(o: Offsets) {
    o.started <= o.nativeStarted <= o.nativeCompleted <= o.completed
  }

  function MillisSince(t: nat, start: nat): nat {
    SaturatingSub(t, start) / MILLI
  }

  function ToOffsets(t: Timeline): Offsets {
    Offsets(MillisSince(t.started, t.arrived), MillisSince(t.nativeStarted, t.arrived),
            MillisSince(t.nativeCompleted, t.arrived), MillisSince(t.completed, t.arrived))
  }

  /** An honest peer's answer is never refused for its timeline. */
  lemma OffsetsStayOrdered(t: Timeline)
    requires InOrder(t)
    ensures OffsetsInOrder(ToOffsets(t))
  {
    DivMonotone(t.started - t.arrived, t.nativeStarted - t.arrived);
    DivMonotone(t.nativeStarted - t.arrived, t.nativeCompleted - t.arrived);
    DivMonotone(t.nativeCompleted - t.arrived, t.completed - t.arrived);
  }

  /** Each offset is the whole milliseconds of its instant since arrival. */
  lemma OffsetsAreMillis(t: Timeline)
    requires InOrder(t)
    ensures
      var o := ToOffsets(t);
      && o.started * MILLI <= t.started - t.arrived < (o.started + 1) * MILLI
      && o.nativeStarted * MILLI <= t.nativeStarted - t.arrived < (o.nativeStarted + 1) * MILLI
      && o.nativeCompleted * MILLI <= t.nativeCompleted - t.arrived < (o.nativeCompleted + 1) * MILLI
      && o.completed * MILLI <= t.completed - t.arrived < (o.completed + 1) * MILLI
  {
    MillisBound(t.started - t.arrived);
    MillisBound(t.nativeStarted - t.arrived);
    MillisBound(t.nativeCompleted - t.arrived);
    MillisBound(t.completed - t.arrived);
  }

  lemma MillisBound(d: nat)
    ensures d / MILLI * MILLI <= d < (d / MILLI + 1) * MILLI
  {
  }

  lemma DivMonotone(a: nat, b: nat)
    requires a <= b
    ensures a / MILLI <= b / MILLI
  {
  }

  function Greatest(a: nat, b: nat): nat {
    if a < b then b else a
  }

  /** `into_task_outcome`: the peer's offsets anchored at the moment its answer
      arrived, cut to the time the origin actually waited. Instants count from the
      clock's epoch, below which subtraction fails. */
  function Rebuild(o: Offsets, arrived: nat, received: nat): (r: (nat, Timeline)) {
    var completed := Greatest(received, arrived);
    var peerArrived :=
      Greatest(if o.completed * MILLI <= completed then completed - o.completed * MILLI else arrived, arrived);
    var duration := SaturatingSub(completed, peerArrived);
    (peerArrived,
     Timeline(arrived, peerArrived + Least(o.started * MILLI, duration),
              peerArrived + Least(o.nativeStarted * MILLI, duration),
              peerArrived + Least(o.nativeCompleted * MILLI, duration), completed))
  }

  lemma MilliMonotone(a: nat, b: nat)
    ensures a <= b <==> a * MILLI <= b * MILLI
  {
  }

  /** The rebuilt timeline is in order, starts no earlier than the request arrived
      and ends when the answer was received. */
  lemma RebuiltInOrder(o: Offsets, arrived: nat, received: nat)
    requires OffsetsInOrder(o)
    ensures var (peerArrived, t) := Rebuild(o, arrived, received);
            && InOrder(t) && t.arrived == arrived <= peerArrived <= t.started
            && t.completed == if received < arrived then arrived else received
  {
    MilliMonotone(o.started, o.nativeStarted);
    MilliMonotone(o.nativeStarted, o.nativeCompleted);
  }

  /** The peer's durations are kept, each of them, exactly when its whole stay fits
      between the request and its answer; otherwise the stay is cut to that time. */
  lemma DurationsKeptExactly(o: Offsets, arrived: nat, received: nat)
    requires OffsetsInOrder(o)
    ensures var (peerArrived, t) := Rebuild(o, arrived, received);
            (t.completed - peerArrived == o.completed * MILLI) <==>
            arrived + o.completed * MILLI <= Greatest(received, arrived)
    ensures var (peerArrived, t) := Rebuild(o, arrived, received);
            arrived + o.completed * MILLI <= Greatest(received, arrived) ==>
              && t.started - peerArrived == o.started * MILLI
              && t.nativeStarted - peerArrived == o.nativeStarted * MILLI
              && t.nativeCompleted - peerArrived == o.nativeCompleted * MILLI
    ensures var (peerArrived, t) := Rebuild(o, arrived, received);
            arrived + o.completed * MILLI > Greatest(received, arrived) ==> peerArrived == arrived
  {
    MilliMonotone(o.started, o.completed);
    MilliMonotone(o.nativeStarted, o.completed);
    MilliMonotone(o.nativeCompleted, o.completed);
  }

  /** A peer's honest timeline survives the way back to the millisecond: if its stay fits
      between the request and its answer, every rebuilt duration since arrival is the
      peer's own, rounded down. */
  lemma TimelineSurvives(peer: Timeline, arrived: nat, received: nat)
    requires InOrder(peer) && arrived + (peer.completed - peer.arrived) <= received
    ensures
      var (peerArrived, t) := Rebuild(ToOffsets(peer), arrived, received);
      && 0 <= (peer.started - peer.arrived) - (t.started - peerArrived) < MILLI
      && 0 <= (peer.nativeStarted - peer.arrived) - (t.nativeStarted - peerArrived) < MILLI
      && 0 <= (peer.nativeCompleted - peer.arrived) - (t.nativeCompleted - peerArrived) < MILLI
      && 0 <= (peer.completed - peer.arrived) - (t.completed - peerArrived) < MILLI
  {
    hide ToOffsets, Rebuild;
    OffsetsStayOrdered(peer);
    OffsetsAreMillis(peer);
    DurationsKeptExactly(ToOffsets(peer), arrived, received);
  }
}
