/**
 What every run of one transfer identifier promises to the peer and to the file
 system, whatever frames, worker resumptions, cancellations, time-outs, cleanups
 and tombstone expiries interleave.
 */
module TransferRuns {
  import opened Basics
  import opened Protocol
  import opened TransferSlot

  // ---- Observing a run ------------------------------------------------------

  /**
   A memory of the events since the identifier was last started.  `before` is the
   acknowledgement accepted before the peer sent a failure of its own; `checked`
   and `published` range over all earlier starts as well, because a detached
   publishing thread can outlive its slot.
   */
  datatype Monitor = Monitor(
    role: Option<Role>,
    declared: Option<nat>,
    accepted: set<End>,
    last: Option<End>,
    before: Option<End>,
    success: Option<End>,
    read: seq<byte>,
    crossings: nat,
    taken: nat,
    arrivals: seq<Option<Chunk>>,
    consumed: nat,
    ends: set<End>,
    checked: set<seq<byte>>,
    published: set<seq<byte>>)

  const UNSEEN := Monitor(None, None, {}, None, None, None, [], 0, 0, [], 0, {}, {}, {})

  function Observe(m: Monitor, e: Event): Monitor {
    match e
    case Started(role, declared) =>
      UNSEEN.(role := Some(role), declared := declared, checked := m.checked, published := m.published)
    case AckAccepted(end) => m.(accepted := m.accepted + {end}, last := Some(end))
    case PeerFailed(_) => m.(before := m.last)
    case CrossingAck(_) => m.(crossings := m.crossings + 1)
    case EndSent(end) => if end.ok && !end.ack then m.(success := Some(end)) else m
    case BytesTaken(count) => m.(taken := m.taken + count)
    case Queued(item) => m.(arrivals := m.arrivals + [item])
    case Dequeued => m.(consumed := m.consumed + 1)
    case EndHeld(end) => m.(ends := m.ends + {end})
    case SourceRead(chunk) => m.(read := m.read + chunk)
    case Checked(_, content) => m.(checked := m.checked + {content})
    case Published(content) => m.(published := m.published + {content})
    case _ => m
  }

  function ObserveAll(m: Monitor, events: seq<Event>): Monitor
    decreases |events|
  {
    if events == [] then m else ObserveAll(Observe(m, events[0]), events[1..])
  }

  /** The bytes queued before the first end marker, in arrival order. */
  function BeforeMarker(arrivals: seq<Option<Chunk>>): seq<byte> {
    if arrivals == [] || arrivals[0].None? then [] else arrivals[0].value + BeforeMarker(arrivals[1..])
  }

  predicate SameSizeAndDigest(a: End, b: End) {
    a.bytesSent == b.bytesSent && a.sha256 == b.sha256
  }

  predicate Describes(h: Hash, end: End, content: seq<byte>) {
    end.ok && end.bytesSent == Some(|content|) && end.sha256 == Some(h(content))
  }

  /** What must be true when an event happens, given everything observed before. */
  predicate EventOk(h: Hash, m: Monitor, e: Event) {
    match e
    case Checked(end, content) =>
      && content == BeforeMarker(m.arrivals)
      && end in m.ends
      && Describes(h, end, content)
      && (m.declared.Some? ==> |content| == m.declared.value)
    case Published(content) => content in m.checked
    case EndSent(end) =>
      end.ok ==> if end.ack then exists content | content in m.published :: Describes(h, end, content)
                 else Describes(h, end, m.read)
    case AckMismatch => false
    case _ => true
  }

  predicate TraceOk(h: Hash, m: Monitor, events: seq<Event>)
    decreases |events|
  {
    events == [] || (EventOk(h, m, events[0]) && TraceOk(h, Observe(m, events[0]), events[1..]))
  }

  /** What is true of everything observed so far. */
  predicate Safe(m: Monitor) {
    && |m.accepted| <= 2
    && (m.before.None? ==> |m.accepted| <= 1)
    && (m.role == Some(Sender) ==>
          forall e | e in m.accepted && e.ok :: m.success.Some? && SameSizeAndDigest(e, m.success.value))
    && m.crossings <= 1
    && (m.declared.Some? ==> m.taken <= m.declared.value)
  }

  // ---- The invariant --------------------------------------------------------

  /** At most `only` and the acknowledgement from before the peer's own failure. */
  predicate Locked(accepted: set<End>, only: Option<End>, before: Option<End>) {
    accepted <= AsSet(only) + AsSet(before)
  }

  predicate OkMeansOwn(end: Option<End>, success: Option<End>) {
    end.Some? && end.value.ok ==> success.Some? && SameSizeAndDigest(end.value, success.value)
  }

  predicate IsAck(end: Option<End>) {
    end.Some? && end.value.ack
  }

  predicate AcceptedAreOwn(accepted: set<End>, success: Option<End>) {
    forall e | e in accepted && e.ok :: success.Some? && SameSizeAndDigest(e, success.value)
  }

  predicate SenderPlace(worker: Worker, phase: Phase, cancelled: bool, announced: bool) {
    && (worker.Opening? || worker.AwaitingReady? || worker.Reading? ==> !announced)
    && (|| worker.Opening? || worker.AwaitingReady? || worker.Reading? || worker.AwaitingAck?
        || worker.AwaitingFailureAck? || worker.Finishing?)
    && (phase.SenderEnded? ==> worker.AwaitingAck? || worker.Finishing?)
    && (phase.Aborted? && !cancelled ==> worker.AwaitingAck? || worker.AwaitingFailureAck? || worker.Finishing?)
  }

  predicate SenderTerms(h: Hash, content: seq<byte>, success: Option<End>, final: Option<End>, remote: Option<End>) {
    && (success.Some? ==> success.value == SuccessEnd(false, |content|, h(content)))
    && OkMeansOwn(final, success)
    && OkMeansOwn(remote, success)
  }

  predicate SenderAcks(phase: Phase, acked: bool, final: Option<End>, remote: Option<End>,
                       accepted: set<End>, last: Option<End>, before: Option<End>, success: Option<End>) {
    && (IsAck(remote) ==> final == remote && acked && (phase.SenderEnded? || phase.Aborted?))
    && Locked(accepted, if IsAck(remote) then remote else None, before)
    && (!phase.Aborted? ==> before.None? && accepted <= AsSet(last))
    && AcceptedAreOwn(accepted, success)
  }

  predicate SenderInv(h: Hash, s: Slot, m: Monitor) {
    && s.declared.None? && m.declared.None? && m.taken == 0
    && m.success == s.successEnd
    && m.read == s.transferred
    && SenderPlace(s.worker, s.phase, s.cancelled, s.successEnd.Some?)
    && SenderTerms(h, s.transferred, s.successEnd, s.finalEnd, s.remoteEnd)
    && SenderAcks(s.phase, s.senderAck, s.finalEnd, s.remoteEnd, m.accepted, m.last, m.before, s.successEnd)
  }

  predicate ReceiverPlace(worker: Worker, phase: Phase, cancelled: bool) {
    && !(|| worker.Opening? || worker.AwaitingReady? || worker.Reading?
         || worker.AwaitingAck? || worker.AwaitingFailureAck?)
    && (phase.Aborted? ==> cancelled || worker.AwaitingRejectionAck? || worker.Finishing?)
    && (worker.AwaitingRejectionAck? ==> phase.Aborted?)
    && (worker.Recording? ==> phase.Committed?)
  }

  predicate ReceiverBytes(phase: Phase, inboundBytes: nat, lateBytes: nat, declared: Option<nat>, taken: nat) {
    && taken == inboundBytes + lateBytes
    && (lateBytes > 0 ==> phase.Aborted?)
    && (declared.Some? ==> taken <= declared.value)
  }

  predicate ReceiverAcks(phase: Phase, final: Option<End>, accepted: set<End>, last: Option<End>, before: Option<End>) {
    && before.None?
    && accepted <= (if IsAck(final) then {final.value} else {})
    && (!phase.Aborted? ==> accepted == {} && last.None?)
  }

  predicate RemoteHeld(remote: Option<End>, ends: set<End>) {
    remote.Some? ==> !remote.value.ack && (remote.value.ok ==> remote.value in ends)
  }

  predicate ContentKnown(worker: Worker, content: seq<byte>, checked: set<seq<byte>>, published: set<seq<byte>>) {
    && (worker.Verified? || worker.Committing? || worker.Recording? ==> content in checked)
    && (worker.Recording? ==> content in published)
  }

  function InHand(w: Worker): seq<byte> {
    if w.Writing? then w.chunk else []
  }

  predicate BeforeSeal(w: Worker) {
    w.Preparing? || w.AwaitingRejectionAck? || w.OpeningTemporary? || w.Receiving? || w.Writing?
  }

  predicate AfterSeal(w: Worker) {
    w.Sealing? || w.Verified? || w.Committing? || w.Recording?
  }

  /** How far the worker has come through the queue. */
  predicate QueueInv(worker: Worker, inbound: seq<Option<Chunk>>, content: seq<byte>,
                     arrivals: seq<Option<Chunk>>, consumed: nat) {
    && consumed + |inbound| == |arrivals|
    && arrivals[consumed..] == inbound
    && (BeforeSeal(worker) ==>
          && (forall i | 0 <= i < consumed :: arrivals[i].Some?)
          && BeforeMarker(arrivals[..consumed]) == content + InHand(worker))
    && (AfterSeal(worker) ==>
          consumed > 0 && arrivals[consumed - 1].None? && content == BeforeMarker(arrivals))
  }

  predicate ReceiverInv(s: Slot, m: Monitor) {
    && s.successEnd.None?
    && m.declared == s.declared
    && ReceiverPlace(s.worker, s.phase, s.cancelled)
    && ReceiverBytes(s.phase, s.inboundBytes, s.lateBytes, s.declared, m.taken)
    && ReceiverAcks(s.phase, s.finalEnd, m.accepted, m.last, m.before)
    && RemoteHeld(s.remoteEnd, m.ends)
    && ContentKnown(s.worker, s.transferred, m.checked, m.published)
    && QueueInv(s.worker, s.inbound, s.transferred, m.arrivals, m.consumed)
  }

  predicate SlotInv(h: Hash, s: Slot, m: Monitor) {
    && m.role == Some(s.role)
    && m.crossings == (if s.crossingAckSent then 1 else 0)
    && if s.role.Sender? then SenderInv(h, s, m) else ReceiverInv(s, m)
  }

  /** A slot that has finished is remembered before it leaves the table. */
  predicate EarlyTombInv(t: Tombstone, s: Slot) {
    && s.finalEnd.Some?
    && (t.crossingAckSent ==> s.crossingAckSent)
    && (t.successEnd.Some? ==> t.successEnd == s.successEnd)
    && t.bytesSeen <= s.inboundBytes + s.lateBytes
    && (t.declared.Some? ==> t.declared == s.declared)
  }

  predicate TombInv(t: Tombstone, m: Monitor) {
    && m.role.Some?
    && (m.crossings == 1 ==> t.crossingAckSent)
    && (t.successEnd.Some? ==> t.successEnd == m.success && m.success.value.ok && !m.success.value.ack)
    && (m.role == Some(Sender) ==> OkMeansOwn(Some(t.end), m.success) && AcceptedAreOwn(m.accepted, m.success))
    && Locked(m.accepted, if t.end.ack then Some(t.end) else None, m.before)
    && (m.role == Some(Receiver) ==> m.before.None?)
    && m.taken <= t.bytesSeen
    && (t.declared.Some? ==> t.declared == m.declared)
  }

  predicate Inv(h: Hash, life: Life, m: Monitor) {
    && Safe(m)
    && (life.slot.Some? ==> SlotInv(h, life.slot.value, m))
    && (life.slot.Some? && life.tomb.Some? ==> EarlyTombInv(life.tomb.value, life.slot.value))
    && (life.slot.None? && life.tomb.Some? ==> TombInv(life.tomb.value, m))
    && (forall i | 0 <= i < |life.detached| :: life.detached[i] in m.checked)
    && (life.pendingPut.Some? && life.slot.Some? ==> life.slot.value.role.Receiver?)
  }

  predicate Kept(h: Hash, m: Monitor, o: Outcome) {
    TraceOk(h, m, o.events) && Inv(h, o.life, ObserveAll(m, o.events))
  }

  // ---- Small facts ----------------------------------------------------------

  lemma ObserveOne(h: Hash, m: Monitor, e: Event)
    ensures ObserveAll(m, [e]) == Observe(m, e)
    ensures TraceOk(h, m, [e]) == EventOk(h, m, e)
  {
    assert [e][1..] == [];
  }

  lemma ObserveTwo(h: Hash, m: Monitor, e: Event, f: Event)
    ensures ObserveAll(m, [e, f]) == Observe(Observe(m, e), f)
    ensures TraceOk(h, m, [e, f]) == (EventOk(h, m, e) && EventOk(h, Observe(m, e), f))
  {
    assert [e, f][1..] == [f];
    ObserveOne(h, Observe(m, e), f);
  }

  lemma SmallSets(m: Monitor, only: Option<End>)
    requires Locked(m.accepted, only, m.before)
    ensures |m.accepted| <= 2
    ensures m.before.None? ==> |m.accepted| <= 1
  {
    Smaller(m.accepted, AsSet(only) + AsSet(m.before));
    if only.Some? && m.before.Some? {
      Smaller(AsSet(only) + AsSet(m.before), {only.value, m.before.value});
    }
  }

  lemma {:induction false} Smaller<T>(a: set<T>, b: set<T>)
    requires a <= b
    ensures |a| <= |b|
    decreases |a|
  {
    if a != {} {
      var x :| x in a;
      Smaller(a - {x}, b - {x});
    }
  }

  lemma {:induction false} BeforeMarkerPrefix(a: seq<Option<Chunk>>, b: seq<Option<Chunk>>)
    requires forall i | 0 <= i < |a| :: a[i].Some?
    ensures BeforeMarker(a + b) == BeforeMarker(a) + BeforeMarker(b)
  {
    if a == [] {
      assert a + b == b;
    } else {
      assert (a + b)[1..] == a[1..] + b;
      BeforeMarkerPrefix(a[1..], b);
    }
  }

  lemma {:induction false} BeforeMarkerStops(a: seq<Option<Chunk>>, b: seq<Option<Chunk>>, k: nat)
    requires k < |a| && a[k].None?
    ensures BeforeMarker(a + b) == BeforeMarker(a)
  {
    if k > 0 && a[0].Some? {
      assert (a + b)[1..] == a[1..] + b;
      BeforeMarkerStops(a[1..], b, k - 1);
    }
  }

  // ---- Every step keeps the invariant ---------------------------------------

  lemma StartKeeps(h: Hash, life: Life, m: Monitor, slot: Slot, granted: bool, room: bool, now: int)
    requires Inv(h, life, m) && life.pendingPut.None?
    requires slot == NewSender() || exists total, sha, up :: slot == NewReceiver(total, sha, up)
    ensures Kept(h, m, Start(life, slot, granted, room, now))
  {
    ObserveOne(h, m, Refused);
    ObserveOne(h, m, Started(slot.role, slot.declared));
    ObserveTwo(h, m, Started(slot.role, None), EndSent(FailureEnd(false, "tool_device_busy")));
  }

  lemma SimpleFramesKeep(h: Hash, life: Life, m: Monitor, bytesSent: nat)
    requires Inv(h, life, m)
    ensures Kept(h, m, OnReady(life)) && Kept(h, m, OnProgress(life, bytesSent))
  {
    ObserveOne(h, m, Refused);
  }

  lemma QueueGrows(worker: Worker, inbound: seq<Option<Chunk>>, content: seq<byte>,
                   arrivals: seq<Option<Chunk>>, consumed: nat, item: Option<Chunk>)
    requires QueueInv(worker, inbound, content, arrivals, consumed)
    ensures QueueInv(worker, inbound + [item], content, arrivals + [item], consumed)
  {
    var a := arrivals + [item];
    assert a[consumed..] == arrivals[consumed..] + [item];
    assert a[..consumed] == arrivals[..consumed];
    if AfterSeal(worker) {
      BeforeMarkerStops(arrivals, [item], consumed - 1);
    }
  }

  lemma QueueKeeps(h: Hash, s: Slot, m: Monitor, item: Option<Chunk>)
    requires SlotInv(h, s, m) && s.role.Receiver?
    ensures SlotInv(h, s.(inbound := s.inbound + [item]), Observe(m, Queued(item)))
  {
    QueueGrows(s.worker, s.inbound, s.transferred, m.arrivals, m.consumed, item);
    hide QueueInv, ReceiverPlace, ReceiverBytes, ReceiverAcks, RemoteHeld, ContentKnown;
  }

  lemma SlotSafe(h: Hash, s: Slot, m: Monitor)
    requires SlotInv(h, s, m)
    ensures Safe(m)
  {
    SmallSets(m, if s.role.Sender? then (if IsAck(s.remoteEnd) then s.remoteEnd else None)
                 else (if IsAck(s.finalEnd) then s.finalEnd else None));
  }

  /** Nothing a tombstone already carries is taken back by the slot. */
  predicate Extends(s: Slot, t: Slot) {
    && t.role == s.role
    && t.declared == s.declared
    && (s.finalEnd.Some? ==> t.finalEnd.Some?)
    && (s.crossingAckSent ==> t.crossingAckSent)
    && (s.successEnd.Some? ==> t.successEnd == s.successEnd)
    && s.inboundBytes + s.lateBytes <= t.inboundBytes + t.lateBytes
  }

  lemma LiveInv(h: Hash, life: Life, m: Monitor)
    requires Inv(h, life, m) && life.slot.Some?
    ensures SlotInv(h, life.slot.value, m)
  {
  }

  /** A step that only rewrites the live slot. */
  lemma SlotKeeps(h: Hash, life: Life, m: Monitor, s: Slot, events: seq<Event>, m': Monitor)
    requires Inv(h, life, m) && life.slot.Some?
    requires m' == ObserveAll(m, events) && TraceOk(h, m, events) && m.checked <= m'.checked
    requires SlotInv(h, s, m') && Extends(life.slot.value, s)
    ensures Kept(h, m, Outcome(life.(slot := Some(s)), events))
    ensures Kept(h, m, Outcome(life.(slot := Some(s), pendingPut := None, stalled := None), events))
  {
    SlotSafe(h, s, m');
  }

  lemma PutKeeps(h: Hash, life: Life, m: Monitor, s: Slot, item: Option<Chunk>, events: seq<Event>, m': Monitor)
    requires Inv(h, life, m) && life.slot.Some? && life.pendingPut.None?
    requires m' == ObserveAll(m, events) && TraceOk(h, m, events) && m.checked <= m'.checked
    requires SlotInv(h, s, m') && s.role.Receiver? && Extends(life.slot.value, s)
    ensures Kept(h, m, Put(life, s, item, events))
  {
    if |s.inbound| < TRANSFER_CHUNKS_PER_SLOT {
      ObserveMore(h, m, events, Queued(item));
      QueueKeeps(h, s, m', item);
      SlotKeeps(h, life, m, s.(inbound := s.inbound + [item]), events + [Queued(item)], Observe(m', Queued(item)));
    } else {
      SlotSafe(h, s, m');
    }
  }

  lemma {:induction false} ObserveMore(h: Hash, m: Monitor, events: seq<Event>, e: Event)
    ensures ObserveAll(m, events + [e]) == Observe(ObserveAll(m, events), e)
    ensures TraceOk(h, m, events + [e]) == (TraceOk(h, m, events) && EventOk(h, ObserveAll(m, events), e))
    decreases |events|
  {
    if events == [] {
      assert [] + [e] == [e];
      ObserveOne(h, m, e);
    } else {
      assert (events + [e])[1..] == events[1..] + [e];
      ObserveMore(h, Observe(m, events[0]), events[1..], e);
    }
  }

  lemma TombBinaryKeeps(h: Hash, life: Life, m: Monitor, chunk: Chunk)
    requires Inv(h, life, m) && life.slot.None?
    ensures Kept(h, m, OnBinary(life, chunk))
  {
    ObserveOne(h, m, Refused);
    ObserveOne(h, m, BytesTaken(|chunk|));
  }

  lemma TakenKeeps(h: Hash, s: Slot, m: Monitor, chunk: Chunk)
    requires SlotInv(h, s, m) && s.role.Receiver?
    requires s.declared.Some? ==>
               s.inboundBytes + (if s.phase.Aborted? then s.lateBytes else 0) + |chunk| <= s.declared.value
    ensures s.phase.Aborted? ==>
              SlotInv(h, s.(lateBytes := s.lateBytes + |chunk|), Observe(m, BytesTaken(|chunk|)))
    ensures SlotInv(h, s.(inboundBytes := s.inboundBytes + |chunk|), Observe(m, BytesTaken(|chunk|)))
  {
  }

  lemma LateBinaryKeeps(h: Hash, life: Life, m: Monitor, s: Slot, chunk: Chunk)
    requires Inv(h, life, m) && life.slot == Some(s) && s.role.Receiver? && s.phase.Aborted?
    requires s.declared.Some? && s.inboundBytes + s.lateBytes + |chunk| <= s.declared.value
    ensures Kept(h, m, Outcome(life.(slot := Some(s.(lateBytes := s.lateBytes + |chunk|))), [BytesTaken(|chunk|)]))
  {
    hide Inv, Kept, SlotInv, Safe, ObserveAll, TraceOk;
    LiveInv(h, life, m);
    ObserveOne(h, m, BytesTaken(|chunk|));
    TakenKeeps(h, s, m, chunk);
    SlotKeeps(h, life, m, s.(lateBytes := s.lateBytes + |chunk|), [BytesTaken(|chunk|)],
              Observe(m, BytesTaken(|chunk|)));
  }

  lemma FreshBinaryKeeps(h: Hash, life: Life, m: Monitor, chunk: Chunk, s: Slot)
    requires Inv(h, life, m) && life.pendingPut.None? && life.slot == Some(s)
    requires s.role.Receiver? && (s.phase.Ready? || s.phase.Streaming?)
    requires s.declared.Some? ==> s.inboundBytes + |chunk| <= s.declared.value
    ensures Kept(h, m, Put(life, s.(inboundBytes := s.inboundBytes + |chunk|), Some(chunk), [BytesTaken(|chunk|)]))
  {
    hide Inv, Kept, SlotInv, Safe, ObserveAll, TraceOk;
    LiveInv(h, life, m);
    var taken := BytesTaken(|chunk|);
    ObserveOne(h, m, taken);
    TakenKeeps(h, s, m, chunk);
    PutKeeps(h, life, m, s.(inboundBytes := s.inboundBytes + |chunk|), Some(chunk), [taken], Observe(m, taken));
  }

  lemma BinaryKeeps(h: Hash, life: Life, m: Monitor, chunk: Chunk)
    requires Inv(h, life, m) && life.pendingPut.None?
    ensures Kept(h, m, OnBinary(life, chunk))
  {
    hide Kept, Inv;
    RefusedKeeps(h, life, m);
    if life.slot.None? {
      TombBinaryKeeps(h, life, m, chunk);
    } else {
      var s := life.slot.value;
      if s.role.Receiver? && (s.phase.Ready? || s.phase.Streaming?) {
        if !(s.declared.Some? && s.inboundBytes + |chunk| > s.declared.value) {
          FreshBinaryKeeps(h, life, m, chunk, s);
        }
      } else if OnBinary(life, chunk).events != [Refused] {
        LateBinaryKeeps(h, life, m, s, chunk);
      }
    }
  }

  lemma RefusedKeeps(h: Hash, life: Life, m: Monitor)
    requires Inv(h, life, m)
    ensures Kept(h, m, Outcome(life, [Refused])) && Kept(h, m, Outcome(life, []))
  {
    ObserveOne(h, m, Refused);
  }

  /** Failure terminals change nothing that is observed. */
  lemma FailureIsNeutral(h: Hash, m: Monitor, s: Slot, end: End, room: bool)
    requires !end.ok
    ensures var (_, sent) := WithEnd(s, end, room); ObserveAll(m, sent) == m && TraceOk(h, m, sent)
  {
    ObserveOne(h, m, EndSent(end));
  }

  lemma FailureAfterIsNeutral(h: Hash, m: Monitor, e: Event, s: Slot, end: End, room: bool)
    requires !end.ok
    ensures var (_, sent) := WithEnd(s, end, room);
            ObserveAll(m, [e] + sent) == Observe(m, e) && TraceOk(h, m, [e] + sent) == EventOk(h, m, e)
  {
    ObserveOne(h, m, e);
    ObserveTwo(h, m, e, EndSent(end));
    var (_, sent) := WithEnd(s, end, room);
    assert [e] + sent == if room then [e, EndSent(end)] else [e];
  }

  // A live slot and a terminal frame.

  lemma AckKeepsSender(h: Hash, s: Slot, m: Monitor, end: End)
    requires s.role.Sender? && SenderInv(h, s, m) && LiveAccepts(s, end)
    ensures SenderInv(h, Acknowledged(s, end), Observe(m, AckAccepted(end)))
  {
    assert OkMeansOwn(Some(end), s.successEnd);
  }

  lemma AckKeepsReceiver(h: Hash, s: Slot, m: Monitor, end: End)
    requires s.role.Receiver? && ReceiverInv(s, m) && LiveAccepts(s, end)
    ensures ReceiverInv(Acknowledged(s, end), Observe(m, AckAccepted(end)))
  {
  }

  lemma AckKeepsSlot(h: Hash, s: Slot, m: Monitor, end: End)
    requires SlotInv(h, s, m) && LiveAccepts(s, end)
    ensures SlotInv(h, Acknowledged(s, end), Observe(m, AckAccepted(end)))
  {
    hide SenderInv, ReceiverInv, LiveAccepts;
    if s.role.Sender? {
      AckKeepsSender(h, s, m, end);
    } else {
      AckKeepsReceiver(h, s, m, end);
    }
  }

  lemma PeerFailureKeepsSender(h: Hash, s: Slot, m: Monitor, end: End, room: bool)
    requires s.role.Sender? && SenderInv(h, s, m) && !end.ok && !end.ack && GivesWay(s)
    ensures SenderInv(h, WithEnd(GaveWay(s, end), FailureEnd(true, end.code.value), room).0,
                      Observe(m, PeerFailed(end)))
  {
  }

  lemma PeerFailureKeepsReceiver(h: Hash, s: Slot, m: Monitor, end: End, room: bool)
    requires s.role.Receiver? && ReceiverInv(s, m) && !end.ok && !end.ack && GivesWay(s)
    ensures ReceiverInv(WithEnd(GaveWay(s, end), FailureEnd(true, end.code.value), room).0, Observe(m, PeerFailed(end)))
  {
  }

  lemma PeerFailureKeepsSlot(h: Hash, s: Slot, m: Monitor, end: End, room: bool)
    requires SlotInv(h, s, m) && !end.ok && !end.ack && GivesWay(s)
    ensures SlotInv(h, WithEnd(GaveWay(s, end), FailureEnd(true, end.code.value), room).0, Observe(m, PeerFailed(end)))
    ensures Extends(s, WithEnd(GaveWay(s, end), FailureEnd(true, end.code.value), room).0)
  {
    hide SenderInv, ReceiverInv, GivesWay;
    if s.role.Sender? {
      PeerFailureKeepsSender(h, s, m, end, room);
    } else {
      PeerFailureKeepsReceiver(h, s, m, end, room);
    }
  }

  lemma CrossingKeepsSlot(h: Hash, s: Slot, m: Monitor, end: End)
    requires SlotInv(h, s, m) && !s.crossingAckSent
    ensures SlotInv(h, s.(crossingAckSent := true), Observe(m, CrossingAck(end)))
  {
  }

  lemma EndHeldKeepsSlot(h: Hash, s: Slot, m: Monitor, end: End)
    requires SlotInv(h, s, m) && s.role.Receiver? && (s.phase.Ready? || s.phase.Streaming?) && end.ok && !end.ack
    ensures SlotInv(h, s.(remoteEnd := Some(end), phase := SenderEnded), Observe(m, EndHeld(end)))
  {
  }

  lemma CrossingKeeps(h: Hash, life: Life, m: Monitor, s: Slot, end: End)
    requires Inv(h, life, m) && life.slot == Some(s) && !s.crossingAckSent
    ensures Kept(h, m, Outcome(life.(slot := Some(s.(crossingAckSent := true))), [CrossingAck(end)]))
  {
    hide Inv, Kept, SlotInv, Safe, ObserveAll, TraceOk;
    LiveInv(h, life, m);
    ObserveOne(h, m, CrossingAck(end));
    CrossingKeepsSlot(h, s, m, end);
    SlotKeeps(h, life, m, s.(crossingAckSent := true), [CrossingAck(end)], Observe(m, CrossingAck(end)));
  }

  lemma AckKeeps(h: Hash, life: Life, m: Monitor, s: Slot, end: End)
    requires Inv(h, life, m) && life.slot == Some(s) && LiveAccepts(s, end)
    ensures Kept(h, m, Outcome(life.(slot := Some(Acknowledged(s, end))), [AckAccepted(end)]))
  {
    hide Inv, Kept, SlotInv, Safe, ObserveAll, TraceOk;
    LiveInv(h, life, m);
    hide LiveAccepts;
    ObserveOne(h, m, AckAccepted(end));
    AckKeepsSlot(h, s, m, end);
    SlotKeeps(h, life, m, Acknowledged(s, end), [AckAccepted(end)], Observe(m, AckAccepted(end)));
  }

  lemma PeerFailureKeeps(h: Hash, life: Life, m: Monitor, s: Slot, end: End, room: bool)
    requires Inv(h, life, m) && life.slot == Some(s) && !end.ok && !end.ack && GivesWay(s)
    ensures var (done, sent) := WithEnd(GaveWay(s, end), FailureEnd(true, end.code.value), room);
            Kept(h, m, Outcome(life.(slot := Some(done)), [PeerFailed(end)] + sent))
  {
    hide Inv, Kept, SlotInv, Safe, ObserveAll, TraceOk;
    LiveInv(h, life, m);
    hide WithEnd, GaveWay, Extends;
    var (done, sent) := WithEnd(GaveWay(s, end), FailureEnd(true, end.code.value), room);
    PeerFailureKeepsSlot(h, s, m, end, room);
    FailureAfterIsNeutral(h, m, PeerFailed(end), GaveWay(s, end), FailureEnd(true, end.code.value), room);
    SlotKeeps(h, life, m, done, [PeerFailed(end)] + sent, Observe(m, PeerFailed(end)));
  }

  lemma EndHeldKeeps(h: Hash, life: Life, m: Monitor, s: Slot, end: End)
    requires Inv(h, life, m) && life.slot == Some(s) && life.pendingPut.None?
    requires s.role.Receiver? && (s.phase.Ready? || s.phase.Streaming?) && end.ok && !end.ack
    ensures Kept(h, m, Put(life, s.(remoteEnd := Some(end), phase := SenderEnded), None, [EndHeld(end)]))
  {
    hide Inv, Kept, SlotInv, Safe, ObserveAll, TraceOk;
    LiveInv(h, life, m);
    ObserveOne(h, m, EndHeld(end));
    EndHeldKeepsSlot(h, s, m, end);
    PutKeeps(h, life, m, s.(remoteEnd := Some(end), phase := SenderEnded), None, [EndHeld(end)],
             Observe(m, EndHeld(end)));
  }

  lemma LiveEndKeeps(h: Hash, life: Life, m: Monitor, s: Slot, end: End, room: bool)
    requires Inv(h, life, m) && life.slot == Some(s) && life.pendingPut.None?
    ensures Kept(h, m, OnEndLive(life, s, end, room))
  {
    hide Kept, Inv, LiveAccepts, Put, WithEnd, GaveWay, Acknowledged;
    RefusedKeeps(h, life, m);
    if !end.ack && !end.ok && s.phase.Aborted? && s.localFailure == Some(end) {
      if !s.crossingAckSent {
        CrossingKeeps(h, life, m, s, end);
      }
    } else if !end.ack && !end.ok && s.phase.Aborted? && s.remoteFailure == Some(end) {
    } else if end.ack {
      if LiveAccepts(s, end) {
        AckKeeps(h, life, m, s, end);
      }
    } else if !end.ok && GivesWay(s) {
      PeerFailureKeeps(h, life, m, s, end, room);
    } else if s.role.Receiver? && (s.phase.Ready? || s.phase.Streaming?) {
      EndHeldKeeps(h, life, m, s, end);
    }
  }

  // A tombstone and a terminal frame.

  lemma TombAckKeeps(h: Hash, life: Life, m: Monitor, t: Tombstone, end: End)
    requires Inv(h, life, m) && life.slot.None? && life.tomb == Some(t) && TombAccepts(t, end)
    ensures Kept(h, m, Outcome(life.(tomb := Some(t.(end := end))), [AckAccepted(end)]))
  {
    var m' := Observe(m, AckAccepted(end));
    ObserveOne(h, m, AckAccepted(end));
    assert t.end.ack ==> end == t.end;
    assert Locked(m'.accepted, Some(end), m'.before);
    SmallSets(m', Some(end));
  }

  lemma TombEndKeeps(h: Hash, life: Life, m: Monitor, t: Tombstone, end: End, room: bool)
    requires Inv(h, life, m) && life.slot.None? && life.tomb == Some(t)
    ensures Kept(h, m, OnEndTombstone(life, t, end, room))
  {
    RefusedKeeps(h, life, m);
    if !end.ack && !end.ok && t.localFailure == Some(end) {
      ObserveOne(h, m, CrossingAck(end));
    } else if !end.ack && !end.ok && t.remoteFailure == Some(end) {
    } else if end.ack && (SameTerminal(t, end) || AcceptsChosenAck(t, end)) {
      TombAckKeeps(h, life, m, t, end);
      if t.end.ack {
        assert t.(end := end) == t;
      }
    }
  }

  lemma EndKeeps(h: Hash, life: Life, m: Monitor, end: End, room: bool)
    requires Inv(h, life, m) && life.pendingPut.None?
    ensures Kept(h, m, OnEnd(life, end, room))
  {
    hide Kept, Inv, OnEndLive, OnEndTombstone;
    RefusedKeeps(h, life, m);
    if life.closed {
    } else if life.slot.Some? {
      LiveEndKeeps(h, life, m, life.slot.value, end, room);
    } else if life.tomb.Some? {
      TombEndKeeps(h, life, m, life.tomb.value, end, room);
    }
  }

  // ---- Worker resumptions ---------------------------------------------------

  predicate SlotStepOk(h: Hash, s: Slot, m: Monitor, t: Slot, events: seq<Event>) {
    && TraceOk(h, m, events)
    && SlotInv(h, t, ObserveAll(m, events))
    && m.checked <= ObserveAll(m, events).checked
    && Extends(s, t)
  }

  lemma SlotStepKeeps(h: Hash, life: Life, m: Monitor, t: Slot, events: seq<Event>)
    requires Inv(h, life, m) && life.slot.Some? && SlotStepOk(h, life.slot.value, m, t, events)
    ensures Kept(h, m, Outcome(life.(slot := Some(t)), events))
    ensures Kept(h, m, Outcome(life.(slot := Some(t), pendingPut := None, stalled := None), events))
  {
    hide Inv, Kept, SlotInv, ObserveAll, TraceOk, Extends;
    SlotKeeps(h, life, m, t, events, ObserveAll(m, events));
  }

  lemma SenderStartsOk(h: Hash, s: Slot, m: Monitor, room: bool)
    requires SlotInv(h, s, m) && s.role.Sender? && !s.cancelled
    ensures s.worker.Opening? ==> SlotStepOk(h, s, m, SenderOpened(s, room), [])
    ensures s.worker.AwaitingReady? ==> SlotStepOk(h, s, m, s.(worker := Reading), [])
  {
  }

  lemma SourceChunkOk(h: Hash, s: Slot, m: Monitor, chunk: Chunk)
    requires SlotInv(h, s, m) && s.worker.Reading?
    ensures SlotStepOk(h, s, m, s.(transferred := s.transferred + chunk), [SourceRead(chunk)])
  {
    ObserveOne(h, m, SourceRead(chunk));
  }

  lemma SenderVerifiedOk(h: Hash, s: Slot, m: Monitor, room: bool)
    requires SlotInv(h, s, m) && s.worker.Reading? && !s.cancelled
    ensures SlotStepOk(h, s, m, SenderVerified(h, s, room).0, SenderVerified(h, s, room).1)
  {
    ObserveOne(h, m, EndSent(SuccessEnd(false, |s.transferred|, h(s.transferred))));
  }

  lemma ResolveOk(h: Hash, s: Slot, m: Monitor)
    requires SlotInv(h, s, m) && (s.worker.AwaitingAck? || s.worker.AwaitingFailureAck?)
    ensures SlotStepOk(h, s, m, ResolveFailureAck(s), [])
  {
  }

  lemma SenderAborts(h: Hash, s: Slot, m: Monitor, final: Option<End>, local: Option<End>, next: Worker)
    requires SenderInv(h, s, m) && !s.cancelled
    requires final == s.finalEnd || (final.Some? && !final.value.ok && !IsAck(s.remoteEnd))
    requires next.AwaitingFailureAck? || next.Finishing?
    ensures SenderInv(h, s.(phase := Aborted, finalEnd := final, localFailure := local, worker := next), m)
  {
    hide Locked, AcceptedAreOwn, SameSizeAndDigest;
  }

  lemma SenderFailsInv(h: Hash, s: Slot, m: Monitor, code: string, room: bool)
    requires SenderInv(h, s, m) && s.role.Sender? && !s.cancelled
    requires s.worker.Opening? || s.worker.AwaitingReady? || s.worker.Reading? || s.worker.AwaitingAck?
    ensures SenderInv(h, SenderFails(s, code, room).0, m)
    ensures Extends(s, SenderFails(s, code, room).0)
  {
    var t := SenderFails(s, code, room).0;
    assert IsAck(s.remoteEnd) ==> s.finalEnd == s.remoteEnd && s.senderAck && !s.phase.Requested?;
    hide SenderInv;
    SenderAborts(h, s, m, t.finalEnd, t.localFailure, t.worker);
    assert t == s.(phase := Aborted, finalEnd := t.finalEnd, localFailure := t.localFailure, worker := t.worker);
  }

  lemma SenderFailsOk(h: Hash, s: Slot, m: Monitor, code: string, room: bool)
    requires SlotInv(h, s, m) && s.role.Sender? && !s.cancelled
    requires s.worker.Opening? || s.worker.AwaitingReady? || s.worker.Reading? || s.worker.AwaitingAck?
    ensures SlotStepOk(h, s, m, SenderFails(s, code, room).0, SenderFails(s, code, room).1)
  {
    hide SenderInv, ReceiverInv, TraceOk, ObserveAll;
    SenderFailsInv(h, s, m, code, room);
    FailureIsNeutral(h, m, s.(phase := Aborted), FailureEnd(false, code), room);
  }

  lemma ReservedOk(h: Hash, s: Slot, m: Monitor, room: bool)
    requires SlotInv(h, s, m) && s.role.Receiver? && !s.cancelled && s.worker.Preparing?
    ensures SlotStepOk(h, s, m, ReceiverReserved(s, room), [])
  {
  }

  lemma ReceiverMovesOn(h: Hash, s: Slot, m: Monitor, next: Worker)
    requires SlotInv(h, s, m) && s.role.Receiver? && !s.cancelled
    requires || (s.worker.AwaitingRejectionAck? && next.Finishing?)
             || (s.worker.OpeningTemporary? && next.Receiving?)
             || (s.worker.Verified? && next.Committing?)
    ensures SlotStepOk(h, s, m, s.(worker := next), [])
  {
  }

  lemma ReservationFailsOk(h: Hash, s: Slot, m: Monitor, code: string, room: bool)
    requires SlotInv(h, s, m) && s.worker.Preparing? && !s.cancelled
    ensures SlotStepOk(h, s, m, ReservationFails(s, code, room).0, ReservationFails(s, code, room).1)
  {
    FailureIsNeutral(h, m, s.(phase := Aborted), FailureEnd(false, code), room);
  }

  lemma MarkerGetsQueue(s: Slot, m: Monitor)
    requires ReceiverInv(s, m) && s.worker.Receiving? && s.inbound != [] && s.inbound[0].None?
    ensures QueueInv(Sealing, s.inbound[1..], s.transferred, m.arrivals, m.consumed + 1)
  {
    var read, rest := m.arrivals[..m.consumed], m.arrivals[m.consumed..];
    assert m.arrivals == read + rest;
    BeforeMarkerPrefix(read, rest);
    assert rest[1..] == m.arrivals[m.consumed + 1..];
  }

  lemma ChunkReadNext(arrivals: seq<Option<Chunk>>, n: nat, chunk: Chunk)
    requires n < |arrivals| && (forall i | 0 <= i < n :: arrivals[i].Some?) && arrivals[n] == Some(chunk)
    ensures BeforeMarker(arrivals[..n + 1]) == BeforeMarker(arrivals[..n]) + chunk
  {
    var one: seq<Option<Chunk>> := [Some(chunk)];
    assert arrivals[..n + 1] == arrivals[..n] + one;
    BeforeMarkerPrefix(arrivals[..n], one);
    assert BeforeMarker(one) == chunk + BeforeMarker(one[1..]);
  }

  lemma ChunkGetsQueue(s: Slot, m: Monitor, chunk: Chunk, next: Worker)
    requires ReceiverInv(s, m) && s.worker.Receiving? && s.inbound != [] && s.inbound[0] == Some(chunk)
    requires next == if chunk == [] then Receiving else Writing(chunk)
    ensures QueueInv(next, s.inbound[1..], s.transferred, m.arrivals, m.consumed + 1)
  {
    hide BeforeMarker;
    assert m.arrivals[m.consumed] == Some(chunk);
    ChunkReadNext(m.arrivals, m.consumed, chunk);
    assert m.arrivals[m.consumed..][1..] == m.arrivals[m.consumed + 1..];
    assert s.transferred + InHand(s.worker) + chunk == s.transferred + InHand(next);
  }

  lemma ReceiverGetsInv(s: Slot, m: Monitor)
    requires ReceiverInv(s, m) && s.worker.Receiving? && !s.cancelled && s.inbound != []
    ensures ReceiverInv(ReceiverGets(s), Observe(m, Dequeued))
  {
    hide QueueInv, ReceiverBytes, ReceiverAcks, RemoteHeld;
    var next := ReceiverGets(s);
    GetsPlace(s, m);
    assert QueueInv(next.worker, next.inbound, next.transferred, m.arrivals, m.consumed + 1) by {
      match s.inbound[0]
      case None => MarkerGetsQueue(s, m);
      case Some(chunk) => ChunkGetsQueue(s, m, chunk, if chunk == [] then Receiving else Writing(chunk));
    }
  }

  lemma GetsPlace(s: Slot, m: Monitor)
    requires s.worker.Receiving? && s.inbound != []
    requires ReceiverPlace(s.worker, s.phase, s.cancelled)
             && ContentKnown(s.worker, s.transferred, m.checked, m.published)
    ensures var next := ReceiverGets(s);
            && ReceiverPlace(next.worker, s.phase, s.cancelled)
            && ContentKnown(next.worker, s.transferred, m.checked, m.published)
  {
  }

  lemma ReceiverGetsOk(h: Hash, s: Slot, m: Monitor)
    requires SlotInv(h, s, m) && s.role.Receiver? && s.worker.Receiving? && !s.cancelled && s.inbound != []
    ensures SlotStepOk(h, s, m, ReceiverGets(s), [Dequeued])
  {
    hide ReceiverInv, SenderInv;
    ReceiverGetsInv(s, m);
    ObserveOne(h, m, Dequeued);
  }

  lemma ReceiverWroteOk(h: Hash, s: Slot, m: Monitor)
    requires SlotInv(h, s, m) && s.worker.Writing? && !s.cancelled
    ensures SlotStepOk(h, s, m, ReceiverWrote(s), [])
  {
  }

  lemma ReceiverFailsInv(h: Hash, s: Slot, m: Monitor, code: string, room: bool)
    requires SlotInv(h, s, m) && s.role.Receiver? && MayFail(s.worker) && !s.cancelled
    ensures SlotInv(h, ReceiverFails(s, code, room).0, m)
    ensures Extends(s, ReceiverFails(s, code, room).0)
  {
  }

  lemma ReceiverFailsOk(h: Hash, s: Slot, m: Monitor, code: string, room: bool)
    requires SlotInv(h, s, m) && s.role.Receiver? && MayFail(s.worker) && !s.cancelled
    ensures SlotStepOk(h, s, m, ReceiverFails(s, code, room).0, ReceiverFails(s, code, room).1)
  {
    ReceiverFailsInv(h, s, m, code, room);
    hide SlotInv, Extends, TraceOk, ObserveAll;
    FailureIsNeutral(h, m, s.(phase := Aborted), FailureEnd(s.remoteEnd.Some?, code), room);
  }

  lemma CheckedOk(h: Hash, s: Slot, m: Monitor)
    requires SlotInv(h, s, m) && s.worker.Sealing? && !s.cancelled
    requires s.remoteEnd.Some? && Describes(h, s.remoteEnd.value, s.transferred)
    requires s.declared.Some? ==> |s.transferred| == s.declared.value
    ensures SlotStepOk(h, s, m, s.(worker := Verified), [Checked(s.remoteEnd.value, s.transferred)])
  {
    ObserveOne(h, m, Checked(s.remoteEnd.value, s.transferred));
  }

  lemma ReceiverSealedOk(h: Hash, s: Slot, m: Monitor, room: bool)
    requires SlotInv(h, s, m) && s.role.Receiver? && s.worker.Sealing? && !s.cancelled
    ensures SlotStepOk(h, s, m, ReceiverSealed(h, s, room).0, ReceiverSealed(h, s, room).1)
  {
    hide SlotInv, SlotStepOk, ReceiverFails;
    match SealError(h, s)
    case Some(code) => ReceiverFailsOk(h, s, m, code, room);
    case None => CheckedOk(h, s, m);
  }

  lemma PublishedOk(h: Hash, s: Slot, m: Monitor)
    requires SlotInv(h, s, m) && s.worker.Committing? && !s.cancelled
    ensures SlotStepOk(h, s, m, s.(phase := Committed, worker := Recording), [Published(s.transferred)])
  {
    ObserveOne(h, m, Published(s.transferred));
  }

  // ---- Being remembered -----------------------------------------------------

  lemma RememberedEarly(existing: Option<Tombstone>, s: Slot, now: int)
    requires s.finalEnd.Some? && (existing.Some? ==> EarlyTombInv(existing.value, s))
    ensures RememberSlot(existing, s, now).Some? && EarlyTombInv(RememberSlot(existing, s, now).value, s)
  {
  }

  lemma RememberedSender(h: Hash, existing: Option<Tombstone>, s: Slot, m: Monitor, now: int)
    requires SlotInv(h, s, m) && s.role.Sender? && s.finalEnd.Some?
    requires existing.Some? ==> EarlyTombInv(existing.value, s)
    ensures TombInv(RememberSlot(existing, s, now).value, m)
  {
  }

  lemma RememberedReceiver(h: Hash, existing: Option<Tombstone>, s: Slot, m: Monitor, now: int)
    requires SlotInv(h, s, m) && s.role.Receiver? && s.finalEnd.Some?
    requires existing.Some? ==> EarlyTombInv(existing.value, s)
    ensures TombInv(RememberSlot(existing, s, now).value, m)
  {
    hide QueueInv;
  }

  lemma RetireKeeps(h: Hash, life: Life, m: Monitor, now: int)
    requires Inv(h, life, m) && life.slot.Some?
    ensures Inv(h, Retire(life, now), m)
  {
    hide SlotInv, TombInv, Safe;
    var s := life.slot.value;
    if s.finalEnd.Some? {
      if s.role.Sender? {
        RememberedSender(h, life.tomb, s, m, now);
      } else {
        RememberedReceiver(h, life.tomb, s, m, now);
      }
    }
  }

  /** The slot is remembered while it is still in the table. */
  lemma FinishKeeps(h: Hash, life: Life, m: Monitor, s: Slot, events: seq<Event>, now: int)
    requires Inv(h, life, m) && life.slot.Some? && SlotStepOk(h, life.slot.value, m, s, events) && s.finalEnd.Some?
    ensures Kept(h, m, Outcome(life.(slot := Some(s), tomb := RememberSlot(life.tomb, s, now)), events))
  {
    hide SlotInv, Safe, RememberSlot, ObserveAll, TraceOk;
    SlotStepKeeps(h, life, m, s, events);
    RememberedEarly(life.tomb, s, now);
  }

  lemma SenderAckedKeeps(h: Hash, life: Life, m: Monitor, s: Slot, room: bool, now: int)
    requires Inv(h, life, m) && life.slot == Some(s) && s.role.Sender? && s.worker.AwaitingAck? && !s.cancelled
    ensures Kept(h, m, SenderAcked(h, life, s, room, now))
  {
    LiveInv(h, life, m);
    hide Inv, Kept;
    if s.remoteEnd.None? || !s.remoteEnd.value.ok {
      ResolveOk(h, s, m);
      hide SlotInv;
      SlotStepKeeps(h, life, m, ResolveFailureAck(s), []);
    } else {
      AckIsOwn(h, s, m);
      var done := s.(finalEnd := s.remoteEnd, worker := Finishing);
      AckFinishOk(h, s, m);
      hide SlotInv, SlotStepOk, RememberSlot;
      FinishKeeps(h, life, m, done, [], now);
    }
  }

  /** A success acknowledgement held by a sender describes what that sender read. */
  lemma AckIsOwn(h: Hash, s: Slot, m: Monitor)
    requires SlotInv(h, s, m) && s.role.Sender? && s.remoteEnd.Some? && s.remoteEnd.value.ok
    ensures Describes(h, s.remoteEnd.value, s.transferred)
  {
  }

  lemma AckFinishOk(h: Hash, s: Slot, m: Monitor)
    requires SlotInv(h, s, m) && s.role.Sender? && s.worker.AwaitingAck? && s.remoteEnd.Some? && s.remoteEnd.value.ok
    ensures SlotStepOk(h, s, m, s.(finalEnd := s.remoteEnd, worker := Finishing), [])
  {
  }

  /** The commit acknowledgement names the size and digest of what was published. */
  lemma AnnouncedOk(h: Hash, s: Slot, m: Monitor, end: End, events: seq<Event>)
    requires SlotInv(h, s, m) && s.role.Receiver? && !s.phase.Aborted? && !s.cancelled
    requires end.ack && Describes(h, end, s.transferred)
    requires || (events == [EndSent(end)] && s.transferred in m.published)
             || (events == [Published(s.transferred), EndSent(end)] && s.transferred in m.checked)
    ensures SlotStepOk(h, s, m, s.(phase := Committed, finalEnd := Some(end), worker := Finishing), events)
  {
    ObserveOne(h, m, EndSent(end));
    ObserveTwo(h, m, Published(s.transferred), EndSent(end));
  }

  lemma CommittedSilentlyOk(h: Hash, s: Slot, m: Monitor, events: seq<Event>)
    requires SlotInv(h, s, m) && s.role.Receiver? && !s.phase.Aborted? && !s.cancelled
    requires events == [] || (events == [Published(s.transferred)] && s.transferred in m.checked)
    ensures SlotStepOk(h, s, m, s.(phase := Committed, worker := Finishing), events)
  {
    ObserveOne(h, m, Published(s.transferred));
  }

  lemma CommitFacts(h: Hash, life: Life, m: Monitor, s: Slot)
    requires Inv(h, life, m) && life.slot == Some(s)
    requires s.role.Receiver? && !s.cancelled && (s.worker.Recording? || s.worker.Committing?)
    ensures SlotInv(h, s, m) && !s.phase.Aborted? && s.transferred in m.checked
    ensures s.worker.Recording? ==> s.transferred in m.published && s.phase.Committed?
  {
  }

  lemma FinishedKeeps(h: Hash, life: Life, m: Monitor, s: Slot, end: End, room: bool, now: int, pre: seq<Event>)
    requires Inv(h, life, m) && life.slot == Some(s)
    requires s.role.Receiver? && !s.cancelled && end.ack && Describes(h, end, s.transferred)
    requires (s.worker.Recording? && pre == []) || (s.worker.Committing? && pre == [Published(s.transferred)])
    ensures var (next, sent) := Finish(life, s.(phase := Committed), end, room, now);
            Kept(h, m, Outcome(next, pre + sent))
  {
    hide Inv, Kept, SlotInv, SlotStepOk, RememberSlot, Describes;
    CommitFacts(h, life, m, s);
    if room {
      assert pre + [EndSent(end)] == if pre == [] then [EndSent(end)] else [Published(s.transferred), EndSent(end)];
      AnnouncedOk(h, s, m, end, pre + [EndSent(end)]);
      FinishKeeps(h, life, m, s.(phase := Committed, finalEnd := Some(end), worker := Finishing),
                  pre + [EndSent(end)], now);
    } else {
      CommittedSilentlyOk(h, s, m, pre);
      assert pre + [] == pre;
      SlotStepKeeps(h, life, m, s.(phase := Committed, worker := Finishing), pre);
    }
  }

  // ---- Cancellation, shutdown, forgetting -----------------------------------

  lemma FinishingOk(h: Hash, s: Slot, m: Monitor)
    requires SlotInv(h, s, m)
    ensures SlotStepOk(h, s, m, s.(worker := Finishing), [])
    ensures SlotStepOk(h, s, m, s.(cleaning := true), [])
    ensures SlotStepOk(h, s, m, s.(cancelled := true), [])
  {
  }

  lemma CancelKeeps(h: Hash, life: Life, m: Monitor, s: Slot)
    requires Inv(h, life, m) && life.slot == Some(s)
    ensures Kept(h, m, Outcome(DeliverCancel(life, s), []))
  {
    LiveInv(h, life, m);
    PublishingIsChecked(h, s, m);
    FinishingOk(h, s, m);
    hide SlotInv, Safe, SlotStepOk;
    SlotStepKeeps(h, life, m, s.(worker := Finishing), []);
  }

  lemma PublishingIsChecked(h: Hash, s: Slot, m: Monitor)
    requires SlotInv(h, s, m)
    ensures s.worker.Committing? ==> s.transferred in m.checked
  {
  }

  lemma AbortOk(h: Hash, s: Slot, m: Monitor, code: string, room: bool)
    requires SlotInv(h, s, m) && s.role.Receiver?
    ensures SlotStepOk(h, s, m, AbortReceiver(s, code, room).0, AbortReceiver(s, code, room).1)
  {
    FailureIsNeutral(h, m, s.(phase := Aborted, cancelled := true), FailureEnd(false, code), room);
  }

  lemma ClosingEndOk(h: Hash, s: Slot, m: Monitor, room: bool)
    requires SlotInv(h, s, m) && s.finalEnd.None?
    ensures var (t, sent) := WithEnd(s, FailureEnd(false, "peer_disconnected"), room); SlotStepOk(h, s, m, t, sent)
  {
    FailureIsNeutral(h, m, s, FailureEnd(false, "peer_disconnected"), room);
  }

  lemma PutAgainKeeps(h: Hash, life: Life, m: Monitor)
    requires Inv(h, life, m) && life.pendingPut.Some?
    requires life.slot.Some? ==> |life.slot.value.inbound| < TRANSFER_CHUNKS_PER_SLOT
    ensures Kept(h, m, PutResumes(life))
  {
    if life.slot.Some? {
      PutKeeps(h, life.(pendingPut := None, stalled := None), m, life.slot.value, life.pendingPut.value, [], m);
    }
  }

  lemma PutTimeoutKeeps(h: Hash, life: Life, m: Monitor, room: bool)
    requires Inv(h, life, m) && life.pendingPut.Some?
    ensures Kept(h, m, PutTimesOut(life, room))
  {
    if life.slot.Some? {
      LiveInv(h, life, m);
      AbortOk(h, life.slot.value, m, TIMEOUT_CODE, room);
      hide SlotInv, SlotStepOk, Inv, Kept, AbortReceiver;
      var (t, sent) := AbortReceiver(life.slot.value, TIMEOUT_CODE, room);
      SlotStepKeeps(h, life, m, t, sent);
    } else if life.stalled.Some? {
      LateAbort(h, life.stalled.value, m, room);
    }
  }

  /** The terminal of a slot that was retired while the reader waited. */
  lemma LateAbort(h: Hash, s: Slot, m: Monitor, room: bool)
    ensures var sent := AbortReceiver(s, TIMEOUT_CODE, room).1; TraceOk(h, m, sent) && ObserveAll(m, sent) == m
  {
    ObserveOne(h, m, EndSent(FailureEnd(false, TIMEOUT_CODE)));
  }

  lemma StaysOk(h: Hash, s: Slot, m: Monitor)
    requires SlotInv(h, s, m)
    ensures SlotStepOk(h, s, m, s, [])
  {
  }

  lemma StoppedOk(h: Hash, s: Slot, m: Monitor, t: Slot, sent: seq<Event>)
    requires SlotStepOk(h, s, m, t, sent)
    ensures SlotStepOk(h, s, m, t.(cancelled := t.cancelled || !t.cleaning), sent)
  {
    hide ObserveAll, TraceOk;
    FinishingOk(h, t, ObserveAll(m, sent));
  }

  lemma MarkedOk(h: Hash, s: Slot, m: Monitor, t: Slot, sent: seq<Event>)
    requires SlotStepOk(h, s, m, t, sent) && t.role.Receiver?
    ensures SlotStepOk(h, s, m, t.(inbound := t.inbound + [None]), sent + [Queued(None)])
  {
    hide SlotInv;
    ObserveMore(h, m, sent, Queued(None));
    QueueKeeps(h, t, ObserveAll(m, sent), None);
  }

  lemma ClosingOk(h: Hash, s: Slot, m: Monitor, room: bool)
    requires SlotInv(h, s, m)
    ensures SlotStepOk(h, s, m, Closing(s, room).0, Closing(s, room).1)
  {
    hide SlotInv, SlotStepOk, WithEnd;
    var (ended, sent) :=
      if s.finalEnd.None? then WithEnd(s, FailureEnd(false, "peer_disconnected"), room) else (s, []);
    if s.finalEnd.None? {
      ClosingEndOk(h, s, m, room);
    } else {
      StaysOk(h, s, m);
    }
    StoppedOk(h, s, m, ended, sent);
    if ended.role.Receiver? {
      MarkedOk(h, s, m, ended.(cancelled := ended.cancelled || !ended.cleaning), sent);
    }
  }

  lemma ClosedKeeps(h: Hash, m: Monitor, o: Outcome)
    requires Kept(h, m, o)
    ensures Kept(h, m, o.(life := o.life.(closed := true)))
  {
  }

  lemma ShutdownKeeps(h: Hash, life: Life, m: Monitor, room: bool)
    requires Inv(h, life, m)
    ensures Kept(h, m, ShutdownStep(life, room))
  {
    RefusedKeeps(h, life, m);
    if life.slot.Some? {
      LiveInv(h, life, m);
    }
    hide Inv, Kept, SlotInv, Closing;
    if life.slot.Some? {
      var (t, events) := Closing(life.slot.value, room);
      ClosingOk(h, life.slot.value, m, room);
      SlotStepKeeps(h, life, m, t, events);
      ClosedKeeps(h, m, Outcome(life.(slot := Some(t)), events));
    } else {
      ClosedKeeps(h, m, Outcome(life, []));
    }
  }

  lemma ForgettingKeeps(h: Hash, life: Life, m: Monitor)
    requires Inv(h, life, m)
    ensures Kept(h, m, Outcome(life.(tomb := None), []))
  {
  }

  lemma DetachedKeeps(h: Hash, life: Life, m: Monitor, i: nat)
    requires Inv(h, life, m) && i < |life.detached|
    ensures var rest := life.detached[..i] + life.detached[i + 1..];
            Kept(h, m, Outcome(life.(detached := rest), [Published(life.detached[i])]))
  {
    ObserveOne(h, m, Published(life.detached[i]));
    if life.slot.Some? {
      PublishedElsewhere(h, life.slot.value, m, life.detached[i]);
    }
    hide SlotInv;
  }

  lemma PublishedElsewhere(h: Hash, s: Slot, m: Monitor, content: seq<byte>)
    requires SlotInv(h, s, m)
    ensures SlotInv(h, s, Observe(m, Published(content)))
  {
  }

  lemma CleanupKeeps(h: Hash, life: Life, m: Monitor, draining: bool, now: int)
    requires Inv(h, life, m) && life.slot.Some?
    ensures var cleaning := life.(slot := Some(life.slot.value.(cleaning := true)));
            Kept(h, m, Outcome(if draining then Retire(cleaning, now) else cleaning, []))
    ensures Kept(h, m, Outcome(Retire(life, now), []))
  {
    LiveInv(h, life, m);
    FinishingOk(h, life.slot.value, m);
    hide SlotInv, Inv, Retire;
    var cleaning := life.(slot := Some(life.slot.value.(cleaning := true)));
    SlotStepKeeps(h, life, m, cleaning.slot.value, []);
    RetireKeeps(h, cleaning, m, now);
    RetireKeeps(h, life, m, now);
  }

  // ---- The theorem ----------------------------------------------------------

  lemma SenderKeeps(h: Hash, life: Life, m: Monitor, s: Slot, a: SenderAction)
    requires Inv(h, life, m) && life.slot == Some(s) && SenderCan(s, a)
    ensures Kept(h, m, SenderStep(h, life, s, a))
  {
    LiveInv(h, life, m);
    hide Inv, Kept, SlotInv, SlotStepOk, SenderOpened, SenderVerified, SenderFails, SenderAcked, ResolveFailureAck;
    match a
    case SourceOpened(room) =>
      SenderStartsOk(h, s, m, room);
      SlotStepKeeps(h, life, m, SenderOpened(s, room), []);
    case ReadyResumes =>
      SenderStartsOk(h, s, m, true);
      SlotStepKeeps(h, life, m, s.(worker := Reading), []);
    case SourceChunk(chunk) =>
      SourceChunkOk(h, s, m, chunk);
      SlotStepKeeps(h, life, m, s.(transferred := s.transferred + chunk), [SourceRead(chunk)]);
    case SourceVerified(room) =>
      SenderVerifiedOk(h, s, m, room);
      SlotStepKeeps(h, life, m, SenderVerified(h, s, room).0, SenderVerified(h, s, room).1);
    case SendingFails(code, room) =>
      SenderFailsOk(h, s, m, code, room);
      SlotStepKeeps(h, life, m, SenderFails(s, code, room).0, SenderFails(s, code, room).1);
    case AckResumes(room, now) =>
      SenderAckedKeeps(h, life, m, s, room, now);
    case FailureAckResumes =>
      ResolveOk(h, s, m);
      SlotStepKeeps(h, life, m, ResolveFailureAck(s), []);
  }

  lemma CommitKeeps(h: Hash, life: Life, m: Monitor, s: Slot, room: bool, now: int)
    requires Inv(h, life, m) && life.slot == Some(s) && s.role.Receiver? && !s.cancelled && s.worker.Committing?
    ensures Kept(h, m, ReceiverCommitted(h, life, s, room, now))
  {
    CommitFacts(h, life, m, s);
    hide Inv, Kept, SlotInv, SlotStepOk, Finish;
    if s.upload {
      PublishedOk(h, s, m);
      SlotStepKeeps(h, life, m, s.(phase := Committed, worker := Recording), [Published(s.transferred)]);
    } else {
      FinishedKeeps(h, life, m, s, CommitEnd(h, s.transferred, None, None), room, now, [Published(s.transferred)]);
    }
  }

  lemma TagKeeps(h: Hash, life: Life, m: Monitor, s: Slot, end: End, room: bool, now: int)
    requires Inv(h, life, m) && life.slot == Some(s) && s.role.Receiver? && !s.cancelled && s.worker.Recording?
    requires end.ack && Describes(h, end, s.transferred)
    ensures Kept(h, m, Outcome(Finish(life, s, end, room, now).0, Finish(life, s, end, room, now).1))
  {
    CommitFacts(h, life, m, s);
    hide Inv, Kept, SlotInv, SlotStepOk, Finish;
    assert s.(phase := Committed) == s;
    FinishedKeeps(h, life, m, s, end, room, now, []);
    assert [] + Finish(life, s, end, room, now).1 == Finish(life, s, end, room, now).1;
  }

  lemma ReceiverKeeps(h: Hash, life: Life, m: Monitor, s: Slot, a: ReceiverAction)
    requires Inv(h, life, m) && life.slot == Some(s) && ReceiverCan(s, a)
    ensures Kept(h, m, ReceiverStep(h, life, s, a))
  {
    LiveInv(h, life, m);
    hide Inv, Kept, SlotInv, SlotStepOk, ReceiverReserved, ReservationFails, ReceiverGets, ReceiverWrote,
         ReceiverSealed, ReceiverCommitted, ReceiverFails, Finish;
    match a
    case DestinationReserved(room) =>
      ReservedOk(h, s, m, room);
      SlotStepKeeps(h, life, m, ReceiverReserved(s, room), []);
    case DestinationRefused(code, room) =>
      ReservationFailsOk(h, s, m, code, room);
      SlotStepKeeps(h, life, m, ReservationFails(s, code, room).0, ReservationFails(s, code, room).1);
    case RejectionAckResumes =>
      ReceiverMovesOn(h, s, m, Finishing);
      SlotStepKeeps(h, life, m, s.(worker := Finishing), []);
    case TemporaryOpened =>
      ReceiverMovesOn(h, s, m, Receiving);
      SlotStepKeeps(h, life, m, s.(worker := Receiving), []);
    case QueueGives =>
      ReceiverGetsOk(h, s, m);
      SlotStepKeeps(h, life, m, ReceiverGets(s), [Dequeued]);
    case ChunkWritten =>
      ReceiverWroteOk(h, s, m);
      SlotStepKeeps(h, life, m, ReceiverWrote(s), []);
    case TemporarySealed(room) =>
      ReceiverSealedOk(h, s, m, room);
      SlotStepKeeps(h, life, m, ReceiverSealed(h, s, room).0, ReceiverSealed(h, s, room).1);
    case CommitStarts =>
      ReceiverMovesOn(h, s, m, Committing);
      SlotStepKeeps(h, life, m, s.(worker := Committing), []);
    case CommitReturns(room, now) =>
      CommitKeeps(h, life, m, s, room, now);
    case TagRecorded(etag, created, room, now) =>
      TagKeeps(h, life, m, s, CommitEnd(h, s.transferred, Some(etag), Some(created)), room, now);
    case ReceivingFails(code, room) =>
      ReceiverFailsOk(h, s, m, code, room);
      SlotStepKeeps(h, life, m, ReceiverFails(s, code, room).0, ReceiverFails(s, code, room).1);
  }

  lemma ReaderKeeps(h: Hash, life: Life, m: Monitor, f: Frame)
    requires Inv(h, life, m) && life.pendingPut.None?
    ensures Kept(h, m, ReaderStep(life, f))
  {
    hide Inv, Kept, Start, OnReady, OnProgress, OnBinary, OnEnd, NewSender, NewReceiver;
    match f
    case RequestFrame(granted, room, now) => StartKeeps(h, life, m, NewSender(), granted, room, now);
    case BeginFrame(total, sha, upload, granted, room, now) =>
      StartKeeps(h, life, m, NewReceiver(total, sha, upload), granted, room, now);
    case ReadyFrame => SimpleFramesKeep(h, life, m, 0);
    case ProgressFrame(bytesSent) => SimpleFramesKeep(h, life, m, bytesSent);
    case BinaryFrame(chunk) => BinaryKeeps(h, life, m, chunk);
    case EndFrame(end, room) => EndKeeps(h, life, m, end, room);
  }

  /** Every enabled step keeps the invariant and emits only permitted events. */
  lemma StepKeeps(h: Hash, life: Life, m: Monitor, a: Action)
    requires Inv(h, life, m) && Enabled(life, a)
    ensures Kept(h, m, Step(h, life, a))
  {
    hide Inv, Kept, ReaderStep, SenderStep, ReceiverStep, PutResumes, PutTimesOut, DeliverCancel, Retire, ShutdownStep,
         SenderCan, ReceiverCan;
    match a
    case Arrives(frame) => ReaderKeeps(h, life, m, frame);
    case PutIsResumed => PutAgainKeeps(h, life, m);
    case PutIsTimedOut(room) => PutTimeoutKeeps(h, life, m, room);
    case SenderActs(act) => SenderKeeps(h, life, m, life.slot.value, act);
    case ReceiverActs(act) => ReceiverKeeps(h, life, m, life.slot.value, act);
    case WorkerCancelled => CancelKeeps(h, life, m, life.slot.value);
    case DetachedCommitLands(i) => DetachedKeeps(h, life, m, i);
    case CleanupStarts(draining, now) => CleanupKeeps(h, life, m, draining, now);
    case CleanupEnds(now) => CleanupKeeps(h, life, m, false, now);
    case Shutdown(room) => ShutdownKeeps(h, life, m, room);
    case TombstoneForgotten => ForgettingKeeps(h, life, m);
  }

  /** `actions` is a run: each step is one its predecessor allows. */
  predicate Runs(h: Hash, life: Life, actions: seq<Action>)
    decreases |actions|
  {
    actions == [] || (Enabled(life, actions[0]) && Runs(h, Step(h, life, actions[0]).life, actions[1..]))
  }

  function Trace(h: Hash, life: Life, actions: seq<Action>): seq<Event>
    requires Runs(h, life, actions)
    decreases |actions|
  {
    if actions == [] then []
    else
      var o := Step(h, life, actions[0]);
      o.events + Trace(h, o.life, actions[1..])
  }

  function Reached(h: Hash, life: Life, actions: seq<Action>): Life
    requires Runs(h, life, actions)
    decreases |actions|
  {
    if actions == [] then life else Reached(h, Step(h, life, actions[0]).life, actions[1..])
  }

  lemma {:induction false} ObserveConcat(h: Hash, m: Monitor, a: seq<Event>, b: seq<Event>)
    ensures ObserveAll(m, a + b) == ObserveAll(ObserveAll(m, a), b)
    ensures TraceOk(h, m, a + b) == (TraceOk(h, m, a) && TraceOk(h, ObserveAll(m, a), b))
    decreases |a|
  {
    if a == [] {
      assert a + b == b;
    } else {
      assert (a + b)[1..] == a[1..] + b;
      ObserveConcat(h, Observe(m, a[0]), a[1..], b);
    }
  }

  lemma {:induction false} RunKeeps(h: Hash, life: Life, m: Monitor, actions: seq<Action>)
    requires Inv(h, life, m) && Runs(h, life, actions)
    ensures var trace := Trace(h, life, actions);
            TraceOk(h, m, trace) && Inv(h, Reached(h, life, actions), ObserveAll(m, trace))
    decreases |actions|
  {
    if actions != [] {
      hide Inv, Step, Enabled;
      var o := Step(h, life, actions[0]);
      StepKeeps(h, life, m, actions[0]);
      assert Kept(h, m, o);
      RunKeeps(h, o.life, ObserveAll(m, o.events), actions[1..]);
      ObserveConcat(h, m, o.events, Trace(h, o.life, actions[1..]));
    }
  }

  /**
   In every run of one identifier every event is one `EventOk` permits, and what
   was observed since the last start satisfies `Safe`: at most one distinct
   acknowledgement unless the peer failed after acknowledging (then at most two),
   success acknowledgements only for the sender's own size and digest, at most one
   reply to crossing failures, and never more bytes taken than declared.
   */
  lemma RunsAreSafe(h: Hash, actions: seq<Action>)
    requires Runs(h, FRESH, actions)
    ensures var trace := Trace(h, FRESH, actions);
            TraceOk(h, UNSEEN, trace) && Safe(ObserveAll(UNSEEN, trace))
  {
    RunKeeps(h, FRESH, UNSEEN, actions);
  }
}
