/**
 When is an end frame final?  A receiver that took one leaves STREAMING, but a write that is
 still to come puts it back and opens it to data again.  Here is exactly when that can happen.
 */
module EndFinality {
  import opened Basics
  import opened Protocol
  import opened TransferSlot
  import opened TransferRuns
  import T = TransferTheorems

  /** Data that the worker will still write: in its hand, or queued before the first marker. */
  predicate DataAhead(s: Slot) {
    || s.worker.Writing?
    || ((s.worker.OpeningTemporary? || s.worker.Receiving?) && BeforeMarker(s.inbound) != [])
  }

  predicate Full(s: Slot) {
    s.declared.Some? && s.inboundBytes >= s.declared.value
  }

  /** The worker goes on, has something left to write, and the declared total leaves room. */
  predicate CanReopen(s: Slot) {
    !s.cancelled && DataAhead(s) && !Full(s)
  }

  /** The slot is there all along. */
  predicate Alive(h: Hash, life: Life, actions: seq<Action>)
    requires Runs(h, life, actions)
    decreases |actions|
  {
    life.slot.Some? && (actions != [] ==> Alive(h, Step(h, life, actions[0]).life, actions[1..]))
  }

  /** Whatever happens while the slot lives, it accepts no more data. */
  ghost predicate EndIsFinal(h: Hash, life: Life)
    requires life.slot.Some?
  {
    forall actions | Runs(h, life, actions) && Alive(h, life, actions) ::
      && Reached(h, life, actions).slot.Some?
      && Reached(h, life, actions).slot.value.inboundBytes == life.slot.value.inboundBytes
  }

  predicate IsData(p: Option<Option<Chunk>>) {
    p.Some? && p.value.Some?
  }

  // ---- What every reachable receiver satisfies ------------------------------

  predicate SlotShape(s: Slot, put: Option<Option<Chunk>>) {
    s.role.Receiver? ==>
      && |s.inbound| <= TRANSFER_CHUNKS_PER_SLOT
      && (s.worker.Preparing? ==> s.phase.Begun? || s.phase.Aborted?)
      && (s.phase.SenderEnded? ==> !IsData(put))
  }

  predicate Shape(life: Life) {
    life.slot.Some? ==> SlotShape(life.slot.value, life.pendingPut)
  }

  lemma ReaderShape(life: Life, f: Frame)
    requires Shape(life) && life.pendingPut.None?
    ensures Shape(ReaderStep(life, f).life)
  {
    hide OnEnd, OnBinary;
    match f
    case EndFrame(end, room) => EndShape(life, end, room);
    case BinaryFrame(chunk) => BinaryShape(life, chunk);
    case _ =>
  }

  lemma BinaryShape(life: Life, chunk: Chunk)
    requires Shape(life) && life.pendingPut.None?
    ensures Shape(OnBinary(life, chunk).life)
  {
    hide Put, SlotShape;
    if life.slot.Some? {
      var s := life.slot.value;
      LateShape(s, chunk);
      DataShape(s, chunk);
      if s.phase.Ready? || s.phase.Streaming? {
        PutShape(life, s.(inboundBytes := s.inboundBytes + |chunk|), Some(chunk), [BytesTaken(|chunk|)]);
      }
    }
  }

  lemma LateShape(s: Slot, chunk: Chunk)
    requires SlotShape(s, None)
    ensures SlotShape(s.(lateBytes := s.lateBytes + |chunk|), None)
  {
  }

  lemma PutShape(life: Life, s: Slot, item: Option<Chunk>, events: seq<Event>)
    requires SlotShape(s, None) && life.pendingPut.None? && !(s.phase.SenderEnded? && item.Some?)
    ensures Shape(Put(life, s, item, events).life)
  {
    hide SlotShape;
    WaitShape(s, item);
    if |s.inbound| < TRANSFER_CHUNKS_PER_SLOT {
      RoomShape(s, item);
    }
  }

  lemma WaitShape(s: Slot, item: Option<Chunk>)
    requires SlotShape(s, None) && !(s.phase.SenderEnded? && item.Some?)
    ensures SlotShape(s, Some(item))
  {
  }

  lemma RoomShape(s: Slot, item: Option<Chunk>)
    requires SlotShape(s, None) && |s.inbound| < TRANSFER_CHUNKS_PER_SLOT
    ensures SlotShape(s.(inbound := s.inbound + [item]), None)
  {
  }

  lemma DataShape(s: Slot, chunk: Chunk)
    requires SlotShape(s, None)
    ensures SlotShape(s.(inboundBytes := s.inboundBytes + |chunk|), None)
  {
  }

  lemma EndShape(life: Life, end: End, room: bool)
    requires Shape(life) && life.pendingPut.None?
    ensures Shape(OnEnd(life, end, room).life)
  {
    hide OnEndLive, OnEndTombstone, SlotShape;
    if life.slot.Some? {
      LiveEndShape(life, life.slot.value, end, room);
    } else if life.tomb.Some? {
      TombstoneHasNoSlot(life, life.tomb.value, end, room);
    }
  }

  lemma TombstoneHasNoSlot(life: Life, tomb: Tombstone, end: End, room: bool)
    ensures OnEndTombstone(life, tomb, end, room).life.slot == life.slot
  {
    hide SameTerminal, AcceptsChosenAck;
  }

  lemma LiveEndShape(life: Life, s: Slot, end: End, room: bool)
    requires SlotShape(s, None) && life.slot == Some(s) && life.pendingPut.None?
    ensures Shape(OnEndLive(life, s, end, room).life)
  {
    hide LiveAccepts, WithEnd, GaveWay, GivesWay, Acknowledged, Put, SlotShape;
    AcknowledgedShape(s, end);
    if end.code.Some? {
      PeerFailsShape(s, end, room);
    }
    if s.phase.Ready? || s.phase.Streaming? {
      MarkerShape(s, end);
      PutShape(life, s.(remoteEnd := Some(end), phase := SenderEnded), None, [EndHeld(end)]);
    }
  }

  lemma AcknowledgedShape(s: Slot, end: End)
    requires SlotShape(s, None)
    ensures SlotShape(Acknowledged(s, end), None) && SlotShape(s.(crossingAckSent := true), None)
  {
  }

  lemma PeerFailsShape(s: Slot, end: End, room: bool)
    requires SlotShape(s, None) && end.code.Some?
    ensures SlotShape(WithEnd(GaveWay(s, end), FailureEnd(true, end.code.value), room).0, None)
  {
    hide WithEnd, GaveWay;
    GaveWayTo(s, end);
    WithEndTo(GaveWay(s, end), FailureEnd(true, end.code.value), room);
  }

  lemma MarkerShape(s: Slot, end: End)
    requires SlotShape(s, None) && (s.phase.Ready? || s.phase.Streaming?)
    ensures SlotShape(s.(remoteEnd := Some(end), phase := SenderEnded), None)
  {
  }

  /** What no worker changes. */
  predicate Untouched(s: Slot, t: Slot) {
    && t.role == s.role && t.declared == s.declared && t.cancelled == s.cancelled
    && t.inboundBytes == s.inboundBytes && t.inbound == s.inbound
  }

  lemma WithEndTo(s: Slot, end: End, room: bool)
    ensures var t := WithEnd(s, end, room).0; Untouched(s, t) && t.phase == s.phase && t.worker == s.worker
  {
  }

  lemma ReceiverFailsTo(s: Slot, code: string, room: bool)
    ensures var t := ReceiverFails(s, code, room).0; Untouched(s, t) && t.phase.Aborted? && t.worker.Finishing?
  {
    hide WithEnd;
    WithEndTo(s.(phase := Aborted), FailureEnd(s.remoteEnd.Some?, code), room);
  }

  lemma ReservationFailsTo(s: Slot, code: string, room: bool)
    ensures var t := ReservationFails(s, code, room).0;
            Untouched(s, t) && t.phase.Aborted? && (t.worker.Finishing? || t.worker.AwaitingRejectionAck?)
  {
    hide WithEnd;
    WithEndTo(s.(phase := Aborted), FailureEnd(false, code), room);
  }

  lemma SealedTo(h: Hash, s: Slot, room: bool)
    ensures var t := ReceiverSealed(h, s, room).0;
            && Untouched(s, t)
            && ((t.phase == s.phase && t.worker.Verified?) || (t.phase.Aborted? && t.worker.Finishing?))
  {
    hide ReceiverFails, SealError;
    if SealError(h, s).Some? {
      ReceiverFailsTo(s, SealError(h, s).value, room);
    }
  }

  lemma FinishTo(life: Life, s: Slot, end: End, room: bool, now: int)
    ensures var next := Finish(life, s, end, room, now).0;
            && next.slot.Some? && next.pendingPut == life.pendingPut
            && Untouched(s, next.slot.value) && next.slot.value.phase == s.phase && next.slot.value.worker.Finishing?
  {
    hide RememberSlot;
  }

  lemma CommittedTo(h: Hash, life: Life, s: Slot, room: bool, now: int)
    ensures var next := ReceiverCommitted(h, life, s, room, now).life;
            && next.slot.Some? && next.pendingPut == life.pendingPut && Untouched(s, next.slot.value)
            && next.slot.value.phase.Committed?
            && (next.slot.value.worker.Finishing? || next.slot.value.worker.Recording?)
  {
    hide Finish;
    FinishTo(life, s.(phase := Committed), CommitEnd(h, s.transferred, None, None), room, now);
  }

  /** Where one resumption of a receiver's worker leads. */
  predicate WorkerTo(s: Slot, a: ReceiverAction, t: Slot)
    requires ReceiverCan(s, a)
  {
    match a
    case DestinationReserved(room) =>
      && Untouched(s, t)
      && if room then t.phase.Ready? && t.worker.OpeningTemporary? else t.phase == s.phase && t.worker.Finishing?
    case TemporaryOpened => t == s.(worker := Receiving)
    case QueueGives => t == ReceiverGets(s)
    case ChunkWritten => t == ReceiverWrote(s)
    case CommitStarts => t == s.(worker := Committing)
    case _ =>
      && Untouched(s, t)
      && (t.phase == s.phase || t.phase.Aborted? || t.phase.Committed?)
      && (t.worker.Finishing? || t.worker.AwaitingRejectionAck? || t.worker.Verified? || t.worker.Recording?)
  }

  lemma WorkerStepTo(h: Hash, life: Life, s: Slot, a: ReceiverAction)
    requires life.slot == Some(s) && ReceiverCan(s, a)
    ensures var next := ReceiverStep(h, life, s, a).life;
            next.slot.Some? && next.pendingPut == life.pendingPut && WorkerTo(s, a, next.slot.value)
  {
    hide ReceiverFails, ReservationFails, ReceiverSealed, ReceiverCommitted, Finish, CommitEnd;
    match a
    case DestinationRefused(code, room) => ReservationFailsTo(s, code, room);
    case TemporarySealed(room) => SealedTo(h, s, room);
    case CommitReturns(room, now) => CommittedTo(h, life, s, room, now);
    case TagRecorded(etag, created, room, now) =>
      FinishTo(life, s, CommitEnd(h, s.transferred, Some(etag), Some(created)), room, now);
    case ReceivingFails(code, room) => ReceiverFailsTo(s, code, room);
    case _ =>
  }

  lemma WorkerShape(h: Hash, life: Life, s: Slot, a: ReceiverAction)
    requires Shape(life) && life.slot == Some(s) && ReceiverCan(s, a)
    ensures Shape(ReceiverStep(h, life, s, a).life)
  {
    hide ReceiverStep, WorkerTo;
    WorkerStepTo(h, life, s, a);
    WorkerToShape(s, a, ReceiverStep(h, life, s, a).life.slot.value, life.pendingPut);
  }

  lemma WorkerToShape(s: Slot, a: ReceiverAction, t: Slot, put: Option<Option<Chunk>>)
    requires SlotShape(s, put) && ReceiverCan(s, a) && WorkerTo(s, a, t)
    ensures SlotShape(t, put)
  {
    hide ReceiverGets, ReceiverWrote;
    match a
    case QueueGives => GetsShape(s, put);
    case ChunkWritten => WroteShape(s, put);
    case _ =>
  }

  lemma GetsShape(s: Slot, put: Option<Option<Chunk>>)
    requires SlotShape(s, put) && s.worker.Receiving? && s.inbound != []
    ensures SlotShape(ReceiverGets(s), put)
  {
  }

  lemma WroteShape(s: Slot, put: Option<Option<Chunk>>)
    requires SlotShape(s, put) && s.worker.Writing?
    ensures SlotShape(ReceiverWrote(s), put)
  {
  }

  lemma SenderFailsTo(s: Slot, code: string, room: bool)
    ensures SenderFails(s, code, room).0.role == s.role
  {
    hide WithEnd, ResolveFailureAck;
    WithEndTo(s.(phase := Aborted), FailureEnd(false, code), room);
    ResolvedRole(WithEnd(s.(phase := Aborted), FailureEnd(false, code), room).0);
  }

  lemma ResolvedRole(s: Slot)
    ensures ResolveFailureAck(s).role == s.role
  {
  }

  lemma AckedRole(h: Hash, life: Life, s: Slot, room: bool, now: int)
    ensures var next := SenderAcked(h, life, s, room, now).life.slot; next.Some? && next.value.role == s.role
  {
    hide RememberSlot, SenderFails, ResolveFailureAck;
    ResolvedRole(s);
    SenderFailsTo(s, "workspace_transfer_integrity_failed", room);
  }

  lemma VerifiedRole(h: Hash, s: Slot, room: bool)
    ensures SenderVerified(h, s, room).0.role == s.role
  {
  }

  lemma SenderRole(h: Hash, life: Life, s: Slot, a: SenderAction)
    requires life.slot == Some(s) && SenderCan(s, a)
    ensures var next := SenderStep(h, life, s, a).life.slot; next.Some? ==> next.value.role.Sender?
  {
    hide SenderFails, SenderAcked, SenderVerified, ResolveFailureAck;
    match a
    case SourceVerified(room) => VerifiedRole(h, s, room);
    case SendingFails(code, room) => SenderFailsTo(s, code, room);
    case AckResumes(room, now) => AckedRole(h, life, s, room, now);
    case FailureAckResumes => ResolvedRole(s);
    case _ =>
  }

  lemma StepShape(h: Hash, life: Life, a: Action)
    requires Shape(life) && Enabled(life, a)
    ensures Shape(Step(h, life, a).life)
  {
    hide SenderStep, ReceiverStep, ReaderStep, SenderCan, ReceiverCan, RememberSlot, WithEnd;
    match a
    case Arrives(frame) => ReaderShape(life, frame);
    case SenderActs(act) => SenderRole(h, life, life.slot.value, act);
    case ReceiverActs(act) => WorkerShape(h, life, life.slot.value, act);
    case PutIsResumed =>
    case PutIsTimedOut(room) => TimedOutShape(life, room);
    case Shutdown(room) => ShutdownShape(life, room);
    case _ =>
  }

  lemma TimedOutShape(life: Life, room: bool)
    requires Shape(life) && life.pendingPut.Some?
    ensures Shape(PutTimesOut(life, room).life)
  {
  }

  /** Shutdown keeps a slot as it is, but for cancellation and a marker that fits. */
  lemma ClosingTo(s: Slot, room: bool)
    ensures var t := Closing(s, room).0;
            && t.role == s.role && t.declared == s.declared && t.inboundBytes == s.inboundBytes
            && t.phase == s.phase && t.worker == s.worker && (s.cancelled ==> t.cancelled)
            && (t.inbound == s.inbound
                || (|s.inbound| < TRANSFER_CHUNKS_PER_SLOT && t.inbound == s.inbound + [None]))
  {
    hide WithEnd;
    WithEndTo(s, FailureEnd(false, "peer_disconnected"), room);
  }

  lemma ShutdownShape(life: Life, room: bool)
    requires Shape(life)
    ensures Shape(ShutdownStep(life, room).life)
  {
    hide Closing;
    if life.slot.Some? {
      ClosingTo(life.slot.value, room);
    }
  }

  lemma {:induction false} ReachedShape(h: Hash, life: Life, actions: seq<Action>)
    requires Shape(life) && Runs(h, life, actions)
    ensures Shape(Reached(h, life, actions))
    decreases |actions|
  {
    if actions != [] {
      hide Step, Enabled, Shape;
      StepShape(h, life, actions[0]);
      ReachedShape(h, Step(h, life, actions[0]).life, actions[1..]);
    }
  }

  // ---- A shut receiver stays shut -------------------------------------------

  predicate Listening(s: Slot) {
    s.phase.Begun? || s.phase.Ready? || s.phase.Streaming?
  }

  /** Not taking data now, and nothing to come that would change that. */
  predicate Closed(life: Life, s: Slot) {
    && !Listening(s)
    && (|| s.cancelled
        || (&& !s.worker.Preparing? && !DataAhead(s)
            && (s.worker.OpeningTemporary? || s.worker.Receiving? ==> !IsData(life.pendingPut))))
  }

  predicate Shut(life: Life) {
    life.slot.Some? && life.slot.value.role.Receiver? && (Full(life.slot.value) || Closed(life, life.slot.value))
  }

  /** The same slot, shut, with the same count of accepted bytes, unless it is gone. */
  predicate StaysShut(life: Life, next: Life)
    requires life.slot.Some?
  {
    next.slot.Some? ==> Shut(next) && next.slot.value.inboundBytes == life.slot.value.inboundBytes
  }

  lemma {:induction false} MarkerAdds(inbound: seq<Option<Chunk>>)
    ensures BeforeMarker(inbound + [None]) == BeforeMarker(inbound)
  {
    if inbound == [] {
      assert inbound + [None] == [None];
    } else {
      assert (inbound + [None])[0] == inbound[0] && (inbound + [None])[1..] == inbound[1..] + [None];
      MarkerAdds(inbound[1..]);
    }
  }

  lemma ReaderStaysShut(life: Life, f: Frame)
    requires Shut(life) && life.pendingPut.None?
    ensures StaysShut(life, ReaderStep(life, f).life)
  {
    hide LiveAccepts, BeforeMarker, WithEnd;
    match f
    case EndFrame(end, room) => EndStaysShut(life, end, room);
    case BinaryFrame(chunk) => BinaryStaysShut(life, chunk);
    case _ =>
  }

  lemma BinaryStaysShut(life: Life, chunk: Chunk)
    requires Shut(life)
    ensures StaysShut(life, OnBinary(life, chunk).life)
  {
    hide BeforeMarker, Put;
    var s := life.slot.value;
    if Listening(s) && chunk == [] {
      PutKeepsCount(life, s.(inboundBytes := s.inboundBytes + 0), Some([]), [BytesTaken(0)]);
    }
  }

  lemma EndStaysShut(life: Life, end: End, room: bool)
    requires Shut(life) && life.pendingPut.None?
    ensures StaysShut(life, OnEnd(life, end, room).life)
  {
    hide BeforeMarker, OnEndLive;
    if !life.closed {
      LiveEndStaysShut(life, life.slot.value, end, room);
    }
  }

  lemma LiveEndStaysShut(life: Life, s: Slot, end: End, room: bool)
    requires Shut(life) && life.slot == Some(s) && life.pendingPut.None?
    ensures StaysShut(life, OnEndLive(life, s, end, room).life)
  {
    hide LiveAccepts, BeforeMarker, WithEnd, GaveWay, GivesWay, Acknowledged, Put, Full, Closed;
    SameIsShut(life, s.(crossingAckSent := true));
    AcknowledgedTo(s, end);
    SameIsShut(life, Acknowledged(s, end));
    if end.code.Some? {
      PeerFailsShut(life, s, end, room);
    }
    if s.phase.Ready? || s.phase.Streaming? {
      MarkerStaysShut(life, s, end);
    }
  }

  /** What decides whether a slot is shut. */
  predicate SameState(s: Slot, t: Slot) {
    Untouched(s, t) && t.phase == s.phase && t.worker == s.worker
  }

  lemma SameIsShut(life: Life, t: Slot)
    requires Shut(life) && SameState(life.slot.value, t)
    ensures StaysShut(life, life.(slot := Some(t)))
  {
    hide BeforeMarker;
  }

  lemma AcknowledgedTo(s: Slot, end: End)
    ensures SameState(s, Acknowledged(s, end))
  {
    var acked := s.(finalEnd := Some(end), senderAck := true);
    assert SameState(s, acked) && SameState(s, acked.(remoteEnd := Some(end)));
  }

  lemma PeerFailsShut(life: Life, s: Slot, end: End, room: bool)
    requires Shut(life) && life.slot == Some(s) && end.code.Some?
    ensures var (done, _) := WithEnd(GaveWay(s, end), FailureEnd(true, end.code.value), room);
            StaysShut(life, life.(slot := Some(done)))
  {
    hide WithEnd, GaveWay, BeforeMarker;
    GaveWayTo(s, end);
    WithEndTo(GaveWay(s, end), FailureEnd(true, end.code.value), room);
  }

  /** A receiver that listens is shut only by its declared total. */
  lemma MarkerStaysShut(life: Life, s: Slot, end: End)
    requires Shut(life) && life.slot == Some(s) && (s.phase.Ready? || s.phase.Streaming?)
    ensures var held := s.(remoteEnd := Some(end), phase := SenderEnded);
            StaysShut(life, Put(life, held, None, [EndHeld(end)]).life)
  {
    hide Put, BeforeMarker;
    PutKeepsCount(life, s.(remoteEnd := Some(end), phase := SenderEnded), None, [EndHeld(end)]);
  }

  lemma GaveWayTo(s: Slot, end: End)
    ensures var t := GaveWay(s, end);
            && t.role == s.role && t.phase.Aborted?
            && (s.role.Receiver? ==> Untouched(s.(cancelled := true), t))
  {
  }

  /** Whatever is put, a full slot stays full. */
  lemma PutKeepsCount(life: Life, s: Slot, item: Option<Chunk>, events: seq<Event>)
    ensures var next := Put(life, s, item, events).life.slot;
            && next.Some? && next.value.role == s.role
            && next.value.declared == s.declared && next.value.inboundBytes == s.inboundBytes
  {
  }

  lemma WorkerStaysShut(h: Hash, life: Life, s: Slot, a: ReceiverAction)
    requires Shut(life) && life.slot == Some(s) && ReceiverCan(s, a)
    ensures StaysShut(life, ReceiverStep(h, life, s, a).life)
  {
    hide ReceiverStep, WorkerTo, ReceiverCan;
    WorkerStepTo(h, life, s, a);
    WorkerToShut(life, s, a, ReceiverStep(h, life, s, a).life);
  }

  lemma WorkerToShut(life: Life, s: Slot, a: ReceiverAction, next: Life)
    requires Shut(life) && life.slot == Some(s) && ReceiverCan(s, a)
    requires next.slot.Some? && next.pendingPut == life.pendingPut && WorkerTo(s, a, next.slot.value)
    ensures StaysShut(life, next)
  {
    hide BeforeMarker, ReceiverGets, ReceiverWrote;
    match a
    case QueueGives => GetsShut(life, s, next);
    case ChunkWritten => WroteShut(life, s, next);
    case _ =>
  }

  lemma GetsShut(life: Life, s: Slot, next: Life)
    requires Shut(life) && life.slot == Some(s) && s.worker.Receiving? && s.inbound != []
    requires next.slot == Some(ReceiverGets(s)) && next.pendingPut == life.pendingPut
    ensures StaysShut(life, next)
  {
    FrontGoes(s.inbound);
    hide BeforeMarker;
  }

  lemma WroteShut(life: Life, s: Slot, next: Life)
    requires Shut(life) && life.slot == Some(s) && s.worker.Writing? && !s.cancelled
    requires next.slot == Some(ReceiverWrote(s))
    ensures StaysShut(life, next)
  {
    hide BeforeMarker;
  }

  /** Once nothing comes before the marker, the front is the marker or empty. */
  lemma FrontGoes(inbound: seq<Option<Chunk>>)
    requires inbound != []
    ensures BeforeMarker(inbound) == [] && inbound[0].Some? ==>
            inbound[0].value == [] && BeforeMarker(inbound[1..]) == []
    ensures inbound[0] == Some([]) ==> BeforeMarker(inbound[1..]) == BeforeMarker(inbound)
  {
  }

  lemma PutStaysShut(life: Life)
    requires Shut(life) && Enabled(life, PutIsResumed)
    ensures StaysShut(life, PutResumes(life).life)
  {
    MarkerAdds(life.slot.value.inbound);
    hide BeforeMarker;
  }

  lemma TimeOutStaysShut(life: Life, room: bool)
    requires Shut(life)
    ensures StaysShut(life, PutTimesOut(life, room).life)
  {
    hide WithEnd, BeforeMarker;
    WithEndTo(life.slot.value.(phase := Aborted, cancelled := true), FailureEnd(false, TIMEOUT_CODE), room);
  }

  lemma ShutdownStaysShut(life: Life, room: bool)
    requires Shut(life)
    ensures StaysShut(life, ShutdownStep(life, room).life)
  {
    hide Closing, BeforeMarker;
    var s := life.slot.value;
    MarkerAdds(s.inbound);
    ClosingTo(s, room);
  }

  lemma StepStaysShut(h: Hash, life: Life, a: Action)
    requires Shut(life) && Enabled(life, a)
    ensures StaysShut(life, Step(h, life, a).life)
  {
    hide SenderStep, ReceiverStep, ReaderStep, ReceiverCan, RememberSlot, ShutdownStep, PutTimesOut, PutResumes,
         BeforeMarker;
    match a
    case Arrives(frame) => ReaderStaysShut(life, frame);
    case ReceiverActs(act) => WorkerStaysShut(h, life, life.slot.value, act);
    case PutIsResumed => PutStaysShut(life);
    case PutIsTimedOut(room) => TimeOutStaysShut(life, room);
    case Shutdown(room) => ShutdownStaysShut(life, room);
    case _ =>
  }

  lemma {:induction false} RunStaysShut(h: Hash, life: Life, actions: seq<Action>)
    requires Shut(life) && Runs(h, life, actions) && Alive(h, life, actions)
    ensures Reached(h, life, actions).slot.Some?
    ensures Reached(h, life, actions).slot.value.inboundBytes == life.slot.value.inboundBytes
    decreases |actions|
  {
    if actions != [] {
      hide Step, Enabled;
      StepStaysShut(h, life, actions[0]);
      hide Shut;
      RunStaysShut(h, Step(h, life, actions[0]).life, actions[1..]);
    }
  }

  // ---- One that can be reopened will be -------------------------------------

  /** `actions` runs from `life` with its slot alive and ends having accepted more. */
  ghost predicate Reopening(h: Hash, life: Life, actions: seq<Action>, count: nat) {
    && Runs(h, life, actions) && Alive(h, life, actions)
    && Reached(h, life, actions).slot.Some? && Reached(h, life, actions).slot.value.inboundBytes > count
  }

  lemma First(h: Hash, life: Life, a: Action, rest: seq<Action>, count: nat)
    requires life.slot.Some? && Enabled(life, a) && Reopening(h, Step(h, life, a).life, rest, count)
    ensures Reopening(h, life, [a] + rest, count)
  {
    hide Step, Enabled;
    assert ([a] + rest)[1..] == rest;
  }

  /** Data arrives at a receiver that streams, is not full and whose reader is free. */
  lemma DataArrives(h: Hash, life: Life, s: Slot) returns (actions: seq<Action>)
    requires life.slot == Some(s) && s.role.Receiver? && s.phase.Streaming? && !Full(s) && life.pendingPut.None?
    ensures Reopening(h, life, actions, s.inboundBytes)
  {
    hide OnBinary, Put;
    var a := Arrives(BinaryFrame([0]));
    var next := Step(h, life, a).life;
    ByteIsTaken(life, s);
    hide Step, Enabled;
    assert Reopening(h, next, [], s.inboundBytes);
    First(h, life, a, [], s.inboundBytes);
    actions := [a] + [];
  }

  lemma ByteIsTaken(life: Life, s: Slot)
    requires life.slot == Some(s) && s.role.Receiver? && s.phase.Streaming? && !Full(s)
    ensures var next := OnBinary(life, [0]).life.slot; next.Some? && next.value.inboundBytes == s.inboundBytes + 1
  {
    hide Put;
    PutKeepsCount(life, s.(inboundBytes := s.inboundBytes + 1), Some([0]), [BytesTaken(1)]);
  }

  /** A reader blocked on its marker gets through once there is room. */
  lemma MarkerGoes(h: Hash, life: Life, s: Slot) returns (actions: seq<Action>)
    requires life.slot == Some(s) && s.role.Receiver? && s.phase.Streaming? && !Full(s)
    requires !IsData(life.pendingPut) && |s.inbound| < TRANSFER_CHUNKS_PER_SLOT
    ensures Reopening(h, life, actions, s.inboundBytes)
  {
    if life.pendingPut.None? {
      actions := DataArrives(h, life, s);
    } else {
      var next := Step(h, life, PutIsResumed).life;
      var t := s.(inbound := s.inbound + [None]);
      assert next == life.(pendingPut := None, stalled := None, slot := Some(t));
      var rest := DataArrives(h, next, t);
      hide Step, Enabled;
      First(h, life, PutIsResumed, rest, s.inboundBytes);
      actions := [PutIsResumed] + rest;
    }
  }

  lemma Streams(h: Hash, life: Life, s: Slot) returns (actions: seq<Action>)
    requires life.slot == Some(s) && s.role.Receiver? && s.phase.Streaming? && s.worker.Receiving? && !s.cancelled
             && !Full(s)
    requires !IsData(life.pendingPut) && |s.inbound| <= TRANSFER_CHUNKS_PER_SLOT
    ensures Reopening(h, life, actions, s.inboundBytes)
  {
    if |s.inbound| < TRANSFER_CHUNKS_PER_SLOT {
      actions := MarkerGoes(h, life, s);
    } else {
      var a := ReceiverActs(QueueGives);
      var t := ReceiverGets(s);
      assert Step(h, life, a).life == life.(slot := Some(t));
      var rest := MarkerGoes(h, life.(slot := Some(t)), t);
      hide Step, Enabled;
      First(h, life, a, rest, s.inboundBytes);
      actions := [a] + rest;
    }
  }

  lemma Written(h: Hash, life: Life, s: Slot) returns (actions: seq<Action>)
    requires life.slot == Some(s) && s.role.Receiver? && s.worker.Writing? && !s.cancelled && !Full(s)
    requires !IsData(life.pendingPut) && |s.inbound| <= TRANSFER_CHUNKS_PER_SLOT
    ensures Reopening(h, life, actions, s.inboundBytes)
  {
    var a := ReceiverActs(ChunkWritten);
    var t := ReceiverWrote(s);
    assert Step(h, life, a).life == life.(slot := Some(t));
    var rest := Streams(h, life.(slot := Some(t)), t);
    hide Step, Enabled;
    First(h, life, a, rest, s.inboundBytes);
    actions := [a] + rest;
  }

  /** A worker that has not yet reached the data takes one step towards it. */
  lemma Proceeds(h: Hash, life: Life, s: Slot) returns (a: Action, t: Slot)
    requires life.slot == Some(s) && s.role.Receiver? && CanReopen(s) && !s.worker.Writing?
    ensures Enabled(life, a) && Step(h, life, a).life == life.(slot := Some(t))
    ensures t.role.Receiver? && CanReopen(t) && t.inboundBytes == s.inboundBytes
    ensures |t.inbound| < |s.inbound| || (t.inbound == s.inbound && s.worker.OpeningTemporary? && t.worker.Receiving?)
  {
    if s.worker.Receiving? {
      FrontGoes(s.inbound);
      a, t := ReceiverActs(QueueGives), ReceiverGets(s);
    } else {
      a, t := ReceiverActs(TemporaryOpened), s.(worker := Receiving);
    }
  }

  /** From any receiver with data ahead, room and a live worker, data can be accepted again. */
  lemma {:induction false} Reopens(h: Hash, life: Life, s: Slot) returns (actions: seq<Action>)
    requires life.slot == Some(s) && s.role.Receiver? && CanReopen(s)
    requires !IsData(life.pendingPut) && |s.inbound| <= TRANSFER_CHUNKS_PER_SLOT
    ensures Reopening(h, life, actions, s.inboundBytes)
    decreases |s.inbound|, s.worker.OpeningTemporary?
  {
    if s.worker.Writing? {
      actions := Written(h, life, s);
    } else {
      hide Step, Enabled, CanReopen, Reopening;
      var a, t := Proceeds(h, life, s);
      var rest := Reopens(h, life.(slot := Some(t)), t);
      First(h, life, a, rest, s.inboundBytes);
      actions := [a] + rest;
    }
  }

  /**
   In every reachable state in which a receiver holds an end frame, no continuation makes it
   accept more data if and only if its worker is cancelled, has nothing in hand or queued
   before the first marker, or the declared total is used up.
   */
  lemma EndIsFinalExactly(h: Hash, actions: seq<Action>)
    requires Runs(h, FRESH, actions)
    requires var life := Reached(h, FRESH, actions);
             life.slot.Some? && life.slot.value.role.Receiver? && life.slot.value.phase.SenderEnded?
    ensures var life := Reached(h, FRESH, actions); EndIsFinal(h, life) <==> !CanReopen(life.slot.value)
  {
    ReachedShape(h, FRESH, actions);
    var life := Reached(h, FRESH, actions);
    FinalExactly(h, life);
  }

  lemma FinalExactly(h: Hash, life: Life)
    requires Shape(life) && life.slot.Some? && life.slot.value.role.Receiver? && life.slot.value.phase.SenderEnded?
    ensures EndIsFinal(h, life) <==> !CanReopen(life.slot.value)
  {
    var s := life.slot.value;
    if CanReopen(s) {
      var more := Reopens(h, life, s);
      assert Runs(h, life, more) && Alive(h, life, more);
    } else {
      assert Shut(life);
      hide Shut, CanReopen;
      forall more | Runs(h, life, more) && Alive(h, life, more)
        ensures Reached(h, life, more).slot.Some? && Reached(h, life, more).slot.value.inboundBytes == s.inboundBytes
      {
        RunStaysShut(h, life, more);
      }
    }
  }

  // ---- The same for the queue -----------------------------------------------

  predicate HasData(item: Option<Chunk>) {
    item.Some? && item.value != []
  }

  predicate QueuesData(e: Event) {
    e.Queued? && HasData(e.item)
  }

  predicate NoneQueued(events: seq<Event>) {
    forall i | 0 <= i < |events| :: !QueuesData(events[i])
  }

  /** Whatever happens while the slot lives, no more data reaches its queue. */
  ghost predicate QueueIsFinal(h: Hash, life: Life) {
    forall actions | Runs(h, life, actions) && Alive(h, life, actions) :: NoneQueued(Trace(h, life, actions))
  }

  /**
   Accepted data would wait for ever: the queue is full, the reader waits with another marker,
   and the worker, once it has written what it holds, stops taking at the marker in front.
   */
  predicate Jammed(life: Life, s: Slot) {
    && s.worker.Writing? && |s.inbound| == TRANSFER_CHUNKS_PER_SLOT && s.inbound[0].None?
    && life.pendingPut == Some(None)
  }

  predicate TakesNoMore(w: Worker) {
    !w.Preparing? && !w.OpeningTemporary? && !w.Receiving? && !w.Writing?
  }

  /** A jam before and after the worker has come to the marker. */
  predicate Stuck(life: Life) {
    life.slot.Some? && life.slot.value.role.Receiver? &&
    var s := life.slot.value;
    || (&& (s.worker.Writing? || s.worker.Receiving?) && (s.phase.SenderEnded? || s.phase.Streaming?)
        && |s.inbound| == TRANSFER_CHUNKS_PER_SLOT && s.inbound[0].None? && life.pendingPut == Some(None))
    || (&& TakesNoMore(s.worker)
        && (|| |s.inbound| == TRANSFER_CHUNKS_PER_SLOT
            || (|s.inbound| == TRANSFER_CHUNKS_PER_SLOT - 1 && life.pendingPut == Some(None))))
  }

  predicate Blocked(life: Life) {
    (Shut(life) && (life.pendingPut.Some? ==> !HasData(life.pendingPut.value))) || Stuck(life)
  }

  predicate StaysBlocked(o: Outcome) {
    NoneQueued(o.events) && (o.life.slot.Some? ==> Blocked(o.life))
  }

  lemma WithEndQueuesNothing(s: Slot, end: End, room: bool)
    ensures NoneQueued(WithEnd(s, end, room).1)
  {
  }

  lemma FailureQueuesNothing(s: Slot, code: string, room: bool)
    ensures NoneQueued(ReceiverFails(s, code, room).1) && NoneQueued(ReservationFails(s, code, room).1)
  {
    hide WithEnd;
    WithEndQueuesNothing(s.(phase := Aborted), FailureEnd(s.remoteEnd.Some?, code), room);
    WithEndQueuesNothing(s.(phase := Aborted), FailureEnd(false, code), room);
  }

  lemma SealedQueuesNothing(h: Hash, s: Slot, room: bool)
    ensures NoneQueued(ReceiverSealed(h, s, room).1)
  {
    hide SealError, ReceiverFails;
    if SealError(h, s).Some? {
      FailureQueuesNothing(s, SealError(h, s).value, room);
    }
  }

  lemma CommittedQueuesNothing(h: Hash, life: Life, s: Slot, room: bool, now: int)
    ensures NoneQueued(ReceiverCommitted(h, life, s, room, now).events)
  {
    hide RememberSlot;
  }

  lemma WorkerQueuesNothing(h: Hash, life: Life, s: Slot, a: ReceiverAction)
    requires ReceiverCan(s, a)
    ensures NoneQueued(ReceiverStep(h, life, s, a).events)
  {
    hide ReceiverFails, ReservationFails, ReceiverSealed, ReceiverCommitted, RememberSlot, CommitEnd;
    match a
    case DestinationRefused(code, room) => FailureQueuesNothing(s, code, room);
    case TemporarySealed(room) => SealedQueuesNothing(h, s, room);
    case CommitReturns(room, now) => CommittedQueuesNothing(h, life, s, room, now);
    case ReceivingFails(code, room) => FailureQueuesNothing(s, code, room);
    case _ =>
  }

  lemma WorkerStaysBlocked(h: Hash, life: Life, s: Slot, a: ReceiverAction)
    requires Blocked(life) && life.slot == Some(s) && ReceiverCan(s, a)
    ensures StaysBlocked(ReceiverStep(h, life, s, a))
  {
    hide ReceiverStep, ReceiverCan, NoneQueued, Shut, Stuck, WorkerTo;
    WorkerQueuesNothing(h, life, s, a);
    WorkerStepTo(h, life, s, a);
    if Stuck(life) {
      WorkerToStuck(life, s, a, ReceiverStep(h, life, s, a).life);
    } else {
      WorkerStaysShut(h, life, s, a);
    }
  }

  lemma WorkerToStuck(life: Life, s: Slot, a: ReceiverAction, next: Life)
    requires Stuck(life) && life.slot == Some(s) && ReceiverCan(s, a)
    requires next.slot.Some? && next.pendingPut == life.pendingPut && WorkerTo(s, a, next.slot.value)
    ensures Stuck(next)
  {
    hide ReceiverGets, ReceiverWrote;
    match a
    case QueueGives => GetsStuck(life, s, next);
    case ChunkWritten => WroteStuck(life, s, next);
    case _ =>
  }

  lemma GetsStuck(life: Life, s: Slot, next: Life)
    requires Stuck(life) && life.slot == Some(s) && s.worker.Receiving? && s.inbound != []
    requires next.slot == Some(ReceiverGets(s)) && next.pendingPut == life.pendingPut
    ensures Stuck(next)
  {
  }

  lemma WroteStuck(life: Life, s: Slot, next: Life)
    requires Stuck(life) && life.slot == Some(s) && s.worker.Writing?
    requires next.slot == Some(ReceiverWrote(s)) && next.pendingPut == life.pendingPut
    ensures Stuck(next)
  {
  }

  lemma BinaryStaysBlocked(life: Life, chunk: Chunk)
    requires Blocked(life) && life.pendingPut.None?
    ensures StaysBlocked(OnBinary(life, chunk))
  {
    if Shut(life) {
      BinaryStaysShut(life, chunk);
      ShutTakesNoData(life, chunk);
      hide OnBinary, Shut;
    } else {
      hide Shut;
    }
  }

  lemma ShutTakesNoData(life: Life, chunk: Chunk)
    requires Shut(life) && life.pendingPut.None?
    ensures var o := OnBinary(life, chunk);
            NoneQueued(o.events) && (o.life.pendingPut.Some? ==> !HasData(o.life.pendingPut.value))
  {
    hide BeforeMarker;
  }

  lemma PutStaysBlocked(life: Life)
    requires Blocked(life) && Enabled(life, PutIsResumed)
    ensures StaysBlocked(PutResumes(life))
  {
    if Shut(life) {
      PutStaysShut(life);
    }
    hide Shut;
  }

  lemma TimeOutStaysBlocked(life: Life, room: bool)
    requires Blocked(life)
    ensures StaysBlocked(PutTimesOut(life, room))
  {
    hide WithEnd, BeforeMarker;
    var s := life.slot.value;
    WithEndTo(s.(phase := Aborted, cancelled := true), FailureEnd(false, TIMEOUT_CODE), room);
    WithEndQueuesNothing(s.(phase := Aborted, cancelled := true), FailureEnd(false, TIMEOUT_CODE), room);
    if Shut(life) {
      TimeOutStaysShut(life, room);
    }
  }

  lemma ShutdownStaysBlocked(life: Life, room: bool)
    requires Blocked(life)
    ensures StaysBlocked(ShutdownStep(life, room))
  {
    hide Closing, Shut, Stuck, NoneQueued;
    BlockedSlot(life);
    ClosingQueuesNothing(life.slot.value, room);
    if Stuck(life) {
      ShutdownStuck(life, room);
    } else {
      ShutdownStaysShut(life, room);
    }
  }

  lemma ClosingQueuesNothing(s: Slot, room: bool)
    ensures NoneQueued(Closing(s, room).1)
  {
    hide WithEnd;
    WithEndQueuesNothing(s, FailureEnd(false, "peer_disconnected"), room);
  }

  lemma ShutdownStuck(life: Life, room: bool)
    requires Stuck(life)
    ensures Stuck(ShutdownStep(life, room).life)
  {
    hide Closing;
    ClosingTo(life.slot.value, room);
  }

  lemma EndStaysBlocked(life: Life, end: End, room: bool)
    requires Blocked(life) && life.pendingPut.None?
    ensures StaysBlocked(OnEnd(life, end, room))
  {
    hide BeforeMarker, OnEndLive, Shut, NoneQueued;
    BlockedSlot(life);
    QueuesNothing(Refused);
    if Shut(life) {
      EndStaysShut(life, end, room);
    }
    if !life.closed {
      LiveEndQueues(life, life.slot.value, end, room);
    }
  }

  lemma BlockedSlot(life: Life)
    requires Blocked(life)
    ensures life.slot.Some? && life.slot.value.role.Receiver?
  {
  }

  lemma QueuesNothing(e: Event)
    requires !e.Queued?
    ensures NoneQueued([e]) && NoneQueued([])
  {
  }

  /** The worker and a full queue are as they were. */
  predicate SamePlace(s: Slot, next: Option<Slot>) {
    && next.Some? && next.value.role == s.role && next.value.worker == s.worker
    && (|s.inbound| == TRANSFER_CHUNKS_PER_SLOT ==> next.value.inbound == s.inbound)
  }

  lemma PeerFailsQueues(s: Slot, end: End, room: bool)
    requires end.code.Some?
    ensures var (done, sent) := WithEnd(GaveWay(s, end), FailureEnd(true, end.code.value), room);
            SamePlace(s, Some(done)) && NoneQueued([PeerFailed(end)] + sent)
  {
    hide WithEnd, GaveWay;
    GaveWayKeeps(s, end);
    WithEndTo(GaveWay(s, end), FailureEnd(true, end.code.value), room);
    WithEndQueuesNothing(GaveWay(s, end), FailureEnd(true, end.code.value), room);
  }

  lemma MarkerQueues(life: Life, s: Slot, end: End)
    requires life.pendingPut.None?
    ensures var o := Put(life, s.(remoteEnd := Some(end), phase := SenderEnded), None, [EndHeld(end)]);
            && SamePlace(s, o.life.slot) && NoneQueued(o.events)
            && (o.life.pendingPut.Some? ==> o.life.pendingPut.value.None?)
  {
    hide NoneQueued;
    MarkerEvents(end);
  }

  lemma MarkerEvents(end: End)
    ensures NoneQueued([EndHeld(end)]) && NoneQueued([EndHeld(end)] + [Queued(None)])
  {
  }

  lemma PlacesStay(s: Slot, end: End)
    ensures SamePlace(s, Some(s)) && SamePlace(s, Some(s.(crossingAckSent := true)))
            && SamePlace(s, Some(Acknowledged(s, end)))
  {
  }

  /** A terminal queues at most its marker, and leaves the worker where it is. */
  lemma LiveEndQueues(life: Life, s: Slot, end: End, room: bool)
    requires life.slot == Some(s) && life.pendingPut.None?
    ensures var o := OnEndLive(life, s, end, room);
            && NoneQueued(o.events) && SamePlace(s, o.life.slot)
            && (o.life.pendingPut.Some? ==> o.life.pendingPut.value.None?)
  {
    hide LiveAccepts, WithEnd, GaveWay, GivesWay, Acknowledged, Put, SamePlace, NoneQueued;
    PlacesStay(s, end);
    QueuesNothing(CrossingAck(end));
    QueuesNothing(AckAccepted(end));
    QueuesNothing(Refused);
    if end.code.Some? {
      PeerFailsQueues(s, end, room);
    }
    MarkerQueues(life, s, end);
  }

  lemma GaveWayKeeps(s: Slot, end: End)
    ensures var t := GaveWay(s, end); t.role == s.role && t.worker == s.worker && t.inbound == s.inbound
  {
  }

  lemma ReaderStaysBlocked(life: Life, f: Frame)
    requires Blocked(life) && life.pendingPut.None?
    ensures StaysBlocked(ReaderStep(life, f))
  {
    hide BeforeMarker, OnEnd, OnBinary, Shut, Blocked, NoneQueued;
    match f
    case EndFrame(end, room) => EndStaysBlocked(life, end, room);
    case BinaryFrame(chunk) => BinaryStaysBlocked(life, chunk);
    case _ => PlainFrameStaysBlocked(life, f);
  }

  lemma PlainFrameStaysBlocked(life: Life, f: Frame)
    requires Blocked(life) && life.pendingPut.None? && !f.EndFrame? && !f.BinaryFrame?
    ensures StaysBlocked(ReaderStep(life, f))
  {
    if Shut(life) {
      ReaderStaysShut(life, f);
    }
    hide Shut;
  }

  lemma StepStaysBlocked(h: Hash, life: Life, a: Action)
    requires Blocked(life) && Enabled(life, a)
    ensures StaysBlocked(Step(h, life, a))
  {
    hide ReaderStep, ReceiverStep, SenderStep, ReceiverCan, ShutdownStep, PutTimesOut, PutResumes, RememberSlot,
         BeforeMarker;
    match a
    case Arrives(frame) => ReaderStaysBlocked(life, frame);
    case ReceiverActs(act) => WorkerStaysBlocked(h, life, life.slot.value, act);
    case PutIsResumed => PutStaysBlocked(life);
    case PutIsTimedOut(room) => TimeOutStaysBlocked(life, room);
    case Shutdown(room) => ShutdownStaysBlocked(life, room);
    case _ =>
  }

  lemma {:induction false} RunStaysBlocked(h: Hash, life: Life, actions: seq<Action>)
    requires Blocked(life) && Runs(h, life, actions) && Alive(h, life, actions)
    ensures NoneQueued(Trace(h, life, actions))
    decreases |actions|
  {
    if actions != [] {
      hide Step, Enabled, Blocked;
      StepStaysBlocked(h, life, actions[0]);
      RunStaysBlocked(h, Step(h, life, actions[0]).life, actions[1..]);
    }
  }

  // ---- Data that can be queued will be --------------------------------------

  ghost predicate Queueing(h: Hash, life: Life, actions: seq<Action>) {
    Runs(h, life, actions) && Alive(h, life, actions) && !NoneQueued(Trace(h, life, actions))
  }

  lemma QueueingFirst(h: Hash, life: Life, a: Action, rest: seq<Action>)
    requires life.slot.Some? && Enabled(life, a) && Queueing(h, Step(h, life, a).life, rest)
    ensures Queueing(h, life, [a] + rest)
  {
    hide Step, Enabled;
    assert ([a] + rest)[1..] == rest;
    var later := Trace(h, Step(h, life, a).life, rest);
    var i :| 0 <= i < |later| && QueuesData(later[i]);
    var events := Step(h, life, a).events;
    assert (events + later)[|events| + i] == later[i];
  }

  lemma QueuesNow(h: Hash, life: Life, a: Action)
    requires life.slot.Some? && Enabled(life, a) && Step(h, life, a).life.slot.Some?
    requires exists i :: 0 <= i < |Step(h, life, a).events| && QueuesData(Step(h, life, a).events[i])
    ensures Queueing(h, life, [a])
  {
    hide Step, Enabled;
    var o := Step(h, life, a);
    var one: seq<Action> := [a];
    assert one[0] == a && one[1..] == [];
    assert Runs(h, o.life, []) && Alive(h, o.life, []) && Trace(h, o.life, []) == [];
    assert Trace(h, life, one) == o.events + [] == o.events;
    assert Runs(h, life, one) && Alive(h, life, one);
  }

  /** Data comes, with room in the queue or a worker that makes some. */
  lemma DataIsQueued(h: Hash, life: Life, s: Slot) returns (actions: seq<Action>)
    requires life.slot == Some(s) && s.role.Receiver? && s.phase.Streaming? && !Full(s) && life.pendingPut.None?
    requires |s.inbound| < TRANSFER_CHUNKS_PER_SLOT
             || (|s.inbound| == TRANSFER_CHUNKS_PER_SLOT && s.worker.Receiving? && !s.cancelled)
    ensures Queueing(h, life, actions)
  {
    var a := Arrives(BinaryFrame([0]));
    var o := Step(h, life, a);
    if |s.inbound| < TRANSFER_CHUNKS_PER_SLOT {
      assert o.events[1] == Queued(Some([0]));
      QueuesNow(h, life, a);
      actions := [a];
    } else {
      var t := s.(inboundBytes := s.inboundBytes + 1);
      assert o.life == life.(slot := Some(t), pendingPut := Some(Some([0])));
      var rest := WorkerMakesRoom(h, o.life, t);
      hide Step, Enabled;
      QueueingFirst(h, life, a, rest);
      actions := [a] + rest;
    }
  }

  lemma WorkerMakesRoom(h: Hash, life: Life, s: Slot) returns (actions: seq<Action>)
    requires life.slot == Some(s) && s.role.Receiver? && s.worker.Receiving? && !s.cancelled
    requires |s.inbound| == TRANSFER_CHUNKS_PER_SLOT && life.pendingPut == Some(Some([0]))
    ensures Queueing(h, life, actions)
  {
    var a := ReceiverActs(QueueGives);
    var t := ReceiverGets(s);
    var next := life.(slot := Some(t));
    assert Step(h, life, a).life == next;
    var o := Step(h, next, PutIsResumed);
    assert o.events == [Queued(Some([0]))];
    assert QueuesData(o.events[0]);
    QueuesNow(h, next, PutIsResumed);
    hide Step, Enabled;
    QueueingFirst(h, life, a, [PutIsResumed]);
    actions := [a] + [PutIsResumed];
  }

  /** A receiver that streams, with its worker waiting at the queue. */
  lemma StreamsToQueue(h: Hash, life: Life, s: Slot) returns (actions: seq<Action>)
    requires life.slot == Some(s) && s.role.Receiver? && s.phase.Streaming? && s.worker.Receiving? && !s.cancelled
             && !Full(s)
    requires !IsData(life.pendingPut)
    requires |s.inbound| < TRANSFER_CHUNKS_PER_SLOT
             || (|s.inbound| == TRANSFER_CHUNKS_PER_SLOT && life.pendingPut.None?)
    ensures Queueing(h, life, actions)
  {
    if life.pendingPut.None? {
      actions := DataIsQueued(h, life, s);
    } else {
      var t := s.(inbound := s.inbound + [None]);
      var next := life.(pendingPut := None, stalled := None, slot := Some(t));
      assert Step(h, life, PutIsResumed).life == next;
      var rest := DataIsQueued(h, next, t);
      hide Step, Enabled;
      QueueingFirst(h, life, PutIsResumed, rest);
      actions := [PutIsResumed] + rest;
    }
  }

  lemma WrittenToQueue(h: Hash, life: Life, s: Slot) returns (actions: seq<Action>)
    requires life.slot == Some(s) && s.role.Receiver? && s.worker.Writing? && !s.cancelled && !Full(s)
    requires !IsData(life.pendingPut)
    requires |s.inbound| < TRANSFER_CHUNKS_PER_SLOT
             || (|s.inbound| == TRANSFER_CHUNKS_PER_SLOT && life.pendingPut.None?)
    ensures Queueing(h, life, actions)
  {
    var a := ReceiverActs(ChunkWritten);
    var t := ReceiverWrote(s);
    assert Step(h, life, a).life == life.(slot := Some(t));
    var rest := StreamsToQueue(h, life.(slot := Some(t)), t);
    hide Step, Enabled;
    QueueingFirst(h, life, a, rest);
    actions := [a] + rest;
  }

  /** The queue is full and the reader waits, but the worker will take an item and come back. */
  lemma TakesThenQueues(h: Hash, life: Life, s: Slot) returns (actions: seq<Action>)
    requires life.slot == Some(s) && s.role.Receiver? && s.phase.Streaming? && s.worker.Receiving? && !s.cancelled
             && !Full(s)
    requires !IsData(life.pendingPut) && |s.inbound| == TRANSFER_CHUNKS_PER_SLOT && s.inbound[0].Some?
    ensures Queueing(h, life, actions)
  {
    var a := ReceiverActs(QueueGives);
    var t := ReceiverGets(s);
    var next := life.(slot := Some(t));
    assert Step(h, life, a).life == next;
    var rest;
    if t.worker.Writing? {
      rest := WrittenToQueue(h, next, t);
    } else {
      rest := StreamsToQueue(h, next, t);
    }
    hide Step, Enabled;
    QueueingFirst(h, life, a, rest);
    actions := [a] + rest;
  }

  lemma HeldIsWritten(h: Hash, life: Life, s: Slot) returns (actions: seq<Action>)
    requires life.slot == Some(s) && s.role.Receiver? && s.worker.Writing? && !s.cancelled && !Full(s)
    requires !IsData(life.pendingPut) && |s.inbound| <= TRANSFER_CHUNKS_PER_SLOT && !Jammed(life, s)
    ensures Queueing(h, life, actions)
  {
    if |s.inbound| < TRANSFER_CHUNKS_PER_SLOT || life.pendingPut.None? {
      actions := WrittenToQueue(h, life, s);
    } else {
      var a := ReceiverActs(ChunkWritten);
      var t := ReceiverWrote(s);
      assert Step(h, life, a).life == life.(slot := Some(t));
      var rest := TakesThenQueues(h, life.(slot := Some(t)), t);
      hide Step, Enabled;
      QueueingFirst(h, life, a, rest);
      actions := [a] + rest;
    }
  }

  lemma {:induction false} QueuesAgain(h: Hash, life: Life, s: Slot) returns (actions: seq<Action>)
    requires life.slot == Some(s) && s.role.Receiver? && CanReopen(s) && !Jammed(life, s)
    requires !IsData(life.pendingPut) && |s.inbound| <= TRANSFER_CHUNKS_PER_SLOT
    ensures Queueing(h, life, actions)
    decreases |s.inbound|, s.worker.OpeningTemporary?
  {
    if s.worker.Writing? {
      actions := HeldIsWritten(h, life, s);
    } else {
      hide Step, Enabled, CanReopen, Queueing;
      var a, t := Proceeds(h, life, s);
      var rest := QueuesAgain(h, life.(slot := Some(t)), t);
      QueueingFirst(h, life, a, rest);
      actions := [a] + rest;
    }
  }

  /**
   In every reachable state in which a receiver holds an end frame, no continuation queues more
   data if and only if it cannot be reopened or is jammed, so that what it accepts waits for ever.
   */
  lemma QueueIsFinalExactly(h: Hash, actions: seq<Action>)
    requires Runs(h, FRESH, actions)
    requires var life := Reached(h, FRESH, actions);
             life.slot.Some? && life.slot.value.role.Receiver? && life.slot.value.phase.SenderEnded?
    ensures var life := Reached(h, FRESH, actions);
            QueueIsFinal(h, life) <==> !CanReopen(life.slot.value) || Jammed(life, life.slot.value)
  {
    ReachedShape(h, FRESH, actions);
    QueueExactly(h, Reached(h, FRESH, actions));
  }

  lemma QueueExactly(h: Hash, life: Life)
    requires Shape(life) && life.slot.Some? && life.slot.value.role.Receiver? && life.slot.value.phase.SenderEnded?
    ensures QueueIsFinal(h, life) <==> !CanReopen(life.slot.value) || Jammed(life, life.slot.value)
  {
    var s := life.slot.value;
    if CanReopen(s) && !Jammed(life, s) {
      var more := QueuesAgain(h, life, s);
      assert Runs(h, life, more) && Alive(h, life, more);
    } else {
      assert Blocked(life);
      hide Blocked, CanReopen, Jammed;
      forall more | Runs(h, life, more) && Alive(h, life, more) ensures NoneQueued(Trace(h, life, more)) {
        RunStaysBlocked(h, life, more);
      }
    }
  }

  // ---- A jam can happen -----------------------------------------------------

  function At(s: Slot): Life {
    FRESH.(slot := Some(s))
  }

  function Taken(s: Slot, chunk: Chunk): Slot {
    s.(inboundBytes := s.inboundBytes + |chunk|, inbound := s.inbound + [Some(chunk)])
  }

  /** A chunk arrives at a receiver of unknown length that has room. */
  lemma Comes(h: Hash, actions: seq<Action>, s: Slot, chunk: Chunk) returns (more: seq<Action>)
    requires Runs(h, FRESH, actions) && Reached(h, FRESH, actions) == At(s)
    requires s.role.Receiver? && (s.phase.Ready? || s.phase.Streaming?) && s.declared.None?
    requires |s.inbound| < TRANSFER_CHUNKS_PER_SLOT
    ensures Runs(h, FRESH, more) && Reached(h, FRESH, more) == At(Taken(s, chunk))
  {
    hide Runs, Reached, Trace;
    more := T.Then(h, actions, At(s), Arrives(BinaryFrame(chunk)));
  }

  /** The worker takes the chunk in front, or has written the one it holds. */
  lemma Works(h: Hash, actions: seq<Action>, s: Slot) returns (more: seq<Action>)
    requires Runs(h, FRESH, actions) && Reached(h, FRESH, actions) == At(s)
    requires s.role.Receiver? && !s.cancelled && (s.worker.Writing? || (s.worker.Receiving? && s.inbound != []))
    ensures Runs(h, FRESH, more)
    ensures Reached(h, FRESH, more) == At(if s.worker.Writing? then ReceiverWrote(s) else ReceiverGets(s))
  {
    hide Runs, Reached, Trace;
    more := T.Then(h, actions, At(s), ReceiverActs(if s.worker.Writing? then ChunkWritten else QueueGives));
  }

  lemma Ends(h: Hash, actions: seq<Action>, s: Slot) returns (more: seq<Action>)
    requires Runs(h, FRESH, actions) && Reached(h, FRESH, actions) == At(s)
    requires s.role.Receiver? && (s.phase.Ready? || s.phase.Streaming?)
    ensures Runs(h, FRESH, more)
    ensures var held := s.(phase := SenderEnded, remoteEnd := Some(SuccessEnd(false, 0, "")));
            Reached(h, FRESH, more) ==
            if |s.inbound| < TRANSFER_CHUNKS_PER_SLOT then At(held.(inbound := s.inbound + [None]))
            else At(held).(pendingPut := Some(None))
  {
    hide Runs, Reached, Trace;
    more := T.Then(h, actions, At(s), Arrives(EndFrame(SuccessEnd(false, 0, ""), true)));
  }

  /** The first end is taken while the worker writes, with a chunk queued behind it. */
  lemma EndedOnce(h: Hash) returns (actions: seq<Action>, s: Slot)
    ensures Runs(h, FRESH, actions) && Reached(h, FRESH, actions) == At(s)
    ensures s.role.Receiver? && s.phase.SenderEnded? && s.worker.Writing? && !s.cancelled && s.declared.None?
    ensures s.inbound == [Some([2]), None]
  {
    hide Runs, Reached, Trace, Step, Enabled;
    s := T.ReceivingSlot();
    actions := T.ReceivingRun(h);
    actions := Comes(h, actions, s, [1]);
    s := Taken(s, [1]);
    actions := Works(h, actions, s);
    s := ReceiverGets(s);
    actions := Comes(h, actions, s, [2]);
    s := Taken(s, [2]);
    assert s.inbound == [Some([2])];
    actions := Ends(h, actions, s);
    s := s.(phase := SenderEnded, remoteEnd := Some(SuccessEnd(false, 0, "")), inbound := s.inbound + [None]);
  }

  /** An end taken again after it was reopened finds the queue full, with the first marker in front. */
  lemma JamIsReachable(h: Hash) returns (actions: seq<Action>)
    ensures Runs(h, FRESH, actions)
    ensures var life := Reached(h, FRESH, actions);
            && life.slot.Some? && life.slot.value.role.Receiver? && life.slot.value.phase.SenderEnded?
            && CanReopen(life.slot.value) && Jammed(life, life.slot.value)
  {
    hide Runs, Reached, Trace, Step, Enabled;
    var s;
    actions, s := EndedOnce(h);
    actions := Works(h, actions, s);
    s := ReceiverWrote(s);
    actions := Comes(h, actions, s, [3]);
    s := Taken(s, [3]);
    actions := Works(h, actions, s);
    s := ReceiverGets(s);
    assert s.inbound == [None, Some([3])] && s.worker == Writing([2]);
    actions := Comes(h, actions, s, [4]);
    s := Taken(s, [4]);
    actions := Comes(h, actions, s, [5]);
    s := Taken(s, [5]);
    assert s.inbound[0].None? && |s.inbound| == TRANSFER_CHUNKS_PER_SLOT;
    actions := Ends(h, actions, s);
  }
}
