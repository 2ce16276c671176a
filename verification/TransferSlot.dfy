/**
 One transfer slot identifier in the client's `TransferManager`, as the state
 machine its coroutines make of it.  A step is the code that runs between two
 suspension points: a frame handled by the connection reader, one resumption of
 the slot's worker, a cancellation being delivered, a cleanup or the forgetting
 of a tombstone.  What the environment decides (file-system outcomes, whether the
 critical lane has room, when time-outs fire) is an argument of the step.

 SHA-256 is a parameter `h`: nothing below depends on which function it is.
 */
module TransferSlot {
  import opened Basics
  import opened Protocol

  const TRANSFER_CHUNKS_PER_SLOT := 4
  const TOMBSTONE_TTL_SECONDS := 60
  const TIMEOUT_CODE := "workspace_transfer_timeout"

  type Chunk = seq<byte>
  type Hash = seq<byte> -> string

  datatype Role = Sender | Receiver

  datatype Phase = Requested | Begun | Ready | Streaming | SenderEnded | Committed | Aborted

  /** Where the slot's worker coroutine is suspended. */
  datatype Worker =
    // sender
    | Opening                    // resolving and opening the source
    | AwaitingReady
    | Reading                    // reading, queueing, draining and re-checking the source
    | AwaitingAck
    | AwaitingFailureAck
    // receiver
    | Preparing                  // reserving the destination
    | AwaitingRejectionAck
    | OpeningTemporary
    | Receiving
    | Writing(chunk: Chunk)
    | Sealing                    // flush, fsync, close
    | Verified                   // length and digest agreed; re-checking the destination
    | Committing                 // the publishing rename runs in a thread
    | Recording                  // published; reading back the entity tag
    // both: nothing left but to release resources
    | Finishing

  datatype Slot = Slot(
    role: Role,
    phase: Phase,
    upload: bool,
    declared: Option<nat>,
    expectedSha: Option<string>,
    inbound: seq<Option<Chunk>>,
    inboundBytes: nat,
    lateBytes: nat,
    transferred: seq<byte>,      // what has gone through the running digest
    lastProgress: nat,
    receiverReady: bool,
    senderReady: bool,
    senderAck: bool,
    remoteEnd: Option<End>,
    finalEnd: Option<End>,
    successEnd: Option<End>,
    localFailure: Option<End>,
    remoteFailure: Option<End>,
    crossingAckSent: bool,
    worker: Worker,
    cancelled: bool,             // a cancellation is pending for the worker
    cleaning: bool)

  datatype Tombstone = Tombstone(
    end: End,
    expiresAt: int,
    successEnd: Option<End>,
    localFailure: Option<End>,
    remoteFailure: Option<End>,
    crossingAckSent: bool,
    receiverReady: bool,
    receiverFailed: bool,
    declared: Option<nat>,
    bytesSeen: nat)

  /**
   Everything the manager holds for one identifier.  `pendingPut` is the item the
   reader is blocked on while the inbound queue is full, `stalled` the slot of that queue
   if it was retired meanwhile, `detached` the contents of publishing threads whose
   awaiting worker was cancelled.
   */
  datatype Life = Life(
    slot: Option<Slot>,
    tomb: Option<Tombstone>,
    pendingPut: Option<Option<Chunk>>,
    stalled: Option<Slot>,
    detached: seq<seq<byte>>,
    closed: bool)

  const FRESH := Life(None, None, None, None, [], false)

  /** What an observer of the wire, the file system and the call results sees. */
  datatype Event =
    | Started(role: Role, declared: Option<nat>)
    | Refused                                      // a TransferProtocolError was raised
    | AckAccepted(end: End)
    | PeerFailed(end: End)                         // a live slot gave way to the peer's failure
    | CrossingAck(end: End)
    | EndSent(end: End)
    | BytesTaken(count: nat)
    | Queued(item: Option<Chunk>)
    | Dequeued
    | EndHeld(end: End)
    | SourceRead(chunk: Chunk)
    | Checked(end: End, content: seq<byte>)
    | Published(content: seq<byte>)
    | AckMismatch

  datatype Outcome = Outcome(life: Life, events: seq<Event>)

  // ---- Acknowledgement matching ---------------------------------------------

  predicate Matches(expected: Option<End>, end: End) {
    expected.Some? && expected.value.SamePayload(end)
  }

  predicate AckMatchesTerminal(slot: Slot, end: End) {
    if slot.remoteEnd.Some? && slot.remoteEnd.value.ack then slot.remoteEnd.value == end
    else if Matches(slot.finalEnd, end) then true
    else
      var awaiting :=
        && slot.role.Sender?
        && slot.successEnd.Some?
        && slot.finalEnd.Some?
        && !slot.finalEnd.value.ack
        && (|| slot.finalEnd == slot.successEnd
            || (!slot.finalEnd.value.ok && slot.finalEnd.value.code == Some(TIMEOUT_CODE)));
      awaiting && (!end.ok || Matches(slot.successEnd, end))
  }

  /** Whether the handler takes `end` as the acknowledgement of a live slot. */
  predicate LiveAccepts(slot: Slot, end: End) {
    && end.ack
    && (|| (slot.role.Receiver? && slot.phase.Aborted?)
        || (slot.role.Sender? && (slot.phase.SenderEnded? || slot.phase.Aborted?)))
    && AckMatchesTerminal(slot, end)
  }

  predicate SameTerminal(tomb: Tombstone, end: End) {
    || tomb.end == end
    || (!tomb.end.ack && end.ack && tomb.end.SamePayload(end))
  }

  predicate AcceptsChosenAck(tomb: Tombstone, end: End) {
    if || tomb.successEnd.None? || tomb.successEnd.value.ack || !tomb.successEnd.value.ok
       || tomb.end.ack || tomb.end.ok || tomb.end.code != Some(TIMEOUT_CODE) || !end.ack
    then false
    else if !end.ok then true
    else
      var success := tomb.successEnd.value;
      && end.bytesSent == success.bytesSent && end.sha256 == success.sha256
      && end.etag == success.etag && end.created == success.created
  }

  predicate TombAccepts(tomb: Tombstone, end: End) {
    end.ack && (SameTerminal(tomb, end) || AcceptsChosenAck(tomb, end))
  }

  // ---- Tombstones -----------------------------------------------------------

  function OrElse<T>(first: Option<T>, second: Option<T>): Option<T> {
    if first.Some? then first else second
  }

  /** The tombstone that replaces `existing` when `slot` is remembered at time `now`. */
  function RememberSlot(existing: Option<Tombstone>, slot: Slot, now: int): Option<Tombstone> {
    if slot.finalEnd.None? then existing
    else
      var seen := slot.inboundBytes + slot.lateBytes;
      var failed := slot.role.Receiver? && slot.phase.Aborted?;
      if existing.None? then
        Some(Tombstone(slot.finalEnd.value, now + TOMBSTONE_TTL_SECONDS, slot.successEnd, slot.localFailure,
                       slot.remoteFailure, slot.crossingAckSent, slot.receiverReady, failed, slot.declared, seen))
      else
        var prior := existing.value;
        Some(Tombstone(slot.finalEnd.value, prior.expiresAt,
                       OrElse(slot.successEnd, prior.successEnd),
                       OrElse(slot.localFailure, prior.localFailure),
                       OrElse(slot.remoteFailure, prior.remoteFailure),
                       slot.crossingAckSent || prior.crossingAckSent,
                       slot.receiverReady || prior.receiverReady,
                       failed || prior.receiverFailed,
                       OrElse(slot.declared, prior.declared),
                       if seen > prior.bytesSeen then seen else prior.bytesSeen))
  }

  function RejectionTombstone(end: End, now: int): Tombstone {
    Tombstone(end, now + TOMBSTONE_TTL_SECONDS, None, Some(end), None, false, false, false, None, 0)
  }

  function Retire(life: Life, now: int): Life
    requires life.slot.Some?
  {
    life.(slot := None, tomb := RememberSlot(life.tomb, life.slot.value, now),
          stalled := if life.pendingPut.Some? then life.slot else None)
  }

  // ---- Terminals the client emits -------------------------------------------

  /** `_enqueue_end`: without room in the critical lane the slot is left as it was. */
  function WithEnd(slot: Slot, end: End, room: bool): (Slot, seq<Event>) {
    if !room then (slot, [])
    else
      var local := if !end.ack && !end.ok then Some(end) else slot.localFailure;
      (slot.(finalEnd := Some(end), localFailure := local), [EndSent(end)])
  }

  function AbortReceiver(slot: Slot, code: string, room: bool): (Slot, seq<Event>) {
    if (slot.phase.Committed? || slot.phase.Aborted?) then (slot, [])
    else
      var aborted := slot.(phase := Aborted, cancelled := true);
      if slot.finalEnd.None? then WithEnd(aborted, FailureEnd(false, code), room) else (aborted, [])
  }

  // ---- Frames handled by the reader -----------------------------------------

  function NewSender(): Slot {
    Slot(Sender, Requested, false, None, None, [], 0, 0, [], 0, false, false, false,
         None, None, None, None, None, false, Opening, false, false)
  }

  function NewReceiver(declared: Option<nat>, sha: Option<string>, upload: bool): Slot {
    Slot(Receiver, Begun, upload, declared, sha, [], 0, 0, [], 0, false, false, false,
         None, None, None, None, None, false, Preparing, false, false)
  }

  /** `_accept_request` and `_accept_begin`, given whether admission granted a lease. */
  function Start(life: Life, slot: Slot, granted: bool, room: bool, now: int): Outcome {
    if life.closed || life.slot.Some? || life.tomb.Some? then Outcome(life, [Refused])
    else if granted then
      Outcome(life.(slot := Some(slot)), [Started(slot.role, slot.declared)])
    else if room then
      var end := FailureEnd(false, "tool_device_busy");
      Outcome(life.(tomb := Some(RejectionTombstone(end, now))), [Started(slot.role, None), EndSent(end)])
    else Outcome(life, [])
  }

  function OnReady(life: Life): Outcome {
    if life.closed || life.slot.None? || life.slot.value.role != Sender || !life.slot.value.phase.Begun?
    then Outcome(life, [Refused])
    else Outcome(life.(slot := Some(life.slot.value.(phase := Streaming, senderReady := true))), [])
  }

  function OnProgress(life: Life, bytesSent: nat): Outcome {
    if || life.closed || life.slot.None? || life.slot.value.role != Receiver
       || !(life.slot.value.phase.Ready? || life.slot.value.phase.Streaming?)
       || bytesSent < life.slot.value.lastProgress
    then Outcome(life, [Refused])
    else Outcome(life.(slot := Some(life.slot.value.(lastProgress := bytesSent))), [])
  }

  /** Append to the bounded inbound queue, or leave the reader blocked on it. */
  function Put(life: Life, slot: Slot, item: Option<Chunk>, events: seq<Event>): Outcome {
    if |slot.inbound| < TRANSFER_CHUNKS_PER_SLOT then
      Outcome(life.(slot := Some(slot.(inbound := slot.inbound + [item]))), events + [Queued(item)])
    else
      Outcome(life.(slot := Some(slot), pendingPut := Some(item)), events)
  }

  function OnBinary(life: Life, chunk: Chunk): Outcome {
    if life.slot.None? then
      if && life.tomb.Some? && life.tomb.value.receiverFailed && life.tomb.value.receiverReady
         && chunk != [] && life.tomb.value.declared.Some?
         && life.tomb.value.bytesSeen + |chunk| <= life.tomb.value.declared.value
      then
        Outcome(life.(tomb := Some(life.tomb.value.(bytesSeen := life.tomb.value.bytesSeen + |chunk|))),
                [BytesTaken(|chunk|)])
      else Outcome(life, [Refused])
    else
      var slot := life.slot.value;
      if slot.role != Receiver || !(slot.phase.Ready? || slot.phase.Streaming?) then
        if && slot.role == Receiver && slot.phase.Aborted? && slot.receiverReady
           && chunk != [] && slot.declared.Some?
           && slot.inboundBytes + slot.lateBytes + |chunk| <= slot.declared.value
        then
          Outcome(life.(slot := Some(slot.(lateBytes := slot.lateBytes + |chunk|))), [BytesTaken(|chunk|)])
        else Outcome(life, [Refused])
      else if slot.declared.Some? && slot.inboundBytes + |chunk| > slot.declared.value then
        Outcome(life, [Refused])
      else
        Put(life, slot.(inboundBytes := slot.inboundBytes + |chunk|), Some(chunk), [BytesTaken(|chunk|)])
  }

  function OnEndTombstone(life: Life, tomb: Tombstone, end: End, room: bool): Outcome {
    if !end.ack && !end.ok && tomb.localFailure == Some(end) then
      if tomb.crossingAckSent || !room then Outcome(life, [])
      else Outcome(life.(tomb := Some(tomb.(crossingAckSent := true))), [CrossingAck(end)])
    else if !end.ack && !end.ok && tomb.remoteFailure == Some(end) then Outcome(life, [])
    else if SameTerminal(tomb, end) || AcceptsChosenAck(tomb, end) then
      Outcome(if end.ack && !tomb.end.ack then life.(tomb := Some(tomb.(end := end))) else life,
              if end.ack then [AckAccepted(end)] else [])
    else Outcome(life, [Refused])
  }

  function Acknowledged(slot: Slot, end: End): Slot {
    var acked := slot.(finalEnd := Some(end), senderAck := true);
    if slot.role.Receiver? then acked else acked.(remoteEnd := Some(end))
  }

  /** The phases in which a failure from the peer ends the slot. */
  predicate GivesWay(slot: Slot) {
    if slot.role.Sender? then !(slot.phase.Ready? || slot.phase.Committed? || slot.phase.Aborted?)
    else slot.phase.Begun? || slot.phase.Ready? || slot.phase.Streaming?
  }

  function GaveWay(slot: Slot, end: End): Slot {
    var aborted := slot.(remoteEnd := Some(end), remoteFailure := Some(end), phase := Aborted);
    if slot.role.Sender? then
      aborted.(senderReady := true, senderAck := true, cancelled := slot.cancelled || !slot.phase.SenderEnded?)
    else aborted.(cancelled := true)
  }

  function OnEndLive(life: Life, slot: Slot, end: End, room: bool): Outcome {
    if !end.ack && !end.ok && slot.phase.Aborted? && slot.localFailure == Some(end) then
      if slot.crossingAckSent || !room then Outcome(life, [])
      else Outcome(life.(slot := Some(slot.(crossingAckSent := true))), [CrossingAck(end)])
    else if !end.ack && !end.ok && slot.phase.Aborted? && slot.remoteFailure == Some(end) then
      Outcome(life, [])
    else if end.ack then
      if !LiveAccepts(slot, end) then Outcome(life, [Refused])
      else Outcome(life.(slot := Some(Acknowledged(slot, end))), [AckAccepted(end)])
    else if !end.ok && GivesWay(slot) then
      var (done, sent) := WithEnd(GaveWay(slot, end), FailureEnd(true, end.code.value), room);
      Outcome(life.(slot := Some(done)), [PeerFailed(end)] + sent)
    else if slot.role.Sender? || !(slot.phase.Ready? || slot.phase.Streaming?) then Outcome(life, [Refused])
    else
      Put(life, slot.(remoteEnd := Some(end), phase := SenderEnded), None, [EndHeld(end)])
  }

  function OnEnd(life: Life, end: End, room: bool): Outcome {
    if life.closed then Outcome(life, [Refused])
    else if life.slot.Some? then OnEndLive(life, life.slot.value, end, room)
    else if life.tomb.Some? then OnEndTombstone(life, life.tomb.value, end, room)
    else Outcome(life, [Refused])
  }

  function PutResumes(life: Life): Outcome
    requires life.pendingPut.Some?
  {
    var rest := life.(pendingPut := None, stalled := None);
    if life.slot.None? then Outcome(rest, [])
    else Put(rest, life.slot.value, life.pendingPut.value, [])
  }

  /** A slot that was retired meanwhile may still send its terminal, but leaves no trace of it. */
  function PutTimesOut(life: Life, room: bool): Outcome {
    var rest := life.(pendingPut := None, stalled := None);
    if life.slot.None? then
      Outcome(rest, if life.stalled.Some? then AbortReceiver(life.stalled.value, TIMEOUT_CODE, room).1 else [])
    else
      var (slot, sent) := AbortReceiver(life.slot.value, TIMEOUT_CODE, room);
      Outcome(rest.(slot := Some(slot)), sent)
  }

  // ---- Worker resumptions ---------------------------------------------------

  function SenderOpened(slot: Slot, room: bool): Slot {
    if room then slot.(phase := Begun, worker := AwaitingReady)
    else slot.(phase := Aborted, worker := Finishing)
  }

  /** The source was read to its end, drained to the socket and found unchanged. */
  function SenderVerified(h: Hash, slot: Slot, room: bool): (Slot, seq<Event>) {
    var end := SuccessEnd(false, |slot.transferred|, h(slot.transferred));
    if room then
      (slot.(phase := SenderEnded, finalEnd := Some(end), successEnd := Some(end), worker := AwaitingAck),
       [EndSent(end)])
    else (slot.(phase := Aborted, worker := Finishing), [])
  }

  /** The tail of `_wait_for_failure_ack`. */
  function ResolveFailureAck(slot: Slot): Slot {
    if slot.remoteEnd.Some? && slot.remoteEnd.value.ack
    then slot.(finalEnd := slot.remoteEnd, worker := Finishing)
    else slot.(worker := Finishing)
  }

  function SenderFails(slot: Slot, code: string, room: bool): (Slot, seq<Event>) {
    var (failed, sent) := WithEnd(slot.(phase := Aborted), FailureEnd(false, code), room);
    if room && !slot.phase.Requested? && !slot.senderAck
    then (failed.(worker := AwaitingFailureAck), sent)
    else if room && !slot.phase.Requested? then (ResolveFailureAck(failed), sent)
    else (failed.(worker := Finishing), sent)
  }

  function SenderAcked(h: Hash, life: Life, slot: Slot, room: bool, now: int): Outcome {
    if slot.remoteEnd.None? || !slot.remoteEnd.value.ok then
      Outcome(life.(slot := Some(ResolveFailureAck(slot))), [])
    else if || slot.remoteEnd.value.bytesSent != Some(|slot.transferred|)
            || slot.remoteEnd.value.sha256 != Some(h(slot.transferred)) then
      var (failed, sent) := SenderFails(slot, "workspace_transfer_integrity_failed", room);
      Outcome(life.(slot := Some(failed)), [AckMismatch] + sent)
    else
      var done := slot.(finalEnd := slot.remoteEnd, worker := Finishing);
      Outcome(life.(slot := Some(done), tomb := RememberSlot(life.tomb, done, now)), [])
  }

  function ReceiverReserved(slot: Slot, room: bool): Slot {
    if room then slot.(receiverReady := true, phase := Ready, worker := OpeningTemporary)
    else slot.(worker := Finishing)
  }

  function ReservationFails(slot: Slot, code: string, room: bool): (Slot, seq<Event>) {
    if slot.phase.Aborted? then (slot.(worker := Finishing), [])
    else
      var (failed, sent) := WithEnd(slot.(phase := Aborted), FailureEnd(false, code), room);
      (failed.(worker := if room then AwaitingRejectionAck else Finishing), sent)
  }

  function ReceiverGets(slot: Slot): Slot
    requires slot.inbound != []
  {
    slot.(
      inbound := slot.inbound[1..],
      worker := match slot.inbound[0]
        case None => Sealing
        case Some(chunk) => if chunk == [] then slot.worker else Writing(chunk))
  }

  /** The write returned; the phase becomes STREAMING whatever it was meanwhile. */
  function ReceiverWrote(slot: Slot): Slot
    requires slot.worker.Writing?
  {
    slot.(transferred := slot.transferred + slot.worker.chunk, phase := Streaming, worker := Receiving)
  }

  function ReceiverFails(slot: Slot, code: string, room: bool): (Slot, seq<Event>) {
    var (failed, sent) :=
      WithEnd(slot.(phase := Aborted), FailureEnd(slot.remoteEnd.Some?, code), room);
    (failed.(worker := Finishing), sent)
  }

  /** The code of the first check a sealed temporary file fails, if any. */
  function SealError(h: Hash, slot: Slot): Option<string> {
    if slot.remoteEnd.None? then Some(TIMEOUT_CODE)
    else if !slot.remoteEnd.value.ok then slot.remoteEnd.value.code
    else if || (slot.declared.Some? && |slot.transferred| != slot.declared.value)
            || slot.remoteEnd.value.bytesSent != Some(|slot.transferred|)
            || slot.remoteEnd.value.sha256 != Some(h(slot.transferred))
            || (slot.expectedSha.Some? && slot.expectedSha.value != h(slot.transferred))
    then Some("workspace_transfer_integrity_failed")
    else None
  }

  function ReceiverSealed(h: Hash, slot: Slot, room: bool): (Slot, seq<Event>) {
    match SealError(h, slot)
    case Some(code) => ReceiverFails(slot, code, room)
    case None => (slot.(worker := Verified), [Checked(slot.remoteEnd.value, slot.transferred)])
  }

  /** The publishing thread returned to its worker. */
  function ReceiverCommitted(h: Hash, life: Life, slot: Slot, room: bool, now: int): Outcome {
    var committed := slot.(phase := Committed);
    if slot.upload then
      Outcome(life.(slot := Some(committed.(worker := Recording))), [Published(slot.transferred)])
    else
      var (done, sent) := Finish(life, committed, CommitEnd(h, slot.transferred, None, None), room, now);
      Outcome(done, [Published(slot.transferred)] + sent)
  }

  function CommitEnd(h: Hash, content: seq<byte>, etag: Option<string>, created: Option<bool>): End {
    var end := SuccessEnd(true, |content|, h(content));
    if etag.Some? && created.Some? then end.(etag := etag, created := created) else end
  }

  /** Announce the commit and remember the slot, as the receiver's last step. */
  function Finish(life: Life, slot: Slot, end: End, room: bool, now: int): (Life, seq<Event>) {
    if room then
      var done := slot.(finalEnd := Some(end), worker := Finishing);
      (life.(slot := Some(done), tomb := RememberSlot(life.tomb, done, now)), [EndSent(end)])
    else (life.(slot := Some(slot.(worker := Finishing))), [])
  }

  // ---- The step relation ----------------------------------------------------

  /** Resumptions of `_send_requested`. */
  datatype SenderAction =
    | SourceOpened(room: bool)
    | ReadyResumes
    | SourceChunk(chunk: Chunk)
    | SourceVerified(room: bool)
    | SendingFails(code: string, room: bool)
    | AckResumes(room: bool, now: int)
    | FailureAckResumes

  predicate SenderCan(slot: Slot, a: SenderAction) {
    && slot.role.Sender?
    && !slot.cancelled
    && match a
       case SourceOpened(_) => slot.worker.Opening?
       case ReadyResumes => slot.worker.AwaitingReady? && slot.senderReady
       case SourceChunk(chunk) => slot.worker.Reading? && chunk != []
       case SourceVerified(_) => slot.worker.Reading?
       case SendingFails(_, _) =>
         slot.worker.Opening? || slot.worker.AwaitingReady? || slot.worker.Reading? || slot.worker.AwaitingAck?
       case AckResumes(_, _) => slot.worker.AwaitingAck? && slot.senderAck
       case FailureAckResumes => slot.worker.AwaitingFailureAck?
  }

  function SenderStep(h: Hash, life: Life, slot: Slot, a: SenderAction): Outcome {
    match a
    case SourceOpened(room) => Outcome(life.(slot := Some(SenderOpened(slot, room))), [])
    case ReadyResumes => Outcome(life.(slot := Some(slot.(worker := Reading))), [])
    case SourceChunk(chunk) =>
      Outcome(life.(slot := Some(slot.(transferred := slot.transferred + chunk))), [SourceRead(chunk)])
    case SourceVerified(room) =>
      var (next, sent) := SenderVerified(h, slot, room);
      Outcome(life.(slot := Some(next)), sent)
    case SendingFails(code, room) =>
      var (next, sent) := SenderFails(slot, code, room);
      Outcome(life.(slot := Some(next)), sent)
    case AckResumes(room, now) => SenderAcked(h, life, slot, room, now)
    case FailureAckResumes => Outcome(life.(slot := Some(ResolveFailureAck(slot))), [])
  }

  /** Resumptions of `_prepare_receiver`, `_await_rejection_ack` and `_receive_destination`. */
  datatype ReceiverAction =
    | DestinationReserved(room: bool)
    | DestinationRefused(code: string, room: bool)
    | RejectionAckResumes
    | TemporaryOpened
    | QueueGives
    | ChunkWritten
    | TemporarySealed(room: bool)
    | CommitStarts
    | CommitReturns(room: bool, now: int)
    | TagRecorded(etag: string, created: bool, room: bool, now: int)
    | ReceivingFails(code: string, room: bool)

  predicate MayFail(w: Worker) {
    || w.OpeningTemporary? || w.Receiving? || w.Writing? || w.Sealing? || w.Verified? || w.Committing? || w.Recording?
  }

  predicate ReceiverCan(slot: Slot, a: ReceiverAction) {
    && slot.role.Receiver?
    && !slot.cancelled
    && match a
       case DestinationReserved(_) => slot.worker.Preparing?
       case DestinationRefused(_, _) => slot.worker.Preparing?
       case RejectionAckResumes => slot.worker.AwaitingRejectionAck?
       case TemporaryOpened => slot.worker.OpeningTemporary?
       case QueueGives => slot.worker.Receiving? && slot.inbound != []
       case ChunkWritten => slot.worker.Writing?
       case TemporarySealed(_) => slot.worker.Sealing?
       case CommitStarts => slot.worker.Verified?
       case CommitReturns(_, _) => slot.worker.Committing?
       case TagRecorded(_, _, _, _) => slot.worker.Recording?
       case ReceivingFails(_, _) => MayFail(slot.worker)
  }

  function ReceiverStep(h: Hash, life: Life, slot: Slot, a: ReceiverAction): Outcome
    requires ReceiverCan(slot, a)
  {
    match a
    case DestinationReserved(room) => Outcome(life.(slot := Some(ReceiverReserved(slot, room))), [])
    case DestinationRefused(code, room) =>
      var (next, sent) := ReservationFails(slot, code, room);
      Outcome(life.(slot := Some(next)), sent)
    case RejectionAckResumes => Outcome(life.(slot := Some(slot.(worker := Finishing))), [])
    case TemporaryOpened => Outcome(life.(slot := Some(slot.(worker := Receiving))), [])
    case QueueGives => Outcome(life.(slot := Some(ReceiverGets(slot))), [Dequeued])
    case ChunkWritten => Outcome(life.(slot := Some(ReceiverWrote(slot))), [])
    case TemporarySealed(room) =>
      var (next, sent) := ReceiverSealed(h, slot, room);
      Outcome(life.(slot := Some(next)), sent)
    case CommitStarts => Outcome(life.(slot := Some(slot.(worker := Committing))), [])
    case CommitReturns(room, now) => ReceiverCommitted(h, life, slot, room, now)
    case TagRecorded(etag, created, room, now) =>
      var (next, sent) := Finish(life, slot, CommitEnd(h, slot.transferred, Some(etag), Some(created)), room, now);
      Outcome(next, sent)
    case ReceivingFails(code, room) =>
      var (next, sent) := ReceiverFails(slot, code, room);
      Outcome(life.(slot := Some(next)), sent)
  }

  /** Frames the connection reader hands over, one at a time. */
  datatype Frame =
    | RequestFrame(granted: bool, room: bool, now: int)
    | BeginFrame(total: Option<nat>, sha: Option<string>, forUpload: bool, granted: bool, room: bool, now: int)
    | ReadyFrame
    | ProgressFrame(bytesSent: nat)
    | BinaryFrame(chunk: Chunk)
    | EndFrame(end: End, room: bool)

  function ReaderStep(life: Life, f: Frame): Outcome {
    match f
    case RequestFrame(granted, room, now) => Start(life, NewSender(), granted, room, now)
    case BeginFrame(total, sha, upload, granted, room, now) =>
      Start(life, NewReceiver(total, sha, upload), granted, room, now)
    case ReadyFrame => OnReady(life)
    case ProgressFrame(bytesSent) => OnProgress(life, bytesSent)
    case BinaryFrame(chunk) => OnBinary(life, chunk)
    case EndFrame(end, room) => OnEnd(life, end, room)
  }

  datatype Action =
    | Arrives(frame: Frame)
    | PutIsResumed
    | PutIsTimedOut(room: bool)
    | SenderActs(sender: SenderAction)
    | ReceiverActs(receiver: ReceiverAction)
    | WorkerCancelled
    | DetachedCommitLands(index: nat)
    | CleanupStarts(draining: bool, now: int)
    | CleanupEnds(now: int)
    | Shutdown(room: bool)
    | TombstoneForgotten

  predicate Enabled(life: Life, a: Action) {
    match a
    case Arrives(_) => life.pendingPut.None?
    case PutIsResumed =>
      life.pendingPut.Some? && (life.slot.Some? ==> |life.slot.value.inbound| < TRANSFER_CHUNKS_PER_SLOT)
    case PutIsTimedOut(_) => life.pendingPut.Some?
    case SenderActs(act) => life.slot.Some? && SenderCan(life.slot.value, act)
    case ReceiverActs(act) => life.slot.Some? && ReceiverCan(life.slot.value, act)
    case WorkerCancelled => life.slot.Some? && life.slot.value.cancelled && !life.slot.value.worker.Finishing?
    case DetachedCommitLands(index) => index < |life.detached|
    case CleanupStarts(_, _) =>
      life.slot.Some? && life.slot.value.worker.Finishing? && !life.slot.value.cleaning
    case CleanupEnds(_) => life.slot.Some? && life.slot.value.cleaning
    case Shutdown(_) => !life.closed
    case TombstoneForgotten => true
  }

  /** Cancellation reaches the worker; a publishing thread it awaited runs on. */
  function DeliverCancel(life: Life, slot: Slot): Life {
    life.(slot := Some(slot.(worker := Finishing)),
          detached := if slot.worker.Committing? then life.detached + [slot.transferred] else life.detached)
  }

  /** What shutdown does to a live slot before it waits for the workers. */
  function Closing(slot: Slot, room: bool): (Slot, seq<Event>) {
    var (ended, sent) :=
      if slot.finalEnd.None? then WithEnd(slot, FailureEnd(false, "peer_disconnected"), room) else (slot, []);
    var stopped := ended.(cancelled := ended.cancelled || !ended.cleaning);
    if stopped.role.Receiver? && |stopped.inbound| < TRANSFER_CHUNKS_PER_SLOT then
      (stopped.(inbound := stopped.inbound + [None]), sent + [Queued(None)])
    else (stopped, sent)
  }

  function ShutdownStep(life: Life, room: bool): Outcome {
    var closing := life.(closed := true);
    if life.slot.None? then Outcome(closing, [])
    else
      var (slot, events) := Closing(life.slot.value, room);
      Outcome(closing.(slot := Some(slot)), events)
  }

  function Step(h: Hash, life: Life, a: Action): Outcome
    requires Enabled(life, a)
  {
    match a
    case Arrives(frame) => ReaderStep(life, frame)
    case PutIsResumed => PutResumes(life)
    case PutIsTimedOut(room) => PutTimesOut(life, room)
    case SenderActs(act) => SenderStep(h, life, life.slot.value, act)
    case ReceiverActs(act) => ReceiverStep(h, life, life.slot.value, act)
    case WorkerCancelled => Outcome(DeliverCancel(life, life.slot.value), [])
    case DetachedCommitLands(i) =>
      Outcome(life.(detached := life.detached[..i] + life.detached[i + 1..]), [Published(life.detached[i])])
    case CleanupStarts(draining, now) =>
      var cleaning := life.(slot := Some(life.slot.value.(cleaning := true)));
      Outcome(if draining then Retire(cleaning, now) else cleaning, [])
    case CleanupEnds(now) => Outcome(Retire(life, now), [])
    case Shutdown(room) => ShutdownStep(life, room)
    case TombstoneForgotten => Outcome(life.(tomb := None), [])
  }
}
