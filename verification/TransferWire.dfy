/**
 The slot machine of one identifier and the wire of all, run together.  The sender's worker
 is in both: where it opens its lane, reads a chunk or announces success, both take a step and
 agree on the outcome.  What a peer's acknowledgement vouches for is then what went out.
 */
module TransferWire {
  import opened Basics
  import opened Protocol
  import opened TransferSlot
  import opened TransferRuns
  import F = EndFinality
  import W = SenderWire
  import Q = Writer

  datatype Joint = Joint(life: Life, wire: W.Wire)

  datatype JointStep =
    | SlotStep(action: Action)
    | WireStep(step: W.Step)
    | BothStep(action: Action, step: W.Step)

  /** Resumptions of the sender that touch the wire. */
  predicate TouchesWire(a: Action) {
    a.SenderActs? && (a.sender.SourceOpened? || a.sender.SourceChunk? || a.sender.SourceVerified?)
  }

  /** Wire steps that only the worker of `id` takes. */
  predicate OfWorker(s: W.Step, id: Uuid) {
    (s.Open? || s.Read? || s.Finish?) && s.id == id
  }

  predicate Couple(a: Action, s: W.Step, id: Uuid) {
    && a.SenderActs?
    && match a.sender
       case SourceOpened(_) => s.Open? && s.id == id
       case SendingFails(_, _) => s.Open? && s.id == id
       case SourceChunk(chunk) => s == W.Read(id, chunk)
       case SourceVerified(_) => s == W.Finish(id)
       case _ => false
  }

  /** Both sides saw the same room in the queues. */
  predicate Agree(a: Action, after: W.Wire, id: Uuid)
    requires a.SenderActs?
  {
    && W.Known(after, id)
    && match a.sender
       case SourceOpened(room) => room <==> W.Now(after, id).stage.Reading?
       case SendingFails(_, _) => W.Now(after, id).stage.Stopped?
       case SourceVerified(room) => room <==> W.Now(after, id).stage.Ended?
       case _ => true
  }

  ghost predicate Can(h: Hash, j: Joint, t: JointStep, id: Uuid) {
    match t
    case SlotStep(a) => Enabled(j.life, a) && !TouchesWire(a)
    case WireStep(s) => Q.Inv(j.wire.w) && W.Enabled(j.wire, s) && !OfWorker(s, id)
    case BothStep(a, s) =>
      && Enabled(j.life, a) && Q.Inv(j.wire.w) && W.Enabled(j.wire, s) && Couple(a, s, id)
      && (a.sender.SendingFails? ==> j.life.slot.value.worker.Opening?)
      && Agree(a, W.After(h, j.wire, s), id)
  }

  ghost function Next(h: Hash, j: Joint, t: JointStep, id: Uuid): Joint
    requires Can(h, j, t, id)
  {
    match t
    case SlotStep(a) => j.(life := Step(h, j.life, a).life)
    case WireStep(s) => j.(wire := W.After(h, j.wire, s))
    case BothStep(a, s) => Joint(Step(h, j.life, a).life, W.After(h, j.wire, s))
  }

  ghost function EventsOf(h: Hash, j: Joint, t: JointStep, id: Uuid): seq<Event>
    requires Can(h, j, t, id)
  {
    if t.WireStep? then [] else Step(h, j.life, t.action).events
  }

  // ---- What ties the two ----------------------------------------------------

  /** A sender that has not announced anything yet, and one that has its lane. */
  predicate Early(life: Life) {
    && life.slot.Some? && life.slot.value.role.Sender?
    && var w := life.slot.value.worker;
       w.Opening? || w.AwaitingReady? || w.Reading?
  }

  predicate Streaming(life: Life) {
    Early(life) && !life.slot.value.worker.Opening?
  }

  /** While it streams, the worker has read on both sides what it has read. */
  ghost predicate Tied(h: Hash, life: Life, m: Monitor, x: W.Wire, id: Uuid) {
    && (Early(life) && life.slot.value.worker.Opening? ==> life.slot.value.transferred == [])
    && (Streaming(life) ==>
          W.Known(x, id) && !W.Now(x, id).stage.Ended? && Concat(W.Now(x, id).read) == m.read && m.success.None?)
    && (m.success.Some? ==>
          && W.Known(x, id) && W.Now(x, id).stage.Ended? && Concat(W.Now(x, id).read) == m.read
          && m.success.value == SuccessEnd(false, |m.read|, h(m.read)))
  }

  ghost predicate JointInv(h: Hash, j: Joint, m: Monitor, id: Uuid) {
    Inv(h, j.life, m) && W.WireInv(h, j.wire) && Tied(h, j.life, m, j.wire, id)
  }

  // ---- Steps of the wire ----------------------------------------------------

  /** Nothing but its own worker changes what a life has read or that it ended. */
  predicate SameReads(x: W.Wire, y: W.Wire, id: Uuid) {
    W.Known(x, id) ==>
      && W.Known(y, id) && W.Now(y, id).read == W.Now(x, id).read
      && (W.Now(y, id).stage.Ended? <==> W.Now(x, id).stage.Ended?)
  }

  lemma OtherLife(h: Hash, x: W.Wire, id: Uuid, other: Uuid)
    requires W.WireInv(h, x) && W.Known(x, id) && W.Known(x, other) && id != other
    ensures x.current[id] != x.current[other]
  {
    hide Q.Inv, W.LanesOk, W.QueuedOk, W.SentOk, W.LanesOwned, W.ReadsOk, W.Separate, W.Carried;
  }

  lemma BecomeReads(h: Hash, x: W.Wire, id: Uuid, other: Uuid, s: W.Sender, w: Q.Writer)
    requires W.WireInv(h, x) && W.Known(x, other)
    requires s.read == W.Now(x, other).read && (s.stage.Ended? <==> W.Now(x, other).stage.Ended?)
    ensures SameReads(x, W.Become(x, other, s).(w := w), id)
  {
    hide W.WireInv;
    if id != other && W.Known(x, id) {
      OtherLife(h, x, id, other);
    }
  }

  lemma OtherBecomes(h: Hash, x: W.Wire, id: Uuid, other: Uuid, s: W.Sender, w: Q.Writer)
    requires W.WireInv(h, x) && W.Known(x, other) && id != other
    ensures SameReads(x, W.Become(x, other, s).(w := w), id)
  {
    hide W.WireInv;
    if W.Known(x, id) {
      OtherLife(h, x, id, other);
    }
  }

  lemma OtherBegins(h: Hash, x: W.Wire, id: Uuid, other: Uuid, stage: W.Stage, w: Q.Writer)
    requires W.WireInv(h, x) && id != other
    ensures SameReads(x, W.Begun(x, other, stage).(w := w), id)
  {
    hide W.WireInv;
    if W.Known(x, id) && W.Known(x, other) {
      OtherLife(h, x, id, other);
    }
  }

  lemma WireKeepsReads(h: Hash, x: W.Wire, s: W.Step, id: Uuid)
    requires W.WireInv(h, x) && Q.Inv(x.w) && W.Enabled(x, s) && !OfWorker(s, id)
    ensures SameReads(x, W.After(h, x, s), id)
  {
    hide W.WireInv, Q.Inv, Q.EnqueueBinary, Q.EnqueueCritical, Q.Register, Q.Discard, SameReads,
         W.R.After, W.R.Emitted, W.Terminal;
    match s
    case Open(o, total) =>
      if Q.Register(x.w, o).Err? {
        OtherBegins(h, x, id, o, W.Stopped, x.w);
      } else {
        var w := Q.Register(x.w, o).value;
        OtherBegins(h, x, id, o, W.Stopped, w);
        if Q.EnqueueCritical(w, Q.BeginControl(o, total)).Ok? {
          OtherBegins(h, x, id, o, W.Reading, Q.EnqueueCritical(w, Q.BeginControl(o, total)).value);
        }
      }
    case Read(o, chunk) =>
      OtherBecomes(h, x, id, o, W.Now(x, o).(read := W.Now(x, o).read + [chunk], hand := true), x.w);
    case Queue(o) => QueueReads(h, x, id, o);
    case EndOfFile(o) => BecomeReads(h, x, id, o, W.Now(x, o).(stage := W.Draining), x.w);
    case Drained(o) => BecomeReads(h, x, id, o, W.Now(x, o).(stage := W.Checking, whole := x.w.running), x.w);
    case Finish(o) =>
      var c := W.Terminal(h, W.Now(x, o), x.current[o]);
      OtherBecomes(h, x, id, o, W.Now(x, o).(stage := W.Stopped), x.w);
      if Q.EnqueueCritical(x.w, c).Ok? {
        OtherBecomes(h, x, id, o, W.Now(x, o).(stage := W.Ended), Q.EnqueueCritical(x.w, c).value);
      }
    case Halt(o) => StopReads(h, x, id, o, x.w);
    case PeerFails(o) => StopReads(h, x, id, o, Q.Discard(x.w, o));
    case _ => WriterReads(x, W.After(h, x, s), id);
  }

  lemma WriterReads(x: W.Wire, y: W.Wire, id: Uuid)
    requires y.senders == x.senders && y.current == x.current
    ensures SameReads(x, y, id)
  {
  }

  lemma StopReads(h: Hash, x: W.Wire, id: Uuid, o: Uuid, w: Q.Writer)
    requires W.WireInv(h, x) && W.Known(x, o)
    ensures SameReads(x, W.Stopping(x, o).(w := w), id)
  {
    hide W.WireInv, SameReads;
    if W.Now(x, o).stage.Ended? {
      WriterReads(x, x.(w := w), id);
    } else {
      BecomeReads(h, x, id, o, W.Now(x, o).(stage := W.Stopped), w);
    }
  }

  lemma QueueReads(h: Hash, x: W.Wire, id: Uuid, o: Uuid)
    requires W.WireInv(h, x) && Q.Inv(x.w) && W.Enabled(x, W.Queue(o))
    ensures SameReads(x, W.Queueing(x, o), id)
  {
    hide W.WireInv, Q.Inv, SameReads, Q.EnqueueBinary;
    W.LifeFacts(h, x, o);
    var s := W.Now(x, o);
    match Q.EnqueueBinary(x.w, o, s.read[|s.read| - 1])
    case Ok(w) => BecomeReads(h, x, id, o, s.(hand := false), w);
    case Err(LaneFull) => WriterReads(x, x, id);
    case Err(_) => BecomeReads(h, x, id, o, s.(stage := W.Stopped), x.w);
  }

  // ---- Steps of the slot ----------------------------------------------------

  /** An event that says nothing about what was read or announced. */
  predicate Quiet(e: Event) {
    !e.SourceRead? && !(e.EndSent? && e.end.ok && !e.end.ack)
  }

  predicate AllQuiet(events: seq<Event>) {
    forall i | 0 <= i < |events| :: Quiet(events[i])
  }

  predicate NoStart(events: seq<Event>) {
    forall i | 0 <= i < |events| :: !events[i].Started?
  }

  lemma {:induction false} ObserveQuiet(m: Monitor, events: seq<Event>)
    requires AllQuiet(events)
    ensures var n := ObserveAll(m, events);
            && (NoStart(events) ==> n.success == m.success && n.read == m.read)
            && (n.success.Some? ==> n.success == m.success && n.read == m.read)
    decreases |events|
  {
    if events != [] {
      assert Quiet(events[0]);
      ObserveQuiet(Observe(m, events[0]), events[1..]);
    }
  }

  /** The slot went on without a word about reading; if it is early it was, or is new. */
  predicate Uneventful(life: Life, o: Outcome) {
    && AllQuiet(o.events)
    && (Early(o.life) ==>
          || o.life.slot.value == NewSender()
          || (&& Early(life) && NoStart(o.events)
              && o.life.slot.value.transferred == life.slot.value.transferred
              && (o.life.slot.value.worker.Opening? <==> life.slot.value.worker.Opening?)))
  }

  lemma WithEndQuiet(s: Slot, end: End, room: bool)
    requires !end.ok || end.ack
    ensures var (t, sent) := WithEnd(s, end, room);
            && AllQuiet(sent) && NoStart(sent)
            && t.role == s.role && t.worker == s.worker && t.transferred == s.transferred
  {
  }

  lemma StartQuiet(life: Life, slot: Slot, granted: bool, room: bool, now: int)
    requires slot == NewSender() || slot.role.Receiver?
    ensures Uneventful(life, Start(life, slot, granted, room, now))
  {
  }

  /** The slot's work is where it was. */
  predicate SameWork(s: Slot, next: Option<Slot>) {
    next.Some? && next.value.role == s.role && next.value.worker == s.worker && next.value.transferred == s.transferred
  }

  lemma SameWorkIsUneventful(life: Life, s: Slot, o: Outcome)
    requires life.slot == Some(s) && SameWork(s, o.life.slot) && AllQuiet(o.events) && NoStart(o.events)
    ensures Uneventful(life, o)
  {
  }

  lemma PeerFailsQuiet(life: Life, s: Slot, end: End, room: bool)
    requires life.slot == Some(s) && end.code.Some?
    ensures var (done, sent) := WithEnd(GaveWay(s, end), FailureEnd(true, end.code.value), room);
            SameWork(s, Some(done)) && AllQuiet([PeerFailed(end)] + sent) && NoStart([PeerFailed(end)] + sent)
  {
    hide WithEnd, GaveWay;
    GaveWayWorker(s, end);
    WithEndQuiet(GaveWay(s, end), FailureEnd(true, end.code.value), room);
  }

  lemma HeldQuiet(life: Life, s: Slot, end: End)
    ensures var o := Put(life, s.(remoteEnd := Some(end), phase := SenderEnded), None, [EndHeld(end)]);
            SameWork(s, o.life.slot) && AllQuiet(o.events) && NoStart(o.events)
  {
    hide Put;
    PutQuiet(life, s.(remoteEnd := Some(end), phase := SenderEnded), None, [EndHeld(end)]);
  }

  lemma QuietOne(e: Event)
    requires Quiet(e) && !e.Started?
    ensures AllQuiet([e]) && NoStart([e]) && AllQuiet([]) && NoStart([])
  {
  }

  lemma CrossedWorker(s: Slot)
    ensures SameWork(s, Some(s)) && SameWork(s, Some(s.(crossingAckSent := true)))
  {
  }

  lemma LiveEndWork(life: Life, s: Slot, end: End, room: bool)
    requires life.slot == Some(s)
    ensures var o := OnEndLive(life, s, end, room); SameWork(s, o.life.slot) && AllQuiet(o.events) && NoStart(o.events)
  {
    hide LiveAccepts, WithEnd, Put, GaveWay, GivesWay, Acknowledged, AllQuiet, NoStart, SameWork;
    AcknowledgedWorker(s, end);
    CrossedWorker(s);
    QuietOne(CrossingAck(end));
    QuietOne(AckAccepted(end));
    QuietOne(Refused);
    if end.code.Some? {
      PeerFailsQuiet(life, s, end, room);
    }
    HeldQuiet(life, s, end);
  }

  lemma LiveEndQuiet(life: Life, s: Slot, end: End, room: bool)
    requires life.slot == Some(s)
    ensures Uneventful(life, OnEndLive(life, s, end, room))
  {
    hide OnEndLive, Uneventful;
    LiveEndWork(life, s, end, room);
    SameWorkIsUneventful(life, s, OnEndLive(life, s, end, room));
  }

  lemma AcknowledgedWorker(s: Slot, end: End)
    ensures SameWork(s, Some(Acknowledged(s, end)))
  {
  }

  lemma TombEndQuiet(life: Life, t: Tombstone, end: End, room: bool)
    requires life.slot.None?
    ensures Uneventful(life, OnEndTombstone(life, t, end, room))
  {
    hide SameTerminal, AcceptsChosenAck;
  }

  lemma BinaryQuiet(life: Life, chunk: Chunk)
    ensures Uneventful(life, OnBinary(life, chunk))
  {
    hide Put;
    if life.slot.Some? {
      var s := life.slot.value;
      PutQuiet(life, s.(inboundBytes := s.inboundBytes + |chunk|), Some(chunk), [BytesTaken(|chunk|)]);
    }
  }

  lemma ReaderQuiet(life: Life, f: Frame)
    ensures Uneventful(life, ReaderStep(life, f))
  {
    hide OnEndLive, OnEndTombstone, OnBinary, Start;
    match f
    case RequestFrame(granted, room, now) => StartQuiet(life, NewSender(), granted, room, now);
    case BeginFrame(total, sha, upload, granted, room, now) =>
      StartQuiet(life, NewReceiver(total, sha, upload), granted, room, now);
    case EndFrame(end, room) =>
      if life.slot.Some? {
        LiveEndQuiet(life, life.slot.value, end, room);
      } else if life.tomb.Some? {
        TombEndQuiet(life, life.tomb.value, end, room);
      }
    case BinaryFrame(chunk) => BinaryQuiet(life, chunk);
    case _ =>
  }

  lemma GaveWayWorker(s: Slot, end: End)
    ensures var t := GaveWay(s, end); t.role == s.role && t.worker == s.worker && t.transferred == s.transferred
  {
  }

  lemma QuietSnoc(events: seq<Event>, e: Event)
    requires AllQuiet(events) && NoStart(events) && Quiet(e) && !e.Started?
    ensures AllQuiet(events + [e]) && NoStart(events + [e])
  {
  }

  lemma PutQuiet(life: Life, s: Slot, item: Option<Chunk>, events: seq<Event>)
    requires AllQuiet(events) && NoStart(events)
    ensures var o := Put(life, s, item, events);
            AllQuiet(o.events) && NoStart(o.events) && SameWork(s, o.life.slot)
  {
    hide AllQuiet, NoStart, SameWork;
    QuietSnoc(events, Queued(item));
    AppendedWork(s, item);
  }

  lemma AppendedWork(s: Slot, item: Option<Chunk>)
    ensures SameWork(s, Some(s)) && SameWork(s, Some(s.(inbound := s.inbound + [item])))
  {
  }

  lemma ResolvedWorker(s: Slot)
    ensures ResolveFailureAck(s).worker.Finishing?
  {
  }

  lemma SenderFailsQuiet(s: Slot, code: string, room: bool)
    ensures var (t, sent) := SenderFails(s, code, room);
            AllQuiet(sent) && NoStart(sent) && (t.worker.Finishing? || t.worker.AwaitingFailureAck?)
  {
    hide WithEnd, ResolveFailureAck;
    WithEndQuiet(s.(phase := Aborted), FailureEnd(false, code), room);
    ResolvedWorker(WithEnd(s.(phase := Aborted), FailureEnd(false, code), room).0);
  }

  lemma AckedQuiet(h: Hash, life: Life, s: Slot, room: bool, now: int)
    ensures var o := SenderAcked(h, life, s, room, now); AllQuiet(o.events) && !Early(o.life)
  {
    hide SenderFails, RememberSlot, ResolveFailureAck;
    ResolvedWorker(s);
    SenderFailsQuiet(s, "workspace_transfer_integrity_failed", room);
  }

  lemma SenderQuiet(h: Hash, life: Life, s: Slot, a: SenderAction)
    requires life.slot == Some(s) && SenderCan(s, a) && !TouchesWire(SenderActs(a))
    ensures Uneventful(life, SenderStep(h, life, s, a))
  {
    hide SenderFails, SenderAcked, SenderVerified;
    match a
    case SendingFails(code, room) => SenderFailsQuiet(s, code, room);
    case AckResumes(room, now) => AckedQuiet(h, life, s, room, now);
    case _ =>
  }

  lemma ReceiverFailsQuiet(s: Slot, code: string, room: bool)
    ensures AllQuiet(ReceiverFails(s, code, room).1) && AllQuiet(ReservationFails(s, code, room).1)
  {
    hide WithEnd;
    WithEndQuiet(s.(phase := Aborted), FailureEnd(s.remoteEnd.Some?, code), room);
    WithEndQuiet(s.(phase := Aborted), FailureEnd(false, code), room);
  }

  lemma SealedQuiet(h: Hash, s: Slot, room: bool)
    ensures AllQuiet(ReceiverSealed(h, s, room).1)
  {
    hide SealError, ReceiverFails;
    if SealError(h, s).Some? {
      ReceiverFailsQuiet(s, SealError(h, s).value, room);
    }
  }

  lemma FinishQuiet(life: Life, s: Slot, end: End, room: bool, now: int)
    requires end.ack
    ensures AllQuiet(Finish(life, s, end, room, now).1)
  {
    hide RememberSlot;
  }

  lemma CommittedQuiet(h: Hash, life: Life, s: Slot, room: bool, now: int)
    ensures AllQuiet(ReceiverCommitted(h, life, s, room, now).events)
  {
    hide Finish;
    FinishQuiet(life, s.(phase := Committed), CommitEnd(h, s.transferred, None, None), room, now);
  }

  lemma ReceiverQuiet(h: Hash, life: Life, s: Slot, a: ReceiverAction)
    requires life.slot == Some(s) && ReceiverCan(s, a)
    ensures AllQuiet(ReceiverStep(h, life, s, a).events) && !Early(ReceiverStep(h, life, s, a).life)
  {
    F.WorkerStepTo(h, life, s, a);
    ReceiverEvents(h, life, s, a);
    hide ReceiverStep;
  }

  lemma ReceiverEvents(h: Hash, life: Life, s: Slot, a: ReceiverAction)
    requires life.slot == Some(s) && ReceiverCan(s, a)
    ensures AllQuiet(ReceiverStep(h, life, s, a).events)
  {
    hide ReceiverFails, ReservationFails, ReceiverSealed, ReceiverCommitted, Finish;
    match a
    case DestinationRefused(code, room) => ReceiverFailsQuiet(s, code, room);
    case TemporarySealed(room) => SealedQuiet(h, s, room);
    case CommitReturns(room, now) => CommittedQuiet(h, life, s, room, now);
    case TagRecorded(etag, created, room, now) =>
      FinishQuiet(life, s, CommitEnd(h, s.transferred, Some(etag), Some(created)), room, now);
    case ReceivingFails(code, room) => ReceiverFailsQuiet(s, code, room);
    case _ =>
  }

  lemma ClosingQuiet(life: Life, room: bool)
    ensures Uneventful(life, ShutdownStep(life, room))
  {
    hide WithEnd;
    if life.slot.Some? {
      WithEndQuiet(life.slot.value, FailureEnd(false, "peer_disconnected"), room);
    }
  }

  lemma TimeOutQuiet(life: Life, room: bool)
    ensures Uneventful(life, PutTimesOut(life, room))
  {
    hide WithEnd;
    if life.slot.Some? {
      WithEndQuiet(life.slot.value.(phase := Aborted, cancelled := true), FailureEnd(false, TIMEOUT_CODE), room);
    } else if life.stalled.Some? {
      WithEndQuiet(life.stalled.value.(phase := Aborted, cancelled := true), FailureEnd(false, TIMEOUT_CODE), room);
    }
  }

  lemma ResumeQuiet(life: Life)
    requires life.pendingPut.Some?
    ensures Uneventful(life, PutResumes(life))
  {
    hide Put;
    if life.slot.Some? {
      PutQuiet(life.(pendingPut := None, stalled := None), life.slot.value, life.pendingPut.value, []);
    }
  }

  lemma SlotStepQuiet(h: Hash, life: Life, a: Action)
    requires Enabled(life, a) && !TouchesWire(a)
    ensures Uneventful(life, Step(h, life, a))
  {
    hide ReaderStep, SenderStep, ReceiverStep, SenderCan, ReceiverCan, ShutdownStep, PutTimesOut, PutResumes,
         RememberSlot;
    match a
    case Arrives(frame) => ReaderQuiet(life, frame);
    case SenderActs(act) => SenderQuiet(h, life, life.slot.value, act);
    case ReceiverActs(act) => ReceiverQuiet(h, life, life.slot.value, act);
    case PutIsResumed => ResumeQuiet(life);
    case PutIsTimedOut(room) => TimeOutQuiet(life, room);
    case Shutdown(room) => ClosingQuiet(life, room);
    case _ =>
  }

  // ---- Joint steps keep the tie ---------------------------------------------

  lemma SlotStepKeeps(h: Hash, j: Joint, m: Monitor, a: Action, id: Uuid)
    requires JointInv(h, j, m, id) && Enabled(j.life, a) && !TouchesWire(a)
    ensures var o := Step(h, j.life, a); JointInv(h, j.(life := o.life), ObserveAll(m, o.events), id)
  {
    hide Inv, W.WireInv, Step, Enabled;
    StepKeeps(h, j.life, m, a);
    SlotStepQuiet(h, j.life, a);
    ObserveQuiet(m, Step(h, j.life, a).events);
  }

  lemma WireStepKeeps(h: Hash, j: Joint, m: Monitor, s: W.Step, id: Uuid)
    requires JointInv(h, j, m, id) && Q.Inv(j.wire.w) && W.Enabled(j.wire, s) && !OfWorker(s, id)
    ensures JointInv(h, j.(wire := W.After(h, j.wire, s)), m, id)
  {
    hide Inv, W.WireInv, W.After, Q.Inv, W.Enabled;
    W.StepKeepsWire(h, j.wire, s);
    WireKeepsReads(h, j.wire, s, id);
  }

  /** What the sender's slot and the monitor say of each other. */
  lemma SenderFacts(h: Hash, life: Life, m: Monitor, a: Action)
    requires Inv(h, life, m) && Enabled(life, a) && a.SenderActs?
    ensures life.slot.Some? && life.slot.value.role.Sender? && m.read == life.slot.value.transferred
    ensures m.success == life.slot.value.successEnd
    ensures a.sender.SourceOpened? || a.sender.SourceChunk? || a.sender.SourceVerified?
            || life.slot.value.worker.Opening?
            ==> m.success.None?
    ensures life.slot.value.worker.Opening? ==> a.sender.SourceOpened? || a.sender.SendingFails?
  {
    hide SenderTerms, SenderAcks, Safe;
  }

  lemma OpenReads(h: Hash, x: W.Wire, id: Uuid, total: nat)
    requires Q.Inv(x.w) && W.Enabled(x, W.Open(id, total))
    ensures var y := W.After(h, x, W.Open(id, total));
            W.Known(y, id) && W.Now(y, id).read == [] && !W.Now(y, id).stage.Ended?
  {
    hide Q.Register, Q.EnqueueCritical, Q.Inv;
  }

  lemma OpenedKeeps(h: Hash, j: Joint, m: Monitor, a: Action, s: W.Step, id: Uuid)
    requires JointInv(h, j, m, id) && Can(h, j, BothStep(a, s), id) && a.sender.SourceOpened?
    ensures var n := Next(h, j, BothStep(a, s), id);
            Tied(h, n.life, ObserveAll(m, Step(h, j.life, a).events), n.wire, id)
  {
    SenderFacts(h, j.life, m, a);
    OpenReads(h, j.wire, id, s.total);
    hide Inv, W.WireInv, W.After, Q.Inv;
  }

  lemma FailedOpenKeeps(h: Hash, j: Joint, m: Monitor, a: Action, s: W.Step, id: Uuid)
    requires JointInv(h, j, m, id) && Can(h, j, BothStep(a, s), id) && a.sender.SendingFails?
    ensures var n := Next(h, j, BothStep(a, s), id);
            Tied(h, n.life, ObserveAll(m, Step(h, j.life, a).events), n.wire, id)
  {
    hide Inv, W.WireInv, W.After, Q.Inv, Step, W.Enabled, Enabled, Agree, SenderCan;
    SenderFacts(h, j.life, m, a);
    FailedSide(h, j.life, a);
    ObserveQuiet(m, Step(h, j.life, a).events);
  }

  lemma FailedSide(h: Hash, life: Life, a: Action)
    requires Enabled(life, a) && a.SenderActs? && a.sender.SendingFails?
    ensures var o := Step(h, life, a); AllQuiet(o.events) && NoStart(o.events) && !Early(o.life)
  {
    hide SenderFails, SenderCan;
    SenderFailsQuiet(life.slot.value, a.sender.code, a.sender.room);
  }

  lemma ReadReads(h: Hash, x: W.Wire, id: Uuid, chunk: Chunk)
    requires Q.Inv(x.w) && W.Enabled(x, W.Read(id, chunk))
    ensures var y := W.After(h, x, W.Read(id, chunk));
            && W.Known(x, id) && W.Known(y, id)
            && W.Now(y, id).read == W.Now(x, id).read + [chunk] && !W.Now(y, id).stage.Ended?
  {
    hide Q.Inv;
  }

  lemma ChunkSide(h: Hash, life: Life, a: Action)
    requires Enabled(life, a) && a.SenderActs? && a.sender.SourceChunk?
    ensures var o := Step(h, life, a);
            Streaming(life) && Streaming(o.life) && o.events == [SourceRead(a.sender.chunk)]
  {
  }

  lemma ChunkKeeps(h: Hash, j: Joint, m: Monitor, a: Action, s: W.Step, id: Uuid)
    requires JointInv(h, j, m, id) && Can(h, j, BothStep(a, s), id) && a.sender.SourceChunk?
    ensures var n := Next(h, j, BothStep(a, s), id);
            Tied(h, n.life, ObserveAll(m, Step(h, j.life, a).events), n.wire, id)
  {
    hide Inv, W.WireInv, W.After, Q.Inv, Step, W.Enabled, Enabled, Agree, SenderCan, Concat;
    SenderFacts(h, j.life, m, a);
    ChunkSide(h, j.life, a);
    ReadReads(h, j.wire, id, a.sender.chunk);
    ConcatSnoc(W.Now(j.wire, id).read, a.sender.chunk);
    ObserveOne(h, m, SourceRead(a.sender.chunk));
  }

  lemma VerifiedSide(h: Hash, life: Life, a: Action)
    requires Enabled(life, a) && a.SenderActs? && a.sender.SourceVerified?
    ensures var o := Step(h, life, a);
            && Streaming(life) && !Early(o.life)
            && var content := life.slot.value.transferred;
               o.events == if a.sender.room then [EndSent(SuccessEnd(false, |content|, h(content)))] else []
  {
  }

  lemma VerifiedKeeps(h: Hash, j: Joint, m: Monitor, a: Action, s: W.Step, id: Uuid)
    requires JointInv(h, j, m, id) && Can(h, j, BothStep(a, s), id) && a.sender.SourceVerified?
    ensures var n := Next(h, j, BothStep(a, s), id);
            Tied(h, n.life, ObserveAll(m, Step(h, j.life, a).events), n.wire, id)
  {
    hide Inv, W.WireInv, W.After, Q.Inv, Step, W.Enabled, Enabled, SenderCan, Concat;
    SenderFacts(h, j.life, m, a);
    VerifiedSide(h, j.life, a);
    FinishReads(h, j.wire, id);
    ObserveOne(h, m, EndSent(SuccessEnd(false, |m.read|, h(m.read))));
  }

  lemma FinishReads(h: Hash, x: W.Wire, id: Uuid)
    requires Q.Inv(x.w) && W.Enabled(x, W.Finish(id))
    ensures var y := W.After(h, x, W.Finish(id)); W.Known(y, id) && W.Now(y, id).read == W.Now(x, id).read
  {
    hide Q.EnqueueCritical, Q.Inv, W.Terminal;
  }

  lemma BothKeep(h: Hash, j: Joint, m: Monitor, a: Action, s: W.Step, id: Uuid)
    requires JointInv(h, j, m, id) && Can(h, j, BothStep(a, s), id)
    ensures JointInv(h, Next(h, j, BothStep(a, s), id), ObserveAll(m, Step(h, j.life, a).events), id)
  {
    hide Inv, W.WireInv, W.After, Q.Inv, Step, Enabled, Tied, W.Enabled, Agree;
    StepKeeps(h, j.life, m, a);
    W.StepKeepsWire(h, j.wire, s);
    match a.sender
    case SourceOpened(_) => OpenedKeeps(h, j, m, a, s, id);
    case SendingFails(_, _) => FailedOpenKeeps(h, j, m, a, s, id);
    case SourceChunk(_) => ChunkKeeps(h, j, m, a, s, id);
    case SourceVerified(_) => VerifiedKeeps(h, j, m, a, s, id);
  }

  lemma JointStepKeeps(h: Hash, j: Joint, m: Monitor, t: JointStep, id: Uuid)
    requires JointInv(h, j, m, id) && Can(h, j, t, id)
    ensures JointInv(h, Next(h, j, t, id), ObserveAll(m, EventsOf(h, j, t, id)), id)
  {
    hide JointInv, Step, W.After, Enabled, W.Enabled, Q.Inv, Agree, Couple;
    match t
    case SlotStep(a) => SlotStepKeeps(h, j, m, a, id);
    case WireStep(s) => WireStepKeeps(h, j, m, s, id);
    case BothStep(a, s) => BothKeep(h, j, m, a, s, id);
  }

  // ---- Runs -----------------------------------------------------------------

  ghost predicate JointRuns(h: Hash, j: Joint, steps: seq<JointStep>, id: Uuid)
    decreases |steps|
  {
    steps == [] || (Can(h, j, steps[0], id) && JointRuns(h, Next(h, j, steps[0], id), steps[1..], id))
  }

  ghost function Arrived(h: Hash, j: Joint, steps: seq<JointStep>, id: Uuid): Joint
    requires JointRuns(h, j, steps, id)
    decreases |steps|
  {
    if steps == [] then j else Arrived(h, Next(h, j, steps[0], id), steps[1..], id)
  }

  ghost function Observed(h: Hash, j: Joint, steps: seq<JointStep>, m: Monitor, id: Uuid): Monitor
    requires JointRuns(h, j, steps, id)
    decreases |steps|
  {
    if steps == [] then m
    else Observed(h, Next(h, j, steps[0], id), steps[1..], ObserveAll(m, EventsOf(h, j, steps[0], id)), id)
  }

  lemma {:induction false} JointRunKeeps(h: Hash, j: Joint, steps: seq<JointStep>, m: Monitor, id: Uuid)
    requires JointInv(h, j, m, id) && JointRuns(h, j, steps, id)
    ensures JointInv(h, Arrived(h, j, steps, id), Observed(h, j, steps, m, id), id)
    decreases |steps|
  {
    if steps != [] {
      hide JointInv, Can, Next, EventsOf;
      JointStepKeeps(h, j, m, steps[0], id);
      JointRunKeeps(h, Next(h, j, steps[0], id), steps[1..], ObserveAll(m, EventsOf(h, j, steps[0], id)), id);
    }
  }

  /** The terminal of the identifier's latest life is on the wire. */
  ghost predicate Announced(x: W.Wire, id: Uuid) {
    id in x.current && exists i ::
      && 0 <= i < |x.sent| && x.sent[i].CriticalMessage? && W.IsSuccess(x.sent[i].control)
      && x.sent[i].control.life == x.current[id]
  }

  lemma AnnouncedChunks(h: Hash, x: W.Wire, id: Uuid)
    requires W.WireInv(h, x) && W.Known(x, id) && Announced(x, id)
    requires W.Now(x, id).until.None? && W.Within(W.Now(x, id), x.sent)
    ensures W.Chunks(W.Now(x, id), x.sent) == W.FramesOf(W.Now(x, id).id, W.Now(x, id).read)
  {
    hide Q.Inv, W.LanesOk, W.QueuedOk, W.LanesOwned, W.FramesOf, W.ReadsOk, W.Carried;
    var s := W.Now(x, id);
    var i :| 0 <= i < |x.sent| && x.sent[i].CriticalMessage? && W.IsSuccess(x.sent[i].control)
             && x.sent[i].control.life == x.current[id];
    assert W.InOrder(s, x.sent, i);
    assert x.sent[s.start..|x.sent|] == x.sent[s.start..i] + x.sent[i..|x.sent|];
    W.ChunksConcat(x.sent[s.start..i], x.sent[i..|x.sent|], s.id);
  }

  /** The size and the digest in an end frame are those of `content`. */
  predicate Vouches(h: Hash, e: End, content: seq<byte>) {
    e.bytesSent == Some(|content|) && e.sha256 == Some(h(content))
  }

  /** Leaving out non-empty chunks makes the content shorter. */
  lemma {:induction false} FewerBytes(read: seq<Chunk>, n: nat)
    requires n <= |read| && forall i | 0 <= i < |read| :: read[i] != []
    ensures |Concat(read[..n])| == |Concat(read)| <==> n == |read|
    decreases |read|
  {
    assert n == |read| ==> read[..n] == read;
    if n < |read| {
      ConcatAppend(read[..n], read[n..]);
      assert read[..n] + read[n..] == read;
      assert Concat(read[n..]) == read[n] + Concat(read[n..][1..]);
    }
  }

  lemma ReadIsNotEmpty(s: W.Sender)
    requires W.ReadsOk(s)
    ensures forall i | 0 <= i < |s.read| :: s.read[i] != []
  {
  }

  /** The latest life of an identifier that has announced its success. */
  lemma EndedLife(h: Hash, x: W.Wire, id: Uuid)
    requires W.WireInv(h, x) && W.Known(x, id) && W.Now(x, id).stage.Ended?
    ensures var s := W.Now(x, id);
            && W.ReadsOk(s) && W.Begins(s, x.sent)
            && (x.w.running || Announced(x, id) || s.whole ==> W.SentCount(s, x.sent) == |s.read|)
  {
    hide W.WireInv, W.FramesOf, W.ReadsOk, Announced, W.LaneAccounted, W.Begins;
    W.LifeFacts(h, x, id);
    W.LifeBegins(h, x, x.current[id]);
    if Announced(x, id) {
      AnnouncedChunks(h, x, id);
      W.ChunksBegin(W.Now(x, id), x.sent);
    }
  }

  /**
   In every joint run, when a peer's success acknowledgement has been accepted: the size and
   digest it vouches for are those of what was read; what the transfer has on the wire is the
   beginning of that; the two agree exactly when no chunk is missing; and none is
   missing if the writer ran when the drain ended, which it did if it still runs or if
   the terminal is out.
   */
  lemma AcknowledgedIsOnTheWire(h: Hash, steps: seq<JointStep>, id: Uuid, e: End)
    requires JointRuns(h, Joint(FRESH, W.START), steps, id)
    requires var m := Observed(h, Joint(FRESH, W.START), steps, UNSEEN, id);
             m.role == Some(Sender) && e in m.accepted && e.ok
    ensures var x := Arrived(h, Joint(FRESH, W.START), steps, id).wire;
            && W.Known(x, id)
            && var s := W.Now(x, id);
            && Vouches(h, e, Concat(s.read)) && W.Begins(s, x.sent)
            && (Vouches(h, e, W.ContentOf(s, x.sent)) <==> W.SentCount(s, x.sent) == |s.read|)
            && (x.w.running || Announced(x, id) || s.whole ==> W.SentCount(s, x.sent) == |s.read|)
  {
    hide JointRuns, Arrived, Observed, JointInv, Announced, W.ContentOf, W.Begins, W.SentCount;
    var j := Joint(FRESH, W.START);
    StartIsTied(h, id);
    JointRunKeeps(h, j, steps, UNSEEN, id);
    Vouched(h, Arrived(h, j, steps, id), Observed(h, j, steps, UNSEEN, id), id, e);
  }

  lemma StartIsTied(h: Hash, id: Uuid)
    ensures JointInv(h, Joint(FRESH, W.START), UNSEEN, id)
  {
    hide Inv, W.WireInv;
    FreshIsSound(h);
    W.StartIsSound(h);
  }

  lemma FreshIsSound(h: Hash)
    ensures Inv(h, FRESH, UNSEEN)
  {
  }

  lemma Vouched(h: Hash, j: Joint, m: Monitor, id: Uuid, e: End)
    requires JointInv(h, j, m, id) && m.role == Some(Sender) && e in m.accepted && e.ok
    ensures var x := j.wire;
            && W.Known(x, id)
            && var s := W.Now(x, id);
            && Vouches(h, e, Concat(s.read)) && W.Begins(s, x.sent)
            && (Vouches(h, e, W.ContentOf(s, x.sent)) <==> W.SentCount(s, x.sent) == |s.read|)
            && (x.w.running || Announced(x, id) || s.whole ==> W.SentCount(s, x.sent) == |s.read|)
  {
    assert SameSizeAndDigest(e, m.success.value);
    hide Inv, W.WireInv, Announced, Concat, W.ReadsOk;
    EndedLife(h, j.wire, id);
    var s := W.Now(j.wire, id);
    ReadIsNotEmpty(s);
    FewerBytes(s.read, W.SentCount(s, j.wire.sent));
    assert W.SentCount(s, j.wire.sent) == |s.read| ==> s.read[..|s.read|] == s.read;
  }

  // ---- An acknowledgement for chunks that were lost -------------------------

  ghost predicate ReachedBy(h: Hash, steps: seq<JointStep>, id: Uuid, j: Joint, m: Monitor) {
    && JointRuns(h, Joint(FRESH, W.START), steps, id)
    && Arrived(h, Joint(FRESH, W.START), steps, id) == j
    && Observed(h, Joint(FRESH, W.START), steps, UNSEEN, id) == m
  }

  lemma {:induction false} JointRunsOn(h: Hash, j: Joint, steps: seq<JointStep>, t: JointStep, m: Monitor, id: Uuid)
    requires JointRuns(h, j, steps, id) && Can(h, Arrived(h, j, steps, id), t, id)
    ensures var last := Arrived(h, j, steps, id);
            && JointRuns(h, j, steps + [t], id)
            && Arrived(h, j, steps + [t], id) == Next(h, last, t, id)
            && Observed(h, j, steps + [t], m, id) == ObserveAll(Observed(h, j, steps, m, id), EventsOf(h, last, t, id))
    decreases |steps|
  {
    hide Can, Next, EventsOf, ObserveAll;
    if steps == [] {
      var one: seq<JointStep> := [t];
      assert steps + [t] == one && one[0] == t && one[1..] == [];
    } else {
      assert (steps + [t])[0] == steps[0] && (steps + [t])[1..] == steps[1..] + [t];
      var seen := ObserveAll(m, EventsOf(h, j, steps[0], id));
      JointRunsOn(h, Next(h, j, steps[0], id), steps[1..], t, seen, id);
    }
  }

  lemma Go(h: Hash, steps: seq<JointStep>, id: Uuid, j: Joint, m: Monitor, t: JointStep) returns (more: seq<JointStep>)
    requires ReachedBy(h, steps, id, j, m) && Can(h, j, t, id)
    ensures ReachedBy(h, more, id, Next(h, j, t, id), ObserveAll(m, EventsOf(h, j, t, id)))
  {
    hide Can, Next, EventsOf, ObserveAll, JointRuns, Arrived, Observed;
    JointRunsOn(h, Joint(FRESH, W.START), steps, t, UNSEEN, id);
    more := steps + [t];
  }

  lemma WriterIsSound(h: Hash, steps: seq<JointStep>, id: Uuid, j: Joint, m: Monitor)
    requires ReachedBy(h, steps, id, j, m)
    ensures Q.Inv(j.wire.w)
  {
    hide JointRuns, Arrived, Observed, Q.Inv;
    StartIsTied(h, id);
    JointRunKeeps(h, Joint(FRESH, W.START), steps, UNSEEN, id);
    hide Inv, Tied;
  }

  /** A step of the slot alone, with at most one event. */
  lemma SlotGoes(h: Hash, steps: seq<JointStep>, id: Uuid, j: Joint, m: Monitor, a: Action)
    returns (more: seq<JointStep>)
    requires ReachedBy(h, steps, id, j, m) && Enabled(j.life, a) && !TouchesWire(a)
    ensures ReachedBy(h, more, id, j.(life := Step(h, j.life, a).life), ObserveAll(m, Step(h, j.life, a).events))
  {
    hide ReachedBy, Step, Enabled, ObserveAll;
    more := Go(h, steps, id, j, m, SlotStep(a));
  }

  lemma WireGoes(h: Hash, steps: seq<JointStep>, id: Uuid, j: Joint, m: Monitor, s: W.Step)
    returns (more: seq<JointStep>)
    requires ReachedBy(h, steps, id, j, m) && Q.Inv(j.wire.w) && W.Enabled(j.wire, s) && !OfWorker(s, id)
    ensures ReachedBy(h, more, id, j.(wire := W.After(h, j.wire, s)), m)
  {
    hide ReachedBy, W.After, W.Enabled, Q.Inv;
    more := Go(h, steps, id, j, m, WireStep(s));
  }

  lemma BothGo(h: Hash, steps: seq<JointStep>, id: Uuid, j: Joint, m: Monitor, a: Action, s: W.Step)
    returns (more: seq<JointStep>)
    requires ReachedBy(h, steps, id, j, m) && Enabled(j.life, a) && Q.Inv(j.wire.w) && W.Enabled(j.wire, s)
    requires Couple(a, s, id) && !a.sender.SendingFails? && Agree(a, W.After(h, j.wire, s), id)
    ensures ReachedBy(h, more, id, Joint(Step(h, j.life, a).life, W.After(h, j.wire, s)),
                      ObserveAll(m, Step(h, j.life, a).events))
  {
    hide ReachedBy, W.After, W.Enabled, Q.Inv, Step, Enabled, ObserveAll, Agree, Couple;
    more := Go(h, steps, id, j, m, BothStep(a, s));
  }

  function OneLife(w: Q.Writer, s: W.Sender): W.Wire {
    W.Wire(w, [s], map[s.id := 0], [])
  }

  function OpenWriter(id: Uuid): Q.Writer {
    Q.Awake(Q.EMPTY.(binary := map[id := []], binaryBytes := map[id := 0], critical := [Q.BeginControl(id, 0)]))
  }

  function QueuedWriter(id: Uuid, chunk: Chunk): Q.Writer {
    OpenWriter(id).(binary := map[id := [id.bytes + chunk]], binaryBytes := map[id := |chunk|], roundRobin := [id])
  }

  function FailedWriter(id: Uuid): Q.Writer {
    Q.Fail(OpenWriter(id))
  }

  function LifeAt(id: Uuid, stage: W.Stage, read: seq<Chunk>, hand: bool): W.Sender {
    W.Sender(id, stage, read, hand, 0, None, false)
  }

  lemma WireOpens(h: Hash, id: Uuid)
    ensures Q.Inv(W.START.w) && W.Enabled(W.START, W.Open(id, 0))
    ensures W.After(h, W.START, W.Open(id, 0)) == OneLife(OpenWriter(id), LifeAt(id, W.Reading, [], false))
  {
    var empty: map<Uuid, Q.Lane> := map[];
    assert empty[id := []] == map[id := []];
    assert W.START.current[id := 0] == map[id := 0];
    assert W.START.senders + [LifeAt(id, W.Reading, [], false)] == [LifeAt(id, W.Reading, [], false)];
  }

  lemma WireReads(h: Hash, id: Uuid, chunk: Chunk)
    requires 0 < |chunk| <= MAX_BINARY_CHUNK_BYTES && Q.Inv(OpenWriter(id))
    ensures var x := OneLife(OpenWriter(id), LifeAt(id, W.Reading, [], false));
            && W.Enabled(x, W.Read(id, chunk))
            && W.After(h, x, W.Read(id, chunk)) == OneLife(OpenWriter(id), LifeAt(id, W.Reading, [chunk], true))
  {
    var read: seq<Chunk> := [];
    assert read + [chunk] == [chunk];
  }

  lemma WireQueues(h: Hash, id: Uuid, chunk: Chunk)
    requires IsVersion7(id) && |chunk| <= MAX_BINARY_CHUNK_BYTES && Q.Inv(OpenWriter(id))
    ensures var x := OneLife(OpenWriter(id), LifeAt(id, W.Reading, [chunk], true));
            && W.Enabled(x, W.Queue(id))
            && W.After(h, x, W.Queue(id)) == OneLife(QueuedWriter(id, chunk), LifeAt(id, W.Reading, [chunk], false))
  {
    var w := OpenWriter(id);
    assert w.binary[id] + [id.bytes + chunk] == [id.bytes + chunk];
    assert w.binary[id := [id.bytes + chunk]] == map[id := [id.bytes + chunk]];
    assert w.binaryBytes[id := |chunk|] == map[id := |chunk|];
    assert w.roundRobin + [id] == [id];
  }

  lemma WireFails(h: Hash, id: Uuid, chunk: Chunk, s: W.Sender)
    requires Q.Inv(QueuedWriter(id, chunk))
    ensures W.After(h, OneLife(QueuedWriter(id, chunk), s), W.WriterFails) == OneLife(FailedWriter(id), s)
  {
    hide Q.Inv, Q.Fail, QueuedWriter, FailedWriter;
    FailureDropsTheQueue(id, chunk);
  }

  lemma FailureDropsTheQueue(id: Uuid, chunk: Chunk)
    ensures Q.Fail(QueuedWriter(id, chunk)) == FailedWriter(id)
  {
    assert Q.Emptied(QueuedWriter(id, chunk).binary) == Q.Emptied(OpenWriter(id).binary);
    assert Q.Zeroed(QueuedWriter(id, chunk).binary) == Q.Zeroed(OpenWriter(id).binary);
  }

  /** A failed writer's lane is empty, so the drain ends at once, and a terminal is still taken. */
  lemma WireFinishes(h: Hash, id: Uuid, chunk: Chunk)
    requires Q.Inv(FailedWriter(id))
    ensures var w := FailedWriter(id);
            var read := OneLife(w, LifeAt(id, W.Reading, [chunk], false));
            var drain := OneLife(w, LifeAt(id, W.Draining, [chunk], false));
            var check := OneLife(w, LifeAt(id, W.Checking, [chunk], false));
            && W.Enabled(read, W.EndOfFile(id)) && W.After(h, read, W.EndOfFile(id)) == drain
            && W.Enabled(drain, W.Drained(id)) && W.After(h, drain, W.Drained(id)) == check
            && W.Enabled(check, W.Finish(id))
            && var done := W.After(h, check, W.Finish(id));
               && done.senders == [LifeAt(id, W.Ended, [chunk], false)] && done.current == map[id := 0]
               && done.sent == [] && !done.w.running
  {
    hide W.Terminal;
  }

  function SentSlot(h: Hash, content: seq<byte>): Slot {
    var end := SuccessEnd(false, |content|, h(content));
    StreamingSlot().(transferred := content, phase := SenderEnded, finalEnd := Some(end), successEnd := Some(end),
                     worker := AwaitingAck)
  }

  function StreamingSlot(): Slot {
    NewSender().(phase := TransferSlot.Streaming, senderReady := true, worker := Reading)
  }

  const STARTED := UNSEEN.(role := Some(Sender), declared := None)

  /** The lane is open on both sides, and the peer is ready. */
  lemma StreamingRun(h: Hash, id: Uuid) returns (steps: seq<JointStep>, wire: W.Wire)
    ensures wire == OneLife(OpenWriter(id), LifeAt(id, W.Reading, [], false))
    ensures ReachedBy(h, steps, id, Joint(FRESH.(slot := Some(StreamingSlot())), wire), STARTED)
  {
    hide W.After, Q.Inv, W.Enabled, ReachedBy;
    var slot := NewSender();
    steps := StartedRun(h, id);
    WireOpens(h, id);
    wire := W.After(h, W.START, W.Open(id, 0));
    var a := SenderActs(SourceOpened(true));
    steps := BothGo(h, steps, id, Joint(FRESH.(slot := Some(slot)), W.START), STARTED, a, W.Open(id, 0));
    slot := slot.(phase := TransferSlot.Begun, worker := AwaitingReady);
    steps := SlotGoes(h, steps, id, Joint(FRESH.(slot := Some(slot)), wire), STARTED, Arrives(ReadyFrame));
    slot := slot.(phase := TransferSlot.Streaming, senderReady := true);
    steps := SlotGoes(h, steps, id, Joint(FRESH.(slot := Some(slot)), wire), STARTED, SenderActs(ReadyResumes));
  }

  lemma StartedRun(h: Hash, id: Uuid) returns (steps: seq<JointStep>)
    ensures ReachedBy(h, steps, id, Joint(FRESH.(slot := Some(NewSender())), W.START), STARTED)
  {
    assert ReachedBy(h, [], id, Joint(FRESH, W.START), UNSEEN);
    hide ReachedBy;
    var a := Arrives(RequestFrame(true, true, 0));
    steps := SlotGoes(h, [], id, Joint(FRESH, W.START), UNSEEN, a);
    ObserveOne(h, UNSEEN, Started(Sender, None));
  }

  lemma ReadingRun(h: Hash, id: Uuid, chunk: Chunk) returns (steps: seq<JointStep>)
    requires IsVersion7(id) && 0 < |chunk| <= MAX_BINARY_CHUNK_BYTES
    ensures var slot := StreamingSlot().(transferred := chunk);
            var wire := OneLife(OpenWriter(id), LifeAt(id, W.Reading, [chunk], true));
            ReachedBy(h, steps, id, Joint(FRESH.(slot := Some(slot)), wire), STARTED.(read := chunk))
  {
    hide ReachedBy, Q.Inv, W.After;
    var wire;
    steps, wire := StreamingRun(h, id);
    var life := FRESH.(slot := Some(StreamingSlot()));
    WriterIsSound(h, steps, id, Joint(life, wire), STARTED);
    WireReads(h, id, chunk);
    steps := BothGo(h, steps, id, Joint(life, wire), STARTED, SenderActs(SourceChunk(chunk)), W.Read(id, chunk));
    ObserveOne(h, STARTED, SourceRead(chunk));
    assert [] + chunk == chunk;
  }

  /** A chunk is read and queued, and the writer fails before it is sent. */
  lemma LosingRun(h: Hash, id: Uuid, chunk: Chunk) returns (steps: seq<JointStep>)
    requires IsVersion7(id) && 0 < |chunk| <= MAX_BINARY_CHUNK_BYTES
    ensures var slot := StreamingSlot().(transferred := chunk);
            var wire := OneLife(FailedWriter(id), LifeAt(id, W.Reading, [chunk], false));
            ReachedBy(h, steps, id, Joint(FRESH.(slot := Some(slot)), wire), STARTED.(read := chunk))
  {
    hide ReachedBy, Q.Inv, W.After, Step, Enabled;
    steps := ReadingRun(h, id, chunk);
    var m := STARTED.(read := chunk);
    var life := FRESH.(slot := Some(StreamingSlot().(transferred := chunk)));
    var wire := OneLife(OpenWriter(id), LifeAt(id, W.Reading, [chunk], true));
    WriterIsSound(h, steps, id, Joint(life, wire), m);
    WireQueues(h, id, chunk);
    steps := WireGoes(h, steps, id, Joint(life, wire), m, W.Queue(id));
    wire := OneLife(QueuedWriter(id, chunk), LifeAt(id, W.Reading, [chunk], false));
    WriterIsSound(h, steps, id, Joint(life, wire), m);
    WireFails(h, id, chunk, LifeAt(id, W.Reading, [chunk], false));
    steps := WireGoes(h, steps, id, Joint(life, wire), m, W.WriterFails);
  }

  /** The terminal is taken on both sides. */
  lemma FinishingRun(h: Hash, steps: seq<JointStep>, id: Uuid, chunk: Chunk, wire: W.Wire)
    returns (more: seq<JointStep>)
    requires wire == OneLife(FailedWriter(id), LifeAt(id, W.Checking, [chunk], false))
    requires ReachedBy(h, steps, id, Joint(FRESH.(slot := Some(StreamingSlot().(transferred := chunk))), wire),
                       STARTED.(read := chunk))
    ensures W.Enabled(wire, W.Finish(id)) && Q.Inv(wire.w)
    ensures var end := SuccessEnd(false, |chunk|, h(chunk));
            ReachedBy(h, more, id, Joint(FRESH.(slot := Some(SentSlot(h, chunk))), W.After(h, wire, W.Finish(id))),
                      STARTED.(read := chunk, success := Some(end)))
  {
    hide ReachedBy, Q.Inv;
    var life := FRESH.(slot := Some(StreamingSlot().(transferred := chunk)));
    var m := STARTED.(read := chunk);
    WriterIsSound(h, steps, id, Joint(life, wire), m);
    WireFinishes(h, id, chunk);
    hide W.After;
    more := BothGo(h, steps, id, Joint(life, wire), m, SenderActs(SourceVerified(true)), W.Finish(id));
    ObserveOne(h, m, EndSent(SuccessEnd(false, |chunk|, h(chunk))));
  }

  lemma AcknowledgementArrives(h: Hash, steps: seq<JointStep>, id: Uuid, content: seq<byte>, wire: W.Wire, m: Monitor)
    returns (more: seq<JointStep>, e: End)
    requires ReachedBy(h, steps, id, Joint(FRESH.(slot := Some(SentSlot(h, content))), wire), m)
    ensures e == SuccessEnd(true, |content|, h(content))
    ensures exists life :: ReachedBy(h, more, id, Joint(life, wire), m.(accepted := m.accepted + {e}, last := Some(e)))
  {
    hide ReachedBy;
    e := SuccessEnd(true, |content|, h(content));
    var j := Joint(FRESH.(slot := Some(SentSlot(h, content))), wire);
    var a := Arrives(EndFrame(e, true));
    assert Step(h, j.life, a).events == [AckAccepted(e)];
    more := SlotGoes(h, steps, id, j, m, a);
    ObserveOne(h, m, AckAccepted(e));
  }

  /**
   The writer's failure does not stop the sender: its drain ends at once and the terminal is
   taken.  An acknowledgement is then accepted although nothing of the chunk was sent.
   */
  lemma LostChunksAreAcknowledged(h: Hash, id: Uuid, chunk: Chunk) returns (steps: seq<JointStep>, e: End)
    requires IsVersion7(id) && 0 < |chunk| <= MAX_BINARY_CHUNK_BYTES
    ensures JointRuns(h, Joint(FRESH, W.START), steps, id)
    ensures e.ok && e in Observed(h, Joint(FRESH, W.START), steps, UNSEEN, id).accepted
    ensures var x := Arrived(h, Joint(FRESH, W.START), steps, id).wire;
            && W.Known(x, id) && !W.Now(x, id).whole && Vouches(h, e, chunk)
            && W.Within(W.Now(x, id), x.sent) && W.ContentOf(W.Now(x, id), x.sent) == []
  {
    hide W.After, W.Enabled, Q.Inv;
    steps := LosingRun(h, id, chunk);
    var m := STARTED.(read := chunk);
    var life := FRESH.(slot := Some(StreamingSlot().(transferred := chunk)));
    var wire := OneLife(FailedWriter(id), LifeAt(id, W.Reading, [chunk], false));
    WriterIsSound(h, steps, id, Joint(life, wire), m);
    WireFinishes(h, id, chunk);
    hide ReachedBy;
    steps := WireGoes(h, steps, id, Joint(life, wire), m, W.EndOfFile(id));
    wire := W.After(h, wire, W.EndOfFile(id));
    steps := WireGoes(h, steps, id, Joint(life, wire), m, W.Drained(id));
    wire := W.After(h, wire, W.Drained(id));
    steps := FinishingRun(h, steps, id, chunk, wire);
    m := m.(success := Some(SuccessEnd(false, |chunk|, h(chunk))));
    steps, e := AcknowledgementArrives(h, steps, id, chunk, W.After(h, wire, W.Finish(id)), m);
    IsReached(h, steps, id, W.After(h, wire, W.Finish(id)), m.(accepted := m.accepted + {e}, last := Some(e)));
  }

  lemma IsReached(h: Hash, steps: seq<JointStep>, id: Uuid, wire: W.Wire, m: Monitor)
    requires exists life :: ReachedBy(h, steps, id, Joint(life, wire), m)
    ensures JointRuns(h, Joint(FRESH, W.START), steps, id)
    ensures Arrived(h, Joint(FRESH, W.START), steps, id).wire == wire
    ensures Observed(h, Joint(FRESH, W.START), steps, UNSEEN, id) == m
  {
    hide JointRuns, Arrived, Observed;
  }
}
