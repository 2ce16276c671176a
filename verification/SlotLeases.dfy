/**
 The slot machine of one identifier and the leases of all, run together.  A granted start
 takes a lease, the start of the cleanup moves it to the cleanup or to a drain, and the end
 of the cleanup gives it back; every other step of the slot leaves the leases alone.
 */
module SlotLeases {
  import opened Basics
  import opened Protocol
  import opened TransferSlot
  import opened TransferRuns
  import F = EndFinality
  import L = TransferLeases
  import A = Admission

  datatype Joint = Joint(life: Life, leases: L.System)

  datatype JointStep =
    | SlotStep(action: Action)
    | LeaseStep(step: L.Step)
    | BothStep(action: Action, step: L.Step)

  /** The handler reaches the admission. */
  predicate Asks(life: Life, a: Action) {
    && a.Arrives? && (a.frame.RequestFrame? || a.frame.BeginFrame?)
    && !life.closed && life.slot.None? && life.tomb.None?
  }

  predicate TouchesLease(life: Life, a: Action) {
    Asks(life, a) || a.CleanupStarts? || a.CleanupEnds?
  }

  /** Lease steps that only the slot of `id` takes. */
  predicate OfSlot(w: L.System, s: L.Step, id: Uuid) {
    match s
    case Start(other) => other == id
    case Cleanup(k, _) => id in w.table && w.table[id] == k
    case CleanupEnds(k) => id in w.table && w.table[id] == k
    case _ => false
  }

  predicate Couple(j: Joint, a: Action, s: L.Step, id: Uuid) {
    if Asks(j.life, a) then s == L.Start(id) && (a.frame.granted <==> A.TryAcquire(j.leases.admission).1.Some?)
    else match a
      case CleanupStarts(draining, _) => id in j.leases.table && s == L.Cleanup(j.leases.table[id], draining)
      case CleanupEnds(_) => id in j.leases.table && s == L.CleanupEnds(j.leases.table[id])
      case _ => false
  }

  predicate LeaseCan(w: L.System, s: L.Step) {
    L.Enabled(w, s) && L.After(w, s).Ok?
  }

  predicate Can(j: Joint, t: JointStep, id: Uuid) {
    match t
    case SlotStep(a) => Enabled(j.life, a) && !TouchesLease(j.life, a)
    case LeaseStep(s) => LeaseCan(j.leases, s) && !OfSlot(j.leases, s, id)
    case BothStep(a, s) => Enabled(j.life, a) && LeaseCan(j.leases, s) && Couple(j, a, s, id)
  }

  function Next(h: Hash, j: Joint, t: JointStep, id: Uuid): Joint
    requires Can(j, t, id)
  {
    match t
    case SlotStep(a) => j.(life := Step(h, j.life, a).life)
    case LeaseStep(s) => j.(leases := L.After(j.leases, s).value)
    case BothStep(a, s) => Joint(Step(h, j.life, a).life, L.After(j.leases, s).value)
  }

  // ---- Steps of the slot that leave the leases alone ------------------------

  /** The slot is there as before, and its cleanup has begun or not as before. */
  predicate Stays(life: Life, next: Life) {
    && (life.slot.Some? <==> next.slot.Some?)
    && (life.slot.Some? ==> next.slot.value.cleaning == life.slot.value.cleaning)
  }

  lemma WithEndStays(s: Slot, end: End, room: bool)
    ensures WithEnd(s, end, room).0.cleaning == s.cleaning
  {
  }

  lemma FailuresStay(s: Slot, code: string, room: bool)
    ensures ReceiverFails(s, code, room).0.cleaning == s.cleaning
    ensures ReservationFails(s, code, room).0.cleaning == s.cleaning
  {
    hide WithEnd;
    var aborted := s.(phase := Aborted);
    WithEndStays(aborted, FailureEnd(s.remoteEnd.Some?, code), room);
    WithEndStays(aborted, FailureEnd(false, code), room);
  }

  lemma ResolvedStays(s: Slot)
    ensures ResolveFailureAck(s).cleaning == s.cleaning
  {
  }

  lemma SenderFailsStays(s: Slot, code: string, room: bool)
    ensures SenderFails(s, code, room).0.cleaning == s.cleaning
  {
    hide WithEnd, ResolveFailureAck;
    var aborted := s.(phase := Aborted);
    WithEndStays(aborted, FailureEnd(false, code), room);
    ResolvedStays(WithEnd(aborted, FailureEnd(false, code), room).0);
  }

  lemma LiveEndStays(life: Life, s: Slot, end: End, room: bool)
    requires life.slot == Some(s)
    ensures Stays(life, OnEndLive(life, s, end, room).life)
  {
    hide LiveAccepts, WithEnd, GaveWay, GivesWay, Acknowledged, Put;
    AcknowledgedStays(s, end);
    if end.code.Some? {
      GaveWayStays(s, end);
      WithEndStays(GaveWay(s, end), FailureEnd(true, end.code.value), room);
    }
    PutStays(life, s.(remoteEnd := Some(end), phase := SenderEnded), None, [EndHeld(end)]);
  }

  lemma AcknowledgedStays(s: Slot, end: End)
    ensures Acknowledged(s, end).cleaning == s.cleaning
  {
  }

  lemma PutStays(life: Life, s: Slot, item: Option<Chunk>, events: seq<Event>)
    ensures var next := Put(life, s, item, events).life.slot; next.Some? && next.value.cleaning == s.cleaning
  {
  }

  lemma GaveWayStays(s: Slot, end: End)
    ensures GaveWay(s, end).cleaning == s.cleaning
  {
  }

  lemma EndStays(life: Life, end: End, room: bool)
    ensures Stays(life, OnEnd(life, end, room).life)
  {
    hide OnEndLive, OnEndTombstone;
    if life.slot.Some? {
      LiveEndStays(life, life.slot.value, end, room);
    } else if life.tomb.Some? {
      F.TombstoneHasNoSlot(life, life.tomb.value, end, room);
    }
  }

  lemma BinaryStays(life: Life, chunk: Chunk)
    ensures Stays(life, OnBinary(life, chunk).life)
  {
    hide Put;
    if life.slot.Some? {
      var s := life.slot.value;
      PutStays(life, s.(inboundBytes := s.inboundBytes + |chunk|), Some(chunk), [BytesTaken(|chunk|)]);
    }
  }

  lemma ReaderStays(life: Life, f: Frame)
    requires !Asks(life, Arrives(f))
    ensures Stays(life, ReaderStep(life, f).life)
  {
    hide OnEnd, OnBinary;
    match f
    case EndFrame(end, room) => EndStays(life, end, room);
    case BinaryFrame(chunk) => BinaryStays(life, chunk);
    case _ =>
  }

  lemma AckedStays(h: Hash, life: Life, s: Slot, room: bool, now: int)
    requires life.slot == Some(s)
    ensures Stays(life, SenderAcked(h, life, s, room, now).life)
  {
    hide RememberSlot, SenderFails, ResolveFailureAck;
    ResolvedStays(s);
    SenderFailsStays(s, "workspace_transfer_integrity_failed", room);
  }

  lemma SenderStays(h: Hash, life: Life, s: Slot, a: SenderAction)
    requires life.slot == Some(s) && SenderCan(s, a)
    ensures Stays(life, SenderStep(h, life, s, a).life)
  {
    hide SenderFails, SenderAcked, ResolveFailureAck;
    ResolvedStays(s);
    match a
    case SendingFails(code, room) => SenderFailsStays(s, code, room);
    case AckResumes(room, now) => AckedStays(h, life, s, room, now);
    case _ =>
  }

  lemma FinishStays(life: Life, s: Slot, end: End, room: bool, now: int)
    ensures var next := Finish(life, s, end, room, now).0.slot; next.Some? && next.value.cleaning == s.cleaning
  {
    hide RememberSlot;
  }

  lemma SealedStays(h: Hash, s: Slot, room: bool)
    ensures ReceiverSealed(h, s, room).0.cleaning == s.cleaning
  {
    hide ReceiverFails, SealError;
    if SealError(h, s).Some? {
      FailuresStay(s, SealError(h, s).value, room);
    }
  }

  lemma CommittedStays(h: Hash, life: Life, s: Slot, room: bool, now: int)
    ensures var next := ReceiverCommitted(h, life, s, room, now).life.slot;
            next.Some? && next.value.cleaning == s.cleaning
  {
    hide Finish, CommitEnd;
    FinishStays(life, s.(phase := Committed), CommitEnd(h, s.transferred, None, None), room, now);
  }

  lemma ReceiverStays(h: Hash, life: Life, s: Slot, a: ReceiverAction)
    requires life.slot == Some(s) && ReceiverCan(s, a)
    ensures Stays(life, ReceiverStep(h, life, s, a).life)
  {
    hide ReceiverFails, ReservationFails, Finish, ReceiverSealed, ReceiverCommitted, CommitEnd;
    match a
    case DestinationRefused(code, room) => FailuresStay(s, code, room);
    case TemporarySealed(room) => SealedStays(h, s, room);
    case CommitReturns(room, now) => CommittedStays(h, life, s, room, now);
    case TagRecorded(etag, created, room, now) =>
      FinishStays(life, s, CommitEnd(h, s.transferred, Some(etag), Some(created)), room, now);
    case ReceivingFails(code, room) => FailuresStay(s, code, room);
    case _ =>
  }

  lemma TimeOutStays(life: Life, room: bool)
    ensures Stays(life, PutTimesOut(life, room).life)
  {
    hide WithEnd;
    if life.slot.Some? {
      WithEndStays(life.slot.value.(phase := Aborted, cancelled := true), FailureEnd(false, TIMEOUT_CODE), room);
    }
  }

  lemma ShutdownStays(life: Life, room: bool)
    ensures Stays(life, ShutdownStep(life, room).life)
  {
    hide WithEnd;
    if life.slot.Some? {
      WithEndStays(life.slot.value, FailureEnd(false, "peer_disconnected"), room);
    }
  }

  lemma SlotStays(h: Hash, life: Life, a: Action)
    requires Enabled(life, a) && !TouchesLease(life, a)
    ensures Stays(life, Step(h, life, a).life)
  {
    hide ReaderStep, SenderStep, ReceiverStep, SenderCan, ReceiverCan, ShutdownStep, PutTimesOut;
    match a
    case Arrives(frame) => ReaderStays(life, frame);
    case SenderActs(act) => SenderStays(h, life, life.slot.value, act);
    case ReceiverActs(act) => ReceiverStays(h, life, life.slot.value, act);
    case PutIsTimedOut(room) => TimeOutStays(life, room);
    case Shutdown(room) => ShutdownStays(life, room);
    case _ =>
  }

  /** What the others do. */
  lemma SlotMoves(h: Hash, life: Life, a: Action)
    requires Enabled(life, a) && TouchesLease(life, a)
    ensures var next := Step(h, life, a).life.slot;
            && (Asks(life, a) ==> (next.Some? <==> a.frame.granted) && (next.Some? ==> !next.value.cleaning))
            && (a.CleanupStarts? ==>
                  && life.slot.Some? && !life.slot.value.cleaning
                  && (next.None? <==> a.draining) && (next.Some? ==> next.value.cleaning))
            && (a.CleanupEnds? ==> life.slot.Some? && life.slot.value.cleaning && next.None?)
  {
    hide RememberSlot;
    if Asks(life, a) {
      StartMoves(life, a.frame);
    }
  }

  lemma StartMoves(life: Life, f: Frame)
    requires Asks(life, Arrives(f))
    ensures var next := ReaderStep(life, f).life.slot;
            (next.Some? <==> f.granted) && (next.Some? ==> !next.value.cleaning)
  {
  }

  // ---- Counting the lives that are over -------------------------------------

  /** A use of `id` whose slot is gone. */
  predicate Gone(u: L.Use, id: Uuid) {
    u.id == id && !L.InTable(u)
  }

  function Ended(uses: seq<L.Use>, id: Uuid): nat {
    if uses == [] then 0 else Ended(uses[..|uses| - 1], id) + if Gone(uses[|uses| - 1], id) then 1 else 0
  }

  /** The permits that the slots of `id` have given back. */
  function Frees(uses: seq<L.Use>, id: Uuid): nat {
    if uses == [] then 0
    else Frees(uses[..|uses| - 1], id) + if uses[|uses| - 1].id == id then uses[|uses| - 1].frees else 0
  }

  function Drains(uses: seq<L.Use>, id: Uuid): nat {
    if uses == [] then 0
    else Drains(uses[..|uses| - 1], id) + if uses[|uses| - 1].id == id && uses[|uses| - 1].stage.Draining? then 1 else 0
  }

  lemma {:induction false} EndedUpdate(uses: seq<L.Use>, id: Uuid, k: nat, u: L.Use)
    requires k < |uses|
    ensures Ended(uses[k := u], id) + (if Gone(uses[k], id) then 1 else 0)
         == Ended(uses, id) + (if Gone(u, id) then 1 else 0)
    decreases |uses|
  {
    var n := |uses| - 1;
    if k < n {
      assert uses[k := u][..n] == uses[..n][k := u] && uses[k := u][n] == uses[n];
      EndedUpdate(uses[..n], id, k, u);
    } else {
      assert uses[k := u][..n] == uses[..n];
    }
  }

  lemma EndedSnoc(uses: seq<L.Use>, id: Uuid, u: L.Use)
    requires !Gone(u, id)
    ensures Ended(uses + [u], id) == Ended(uses, id)
  {
    assert (uses + [u])[..|uses|] == uses;
  }

  /** Every life that is over has freed its permit or drains. */
  lemma {:induction false} EndedAreFreedOrDrain(uses: seq<L.Use>, id: Uuid)
    requires forall k | 0 <= k < |uses| :: uses[k].frees == if uses[k].stage.Returned? then 1 else 0
    ensures Frees(uses, id) + Drains(uses, id) == Ended(uses, id)
    decreases |uses|
  {
    if uses != [] {
      EndedAreFreedOrDrain(uses[..|uses| - 1], id);
    }
  }

  // ---- What ties the two ----------------------------------------------------

  predicate Holds(s: Slot, u: L.Use) {
    if s.cleaning then u.stage.Cleaning? else u.stage.Held?
  }

  predicate Tied(j: Joint, id: Uuid) {
    && (j.life.slot.Some? <==> id in j.leases.table)
    && (j.life.slot.Some? ==>
          j.leases.table[id] < |j.leases.uses| && Holds(j.life.slot.value, j.leases.uses[j.leases.table[id]]))
  }

  predicate JointInv(j: Joint, id: Uuid) {
    L.Inv(j.leases) && Tied(j, id)
  }

  lemma TableOf(w: L.System, id: Uuid)
    requires L.Inv(w) && id in w.table
    ensures w.table[id] < |w.uses| && w.uses[w.table[id]].id == id && L.InTable(w.uses[w.table[id]])
  {
  }

  /** Two entries of the dictionary are two slots. */
  lemma OtherSlot(w: L.System, k: nat, id: Uuid)
    requires L.Inv(w) && k < |w.uses| && L.InTable(w.uses[k]) && !(id in w.table && w.table[id] == k)
    ensures w.uses[k].id != id
  {
  }

  /** What a lease step that is not the slot's own does to `id`. */
  predicate LeftAlone(w: L.System, next: L.System, id: Uuid) {
    && (id in next.table <==> id in w.table)
    && (id in w.table ==>
          && next.table[id] == w.table[id] && w.table[id] < |w.uses| <= |next.uses|
          && next.uses[w.table[id]].stage == w.uses[w.table[id]].stage)
    && Ended(next.uses, id) == Ended(w.uses, id)
  }

  lemma RestageLeaves(w: L.System, next: L.System, k: nat, u: L.Use, id: Uuid)
    requires L.Inv(w) && k < |w.uses| && u.id == w.uses[k].id && next.uses == w.uses[k := u]
    requires next.table == w.table || next.table == L.Retired(w.table, w.uses[k].id, k)
    requires w.uses[k].id != id || (!L.InTable(w.uses[k]) && !L.InTable(u) && next.table == w.table)
    ensures LeftAlone(w, next, id)
  {
    EndedUpdate(w.uses, id, k, u);
    if id in w.table {
      TableOf(w, id);
    }
    hide L.Inv, Ended;
  }

  lemma StartLeaves(w: L.System, other: Uuid, id: Uuid)
    requires L.Inv(w) && LeaseCan(w, L.Start(other)) && other != id
    ensures LeftAlone(w, L.After(w, L.Start(other)).value, id)
  {
    hide A.TryAcquire;
    if id in w.table {
      TableOf(w, id);
    }
    var lease := A.TryAcquire(w.admission).1;
    if lease.Some? {
      EndedSnoc(w.uses, id, L.Use(other, L.Held(lease.value), 0));
    }
    hide L.Inv, Ended;
  }

  lemma CleanupLeaves(w: L.System, k: nat, drains: bool, id: Uuid)
    requires L.Inv(w) && LeaseCan(w, L.Cleanup(k, drains)) && !OfSlot(w, L.Cleanup(k, drains), id)
    ensures LeftAlone(w, L.After(w, L.Cleanup(k, drains)).value, id)
  {
    hide A.Adopt, L.Inv, Ended, LeftAlone;
    var next := L.After(w, L.Cleanup(k, drains)).value;
    if w.uses[k].stage.Held? {
      OtherSlot(w, k, id);
      RestageLeaves(w, next, k, next.uses[k], id);
    } else {
      SameLeaves(w, next, id);
    }
  }

  lemma SameLeaves(w: L.System, next: L.System, id: Uuid)
    requires L.Inv(w) && next.uses == w.uses && next.table == w.table
    ensures LeftAlone(w, next, id)
  {
    if id in w.table {
      TableOf(w, id);
    }
    hide L.Inv, Ended;
  }

  lemma LeaseLeaves(w: L.System, s: L.Step, id: Uuid)
    requires L.Inv(w) && LeaseCan(w, s) && !OfSlot(w, s, id)
    ensures LeftAlone(w, L.After(w, s).value, id)
  {
    hide A.Release, A.Adopt, A.TryAcquire, A.Next, L.Inv, LeftAlone, Ended;
    match s
    case Start(other) => StartLeaves(w, other, id);
    case Cleanup(k, drains) => CleanupLeaves(w, k, drains, id);
    case CleanupEnds(k) =>
      OtherSlot(w, k, id);
      RestageLeaves(w, L.After(w, s).value, k, L.After(w, s).value.uses[k], id);
    case DrainEnds(k) => RestageLeaves(w, L.After(w, s).value, k, L.After(w, s).value.uses[k], id);
    case Elsewhere(_) => SameLeaves(w, L.After(w, s).value, id);
  }

  // ---- Joint steps ----------------------------------------------------------

  /** Whether the step ends the life of a slot. */
  function Retires(life: Life, next: Life): nat {
    if life.slot.Some? && next.slot.None? then 1 else 0
  }

  lemma SlotStepKeeps(h: Hash, j: Joint, a: Action, id: Uuid)
    requires JointInv(j, id) && Can(j, SlotStep(a), id)
    ensures var n := Next(h, j, SlotStep(a), id); JointInv(n, id) && Retires(j.life, n.life) == 0
  {
    hide L.Inv, Step, Enabled, TouchesLease;
    SlotStays(h, j.life, a);
  }

  lemma LeaseStepKeeps(h: Hash, j: Joint, s: L.Step, id: Uuid)
    requires JointInv(j, id) && Can(j, LeaseStep(s), id)
    ensures var n := Next(h, j, LeaseStep(s), id);
            JointInv(n, id) && Ended(n.leases.uses, id) == Ended(j.leases.uses, id)
  {
    hide L.Inv, L.After, L.Enabled, OfSlot, Ended;
    L.StepKeeps(j.leases, s);
    LeaseLeaves(j.leases, s, id);
  }

  /** What the slot's own lease step does. */
  lemma StartTakes(w: L.System, id: Uuid)
    requires L.Inv(w) && LeaseCan(w, L.Start(id))
    ensures var next := L.After(w, L.Start(id)).value;
            && Ended(next.uses, id) == Ended(w.uses, id)
            && (if A.TryAcquire(w.admission).1.Some?
                then id in next.table && next.table[id] < |next.uses| && next.uses[next.table[id]].stage.Held?
                else id !in next.table)
  {
    hide A.TryAcquire, L.Inv, Ended;
    var lease := A.TryAcquire(w.admission).1;
    if lease.Some? {
      EndedSnoc(w.uses, id, L.Use(id, L.Held(lease.value), 0));
    }
  }

  lemma CleanupTakes(w: L.System, id: Uuid, drains: bool)
    requires L.Inv(w) && id in w.table && w.table[id] < |w.uses| && w.uses[w.table[id]].stage.Held?
    requires LeaseCan(w, L.Cleanup(w.table[id], drains))
    ensures var next := L.After(w, L.Cleanup(w.table[id], drains)).value;
            && Ended(next.uses, id) == Ended(w.uses, id) + (if drains then 1 else 0)
            && (if drains then id !in next.table
                else id in next.table && next.table[id] < |next.uses| && next.uses[next.table[id]].stage.Cleaning?)
  {
    TableOf(w, id);
    hide A.Adopt, L.Inv, Ended;
    var k := w.table[id];
    EndedUpdate(w.uses, id, k, L.After(w, L.Cleanup(k, drains)).value.uses[k]);
  }

  lemma CleanupGives(w: L.System, id: Uuid)
    requires L.Inv(w) && id in w.table && w.table[id] < |w.uses| && w.uses[w.table[id]].stage.Cleaning?
    requires LeaseCan(w, L.CleanupEnds(w.table[id]))
    ensures var next := L.After(w, L.CleanupEnds(w.table[id])).value;
            Ended(next.uses, id) == Ended(w.uses, id) + 1 && id !in next.table
  {
    TableOf(w, id);
    hide A.Release, L.Inv, Ended;
    var k := w.table[id];
    EndedUpdate(w.uses, id, k, L.After(w, L.CleanupEnds(k)).value.uses[k]);
  }

  lemma BothKeep(h: Hash, j: Joint, a: Action, s: L.Step, id: Uuid)
    requires JointInv(j, id) && Can(j, BothStep(a, s), id)
    ensures var n := Next(h, j, BothStep(a, s), id);
            && JointInv(n, id)
            && Ended(n.leases.uses, id) == Ended(j.leases.uses, id) + Retires(j.life, n.life)
  {
    hide L.Inv, L.After, L.Enabled, Step, Enabled, Ended, A.TryAcquire;
    L.StepKeeps(j.leases, s);
    SlotMoves(h, j.life, a);
    if Asks(j.life, a) {
      StartTakes(j.leases, id);
    } else if a.CleanupStarts? {
      CleanupTakes(j.leases, id, a.draining);
    } else {
      CleanupGives(j.leases, id);
    }
  }

  /** Every joint step keeps the tie, and counts one more life exactly when it ends one. */
  lemma JointStepKeeps(h: Hash, j: Joint, t: JointStep, id: Uuid)
    requires JointInv(j, id) && Can(j, t, id)
    ensures var n := Next(h, j, t, id);
            JointInv(n, id) && Ended(n.leases.uses, id) == Ended(j.leases.uses, id) + Retires(j.life, n.life)
  {
    hide JointInv, Step, Enabled, L.After, L.Enabled, TouchesLease, OfSlot, Couple, Ended;
    match t
    case SlotStep(a) => SlotStepKeeps(h, j, a, id);
    case LeaseStep(s) => LeaseStepKeeps(h, j, s, id);
    case BothStep(a, s) => BothKeep(h, j, a, s, id);
  }

  // ---- Runs -----------------------------------------------------------------

  predicate JointRuns(h: Hash, j: Joint, steps: seq<JointStep>, id: Uuid)
    decreases |steps|
  {
    steps == [] || (Can(j, steps[0], id) && JointRuns(h, Next(h, j, steps[0], id), steps[1..], id))
  }

  function Arrived(h: Hash, j: Joint, steps: seq<JointStep>, id: Uuid): Joint
    requires JointRuns(h, j, steps, id)
    decreases |steps|
  {
    if steps == [] then j else Arrived(h, Next(h, j, steps[0], id), steps[1..], id)
  }

  /** The slot's part of a joint run. */
  function ActionsOf(steps: seq<JointStep>): seq<Action> {
    if steps == [] then []
    else (if steps[0].LeaseStep? then [] else [steps[0].action]) + ActionsOf(steps[1..])
  }

  /** How many slots end in a run. */
  function Retirements(h: Hash, life: Life, actions: seq<Action>): nat
    requires Runs(h, life, actions)
    decreases |actions|
  {
    if actions == [] then 0
    else
      var next := Step(h, life, actions[0]).life;
      Retires(life, next) + Retirements(h, next, actions[1..])
  }

  /** A joint run is a run of the slot machine, and its leases count what that run retires. */
  lemma {:induction false} JointRunKeeps(h: Hash, j: Joint, steps: seq<JointStep>, id: Uuid)
    requires JointInv(j, id) && JointRuns(h, j, steps, id)
    ensures var n := Arrived(h, j, steps, id);
            && JointInv(n, id)
            && Runs(h, j.life, ActionsOf(steps)) && Reached(h, j.life, ActionsOf(steps)) == n.life
            && Ended(n.leases.uses, id) == Ended(j.leases.uses, id) + Retirements(h, j.life, ActionsOf(steps))
    decreases |steps|
  {
    if steps != [] {
      hide JointInv, Step, Enabled, L.After, L.Enabled, TouchesLease, OfSlot, Couple, Ended;
      var t := steps[0];
      JointStepKeeps(h, j, t, id);
      JointRunKeeps(h, Next(h, j, t, id), steps[1..], id);
      if t.LeaseStep? {
        assert ActionsOf(steps) == ActionsOf(steps[1..]);
      } else {
        assert ActionsOf(steps)[0] == t.action && ActionsOf(steps)[1..] == ActionsOf(steps[1..]);
      }
    }
  }

  lemma StartIsTied(capacity: nat, id: Uuid)
    ensures JointInv(Joint(FRESH, L.New(capacity)), id) && Ended(L.New(capacity).uses, id) == 0
  {
  }

  /**
   In every joint run, for the slot run within it: a live slot holds a lease of its own that has
   freed nothing; without one the identifier holds none but in drains; every lease has freed
   exactly one permit once it is returned and none before; and the permits freed for the
   identifier, with its drains that are still out, are exactly as many as the slots that ended.
   */
  lemma EachSlotReturnsItsLeaseOnce(h: Hash, capacity: nat, steps: seq<JointStep>, id: Uuid)
    requires JointRuns(h, Joint(FRESH, L.New(capacity)), steps, id)
    ensures var j := Arrived(h, Joint(FRESH, L.New(capacity)), steps, id);
            var uses := j.leases.uses;
            && Runs(h, FRESH, ActionsOf(steps)) && Reached(h, FRESH, ActionsOf(steps)) == j.life
            && Tied(j, id)
            && (forall k | 0 <= k < |uses| :: uses[k].frees == if uses[k].stage.Returned? then 1 else 0)
            && (forall k | 0 <= k < |uses| && uses[k].id == id && L.InTable(uses[k]) ::
                  j.life.slot.Some? && j.leases.table[id] == k)
            && Frees(uses, id) + Drains(uses, id) == Retirements(h, FRESH, ActionsOf(steps))
  {
    hide JointRuns, Arrived, Runs, Reached, Retirements, Ended, Frees, Drains;
    StartIsTied(capacity, id);
    JointRunKeeps(h, Joint(FRESH, L.New(capacity)), steps, id);
    var j := Arrived(h, Joint(FRESH, L.New(capacity)), steps, id);
    UsesAre(j, id);
    EndedAreFreedOrDrain(j.leases.uses, id);
  }

  lemma UsesAre(j: Joint, id: Uuid)
    requires JointInv(j, id)
    ensures var uses := j.leases.uses;
            && Tied(j, id)
            && (forall k | 0 <= k < |uses| :: uses[k].frees == if uses[k].stage.Returned? then 1 else 0)
            && (forall k | 0 <= k < |uses| && uses[k].id == id && L.InTable(uses[k]) ::
                  j.life.slot.Some? && id in j.leases.table && j.leases.table[id] == k)
  {
    hide A.Inv, L.GrantsApart;
  }

  /** Leases never stand in the way of a slot: whatever it can do but start, it can do jointly. */
  lemma LeasesNeverBlock(h: Hash, capacity: nat, steps: seq<JointStep>, id: Uuid, a: Action) returns (t: JointStep)
    requires JointRuns(h, Joint(FRESH, L.New(capacity)), steps, id)
    requires var j := Arrived(h, Joint(FRESH, L.New(capacity)), steps, id); Enabled(j.life, a) && !Asks(j.life, a)
    ensures !t.LeaseStep? && t.action == a && Can(Arrived(h, Joint(FRESH, L.New(capacity)), steps, id), t, id)
  {
    hide JointRuns, Arrived, Ended, Runs, Reached, Retirements, JointInv;
    StartIsTied(capacity, id);
    JointRunKeeps(h, Joint(FRESH, L.New(capacity)), steps, id);
    t := Partner(Arrived(h, Joint(FRESH, L.New(capacity)), steps, id), id, a);
  }

  lemma Partner(j: Joint, id: Uuid, a: Action) returns (t: JointStep)
    requires JointInv(j, id) && Enabled(j.life, a) && !Asks(j.life, a)
    ensures !t.LeaseStep? && t.action == a && Can(j, t, id)
  {
    hide L.Inv, L.After;
    if a.CleanupStarts? {
      var s := L.Cleanup(j.leases.table[id], a.draining);
      L.StepKeeps(j.leases, s);
      t := BothStep(a, s);
    } else if a.CleanupEnds? {
      var s := L.CleanupEnds(j.leases.table[id]);
      L.StepKeeps(j.leases, s);
      t := BothStep(a, s);
    } else {
      t := SlotStep(a);
    }
  }
}
