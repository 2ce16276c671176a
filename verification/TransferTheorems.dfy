/** Consequences of the run invariant, each stated on its own. */
module TransferTheorems {
  import opened Basics
  import opened Protocol
  import opened TransferSlot
  import opened TransferRuns

  lemma ReachedInv(h: Hash, actions: seq<Action>) returns (m: Monitor)
    requires Runs(h, FRESH, actions)
    ensures Inv(h, Reached(h, FRESH, actions), m)
  {
    RunKeeps(h, FRESH, UNSEEN, actions);
    m := ObserveAll(UNSEEN, Trace(h, FRESH, actions));
  }

  // ---- Retirement -----------------------------------------------------------

  /** The slot has reached a terminal that an acknowledgement can answer. */
  predicate AwaitsAnswer(s: Slot) {
    if s.role.Receiver? then s.phase.Aborted? else s.phase.SenderEnded? || s.phase.Aborted?
  }

  predicate UnacknowledgedSuccess(s: Slot) {
    s.role.Sender? && s.finalEnd.Some? && s.finalEnd.value.ok && !s.finalEnd.value.ack
  }

  predicate TombstoneAccepts(t: Option<Tombstone>, end: End) {
    t.Some? && TombAccepts(t.value, end)
  }

  ghost predicate AgreeOnAcks(s: Slot, t: Option<Tombstone>) {
    forall end: End | end.ack :: LiveAccepts(s, end) <==> TombstoneAccepts(t, end)
  }

  lemma AgreeReceiver(h: Hash, s: Slot, m: Monitor, existing: Option<Tombstone>, now: int, end: End)
    requires SlotInv(h, s, m) && s.role.Receiver? && s.phase.Aborted? && s.finalEnd.Some? && end.ack
    requires existing.Some? ==> EarlyTombInv(existing.value, s)
    ensures LiveAccepts(s, end) <==> TombstoneAccepts(RememberSlot(existing, s, now), end)
  {
    hide QueueInv;
  }

  lemma AgreeSender(h: Hash, s: Slot, m: Monitor, existing: Option<Tombstone>, now: int, end: End)
    requires SlotInv(h, s, m) && s.role.Sender? && AwaitsAnswer(s) && s.finalEnd.Some? && end.ack
    requires existing.Some? ==> EarlyTombInv(existing.value, s)
    requires !UnacknowledgedSuccess(s)
    ensures LiveAccepts(s, end) <==> TombstoneAccepts(RememberSlot(existing, s, now), end)
  {
    hide SenderAcks;
    assert IsAck(s.remoteEnd) ==> s.finalEnd == s.remoteEnd by { AckedFinal(h, s, m); }
  }

  lemma AckedFinal(h: Hash, s: Slot, m: Monitor)
    requires SlotInv(h, s, m) && s.role.Sender?
    ensures IsAck(s.remoteEnd) ==> s.finalEnd == s.remoteEnd
  {
  }

  /** A pending success is answered by any failure while live, but not once retired. */
  lemma PendingSuccessDiffers(h: Hash, s: Slot, m: Monitor, existing: Option<Tombstone>, now: int)
    requires SlotInv(h, s, m) && AwaitsAnswer(s) && UnacknowledgedSuccess(s)
    ensures LiveAccepts(s, FailureEnd(true, "x"))
    ensures !TombstoneAccepts(RememberSlot(existing, s, now), FailureEnd(true, "x"))
  {
    assert s.finalEnd == s.successEnd;
  }

  /** A slot retired in any other phase starts answering an echo of its terminal. */
  lemma EchoDiffers(s: Slot, existing: Option<Tombstone>, now: int)
    requires !AwaitsAnswer(s) && s.finalEnd.Some?
    ensures var echo: End := s.finalEnd.value.(ack := true);
            !LiveAccepts(s, echo) && TombstoneAccepts(RememberSlot(existing, s, now), echo)
  {
  }

  /**
   In every reachable state, retiring the slot leaves the set of acceptable
   acknowledgements exactly as it was if and only if the slot has no terminal at
   all, or awaits an answer to one that is not an unacknowledged success.
   */
  lemma RetirementPreservesAcks(h: Hash, actions: seq<Action>, now: int)
    requires Runs(h, FRESH, actions) && Reached(h, FRESH, actions).slot.Some?
    ensures var life := Reached(h, FRESH, actions);
            var s := life.slot.value;
            AgreeOnAcks(s, Retire(life, now).tomb)
            <==> (s.finalEnd.None? || (AwaitsAnswer(s) && !UnacknowledgedSuccess(s)))
  {
    var m := ReachedInv(h, actions);
    var life := Reached(h, FRESH, actions);
    RetirementAgrees(h, life, m, now);
  }

  lemma RetirementAgrees(h: Hash, life: Life, m: Monitor, now: int)
    requires Inv(h, life, m) && life.slot.Some?
    ensures var s := life.slot.value;
            AgreeOnAcks(s, Retire(life, now).tomb)
            <==> (s.finalEnd.None? || (AwaitsAnswer(s) && !UnacknowledgedSuccess(s)))
  {
    hide SlotInv, LiveAccepts, TombstoneAccepts, RememberSlot, UnacknowledgedSuccess, AwaitsAnswer, EarlyTombInv;
    var s := life.slot.value;
    var t := RememberSlot(life.tomb, s, now);
    if s.finalEnd.None? {
      NoTerminal(h, life, m, now);
    } else if !AwaitsAnswer(s) {
      EchoDiffers(s, life.tomb, now);
      var echo: End := s.finalEnd.value.(ack := true);
      assert echo.ack;
    } else if UnacknowledgedSuccess(s) {
      PendingSuccessDiffers(h, s, m, life.tomb, now);
      assert FailureEnd(true, "x").ack;
    } else {
      forall end: End | end.ack ensures LiveAccepts(s, end) <==> TombstoneAccepts(t, end) {
        Agrees(h, s, m, life.tomb, now, end);
      }
    }
  }

  lemma Agrees(h: Hash, s: Slot, m: Monitor, existing: Option<Tombstone>, now: int, end: End)
    requires SlotInv(h, s, m) && AwaitsAnswer(s) && s.finalEnd.Some? && end.ack && !UnacknowledgedSuccess(s)
    requires existing.Some? ==> EarlyTombInv(existing.value, s)
    ensures LiveAccepts(s, end) <==> TombstoneAccepts(RememberSlot(existing, s, now), end)
  {
    hide SlotInv, LiveAccepts, TombstoneAccepts, RememberSlot, UnacknowledgedSuccess, EarlyTombInv;
    if s.role.Sender? {
      AgreeSender(h, s, m, existing, now, end);
    } else {
      AgreeReceiver(h, s, m, existing, now, end);
    }
  }

  lemma NoTerminal(h: Hash, life: Life, m: Monitor, now: int)
    requires Inv(h, life, m) && life.slot.Some? && life.slot.value.finalEnd.None?
    ensures AgreeOnAcks(life.slot.value, RememberSlot(life.tomb, life.slot.value, now))
  {
    var s := life.slot.value;
    assert life.tomb.None?;
    assert !IsAck(s.remoteEnd) by {
      if s.role.Sender? {
        AckedFinal(h, s, m);
      } else {
        ReceiverRemote(h, s, m);
      }
    }
    hide SlotInv;
  }

  lemma ReceiverRemote(h: Hash, s: Slot, m: Monitor)
    requires SlotInv(h, s, m) && s.role.Receiver?
    ensures s.remoteEnd.None? || !s.remoteEnd.value.ack
  {
  }

  // ---- Publication ----------------------------------------------------------

  lemma {:induction false} TraceOkAt(h: Hash, m: Monitor, events: seq<Event>, i: nat)
    requires TraceOk(h, m, events) && i < |events|
    ensures EventOk(h, ObserveAll(m, events[..i]), events[i])
  {
    assert events == events[..i] + events[i..];
    ObserveConcat(h, m, events[..i], events[i..]);
  }

  lemma {:induction false} CheckedEarlier(h: Hash, events: seq<Event>, content: seq<byte>) returns (j: nat)
    requires content in ObserveAll(UNSEEN, events).checked
    ensures j < |events| && events[j].Checked? && events[j].content == content
  {
    assert events != [];
    var n := |events| - 1;
    assert events == events[..n] + [events[n]];
    ObserveMore(h, UNSEEN, events[..n], events[n]);
    if events[n].Checked? && events[n].content == content {
      j := n;
    } else {
      j := CheckedEarlier(h, events[..n], content);
    }
  }

  /**
   Whatever is published, by the worker or by a thread that outlived it, was
   checked earlier: it is the bytes queued before the first end marker, in arrival
   order, as long as the declared total, and as the end frame held then says.
   */
  lemma PublishedWasChecked(h: Hash, actions: seq<Action>, i: nat) returns (j: nat)
    requires Runs(h, FRESH, actions)
    requires var trace := Trace(h, FRESH, actions); i < |trace| && trace[i].Published?
    ensures var trace := Trace(h, FRESH, actions);
            && j < i && trace[j].Checked? && trace[j].content == trace[i].content
            && var m := ObserveAll(UNSEEN, trace[..j]);
               && trace[i].content == BeforeMarker(m.arrivals)
               && trace[j].end in m.ends
               && Describes(h, trace[j].end, trace[i].content)
               && (m.declared.Some? ==> |trace[i].content| == m.declared.value)
  {
    hide Step, Enabled;
    RunsAreSafe(h, actions);
    var trace := Trace(h, FRESH, actions);
    TraceOkAt(h, UNSEEN, trace, i);
    j := CheckedEarlier(h, trace[..i], trace[i].content);
    assert trace[..i][..j] == trace[..j];
    TraceOkAt(h, UNSEEN, trace, j);
  }

  // ---- Tombstone expiry -----------------------------------------------------

  predicate SameExpiry(before: Option<Tombstone>, after: Option<Tombstone>) {
    before.Some? && after.Some? ==> after.value.expiresAt == before.value.expiresAt
  }

  lemma WorkerExpiry(h: Hash, life: Life, s: Slot, sa: SenderAction, ra: ReceiverAction)
    ensures SameExpiry(life.tomb, SenderStep(h, life, s, sa).life.tomb)
    ensures ReceiverCan(s, ra) ==> SameExpiry(life.tomb, ReceiverStep(h, life, s, ra).life.tomb)
  {
    hide SenderFails, SealError, WithEnd, ResolveFailureAck, SenderVerified;
  }

  lemma ReaderExpiry(life: Life, f: Frame)
    ensures SameExpiry(life.tomb, ReaderStep(life, f).life.tomb)
  {
    hide LiveAccepts, SameTerminal, AcceptsChosenAck, WithEnd;
  }

  lemma StepExpiry(h: Hash, life: Life, a: Action)
    requires Enabled(life, a)
    ensures SameExpiry(life.tomb, Step(h, life, a).life.tomb)
  {
    hide SenderStep, ReceiverStep, ReaderStep, SenderCan, Closing, AbortReceiver;
    match a
    case Arrives(frame) => ReaderExpiry(life, frame);
    case SenderActs(act) => WorkerExpiry(h, life, life.slot.value, act, CommitStarts);
    case ReceiverActs(act) => WorkerExpiry(h, life, life.slot.value, ReadyResumes, act);
    case _ =>
  }

  /** The identifier is remembered in every state of the run. */
  predicate StaysRemembered(h: Hash, life: Life, actions: seq<Action>)
    requires Runs(h, life, actions)
    decreases |actions|
  {
    && life.tomb.Some?
    && (actions != [] ==> StaysRemembered(h, Step(h, life, actions[0]).life, actions[1..]))
  }

  /** However often a tombstone is rewritten before it is forgotten, its expiry stays. */
  lemma {:induction false} RewritesNeverExtendExpiry(h: Hash, life: Life, actions: seq<Action>)
    requires Runs(h, life, actions) && StaysRemembered(h, life, actions)
    ensures Reached(h, life, actions).tomb.Some?
    ensures Reached(h, life, actions).tomb.value.expiresAt == life.tomb.value.expiresAt
    decreases |actions|
  {
    if actions != [] {
      hide Step, Enabled;
      StepExpiry(h, life, actions[0]);
      RewritesNeverExtendExpiry(h, Step(h, life, actions[0]).life, actions[1..]);
    }
  }

  // ---- What the code does not promise ---------------------------------------

  lemma RunsOn(h: Hash, life: Life, actions: seq<Action>, a: Action)
    requires Runs(h, life, actions) && Enabled(Reached(h, life, actions), a)
    ensures Runs(h, life, actions + [a])
    ensures Reached(h, life, actions + [a]) == Step(h, Reached(h, life, actions), a).life
    ensures Trace(h, life, actions + [a]) == Trace(h, life, actions) + Step(h, Reached(h, life, actions), a).events
    decreases |actions|
  {
    hide Step, Enabled;
    if actions == [] {
      assert [] + [a] == [a] && [a][1..] == [];
    } else {
      assert (actions + [a])[1..] == actions[1..] + [a];
      RunsOn(h, Step(h, life, actions[0]).life, actions[1..], a);
    }
  }

  /** One more action, when the state reached is known outright. */
  lemma Then(h: Hash, actions: seq<Action>, life: Life, a: Action) returns (actions': seq<Action>)
    requires Runs(h, FRESH, actions) && Reached(h, FRESH, actions) == life && Enabled(life, a)
    ensures actions' == actions + [a]
    ensures Runs(h, FRESH, actions') && Reached(h, FRESH, actions') == Step(h, life, a).life
    ensures Trace(h, FRESH, actions') == Trace(h, FRESH, actions) + Step(h, life, a).events
  {
    hide Step, Enabled;
    actions' := actions + [a];
    RunsOn(h, FRESH, actions, a);
  }

  function ReceivingSlot(): Slot {
    NewReceiver(None, None, false).(phase := Ready, receiverReady := true, worker := Receiving)
  }

  lemma ReceivingRun(h: Hash) returns (actions: seq<Action>)
    ensures Runs(h, FRESH, actions) && Reached(h, FRESH, actions) == FRESH.(slot := Some(ReceivingSlot()))
  {
    hide Runs, Reached, Trace;
    EmptyRun(h);
    actions := Then(h, [], FRESH, Arrives(BeginFrame(None, None, false, true, true, 0)));
    var slot := NewReceiver(None, None, false);
    actions := Then(h, actions, FRESH.(slot := Some(slot)), ReceiverActs(DestinationReserved(true)));
    slot := slot.(phase := Ready, receiverReady := true, worker := OpeningTemporary);
    actions := Then(h, actions, FRESH.(slot := Some(slot)), ReceiverActs(TemporaryOpened));
  }

  lemma EmptyRun(h: Hash)
    ensures Runs(h, FRESH, []) && Reached(h, FRESH, []) == FRESH && Trace(h, FRESH, []) == []
  {
  }

  function HeldSlot(h: Hash): Slot {
    ReceivingSlot().(inboundBytes := 1, inbound := [Some([1]), None], phase := SenderEnded,
                     remoteEnd := Some(SuccessEnd(false, 1, h([1]))))
  }

  lemma HeldRun(h: Hash) returns (actions: seq<Action>, i: nat)
    ensures Runs(h, FRESH, actions) && Reached(h, FRESH, actions) == FRESH.(slot := Some(HeldSlot(h)))
    ensures i < |Trace(h, FRESH, actions)| && Trace(h, FRESH, actions)[i].EndHeld?
  {
    hide Runs, Reached, Trace;
    actions := ReceivingRun(h);
    actions := Then(h, actions, FRESH.(slot := Some(ReceivingSlot())), Arrives(BinaryFrame([1])));
    var slot := ReceivingSlot().(inboundBytes := 1, inbound := [Some([1])]);
    assert ReceivingSlot().inbound + [Some([1])] == slot.inbound;
    assert slot.inbound + [None] == HeldSlot(h).inbound;
    i := |Trace(h, FRESH, actions)|;
    actions := Then(h, actions, FRESH.(slot := Some(slot)), Arrives(EndFrame(SuccessEnd(false, 1, h([1])), true)));
  }

  /**
   A receiver whose end frame arrived while a chunk was still queued returns to
   STREAMING when that chunk is written, and then takes further binary data.  What
   it takes is never published: `PublishedWasChecked` stops at the first marker.
   */
  lemma EndCanBeReopened(h: Hash) returns (actions: seq<Action>, i: nat)
    ensures Runs(h, FRESH, actions)
    ensures var trace := Trace(h, FRESH, actions);
            i + 1 < |trace| && trace[i].EndHeld? && trace[|trace| - 1] == Queued(Some([2]))
  {
    hide Runs, Reached, Trace;
    actions, i := HeldRun(h);
    actions := Then(h, actions, FRESH.(slot := Some(HeldSlot(h))), ReceiverActs(QueueGives));
    var slot := HeldSlot(h).(inbound := [None], worker := Writing([1]));
    assert HeldSlot(h).inbound[1..] == slot.inbound && slot.transferred + [1] == [1];
    actions := Then(h, actions, FRESH.(slot := Some(slot)), ReceiverActs(ChunkWritten));
    slot := slot.(transferred := [1], phase := Streaming, worker := Receiving);
    actions := Then(h, actions, FRESH.(slot := Some(slot)), Arrives(BinaryFrame([2])));
  }

  function AwaitingSlot(h: Hash): Slot {
    var end := SuccessEnd(false, 0, h([]));
    NewSender().(phase := SenderEnded, senderReady := true, finalEnd := Some(end), successEnd := Some(end),
                 worker := AwaitingAck)
  }

  lemma AwaitingRun(h: Hash) returns (actions: seq<Action>)
    ensures Runs(h, FRESH, actions) && Reached(h, FRESH, actions) == FRESH.(slot := Some(AwaitingSlot(h)))
  {
    hide Runs, Reached, Trace;
    EmptyRun(h);
    actions := Then(h, [], FRESH, Arrives(RequestFrame(true, true, 0)));
    var slot := NewSender();
    actions := Then(h, actions, FRESH.(slot := Some(slot)), SenderActs(SourceOpened(true)));
    slot := slot.(phase := TransferSlot.Begun, worker := AwaitingReady);
    actions := Then(h, actions, FRESH.(slot := Some(slot)), Arrives(ReadyFrame));
    slot := slot.(phase := Streaming, senderReady := true);
    actions := Then(h, actions, FRESH.(slot := Some(slot)), SenderActs(ReadyResumes));
    slot := slot.(worker := Reading);
    actions := Then(h, actions, FRESH.(slot := Some(slot)), SenderActs(SourceVerified(true)));
  }

  /** The bound of two is met: a peer that fails after acknowledging can acknowledge again. */
  lemma PeerFailureAllowsASecondAck(h: Hash) returns (actions: seq<Action>)
    ensures Runs(h, FRESH, actions)
    ensures AckAccepted(FailureEnd(true, "a")) in Trace(h, FRESH, actions)
    ensures AckAccepted(FailureEnd(true, "b")) in Trace(h, FRESH, actions)
  {
    hide Runs, Reached, Trace;
    actions := AwaitingRun(h);
    var life := FRESH.(slot := Some(AwaitingSlot(h)));
    var a: Action := Arrives(EndFrame(FailureEnd(true, "a"), true));
    actions := Then(h, actions, life, a);
    life := Step(h, life, a).life;
    a := Arrives(EndFrame(FailureEnd(false, "b"), true));
    actions := Then(h, actions, life, a);
    life := Step(h, life, a).life;
    actions := Then(h, actions, life, Arrives(EndFrame(FailureEnd(true, "b"), true)));
  }

  /** The awaiting sender after a failure of the peer whose acknowledgement found no room. */
  function RetiringSlot(h: Hash): Slot {
    var failure := FailureEnd(false, "b");
    AwaitingSlot(h).(remoteEnd := Some(failure), remoteFailure := Some(failure), phase := Aborted,
                     senderAck := true, worker := Finishing, cleaning := true)
  }

  lemma RetiringRun(h: Hash) returns (actions: seq<Action>)
    ensures Runs(h, FRESH, actions) && Reached(h, FRESH, actions) == FRESH.(slot := Some(RetiringSlot(h)))
  {
    hide Runs, Reached, Trace;
    actions := AwaitingRun(h);
    var failure := FailureEnd(false, "b");
    var slot := AwaitingSlot(h);
    actions := Then(h, actions, FRESH.(slot := Some(slot)), Arrives(EndFrame(failure, false)));
    slot := slot.(remoteEnd := Some(failure), remoteFailure := Some(failure), phase := Aborted,
                  senderReady := true, senderAck := true);
    actions := Then(h, actions, FRESH.(slot := Some(slot)), SenderActs(AckResumes(true, 0)));
    slot := slot.(worker := Finishing);
    actions := Then(h, actions, FRESH.(slot := Some(slot)), CleanupStarts(false, 0));
  }

  /** A run in which the live slot would take an acknowledgement that its tombstone refuses. */
  lemma RetiredSuccessRefusesAFailure(h: Hash) returns (live: seq<Action>, retired: seq<Action>)
    ensures Runs(h, FRESH, live) && Reached(h, FRESH, live).slot.Some?
    ensures LiveAccepts(Reached(h, FRESH, live).slot.value, FailureEnd(true, "x"))
    ensures retired == live + [CleanupEnds(0)] + [Arrives(EndFrame(FailureEnd(true, "x"), true))]
    ensures Runs(h, FRESH, retired)
    ensures Trace(h, FRESH, retired) == Trace(h, FRESH, live) + [Refused]
  {
    hide Runs, Reached, Trace;
    live := RetiringRun(h);
    var life := FRESH.(slot := Some(RetiringSlot(h)));
    retired := Then(h, live, life, CleanupEnds(0));
    retired := Then(h, retired, Step(h, life, CleanupEnds(0)).life, Arrives(EndFrame(FailureEnd(true, "x"), true)));
    assert Trace(h, FRESH, live) + [] == Trace(h, FRESH, live);
  }
}
