/**
 The manager object: the dictionary of live slots, the ordered dictionary of
 tombstones, and the item the reader is blocked on.  Each handler is proved to do to
 its own identifier exactly what `TransferSlot` says, and nothing to the others except
 that their tombstones may expire or, when a new one is remembered, the oldest goes.
 */
module TransferManager {
  import opened Basics
  import opened Protocol
  import opened TransferSlot
  import D = OrderedDict

  const TOMBSTONE_MAX_ENTRIES: nat := 4096

  type Tombs = D.Dict<Uuid, Tombstone>

  /** What the purge leaves of one identifier. */
  function Forget(life: Life, now: int): Life {
    if life.tomb.Some? && life.tomb.value.expiresAt <= now then life.(tomb := None) else life
  }

  ghost predicate TombsOk(tombs: Tombs) {
    D.Valid(tombs) && |tombs.order| <= TOMBSTONE_MAX_ENTRIES
  }

  lemma KeysListed(tombs: Tombs)
    requires D.Valid(tombs)
    ensures forall id | id in tombs.items :: id in tombs.order
  {
  }

  /** Other tombstones stay as they are, but for the oldest of a full dictionary. */
  ghost predicate EvictedAtMost(id: Uuid, before: Tombs, after: Tombs) {
    forall other | other != id && D.Get(after, other) != D.Get(before, other) ::
      && other in before.items && other !in after.items
      && id !in before.items && |before.items| >= TOMBSTONE_MAX_ENTRIES
      && before.order != [] && other == before.order[0]
  }

  function Lookup<T>(m: map<Uuid, T>, id: Uuid): Option<T> {
    if id in m then Some(m[id]) else None
  }

  /** A snapshot of the manager; `detached` are the publishing threads that outlived their workers. */
  datatype Manager = Manager(
    slots: map<Uuid, Slot>,
    tombs: Tombs,
    pendingPut: Option<(Uuid, Option<Chunk>)>,
    stalled: Option<Slot>,
    detached: map<Uuid, seq<seq<byte>>>,
    closed: bool)

  predicate Blocks(m: Manager, id: Uuid) {
    m.pendingPut.Some? && m.pendingPut.value.0 == id
  }

  /** What the manager holds for one identifier. */
  function ViewOf(m: Manager, id: Uuid): Life {
    Life(Lookup(m.slots, id), D.Get(m.tombs, id),
         if Blocks(m, id) then Some(m.pendingPut.value.1) else None, if Blocks(m, id) then m.stalled else None,
         if id in m.detached then m.detached[id] else [], m.closed)
  }

  /** One step of the manager and what an observer saw of it. */
  datatype Record =
    | Moved(id: Uuid, action: Action, purge: Option<int>, events: seq<Event>)
    | ShutDown(rooms: map<Uuid, bool>, seen: map<Uuid, seq<Event>>)

  function Purged(life: Life, purge: Option<int>): Life {
    if purge.Some? then Forget(life, purge.value) else life
  }

  /** An identifier that is not addressed keeps everything, or loses its tombstone. */
  predicate KeptOrForgotten(before: Life, after: Life) {
    after == before || after == before.(tomb := None)
  }

  function RoomFor(rooms: map<Uuid, bool>, id: Uuid): bool {
    id in rooms && rooms[id]
  }

  function SeenFor(seen: map<Uuid, seq<Event>>, id: Uuid): seq<Event> {
    if id in seen then seen[id] else []
  }

  ghost predicate Follows(h: Hash, m: Manager, r: Record, m': Manager) {
    match r
    case Moved(id, a, purge, events) =>
      && Enabled(Purged(ViewOf(m, id), purge), a)
      && Outcome(ViewOf(m', id), events) == Step(h, Purged(ViewOf(m, id), purge), a)
      && forall other: Uuid | other != id :: KeptOrForgotten(ViewOf(m, other), ViewOf(m', other))
    case ShutDown(rooms, seen) =>
      && !m.closed
      && forall id: Uuid ::
           Outcome(ViewOf(m', id), SeenFor(seen, id)) == Step(h, ViewOf(m, id), Shutdown(RoomFor(rooms, id)))
  }

  lemma ArrivalFollows(m: Manager, m': Manager, id: Uuid, frame: Frame, now: int, events: seq<Event>)
    requires m.pendingPut.None?
    requires Outcome(ViewOf(m', id), events) == ReaderStep(Forget(ViewOf(m, id), now), frame)
    requires forall other: Uuid | other != id ::
               || ViewOf(m', other) == Forget(ViewOf(m, other), now)
               || ViewOf(m', other) == Forget(ViewOf(m, other), now).(tomb := None)
    ensures forall h: Hash :: Follows(h, m, Moved(id, Arrives(frame), Some(now), events), m')
  {
    hide ViewOf, Step, Enabled;
    ReaderIsFree(m, id, now);
    forall h: Hash ensures Follows(h, m, Moved(id, Arrives(frame), Some(now), events), m') {
      ArrivalIs(h, Forget(ViewOf(m, id), now), frame);
    }
  }

  lemma ReaderIsFree(m: Manager, id: Uuid, now: int)
    requires m.pendingPut.None?
    ensures Forget(ViewOf(m, id), now).pendingPut.None?
  {
  }

  lemma ArrivalIs(h: Hash, life: Life, frame: Frame)
    requires life.pendingPut.None?
    ensures Enabled(life, Arrives(frame)) && Step(h, life, Arrives(frame)) == ReaderStep(life, frame)
  {
  }

  lemma OtherFollows(m: Manager, m': Manager, id: Uuid, a: Action, o: Outcome)
    requires (a.PutIsResumed? || a.PutIsTimedOut? || a.CleanupEnds?) && Enabled(ViewOf(m, id), a)
    requires o.life == ViewOf(m', id)
    requires match a
             case PutIsTimedOut(room) => o == PutTimesOut(ViewOf(m, id), room)
             case CleanupEnds(now) => o == Outcome(Retire(ViewOf(m, id), now), [])
             case _ => ViewOf(m, id).pendingPut.Some? && o == PutResumes(ViewOf(m, id))
    requires forall other: Uuid | other != id :: KeptOrForgotten(ViewOf(m, other), ViewOf(m', other))
    ensures forall h: Hash :: Follows(h, m, Moved(id, a, None, o.events), m')
  {
    hide ViewOf, PutTimesOut, PutResumes, Retire;
  }

  /** The tombstone that a slot with a terminal leaves. */
  function Merged(existing: Option<Tombstone>, slot: Slot, now: int): (t: Tombstone)
    requires slot.finalEnd.Some?
    ensures RememberSlot(existing, slot, now) == Some(t)
  {
    RememberSlot(existing, slot, now).value
  }

  lemma NothingToRemember(existing: Option<Tombstone>, slot: Slot, now: int)
    requires slot.finalEnd.None?
    ensures RememberSlot(existing, slot, now) == existing
  {
  }

  lemma ShutdownFollows(m: Manager, m': Manager, rooms: map<Uuid, bool>, seen: map<Uuid, seq<Event>>)
    requires !m.closed
    requires forall id: Uuid ::
               Outcome(ViewOf(m', id), SeenFor(seen, id)) == ShutdownStep(ViewOf(m, id), RoomFor(rooms, id))
    ensures forall h: Hash :: Follows(h, m, ShutDown(rooms, seen), m')
  {
    hide ShutdownStep;
  }

  lemma NothingEvicted(id: Uuid, tombs: Tombs)
    ensures EvictedAtMost(id, tombs, tombs)
  {
  }

  lemma CleanupIsOver(m: Manager, id: Uuid, now: int)
    requires id in m.slots && m.slots[id].cleaning
    ensures ViewOf(m, id).slot.Some? && Enabled(ViewOf(m, id), CleanupEnds(now))
  {
  }

  /** An eviction costs another identifier its tombstone and nothing else. */
  lemma EvictionForgets(m: Manager, m': Manager, id: Uuid)
    requires EvictedAtMost(id, m.tombs, m'.tombs)
    requires m'.pendingPut == m.pendingPut && m'.detached == m.detached && m'.closed == m.closed
    requires Blocks(m, id) || m'.stalled == m.stalled
    requires forall other: Uuid | other != id :: Lookup(m'.slots, other) == Lookup(m.slots, other)
    ensures forall other: Uuid | other != id :: KeptOrForgotten(ViewOf(m, other), ViewOf(m', other))
  {
    forall other: Uuid | other != id ensures KeptOrForgotten(ViewOf(m, other), ViewOf(m', other)) {
      assert Lookup(m'.slots, other) == Lookup(m.slots, other);
      assert D.Get(m'.tombs, other) != D.Get(m.tombs, other) ==> D.Get(m'.tombs, other) == None;
    }
  }

  lemma RetiredView(m: Manager, m': Manager, id: Uuid, now: int)
    requires id in m.slots && m'.slots == m.slots - {id}
    requires D.Get(m'.tombs, id) == RememberSlot(D.Get(m.tombs, id), m.slots[id], now)
    requires m'.pendingPut == m.pendingPut && m'.detached == m.detached && m'.closed == m.closed
    requires m'.stalled == if Blocks(m, id) then Some(m.slots[id]) else m.stalled
    ensures ViewOf(m', id) == Retire(ViewOf(m, id), now)
  {
    hide RememberSlot;
  }

  class TransferManager {
    var slots: map<Uuid, Slot>
    var tombs: Tombs
    var pendingPut: Option<(Uuid, Option<Chunk>)>
    var stalled: Option<Slot>
    var detached: map<Uuid, seq<seq<byte>>>
    var closed: bool

    function State(): Manager
      reads this
    {
      Manager(slots, tombs, pendingPut, stalled, detached, closed)
    }

    ghost predicate Valid()
      reads this
    {
      TombsOk(tombs)
    }

    constructor ()
      ensures Valid() && !closed && pendingPut.None?
      ensures forall id: Uuid :: ViewOf(State(), id) == FRESH
    {
      slots, tombs, pendingPut, stalled, detached, closed := map[], D.Empty(), None, None, map[], false;
    }

    /** Expired tombstones go, the others keep their contents and order. */
    method PurgeTombstones(now: int)
      requires Valid()
      modifies this`tombs
      ensures Valid() && tombs.items.Keys <= old(tombs).items.Keys
      ensures forall id: Uuid :: ViewOf(State(), id) == Forget(ViewOf(old(State()), id), now)
    {
      hide D.Valid, D.Removed;
      var entries := tombs.order;
      KeysListed(tombs);
      for i := 0 to |entries|
        invariant TombsOk(tombs)
        invariant forall id | id in tombs.items :: id in old(tombs).items && tombs.items[id] == old(tombs).items[id]
        invariant forall id | id in old(tombs).items && id !in tombs.items :: old(tombs).items[id].expiresAt <= now
        invariant forall j | 0 <= j < i && entries[j] in tombs.items :: tombs.items[entries[j]].expiresAt > now
      {
        var id := entries[i];
        if id in tombs.items && tombs.items[id].expiresAt <= now {
          D.PopValid(tombs, id);
          tombs := D.Pop(tombs, id);
        }
      }
    }

    /** The loop at the end of `_remember_tombstone` takes at most one turn. */
    method RememberTombstone(id: Uuid, tomb: Tombstone)
      requires Valid()
      modifies this`tombs
      ensures Valid() && tombs == D.Reinsert(old(tombs), id, tomb, TOMBSTONE_MAX_ENTRIES)
      ensures D.Get(tombs, id) == Some(tomb) && EvictedAtMost(id, old(tombs), tombs)
    {
      hide D.Valid, D.Pop, D.Put;
      D.ReinsertContents(tombs, id, tomb, TOMBSTONE_MAX_ENTRIES);
      D.ReinsertLast(tombs, id, tomb);
      tombs := D.Put(D.Pop(tombs, id), id, tomb);
      ghost var written := tombs;
      while |tombs.order| > TOMBSTONE_MAX_ENTRIES
        invariant tombs == written
                  || (|written.order| > TOMBSTONE_MAX_ENTRIES && tombs == D.Pop(written, written.order[0]))
        invariant tombs != written ==> |tombs.order| <= TOMBSTONE_MAX_ENTRIES
        decreases |tombs.order|
      {
        D.EvictOldest(tombs);
        tombs := D.Pop(tombs, tombs.order[0]);
      }
    }

    /** `_retire_slot` for the slot under this identifier. */
    method RetireSlot(id: Uuid, now: int)
      requires Valid() && id in slots
      modifies this`slots, this`tombs, this`stalled
      ensures Valid() && ViewOf(State(), id) == Retire(ViewOf(old(State()), id), now)
      ensures EvictedAtMost(id, old(tombs), tombs)
      ensures old(slots)[id].cleaning ==>
                forall h: Hash :: Follows(h, old(State()), Moved(id, CleanupEnds(now), None, []), State())
      ensures forall other: Uuid | other != id :: KeptOrForgotten(ViewOf(old(State()), other), ViewOf(State(), other))
    {
      hide D.Valid, D.Reinsert, Follows, RememberSlot, Retire, ViewOf, EvictedAtMost, KeptOrForgotten;
      var slot := slots[id];
      slots := slots - {id};
      if pendingPut.Some? && pendingPut.value.0 == id {
        stalled := Some(slot);
      }
      if slot.finalEnd.Some? {
        RememberTombstone(id, Merged(D.Get(tombs, id), slot, now));
      } else {
        NothingToRemember(D.Get(tombs, id), slot, now);
        NothingEvicted(id, tombs);
      }
      EvictionForgets(old(State()), State(), id);
      RetiredView(old(State()), State(), id, now);
      if slot.cleaning {
        CleanupIsOver(old(State()), id, now);
        OtherFollows(old(State()), State(), id, CleanupEnds(now), Outcome(ViewOf(State(), id), []));
      }
    }

    /** Write a slot back, or open a new one. */
    method SetSlot(id: Uuid, slot: Slot)
      modifies this`slots
      ensures ViewOf(State(), id) == ViewOf(old(State()), id).(slot := Some(slot))
      ensures forall other: Uuid | other != id :: ViewOf(State(), other) == ViewOf(old(State()), other)
    {
      slots := slots[id := slot];
    }

    /** Replace a tombstone in place: neither its position nor any other entry changes. */
    method SetTomb(id: Uuid, tomb: Tombstone)
      requires Valid() && id in tombs.items
      modifies this`tombs
      ensures Valid() && ViewOf(State(), id) == ViewOf(old(State()), id).(tomb := Some(tomb))
              && tombs.order == old(tombs).order
      ensures forall other: Uuid | other != id :: ViewOf(State(), other) == ViewOf(old(State()), other)
    {
      D.PutValid(tombs, id, tomb);
      tombs := D.Put(tombs, id, tomb);
    }

    /** Append to the slot's bounded queue, or leave the reader waiting for room. */
    method PutInbound(id: Uuid, slot: Slot, item: Option<Chunk>, done: seq<Event>) returns (events: seq<Event>)
      requires id in slots && pendingPut.None?
      modifies this`slots, this`pendingPut, this`stalled
      ensures Outcome(ViewOf(State(), id), events) == Put(ViewOf(old(State()), id), slot, item, done)
      ensures forall other: Uuid | other != id :: ViewOf(State(), other) == ViewOf(old(State()), other)
    {
      if |slot.inbound| < TRANSFER_CHUNKS_PER_SLOT {
        SetSlot(id, slot.(inbound := slot.inbound + [item]));
        events := done + [Queued(item)];
      } else {
        SetSlot(id, slot);
        pendingPut, stalled := Some((id, item)), None;
        events := done;
      }
    }

    method HandleBinary(payload: seq<byte>, now: int) returns (events: seq<Event>)
      requires Valid() && pendingPut.None?
      modifies this
      ensures Valid() && closed == old(closed)
      ensures match DecodeBinaryChunk(payload)
              case Err(_) =>
                events == [Refused] && forall id: Uuid :: ViewOf(State(), id) == ViewOf(old(State()), id)
              case Ok((id, chunk)) =>
                && Outcome(ViewOf(State(), id), events) == OnBinary(Forget(ViewOf(old(State()), id), now), chunk)
                && (forall other: Uuid | other != id ::
                     ViewOf(State(), other) == Forget(ViewOf(old(State()), other), now))
                && forall h: Hash ::
                     Follows(h, old(State()), Moved(id, Arrives(BinaryFrame(chunk)), Some(now), events), State())
    {
      hide D.Valid, DecodeBinaryChunk, Follows, ViewOf, OnBinary;
      var decoded := DecodeBinaryChunk(payload);
      if decoded.Err? {
        return [Refused];
      }
      var (id, chunk) := decoded.value;
      PurgeTombstones(now);
      events := BinaryFor(id, chunk);
      ArrivalFollows(old(State()), State(), id, BinaryFrame(chunk), now, events);
    }

    method BinaryFor(id: Uuid, chunk: Chunk) returns (events: seq<Event>)
      requires Valid() && pendingPut.None?
      modifies this
      ensures Valid() && closed == old(closed)
      ensures Outcome(ViewOf(State(), id), events) == OnBinary(ViewOf(old(State()), id), chunk)
      ensures forall other: Uuid | other != id :: ViewOf(State(), other) == ViewOf(old(State()), other)
    {
      hide D.Valid, Put;
      events := [Refused];
      if id !in slots {
        events := LateBinary(id, chunk);
        return;
      }
      var slot := slots[id];
      if slot.role != Receiver || !(slot.phase.Ready? || slot.phase.Streaming?) {
        if && slot.role == Receiver && slot.phase.Aborted? && slot.receiverReady && chunk != []
           && slot.declared.Some? && slot.inboundBytes + slot.lateBytes + |chunk| <= slot.declared.value
        {
          SetSlot(id, slot.(lateBytes := slot.lateBytes + |chunk|));
          events := [BytesTaken(|chunk|)];
        }
      } else if !(slot.declared.Some? && slot.inboundBytes + |chunk| > slot.declared.value) {
        events := PutInbound(id, slot.(inboundBytes := slot.inboundBytes + |chunk|), Some(chunk),
                             [BytesTaken(|chunk|)]);
      }
    }

    /** Data for a retired slot: swallowed up to the declared total by a failed receiver. */
    method LateBinary(id: Uuid, chunk: Chunk) returns (events: seq<Event>)
      requires Valid() && id !in slots
      modifies this`tombs
      ensures Valid() && Outcome(ViewOf(State(), id), events) == OnBinary(ViewOf(old(State()), id), chunk)
      ensures forall other: Uuid | other != id :: ViewOf(State(), other) == ViewOf(old(State()), other)
    {
      hide D.Valid, Put;
      var tomb := D.Get(tombs, id);
      if && tomb.Some? && tomb.value.receiverFailed && tomb.value.receiverReady && chunk != []
         && tomb.value.declared.Some? && tomb.value.bytesSeen + |chunk| <= tomb.value.declared.value
      {
        SetTomb(id, tomb.value.(bytesSeen := tomb.value.bytesSeen + |chunk|));
        return [BytesTaken(|chunk|)];
      }
      events := [Refused];
    }

    method AcceptStart(id: Uuid, slot: Slot, granted: bool, room: bool, now: int) returns (events: seq<Event>)
      requires Valid()
      modifies this`slots, this`tombs
      ensures Valid()
              && Outcome(ViewOf(State(), id), events) == Start(ViewOf(old(State()), id), slot, granted, room, now)
      ensures EvictedAtMost(id, old(tombs), tombs)
      ensures forall other: Uuid | other != id :: KeptOrForgotten(ViewOf(old(State()), other), ViewOf(State(), other))
    {
      hide D.Valid, D.Reinsert;
      if closed || id in slots || id in tombs.items {
        return [Refused];
      }
      if granted {
        SetSlot(id, slot);
        return [Started(slot.role, slot.declared)];
      }
      if !room {
        return [];
      }
      var end := FailureEnd(false, "tool_device_busy");
      RememberTombstone(id, RejectionTombstone(end, now));
      EvictionForgets(old(State()), State(), id);
      events := [Started(slot.role, None), EndSent(end)];
    }

    method AcceptReady(id: Uuid) returns (events: seq<Event>)
      modifies this`slots
      ensures Outcome(ViewOf(State(), id), events) == OnReady(ViewOf(old(State()), id))
      ensures forall other: Uuid | other != id :: ViewOf(State(), other) == ViewOf(old(State()), other)
    {
      if closed || id !in slots || slots[id].role != Sender || !slots[id].phase.Begun? {
        return [Refused];
      }
      SetSlot(id, slots[id].(phase := Streaming, senderReady := true));
      events := [];
    }

    method AcceptProgress(id: Uuid, bytesSent: nat) returns (events: seq<Event>)
      modifies this`slots
      ensures Outcome(ViewOf(State(), id), events) == OnProgress(ViewOf(old(State()), id), bytesSent)
      ensures forall other: Uuid | other != id :: ViewOf(State(), other) == ViewOf(old(State()), other)
    {
      if || closed || id !in slots || slots[id].role != Receiver
         || !(slots[id].phase.Ready? || slots[id].phase.Streaming?) || bytesSent < slots[id].lastProgress
      {
        return [Refused];
      }
      SetSlot(id, slots[id].(lastProgress := bytesSent));
      events := [];
    }

    method EndForTombstone(id: Uuid, end: End, room: bool) returns (events: seq<Event>)
      requires Valid() && id !in slots && id in tombs.items
      modifies this`tombs
      ensures Valid()
      ensures Outcome(ViewOf(State(), id), events) ==
              OnEndTombstone(ViewOf(old(State()), id), old(tombs).items[id], end, room)
      ensures forall other: Uuid | other != id :: ViewOf(State(), other) == ViewOf(old(State()), other)
    {
      hide D.Valid, D.Reinsert, SameTerminal, AcceptsChosenAck;
      var tomb := tombs.items[id];
      events := [];
      if !end.ack && !end.ok && tomb.localFailure == Some(end) {
        if !tomb.crossingAckSent && room {
          SetTomb(id, tomb.(crossingAckSent := true));
          events := [CrossingAck(end)];
        }
      } else if !end.ack && !end.ok && tomb.remoteFailure == Some(end) {
      } else if SameTerminal(tomb, end) || AcceptsChosenAck(tomb, end) {
        if end.ack && !tomb.end.ack {
          RememberTombstone(id, tomb.(end := end));
          OthersStay(id, old(tombs), tombs);
        }
        if end.ack {
          events := [AckAccepted(end)];
        }
      } else {
        events := [Refused];
      }
    }

    method EndForSlot(id: Uuid, end: End, room: bool) returns (events: seq<Event>)
      requires id in slots && pendingPut.None?
      modifies this`slots, this`pendingPut, this`stalled
      ensures Outcome(ViewOf(State(), id), events) == OnEndLive(ViewOf(old(State()), id), old(slots)[id], end, room)
      ensures forall other: Uuid | other != id :: ViewOf(State(), other) == ViewOf(old(State()), other)
    {
      hide Put, LiveAccepts, WithEnd, GivesWay, GaveWay, Acknowledged;
      var slot := slots[id];
      events := [];
      if !end.ack && !end.ok && slot.phase.Aborted? && slot.localFailure == Some(end) {
        if !slot.crossingAckSent && room {
          SetSlot(id, slot.(crossingAckSent := true));
          events := [CrossingAck(end)];
        }
      } else if !end.ack && !end.ok && slot.phase.Aborted? && slot.remoteFailure == Some(end) {
      } else if end.ack {
        if !LiveAccepts(slot, end) {
          return [Refused];
        }
        SetSlot(id, Acknowledged(slot, end));
        events := [AckAccepted(end)];
      } else if !end.ok && GivesWay(slot) {
        var (done, sent) := WithEnd(GaveWay(slot, end), FailureEnd(true, end.code.value), room);
        SetSlot(id, done);
        events := [PeerFailed(end)] + sent;
      } else if slot.role.Sender? || !(slot.phase.Ready? || slot.phase.Streaming?) {
        events := [Refused];
      } else {
        events := PutInbound(id, slot.(remoteEnd := Some(end), phase := SenderEnded), None, [EndHeld(end)]);
      }
    }

    method AcceptEnd(id: Uuid, end: End, room: bool) returns (events: seq<Event>)
      requires Valid() && pendingPut.None?
      modifies this`slots, this`tombs, this`pendingPut, this`stalled
      ensures Valid() && Outcome(ViewOf(State(), id), events) == OnEnd(ViewOf(old(State()), id), end, room)
      ensures forall other: Uuid | other != id :: ViewOf(State(), other) == ViewOf(old(State()), other)
    {
      hide D.Valid, OnEndLive, OnEndTombstone;
      if closed {
        return [Refused];
      }
      if id in slots {
        events := EndForSlot(id, end, room);
      } else if id in tombs.items {
        events := EndForTombstone(id, end, room);
      } else {
        events := [Refused];
      }
    }

    /** `handle_control`: purge, then the handler of the frame. */
    method HandleControl(id: Uuid, frame: Frame, now: int) returns (events: seq<Event>)
      requires Valid() && pendingPut.None? && !frame.BinaryFrame?
      modifies this
      ensures Valid() && closed == old(closed)
      ensures Outcome(ViewOf(State(), id), events) == ReaderStep(Forget(ViewOf(old(State()), id), now), frame)
      ensures forall other: Uuid | other != id ::
                || ViewOf(State(), other) == Forget(ViewOf(old(State()), other), now)
                || (&& ViewOf(State(), other) == Forget(ViewOf(old(State()), other), now).(tomb := None)
                    && (frame.RequestFrame? || frame.BeginFrame?))
      ensures forall h: Hash :: Follows(h, old(State()), Moved(id, Arrives(frame), Some(now), events), State())
    {
      hide D.Valid, OnEnd, Start, OnReady, OnProgress, NewSender, NewReceiver, Follows, ViewOf;
      PurgeTombstones(now);
      match frame {
        case RequestFrame(granted, room, at) =>
          events := AcceptStart(id, NewSender(), granted, room, at);
        case BeginFrame(total, sha, upload, granted, room, at) =>
          events := AcceptStart(id, NewReceiver(total, sha, upload), granted, room, at);
        case ReadyFrame => events := AcceptReady(id);
        case ProgressFrame(bytesSent) => events := AcceptProgress(id, bytesSent);
        case EndFrame(end, room) => events := AcceptEnd(id, end, room);
      }
      ArrivalFollows(old(State()), State(), id, frame, now, events);
    }

    /** The reader's blocked put goes through; the coroutine still holds its slot object. */
    method ResumePut() returns (events: seq<Event>)
      requires pendingPut.Some?
      requires var id := pendingPut.value.0; id in slots ==> |slots[id].inbound| < TRANSFER_CHUNKS_PER_SLOT
      modifies this`slots, this`pendingPut, this`stalled
      ensures var id := old(pendingPut).value.0;
              && Outcome(ViewOf(State(), id), events) == PutResumes(ViewOf(old(State()), id))
              && (forall other: Uuid | other != id :: ViewOf(State(), other) == ViewOf(old(State()), other))
              && forall h: Hash :: Follows(h, old(State()), Moved(id, PutIsResumed, None, events), State())
    {
      hide Follows;
      var (id, item) := pendingPut.value;
      pendingPut := None;
      events := [];
      if id in slots {
        events := PutInbound(id, slots[id], item, []);
      }
      OtherFollows(old(State()), State(), id, PutIsResumed, Outcome(ViewOf(State(), id), events));
    }

    method TimeOutPut(room: bool) returns (events: seq<Event>)
      requires pendingPut.Some?
      modifies this`slots, this`pendingPut, this`stalled
      ensures var id := old(pendingPut).value.0;
              && Outcome(ViewOf(State(), id), events) == PutTimesOut(ViewOf(old(State()), id), room)
              && (forall other: Uuid | other != id :: ViewOf(State(), other) == ViewOf(old(State()), other))
              && forall h: Hash :: Follows(h, old(State()), Moved(id, PutIsTimedOut(room), None, events), State())
    {
      hide AbortReceiver, Follows;
      var id := pendingPut.value.0;
      pendingPut := None;
      events := [];
      if id in slots {
        var (slot, sent) := AbortReceiver(slots[id], TIMEOUT_CODE, room);
        SetSlot(id, slot);
        events := sent;
      } else if stalled.Some? {
        events := AbortReceiver(stalled.value, TIMEOUT_CODE, room).1;
      }
      OtherFollows(old(State()), State(), id, PutIsTimedOut(room), Outcome(ViewOf(State(), id), events));
    }

    /** Shutdown up to its first suspension; `rooms` says for which slots a terminal still fits. */
    method Shutdown(rooms: map<Uuid, bool>) returns (events: map<Uuid, seq<Event>>)
      requires !closed
      modifies this`slots, this`closed
      ensures closed && events.Keys == old(slots).Keys
      ensures forall id: Uuid ::
                Outcome(ViewOf(State(), id), SeenFor(events, id)) ==
                ShutdownStep(ViewOf(old(State()), id), RoomFor(rooms, id))
      ensures forall h: Hash :: Follows(h, old(State()), ShutDown(rooms, events), State())
    {
      hide Closing, Follows, RoomFor;
      closed := true;
      events := map[];
      var todo := slots.Keys;
      while todo != {}
        invariant closed && todo <= slots.Keys == old(slots).Keys
        invariant forall id | id in todo :: slots[id] == old(slots)[id]
        invariant events.Keys == old(slots).Keys - todo
        invariant forall id | id in events ::
                    (slots[id], events[id]) == Closing(old(slots)[id], RoomFor(rooms, id))
        decreases todo
      {
        var id :| id in todo;
        var (closing, sent) := Closing(slots[id], RoomFor(rooms, id));
        slots, events := slots[id := closing], events[id := sent];
        todo := todo - {id};
      }
      ShutdownFollows(old(State()), State(), rooms, events);
    }
  }

  lemma OthersStay(id: Uuid, before: Tombs, after: Tombs)
    requires EvictedAtMost(id, before, after) && id in before.items
    ensures forall other | other != id :: D.Get(after, other) == D.Get(before, other)
  {
  }
}
