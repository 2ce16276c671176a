/** Runs of the writer: its invariant, first-in first-out order and fairness. */
module WriterRuns {
  import opened Basics
  import opened Protocol
  import opened Writer

  /** One atomic section, run by any coroutine in any order. */
  datatype Step =
    | RegisterStep(id: Uuid)
    | UnregisterStep(id: Uuid)
    | DiscardStep(id: Uuid)
    | CriticalStep(control: Control)
    | NormalStep(text: string)
    | BinaryStep(id: Uuid, payload: seq<byte>)
    | SendStep
    | SettleStep
    | StopStep
    | FailStep

  function Applied(r: Result<Writer, Overflow>, w: Writer): Writer {
    match r case Ok(next) => next case Err(_) => w
  }

  predicate Sends(w: Writer, s: Step) {
    s.SendStep? && w.running && Queued(w)
  }

  function After(w: Writer, s: Step): Writer
    requires Inv(w)
  {
    match s
    case RegisterStep(id) => Applied(Register(w, id), w)
    case UnregisterStep(id) => Applied(Unregister(w, id), w)
    case DiscardStep(id) => Discard(w, id)
    case CriticalStep(c) => Applied(EnqueueCritical(w, c), w)
    case NormalStep(text) => Applied(EnqueueNormal(w, text), w)
    case BinaryStep(id, payload) => Applied(EnqueueBinary(w, id, payload), w)
    case SendStep => if Sends(w, s) then SendNext(w).0 else w
    case SettleStep => SetIdleIfEmpty(w)
    case StopStep => w.(stopping := true, available := true)
    case FailStep => Fail(w)
  }

  function Emitted(w: Writer, s: Step): seq<Message>
    requires Inv(w)
  {
    if Sends(w, s) then [SendNext(w).1] else []
  }

  lemma StepKeeps(w: Writer, s: Step)
    requires Inv(w)
    ensures Inv(After(w, s))
  {
    hide LanesInv, RotationInv, ControlInv, Register, Discard, EnqueueCritical, EnqueueNormal, EnqueueBinary,
         SendNext, Fail;
    match s
    case RegisterStep(id) => RegisterKeeps(w, id);
    case UnregisterStep(id) => DiscardKeeps(w, id);
    case DiscardStep(id) => DiscardKeeps(w, id);
    case CriticalStep(c) => EnqueueControlKeeps(w, c, "");
    case NormalStep(text) => EnqueueControlKeeps(w, OtherControl(""), text);
    case BinaryStep(id, payload) => EnqueueBinaryKeeps(w, id, payload);
    case SendStep => if Sends(w, s) { SendKeeps(w); }
    case SettleStep =>
    case StopStep =>
    case FailStep => FailKeeps(w);
  }

  function Run(w: Writer, steps: seq<Step>): Writer
    requires Inv(w)
    decreases |steps|
  {
    if steps == [] then w
    else
      StepKeeps(w, steps[0]);
      Run(After(w, steps[0]), steps[1..])
  }

  function Sent(w: Writer, steps: seq<Step>): seq<Message>
    requires Inv(w)
    decreases |steps|
  {
    if steps == [] then []
    else
      StepKeeps(w, steps[0]);
      Emitted(w, steps[0]) + Sent(After(w, steps[0]), steps[1..])
  }

  /** Bounds, byte counters, rotation and flags hold after every run. */
  lemma {:induction false} RunsKeepTheInvariant(w: Writer, steps: seq<Step>)
    requires Inv(w)
    ensures Inv(Run(w, steps))
    decreases |steps|
  {
    if steps != [] {
      StepKeeps(w, steps[0]);
      hide Inv, After;
      RunsKeepTheInvariant(After(w, steps[0]), steps[1..]);
    }
  }

  // ---- Fairness of the normal lane ------------------------------------------

  function NonCritical(sent: seq<Message>): nat {
    if sent == [] then 0 else (if sent[0].CriticalMessage? then 0 else 1) + NonCritical(sent[1..])
  }

  function Normals(sent: seq<Message>): seq<string> {
    if sent == [] then []
    else (if sent[0].NormalMessage? then [sent[0].text] else []) + Normals(sent[1..])
  }

  lemma FirstSent(first: seq<Message>, rest: seq<Message>)
    requires |first| <= 1
    ensures first == [] ==> first + rest == rest
    ensures first != [] ==> (first + rest)[0] == first[0] && (first + rest)[1..] == rest
  {
    assert first == [] ==> first + rest == rest;
    assert first != [] ==> (first + rest)[1..] == rest;
  }

  /** How many non-critical sends the frame at index `k` may still have to wait for. */
  function NormalWait(w: Writer, k: nat): nat {
    2 * k + if w.normalTurn then 1 else 2
  }

  lemma StepOutcome(w: Writer, s: Step)
    requires Inv(w)
    ensures Sends(w, s) ==> After(w, s) == SendNext(w).0 && Emitted(w, s) == [SendNext(w).1]
    ensures !Sends(w, s) ==> Emitted(w, s) == []
  {
  }

  /** Sections other than a send leave the turn alone and only append to the normal lane. */
  /** The turn is as it was, and the queue of normal frames has at most grown. */
  predicate Quiet(w: Writer, w': Writer) {
    w'.running == w.running && w'.normalTurn == w.normalTurn && w.normal <= w'.normal
  }

  lemma LanesAreQuiet(w: Writer, id: Uuid)
    ensures Quiet(w, Applied(Register(w, id), w)) && Quiet(w, Discard(w, id)) && Quiet(w, Applied(Unregister(w, id), w))
  {
    hide Without;
  }

  lemma BinaryIsQuiet(w: Writer, id: Uuid, payload: seq<byte>)
    requires Inv(w)
    ensures Quiet(w, Applied(EnqueueBinary(w, id, payload), w))
  {
    hide LanesInv, RotationInv, ControlInv, EncodeBinaryChunk;
  }

  lemma ControlsAreQuiet(w: Writer, c: Control, text: string)
    ensures Quiet(w, Applied(EnqueueCritical(w, c), w)) && Quiet(w, Applied(EnqueueNormal(w, text), w))
  {
  }

  lemma QuietStep(w: Writer, s: Step)
    requires Inv(w) && !Sends(w, s) && !s.FailStep?
    ensures Quiet(w, After(w, s))
  {
    hide LanesInv, RotationInv, ControlInv, Register, Unregister, Discard, EnqueueCritical, EnqueueNormal,
         EnqueueBinary, Applied;
    match s
    case RegisterStep(id) => LanesAreQuiet(w, id);
    case UnregisterStep(id) => LanesAreQuiet(w, id);
    case DiscardStep(id) => LanesAreQuiet(w, id);
    case CriticalStep(c) => ControlsAreQuiet(w, c, "");
    case NormalStep(text) => ControlsAreQuiet(w, OtherControl(""), text);
    case BinaryStep(id, payload) => BinaryIsQuiet(w, id, payload);
    case _ =>
  }

  lemma SendTurn(w: Writer)
    requires Inv(w) && Queued(w)
    ensures var (w', out) := SendNext(w);
            && w'.running == w.running
            && (out.CriticalMessage? ==> w'.normal == w.normal && w'.normalTurn == w.normalTurn)
            && (out.NormalMessage? ==>
                  w.normal != [] && out.text == w.normal[0] && w'.normal == w.normal[1..] && !w'.normalTurn)
            && (out.BinaryMessage? ==>
                  w'.normal == w.normal && (w.normal != [] ==> !w.normalTurn) && w'.normalTurn)
  {
    hide LanesInv, ControlInv;
  }

  lemma {:induction false} NormalServed(w: Writer, steps: seq<Step>, k: nat)
    requires Inv(w) && w.running && k < |w.normal|
    requires forall i | 0 <= i < |steps| :: !steps[i].FailStep?
    requires NonCritical(Sent(w, steps)) >= NormalWait(w, k)
    ensures w.normal[..k + 1] <= Normals(Sent(w, steps))
    decreases |steps|
  {
    hide Inv, After, Emitted, SendNext;
    if steps != [] {
      var s := steps[0];
      StepKeeps(w, s);
      var out, w' := Emitted(w, s), After(w, s);
      StepOutcome(w, s);
      if Sends(w, s) { SendTurn(w); } else { QuietStep(w, s); }
      var later := Sent(w', steps[1..]);
      assert Sent(w, steps) == out + later;
      FirstSent(out, later);
      if out == [] || !out[0].NormalMessage? {
        NormalServed(w', steps[1..], k);
        assert w'.normal[..k + 1] == w.normal[..k + 1];
      } else if k > 0 {
        NormalServed(w', steps[1..], k - 1);
        assert w.normal[..k + 1] == [w.normal[0]] + w'.normal[..k];
      } else {
        assert w.normal[..1] == [w.normal[0]];
      }
    }
  }

  /**
   Whatever is queued, registered or discarded meanwhile, the normal frame at index
   `k` is sent, after its predecessors, within `2 * (k + 1)` non-critical sends.
   */
  lemma NormalFramesAreNotStarved(w: Writer, steps: seq<Step>, k: nat)
    requires Inv(w) && w.running && k < |w.normal|
    requires forall i | 0 <= i < |steps| :: !steps[i].FailStep?
    requires NonCritical(Sent(w, steps)) >= 2 * (k + 1)
    ensures w.normal[..k + 1] <= Normals(Sent(w, steps))
  {
    NormalServed(w, steps, k);
  }

  // ---- Fairness of the transfer lanes ---------------------------------------

  function ChunksOf(sent: seq<Message>, id: Uuid): Lane {
    if sent == [] then []
    else
      (if sent[0].BinaryMessage? && IsChunkOf(sent[0].frame, id) then [sent[0].frame] else [])
      + ChunksOf(sent[1..], id)
  }

  function Position(ids: seq<Uuid>, id: Uuid): (p: nat)
    requires id in ids
    ensures p < |ids| && ids[p] == id
  {
    if ids[0] == id then 0 else 1 + Position(ids[1..], id)
  }

  lemma {:induction false} PositionAppend(ids: seq<Uuid>, id: Uuid, other: Uuid)
    requires id in ids
    ensures Position(ids + [other], id) == Position(ids, id)
  {
    if ids[0] != id {
      assert (ids + [other])[1..] == ids[1..] + [other];
      PositionAppend(ids[1..], id, other);
    }
  }

  lemma {:induction false} PositionWithout(ids: seq<Uuid>, id: Uuid, other: Uuid)
    requires id in ids && other != id
    ensures id in Without(ids, other) && Position(Without(ids, other), id) <= Position(ids, id)
  {
    if ids[0] != id {
      PositionWithout(ids[1..], id, other);
      if ids[0] != other {
        assert Without(ids, other)[1..] == Without(ids[1..], other);
      }
    }
  }

  lemma {:induction false} RotationIsShort(ids: seq<Uuid>, keys: set<Uuid>)
    requires NoDuplicates(ids) && forall id | id in ids :: id in keys
    ensures |ids| <= |keys|
  {
    if ids != [] {
      var last := ids[|ids| - 1];
      assert last in ids;
      RotationIsShort(ids[..|ids| - 1], keys - {last});
    }
  }

  predicate Discards(s: Step, id: Uuid) {
    s == DiscardStep(id)
  }

  predicate KeepsPlace(w: Writer, w': Writer, id: Uuid)
    requires id in w.binary && id in w.roundRobin
  {
    && id in w'.binary && w.binary[id] <= w'.binary[id]
    && id in w'.roundRobin && Position(w'.roundRobin, id) <= Position(w.roundRobin, id)
  }

  lemma DiscardKeepsPlace(w: Writer, id: Uuid, other: Uuid)
    requires id in w.binary && id in w.roundRobin && other != id
    ensures KeepsPlace(w, Discard(w, other), id)
  {
    PositionWithout(w.roundRobin, id, other);
  }

  lemma BinaryKeepsPlace(w: Writer, id: Uuid, other: Uuid, payload: seq<byte>)
    requires id in w.binary && id in w.roundRobin && w.binary.Keys == w.binaryBytes.Keys
    ensures KeepsPlace(w, Applied(EnqueueBinary(w, other, payload), w), id)
  {
    hide EncodeBinaryChunk, Position;
    PositionAppend(w.roundRobin, id, other);
  }

  /** Between sends a queued chunk never loses its place. */
  lemma LaneQuiet(w: Writer, s: Step, id: Uuid)
    requires Inv(w) && !Sends(w, s) && !s.FailStep? && !Discards(s, id) && id in w.roundRobin && id in w.binary
    ensures KeepsPlace(w, After(w, s), id)
  {
    hide RotationInv, ControlInv, Position, Discard, EnqueueBinary, LaneInv;
    match s
    case UnregisterStep(other) => LaneFacts(w, id); if other != id { DiscardKeepsPlace(w, id, other); }
    case DiscardStep(other) => DiscardKeepsPlace(w, id, other);
    case BinaryStep(other, payload) => BinaryKeepsPlace(w, id, other, payload);
    case _ =>
  }

  lemma {:induction false} PositionLast(ids: seq<Uuid>, id: Uuid)
    requires id !in ids
    ensures Position(ids + [id], id) == |ids|
  {
    if ids != [] {
      assert (ids + [id])[1..] == ids[1..] + [id];
      PositionLast(ids[1..], id);
    }
  }

  lemma RotationBound(w: Writer)
    requires Inv(w)
    ensures |w.roundRobin| <= BINARY_LANES_MAX
  {
    RotationIsShort(w.roundRobin, w.binary.Keys);
  }

  lemma LaneTurn(w: Writer, id: Uuid)
    requires Inv(w) && id in w.roundRobin && id in w.binary && w.critical == [] && !NormalGoes(w)
    ensures var (w', out) := SendBinary(w);
            if w.roundRobin[0] == id then
              && w.binary[id] != [] && out == BinaryMessage(w.binary[id][0]) && IsChunkOf(out.frame, id)
              && id in w'.binary && w'.binary[id] == w.binary[id][1..]
              && (w'.binary[id] != [] ==> id in w'.roundRobin && Position(w'.roundRobin, id) <= 1)
            else
              && out.BinaryMessage? && !IsChunkOf(out.frame, id)
              && id in w'.binary && w'.binary[id] == w.binary[id]
              && id in w'.roundRobin && Position(w'.roundRobin, id) == Position(w.roundRobin, id) - 1
  {
    hide ControlInv, LanesInv;
    var head := w.roundRobin[0];
    LaneFacts(w, head);
    RotationBound(w);
    assert IsChunkOf(w.binary[head][0], head);
    var rest := w.roundRobin[1..];
    if head == id {
      assert id !in rest;
      PositionLast(rest, id);
    } else {
      assert w.roundRobin == [head] + rest;
      PositionAppend(rest, id, head);
    }
  }

  function LaneWait(w: Writer, id: Uuid, j: nat): int
    requires id in w.roundRobin
  {
    2 * (Position(w.roundRobin, id) + 1 + 2 * j) - if w.normalTurn then 0 else 1
  }

  /** One send takes the wait of every queued chunk down by one, or is that chunk. */
  lemma LaneSend(w: Writer, id: Uuid, j: nat)
    requires Inv(w) && Queued(w) && id in w.roundRobin && id in w.binary && j < |w.binary[id]|
    ensures var (w', out) := SendNext(w);
            && id in w'.binary
            && (out.CriticalMessage? ==>
                 id in w'.roundRobin && w'.binary[id] == w.binary[id] && LaneWait(w', id, j) == LaneWait(w, id, j))
            && (!out.CriticalMessage? && !(out.BinaryMessage? && IsChunkOf(out.frame, id)) ==>
                  id in w'.roundRobin && w'.binary[id] == w.binary[id] && LaneWait(w', id, j) < LaneWait(w, id, j))
            && (out.BinaryMessage? && IsChunkOf(out.frame, id) ==>
                  && w.binary[id] == [out.frame] + w'.binary[id]
                  && (j > 0 ==> id in w'.roundRobin && LaneWait(w', id, j - 1) < LaneWait(w, id, j)))
  {
    hide LanesInv, RotationInv, ControlInv, SendNext, SendBinary, Position, IsChunkOf;
    SendTurn(w);
    SendShape(w);
    if w.critical == [] && !NormalGoes(w) {
      LaneTurn(w, id);
    }
  }

  lemma {:induction false} LaneServed(w: Writer, steps: seq<Step>, id: Uuid, j: nat)
    requires Inv(w) && w.running && id in w.roundRobin && id in w.binary && j < |w.binary[id]|
    requires forall i | 0 <= i < |steps| :: !steps[i].FailStep? && !Discards(steps[i], id)
    requires NonCritical(Sent(w, steps)) >= LaneWait(w, id, j)
    ensures w.binary[id][..j + 1] <= ChunksOf(Sent(w, steps), id)
    decreases |steps|
  {
    hide Inv, After, Emitted, SendNext, SendBinary, Position, IsChunkOf;
    if steps != [] {
      var s := steps[0];
      StepKeeps(w, s);
      StepOutcome(w, s);
      var out, w' := Emitted(w, s), After(w, s);
      var later := Sent(w', steps[1..]);
      assert Sent(w, steps) == out + later;
      FirstSent(out, later);
      if !Sends(w, s) {
        QuietStep(w, s);
        LaneQuiet(w, s, id);
        LaneServed(w', steps[1..], id, j);
        assert w'.binary[id][..j + 1] == w.binary[id][..j + 1];
      } else {
        SendTurn(w);
        LaneSend(w, id, j);
        if out[0].BinaryMessage? && IsChunkOf(out[0].frame, id) {
          assert w.binary[id][..j + 1] == [out[0].frame] + w'.binary[id][..j];
          if j > 0 {
            LaneServed(w', steps[1..], id, j - 1);
          }
        } else {
          LaneServed(w', steps[1..], id, j);
        }
      }
    }
  }

  lemma SendShape(w: Writer)
    requires Inv(w) && Queued(w)
    ensures var (w', out) := SendNext(w);
            && (w.critical != [] ==> out.CriticalMessage?)
            && (NormalGoes(w) ==> out.NormalMessage? && (w.roundRobin != [] ==> w.normalTurn))
            && (w.critical != [] || NormalGoes(w) ==> w'.roundRobin == w.roundRobin && w'.binary == w.binary)
            && (w.critical == [] && !NormalGoes(w) ==> w.roundRobin != [] && SendNext(w) == SendBinary(w))
  {
  }

  /**
   Unless its lane is discarded, a queued chunk at index `j` is sent, after its
   predecessors, within `4 * (j + 1)` non-critical sends.
   */
  lemma ChunksAreNotStarved(w: Writer, steps: seq<Step>, id: Uuid, j: nat)
    requires Inv(w) && w.running && id in w.binary && j < |w.binary[id]|
    requires forall i | 0 <= i < |steps| :: !steps[i].FailStep? && !Discards(steps[i], id)
    requires NonCritical(Sent(w, steps)) >= 4 * (j + 1)
    ensures w.binary[id][..j + 1] <= ChunksOf(Sent(w, steps), id)
  {
    RotationBound(w);
    assert id in w.roundRobin;
    hide Inv;
    LaneServed(w, steps, id, j);
  }
}
