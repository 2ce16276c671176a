/**
 `SerializedWriter`: the one bounded queue structure in front of a connection's
 socket.  `Writer` is a snapshot of its fields, the functions are its atomic
 sections; module `SerializedWriter` runs them in place.
 */
module Writer {
  import opened Basics
  import opened Protocol

  const CRITICAL_MAX := 16
  const NORMAL_MAX := 64
  const NORMAL_BYTES_MAX := 32 * 1024 * 1024
  const BINARY_LANE_MAX := 4
  const BINARY_LANE_BYTES_MAX := BINARY_LANE_MAX * MAX_BINARY_CHUNK_BYTES
  const BINARY_LANES_MAX := 2

  /**
   Critical control frames; transfers only need to tell their own apart.  `life` numbers
   the transfer that a terminal belongs to; it is not part of the frame.
   */
  datatype Control =
    | BeginControl(id: Uuid, total: nat)
    | ReadyControl(id: Uuid)
    | EndControl(id: Uuid, end: End, life: nat)
    | OtherControl(text: string)

  /** What is handed to `websocket.send`. */
  datatype Message = CriticalMessage(control: Control) | NormalMessage(text: string) | BinaryMessage(frame: seq<byte>)

  type Lane = seq<seq<byte>>

  /** `normalTurn` and `running` belong to the `run` coroutine. */
  datatype Writer = Writer(
    critical: seq<Control>,
    normal: seq<string>,
    normalBytes: int,
    binary: map<Uuid, Lane>,
    binaryBytes: map<Uuid, int>,
    roundRobin: seq<Uuid>,
    available: bool,
    idle: bool,
    stopping: bool,
    normalTurn: bool,
    running: bool)

  const EMPTY := Writer([], [], 0, map[], map[], [], false, true, false, true, true)

  datatype Overflow =
    | CriticalFull
    | NormalFull
    | TooManyLanes
    | LaneNotEmpty
    | ChunkTooLong
    | LaneUnavailable
    | LaneFull
    | BadSlotId

  // ---- Sizes ----------------------------------------------------------------

  function Utf8Size(text: string): nat {
    if text == [] then 0
    else
      var c := text[0] as int;
      (if c < 0x80 then 1 else if c < 0x800 then 2 else if c < 0x10000 then 3 else 4) + Utf8Size(text[1..])
  }

  function TextBytes(texts: seq<string>): nat {
    if texts == [] then 0 else Utf8Size(texts[0]) + TextBytes(texts[1..])
  }

  /** Payload bytes of a lane: every queued frame carries its 16-byte header. */
  function LaneBytes(lane: Lane): int {
    if lane == [] then 0 else |lane[0]| - BINARY_SLOT_ID_BYTES + LaneBytes(lane[1..])
  }

  lemma {:induction false} TextBytesSnoc(texts: seq<string>, t: string)
    ensures TextBytes(texts + [t]) == TextBytes(texts) + Utf8Size(t)
  {
    if texts == [] {
      assert [t][1..] == [];
    } else {
      assert (texts + [t])[1..] == texts[1..] + [t];
      TextBytesSnoc(texts[1..], t);
    }
  }

  lemma {:induction false} LaneBytesSnoc(lane: Lane, frame: seq<byte>)
    ensures LaneBytes(lane + [frame]) == LaneBytes(lane) + |frame| - BINARY_SLOT_ID_BYTES
  {
    if lane == [] {
      var one: Lane := [frame];
      assert one[1..] == [];
    } else {
      assert (lane + [frame])[1..] == lane[1..] + [frame];
      LaneBytesSnoc(lane[1..], frame);
    }
  }

  // ---- Atomic sections ------------------------------------------------------

  predicate Queued(w: Writer) {
    w.critical != [] || w.normal != [] || w.roundRobin != []
  }

  function SetIdleIfEmpty(w: Writer): Writer {
    if Queued(w) then w else w.(available := false, idle := true)
  }

  function Awake(w: Writer): Writer {
    w.(idle := false, available := true)
  }

  function Without(ids: seq<Uuid>, id: Uuid): seq<Uuid> {
    if ids == [] then []
    else if ids[0] == id then Without(ids[1..], id)
    else [ids[0]] + Without(ids[1..], id)
  }

  function Register(w: Writer, id: Uuid): Result<Writer, Overflow> {
    if id in w.binary then Ok(w)
    else if |w.binary| >= BINARY_LANES_MAX then Err(TooManyLanes)
    else Ok(w.(binary := w.binary[id := []], binaryBytes := w.binaryBytes[id := 0]))
  }

  function Unregister(w: Writer, id: Uuid): Result<Writer, Overflow> {
    if id !in w.binary then Ok(w)
    else if w.binary[id] != [] then Err(LaneNotEmpty)
    else Ok(Discard(w, id))
  }

  function Discard(w: Writer, id: Uuid): Writer {
    SetIdleIfEmpty(w.(binary := w.binary - {id}, binaryBytes := w.binaryBytes - {id},
                      roundRobin := Without(w.roundRobin, id)))
  }

  function EnqueueCritical(w: Writer, c: Control): Result<Writer, Overflow> {
    if w.stopping || |w.critical| >= CRITICAL_MAX then Err(CriticalFull)
    else Ok(Awake(w.(critical := w.critical + [c])))
  }

  function EnqueueNormal(w: Writer, text: string): Result<Writer, Overflow> {
    if w.stopping || |w.normal| >= NORMAL_MAX || w.normalBytes + Utf8Size(text) > NORMAL_BYTES_MAX then Err(NormalFull)
    else Ok(Awake(w.(normal := w.normal + [text], normalBytes := w.normalBytes + Utf8Size(text))))
  }

  function EnqueueBinary(w: Writer, id: Uuid, payload: seq<byte>): Result<Writer, Overflow>
    requires w.binary.Keys == w.binaryBytes.Keys
  {
    if |payload| > MAX_BINARY_CHUNK_BYTES then Err(ChunkTooLong)
    else if w.stopping || id !in w.binary then Err(LaneUnavailable)
    else if |w.binary[id]| >= BINARY_LANE_MAX || w.binaryBytes[id] + |payload| > BINARY_LANE_BYTES_MAX then
      Err(LaneFull)
    else match EncodeBinaryChunk(id, payload)
      case Err(_) => Err(BadSlotId)
      case Ok(frame) =>
        Ok(Awake(w.(binary := w.binary[id := w.binary[id] + [frame]],
                    binaryBytes := w.binaryBytes[id := w.binaryBytes[id] + |payload|],
                    roundRobin := if id in w.roundRobin then w.roundRobin else w.roundRobin + [id])))
  }

  // ---- The sending loop -----------------------------------------------------

  /** The lane at the head of the rotation gives one frame and goes to the back. */
  function SendBinary(w: Writer): (Writer, Message)
    requires Inv(w) && w.roundRobin != []
  {
    var id := w.roundRobin[0];
    var rest := w.binary[id][1..];
    var frame := w.binary[id][0];
    (w.(binary := w.binary[id := rest],
        binaryBytes := w.binaryBytes[id := w.binaryBytes[id] - (|frame| - BINARY_SLOT_ID_BYTES)],
        roundRobin := if rest == [] then w.roundRobin[1..] else w.roundRobin[1..] + [id],
        normalTurn := true),
     BinaryMessage(frame))
  }

  predicate NormalGoes(w: Writer) {
    w.critical == [] && w.normal != [] && (w.normalTurn || w.roundRobin == [])
  }

  function SendNext(w: Writer): (Writer, Message)
    requires Inv(w) && Queued(w)
  {
    if w.critical != [] then (w.(critical := w.critical[1..]), CriticalMessage(w.critical[0]))
    else if NormalGoes(w) then
      (w.(normal := w.normal[1..], normalBytes := w.normalBytes - Utf8Size(w.normal[0]), normalTurn := false),
       NormalMessage(w.normal[0]))
    else SendBinary(w)
  }

  function Emptied(binary: map<Uuid, Lane>): map<Uuid, Lane> {
    map id | id in binary :: []
  }

  function Zeroed(binary: map<Uuid, Lane>): map<Uuid, int> {
    map id | id in binary :: 0
  }

  /** The socket failed or the writer was cancelled: everything queued is dropped for good. */
  function Fail(w: Writer): Writer {
    w.(critical := [], normal := [], normalBytes := 0, roundRobin := [],
       binary := Emptied(w.binary), binaryBytes := Zeroed(w.binary),
       available := false, idle := true, running := false)
  }

  // ---- The invariant --------------------------------------------------------

  predicate NoDuplicates(ids: seq<Uuid>) {
    forall i, j | 0 <= i < j < |ids| :: ids[i] != ids[j]
  }

  predicate LaneInv(id: Uuid, lane: Lane, bytes: int) {
    && bytes == LaneBytes(lane)
    && |lane| <= BINARY_LANE_MAX
    && bytes <= BINARY_LANE_BYTES_MAX
    && forall i | 0 <= i < |lane| :: IsChunkOf(lane[i], id)
  }

  predicate IsChunkOf(frame: seq<byte>, id: Uuid) {
    DecodeBinaryChunk(frame).Ok? && DecodeBinaryChunk(frame).value.0 == id
  }

  predicate LanesInv(binary: map<Uuid, Lane>, bytes: map<Uuid, int>) {
    && binary.Keys == bytes.Keys
    && |binary.Keys| <= BINARY_LANES_MAX
    && forall id | id in binary :: LaneInv(id, binary[id], bytes[id])
  }

  /** The rotation holds exactly the non-empty lanes, once each. */
  predicate RotationInv(ids: seq<Uuid>, binary: map<Uuid, Lane>) {
    && (forall id | id in ids :: id in binary && binary[id] != [])
    && (forall id | id in binary && binary[id] != [] :: id in ids)
    && NoDuplicates(ids)
  }

  predicate ControlInv(critical: seq<Control>, normal: seq<string>, normalBytes: int) {
    && |critical| <= CRITICAL_MAX
    && |normal| <= NORMAL_MAX
    && normalBytes == TextBytes(normal) <= NORMAL_BYTES_MAX
  }

  predicate Inv(w: Writer) {
    && LanesInv(w.binary, w.binaryBytes)
    && RotationInv(w.roundRobin, w.binary)
    && ControlInv(w.critical, w.normal, w.normalBytes)
    && (Queued(w) ==> w.available && !w.idle)
  }

  lemma {:induction false} WithoutContents(ids: seq<Uuid>, id: Uuid)
    ensures forall x :: x in Without(ids, id) <==> x in ids && x != id
    ensures NoDuplicates(ids) ==> NoDuplicates(Without(ids, id))
  {
    if ids != [] {
      assert ids == [ids[0]] + ids[1..];
      WithoutContents(ids[1..], id);
      if NoDuplicates(ids) && ids[0] != id {
        assert ids[0] !in ids[1..];
        assert NoDuplicates(ids[1..]);
      }
    }
  }

  lemma LanesUpdate(binary: map<Uuid, Lane>, bytes: map<Uuid, int>, id: Uuid, lane: Lane, count: int)
    requires LanesInv(binary, bytes) && LaneInv(id, lane, count)
    requires id in binary || |binary| < BINARY_LANES_MAX
    ensures LanesInv(binary[id := lane], bytes[id := count])
  {
    hide LaneInv;
    assert binary[id := lane].Keys == binary.Keys + {id} == bytes[id := count].Keys;
    if id in binary {
      assert binary.Keys + {id} == binary.Keys;
    }
  }

  lemma LanesRemove(binary: map<Uuid, Lane>, bytes: map<Uuid, int>, id: Uuid)
    requires LanesInv(binary, bytes)
    ensures LanesInv(binary - {id}, bytes - {id})
  {
    hide LaneInv;
    assert (binary - {id}).Keys == binary.Keys - {id} == (bytes - {id}).Keys;
    if id !in binary {
      assert binary.Keys - {id} == binary.Keys;
    }
  }

  lemma RotationRemove(ids: seq<Uuid>, binary: map<Uuid, Lane>, id: Uuid)
    requires RotationInv(ids, binary)
    ensures RotationInv(Without(ids, id), binary - {id})
    ensures ids == [] ==> Without(ids, id) == []
  {
    WithoutContents(ids, id);
  }

  lemma RotationAdds(ids: seq<Uuid>, binary: map<Uuid, Lane>, id: Uuid, lane: Lane)
    requires RotationInv(ids, binary) && (id in binary || lane == [])
    ensures id !in binary && lane == [] ==> RotationInv(ids, binary[id := lane])
    ensures lane != [] ==> RotationInv(if id in ids then ids else ids + [id], binary[id := lane])
  {
  }

  lemma RegisterKeeps(w: Writer, id: Uuid)
    requires Inv(w)
    ensures Register(w, id).Ok? ==> Inv(Register(w, id).value)
  {
    hide LanesInv, RotationInv, ControlInv;
    if id !in w.binary && |w.binary| < BINARY_LANES_MAX {
      LanesUpdate(w.binary, w.binaryBytes, id, [], 0);
      RotationAdds(w.roundRobin, w.binary, id, []);
    }
  }

  lemma DiscardKeeps(w: Writer, id: Uuid)
    requires Inv(w)
    ensures Inv(Discard(w, id))
  {
    hide LanesInv, RotationInv, ControlInv, Without;
    LanesRemove(w.binary, w.binaryBytes, id);
    RotationRemove(w.roundRobin, w.binary, id);
  }

  lemma EnqueueControlKeeps(w: Writer, c: Control, text: string)
    requires Inv(w)
    ensures EnqueueCritical(w, c).Ok? ==> Inv(EnqueueCritical(w, c).value)
    ensures EnqueueNormal(w, text).Ok? ==> Inv(EnqueueNormal(w, text).value)
  {
    hide LanesInv, RotationInv;
    TextBytesSnoc(w.normal, text);
  }

  lemma LaneGrows(id: Uuid, lane: Lane, bytes: int, payload: seq<byte>, frame: seq<byte>)
    requires LaneInv(id, lane, bytes) && EncodeBinaryChunk(id, payload) == Ok(frame)
    requires |lane| < BINARY_LANE_MAX && bytes + |payload| <= BINARY_LANE_BYTES_MAX
    ensures LaneInv(id, lane + [frame], bytes + |payload|)
  {
    CodecIsABijection(id, payload, frame);
    LaneBytesSnoc(lane, frame);
  }

  lemma LaneShrinks(id: Uuid, lane: Lane, bytes: int)
    requires LaneInv(id, lane, bytes) && lane != []
    ensures LaneInv(id, lane[1..], bytes - (|lane[0]| - BINARY_SLOT_ID_BYTES))
  {
    assert IsChunkOf(lane[0], id);
  }

  lemma LaneFacts(w: Writer, id: Uuid)
    requires Inv(w) && (id in w.binary || id in w.roundRobin)
    ensures id in w.binary && id in w.binaryBytes && LaneInv(id, w.binary[id], w.binaryBytes[id])
    ensures id in w.roundRobin ==> w.binary[id] != []
  {
  }

  lemma EnqueueBinaryKeeps(w: Writer, id: Uuid, payload: seq<byte>)
    requires Inv(w)
    ensures EnqueueBinary(w, id, payload).Ok? ==> Inv(EnqueueBinary(w, id, payload).value)
  {
    if EnqueueBinary(w, id, payload).Ok? {
      hide LanesInv, LaneInv, RotationInv, ControlInv;
      LaneFacts(w, id);
      var lane, frame := w.binary[id], EncodeBinaryChunk(id, payload).value;
      LaneGrows(id, lane, w.binaryBytes[id], payload, frame);
      LanesUpdate(w.binary, w.binaryBytes, id, lane + [frame], w.binaryBytes[id] + |payload|);
      RotationAdds(w.roundRobin, w.binary, id, lane + [frame]);
    }
  }

  lemma RotationTurns(ids: seq<Uuid>, binary: map<Uuid, Lane>, rest: Lane)
    requires RotationInv(ids, binary) && ids != []
    ensures RotationInv(if rest == [] then ids[1..] else ids[1..] + [ids[0]], binary[ids[0] := rest])
  {
    assert ids == [ids[0]] + ids[1..];
    assert ids[0] !in ids[1..];
  }

  lemma SendBinaryKeeps(w: Writer)
    requires Inv(w) && w.roundRobin != []
    ensures Inv(SendBinary(w).0)
  {
    hide LanesInv, LaneInv, RotationInv, ControlInv;
    var id := w.roundRobin[0];
    LaneFacts(w, id);
    var lane := w.binary[id];
    LaneShrinks(id, lane, w.binaryBytes[id]);
    LanesUpdate(w.binary, w.binaryBytes, id, lane[1..], w.binaryBytes[id] - (|lane[0]| - BINARY_SLOT_ID_BYTES));
    RotationTurns(w.roundRobin, w.binary, lane[1..]);
  }

  lemma SendKeeps(w: Writer)
    requires Inv(w) && Queued(w)
    ensures Inv(SendNext(w).0)
  {
    if w.critical == [] && !NormalGoes(w) {
      SendBinaryKeeps(w);
    }
  }

  lemma FailKeeps(w: Writer)
    requires Inv(w)
    ensures Inv(Fail(w))
  {
    assert Emptied(w.binary).Keys == w.binary.Keys == Zeroed(w.binary).Keys;
  }
}
