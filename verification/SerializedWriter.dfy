/** The writer object itself: every atomic section runs in place on its queues. */
module SerializedWriter {
  import opened Basics
  import opened Protocol
  import W = Writer

  /** How many leading entries of the rotation name an absent or empty lane. */
  function SkipDead(ids: seq<Uuid>, binary: map<Uuid, W.Lane>): (k: nat)
    ensures k <= |ids|
    ensures forall i | 0 <= i < k :: ids[i] !in binary || binary[ids[i]] == []
    ensures k < |ids| ==> ids[k] in binary && binary[ids[k]] != []
  {
    if ids == [] then 0
    else if ids[0] in binary && binary[ids[0]] != [] then 0
    else 1 + SkipDead(ids[1..], binary)
  }

  lemma {:induction false} WithoutSnoc(ids: seq<Uuid>, id: Uuid, last: Uuid)
    ensures W.Without(ids + [last], id) == W.Without(ids, id) + if last == id then [] else [last]
  {
    if ids == [] {
      assert W.Without([last], id) ==
             if last == id then W.Without([last][1..], id) else [last] + W.Without([last][1..], id);
    } else {
      assert (ids + [last])[1..] == ids[1..] + [last];
      WithoutSnoc(ids[1..], id, last);
    }
  }

  lemma EmptyWithout(id: Uuid)
    ensures W.Without([], id) == []
  {
  }

  lemma NothingDead(w: W.Writer)
    requires W.Inv(w) && w.roundRobin != []
    ensures SkipDead(w.roundRobin, w.binary) == 0
    ensures w.binary.Keys == w.binaryBytes.Keys && w.roundRobin[0] in w.binary
  {
    assert w.roundRobin[0] in w.roundRobin;
  }

  class SerializedWriter {
    var critical: seq<W.Control>
    var normal: seq<string>
    var normalBytes: int
    var binary: map<Uuid, W.Lane>
    var binaryBytes: map<Uuid, int>
    var roundRobin: seq<Uuid>
    var available: bool
    var idle: bool
    var stopping: bool
    var normalTurn: bool
    var running: bool

    function State(): W.Writer
      reads this
    {
      W.Writer(critical, normal, normalBytes, binary, binaryBytes, roundRobin, available, idle, stopping, normalTurn,
               running)
    }

    ghost predicate Valid()
      reads this
    {
      W.Inv(State())
    }

    constructor ()
      ensures Valid() && State() == W.EMPTY
    {
      critical, normal, normalBytes := [], [], 0;
      binary, binaryBytes, roundRobin := map[], map[], [];
      available, idle, stopping, normalTurn, running := false, true, false, true, true;
    }

    /** In a valid writer idle then means exactly that nothing is queued; a queued frame keeps it awake. */
    method SetIdleIfEmpty()
      modifies this`available, this`idle
      ensures State() == W.SetIdleIfEmpty(old(State()))
      ensures !W.Queued(State()) ==> idle && !available
      ensures W.Queued(State()) ==> idle == old(idle) && available == old(available)
      ensures old(Valid()) ==> Valid() && (idle <==> !W.Queued(State()))
    {
      if critical == [] && normal == [] && roundRobin == [] {
        available, idle := false, true;
      }
    }

    method RegisterBinaryLane(id: Uuid) returns (r: Result<(), W.Overflow>)
      requires Valid()
      modifies this`binary, this`binaryBytes
      ensures Valid()
      ensures match W.Register(old(State()), id)
              case Ok(next) => r == Ok(()) && State() == next
              case Err(e) => r == Err(e) && State() == old(State())
    {
      hide W.LanesInv, W.RotationInv, W.ControlInv;
      W.RegisterKeeps(State(), id);
      if id in binary {
        return Ok(());
      }
      if |binary| >= W.BINARY_LANES_MAX {
        return Err(W.TooManyLanes);
      }
      binary, binaryBytes := binary[id := []], binaryBytes[id := 0];
      r := Ok(());
    }

    method UnregisterBinaryLane(id: Uuid) returns (r: Result<(), W.Overflow>)
      requires Valid()
      modifies this
      ensures Valid()
      ensures match W.Unregister(old(State()), id)
              case Ok(next) => r == Ok(()) && State() == next
              case Err(e) => r == Err(e) && State() == old(State())
    {
      hide W.LanesInv, W.RotationInv, W.ControlInv;
      if id !in binary {
        return Ok(());
      }
      if binary[id] != [] {
        return Err(W.LaneNotEmpty);
      }
      DiscardBinaryLane(id);
      r := Ok(());
    }

    method DiscardBinaryLane(id: Uuid)
      requires Valid()
      modifies this
      ensures Valid()
      ensures State() == W.Discard(old(State()), id)
    {
      hide W.LanesInv, W.RotationInv, W.ControlInv, W.Without;
      W.DiscardKeeps(State(), id);
      var ids, kept: seq<Uuid> := roundRobin, [];
      EmptyWithout(id);
      for i := 0 to |ids|
        invariant State() == old(State())
        invariant kept == W.Without(ids[..i], id)
      {
        assert ids[..i + 1] == ids[..i] + [ids[i]];
        WithoutSnoc(ids[..i], id, ids[i]);
        if ids[i] != id {
          kept := kept + [ids[i]];
        }
      }
      assert ids[..|ids|] == ids;
      binary, binaryBytes, roundRobin := binary - {id}, binaryBytes - {id}, kept;
      assert State() == old(State()).(binary := binary, binaryBytes := binaryBytes, roundRobin := kept);
      SetIdleIfEmpty();
    }

    method EnqueueCritical(control: W.Control) returns (r: Result<(), W.Overflow>)
      requires Valid()
      modifies this`critical, this`idle, this`available
      ensures Valid()
      ensures match W.EnqueueCritical(old(State()), control)
              case Ok(next) => r == Ok(()) && State() == next
              case Err(e) => r == Err(e) && State() == old(State())
    {
      hide W.LanesInv, W.RotationInv, W.ControlInv;
      W.EnqueueControlKeeps(State(), control, "");
      if stopping || |critical| >= W.CRITICAL_MAX {
        return Err(W.CriticalFull);
      }
      critical := critical + [control];
      idle, available := false, true;
      r := Ok(());
    }

    method EnqueueNormal(text: string) returns (r: Result<(), W.Overflow>)
      requires Valid()
      modifies this`normal, this`normalBytes, this`idle, this`available
      ensures Valid()
      ensures match W.EnqueueNormal(old(State()), text)
              case Ok(next) => r == Ok(()) && State() == next
              case Err(e) => r == Err(e) && State() == old(State())
    {
      hide W.LanesInv, W.RotationInv, W.ControlInv;
      W.EnqueueControlKeeps(State(), W.OtherControl(""), text);
      var size := W.Utf8Size(text);
      if stopping || |normal| >= W.NORMAL_MAX || normalBytes + size > W.NORMAL_BYTES_MAX {
        return Err(W.NormalFull);
      }
      normal, normalBytes := normal + [text], normalBytes + size;
      idle, available := false, true;
      r := Ok(());
    }

    method EnqueueBinary(id: Uuid, payload: seq<byte>) returns (r: Result<(), W.Overflow>)
      requires Valid()
      modifies this`binary, this`binaryBytes, this`roundRobin, this`idle, this`available
      ensures Valid()
      ensures match W.EnqueueBinary(old(State()), id, payload)
              case Ok(next) => r == Ok(()) && State() == next
              case Err(e) => r == Err(e) && State() == old(State())
    {
      hide W.LanesInv, W.RotationInv, W.ControlInv;
      W.EnqueueBinaryKeeps(State(), id, payload);
      if |payload| > MAX_BINARY_CHUNK_BYTES {
        return Err(W.ChunkTooLong);
      }
      if stopping || id !in binary {
        return Err(W.LaneUnavailable);
      }
      W.LaneFacts(State(), id);
      var queuedBytes := binaryBytes[id];
      if |binary[id]| >= W.BINARY_LANE_MAX || queuedBytes + |payload| > W.BINARY_LANE_BYTES_MAX {
        return Err(W.LaneFull);
      }
      var frame := EncodeBinaryChunk(id, payload);
      if frame.Err? {
        return Err(W.BadSlotId);
      }
      binary := binary[id := binary[id] + [frame.value]];
      binaryBytes := binaryBytes[id := queuedBytes + |payload|];
      if id !in roundRobin {
        roundRobin := roundRobin + [id];
      }
      idle, available := false, true;
      r := Ok(());
    }

    /** Dead entries of the rotation are skipped; the served lane goes to the back. */
    method PopBinary() returns (payload: Option<seq<byte>>)
      requires binary.Keys == binaryBytes.Keys
      modifies this`roundRobin, this`binary, this`binaryBytes
      ensures var k := SkipDead(old(roundRobin), old(binary));
              if k == |old(roundRobin)| then
                payload == None && roundRobin == [] && binary == old(binary) && binaryBytes == old(binaryBytes)
              else
                var id := old(roundRobin)[k];
                var lane := old(binary)[id];
                && payload == Some(lane[0])
                && binary == old(binary)[id := lane[1..]]
                && binaryBytes == old(binaryBytes)[id := old(binaryBytes)[id] - (|lane[0]| - BINARY_SLOT_ID_BYTES)]
                && roundRobin == old(roundRobin)[k + 1..] + if lane[1..] == [] then [] else [id]
    {
      ghost var k := 0;
      while roundRobin != []
        invariant k <= |old(roundRobin)| && roundRobin == old(roundRobin)[k..]
        invariant binary == old(binary) && binaryBytes == old(binaryBytes)
        invariant SkipDead(old(roundRobin), old(binary)) == k + SkipDead(roundRobin, binary)
        decreases |roundRobin|
      {
        var id := roundRobin[0];
        roundRobin := roundRobin[1..];
        if id in binary && binary[id] != [] {
          var lane := binary[id];
          binary := binary[id := lane[1..]];
          binaryBytes := binaryBytes[id := binaryBytes[id] - (|lane[0]| - BINARY_SLOT_ID_BYTES)];
          if lane[1..] != [] {
            roundRobin := roundRobin + [id];
          }
          return Some(lane[0]);
        }
        k := k + 1;
      }
      payload := None;
    }

    method SendBinary() returns (message: W.Message)
      requires Valid() && roundRobin != []
      modifies this
      ensures State() == W.SendBinary(old(State())).0
      ensures message == W.SendBinary(old(State())).1
    {
      hide W.LanesInv, W.RotationInv, W.ControlInv, SkipDead;
      NothingDead(State());
      var payload := PopBinary();
      assert old(roundRobin)[1..] + [] == old(roundRobin)[1..];
      normalTurn := true;
      message := W.BinaryMessage(payload.value);
    }

    /** One turn of the sending loop, up to the call of `websocket.send`. */
    method SendNext() returns (message: W.Message)
      requires Valid() && W.Queued(State())
      modifies this
      ensures Valid()
      ensures State() == W.SendNext(old(State())).0
      ensures message == W.SendNext(old(State())).1
    {
      hide W.LanesInv, W.RotationInv, W.ControlInv, W.SendBinary;
      W.SendKeeps(State());
      if critical != [] {
        message := W.CriticalMessage(critical[0]);
        critical := critical[1..];
      } else if normal != [] && (normalTurn || roundRobin == []) {
        message := W.NormalMessage(normal[0]);
        normalBytes := normalBytes - W.Utf8Size(normal[0]);
        normal := normal[1..];
        normalTurn := false;
      } else {
        message := SendBinary();
      }
    }

    method Fail()
      requires Valid()
      modifies this
      ensures Valid()
      ensures State() == W.Fail(old(State()))
    {
      hide W.LanesInv, W.RotationInv, W.ControlInv, W.Emptied, W.Zeroed;
      W.FailKeeps(State());
      critical, normal, normalBytes, roundRobin := [], [], 0, [];
      binary, binaryBytes := W.Emptied(binary), W.Zeroed(binary);
      available, idle, running := false, true, false;
    }
  }
}
