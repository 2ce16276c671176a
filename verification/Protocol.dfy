/**
 Wire values of the device protocol that file transfers depend on: the terminal
 frame `transfer_end` with its shape rules, and the binary chunk codec.
 */
module Protocol {
  import opened Basics

  const BINARY_SLOT_ID_BYTES := 16
  const MAX_BINARY_CHUNK_BYTES := 64 * 1024
  const MAX_BINARY_FRAME_BYTES := BINARY_SLOT_ID_BYTES + MAX_BINARY_CHUNK_BYTES

  // ---- transfer_end ---------------------------------------------------------

  datatype RawEnd = TransferEnd(
    ack: bool,
    ok: bool,
    code: Option<string>,
    bytesSent: Option<nat>,
    sha256: Option<string>,
    etag: Option<string>,
    created: Option<bool>)
  {
    /** The checks a frame passes before any handler sees it. */
    predicate WellFormed() {
      if ok then
        && code.None? && bytesSent.Some? && sha256.Some?
        && (etag.None? <==> created.None?)
        && (!ack ==> etag.None? && created.None?)
      else
        code.Some? && bytesSent.None? && sha256.None? && etag.None? && created.None?
    }

    /** Equality of everything but the acknowledgement flag. */
    predicate SamePayload(other: RawEnd) {
      && ok == other.ok && code == other.code && bytesSent == other.bytesSent
      && sha256 == other.sha256 && etag == other.etag && created == other.created
    }
  }

  type End = e: RawEnd | e.WellFormed()
    witness TransferEnd(false, false, Some("x"), None, None, None, None)

  function FailureEnd(ack: bool, code: string): End {
    TransferEnd(ack, false, Some(code), None, None, None, None)
  }

  function SuccessEnd(ack: bool, size: nat, sha: string): End {
    TransferEnd(ack, true, None, Some(size), Some(sha), None, None)
  }

  // ---- Binary chunks --------------------------------------------------------

  datatype RawUuid = Uuid(bytes: seq<byte>)

  type Uuid = u: RawUuid | |u.bytes| == BINARY_SLOT_ID_BYTES witness Uuid(seq(16, _ => 0))

  /** `UUID.version == 7`, which the library only reports for the standard variant. */
  predicate IsVersion7(id: Uuid) {
    id.bytes[6] / 16 == 7 && id.bytes[8] / 64 == 2
  }

  datatype CodecError = NotVersion7 | ChunkTooLarge | MissingSlotId | FrameTooLarge

  function EncodeBinaryChunk(id: Uuid, payload: seq<byte>): Result<seq<byte>, CodecError> {
    if !IsVersion7(id) then Err(NotVersion7)
    else if |payload| > MAX_BINARY_CHUNK_BYTES then Err(ChunkTooLarge)
    else Ok(id.bytes + payload)
  }

  function DecodeBinaryChunk(frame: seq<byte>): Result<(Uuid, seq<byte>), CodecError> {
    if |frame| < BINARY_SLOT_ID_BYTES then Err(MissingSlotId)
    else if |frame| > MAX_BINARY_FRAME_BYTES then Err(FrameTooLarge)
    else
      var id: Uuid := Uuid(frame[..BINARY_SLOT_ID_BYTES]);
      if !IsVersion7(id) then Err(NotVersion7)
      else Ok((id, frame[BINARY_SLOT_ID_BYTES..]))
  }

  /** The two sides agree on exactly which frames exist and on what they mean. */
  lemma CodecIsABijection(id: Uuid, payload: seq<byte>, frame: seq<byte>)
    ensures EncodeBinaryChunk(id, payload) == Ok(frame) <==> DecodeBinaryChunk(frame) == Ok((id, payload))
  {
    if EncodeBinaryChunk(id, payload) == Ok(frame) {
      assert frame[..BINARY_SLOT_ID_BYTES] == id.bytes;
      assert frame[BINARY_SLOT_ID_BYTES..] == payload;
    }
    if DecodeBinaryChunk(frame) == Ok((id, payload)) {
      assert id.bytes + payload == frame;
    }
  }
}
