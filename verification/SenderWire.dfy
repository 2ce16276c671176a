/**
 Senders in front of the writer: how the chunks and the success terminal of one
 transfer reach the socket although critical frames overtake binary ones.

 A sender is the streaming part of `_send_requested`.  An identifier may be used again:
 its slot leaves the table only behind a worker that has given up its lane, and a later
 request, once the tombstone is gone, starts another life.  Lives are numbered.
 */
module SenderWire {
  import opened Basics
  import opened Protocol
  import opened Writer
  import R = WriterRuns

  type Chunk = seq<byte>
  type Hash = seq<byte> -> string

  datatype Stage =
    | Reading
    | Draining     // end of file reached; waiting in drain_binary
    | Checking     // re-checking that the source is unchanged
    | Ended        // the success terminal is queued or sent
    | Stopped      // failed or cancelled before that

  /**
   One life of an identifier.  `read` is what went through the digest, `hand` the last chunk
   if not yet queued; `start` and `until` are how much was sent when it and its successor began;
   `whole` says that the writer still ran when its drain ended.
   */
  datatype Sender = Sender(
    id: Uuid,
    stage: Stage,
    read: seq<Chunk>,
    hand: bool,
    start: nat,
    until: Option<nat>,
    whole: bool)

  /** `current` is the latest life of each identifier. */
  datatype Wire = Wire(w: Writer, senders: seq<Sender>, current: map<Uuid, nat>, sent: seq<Message>)

  const START := Wire(EMPTY, [], map[], [])

  datatype Step =
    | Open(id: Uuid, total: nat)
    | Read(id: Uuid, chunk: Chunk)
    | Queue(id: Uuid)
    | EndOfFile(id: Uuid)
    | Drained(id: Uuid)
    | Finish(id: Uuid)
    | Halt(id: Uuid)
    | PeerFails(id: Uuid)
    | Close(id: Uuid)
    | OtherControl(control: Control)
    | OtherText(text: string)
    | Send
    | Settle
    | Stop
    | WriterFails

  predicate IsSuccess(c: Control) {
    c.EndControl? && c.end.ok && !c.end.ack
  }

  predicate Known(x: Wire, id: Uuid) {
    id in x.current && x.current[id] < |x.senders|
  }

  function Now(x: Wire, id: Uuid): Sender
    requires Known(x, id)
  {
    x.senders[x.current[id]]
  }

  predicate Staged(x: Wire, id: Uuid, stage: Stage) {
    Known(x, id) && Now(x, id).stage == stage
  }

  predicate Enabled(x: Wire, s: Step) {
    match s
    case Open(id, _) =>
      || id !in x.current
      || ((Staged(x, id, Ended) || Staged(x, id, Stopped)) && id !in x.w.binary)
    case Read(id, chunk) =>
      Staged(x, id, Reading) && !Now(x, id).hand && 0 < |chunk| <= MAX_BINARY_CHUNK_BYTES
    case Queue(id) => Staged(x, id, Reading) && Now(x, id).hand && Now(x, id).read != []
    case EndOfFile(id) => Staged(x, id, Reading) && !Now(x, id).hand
    case Drained(id) => Staged(x, id, Draining) && (id in x.w.binary ==> x.w.binary[id] == [])
    case Finish(id) => Staged(x, id, Checking)
    case Halt(id) => Known(x, id)
    case PeerFails(id) => Known(x, id)
    case Close(id) => Staged(x, id, Stopped) || Staged(x, id, Ended)
    case OtherControl(c) => !IsSuccess(c)
    case _ => true
  }

  function Become(x: Wire, id: Uuid, s: Sender): Wire
    requires Known(x, id)
  {
    x.(senders := x.senders[x.current[id] := s])
  }

  function To(x: Wire, id: Uuid, stage: Stage): Wire
    requires Known(x, id)
  {
    Become(x, id, Now(x, id).(stage := stage))
  }

  /** Another life of `id` begins, and the one before is over. */
  function Begun(x: Wire, id: Uuid, stage: Stage): Wire {
    var before :=
      if Known(x, id) then x.senders[x.current[id] := Now(x, id).(until := Some(|x.sent|))] else x.senders;
    x.(senders := before + [Sender(id, stage, [], false, |x.sent|, None, false)],
       current := x.current[id := |x.senders|])
  }

  function Opening(x: Wire, id: Uuid, total: nat): Wire {
    match Register(x.w, id)
    case Err(_) => Begun(x, id, Stopped)
    case Ok(w) =>
      match EnqueueCritical(w, BeginControl(id, total))
      case Err(_) => Begun(x, id, Stopped).(w := w)
      case Ok(w') => Begun(x, id, Reading).(w := w')
  }

  /** `wait_enqueue_binary` resumed: a full lane keeps waiting, a missing one fails. */
  function Queueing(x: Wire, id: Uuid): Wire
    requires Inv(x.w) && Known(x, id) && Now(x, id).read != []
  {
    var s := Now(x, id);
    match EnqueueBinary(x.w, id, s.read[|s.read| - 1])
    case Ok(w) => Become(x, id, s.(hand := false)).(w := w)
    case Err(LaneFull) => x
    case Err(_) => To(x, id, Stopped)
  }

  /** The terminal that announces a life. */
  function Terminal(h: Hash, s: Sender, life: nat): Control {
    var content := Concat(s.read);
    EndControl(s.id, SuccessEnd(false, |content|, h(content)), life)
  }

  function Finishing(h: Hash, x: Wire, id: Uuid): Wire
    requires Known(x, id)
  {
    match EnqueueCritical(x.w, Terminal(h, Now(x, id), x.current[id]))
    case Ok(w) => To(x, id, Ended).(w := w)
    case Err(_) => To(x, id, Stopped)
  }

  function Stopping(x: Wire, id: Uuid): Wire
    requires Known(x, id)
  {
    if Now(x, id).stage.Ended? then x else To(x, id, Stopped)
  }

  function After(h: Hash, x: Wire, s: Step): Wire
    requires Inv(x.w) && Enabled(x, s)
  {
    match s
    case Open(id, total) => Opening(x, id, total)
    case Read(id, chunk) => Become(x, id, Now(x, id).(read := Now(x, id).read + [chunk], hand := true))
    case Queue(id) => Queueing(x, id)
    case EndOfFile(id) => To(x, id, Draining)
    case Drained(id) => Become(x, id, Now(x, id).(stage := Checking, whole := x.w.running))
    case Finish(id) => Finishing(h, x, id)
    case Halt(id) => Stopping(x, id)
    case PeerFails(id) => Stopping(x, id).(w := Discard(x.w, id))
    case Close(id) => x.(w := R.After(x.w, R.UnregisterStep(id)))
    case OtherControl(c) => x.(w := R.After(x.w, R.CriticalStep(c)))
    case OtherText(text) => x.(w := R.After(x.w, R.NormalStep(text)))
    case Send => x.(w := R.After(x.w, R.SendStep), sent := x.sent + R.Emitted(x.w, R.SendStep))
    case Settle => x.(w := R.After(x.w, R.SettleStep))
    case Stop => x.(w := R.After(x.w, R.StopStep))
    case WriterFails => x.(w := R.After(x.w, R.FailStep))
  }

  // ---- What is on the wire --------------------------------------------------

  function FramesOf(id: Uuid, chunks: seq<Chunk>): Lane {
    if chunks == [] then [] else [id.bytes + chunks[0]] + FramesOf(id, chunks[1..])
  }

  /** The payloads of queued or sent frames. */
  function Payloads(lane: Lane): seq<Chunk> {
    if lane == [] then []
    else (match DecodeBinaryChunk(lane[0]) case Ok((_, payload)) => [payload] case Err(_) => []) + Payloads(lane[1..])
  }

  /** Where a life's part of the wire ends. */
  function Until(s: Sender, sent: seq<Message>): nat {
    if s.until.Some? then s.until.value else |sent|
  }

  predicate Within(s: Sender, sent: seq<Message>) {
    s.start <= Until(s, sent) <= |sent|
  }

  /** The chunks sent for an identifier during one of its lives. */
  function Chunks(s: Sender, sent: seq<Message>): Lane
    requires Within(s, sent)
  {
    R.ChunksOf(sent[s.start..Until(s, sent)], s.id)
  }

  /** The bytes a reader of the socket has from a life. */
  function ContentOf(s: Sender, sent: seq<Message>): seq<byte>
    requires Within(s, sent)
  {
    Concat(Payloads(Chunks(s, sent)))
  }

  lemma {:induction false} FramesSnoc(id: Uuid, chunks: seq<Chunk>, c: Chunk)
    ensures FramesOf(id, chunks + [c]) == FramesOf(id, chunks) + [id.bytes + c]
  {
    if chunks == [] {
      var one: seq<Chunk> := [c];
      assert chunks + one == one && one[1..] == [];
    } else {
      assert (chunks + [c])[1..] == chunks[1..] + [c];
      FramesSnoc(id, chunks[1..], c);
    }
  }

  lemma {:induction false} ChunksConcat(a: seq<Message>, b: seq<Message>, id: Uuid)
    ensures R.ChunksOf(a + b, id) == R.ChunksOf(a, id) + R.ChunksOf(b, id)
  {
    if a == [] {
      assert a + b == b;
    } else {
      assert (a + b)[1..] == a[1..] + b;
      ChunksConcat(a[1..], b, id);
    }
  }

  function FrameFor(m: Message, id: Uuid): Lane {
    if m.BinaryMessage? && IsChunkOf(m.frame, id) then [m.frame] else []
  }

  /** One more message extends the part of every open life, and of no other. */
  lemma TailSnoc(sent: seq<Message>, m: Message, from: nat, id: Uuid)
    requires from <= |sent|
    ensures R.ChunksOf((sent + [m])[from..], id) == R.ChunksOf(sent[from..], id) + FrameFor(m, id)
  {
    assert (sent + [m])[from..] == sent[from..] + [m];
    ChunksConcat(sent[from..], [m], id);
    assert [m][1..] == [];
  }

  lemma ChunksGrow(s: Sender, sent: seq<Message>, m: Message)
    requires Within(s, sent)
    ensures Within(s, sent + [m])
    ensures Chunks(s, sent + [m]) == Chunks(s, sent) + if s.until.None? then FrameFor(m, s.id) else []
  {
    if s.until.None? {
      TailSnoc(sent, m, s.start, s.id);
      assert sent[s.start..|sent|] == sent[s.start..];
      assert (sent + [m])[s.start..|sent| + 1] == (sent + [m])[s.start..];
    } else {
      assert (sent + [m])[s.start..s.until.value] == sent[s.start..s.until.value];
    }
  }

  // ---- The invariant --------------------------------------------------------

  function QueuedChunks(s: Sender): seq<Chunk> {
    if s.hand && s.read != [] then s.read[..|s.read| - 1] else s.read
  }

  ghost predicate ReadsOk(s: Sender) {
    && (s.hand ==> s.stage.Reading? || s.stage.Stopped?)
    && forall i | 0 <= i < |s.read| :: 0 < |s.read[i]| <= MAX_BINARY_CHUNK_BYTES
  }

  /** Chunks of one life: sent, then queued, then in hand, in the order they were read. */
  ghost predicate LaneAccounted(s: Sender, binary: map<Uuid, Lane>, chunks: Lane) {
    match s.stage
    case Reading => s.id in binary && chunks + binary[s.id] == FramesOf(s.id, QueuedChunks(s))
    case Draining => s.id in binary && chunks + binary[s.id] == FramesOf(s.id, s.read)
    case Checking => (s.id in binary ==> binary[s.id] == []) && s.whole && chunks == FramesOf(s.id, s.read)
    case Ended => (s.id in binary ==> binary[s.id] == []) && s.whole && chunks == FramesOf(s.id, s.read)
    case Stopped => (if s.id in binary then chunks + binary[s.id] else chunks) <= FramesOf(s.id, s.read)
  }

  /**
   Whether the writer runs or not, what a life has on the wire is the beginning of what it
   read, and all of it if the writer still ran when the drain ended.
   */
  ghost predicate ChunksOk(s: Sender, chunks: Lane) {
    && chunks <= FramesOf(s.id, s.read)
    && (s.whole && (s.stage.Checking? || s.stage.Ended?) ==> chunks == FramesOf(s.id, s.read))
  }

  ghost predicate Carried(senders: seq<Sender>, sent: seq<Message>) {
    forall k | 0 <= k < |senders| ::
      Within(senders[k], sent) && ChunksOk(senders[k], Chunks(senders[k], sent))
  }

  /** Lives of one identifier follow each other; only the latest is open. */
  ghost predicate LivesOk(senders: seq<Sender>, current: map<Uuid, nat>, sent: seq<Message>) {
    && (forall k | 0 <= k < |senders| :: Within(senders[k], sent) && ReadsOk(senders[k]))
    && (forall k | 0 <= k < |senders| && senders[k].until.None? ::
          senders[k].id in current && current[senders[k].id] == k)
    && (forall id | id in current :: current[id] < |senders| && senders[current[id]].id == id
                                     && senders[current[id]].until.None?)
    && Separate(senders)
  }

  ghost predicate Separate(senders: seq<Sender>) {
    forall j, k | 0 <= j < k < |senders| && senders[j].id == senders[k].id ::
      senders[j].until.Some? && senders[j].until.value <= senders[k].start
  }

  ghost predicate LanesOk(senders: seq<Sender>, binary: map<Uuid, Lane>, sent: seq<Message>) {
    forall k | 0 <= k < |senders| && senders[k].until.None? ::
      Within(senders[k], sent) && LaneAccounted(senders[k], binary, Chunks(senders[k], sent))
  }

  ghost predicate Announces(h: Hash, senders: seq<Sender>, c: Control)
    requires IsSuccess(c)
  {
    && c.life < |senders| && senders[c.life].stage.Ended?
    && c == Terminal(h, senders[c.life], c.life)
  }

  /** While the terminal of a life is queued nothing of a later life has been sent. */
  ghost predicate QueuedOk(h: Hash, senders: seq<Sender>, critical: seq<Control>, sent: seq<Message>) {
    forall k | 0 <= k < |critical| && IsSuccess(critical[k]) ::
      && Announces(h, senders, critical[k])
      && var s := senders[critical[k].life];
         s.start <= |sent| && R.ChunksOf(sent[s.start..], s.id) == FramesOf(s.id, s.read)
  }

  /** Behind the terminal at index `i` nothing more of its life was sent; before it, all of it. */
  ghost predicate InOrder(s: Sender, sent: seq<Message>, i: nat) {
    && s.start <= i <= |sent|
    && R.ChunksOf(sent[s.start..i], s.id) == FramesOf(s.id, s.read)
    && (i <= Until(s, sent) <= |sent| ==> R.ChunksOf(sent[i..Until(s, sent)], s.id) == [])
  }

  ghost predicate SentOk(h: Hash, senders: seq<Sender>, sent: seq<Message>) {
    forall i | 0 <= i < |sent| && sent[i].CriticalMessage? && IsSuccess(sent[i].control) ::
      Announces(h, senders, sent[i].control) && InOrder(senders[sent[i].control.life], sent, i)
  }

  ghost predicate LanesOwned(current: map<Uuid, nat>, binary: map<Uuid, Lane>) {
    forall id | id in binary :: id in current
  }

  ghost predicate WireInv(h: Hash, x: Wire) {
    && Inv(x.w)
    && LivesOk(x.senders, x.current, x.sent)
    && LanesOwned(x.current, x.w.binary)
    && SentOk(h, x.senders, x.sent)
    && Carried(x.senders, x.sent)
    && (x.w.running ==> LanesOk(x.senders, x.w.binary, x.sent) && QueuedOk(h, x.senders, x.w.critical, x.sent))
  }

  // ---- Steps of one sender --------------------------------------------------

  /** The same life with other progress. */
  predicate SameLife(s: Sender, t: Sender) {
    s.id == t.id && s.start == t.start && s.until == t.until
  }

  lemma SameChunks(s: Sender, t: Sender, sent: seq<Message>)
    requires SameLife(s, t) && Within(s, sent)
    ensures Within(t, sent) && Chunks(t, sent) == Chunks(s, sent)
  {
  }

  lemma SentStands(h: Hash, senders: seq<Sender>, sent: seq<Message>, k: nat, t: Sender)
    requires k < |senders| && (senders[k].stage.Ended? ==> t == senders[k]) && SentOk(h, senders, sent)
    ensures SentOk(h, senders[k := t], sent)
  {
    hide InOrder;
  }

  lemma QueuedStands(h: Hash, senders: seq<Sender>, critical: seq<Control>, sent: seq<Message>, k: nat, t: Sender)
    requires k < |senders| && (senders[k].stage.Ended? ==> t == senders[k]) && QueuedOk(h, senders, critical, sent)
    ensures QueuedOk(h, senders[k := t], critical, sent)
  {
    hide FramesOf;
  }

  lemma LivesStand(senders: seq<Sender>, current: map<Uuid, nat>, sent: seq<Message>, k: nat, t: Sender)
    requires LivesOk(senders, current, sent) && k < |senders| && SameLife(senders[k], t) && ReadsOk(t)
    ensures LivesOk(senders[k := t], current, sent)
  {
    hide ReadsOk, Separate;
    SeparateStands(senders, k, t);
  }

  lemma SeparateStands(senders: seq<Sender>, k: nat, t: Sender)
    requires Separate(senders) && k < |senders| && SameLife(senders[k], t)
    ensures Separate(senders[k := t])
  {
  }

  lemma CarriedStands(senders: seq<Sender>, sent: seq<Message>, k: nat, t: Sender)
    requires Carried(senders, sent) && k < |senders| && SameLife(senders[k], t)
    requires ChunksOk(t, Chunks(senders[k], sent))
    ensures Carried(senders[k := t], sent)
  {
    hide ChunksOk, FramesOf;
    SameChunks(senders[k], t, sent);
  }

  ghost predicate OnlyLane(before: map<Uuid, Lane>, after: map<Uuid, Lane>, id: Uuid) {
    forall other | other != id ::
      (other in after <==> other in before) && (other in before ==> after[other] == before[other])
  }

  lemma LanesStand(senders: seq<Sender>, current: map<Uuid, nat>, before: map<Uuid, Lane>, after: map<Uuid, Lane>,
                   sent: seq<Message>, k: nat, t: Sender)
    requires LivesOk(senders, current, sent) && LanesOk(senders, before, sent)
    requires k < |senders| && senders[k].until.None? && SameLife(senders[k], t)
    requires OnlyLane(before, after, t.id) && LaneAccounted(t, after, Chunks(senders[k], sent))
    ensures LanesOk(senders[k := t], after, sent)
  {
    hide ReadsOk;
    SameChunks(senders[k], t, sent);
    forall j | 0 <= j < |senders| && j != k && senders[j].until.None?
      ensures Within(senders[j], sent) && LaneAccounted(senders[j], after, Chunks(senders[j], sent))
    {
      assert senders[j].id != senders[k].id;
      OtherLane(senders[j], before, after, Chunks(senders[j], sent));
    }
  }

  lemma OtherLane(s: Sender, before: map<Uuid, Lane>, after: map<Uuid, Lane>, chunks: Lane)
    requires LaneAccounted(s, before, chunks)
    requires s.id in before <==> s.id in after
    requires s.id in before ==> before[s.id] == after[s.id]
    ensures LaneAccounted(s, after, chunks)
  {
  }

  ghost predicate CriticalGrew(before: seq<Control>, after: seq<Control>) {
    after == before || exists c :: !IsSuccess(c) && after == before + [c]
  }

  /** What the writer may have done besides touching one lane. */
  ghost predicate Calm(before: Writer, after: Writer, id: Uuid) {
    && after.running == before.running && OnlyLane(before.binary, after.binary, id)
    && (id in after.binary ==> id in before.binary)
    && CriticalGrew(before.critical, after.critical)
  }

  lemma CriticalStands(h: Hash, senders: seq<Sender>, before: seq<Control>, after: seq<Control>, sent: seq<Message>)
    requires QueuedOk(h, senders, before, sent) && CriticalGrew(before, after)
    ensures QueuedOk(h, senders, after, sent)
  {
    hide FramesOf;
  }

  /** A life moves on and only its own lane is touched: everything about the others stands. */
  lemma LifeKeeps(h: Hash, x: Wire, id: Uuid, t: Sender, w: Writer)
    requires WireInv(h, x) && Known(x, id) && Inv(w) && ReadsOk(t) && SameLife(Now(x, id), t)
    requires Calm(x.w, w, id) && (Now(x, id).stage.Ended? ==> t == Now(x, id))
    requires Within(Now(x, id), x.sent) && ChunksOk(t, Chunks(Now(x, id), x.sent))
    requires w.running ==> LaneAccounted(t, w.binary, Chunks(Now(x, id), x.sent))
    ensures WireInv(h, Become(x, id, t).(w := w))
  {
    hide Inv, SentOk, QueuedOk, LanesOk, LaneAccounted, ReadsOk, FramesOf, ChunksOk, Carried;
    var k := x.current[id];
    LifeFacts(h, x, id);
    CarriedStands(x.senders, x.sent, k, t);
    SentStands(h, x.senders, x.sent, k, t);
    LivesStand(x.senders, x.current, x.sent, k, t);
    SameChunks(Now(x, id), t, x.sent);
    if w.running {
      CriticalStands(h, x.senders, x.w.critical, w.critical, x.sent);
      QueuedStands(h, x.senders, w.critical, x.sent, k, t);
      LanesStand(x.senders, x.current, x.w.binary, w.binary, x.sent, k, t);
    }
    LanesStay(x.current, x.w.binary, w.binary, id);
    hide LivesOk, LanesOwned;
  }

  lemma LanesStay(current: map<Uuid, nat>, before: map<Uuid, Lane>, after: map<Uuid, Lane>, id: Uuid)
    requires LanesOwned(current, before) && id in current && OnlyLane(before, after, id)
    ensures LanesOwned(current, after)
  {
  }

  lemma LifeFacts(h: Hash, x: Wire, id: Uuid)
    requires WireInv(h, x) && Known(x, id)
    ensures var s := Now(x, id);
            && s.id == id && s.until.None? && ReadsOk(s) && Within(s, x.sent)
            && ChunksOk(s, Chunks(s, x.sent))
            && Inv(x.w) && x.w.binary.Keys == x.w.binaryBytes.Keys
            && (x.w.running ==> LaneAccounted(s, x.w.binary, Chunks(s, x.sent)))
  {
    hide ReadsOk, LaneAccounted, FramesOf, RotationInv, ChunksOk;
  }

  lemma ReadKeeps(h: Hash, x: Wire, id: Uuid, chunk: Chunk)
    requires WireInv(h, x) && Enabled(x, Read(id, chunk))
    ensures WireInv(h, After(h, x, Read(id, chunk)))
  {
    hide Inv, WireInv, FramesOf;
    LifeFacts(h, x, id);
    var s := Now(x, id);
    var t := s.(read := s.read + [chunk], hand := true);
    assert t.read[..|t.read| - 1] == s.read;
    FramesSnoc(id, s.read, chunk);
    LifeKeeps(h, x, id, t, x.w);
  }

  /** A life that stops keeps what it has sent and queued in the order it was read. */
  lemma StoppedFits(s: Sender, binary: map<Uuid, Lane>, chunks: Lane)
    requires LaneAccounted(s, binary, chunks)
    ensures LaneAccounted(s.(stage := Stopped), binary, chunks)
  {
    QueuedFits(s);
    assert chunks + [] == chunks;
  }

  lemma QueuedFits(s: Sender)
    ensures FramesOf(s.id, QueuedChunks(s)) <= FramesOf(s.id, s.read)
  {
    if s.hand && s.read != [] {
      var last := s.read[|s.read| - 1];
      assert s.read == s.read[..|s.read| - 1] + [last];
      FramesSnoc(s.id, s.read[..|s.read| - 1], last);
    }
  }

  lemma MoveKeeps(h: Hash, x: Wire, id: Uuid, stage: Stage)
    requires WireInv(h, x) && Known(x, id) && !Now(x, id).stage.Ended?
    requires stage.Stopped? || (stage.Draining? && Enabled(x, EndOfFile(id)))
    ensures WireInv(h, To(x, id, stage))
  {
    hide Inv, WireInv, FramesOf;
    LifeFacts(h, x, id);
    var s := Now(x, id);
    if stage.Stopped? && x.w.running {
      StoppedFits(s, x.w.binary, Chunks(s, x.sent));
    }
    LifeKeeps(h, x, id, s.(stage := stage), x.w);
  }

  lemma DrainedKeeps(h: Hash, x: Wire, id: Uuid)
    requires WireInv(h, x) && Enabled(x, Drained(id))
    ensures WireInv(h, After(h, x, Drained(id)))
  {
    hide Inv, WireInv, FramesOf;
    LifeFacts(h, x, id);
    var chunks := Chunks(Now(x, id), x.sent);
    assert chunks + [] == chunks;
    LifeKeeps(h, x, id, Now(x, id).(stage := Checking, whole := x.w.running), x.w);
  }

  lemma EndedAccounted(s: Sender, binary: map<Uuid, Lane>, chunks: Lane)
    requires s.stage.Checking? && LaneAccounted(s, binary, chunks)
    ensures LaneAccounted(s.(stage := Ended), binary, chunks) && chunks == FramesOf(s.id, s.read)
  {
  }

  /** The terminal of a life whose chunks are all out joins the critical queue. */
  lemma AnnounceKeeps(h: Hash, x: Wire, id: Uuid, w: Writer)
    requires WireInv(h, x) && Known(x, id) && Now(x, id).stage.Ended? && Inv(w)
    requires w.running == x.w.running && w.binary == x.w.binary
    requires w.critical == x.w.critical + [Terminal(h, Now(x, id), x.current[id])]
    ensures WireInv(h, x.(w := w))
  {
    hide Inv, LivesOk, SentOk, LanesOk, LanesOwned, FramesOf, ReadsOk, LaneAccounted, QueuedOk, Carried, ChunksOk;
    LifeFacts(h, x, id);
    var s := Now(x, id);
    if w.running {
      EndedLane(s, x.w.binary, Chunks(s, x.sent));
      assert x.sent[s.start..] == x.sent[s.start..Until(s, x.sent)];
      QueuedMore(h, x.senders, x.w.critical, Terminal(h, s, x.current[id]), x.sent);
    }
  }

  lemma EndedLane(s: Sender, binary: map<Uuid, Lane>, chunks: Lane)
    requires LaneAccounted(s, binary, chunks) && s.stage.Ended?
    ensures chunks == FramesOf(s.id, s.read)
  {
  }

  lemma QueuedMore(h: Hash, senders: seq<Sender>, critical: seq<Control>, c: Control, sent: seq<Message>)
    requires QueuedOk(h, senders, critical, sent) && IsSuccess(c) && Announces(h, senders, c)
    requires var s := senders[c.life];
             s.start <= |sent| && R.ChunksOf(sent[s.start..], s.id) == FramesOf(s.id, s.read)
    ensures QueuedOk(h, senders, critical + [c], sent)
  {
    hide FramesOf;
  }

  lemma FinishKeeps(h: Hash, x: Wire, id: Uuid)
    requires WireInv(h, x) && Enabled(x, Finish(id))
    ensures WireInv(h, Finishing(h, x, id))
  {
    hide Inv, WireInv, FramesOf, LaneAccounted, EnqueueCritical, Concat;
    var s := Now(x, id);
    var c := Terminal(h, s, x.current[id]);
    MoveKeeps(h, x, id, Stopped);
    LifeFacts(h, x, id);
    if EnqueueCritical(x.w, c).Ok? {
      EnqueueControlKeeps(x.w, c, "");
      EnqueueCriticalShape(x.w, c);
      var t := s.(stage := Ended);
      if x.w.running {
        EndedAccounted(s, x.w.binary, Chunks(s, x.sent));
      }
      EndedReads(s);
      LifeKeeps(h, x, id, t, x.w);
      AnnounceKeeps(h, Become(x, id, t), id, EnqueueCritical(x.w, c).value);
    }
  }

  lemma EndedReads(s: Sender)
    requires ReadsOk(s) && s.stage.Checking?
    ensures ReadsOk(s.(stage := Ended))
  {
  }

  lemma EnqueueCriticalShape(w: Writer, c: Control)
    requires EnqueueCritical(w, c).Ok?
    ensures var w' := EnqueueCritical(w, c).value;
            w'.running == w.running && w'.binary == w.binary && w'.critical == w.critical + [c]
  {
  }

  lemma QueuedAccount(s: Sender, before: map<Uuid, Lane>, after: map<Uuid, Lane>, chunks: Lane)
    requires s.stage.Reading? && s.hand && s.read != [] && LaneAccounted(s, before, chunks)
    requires s.id in before && s.id in after && after[s.id] == before[s.id] + [s.id.bytes + s.read[|s.read| - 1]]
    ensures LaneAccounted(s.(hand := false), after, chunks)
  {
    var last := s.read[|s.read| - 1];
    assert s.read == s.read[..|s.read| - 1] + [last];
    FramesSnoc(s.id, s.read[..|s.read| - 1], last);
    assert chunks + after[s.id] == (chunks + before[s.id]) + [s.id.bytes + last];
  }

  lemma EnqueueBinaryShape(w: Writer, id: Uuid, chunk: Chunk)
    requires w.binary.Keys == w.binaryBytes.Keys && EnqueueBinary(w, id, chunk).Ok?
    ensures var w' := EnqueueBinary(w, id, chunk).value;
            && Calm(w, w', id)
            && id in w.binary && id in w'.binary && w'.binary[id] == w.binary[id] + [id.bytes + chunk]
  {
  }

  lemma QueueKeeps(h: Hash, x: Wire, id: Uuid)
    requires WireInv(h, x) && Enabled(x, Queue(id))
    ensures WireInv(h, Queueing(x, id))
  {
    hide Inv, WireInv, LaneAccounted, EnqueueBinary, FramesOf;
    var s := Now(x, id);
    var chunk := s.read[|s.read| - 1];
    MoveKeeps(h, x, id, Stopped);
    LifeFacts(h, x, id);
    EnqueueBinaryKeeps(x.w, id, chunk);
    if EnqueueBinary(x.w, id, chunk).Ok? {
      var w := EnqueueBinary(x.w, id, chunk).value;
      EnqueueBinaryShape(x.w, id, chunk);
      if x.w.running {
        QueuedAccount(s, x.w.binary, w.binary, Chunks(s, x.sent));
      }
      LifeKeeps(h, x, id, s.(hand := false), w);
    }
  }

  lemma DroppedAccounted(s: Sender, binary: map<Uuid, Lane>, chunks: Lane)
    requires s.stage.Ended? && LaneAccounted(s, binary, chunks)
    ensures LaneAccounted(s, binary - {s.id}, chunks)
  {
  }

  lemma DiscardShape(w: Writer, id: Uuid)
    ensures Calm(w, Discard(w, id), id) && Discard(w, id).binary == w.binary - {id}
  {
  }

  lemma StoppedAccounted(s: Sender, binary: map<Uuid, Lane>, chunks: Lane)
    requires s.id !in binary && ChunksOk(s, chunks)
    ensures LaneAccounted(s.(stage := Stopped), binary, chunks) && ChunksOk(s.(stage := Stopped), chunks)
  {
  }

  /** Dropping the lane of a life that stopped, or that has nothing left in it. */
  lemma DropKeeps(h: Hash, x: Wire, id: Uuid)
    requires WireInv(h, x) && Known(x, id)
    ensures WireInv(h, Stopping(x, id).(w := Discard(x.w, id)))
  {
    hide Inv, WireInv, LaneAccounted, Discard, FramesOf;
    var s := Now(x, id);
    var w := Discard(x.w, id);
    LifeFacts(h, x, id);
    DiscardKeeps(x.w, id);
    DiscardShape(x.w, id);
    if s.stage.Ended? {
      if x.w.running {
        DroppedAccounted(s, x.w.binary, Chunks(s, x.sent));
      }
      LifeKeeps(h, x, id, s, w);
      assert x.senders[x.current[id] := s] == x.senders;
    } else {
      StoppedAccounted(s, w.binary, Chunks(s, x.sent));
      LifeKeeps(h, x, id, s.(stage := Stopped), w);
    }
  }

  lemma CloseKeeps(h: Hash, x: Wire, id: Uuid)
    requires WireInv(h, x) && Enabled(x, Close(id))
    ensures WireInv(h, After(h, x, Close(id)))
  {
    hide Inv, WireInv, Discard;
    DropKeeps(h, x, id);
    if Staged(x, id, Stopped) {
      assert x.senders[x.current[id] := Now(x, id).(stage := Stopped)] == x.senders;
    }
  }

  // ---- A new life -----------------------------------------------------------

  /** All but the last of the new lives are the old ones, or one of them closed. */
  ghost predicate Succeeds(before: seq<Sender>, after: seq<Sender>, closed: Option<nat>, s: Sender, n: nat) {
    && |after| == |before| + 1 && after[|before|] == s && s.start == n && s.until.None?
    && (forall k | 0 <= k < |before| ::
          after[k] == if closed == Some(k) then before[k].(until := Some(n)) else before[k])
    && (closed.Some? ==> closed.value < |before| && before[closed.value].until.None?)
  }

  lemma SentSucceeds(h: Hash, before: seq<Sender>, after: seq<Sender>, closed: Option<nat>, s: Sender,
                     sent: seq<Message>)
    requires SentOk(h, before, sent) && Succeeds(before, after, closed, s, |sent|)
    ensures SentOk(h, after, sent)
  {
    hide FramesOf;
    forall i | 0 <= i < |sent| && sent[i].CriticalMessage? && IsSuccess(sent[i].control)
      ensures Announces(h, after, sent[i].control) && InOrder(after[sent[i].control.life], sent, i)
    {
      assert Announces(h, before, sent[i].control) && InOrder(before[sent[i].control.life], sent, i);
    }
  }

  lemma QueuedSucceeds(h: Hash, before: seq<Sender>, after: seq<Sender>, closed: Option<nat>, s: Sender,
                       critical: seq<Control>, sent: seq<Message>)
    requires QueuedOk(h, before, critical, sent) && Succeeds(before, after, closed, s, |sent|)
    ensures QueuedOk(h, after, critical, sent)
  {
    hide FramesOf;
    forall k | 0 <= k < |critical| && IsSuccess(critical[k])
      ensures Announces(h, after, critical[k])
      ensures var t := after[critical[k].life];
              t.start <= |sent| && R.ChunksOf(sent[t.start..], t.id) == FramesOf(t.id, t.read)
    {
      assert Announces(h, before, critical[k]);
    }
  }

  lemma CarriedSucceeds(before: seq<Sender>, after: seq<Sender>, closed: Option<nat>, s: Sender, sent: seq<Message>)
    requires Carried(before, sent) && Succeeds(before, after, closed, s, |sent|) && s.read == []
    ensures Carried(after, sent)
  {
    hide FramesOf;
    forall k | 0 <= k < |after| ensures Within(after[k], sent) && ChunksOk(after[k], Chunks(after[k], sent)) {
      if k == |before| {
        assert sent[|sent|..|sent|] == [];
        NoFrames(s.id);
      } else {
        assert Within(before[k], sent);
      }
    }
  }

  lemma NoFrames(id: Uuid)
    ensures FramesOf(id, []) == [] && R.ChunksOf([], id) == []
  {
  }

  lemma LivesSucceed(before: seq<Sender>, after: seq<Sender>, closed: Option<nat>, s: Sender,
                     current: map<Uuid, nat>, sent: seq<Message>)
    requires LivesOk(before, current, sent) && Succeeds(before, after, closed, s, |sent|) && ReadsOk(s)
    requires if s.id in current then closed == Some(current[s.id]) else closed == None
    ensures LivesOk(after, current[s.id := |before|], sent)
  {
    hide ReadsOk, Separate;
    forall k | 0 <= k < |after| ensures Within(after[k], sent) && ReadsOk(after[k]) {
      if k < |before| {
        ReadsSame(before[k], after[k]);
      }
    }
    SeparateSucceeds(before, after, closed, s, current, sent);
  }

  lemma SeparateSucceeds(before: seq<Sender>, after: seq<Sender>, closed: Option<nat>, s: Sender,
                         current: map<Uuid, nat>, sent: seq<Message>)
    requires LivesOk(before, current, sent) && Succeeds(before, after, closed, s, |sent|)
    requires if s.id in current then closed == Some(current[s.id]) else closed == None
    ensures Separate(after)
  {
    hide ReadsOk;
    forall j, k | 0 <= j < k < |after| && after[j].id == after[k].id
      ensures after[j].until.Some? && after[j].until.value <= after[k].start
    {
      assert Within(before[j], sent);
      if before[j].until.None? {
        assert current[before[j].id] == j;
        assert k < |before| ==> before[k].id != before[j].id;
      }
    }
  }

  lemma ReadsSame(s: Sender, t: Sender)
    requires ReadsOk(s) && t == s.(until := t.until)
    ensures ReadsOk(t)
  {
  }

  lemma LanesSucceed(before: seq<Sender>, after: seq<Sender>, closed: Option<nat>, s: Sender, current: map<Uuid, nat>,
                     lanes: map<Uuid, Lane>, lanes': map<Uuid, Lane>, sent: seq<Message>)
    requires LivesOk(before, current, sent) && LanesOk(before, lanes, sent)
             && Succeeds(before, after, closed, s, |sent|)
    requires if s.id in current then closed == Some(current[s.id]) else closed == None
    requires OnlyLane(lanes, lanes', s.id) && LaneAccounted(s, lanes', [])
    ensures LanesOk(after, lanes', sent)
  {
    hide ReadsOk;
    forall k | 0 <= k < |after| && after[k].until.None?
      ensures Within(after[k], sent) && LaneAccounted(after[k], lanes', Chunks(after[k], sent))
    {
      if k == |before| {
        assert sent[|sent|..|sent|] == [];
      } else {
        assert before[k].until.None? && closed != Some(k);
        assert before[k].id != s.id;
        OtherLane(before[k], lanes, lanes', Chunks(before[k], sent));
      }
    }
  }

  lemma BegunKeeps(h: Hash, x: Wire, id: Uuid, stage: Stage, w: Writer)
    requires WireInv(h, x) && (id in x.current ==> Known(x, id)) && Inv(w)
    requires w.running == x.w.running && OnlyLane(x.w.binary, w.binary, id) && CriticalGrew(x.w.critical, w.critical)
    requires stage.Stopped? || (stage.Reading? && id in w.binary)
    requires id in w.binary ==> w.binary[id] == []
    ensures WireInv(h, Begun(x, id, stage).(w := w))
  {
    hide Inv, SentOk, QueuedOk, LanesOk, LivesOk, FramesOf, Carried, ChunksOk;
    var s := Sender(id, stage, [], false, |x.sent|, None, false);
    var closed := if id in x.current then Some(x.current[id]) else None;
    if id in x.current {
      LifeFacts(h, x, id);
    }
    var after := Begun(x, id, stage).senders;
    assert Succeeds(x.senders, after, closed, s, |x.sent|);
    SentSucceeds(h, x.senders, after, closed, s, x.sent);
    LivesSucceed(x.senders, after, closed, s, x.current, x.sent);
    NewAccounted(s, w.binary);
    CarriedSucceeds(x.senders, after, closed, s, x.sent);
    if w.running {
      LanesSucceed(x.senders, after, closed, s, x.current, x.w.binary, w.binary, x.sent);
      CriticalStands(h, x.senders, x.w.critical, w.critical, x.sent);
      QueuedSucceeds(h, x.senders, after, closed, s, w.critical, x.sent);
    }
  }

  lemma NewAccounted(s: Sender, binary: map<Uuid, Lane>)
    requires s.read == [] && !s.hand
    requires s.stage.Stopped? || (s.stage.Reading? && s.id in binary)
    requires s.id in binary ==> binary[s.id] == []
    ensures LaneAccounted(s, binary, [])
  {
  }

  lemma RegisterShape(w: Writer, id: Uuid)
    requires Register(w, id).Ok? && id !in w.binary
    ensures var w' := Register(w, id).value;
            && w'.running == w.running && w'.critical == w.critical && OnlyLane(w.binary, w'.binary, id)
            && id in w'.binary && w'.binary[id] == []
  {
  }

  lemma OpenKeeps(h: Hash, x: Wire, id: Uuid, total: nat)
    requires WireInv(h, x) && Enabled(x, Open(id, total))
    ensures WireInv(h, Opening(x, id, total))
  {
    LaneIsFree(h, x, id, total);
    hide Inv, WireInv, Register, EnqueueCritical, Begun;
    RegisterKeeps(x.w, id);
    match Register(x.w, id)
    case Err(_) => BegunKeeps(h, x, id, Stopped, x.w);
    case Ok(w) =>
      RegisterShape(x.w, id);
      EnqueueControlKeeps(w, BeginControl(id, total), "");
      match EnqueueCritical(w, BeginControl(id, total)) {
        case Err(_) => BegunKeeps(h, x, id, Stopped, w);
        case Ok(w') =>
          EnqueueCriticalShape(w, BeginControl(id, total));
          BegunKeeps(h, x, id, Reading, w');
      }
  }

  lemma LaneIsFree(h: Hash, x: Wire, id: Uuid, total: nat)
    requires WireInv(h, x) && Enabled(x, Open(id, total))
    ensures id !in x.w.binary && Inv(x.w) && (id in x.current ==> Known(x, id))
  {
    hide Inv, SentOk, QueuedOk, LanesOk;
  }

  // ---- Steps of the writer --------------------------------------------------

  predicate IsOther(s: R.Step) {
    (s.CriticalStep? && !IsSuccess(s.control)) || s.NormalStep? || s.SettleStep? || s.StopStep?
  }

  lemma OtherShape(w: Writer, s: R.Step)
    requires Inv(w) && IsOther(s)
    ensures var w' := R.After(w, s);
            w'.running == w.running && w'.binary == w.binary && CriticalGrew(w.critical, w'.critical)
  {
    hide Inv;
    match s
    case CriticalStep(_) =>
    case NormalStep(_) =>
    case _ =>
  }

  lemma OtherKeeps(h: Hash, x: Wire, s: R.Step)
    requires WireInv(h, x) && IsOther(s)
    ensures WireInv(h, x.(w := R.After(x.w, s)))
  {
    hide Inv, SentOk, QueuedOk, LanesOk, LivesOk, R.After, Carried;
    R.StepKeeps(x.w, s);
    OtherShape(x.w, s);
    if x.w.running {
      CriticalStands(h, x.senders, x.w.critical, R.After(x.w, s).critical, x.sent);
    }
  }

  lemma WriterFailKeeps(h: Hash, x: Wire)
    requires WireInv(h, x)
    ensures WireInv(h, x.(w := R.After(x.w, R.FailStep)))
  {
    hide Inv, SentOk, QueuedOk, LanesOk, LivesOk, Carried;
    R.StepKeeps(x.w, R.FailStep);
  }

  lemma LivesGrow(senders: seq<Sender>, current: map<Uuid, nat>, sent: seq<Message>, m: Message)
    requires LivesOk(senders, current, sent)
    ensures LivesOk(senders, current, sent + [m])
  {
    hide ReadsOk;
  }

  /** The terminal at index `i` is not followed by a chunk of its own life. */
  lemma InOrderGrows(s: Sender, sent: seq<Message>, m: Message, i: nat)
    requires InOrder(s, sent, i) && (s.until.None? ==> FrameFor(m, s.id) == []) && Within(s, sent)
    ensures InOrder(s, sent + [m], i)
  {
    hide FramesOf, R.ChunksOf, FrameFor;
    SliceStays(sent, m, s.start, i);
    if s.until.None? {
      TailSnoc(sent, m, i, s.id);
      TailSlice(sent, i);
      TailSlice(sent + [m], i);
    } else if i <= s.until.value {
      SliceStays(sent, m, i, s.until.value);
    }
  }

  lemma SliceStays(sent: seq<Message>, m: Message, a: nat, b: nat)
    requires a <= b <= |sent|
    ensures (sent + [m])[a..b] == sent[a..b]
  {
  }

  lemma TailSlice(sent: seq<Message>, a: nat)
    requires a <= |sent|
    ensures sent[a..|sent|] == sent[a..]
  {
  }

  /** No life that ended is still open for the frame. */
  ghost predicate Apart(senders: seq<Sender>, m: Message) {
    forall k | 0 <= k < |senders| && senders[k].stage.Ended? && senders[k].until.None? ::
      FrameFor(m, senders[k].id) == []
  }

  lemma SentGrows(h: Hash, senders: seq<Sender>, current: map<Uuid, nat>, sent: seq<Message>, m: Message)
    requires SentOk(h, senders, sent) && LivesOk(senders, current, sent) && Apart(senders, m)
    requires m.CriticalMessage? && IsSuccess(m.control) ==>
               && Announces(h, senders, m.control)
               && var s := senders[m.control.life];
                  s.start <= |sent| && R.ChunksOf(sent[s.start..], s.id) == FramesOf(s.id, s.read)
    ensures SentOk(h, senders, sent + [m])
  {
    hide FramesOf, InOrder;
    var sent' := sent + [m];
    forall i | 0 <= i < |sent'| && sent'[i].CriticalMessage? && IsSuccess(sent'[i].control)
      ensures Announces(h, senders, sent'[i].control) && InOrder(senders[sent'[i].control.life], sent', i)
    {
      if i < |sent| {
        assert sent'[i] == sent[i];
        InOrderGrows(senders[sent[i].control.life], sent, m, i);
      } else {
        InOrderNow(senders[m.control.life], sent, m);
      }
    }
  }

  lemma InOrderNow(s: Sender, sent: seq<Message>, m: Message)
    requires s.start <= |sent| && R.ChunksOf(sent[s.start..], s.id) == FramesOf(s.id, s.read) && FrameFor(m, s.id) == []
    requires Within(s, sent)
    ensures InOrder(s, sent + [m], |sent|)
  {
    hide FramesOf;
    assert (sent + [m])[s.start..|sent|] == sent[s.start..];
    if s.until.None? {
      TailSnoc(sent, m, |sent|, s.id);
      assert (sent + [m])[|sent|..|sent| + 1] == (sent + [m])[|sent|..] && sent[|sent|..] == [];
    } else if |sent| <= s.until.value {
      assert (sent + [m])[|sent|..s.until.value] == [];
    }
  }

  lemma QueuedGrows(h: Hash, senders: seq<Sender>, critical: seq<Control>, sent: seq<Message>, m: Message)
    requires QueuedOk(h, senders, critical, sent) && !m.BinaryMessage?
    ensures QueuedOk(h, senders, critical, sent + [m])
  {
    hide FramesOf;
    forall k | 0 <= k < |critical| && IsSuccess(critical[k])
      ensures Announces(h, senders, critical[k])
      ensures var s := senders[critical[k].life];
              s.start <= |sent + [m]| && R.ChunksOf((sent + [m])[s.start..], s.id) == FramesOf(s.id, s.read)
    {
      var s := senders[critical[k].life];
      TailSnoc(sent, m, s.start, s.id);
    }
  }

  lemma LanesAfterOther(senders: seq<Sender>, binary: map<Uuid, Lane>, sent: seq<Message>, m: Message)
    requires LanesOk(senders, binary, sent) && !m.BinaryMessage?
    ensures LanesOk(senders, binary, sent + [m])
  {
    hide LaneAccounted;
    forall k | 0 <= k < |senders| && senders[k].until.None?
      ensures Within(senders[k], sent + [m]) && LaneAccounted(senders[k], binary, Chunks(senders[k], sent + [m]))
    {
      ChunksGrow(senders[k], sent, m);
      assert Chunks(senders[k], sent) + [] == Chunks(senders[k], sent);
    }
  }

  lemma CarriedAfterOther(senders: seq<Sender>, sent: seq<Message>, m: Message)
    requires Carried(senders, sent) && !m.BinaryMessage?
    ensures Carried(senders, sent + [m])
  {
    hide ChunksOk;
    forall k | 0 <= k < |senders|
      ensures Within(senders[k], sent + [m]) && ChunksOk(senders[k], Chunks(senders[k], sent + [m]))
    {
      ChunksGrow(senders[k], sent, m);
      assert Chunks(senders[k], sent) + [] == Chunks(senders[k], sent);
    }
  }

  lemma NonChunkKeeps(h: Hash, x: Wire, w: Writer, m: Message)
    requires WireInv(h, x) && x.w.running && Inv(w) && w.running && w.binary == x.w.binary && !m.BinaryMessage?
    requires if m.CriticalMessage?
             then x.w.critical != [] && m.control == x.w.critical[0] && w.critical == x.w.critical[1..]
             else w.critical == x.w.critical
    ensures WireInv(h, x.(w := w, sent := x.sent + [m]))
  {
    HeadAccounted(h, x, m);
    hide Inv, SentOk, LanesOk, LivesOk, FramesOf, QueuedOk, Carried;
    CarriedAfterOther(x.senders, x.sent, m);
    assert QueuedOk(h, x.senders, w.critical, x.sent) by { TailQueued(h, x.senders, x.w.critical, w.critical, x.sent); }
    LivesGrow(x.senders, x.current, x.sent, m);
    SentGrows(h, x.senders, x.current, x.sent, m);
    QueuedGrows(h, x.senders, w.critical, x.sent, m);
    LanesAfterOther(x.senders, x.w.binary, x.sent, m);
  }

  lemma TailQueued(h: Hash, senders: seq<Sender>, before: seq<Control>, after: seq<Control>, sent: seq<Message>)
    requires QueuedOk(h, senders, before, sent) && (after == before || (before != [] && after == before[1..]))
    ensures QueuedOk(h, senders, after, sent)
  {
    hide FramesOf, Announces;
  }

  lemma HeadAccounted(h: Hash, x: Wire, m: Message)
    requires WireInv(h, x) && x.w.running
    requires m.CriticalMessage? ==> x.w.critical != [] && m.control == x.w.critical[0]
    ensures m.CriticalMessage? && IsSuccess(m.control) ==>
              && Announces(h, x.senders, m.control)
              && var s := x.senders[m.control.life];
                 s.start <= |x.sent| && R.ChunksOf(x.sent[s.start..], s.id) == FramesOf(s.id, s.read)
  {
    hide Inv, SentOk, LanesOk, LivesOk, FramesOf;
  }

  lemma TakenAccounted(s: Sender, before: map<Uuid, Lane>, after: map<Uuid, Lane>, chunks: Lane)
    requires LaneAccounted(s, before, chunks) && s.id in before && before[s.id] != []
    requires s.id in after && after[s.id] == before[s.id][1..]
    ensures LaneAccounted(s, after, chunks + [before[s.id][0]]) && !s.stage.Ended? && !s.stage.Checking?
    ensures chunks + [before[s.id][0]] <= FramesOf(s.id, s.read)
  {
    hide FramesOf;
    QueuedFits(s);
    assert chunks + [before[s.id][0]] + before[s.id][1..] == chunks + before[s.id];
  }

  lemma OneOwner(frame: seq<byte>, a: Uuid, b: Uuid)
    requires IsChunkOf(frame, a)
    ensures IsChunkOf(frame, b) ==> a == b
  {
  }

  lemma LanesAfterChunk(senders: seq<Sender>, binary: map<Uuid, Lane>, sent: seq<Message>, m: Message, owner: Uuid)
    requires LanesOk(senders, binary, sent) && owner in binary && binary[owner] != []
    requires m == BinaryMessage(binary[owner][0]) && IsChunkOf(m.frame, owner)
    ensures LanesOk(senders, binary[owner := binary[owner][1..]], sent + [m]) && Apart(senders, m)
  {
    hide LaneAccounted, IsChunkOf;
    var after := binary[owner := binary[owner][1..]];
    forall k | 0 <= k < |senders| && senders[k].until.None?
      ensures Within(senders[k], sent + [m]) && LaneAccounted(senders[k], after, Chunks(senders[k], sent + [m]))
      ensures senders[k].stage.Ended? ==> FrameFor(m, senders[k].id) == []
    {
      var s := senders[k];
      ChunksGrow(s, sent, m);
      OneOwner(m.frame, owner, s.id);
      assert Chunks(s, sent) + [] == Chunks(s, sent);
      if s.id != owner {
        OtherLane(s, binary, after, Chunks(s, sent));
      } else {
        TakenAccounted(s, binary, after, Chunks(s, sent));
      }
    }
  }

  lemma CarriedAfterChunk(senders: seq<Sender>, binary: map<Uuid, Lane>, sent: seq<Message>, m: Message, owner: Uuid)
    requires LanesOk(senders, binary, sent) && Carried(senders, sent) && owner in binary && binary[owner] != []
    requires m == BinaryMessage(binary[owner][0]) && IsChunkOf(m.frame, owner)
    ensures Carried(senders, sent + [m])
  {
    hide LaneAccounted, IsChunkOf, FramesOf;
    forall k | 0 <= k < |senders|
      ensures Within(senders[k], sent + [m]) && ChunksOk(senders[k], Chunks(senders[k], sent + [m]))
    {
      var s := senders[k];
      ChunksGrow(s, sent, m);
      OneOwner(m.frame, owner, s.id);
      assert Chunks(s, sent) + [] == Chunks(s, sent);
      if s.until.None? && s.id == owner {
        TakenAccounted(s, binary, binary[owner := binary[owner][1..]], Chunks(s, sent));
      }
    }
  }

  lemma ChunkKeeps(h: Hash, x: Wire, w: Writer, m: Message, owner: Uuid)
    requires WireInv(h, x) && x.w.running && Inv(w) && w.running && w.critical == []
    requires owner in x.w.binary && x.w.binary[owner] != [] && w.binary == x.w.binary[owner := x.w.binary[owner][1..]]
    requires m == BinaryMessage(x.w.binary[owner][0]) && IsChunkOf(m.frame, owner)
    ensures WireInv(h, x.(w := w, sent := x.sent + [m]))
  {
    hide Inv, SentOk, LanesOk, LivesOk, IsChunkOf, Apart, Carried;
    CarriedAfterChunk(x.senders, x.w.binary, x.sent, m, owner);
    LanesAfterChunk(x.senders, x.w.binary, x.sent, m, owner);
    LivesGrow(x.senders, x.current, x.sent, m);
    SentGrows(h, x.senders, x.current, x.sent, m);
  }

  lemma SendCases(w: Writer)
    requires Inv(w) && Queued(w)
    ensures var (w', m) := SendNext(w);
            && w'.running == w.running
            && (if m.CriticalMessage?
                then w.critical != [] && m.control == w.critical[0] && w'.critical == w.critical[1..]
                else w.critical == w'.critical == [])
            && (!m.BinaryMessage? ==> w'.binary == w.binary)
            && (m.BinaryMessage? ==>
                  && w.roundRobin != []
                  && var id := w.roundRobin[0];
                     id in w.binary && w.binary[id] != [] && w'.binary == w.binary[id := w.binary[id][1..]]
                     && m.frame == w.binary[id][0] && IsChunkOf(m.frame, id))
  {
    hide ControlInv;
    if w.critical == [] && !NormalGoes(w) {
      LaneFacts(w, w.roundRobin[0]);
    }
  }

  lemma SendKeepsWire(h: Hash, x: Wire)
    requires WireInv(h, x)
    ensures WireInv(h, x.(w := R.After(x.w, R.SendStep), sent := x.sent + R.Emitted(x.w, R.SendStep)))
  {
    hide Inv, R.After, R.Emitted, SendNext, LivesOk, SentOk, LanesOk, QueuedOk, LanesOwned, Carried;
    R.StepKeeps(x.w, R.SendStep);
    R.StepOutcome(x.w, R.SendStep);
    if R.Sends(x.w, R.SendStep) {
      SendCases(x.w);
      var (w, m) := SendNext(x.w);
      if m.BinaryMessage? {
        ChunkKeeps(h, x, w, m, x.w.roundRobin[0]);
      } else {
        NonChunkKeeps(h, x, w, m);
      }
    } else {
      assert x.sent + [] == x.sent;
      QuietSend(x.w);
    }
  }

  lemma QuietSend(w: Writer)
    requires Inv(w) && !R.Sends(w, R.SendStep)
    ensures R.After(w, R.SendStep) == w
  {
  }

  // ---- The theorem ----------------------------------------------------------

  lemma StepKeepsWire(h: Hash, x: Wire, s: Step)
    requires WireInv(h, x) && Enabled(x, s)
    ensures WireInv(h, After(h, x, s))
  {
    hide WireInv, Inv, Opening, Queueing, Finishing, Discard, R.After, R.Emitted;
    match s
    case Open(id, total) => OpenKeeps(h, x, id, total);
    case Read(id, chunk) => ReadKeeps(h, x, id, chunk);
    case Queue(id) => QueueKeeps(h, x, id);
    case EndOfFile(id) => MoveKeeps(h, x, id, Draining);
    case Drained(id) => DrainedKeeps(h, x, id);
    case Finish(id) => FinishKeeps(h, x, id);
    case Halt(id) => if !Now(x, id).stage.Ended? { MoveKeeps(h, x, id, Stopped); }
    case PeerFails(id) => DropKeeps(h, x, id);
    case Close(id) => CloseKeeps(h, x, id);
    case OtherControl(c) => OtherKeeps(h, x, R.CriticalStep(c));
    case OtherText(text) => OtherKeeps(h, x, R.NormalStep(text));
    case Send => SendKeepsWire(h, x);
    case Settle => OtherKeeps(h, x, R.SettleStep);
    case Stop => OtherKeeps(h, x, R.StopStep);
    case WriterFails => WriterFailKeeps(h, x);
  }

  ghost predicate Runs(h: Hash, x: Wire, steps: seq<Step>)
    decreases |steps|
  {
    steps == [] || (Inv(x.w) && Enabled(x, steps[0]) && Runs(h, After(h, x, steps[0]), steps[1..]))
  }

  ghost function Reached(h: Hash, x: Wire, steps: seq<Step>): Wire
    requires Runs(h, x, steps)
    decreases |steps|
  {
    if steps == [] then x else Reached(h, After(h, x, steps[0]), steps[1..])
  }

  lemma {:induction false} RunKeepsWire(h: Hash, x: Wire, steps: seq<Step>)
    requires WireInv(h, x) && Runs(h, x, steps)
    ensures WireInv(h, Reached(h, x, steps))
    decreases |steps|
  {
    if steps != [] {
      StepKeepsWire(h, x, steps[0]);
      hide WireInv, Inv, After;
      RunKeepsWire(h, After(h, x, steps[0]), steps[1..]);
    }
  }

  lemma {:induction false} FramesCarryChunks(id: Uuid, chunks: seq<Chunk>)
    requires IsVersion7(id) && forall i | 0 <= i < |chunks| :: |chunks[i]| <= MAX_BINARY_CHUNK_BYTES
    ensures Payloads(FramesOf(id, chunks)) == chunks
  {
    if chunks != [] {
      CodecIsABijection(id, chunks[0], id.bytes + chunks[0]);
      FramesCarryChunks(id, chunks[1..]);
      assert FramesOf(id, chunks)[1..] == FramesOf(id, chunks[1..]);
    }
  }

  lemma {:induction false} ChunksAreVersion7(sent: seq<Message>, id: Uuid)
    ensures R.ChunksOf(sent, id) != [] ==> IsVersion7(id)
  {
    if sent != [] {
      ChunksAreVersion7(sent[1..], id);
    }
  }

  lemma CarriedAsRead(sent: seq<Message>, s: Sender)
    requires ReadsOk(s) && R.ChunksOf(sent, s.id) == FramesOf(s.id, s.read)
    ensures Payloads(R.ChunksOf(sent, s.id)) == s.read
  {
    ChunksAreVersion7(sent, s.id);
    if s.read != [] {
      FramesCarryChunks(s.id, s.read);
    }
  }

  /**
   For the success terminal at index `i`: its life belongs to the identifier; what was sent for
   the identifier since that life began is, decoded, what the life read, in order; until the
   next life begins nothing follows; and the terminal's size and digest are those of the bytes.
   */
  ghost predicate DescribedAt(h: Hash, x: Wire, i: nat)
    requires i < |x.sent| && x.sent[i].CriticalMessage? && IsSuccess(x.sent[i].control)
  {
    var c := x.sent[i].control;
    && c.life < |x.senders|
    && var s := x.senders[c.life];
    && s.id == c.id && s.start <= i
    && var carried := Payloads(R.ChunksOf(x.sent[s.start..i], s.id));
    && carried == s.read
    && (i <= Until(s, x.sent) <= |x.sent| ==> R.ChunksOf(x.sent[i..Until(s, x.sent)], s.id) == [])
    && c.end.bytesSent == Some(|Concat(carried)|)
    && c.end.sha256 == Some(h(Concat(carried)))
  }

  lemma WireDescribes(h: Hash, x: Wire, i: nat)
    requires WireInv(h, x) && i < |x.sent| && x.sent[i].CriticalMessage? && IsSuccess(x.sent[i].control)
    ensures DescribedAt(h, x, i)
  {
    hide Inv, LanesOk, QueuedOk, LanesOwned, FramesOf;
    var c := x.sent[i].control;
    assert Announces(h, x.senders, c) && InOrder(x.senders[c.life], x.sent, i);
    CarriedAsRead(x.sent[x.senders[c.life].start..i], x.senders[c.life]);
  }

  lemma StartIsSound(h: Hash)
    ensures WireInv(h, START)
  {
  }

  /**
   In every run of senders, lives, other controls, discards and the writer, every success
   terminal on the wire describes exactly the chunks its own life sent before it.
   */
  lemma SuccessDescribesTheWire(h: Hash, steps: seq<Step>, i: nat)
    requires Runs(h, START, steps)
    requires var x := Reached(h, START, steps);
             i < |x.sent| && x.sent[i].CriticalMessage? && IsSuccess(x.sent[i].control)
    ensures DescribedAt(h, Reached(h, START, steps), i)
  {
    hide WireInv, DescribedAt;
    StartIsSound(h);
    RunKeepsWire(h, START, steps);
    WireDescribes(h, Reached(h, START, steps), i);
  }

  lemma {:induction false} FramesTake(id: Uuid, read: seq<Chunk>, n: nat)
    requires n <= |read|
    ensures |FramesOf(id, read)| == |read| && FramesOf(id, read)[..n] == FramesOf(id, read[..n])
    decreases |read|
  {
    if read != [] {
      FramesTake(id, read[1..], if n == 0 then 0 else n - 1);
      if n > 0 {
        assert read[..n][1..] == read[1..][..n - 1];
      }
    }
  }

  /** How much of a life is on the wire. */
  function SentCount(s: Sender, sent: seq<Message>): nat
    requires Within(s, sent)
  {
    |Chunks(s, sent)|
  }

  /** The first chunks of a life are on the wire, as they were read. */
  ghost predicate Begins(s: Sender, sent: seq<Message>) {
    && Within(s, sent) && SentCount(s, sent) <= |s.read|
    && Payloads(Chunks(s, sent)) == s.read[..SentCount(s, sent)]
  }

  lemma ChunksBegin(s: Sender, sent: seq<Message>)
    requires Within(s, sent) && ReadsOk(s) && ChunksOk(s, Chunks(s, sent))
    ensures Begins(s, sent)
    ensures Chunks(s, sent) == FramesOf(s.id, s.read) <==> SentCount(s, sent) == |s.read|
  {
    hide FramesOf;
    var chunks := Chunks(s, sent);
    FramesTake(s.id, s.read, |s.read|);
    FramesTake(s.id, s.read, |chunks|);
    assert s.read[..|s.read|] == s.read;
    assert chunks == FramesOf(s.id, s.read)[..|chunks|];
    CarriedAsRead(sent[s.start..Until(s, sent)], s.(read := s.read[..|chunks|], hand := false));
  }

  /**
   In every run, also after the writer failed and for lives that stopped: what a life has on the
   wire is, decoded, the beginning of what it read, and all of it once its drain has ended
   under a running writer and its source was found unchanged.
   */
  lemma EveryLifeIsABeginning(h: Hash, steps: seq<Step>, k: nat)
    requires Runs(h, START, steps) && k < |Reached(h, START, steps).senders|
    ensures var x := Reached(h, START, steps);
            var s := x.senders[k];
            && Begins(s, x.sent)
            && (s.stage.Ended? && s.whole ==> SentCount(s, x.sent) == |s.read|)
            && (s.stage.Ended? && s.until.None? && x.w.running ==> s.whole)
  {
    hide WireInv, Runs, Reached, Begins, SentCount;
    StartIsSound(h);
    RunKeepsWire(h, START, steps);
    LifeBegins(h, Reached(h, START, steps), k);
  }

  lemma LifeBegins(h: Hash, x: Wire, k: nat)
    requires WireInv(h, x) && k < |x.senders|
    ensures var s := x.senders[k];
            && Begins(s, x.sent)
            && (s.stage.Ended? && s.whole ==> SentCount(s, x.sent) == |s.read|)
            && (s.stage.Ended? && s.until.None? && x.w.running ==> s.whole)
  {
    hide Inv, QueuedOk, SentOk, LanesOwned, FramesOf, Separate, Begins, ReadsOk;
    ChunksBegin(x.senders[k], x.sent);
  }

  /** Two lives of one identifier have separate parts of the wire. */
  lemma LivesDoNotOverlap(h: Hash, steps: seq<Step>, j: nat, k: nat)
    requires Runs(h, START, steps)
    requires var x := Reached(h, START, steps); j < k < |x.senders| && x.senders[j].id == x.senders[k].id
    ensures var x := Reached(h, START, steps);
            x.senders[j].until.Some? && x.senders[j].start <= x.senders[j].until.value <= x.senders[k].start <= |x.sent|
  {
    hide WireInv, Runs, Reached;
    StartIsSound(h);
    RunKeepsWire(h, START, steps);
    SeparateLives(h, Reached(h, START, steps), j, k);
  }

  lemma SeparateLives(h: Hash, x: Wire, j: nat, k: nat)
    requires WireInv(h, x) && j < k < |x.senders| && x.senders[j].id == x.senders[k].id
    ensures x.senders[j].until.Some? && x.senders[j].start <= x.senders[j].until.value <= x.senders[k].start <= |x.sent|
  {
    hide Inv, LanesOk, QueuedOk, SentOk, LanesOwned, ReadsOk;
    assert Within(x.senders[j], x.sent) && Within(x.senders[k], x.sent);
  }
}
