# OpenOctopus client: verified models

Dafny models of the stateful parts of the OpenOctopus client and of three small
refinement cores beside them, with proofs of what they promise over every input and
every interleaving. `dafny verify dfyconfig.toml` checks all of it.

| files | subject |
|---|---|
| `Protocol`, `TransferSlot`, `TransferRuns`, `TransferTheorems`, `EndFinality`, `TransferManager`, `ManagerRuns` | the client half of file transfer: sender and receiver slots, crossing failures, acknowledgements, tombstones, and the manager that holds them |
| `Admission`, `LocalTransferAdmission`, `TransferLeases`, `SlotLeases` | permits, leases, the slots and drains that hold them, and slot and leases together |
| `Writer`, `WriterRuns`, `SerializedWriter`, `SenderWire`, `TransferWire` | the frame scheduler, its fairness, the wire order of a transfer, and slot and wire together |
| `ExecSession`, `ExecSessions`, `ExecSessionManager`, `HeadTailBuffer` | exec sessions, the policy fence, bounded output |
| `Utf8`, `Terminal`, `TerminalNormalizer` | the terminal normalizer and its decoder |
| `History`, `Ndjson`, `PdfPages` | history merging, NDJSON records, PDF page continuation |
| `Basics`, `OrderedDict` | shared vocabulary |

## How concurrency is modelled

The client is one asyncio event loop. A step is the code between two suspension
points: a frame handled by the reader, one resumption of a worker, a cancellation being
delivered, a section under a lock that is never held across a suspension. A run is any
sequence of enabled steps, so a theorem over runs is a theorem over all interleavings.
What the environment decides (file-system results, whether a lane has room, time-outs,
process outcomes, the clock) is an argument of the step. Objects that the code updates
in place are classes whose methods are proved equal to the step functions; coroutine
bodies that suspend are step functions only.

SHA-256 is an arbitrary function. A process handle that reports successful termination,
reaping and complete cleanup is believed: its process is then gone. Locale comparison is a
total preorder that separates different identifiers. Policy changes are applied one at a
time, as the connection does it.

## Findings

- client/src/openoctopus_client/transfer.py:1617-1652: the tombstone of an unacknowledged success
  refuses a failure acknowledgement that its live slot would have taken.
  `RetirementPreservesAcks` gives the exact condition under which the two agree, and
  `RetiredSuccessRefusesAFailure` a run in which they do not.
- client/src/openoctopus_client/transfer.py:596-640: a peer that sends a failure after its
  acknowledgement can have a second, different acknowledgement accepted
  (`PeerFailureAllowsASecondAck`); `RunsAreSafe` shows that two is the maximum.
- client/src/openoctopus_client/transfer.py:943: a receiver that holds an end frame goes back to
  streaming when it writes a chunk that was still queued (`EndCanBeReopened`).
  `EndIsFinalExactly` says when the end is final, `QueueIsFinalExactly` when nothing more is
  queued (`JamIsReachable` is the case in which accepted data never is), and
  `PublishedWasChecked` that nothing taken afterwards is published.
- client/src/openoctopus_client/writer.py:202-214: when the writer fails it empties the lanes and
  still takes frames, so a sender's drain ends as if its chunks were out and the success
  terminal is queued (`LostChunksAreAcknowledged`). `AcknowledgedIsOnTheWire` says exactly when
  an acknowledgement describes the wire, and that it does if the writer ran when the drain ended.
- client/src/openoctopus_client/terminal.py:119-123: a backspace edits only the text of its own
  call. `SplitText` gives the exact condition under which a cut between two calls leaves the
  text unchanged, `BackspaceAfterASplit` an input where it does not.
- client/src/openoctopus_client/terminal.py:58-63: a control sequence that is longer than the
  limit by exactly one byte loses its final byte to the length check, and text is swallowed up
  to the next final byte (`ControlSequenceIsStripped`). An operating-system command loses its
  terminator when it is longer by one byte, or by two if it ends in ST (`CommandIsStripped`,
  `CommandsThatLoseTheirTerminator`).
- client/src/openoctopus_client/terminal.py:40-44: the escape byte is stored without a length
  check (`EscapeIsNotCounted`), so the limit bounds the pending control bytes of every input
  exactly when it is not zero (`LimitHoldsExactly`).
- client/src/openoctopus_client/document_convert.py:446: the pattern takes decimal digits of any
  script after the first (`ForeignDigitsAreAccepted`); an accepted spelling is canonical exactly
  when its digits are ASCII (`CanonicalExactlyWhenAscii`).
- frontend/src/chat/model.ts:107-112: only the first messages of pages are compared, so a page that
  is not sorted, or a copy with another time, can bring the oldest message and still not decide
  whether more is missing (`UnsortedPageIsOverruled`, `ChangedCopyIsOverruled`).
  `LastLeaderDecides` says for all pages which one decides.

## Model

| member | source | states |
|---|---|---|
| `Protocol.CodecIsABijection` | client/src/openoctopus_client/protocol.py:789-812 | encoding succeeds with a frame exactly when decoding that frame gives back the same slot and payload |
| `TransferRuns.RunsAreSafe` | client/src/openoctopus_client/transfer.py:348-676 | over every run of one identifier: one distinct acknowledgement unless the peer failed after acknowledging, then at most two; success acknowledgements carry the sender's own size and digest; the mismatch branch is unreachable; one reply to crossing failures; bytes taken live, aborted and tombstoned stay within the declared total; checks, publications and success terminals describe what was queued or read |
| `TransferRuns.StepKeeps` | client/src/openoctopus_client/transfer.py:888-1329 | the run invariant is kept by every frame, worker resumption, cancellation, cleanup, shutdown and forgetting |
| `TransferRuns.RunKeeps` | client/src/openoctopus_client/transfer.py:312-458 | from any invariant state every event of every run is permitted |
| `TransferTheorems.RetirementPreservesAcks` | client/src/openoctopus_client/transfer.py:1376-1394 | in every reachable state the tombstone accepts exactly the acknowledgements the live slot would, if and only if the slot has no terminal, or awaits an answer to one that is not an unacknowledged success |
| `TransferTheorems.AgreeSender` | client/src/openoctopus_client/transfer.py:1594-1652 | ended or aborted senders: live and tombstone acceptance coincide for every acknowledgement |
| `TransferTheorems.AgreeReceiver` | client/src/openoctopus_client/transfer.py:1567-1592 | aborted receivers: live and tombstone acceptance coincide for every acknowledgement |
| `TransferTheorems.PendingSuccessDiffers` | client/src/openoctopus_client/transfer.py:1617-1652 | a pending success takes a failure acknowledgement while live and not once retired |
| `TransferTheorems.RetiredSuccessRefusesAFailure` | client/src/openoctopus_client/transfer.py:1617-1652 | a run whose live slot would take a failure acknowledgement and whose tombstone refuses it |
| `TransferTheorems.EchoDiffers` | client/src/openoctopus_client/transfer.py:1567-1592 | a slot retired in any other phase starts to accept an echo of its own terminal |
| `TransferTheorems.PublishedWasChecked` | client/src/openoctopus_client/transfer.py:922-1093 | whatever is published is the bytes queued before the first end marker in arrival order, of the declared length, with the size and digest of the end frame held at the check, also when the publishing thread outlives its worker |
| `TransferTheorems.RewritesNeverExtendExpiry` | client/src/openoctopus_client/transfer.py:1505-1557 | however often a tombstone is rewritten before it is forgotten, it expires when it first would have |
| `TransferTheorems.StepExpiry` | client/src/openoctopus_client/transfer.py:1512-1518 | no step changes the expiry of a tombstone that it keeps |
| `TransferTheorems.EndCanBeReopened` | client/src/openoctopus_client/transfer.py:943 | a run in which data is queued after the end frame was taken |
| `EndFinality.EndIsFinalExactly` | client/src/openoctopus_client/transfer.py:922-945 | in every reachable state that holds an end frame, no continuation of the slot accepts more data if and only if the worker is cancelled, has nothing in hand or queued before the first marker, or the declared total is used up |
| `EndFinality.QueueIsFinalExactly` | client/src/openoctopus_client/transfer.py:667-676 | likewise no continuation queues more data, if and only if the slot cannot be reopened or its full queue starts with a marker while the reader waits with another |
| `EndFinality.JamIsReachable` | client/src/openoctopus_client/transfer.py:666-676 | a run to such a queue: data that is accepted then is never queued |
| `EndFinality.Reopens` | client/src/openoctopus_client/transfer.py:927-943 | from any receiver with data ahead, room and a live worker, a run that accepts more data |
| `EndFinality.RunStaysShut` | client/src/openoctopus_client/transfer.py:367-388 | a receiver that is shut accepts nothing more, whatever happens while it lives |
| `TransferTheorems.PeerFailureAllowsASecondAck` | client/src/openoctopus_client/transfer.py:596-640 | a run in which two different acknowledgements are accepted |
| `OrderedDict.ReinsertContents` | client/src/openoctopus_client/transfer.py:1503-1559 | a rewritten entry is present and last; an eviction takes the oldest other entry and only when the dictionary was full and the key is new |
| `TransferManager.TransferManager.constructor` | client/src/openoctopus_client/transfer.py:236-271 | every identifier starts fresh |
| `TransferManager.TransferManager.HandleControl` | client/src/openoctopus_client/transfer.py:312-332 | the frame's identifier takes exactly its step after the purge; any other loses at most an expired tombstone, or an evicted one when a start is refused; the manager takes a step of its own run |
| `TransferManager.TransferManager.HandleBinary` | client/src/openoctopus_client/transfer.py:348-398 | a malformed frame changes nothing; otherwise its slot takes exactly the binary step and no other identifier is touched beyond the purge |
| `TransferManager.TransferManager.AcceptStart` | client/src/openoctopus_client/transfer.py:462-515 | a reused identifier is refused, a granted one opens a slot, a refused one leaves a rejection tombstone |
| `TransferManager.TransferManager.AcceptReady` | client/src/openoctopus_client/transfer.py:545-550 | only a begun sender starts streaming |
| `TransferManager.TransferManager.AcceptProgress` | client/src/openoctopus_client/transfer.py:678-684 | progress is taken from a receiving slot and never moves backwards |
| `TransferManager.TransferManager.AcceptEnd` | client/src/openoctopus_client/transfer.py:552-676 | a terminal does to a live slot or tombstone exactly its step, and nothing to any other identifier |
| `TransferManager.TransferManager.EndForSlot` | client/src/openoctopus_client/transfer.py:596-676 | crossing, acknowledgement, peer failure and end of data on a live slot |
| `TransferManager.TransferManager.EndForTombstone` | client/src/openoctopus_client/transfer.py:552-594 | crossing copies, echoes and chosen acknowledgements on a tombstone; only its own entry changes |
| `TransferManager.TransferManager.PurgeTombstones` | client/src/openoctopus_client/transfer.py:1561-1565 | exactly the expired tombstones go |
| `TransferManager.TransferManager.RememberTombstone` | client/src/openoctopus_client/transfer.py:1503-1559 | at most 4096 entries, the one just written among them, others unchanged but for the oldest |
| `TransferManager.TransferManager.RetireSlot` | client/src/openoctopus_client/transfer.py:1390-1394 | the slot leaves the table and its tombstone merges what was remembered before; a reader blocked on its queue keeps it |
| `TransferManager.TransferManager.ResumePut` | client/src/openoctopus_client/transfer.py:389-392 | a blocked put goes through to its own slot |
| `TransferManager.TransferManager.TimeOutPut` | client/src/openoctopus_client/transfer.py:393-422 | a put that times out aborts its receiver and no other, also one that was retired while the reader waited |
| `TransferManager.TransferManager.Shutdown` | client/src/openoctopus_client/transfer.py:424-444 | every live slot takes the closing step and sends the terminals of that step, whatever the order |
| `ManagerRuns.RunProjects` | client/src/openoctopus_client/transfer.py:312-458 | a run of the whole manager, with purges and evictions, is for each identifier a run of the slot machine with the same events |
| `ManagerRuns.ManagerRunsAreSafe` | client/src/openoctopus_client/transfer.py:552-676 | what is seen of any identifier in any run of the manager is permitted and safe |
| `Admission.RunsConserve` | client/src/openoctopus_client/transfer_admission.py:12-107 | in every run free permits plus owned leases equal the capacity, nobody is served before an earlier live waiter, a free permit means nobody waits, and no step can release excess capacity |
| `Admission.StepKeeps` | client/src/openoctopus_client/transfer_admission.py:53-145 | the allocator invariant is kept by acquire, try, grant, cancellation of a waiting future, the later resumption that removes it, release, hand-off and adoption |
| `Admission.FreedPermitGoesToTheEarliest` | client/src/openoctopus_client/transfer_admission.py:92-99 | a freed permit is granted to the earliest live waiter past every done future still queued, and nobody else is touched |
| `Admission.CancelledWaiterIsPassedOver` | client/src/openoctopus_client/transfer_admission.py:94-99 | a run in which a done future is still queued when a permit is freed |
| `LocalTransferAdmission.LocalTransferAdmission.constructor` | client/src/openoctopus_client/transfer_admission.py:37-42 | all permits free, nobody waiting |
| `LocalTransferAdmission.LocalTransferAdmission.TryAcquire` | client/src/openoctopus_client/transfer_admission.py:53-60 | a lease only when a permit is free and nobody live waits |
| `LocalTransferAdmission.LocalTransferAdmission.Acquire` | client/src/openoctopus_client/transfer_admission.py:62-76 | a lease at once or the last place in the queue |
| `LocalTransferAdmission.LocalTransferAdmission.PassOn` | client/src/openoctopus_client/transfer_admission.py:92-102 | a freed permit goes to the first live waiter, else back to the pool, else it is an excess |
| `LocalTransferAdmission.LocalTransferAdmission.Release` | client/src/openoctopus_client/transfer_admission.py:27-31 | idempotent, and cannot fail in a valid allocator |
| `LocalTransferAdmission.LocalTransferAdmission.Handoff` | client/src/openoctopus_client/transfer_admission.py:19-25 | ownership moves to a new lease without returning capacity; fails only when not owned |
| `LocalTransferAdmission.LocalTransferAdmission.Cancel` | client/src/openoctopus_client/transfer_admission.py:77-81 | a time-out or cancellation makes the future done and leaves it queued |
| `LocalTransferAdmission.LocalTransferAdmission.Abandon` | client/src/openoctopus_client/transfer_admission.py:82-90 | when the coroutine resumes its future leaves the queue, and a lease granted meanwhile is passed on |
| `LocalTransferAdmission.LocalTransferAdmission.Adopt` | client/src/openoctopus_client/transfer_admission.py:121-145 | handed off while work drains, released at once otherwise |
| `LocalTransferAdmission.LocalTransferAdmission.DiscardFinishedWaiters` | client/src/openoctopus_client/transfer_admission.py:104-107 | exactly the unresolved waiters stay, in order |
| `TransferLeases.SlotsFitAndReturnOnce` | client/src/openoctopus_client/transfer.py:1396-1420 | in every run, with other work sharing the admission, live slots and draining ones together never exceed the capacity, and each slot's lease frees exactly one permit once its cleanup or drain is over, whoever started the cleanup |
| `TransferLeases.StepKeeps` | client/src/openoctopus_client/transfer.py:462-515 | no start, cleanup, drain or foreign step fails or breaks the accounting |
| `TransferLeases.ElsewhereEffect` | client/src/openoctopus_client/transfer_admission.py:62-102 | other users of the admission cannot take a lease that a slot holds |
| `SlotLeases.EachSlotReturnsItsLeaseOnce` | client/src/openoctopus_client/transfer.py:1396-1420 | in every run of slot machine and leases together, which is a run of the slot machine: a live slot holds one lease that has freed nothing, and the permits freed for the identifier plus its drains that are still out are exactly as many as the slots that ended |
| `SlotLeases.LeasesNeverBlock` | client/src/openoctopus_client/transfer.py:1396-1420 | whatever a reachable slot can do, except start, it can do together with its lease |
| `SlotLeases.JointStepKeeps` | client/src/openoctopus_client/transfer.py:1396-1420 | a slot in the table holds its lease, in its field or in its cleanup; a lease counts as over exactly when a step ends a slot |
| `WriterRuns.RunsKeepTheInvariant` | client/src/openoctopus_client/writer.py:54-214 | after every run the rotation is exactly the non-empty lanes once each, byte counters equal queue sums within bounds, and a queued frame means available is set and idle is clear |
| `WriterRuns.NormalFramesAreNotStarved` | client/src/openoctopus_client/writer.py:178-198 | the normal frame at index k is sent, after its predecessors, within 2(k+1) non-critical sends |
| `WriterRuns.ChunksAreNotStarved` | client/src/openoctopus_client/writer.py:165-198 | an undiscarded lane's chunk at index j is sent, after its predecessors, within 4(j+1) non-critical sends |
| `SerializedWriter.SerializedWriter.constructor` | client/src/openoctopus_client/writer.py:34-45 | nothing queued, idle |
| `SerializedWriter.SerializedWriter.RegisterBinaryLane` | client/src/openoctopus_client/writer.py:54-60 | an empty lane is added, or refused when there are too many |
| `SerializedWriter.SerializedWriter.UnregisterBinaryLane` | client/src/openoctopus_client/writer.py:62-74 | only an empty lane is removed |
| `SerializedWriter.SerializedWriter.DiscardBinaryLane` | client/src/openoctopus_client/writer.py:76-86 | the lane, its counter and its place in the rotation go together |
| `SerializedWriter.SerializedWriter.EnqueueCritical` | client/src/openoctopus_client/writer.py:92-97 | appended within the bound, or refused without change |
| `SerializedWriter.SerializedWriter.EnqueueNormal` | client/src/openoctopus_client/writer.py:99-110 | appended within count and byte bounds, or refused without change |
| `SerializedWriter.SerializedWriter.EnqueueBinary` | client/src/openoctopus_client/writer.py:112-135 | the framed chunk joins its lane and the lane the rotation, or it is refused without change |
| `SerializedWriter.SerializedWriter.PopBinary` | client/src/openoctopus_client/writer.py:165-176 | the first frame of the first live lane, which goes to the back if it has more |
| `SerializedWriter.SerializedWriter.SendNext` | client/src/openoctopus_client/writer.py:183-198 | critical first, then normal and binary in turns |
| `SerializedWriter.SerializedWriter.Fail` | client/src/openoctopus_client/writer.py:202-214 | everything queued is dropped and the lanes stay registered |
| `SerializedWriter.SerializedWriter.SetIdleIfEmpty` | client/src/openoctopus_client/writer.py:160-163 | afterwards a valid writer is idle exactly when nothing is queued; a queued frame keeps the flags as they were |
| `SenderWire.SuccessDescribesTheWire` | client/src/openoctopus_client/transfer.py:1250-1280 | in every interleaving of senders, further lives of an identifier, other controls, discards and the writer: what was sent for the identifier between the start of the terminal's life and the terminal is what that life read, in order, none follows until the next life, and size and digest are those of the decoded concatenation |
| `SenderWire.LivesDoNotOverlap` | client/src/openoctopus_client/transfer.py:686-690 | two lives of one identifier have separate parts of the wire |
| `SenderWire.EveryLifeIsABeginning` | client/src/openoctopus_client/writer.py:120-214 | whether the writer runs or has failed and the sender goes on or has stopped, what a life has on the wire is, decoded, the beginning of what it read, and all of it if the writer ran when its drain ended |
| `TransferWire.AcknowledgedIsOnTheWire` | client/src/openoctopus_client/transfer.py:1250-1291 | in every joint run of slot and wire an accepted success acknowledgement has the size and digest of what was read; the wire carries a beginning of it; the acknowledgement describes the wire exactly when no chunk is missing, and none is if the writer ran when the drain ended, still runs, or has sent the terminal |
| `TransferWire.LostChunksAreAcknowledged` | client/src/openoctopus_client/writer.py:202-214 | for every chunk a run in which it is queued, lost with the writer, and acknowledged |
| `TransferWire.JointStepKeeps` | client/src/openoctopus_client/transfer.py:1238-1270 | what the slot's worker has digested and what its life on the wire has read stay the same bytes |
| `SenderWire.StepKeepsWire` | client/src/openoctopus_client/writer.py:112-198 | in every life each chunk is sent, queued or in hand in read order, although critical frames overtake |
| `ExecSessions.RunsAreFenced` | client/src/openoctopus_client/exec_sessions.py:234-326 | in every run the table is bounded; no process that is being launched or may be running is out of it; with no transition open and an epoch set nothing of another epoch runs, launches or can start; once shutdown converged nothing runs |
| `ExecSessions.OpenTransitionStartsNothing` | client/src/openoctopus_client/exec_sessions.py:486-499 | while a transition is open, also one that failed, no step admits a session or claims a spawn |
| `ExecSessions.TheDeadStayDead` | client/src/openoctopus_client/exec_sessions.py:550-595 | a session that is out of starting and running with its process gone never returns |
| `ExecSessions.StepKeeps` | client/src/openoctopus_client/exec_sessions.py:486-545 | the table, fence and shutdown invariants are kept by every step |
| `ExecSession.StepKeeps` | client/src/openoctopus_client/exec_sessions.py:550-686 | claim, launch, activation, cancellation, settling, termination, exit and removal keep a session's fields, its starter, its lock and its process consistent |
| `ExecSession.ConvergedIsDead` | client/src/openoctopus_client/exec_sessions.py:800-858 | a termination that reports success leaves nothing running and nothing to come, also when the spawn was in flight when it began |
| `ExecSession.SettledKeeps` | client/src/openoctopus_client/exec_sessions.py:615-654 | settling a spawn that is not wanted removes the session only when its process is gone |
| `ExecSessionManager.ExecSessionManager.constructor` | client/src/openoctopus_client/exec_sessions.py:194-211 | an empty table and no policy |
| `ExecSessionManager.ExecSessionManager.Admit` | client/src/openoctopus_client/exec_sessions.py:234-246 | admitted within the bound, or refused for shutdown, policy or capacity, in that order |
| `ExecSessionManager.ExecSessionManager.ClaimSpawn` | client/src/openoctopus_client/exec_sessions.py:550-568 | a spawn is claimed only without shutdown or transition and under the current epoch; otherwise the session is removed |
| `ExecSessionManager.ExecSessionManager.RemoveUnstarted` | client/src/openoctopus_client/exec_sessions.py:668-679 | a session leaves the table exactly when it needs no cleanup, with its spawn over; what stays is as it was, and no other session is touched |
| `ExecSessionManager.ExecSessionManager.ActivateSpawned` | client/src/openoctopus_client/exec_sessions.py:570-595 | a launched session runs only if it is still in the table and starting |
| `ExecSessionManager.ExecSessionManager.ApplyPolicyBegins` | client/src/openoctopus_client/exec_sessions.py:486-493 | a no-op for the current epoch; otherwise the transition opens on exactly the sessions of other epochs |
| `ExecSessionManager.ExecSessionManager.ApplyPolicyEnds` | client/src/openoctopus_client/exec_sessions.py:494-499 | when all have converged, only the new epoch runs |
| `ExecSessionManager.FirstStretch` | client/src/openoctopus_client/exec_sessions.py:800-824 | still starting only behind a claimed spawn that is not over; a suspended termination leaves cleanup unproved and holds the lock; an immediate answer is success, and then the session is dead |
| `ExecSessionManager.ExecSessionManager.TerminateBegins` | client/src/openoctopus_client/exec_sessions.py:769-824 | the manager after the first stretch of a termination, for every caller; success means dead |
| `ExecSessionManager.ExecSessionManager.TerminateResumes` | client/src/openoctopus_client/exec_sessions.py:824-826 | for every caller, after the spawn is over a bound process is terminated; without one the session is ended |
| `ExecSessionManager.ExecSessionManager.TerminateFinishes` | client/src/openoctopus_client/exec_sessions.py:826-858 | for every caller, success exactly when terminate and reap answered and cleanup is complete |
| `ExecSessionManager.ExecSessionManager.SettleSpawned` | client/src/openoctopus_client/exec_sessions.py:615-639 | a session is removed only if nothing is left to clean up, one that stays behind an error or a success needs cleanup, and no other session is touched |
| `ExecSessionManager.ExecSessionManager.MarkIncomplete` | client/src/openoctopus_client/exec_sessions.py:641-654 | a session still in the table is terminating with its handle bound and its cleanup open; one that is gone, and every other, is as it was |
| `HeadTailBuffer.HeadTailBuffer.constructor` | client/src/openoctopus_client/exec_sessions.py:73-82 | an empty log |
| `HeadTailBuffer.HeadTailBuffer.Append` | client/src/openoctopus_client/exec_sessions.py:84-99 | the two regions stand for the whole log; appended = delivered + response-truncated + dropped + retained over the buffer's life |
| `HeadTailBuffer.HeadTailBuffer.Consume` | client/src/openoctopus_client/exec_sessions.py:101-121 | delivers the log cut to the smaller of limit and capacity, reports truncation exactly when something is missing, refuses a limit below one |
| `HeadTailBuffer.HeadTailBuffer.Peek` | client/src/openoctopus_client/exec_sessions.py:123-128 | the log cut to the capacity |
| `HeadTailBuffer.HeadTailBuffer.Contains` | client/src/openoctopus_client/exec_sessions.py:130-137 | finds only text that is in the log, and all of it while nothing was dropped |
| `HeadTailBuffer.FitTwice` | client/src/openoctopus_client/exec_sessions.py:976-982 | cutting twice is cutting once to the smaller size |
| `HeadTailBuffer.AggregateIsTight` | client/src/openoctopus_client/exec_sessions.py:985-1000 | two streams share a limit without waste, neither below half while it has more, counts exact |
| `HeadTailBuffer.ReportCutsTheLogs` | client/src/openoctopus_client/exec_sessions.py:875-895 | a report's two texts are cuts of the two whole logs |
| `Utf8.DecodeEncodedAll` | client/src/openoctopus_client/terminal.py:21 | decoding the encoding of any scalar values gives them back with nothing pending |
| `Utf8.DecodeAppend` | client/src/openoctopus_client/terminal.py:131 | incremental decoding does not depend on where the bytes are cut |
| `Terminal.SplitState` | client/src/openoctopus_client/terminal.py:29-86 | parser state, truncation flag and answers do not depend on where the input is cut |
| `Terminal.SplitText` | client/src/openoctopus_client/terminal.py:112-132 | the text of one call against that of two, and exactly when they agree |
| `Terminal.AnySplit` | client/src/openoctopus_client/terminal.py:29-86 | without text-mode backspaces every cutting into calls gives the same text |
| `Terminal.StaysBoundedAndClean` | client/src/openoctopus_client/terminal.py:58-63 | pending control bytes stay within the limit; the text has no C0 character but LF and TAB and no DEL |
| `Terminal.EscapeIsNotCounted` | client/src/openoctopus_client/terminal.py:40-44 | an escape byte is pending whatever the limit, zero included |
| `Terminal.LimitHoldsExactly` | client/src/openoctopus_client/terminal.py:58-63 | the limit bounds the pending control bytes of every input if and only if it is at least one |
| `Terminal.PrintableTextPasses` | client/src/openoctopus_client/terminal.py:128-132 | printable text comes out unchanged |
| `Terminal.ControlSequenceIsStripped` | client/src/openoctopus_client/terminal.py:40-78 | a control sequence of any length shows nothing, sets the flag exactly when it is too long, and returns to text mode unless it is too long by exactly one byte |
| `Terminal.CommandIsStripped` | client/src/openoctopus_client/terminal.py:58-85 | an operating-system command of any length shows nothing, sets the flag exactly when it is too long, and returns to text mode unless it is too long by exactly one byte, or by two with ST |
| `Terminal.CommandBelowTwo` | client/src/openoctopus_client/terminal.py:58-63 | with a limit below two a command is read as a control sequence |
| `Terminal.CommandsThatLoseTheirTerminator` | client/src/openoctopus_client/terminal.py:58-63 | two commands that leave the parser skipping |
| `Terminal.StaysSettled` | client/src/openoctopus_client/terminal.py:51-57 | an escape is remembered only while a command is skipped |
| `Terminal.StatusReportsAreAnswered` | client/src/openoctopus_client/terminal.py:142-148 | each device status report within the limit is answered once with its own report, and beyond it not at all |
| `Terminal.EveryLineEndIsOneNewline` | client/src/openoctopus_client/terminal.py:36-39 | whatever follows, CR LF leaves state and text as LF does, and so does CR unless an LF comes next |
| `Terminal.BackspaceAfterASplit` | client/src/openoctopus_client/terminal.py:119-123 | any printable ASCII character and a backspace, in one call and in two |
| `TerminalNormalizer.TerminalNormalizer.constructor` | client/src/openoctopus_client/terminal.py:20-27 | text mode, nothing pending |
| `TerminalNormalizer.TerminalNormalizer.Feed` | client/src/openoctopus_client/terminal.py:29-86 | the loop computes the specified state and a clean fragment |
| `TerminalNormalizer.TerminalNormalizer.FeedByte` | client/src/openoctopus_client/terminal.py:33-85 | one byte in every mode |
| `TerminalNormalizer.TerminalNormalizer.ConsumeTextByte` | client/src/openoctopus_client/terminal.py:112-132 | newlines, backspace, tab, controls and decoded text |
| `TerminalNormalizer.TerminalNormalizer.ConsumeControlByte` | client/src/openoctopus_client/terminal.py:58-85 | collecting, truncating and finishing a control sequence |
| `TerminalNormalizer.TerminalNormalizer.Flush` | client/src/openoctopus_client/terminal.py:88-91 | an unfinished character becomes one replacement |
| `TerminalNormalizer.TerminalNormalizer.TakeResponses` | client/src/openoctopus_client/terminal.py:107-110 | each answer is handed over once |
| `History.FoldIsLatest` | frontend/src/chat/model.ts:98-120 | whatever pages arrived, the list is strictly sorted, one message per identifier, nothing pending is persisted, and the rest is what the last page said |
| `History.LatestIsLast` | frontend/src/chat/model.ts:98-102 | the message kept for an identifier is the last copy received |
| `History.UpsertUpdates` | frontend/src/chat/model.ts:98-102 | an upsert is a map update laid out in order |
| `History.OrderAndRepetitionDoNotMatter` | frontend/src/chat/model.ts:104-120 | with agreeing copies the list depends only on which messages were received |
| `History.OldestPageDecides` | frontend/src/chat/model.ts:107-112 | whether older history is missing is what the first page with the oldest loaded message said |
| `History.LastLeaderDecides` | frontend/src/chat/model.ts:107-112 | for all pages, sorted or not and whatever their copies: the flag is that of the last page that began with a message older than everything loaded before it |
| `History.UnsortedPageIsOverruled` | frontend/src/chat/model.ts:107-112 | for any three messages, pages of which the one with the oldest does not decide |
| `History.ChangedCopyIsOverruled` | frontend/src/chat/model.ts:107-112 | the same for a copy that moved |
| `History.BeforeIsAnOrder` | frontend/src/chat/model.ts:122-124 | comparison by time, then identifier, is a strict total order on different identifiers |
| `History.Upsert` | frontend/src/chat/model.ts:98-102 | the map-filling loop and the sort compute the specified list |
| `History.Merge` | frontend/src/chat/model.ts:104-120 | the reduce and the filter compute the specified history |
| `Ndjson.ParseStream` | frontend/src/api/ndjson.ts:16-28 | for every chunking the records of the whole text, and failure at the same record |
| `Ndjson.ParseLines` | frontend/src/api/ndjson.ts:22-25 | one CR stripped, blanks dropped, stop at the first line that does not parse |
| `Ndjson.SplitIsFaithful` | frontend/src/api/ndjson.ts:20-21 | splitting on LF loses nothing and leaves no LF in a line |
| `Ndjson.CutsInBytesDoNotMatter` | frontend/src/api/ndjson.ts:18-19 | streaming decoding gives the whole text, less a byte order mark at its start, for every cutting of the bytes |
| `PdfPages.FootersVisitEveryPage` | client/src/openoctopus_client/document_convert.py:506-515 | following the footers visits pages 1 to total in order, each once, in total/20 answers rounded up |
| `PdfPages.SuggestionsAreAccepted` | client/src/openoctopus_client/document_convert.py:509-513 | every suggestion parses and is accepted |
| `PdfPages.ShownRangeParses` | client/src/openoctopus_client/document_convert.py:439-455 | a written range is accepted exactly when it is ordered, within the document and at most 20 pages |
| `PdfPages.AcceptedRangeIsAllowed` | client/src/openoctopus_client/document_convert.py:446-455 | whatever the script of its digits, only an ordered range within the document of at most 20 pages is accepted |
| `PdfPages.CanonicalExactlyWhenAscii` | client/src/openoctopus_client/document_convert.py:446-452 | an accepted spelling is the canonical one exactly when its digits are ASCII |
| `PdfPages.ForeignDigitsAreAccepted` | client/src/openoctopus_client/document_convert.py:446 | an accepted range whose spelling is not canonical |

## Left out

- ExecSessions.RunsAreFenced: takes a handle's report of complete cleanup as the truth about its process.
- PdfPages.ShownRangeParses: does not model the interpreter's limit on the length of integer literals, beyond which the range is refused with another error.
- History.OldestPageDecides: for pages that are sorted and whose copies agree, as the server sends them; `LastLeaderDecides` covers all pages.
- LocalTransferAdmission.LocalTransferAdmission.Release: a lease is an identifier in the allocator's set rather than an object of its own.
- The worker coroutines of transfer slots and of `start` in the exec manager are step functions, not methods, because they suspend.
- The waiting half of `wait_enqueue_binary`, `drain_binary` and `stop` appears only as the conditions under which a sender's step is enabled.
- Real file-system checks, fingerprints, locks and renames of transfers: a destination is content that is written and then published.
- Directory child authorization hooks of transfers.
- Connection, reconnect and message dispatch; process and pseudo-terminal plumbing.
- Field validation of frames beyond the shape rules of `transfer_end`.
- `new_uuid7`, configuration, command line and identifiers: short functions whose members would be easy.
- Document converters and ZIP or PDF parsing.
- The server package and all user-interface components.
