/**
 One exec session: the fields its coroutines share and where those coroutines are
 suspended.  A step is the code that runs between two suspension points; the admission
 lock is never held across one, so each section under it is part of a single step.
 What a process or the launcher does is an argument of the step.
 */
module ExecSession {
  import opened Basics

  datatype Status = Starting | Running | Exited | Terminating | Terminated

  /** The operating-system side. */
  datatype Process = NoProcess | Launching | Alive | Gone

  /** Where `start` is. */
  datatype Starter =
    | Resolving      // admitted; resolving the directory, nothing claimed
    | InFlight       // claimed; the launcher is at work
    | Launched       // the handle is in a local variable only
    | Unwanted       // so is this one, and it is to be cancelled
    | Bound          // handle recorded; its cancellation is waiting or terminating
    | Leaving        // cancellation settled
    | Left           // nothing more to do: active, or returned

  /** Who called `_terminate`. */
  datatype Caller = Policy(call: nat) | Shutdown | Settle | Other

  /** The session lock, held only by a termination. */
  datatype Lock = Free | WaitingSpawn(caller: Caller) | Calling(caller: Caller)

  datatype Session = Session(
    epoch: int,
    status: Status,
    starter: Starter,
    spawnClaimed: bool,
    spawnDone: bool,
    bound: bool,
    cleanupIncomplete: bool,
    process: Process,
    lock: Lock,
    decided: bool)     // some caller saw it ended and clean, and may remove it

  /** How a termination came back to its caller. */
  datatype Verdict = Suspended | Returned(converged: bool) | Raised

  function Admitted(epoch: int): Session {
    Session(epoch, Starting, Resolving, false, false, false, false, NoProcess, Free, false)
  }

  predicate EndedClean(s: Session) {
    (s.status.Exited? || s.status.Terminated?) && !s.cleanupIncomplete
  }

  // ---- Sections under the admission lock ------------------------------------

  /** The session and whether the table still has it. */
  datatype Placed = Placed(session: Session, inTable: bool)

  function RemoveUnstarted(p: Placed): Placed {
    if !p.inTable then p
    else if p.session.bound && (p.session.cleanupIncomplete || p.session.status.Terminating?) then p
    else Placed(p.session.(spawnDone := true), false)
  }

  function BindSpawned(p: Placed): Placed {
    if p.inTable then p.(session := p.session.(bound := true, spawnDone := true)) else p
  }

  function MarkIncomplete(p: Placed): Placed {
    if p.inTable then
      p.(session := p.session.(bound := true, status := Terminating, cleanupIncomplete := true, spawnDone := true))
    else p
  }

  predicate MayActivate(p: Placed, shuttingDown: bool) {
    !shuttingDown && p.inTable && p.session.status.Starting?
  }

  function Activated(s: Session): Session {
    s.(bound := true, status := Running, spawnDone := true, starter := Left)
  }

  // ---- Termination under the session lock -----------------------------------

  /** From the point where the spawn is known to be over. */
  function AfterSpawn(s: Session, caller: Caller, raised: bool): (Session, Verdict) {
    if s.bound then (s.(status := Terminating, lock := Calling(caller)), Suspended)
    else
      (s.(status := Terminated, cleanupIncomplete := false, lock := Free), if raised then Raised else Returned(true))
  }

  function TerminateStarts(s: Session, caller: Caller): (Session, Verdict) {
    if EndedClean(s) then (s, Returned(true))
    else
      var deferred := s.spawnClaimed && !s.spawnDone;
      var fenced := s.(status := if deferred then s.status else Terminating, cleanupIncomplete := true);
      if !s.spawnDone then (fenced.(lock := WaitingSpawn(caller)), Suspended) else AfterSpawn(fenced, caller, false)
  }

  /** `clean`: terminate and reap both answered and the handle reports complete cleanup. */
  function TerminateEnds(s: Session, clean: bool, raised: bool): (Session, Verdict) {
    var done :=
      if clean then s.(status := Terminated, cleanupIncomplete := false, process := Gone, lock := Free)
      else s.(status := Terminating, cleanupIncomplete := true, lock := Free);
    (done, if raised then Raised else Returned(clean))
  }

  /** The rest of `_settle_spawned` once its termination came back. */
  function Settled(p: Placed, v: Verdict, handleIncomplete: bool): Placed {
    var leaving := p.(session := p.session.(starter := Leaving));
    if v.Suspended? then p
    else if v.Raised? then
      if EndedClean(p.session) && !handleIncomplete then RemoveUnstarted(leaving) else MarkIncomplete(leaving)
    else if v.converged && !p.session.cleanupIncomplete then RemoveUnstarted(leaving)
    else leaving
  }

  function WithVerdict(p: Placed, r: (Session, Verdict), caller: Caller, handleIncomplete: bool): Placed {
    var next := p.(session := r.0);
    if caller.Settle? then Settled(next, r.1, handleIncomplete) else next
  }

  // ---- Steps ----------------------------------------------------------------

  datatype Step =
    | GivesUp                      // refused claim, failed preparation, or cancelled while preparing
    | LaunchFails
    | LaunchLands
    | Activate(shuttingDown: bool)
    | CancelLaunched
    | Bind
    | SettleAborts(handleIncomplete: bool)
    | Leave(removes: bool)
    | Terminate(caller: Caller, handleIncomplete: bool)
    | SpawnSeen(raised: bool, handleIncomplete: bool)
    | Ends(clean: bool, raised: bool, handleIncomplete: bool)
    | ExitSeen(clean: bool)
    | WaitFails
    | Decide
    | Remove

  predicate Enabled(p: Placed, step: Step) {
    var s := p.session;
    match step
    case GivesUp => s.starter.Resolving?
    case LaunchFails => s.starter.InFlight?
    case LaunchLands => s.starter.InFlight?
    case Activate(_) => s.starter.Launched?
    case CancelLaunched => s.starter.Launched?
    case Bind => s.starter.Unwanted?
    case SettleAborts(_) => s.starter.Bound? && (s.lock.Free? || s.lock.caller != Settle)
    case Leave(_) => s.starter.Leaving?
    case Terminate(caller, _) => s.lock.Free? && (caller.Settle? ==> s.starter.Bound?)
    case SpawnSeen(_, _) => s.lock.WaitingSpawn? && s.spawnDone
    case Ends(_, _, _) => s.lock.Calling?
    case ExitSeen(_) => s.starter.Left? && s.bound
    case WaitFails => s.starter.Left? && s.bound
    case Decide => EndedClean(s)
    case Remove => s.decided
  }

  function After(p: Placed, step: Step): Placed
    requires Enabled(p, step)
  {
    var s := p.session;
    match step
    case GivesUp => RemoveUnstarted(p.(session := s.(starter := Left)))
    case LaunchFails => RemoveUnstarted(p.(session := s.(starter := Left, process := NoProcess)))
    case LaunchLands => p.(session := s.(starter := Launched, process := Alive))
    case Activate(shuttingDown) =>
      p.(session := if MayActivate(p, shuttingDown) then Activated(s) else s.(starter := Unwanted))
    case CancelLaunched => p.(session := s.(starter := Unwanted))
    case Bind => BindSpawned(p.(session := s.(starter := Bound)))
    case SettleAborts(handleIncomplete) => Settled(p, Raised, handleIncomplete)
    case Leave(removes) =>
      var left := p.(session := s.(starter := Left));
      if removes then RemoveUnstarted(left) else left
    case Terminate(caller, handleIncomplete) => WithVerdict(p, TerminateStarts(s, caller), caller, handleIncomplete)
    case SpawnSeen(raised, handleIncomplete) =>
      WithVerdict(p, AfterSpawn(s, s.lock.caller, raised), s.lock.caller, handleIncomplete)
    case Ends(clean, raised, handleIncomplete) =>
      WithVerdict(p, TerminateEnds(s, clean, raised), s.lock.caller, handleIncomplete)
    case ExitSeen(clean) =>
      p.(session := s.(
        cleanupIncomplete := s.cleanupIncomplete || !clean,
        status := if s.status.Running? then Exited else s.status,
        process := if clean then Gone else s.process))
    case WaitFails => p.(session := s.(status := Terminating, cleanupIncomplete := true))
    case Decide => p.(session := s.(decided := true))
    case Remove => p.(inTable := false)
  }

  /** The verdict a step hands to the termination's caller, if it hands over one. */
  function VerdictOf(p: Placed, step: Step): (Caller, Verdict)
    requires Enabled(p, step)
  {
    match step
    case Terminate(caller, _) => (caller, TerminateStarts(p.session, caller).1)
    case SpawnSeen(raised, _) => (p.session.lock.caller, AfterSpawn(p.session, p.session.lock.caller, raised).1)
    case Ends(clean, raised, _) => (p.session.lock.caller, TerminateEnds(p.session, clean, raised).1)
    case _ => (Other, Suspended)
  }

  // ---- What every step keeps ------------------------------------------------

  /** Nothing of the session runs and nothing can be started for it again. */
  predicate Dead(s: Session) {
    && !s.status.Starting? && !s.status.Running?
    && (s.process.NoProcess? || s.process.Gone?)
  }

  predicate StarterInv(s: Session, inTable: bool) {
    match s.starter
    case Resolving =>
      && inTable && !s.spawnClaimed && !s.spawnDone && !s.bound && s.process.NoProcess?
      && (s.status.Starting? || (s.status.Terminating? && s.cleanupIncomplete))
    case InFlight => inTable && s.spawnClaimed && !s.spawnDone && !s.bound && s.process.Launching? && s.status.Starting?
    case Launched => inTable && s.spawnClaimed && !s.spawnDone && !s.bound && s.process.Alive? && s.status.Starting?
    case Unwanted => inTable && s.spawnClaimed && !s.spawnDone && !s.bound && s.process.Alive? && s.status.Starting?
    case Bound =>
      && s.spawnDone && s.bound && !s.process.Launching? && !s.status.Running? && (inTable || !s.status.Starting?)
    case Leaving => s.spawnDone && s.bound && !s.process.Launching? && !s.status.Running? && !s.status.Starting?
    case Left =>
      && s.spawnDone && !s.process.Launching? && (s.bound || s.process.NoProcess?)
      && (inTable ==> !s.status.Starting?)
  }

  predicate LockInv(s: Session) {
    && (!s.lock.Free? ==> s.cleanupIncomplete)
    && (s.lock.Calling? ==> s.status.Terminating? && s.spawnDone && s.bound)
    && (!s.lock.Free? && s.lock.caller.Settle? ==> s.starter.Bound?)
  }

  /** A process that may be running belongs to a session that is in the table and not done. */
  predicate ProcessInv(s: Session, inTable: bool) {
    && (s.process.Alive? || s.process.Launching? ==> inTable && !EndedClean(s) && !s.decided)
    && (s.decided ==> Dead(s) && s.spawnDone)
    && (EndedClean(s) ==> Dead(s))
  }

  predicate Inv(p: Placed) {
    StarterInv(p.session, p.inTable) && LockInv(p.session) && ProcessInv(p.session, p.inTable)
  }

  /** What each step is proved to keep. */
  predicate Kept(p: Placed, next: Placed) {
    && Inv(next)
    && (next.inTable ==> p.inTable)
    && (Dead(p.session) ==> Dead(next.session))
    && next.session.epoch == p.session.epoch
    && next.session.spawnClaimed == p.session.spawnClaimed
  }

  lemma StarterKeeps(p: Placed, step: Step)
    requires Inv(p) && Enabled(p, step)
    requires step.GivesUp? || step.LaunchFails? || step.LaunchLands? || step.Activate? || step.CancelLaunched?
             || step.Bind?
    ensures Kept(p, After(p, step))
  {
  }

  lemma SettledKeeps(p: Placed, v: Verdict, handleIncomplete: bool)
    requires Inv(p) && p.session.starter.Bound? && (p.session.lock.Free? || p.session.lock.caller != Settle)
    requires v.Returned? ==> !p.session.status.Starting?
    ensures Kept(p, Settled(p, v, handleIncomplete))
  {
  }

  lemma LeaveKeeps(p: Placed, step: Step)
    requires Inv(p) && Enabled(p, step) && step.Leave?
    ensures Kept(p, After(p, step))
  {
  }

  lemma VerdictKeeps(p: Placed, r: (Session, Verdict), caller: Caller, handleIncomplete: bool)
    requires Kept(p, p.(session := r.0))
    requires caller.Settle? && !r.1.Suspended? ==>
               r.0.starter.Bound? && r.0.lock.Free? && (r.1.Returned? ==> !r.0.status.Starting?)
    ensures Kept(p, WithVerdict(p, r, caller, handleIncomplete))
  {
    hide Inv, Dead;
    if caller.Settle? && !r.1.Suspended? {
      SettledKeeps(p.(session := r.0), r.1, handleIncomplete);
    }
  }

  lemma TerminateKeeps(p: Placed, caller: Caller)
    requires Inv(p) && p.session.lock.Free? && (caller.Settle? ==> p.session.starter.Bound?)
    ensures var r := TerminateStarts(p.session, caller);
            && Kept(p, p.(session := r.0)) && r.0.starter == p.session.starter
            && (!r.1.Suspended? ==> r.0.lock.Free? && !r.0.status.Starting?)
  {
  }

  lemma SpawnSeenKeeps(p: Placed, raised: bool)
    requires Inv(p) && p.session.lock.WaitingSpawn? && p.session.spawnDone
    ensures var r := AfterSpawn(p.session, p.session.lock.caller, raised);
            && Kept(p, p.(session := r.0)) && r.0.starter == p.session.starter
            && (!r.1.Suspended? ==> r.0.lock.Free? && !r.0.status.Starting?)
  {
  }

  lemma EndsKeeps(p: Placed, clean: bool, raised: bool)
    requires Inv(p) && p.session.lock.Calling?
    ensures var r := TerminateEnds(p.session, clean, raised);
            && Kept(p, p.(session := r.0)) && r.0.starter == p.session.starter
            && r.0.lock.Free? && !r.0.status.Starting?
  {
  }

  lemma OtherKeeps(p: Placed, step: Step)
    requires Inv(p) && Enabled(p, step)
    requires step.ExitSeen? || step.WaitFails? || step.Decide? || step.Remove?
    ensures Kept(p, After(p, step))
  {
  }

  lemma StepKeeps(p: Placed, step: Step)
    requires Inv(p) && Enabled(p, step)
    ensures Kept(p, After(p, step))
  {
    hide Kept, StarterInv, ProcessInv, WithVerdict, Settled, TerminateStarts, TerminateEnds, AfterSpawn,
         RemoveUnstarted, BindSpawned, MarkIncomplete, EndedClean, Dead;
    match step
    case SettleAborts(incomplete) => SettledKeeps(p, Raised, incomplete);
    case Leave(_) => LeaveKeeps(p, step);
    case Terminate(caller, incomplete) =>
      TerminateKeeps(p, caller);
      VerdictKeeps(p, TerminateStarts(p.session, caller), caller, incomplete);
    case SpawnSeen(raised, incomplete) =>
      SpawnSeenKeeps(p, raised);
      VerdictKeeps(p, AfterSpawn(p.session, p.session.lock.caller, raised), p.session.lock.caller, incomplete);
    case Ends(clean, raised, incomplete) =>
      EndsKeeps(p, clean, raised);
      VerdictKeeps(p, TerminateEnds(p.session, clean, raised), p.session.lock.caller, incomplete);
    case ExitSeen(_) => OtherKeeps(p, step);
    case WaitFails => OtherKeeps(p, step);
    case Decide => OtherKeeps(p, step);
    case Remove => OtherKeeps(p, step);
    case _ => StarterKeeps(p, step);
  }

  /** A termination that returns success leaves nothing running and nothing to come. */
  lemma ConvergedIsDead(p: Placed, step: Step)
    requires Inv(p) && Enabled(p, step) && VerdictOf(p, step).1 == Returned(true)
    ensures Dead(After(p, step).session)
  {
    hide StarterInv, WithVerdict, Settled;
    match step
    case Terminate(caller, incomplete) =>
      TerminateKeeps(p, caller);
      var r := TerminateStarts(p.session, caller);
      DeadThroughVerdict(p, r, caller, incomplete);
    case SpawnSeen(raised, incomplete) =>
      SpawnSeenKeeps(p, raised);
      DeadThroughVerdict(p, AfterSpawn(p.session, p.session.lock.caller, raised), p.session.lock.caller, incomplete);
    case Ends(clean, raised, incomplete) =>
      EndsKeeps(p, clean, raised);
      DeadThroughVerdict(p, TerminateEnds(p.session, clean, raised), p.session.lock.caller, incomplete);
  }

  lemma DeadThroughVerdict(p: Placed, r: (Session, Verdict), caller: Caller, handleIncomplete: bool)
    requires Dead(r.0) && r.1 == Returned(true)
    ensures Dead(WithVerdict(p, r, caller, handleIncomplete).session)
  {
  }
}
