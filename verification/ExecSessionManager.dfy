/**
 The manager object.  Each method is one stretch of code between suspension points:
 a section under the admission lock with what follows it, or a stretch of
 `_terminate_locked`; each keeps the invariant that the fence theorems rest on.
 */
module ExecSessionManager {
  import opened Basics
  import S = ExecSession
  import M = ExecSessions

  /** Fence the session unless its spawn is in flight, then wait for the spawn or go on. */
  method FirstStretch(before: S.Session, caller: S.Caller) returns (session: S.Session, v: S.Verdict)
    ensures (session, v) == S.TerminateStarts(before, caller)
    ensures session.status.Starting? ==> before.spawnClaimed && !before.spawnDone
    ensures v.Suspended? ==> session.cleanupIncomplete && !session.lock.Free? && session.lock.caller == caller
    ensures !v.Suspended? ==> v == S.Returned(true) && S.EndedClean(session)
    ensures !v.Suspended? && before.lock.Free? && (exists inTable :: S.Inv(S.Placed(before, inTable))) ==>
            S.Dead(session)
  {
    session := before;
    if (session.status.Exited? || session.status.Terminated?) && !session.cleanupIncomplete {
      return session, S.Returned(true);
    }
    if !(session.spawnClaimed && !session.spawnDone) {
      session := session.(status := S.Terminating);
    }
    session := session.(cleanupIncomplete := true);
    if !session.spawnDone {
      return session.(lock := S.WaitingSpawn(caller)), S.Suspended;
    }
    if session.bound {
      return session.(status := S.Terminating, lock := S.Calling(caller)), S.Suspended;
    }
    return session.(status := S.Terminated, cleanupIncomplete := false, lock := S.Free), S.Returned(true);
  }

  /** What one stretch of a termination does to the manager, for whichever caller. */
  lemma StretchIs(m: M.Manager, k: nat, step: S.Step, caller: S.Caller, r: (S.Session, S.Verdict),
                  handleIncomplete: bool)
    requires M.Inv(m) && M.Enabled(m, M.SessionStep(k, step))
    requires S.VerdictOf(M.At(m, k), step) == (caller, r.1)
    requires S.After(M.At(m, k), step) == S.WithVerdict(M.At(m, k), r, caller, handleIncomplete)
    ensures M.After(m, M.SessionStep(k, step)) == Delivered(m, k, r, caller, handleIncomplete)
    ensures M.Inv(Delivered(m, k, r, caller, handleIncomplete))
    ensures r.1 == S.Returned(true) ==> S.Dead(Delivered(m, k, r, caller, handleIncomplete).sessions[k])
  {
    M.StepKeeps(m, M.SessionStep(k, step));
    assert S.Inv(M.At(m, k));
    if r.1 == S.Returned(true) {
      S.ConvergedIsDead(M.At(m, k), step);
    }
    hide M.Inv, S.Dead, S.After, S.VerdictOf, S.Enabled, S.Inv, S.WithVerdict;
  }

  /** A stretch is over: the session is written back, settling goes on, the caller's list is updated. */
  function Delivered(m: M.Manager, k: nat, r: (S.Session, S.Verdict), caller: S.Caller,
                     handleIncomplete: bool): (n: M.Manager)
    requires M.Has(m, k)
    ensures |n.sessions| == |m.sessions|
  {
    M.Struck(M.Store(m, k, S.WithVerdict(M.At(m, k), r, caller, handleIncomplete)), k, (caller, r.1))
  }

  lemma StoreStays(m: M.Manager, k: nat, s: S.Session)
    requires M.Has(m, k)
    ensures M.Store(m, k, S.Placed(s, k in m.table)) == m.(sessions := m.sessions[k := s])
  {
    assert k in m.table ==> m.table + {k} == m.table;
    assert k !in m.table ==> m.table - {k} == m.table;
  }

  /** A session that must stay reachable: its process is bound and not known to be gone. */
  predicate NeedsCleanup(s: S.Session) {
    s.bound && (s.cleanupIncomplete || s.status.Terminating?)
  }

  /** Nothing but session `k` was touched. */
  ghost predicate OthersStand(before: seq<S.Session>, table: set<nat>, after: seq<S.Session>, table': set<nat>,
                              k: nat)
  {
    && |after| == |before| && table' - {k} == table - {k}
    && forall j | 0 <= j < |after| && j != k :: after[j] == before[j]
  }

  class ExecSessionManager {
    const maxSessions: nat
    var sessions: seq<S.Session>
    var table: set<nat>
    var policyEpoch: Option<int>
    var transition: bool
    var call: Option<M.PolicyCall>
    var calls: nat
    var shuttingDown: bool
    var closing: Option<set<nat>>

    function State(): M.Manager
      reads this
    {
      M.Manager(maxSessions, sessions, table, policyEpoch, transition, call, calls, shuttingDown, closing)
    }

    ghost predicate Valid()
      reads this
    {
      M.Inv(State())
    }

    constructor (maxSessions: nat)
      ensures Valid() && State() == M.New(maxSessions)
    {
      this.maxSessions := maxSessions;
      sessions, table, policyEpoch, transition, call, calls := [], {}, None, false, None, 0;
      shuttingDown, closing := false, None;
    }

    /** The admission section of `start`. */
    method Admit(epoch: int) returns (r: Result<nat, M.Refusal>)
      requires Valid()
      modifies this`sessions, this`table
      ensures Valid() && State() == M.Admit(old(State()), epoch)
      ensures r.Ok? ==> r.value in table && sessions[r.value] == S.Admitted(epoch)
      ensures M.AdmissionRefusal(old(State()), epoch) == if r.Ok? then None else Some(r.error)
    {
      hide M.Inv;
      M.AdmitKeeps(State(), epoch);
      if shuttingDown {
        return Err(M.ShuttingDown);
      }
      if transition {
        return Err(M.PolicyChanging);
      }
      if policyEpoch.Some? && epoch != policyEpoch.value {
        return Err(M.PolicyChanging);
      }
      if |table| >= maxSessions {
        return Err(M.Full);
      }
      r := Ok(|sessions|);
      table := table + {|sessions|};
      sessions := sessions + [S.Admitted(epoch)];
    }

    method RemoveUnstarted(k: nat)
      requires k < |sessions|
      modifies this`sessions, this`table
      ensures State() == M.Store(old(State()), k, S.RemoveUnstarted(M.At(old(State()), k)))
      ensures k in table ==> sessions[k] == old(sessions[k]) && NeedsCleanup(sessions[k])
      ensures k in old(table) && k !in table ==> !NeedsCleanup(old(sessions[k])) && sessions[k].spawnDone
      ensures OthersStand(old(sessions), old(table), sessions, table, k)
    {
      var session := sessions[k];
      if k in table && !NeedsCleanup(session) {
        table := table - {k};
        if !session.spawnDone {
          sessions := sessions[k := session.(spawnDone := true)];
        }
      }
      assert old(table) + {k} == old(table) <==> k in old(table);
      assert k !in old(table) ==> old(table) - {k} == old(table);
      assert sessions[k := sessions[k]] == sessions;
      assert session.spawnDone ==> session.(spawnDone := true) == session;
    }

    /** `_claim_spawn`, then the launch, or the removal of a session that may not start. */
    method ClaimSpawn(k: nat) returns (claimed: bool)
      requires Valid() && k < |sessions| && sessions[k].starter.Resolving?
      modifies this`sessions, this`table
      ensures Valid() && State() == M.Claim(old(State()), k)
      ensures claimed ==>
                && !old(transition) && !old(shuttingDown)
                && (old(policyEpoch).None? || old(policyEpoch).value == sessions[k].epoch)
    {
      hide M.Inv, S.RemoveUnstarted, M.Store;
      M.ClaimKeeps(State(), k);
      claimed := && !shuttingDown && !transition && k in table && sessions[k].status.Starting?
                 && (policyEpoch.None? || sessions[k].epoch == policyEpoch.value);
      if claimed {
        sessions := sessions[k := sessions[k].(spawnClaimed := true, starter := S.InFlight, process := S.Launching)];
      } else {
        sessions := sessions[k := sessions[k].(starter := S.Left)];
        RemoveUnstarted(k);
        StoreTwice(old(State()), k, old(sessions[k]).(starter := S.Left),
                   S.RemoveUnstarted(S.Placed(old(sessions[k]).(starter := S.Left), k in old(table))));
      }
    }

    /** `_activate_spawned`: an unwanted process is left to be cancelled. */
    method ActivateSpawned(k: nat) returns (active: bool)
      requires Valid() && k < |sessions| && sessions[k].starter.Launched?
      modifies this`sessions
      ensures Valid() && State() == M.After(old(State()), M.SessionStep(k, S.Activate(shuttingDown)))
      ensures active ==> k in table && sessions[k].status.Running?
    {
      M.StepKeeps(State(), M.SessionStep(k, S.Activate(shuttingDown)));
      hide M.Inv;
      active := !shuttingDown && k in table && sessions[k].status.Starting?;
      if active {
        sessions := sessions[k := sessions[k].(
          bound := true, status := S.Running, spawnDone := true, starter := S.Left)];
      } else {
        sessions := sessions[k := sessions[k].(starter := S.Unwanted)];
      }
      assert k in table ==> table + {k} == table;
      assert k !in table ==> table - {k} == table;
    }

    /** `apply_policy` up to its first suspension; the answer says whether there is work. */
    method ApplyPolicyBegins(epoch: int) returns (open: bool)
      requires Valid() && call.None?
      modifies this`transition, this`call, this`calls
      ensures Valid() && State() == M.PolicyBegins(old(State()), epoch)
      ensures !open <==> !old(transition) && policyEpoch == Some(epoch)
    {
      M.PolicyBeginsKeeps(State(), epoch);
      hide M.Inv;
      if !transition && policyEpoch == Some(epoch) {
        return false;
      }
      transition := true;
      var others: set<nat> := {};
      for k := 0 to |sessions|
        invariant others == set j | 0 <= j < k && j in table && sessions[j].epoch != epoch
      {
        if k in table && sessions[k].epoch != epoch {
          others := others + {k};
        }
      }
      call, calls := Some(M.PolicyCall(epoch, others)), calls + 1;
      open := true;
    }

    /** Every old session converged: from here on only the new epoch runs. */
    method ApplyPolicyEnds()
      requires Valid() && call.Some? && call.value.todo == {}
      modifies this`policyEpoch, this`transition, this`call
      ensures Valid() && State() == M.PolicyEnds(old(State()))
      ensures M.RunsOnly(State(), old(call).value.epoch)
    {
      M.StepKeeps(State(), M.PolicyEndsStep);
      policyEpoch, transition, call := Some(call.value.epoch), false, None;
      FenceHolds(State());
    }

    /** `_mark_spawn_cleanup_incomplete`. */
    method MarkIncomplete(k: nat)
      requires k < |sessions|
      modifies this`sessions
      ensures State() == M.Store(old(State()), k, S.MarkIncomplete(M.At(old(State()), k)))
      ensures k in table ==>
              NeedsCleanup(sessions[k]) && sessions[k].cleanupIncomplete && sessions[k].status.Terminating?
      ensures k !in table ==> sessions == old(sessions)
      ensures OthersStand(old(sessions), old(table), sessions, table, k)
    {
      StoreStays(State(), k, S.MarkIncomplete(M.At(State(), k)).session);
      assert sessions[k := sessions[k]] == sessions;
      if k in table {
        sessions := sessions[k := sessions[k].(
          bound := true, status := S.Terminating, cleanupIncomplete := true, spawnDone := true)];
      }
    }

    /** The rest of `_settle_spawned` once its termination came back. */
    method SettleSpawned(k: nat, v: S.Verdict, handleIncomplete: bool)
      requires k < |sessions|
      modifies this`sessions, this`table
      ensures State() == M.Store(old(State()), k, S.Settled(M.At(old(State()), k), v, handleIncomplete))
      ensures v.Raised? || v == S.Returned(true) ==>
                k in table ==> NeedsCleanup(sessions[k]) || old(sessions[k]).cleanupIncomplete
      ensures k in old(table) && k !in table ==> !NeedsCleanup(old(sessions[k])) && !old(sessions[k]).cleanupIncomplete
      ensures OthersStand(old(sessions), old(table), sessions, table, k)
    {
      hide S.RemoveUnstarted, S.MarkIncomplete, M.Store;
      var session := sessions[k];
      StoreStays(State(), k, session);
      assert sessions[k := session] == sessions;
      if !v.Suspended? {
        var leaving := session.(starter := S.Leaving);
        StoreStays(State(), k, leaving);
        sessions := sessions[k := leaving];
        if v.Raised? && !(S.EndedClean(session) && !handleIncomplete) {
          MarkIncomplete(k);
          StoreTwice(old(State()), k, leaving, S.MarkIncomplete(S.Placed(leaving, k in table)));
        } else if v.Raised? || (v.converged && !session.cleanupIncomplete) {
          RemoveUnstarted(k);
          StoreTwice(old(State()), k, leaving, S.RemoveUnstarted(S.Placed(leaving, k in old(table))));
        }
      }
    }

    /** Hand a stretch's outcome to its caller. */
    method Deliver(k: nat, session: S.Session, v: S.Verdict, caller: S.Caller, handleIncomplete: bool)
      requires k < |sessions|
      modifies this`sessions, this`table, this`call, this`closing
      ensures State() == Delivered(old(State()), k, (session, v), caller, handleIncomplete)
    {
      hide M.Store, S.Settled, M.Struck;
      StoreStays(State(), k, session);
      sessions := sessions[k := session];
      if caller.Settle? {
        SettleSpawned(k, v, handleIncomplete);
        StoreTwice(old(State()), k, session, S.Settled(S.Placed(session, k in old(table)), v, handleIncomplete));
      }
      Strike(k, caller, v);
    }

    /** `_terminate_locked` up to a suspension or the answer, for the caller that got the lock. */
    method TerminateBegins(k: nat, caller: S.Caller, handleIncomplete: bool) returns (v: S.Verdict)
      requires Valid() && k < |sessions| && M.Enabled(State(), M.SessionStep(k, S.Terminate(caller, handleIncomplete)))
      modifies this`sessions, this`table, this`call, this`closing
      ensures Valid() && State() == M.After(old(State()), M.SessionStep(k, S.Terminate(caller, handleIncomplete)))
      ensures v == S.Returned(true) ==> S.Dead(sessions[k])
    {
      hide M.Inv, S.Dead, S.TerminateStarts, M.After, Delivered, S.WithVerdict;
      var outcome := S.TerminateStarts(sessions[k], caller);
      StretchIs(State(), k, S.Terminate(caller, handleIncomplete), caller, outcome, handleIncomplete);
      var session;
      session, v := FirstStretch(sessions[k], caller);
      Deliver(k, session, v, caller, handleIncomplete);
    }

    /** The spawn is over: terminate the process if there is one. */
    method TerminateResumes(k: nat, raised: bool, handleIncomplete: bool) returns (v: S.Verdict)
      requires Valid() && k < |sessions| && sessions[k].lock.WaitingSpawn? && sessions[k].spawnDone
      modifies this`sessions, this`table, this`call, this`closing
      ensures Valid() && State() == M.After(old(State()), M.SessionStep(k, S.SpawnSeen(raised, handleIncomplete)))
      ensures v == S.Returned(true) ==> S.Dead(sessions[k])
    {
      hide M.Inv, S.Dead, M.After, Delivered, S.WithVerdict;
      var session, caller := sessions[k], sessions[k].lock.caller;
      var outcome := S.AfterSpawn(session, caller, raised);
      StretchIs(State(), k, S.SpawnSeen(raised, handleIncomplete), caller, outcome, handleIncomplete);
      if session.bound {
        session, v := session.(status := S.Terminating, lock := S.Calling(caller)), S.Suspended;
      } else {
        session := session.(status := S.Terminated, cleanupIncomplete := false, lock := S.Free);
        v := if raised then S.Raised else S.Returned(true);
      }
      Deliver(k, session, v, caller, handleIncomplete);
    }

    /** Terminate and reap came back. */
    method TerminateFinishes(k: nat, clean: bool, raised: bool, handleIncomplete: bool) returns (v: S.Verdict)
      requires Valid() && k < |sessions| && sessions[k].lock.Calling?
      modifies this`sessions, this`table, this`call, this`closing
      ensures Valid() && State() == M.After(old(State()), M.SessionStep(k, S.Ends(clean, raised, handleIncomplete)))
      ensures v == S.Returned(true) ==> clean && S.Dead(sessions[k])
    {
      hide M.Inv, S.Dead, M.After, Delivered, S.WithVerdict;
      var session, caller := sessions[k], sessions[k].lock.caller;
      var outcome := S.TerminateEnds(session, clean, raised);
      StretchIs(State(), k, S.Ends(clean, raised, handleIncomplete), caller, outcome, handleIncomplete);
      session := session.(cleanupIncomplete := !clean, lock := S.Free);
      if clean {
        session := session.(status := S.Terminated, process := S.Gone);
      } else {
        session := session.(status := S.Terminating);
      }
      v := if raised then S.Raised else S.Returned(clean);
      Deliver(k, session, v, caller, handleIncomplete);
    }

    method Strike(k: nat, caller: S.Caller, v: S.Verdict)
      modifies this`call, this`closing
      ensures State() == M.Struck(old(State()), k, (caller, v))
    {
      if v == S.Returned(true) {
        if caller.Policy? && call.Some? && caller.call == calls {
          call := Some(call.value.(todo := call.value.todo - {k}));
        }
        if caller.Shutdown? && closing.Some? {
          closing := Some(closing.value - {k});
        }
      }
    }
  }

  lemma StoreTwice(m: M.Manager, k: nat, s: S.Session, p: S.Placed)
    requires M.Has(m, k)
    ensures M.Store(m.(sessions := m.sessions[k := s]), k, p) == M.Store(m, k, p)
  {
  }

  lemma FenceHolds(m: M.Manager)
    requires M.Inv(m) && !m.transition && m.policyEpoch.Some?
    ensures M.RunsOnly(m, m.policyEpoch.value)
  {
    forall k | 0 <= k < |m.sessions| ensures M.Live(m.sessions[k]) ==> k in m.table && !S.Dead(m.sessions[k]) {
      M.LiveIsHeld(m.sessions[k], k in m.table);
    }
    hide S.Inv, M.Live;
  }
}
