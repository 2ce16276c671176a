/**
 The exec session manager: a bounded table, a policy epoch with a transition that is
 open while sessions of other epochs are being stopped, and shutdown.  Policy changes
 are applied one at a time; everything else interleaves freely.
 */
module ExecSessions {
  import opened Basics
  import S = ExecSession

  type Session = S.Session

  /** A running `apply_policy`: its target and the sessions that have not converged yet. */
  datatype PolicyCall = PolicyCall(epoch: int, todo: set<nat>)

  datatype Manager = Manager(
    maxSessions: nat,
    sessions: seq<Session>,       // every session ever admitted
    table: set<nat>,              // those the manager still holds
    policyEpoch: Option<int>,
    transition: bool,
    call: Option<PolicyCall>,
    calls: nat,
    shuttingDown: bool,
    closing: Option<set<nat>>)    // what shutdown still waits for

  function New(maxSessions: nat): Manager {
    Manager(maxSessions, [], {}, None, false, None, 0, false, None)
  }

  predicate Has(m: Manager, k: nat) {
    k < |m.sessions|
  }

  function At(m: Manager, k: nat): S.Placed
    requires Has(m, k)
  {
    S.Placed(m.sessions[k], k in m.table)
  }

  /** Write a session back and keep or drop its table entry. */
  function Store(m: Manager, k: nat, p: S.Placed): Manager
    requires Has(m, k)
  {
    m.(sessions := m.sessions[k := p.session], table := if p.inTable then m.table + {k} else m.table - {k})
  }

  // ---- Sections under the admission lock ------------------------------------

  datatype Refusal = ShuttingDown | PolicyChanging | Full

  function AdmissionRefusal(m: Manager, epoch: int): Option<Refusal> {
    if m.shuttingDown then Some(ShuttingDown)
    else if m.transition then Some(PolicyChanging)
    else if m.policyEpoch.Some? && epoch != m.policyEpoch.value then Some(PolicyChanging)
    else if |m.table| >= m.maxSessions then Some(Full)
    else None
  }

  function Admit(m: Manager, epoch: int): Manager {
    if AdmissionRefusal(m, epoch).Some? then m
    else m.(sessions := m.sessions + [S.Admitted(epoch)], table := m.table + {|m.sessions|})
  }

  predicate MayClaim(m: Manager, k: nat)
    requires Has(m, k)
  {
    && !m.shuttingDown && !m.transition
    && k in m.table && m.sessions[k].status.Starting?
    && (m.policyEpoch.None? || m.sessions[k].epoch == m.policyEpoch.value)
  }

  /** `_claim_spawn`; on success the launch task is created in the same step. */
  function Claim(m: Manager, k: nat): Manager
    requires Has(m, k) && m.sessions[k].starter.Resolving?
  {
    if MayClaim(m, k) then
      m.(sessions := m.sessions[k := m.sessions[k].(
           spawnClaimed := true, starter := S.InFlight, process := S.Launching)])
    else Store(m, k, S.After(At(m, k), S.GivesUp))
  }

  function PolicyBegins(m: Manager, epoch: int): Manager {
    if !m.transition && m.policyEpoch == Some(epoch) then m
    else
      var others := set k | 0 <= k < |m.sessions| && k in m.table && m.sessions[k].epoch != epoch;
      m.(transition := true, call := Some(PolicyCall(epoch, others)), calls := m.calls + 1)
  }

  function PolicyEnds(m: Manager): Manager
    requires m.call.Some?
  {
    m.(policyEpoch := Some(m.call.value.epoch), transition := false, call := None)
  }

  // ---- Steps ----------------------------------------------------------------

  datatype Step =
    | AdmitStep(epoch: int)
    | ClaimStep(session: nat)
    | SessionStep(session: nat, step: S.Step)
    | PolicyBeginsStep(epoch: int)
    | PolicyEndsStep
    | PolicyFailsStep
    | ShutdownStep

  /** A termination is called by whoever has the session on its list. */
  predicate MayCall(m: Manager, k: nat, caller: S.Caller) {
    match caller
    case Policy(n) => m.call.Some? && n == m.calls && k in m.call.value.todo
    case Shutdown => m.closing.Some? && k in m.closing.value
    case _ => true
  }

  predicate Enabled(m: Manager, s: Step) {
    match s
    case AdmitStep(_) => true
    case ClaimStep(k) => Has(m, k) && m.sessions[k].starter.Resolving?
    case SessionStep(k, step) =>
      && Has(m, k) && S.Enabled(At(m, k), step)
      && (step.Activate? ==> step.shuttingDown == m.shuttingDown)
      && (step.Terminate? ==> MayCall(m, k, step.caller))
    case PolicyBeginsStep(_) => m.call.None?
    case PolicyEndsStep => m.call.Some? && m.call.value.todo == {}
    case PolicyFailsStep => m.call.Some?
    case ShutdownStep => true
  }

  /** A caller that got success strikes the session off its list. */
  function Struck(m: Manager, k: nat, verdict: (S.Caller, S.Verdict)): Manager {
    if verdict.1 != S.Returned(true) then m
    else match verdict.0
      case Policy(n) =>
        if m.call.Some? && n == m.calls then
          m.(call := Some(m.call.value.(todo := m.call.value.todo - {k})))
        else m
      case Shutdown => if m.closing.Some? then m.(closing := Some(m.closing.value - {k})) else m
      case _ => m
  }

  function After(m: Manager, s: Step): Manager
    requires Enabled(m, s)
  {
    match s
    case AdmitStep(epoch) => Admit(m, epoch)
    case ClaimStep(k) => Claim(m, k)
    case SessionStep(k, step) =>
      Struck(Store(m, k, S.After(At(m, k), step)), k, S.VerdictOf(At(m, k), step))
    case PolicyBeginsStep(epoch) => PolicyBegins(m, epoch)
    case PolicyEndsStep => PolicyEnds(m)
    case PolicyFailsStep => m.(call := None)
    case ShutdownStep => m.(shuttingDown := true, closing := Some(m.table))
  }

  // ---- The invariant --------------------------------------------------------

  predicate SessionsInv(sessions: seq<Session>, table: set<nat>) {
    && (forall k | k in table :: k < |sessions|)
    && (forall k | 0 <= k < |sessions| :: S.Inv(S.Placed(sessions[k], k in table)))
  }

  /** Sessions of the table that are of another epoch are dead or still on the list. */
  predicate Fenced(sessions: seq<Session>, table: set<nat>, epoch: int, todo: set<nat>) {
    forall k | 0 <= k < |sessions| && k in table && sessions[k].epoch != epoch :: k in todo || S.Dead(sessions[k])
  }

  predicate PolicyInv(m: Manager) {
    && (m.call.Some? ==> m.transition && Fenced(m.sessions, m.table, m.call.value.epoch, m.call.value.todo))
    && (!m.transition && m.policyEpoch.Some? ==> Fenced(m.sessions, m.table, m.policyEpoch.value, {}))
  }

  predicate Drained(sessions: seq<Session>, table: set<nat>, todo: set<nat>) {
    forall k | 0 <= k < |sessions| && k in table :: k in todo || S.Dead(sessions[k])
  }

  predicate ShutdownInv(m: Manager) {
    m.closing.Some? ==> m.shuttingDown && Drained(m.sessions, m.table, m.closing.value)
  }

  predicate Inv(m: Manager) {
    && SessionsInv(m.sessions, m.table)
    && |m.table| <= m.maxSessions
    && PolicyInv(m)
    && ShutdownInv(m)
  }

  lemma AdmitKeeps(m: Manager, epoch: int)
    requires Inv(m)
    ensures Inv(Admit(m, epoch))
  {
    if AdmissionRefusal(m, epoch).None? {
      assert |m.sessions| !in m.table;
      assert S.Inv(S.Placed(S.Admitted(epoch), true));
    }
  }

  /** One session moves on; the fences around it hold as long as the dead stay dead. */
  lemma StoreKeeps(m: Manager, k: nat, p: S.Placed)
    requires Inv(m) && Has(m, k) && S.Kept(At(m, k), p)
    ensures Inv(Store(m, k, p))
    ensures Store(m, k, p).sessions[k] == p.session
  {
    hide SessionsInv, Fenced, Drained, S.Kept;
    var table := if p.inTable then m.table + {k} else m.table - {k};
    TableShrinks(m, k, p);
    SubsetSize(table, m.table);
    StoreSessions(m.sessions, m.table, k, p, table);
    if m.call.Some? {
      StoreFenced(m.sessions, m.table, k, p.session, table, m.call.value.epoch, m.call.value.todo);
    }
    if m.policyEpoch.Some? && !m.transition {
      StoreFenced(m.sessions, m.table, k, p.session, table, m.policyEpoch.value, {});
    }
    if m.closing.Some? {
      StoreDrained(m.sessions, m.table, k, p.session, table, m.closing.value);
    }
  }

  lemma TableShrinks(m: Manager, k: nat, p: S.Placed)
    requires Has(m, k) && S.Kept(At(m, k), p)
    ensures (if p.inTable then m.table + {k} else m.table - {k}) <= m.table
    ensures S.Inv(p) && p.session.epoch == m.sessions[k].epoch && (S.Dead(m.sessions[k]) ==> S.Dead(p.session))
  {
    hide S.Inv, S.Dead;
  }

  lemma StoreSessions(sessions: seq<Session>, table: set<nat>, k: nat, p: S.Placed, next: set<nat>)
    requires SessionsInv(sessions, table) && k < |sessions| && S.Inv(p)
    requires next == (if p.inTable then table + {k} else table - {k})
    ensures SessionsInv(sessions[k := p.session], next)
  {
    hide S.Inv;
    forall j | 0 <= j < |sessions| ensures S.Inv(S.Placed(sessions[k := p.session][j], j in next)) {
      assert j == k ==> S.Placed(p.session, j in next) == p;
    }
  }

  lemma StoreFenced(sessions: seq<Session>, table: set<nat>, k: nat, s: Session, next: set<nat>, epoch: int,
                    todo: set<nat>)
    requires Fenced(sessions, table, epoch, todo) && k < |sessions| && next <= table
    requires s.epoch == sessions[k].epoch && (S.Dead(sessions[k]) ==> S.Dead(s))
    ensures Fenced(sessions[k := s], next, epoch, todo)
  {
    hide S.Dead;
  }

  lemma StoreDrained(sessions: seq<Session>, table: set<nat>, k: nat, s: Session, next: set<nat>, todo: set<nat>)
    requires Drained(sessions, table, todo) && k < |sessions| && next <= table
    requires S.Dead(sessions[k]) ==> S.Dead(s)
    ensures Drained(sessions[k := s], next, todo)
  {
    hide S.Dead;
  }

  lemma SubsetSize(a: set<nat>, b: set<nat>)
    requires a <= b
    ensures |a| <= |b|
  {
    assert b == a + (b - a);
  }

  lemma ClaimKeeps(m: Manager, k: nat)
    requires Inv(m) && Has(m, k) && m.sessions[k].starter.Resolving?
    ensures Inv(Claim(m, k))
  {
    if MayClaim(m, k) {
      ClaimedInv(At(m, k));
      hide S.Inv;
      var next := Claim(m, k);
      assert forall j | 0 <= j < |m.sessions| && j != k :: next.sessions[j] == m.sessions[j];
    } else {
      S.StepKeeps(At(m, k), S.GivesUp);
      StoreKeeps(m, k, S.After(At(m, k), S.GivesUp));
    }
  }

  lemma ClaimedInv(p: S.Placed)
    requires S.Inv(p) && p.session.starter.Resolving? && p.session.status.Starting?
    ensures S.Inv(p.(session := p.session.(spawnClaimed := true, starter := S.InFlight, process := S.Launching)))
    ensures !S.Dead(p.session)
  {
  }

  lemma StruckKeeps(m: Manager, k: nat, verdict: (S.Caller, S.Verdict))
    requires Inv(m) && Has(m, k) && (verdict.1 == S.Returned(true) ==> S.Dead(m.sessions[k]))
    ensures Inv(Struck(m, k, verdict))
  {
    hide S.Dead, SessionsInv;
  }

  lemma PolicyBeginsKeeps(m: Manager, epoch: int)
    requires Inv(m) && m.call.None?
    ensures Inv(PolicyBegins(m, epoch))
  {
    hide S.Dead, SessionsInv;
  }

  lemma StepKeeps(m: Manager, s: Step)
    requires Inv(m) && Enabled(m, s)
    ensures Inv(After(m, s))
  {
    match s
    case AdmitStep(epoch) => AdmitKeeps(m, epoch);
    case ClaimStep(k) => ClaimKeeps(m, k);
    case SessionStep(k, step) => SessionStepKeeps(m, k, step);
    case PolicyBeginsStep(epoch) => PolicyBeginsKeeps(m, epoch);
    case PolicyEndsStep => hide S.Dead, SessionsInv;
    case PolicyFailsStep => hide S.Dead, SessionsInv;
    case ShutdownStep => hide S.Dead, SessionsInv;
  }

  lemma SessionStepKeeps(m: Manager, k: nat, step: S.Step)
    requires Inv(m) && Enabled(m, SessionStep(k, step))
    ensures Inv(After(m, SessionStep(k, step)))
  {
    var p := At(m, k);
    S.StepKeeps(p, step);
    if S.VerdictOf(p, step).1 == S.Returned(true) {
      S.ConvergedIsDead(p, step);
    }
    hide S.After, S.Inv, S.Dead, S.Enabled, S.VerdictOf, S.Kept, Inv, Store, Struck;
    StoreKeeps(m, k, S.After(p, step));
    StruckKeeps(Store(m, k, S.After(p, step)), k, S.VerdictOf(p, step));
  }

  // ---- Runs -----------------------------------------------------------------

  predicate Runs(m: Manager, steps: seq<Step>)
    decreases |steps|
  {
    steps == [] || (Enabled(m, steps[0]) && Runs(After(m, steps[0]), steps[1..]))
  }

  function Reached(m: Manager, steps: seq<Step>): Manager
    requires Runs(m, steps)
    decreases |steps|
  {
    if steps == [] then m else Reached(After(m, steps[0]), steps[1..])
  }

  /** A process is being launched, or may be running. */
  predicate Live(s: Session) {
    s.process.Alive? || s.process.Launching?
  }

  /** What a manager that has been told to run under epoch `e` guarantees. */
  predicate RunsOnly(m: Manager, e: int) {
    forall k | 0 <= k < |m.sessions| && m.sessions[k].epoch != e ::
      && !Live(m.sessions[k])
      && (k in m.table ==> !m.sessions[k].status.Starting? && !m.sessions[k].status.Running?)
  }

  lemma LiveIsHeld(s: Session, inTable: bool)
    requires S.Inv(S.Placed(s, inTable))
    ensures Live(s) ==> inTable && !S.Dead(s)
  {
  }

  /**
   In every run: the table is bounded; no process that may be running is ever out of
   it; with no transition open and epoch `e` set nothing of another epoch runs, is being
   launched or can still start; and once shutdown has converged nothing runs at all.
   */
  lemma {:induction false} RunsAreFenced(maxSessions: nat, steps: seq<Step>)
    requires Runs(New(maxSessions), steps)
    ensures var m := Reached(New(maxSessions), steps);
            && |m.table| <= maxSessions
            && (forall k | 0 <= k < |m.sessions| && Live(m.sessions[k]) :: k in m.table)
            && (!m.transition && m.policyEpoch.Some? ==> RunsOnly(m, m.policyEpoch.value))
            && (m.closing == Some({}) ==> forall k | 0 <= k < |m.sessions| :: !Live(m.sessions[k]))
  {
    var m := Reached(New(maxSessions), steps);
    RunKeeps(New(maxSessions), steps);
    forall k | 0 <= k < |m.sessions| ensures Live(m.sessions[k]) ==> k in m.table && !S.Dead(m.sessions[k]) {
      LiveIsHeld(m.sessions[k], k in m.table);
    }
    hide S.Inv, Runs, Reached, Live;
  }

  lemma {:induction false} RunKeeps(m: Manager, steps: seq<Step>)
    requires Inv(m) && Runs(m, steps)
    ensures Inv(Reached(m, steps)) && Reached(m, steps).maxSessions == m.maxSessions
    decreases |steps|
  {
    if steps != [] {
      StepKeeps(m, steps[0]);
      BoundStays(m, steps[0]);
      hide Inv, After, Enabled;
      RunKeeps(After(m, steps[0]), steps[1..]);
    }
  }

  lemma BoundStays(m: Manager, s: Step)
    requires Enabled(m, s)
    ensures After(m, s).maxSessions == m.maxSessions
  {
    hide S.After, S.VerdictOf, S.Enabled;
  }

  /** While a transition is open, also one that failed, no step admits a session or claims a spawn. */
  lemma OpenTransitionStartsNothing(m: Manager, s: Step)
    requires Inv(m) && Enabled(m, s) && m.transition
    ensures |After(m, s).sessions| == |m.sessions|
    ensures forall k | 0 <= k < |m.sessions| :: After(m, s).sessions[k].spawnClaimed == m.sessions[k].spawnClaimed
  {
    match s
    case ClaimStep(k) => S.StepKeeps(At(m, k), S.GivesUp);
    case SessionStep(k, step) =>
      S.StepKeeps(At(m, k), step);
      hide S.After, S.VerdictOf, S.Enabled, S.Inv, S.Dead;
    case _ =>
  }

  /** A session that is out of the running never returns. */
  lemma {:induction false} TheDeadStayDead(m: Manager, steps: seq<Step>, k: nat)
    requires Inv(m) && Runs(m, steps) && Has(m, k) && S.Dead(m.sessions[k])
    ensures Has(Reached(m, steps), k) && S.Dead(Reached(m, steps).sessions[k])
    decreases |steps|
  {
    if steps != [] {
      StepKeeps(m, steps[0]);
      StepKeepsDead(m, steps[0], k);
      hide Inv, After, Enabled, S.Dead;
      TheDeadStayDead(After(m, steps[0]), steps[1..], k);
    }
  }

  lemma StepKeepsDead(m: Manager, s: Step, k: nat)
    requires Inv(m) && Enabled(m, s) && Has(m, k) && S.Dead(m.sessions[k])
    ensures Has(After(m, s), k) && S.Dead(After(m, s).sessions[k])
  {
    match s
    case ClaimStep(j) => S.StepKeeps(At(m, j), S.GivesUp);
    case SessionStep(j, step) =>
      S.StepKeeps(At(m, j), step);
      hide S.After, S.VerdictOf, S.Enabled, S.Inv, S.Dead;
    case _ =>
  }
}
