/**
 Slots and the leases they hold.  Any of a slot's worker, the path that cancelled it,
 an acknowledgement or the shutdown may be first to reach the cleanup; the lease then
 lives in that caller's frame, or in a drain task when file work was abandoned.  Other
 work shares the same admission.
 */
module TransferLeases {
  import opened Basics
  import opened Protocol
  import A = Admission

  datatype Stage =
    | Held(lease: nat)       // in the slot's own field
    | Cleaning(lease: nat)   // in the frame of the one cleanup that is running
    | Draining(lease: nat)   // handed to a drain that waits for abandoned file work
    | Returned

  /** One slot object; `frees` counts the permits its lease gave back. */
  datatype Use = Use(id: Uuid, stage: Stage, frees: nat)

  /** `table` is the manager's dictionary of slots: identifier to slot object. */
  datatype System = System(admission: A.Admission, uses: seq<Use>, table: map<Uuid, nat>)

  datatype Step =
    | Start(id: Uuid)
    | Cleanup(slot: nat, drains: bool)
    | CleanupEnds(slot: nat)
    | DrainEnds(slot: nat)
    | Elsewhere(step: A.Step)

  function New(capacity: nat): System {
    System(A.New(capacity), [], map[])
  }

  function LeaseOf(u: Use): Option<nat> {
    if u.stage.Returned? then None else Some(u.stage.lease)
  }

  predicate HeldByNone(uses: seq<Use>, lease: nat) {
    forall k | 0 <= k < |uses| :: LeaseOf(uses[k]) != Some(lease)
  }

  /** Other owners release and hand off only leases of their own. */
  predicate OwnBusiness(uses: seq<Use>, s: A.Step) {
    match s
    case ReleaseStep(lease) => HeldByNone(uses, lease)
    case HandoffStep(lease) => HeldByNone(uses, lease)
    case AdoptStep(lease, _) => HeldByNone(uses, lease)
    case _ => true
  }

  predicate Enabled(w: System, s: Step) {
    match s
    case Start(id) => id !in w.table
    case Cleanup(k, _) => k < |w.uses|
    case CleanupEnds(k) => k < |w.uses| && w.uses[k].stage.Cleaning?
    case DrainEnds(k) => k < |w.uses| && w.uses[k].stage.Draining?
    case Elsewhere(step) => A.Enabled(w.admission, step) && OwnBusiness(w.uses, step)
  }

  function Retired(table: map<Uuid, nat>, id: Uuid, k: nat): map<Uuid, nat> {
    if id in table && table[id] == k then table - {id} else table
  }

  function Restaged(w: System, k: nat, stage: Stage): seq<Use>
    requires k < |w.uses|
  {
    w.uses[k := w.uses[k].(stage := stage)]
  }

  function Released(w: System, k: nat, lease: nat): Result<System, A.Error>
    requires k < |w.uses|
  {
    match A.Release(w.admission, lease)
    case Err(e) => Err(e)
    case Ok(next) =>
      var freed := if lease in w.admission.owned then 1 else 0;
      Ok(w.(admission := next, uses := w.uses[k := Use(w.uses[k].id, Returned, w.uses[k].frees + freed)]))
  }

  function After(w: System, s: Step): Result<System, A.Error>
    requires Enabled(w, s)
  {
    match s
    case Start(id) =>
      var (next, lease) := A.TryAcquire(w.admission);
      if lease.None? then Ok(w.(admission := next))
      else Ok(System(next, w.uses + [Use(id, Held(lease.value), 0)], w.table[id := |w.uses|]))
    case Cleanup(k, drains) =>
      if !w.uses[k].stage.Held? then Ok(w)
      else if !drains then Ok(w.(uses := Restaged(w, k, Cleaning(w.uses[k].stage.lease))))
      else
        (match A.Adopt(w.admission, w.uses[k].stage.lease, true)
         case Err(e) => Err(e)
         case Ok((next, moved)) =>
           Ok(System(next, Restaged(w, k, Draining(moved)), Retired(w.table, w.uses[k].id, k))))
    case CleanupEnds(k) =>
      Released(w.(table := Retired(w.table, w.uses[k].id, k)), k, w.uses[k].stage.lease)
    case DrainEnds(k) => Released(w, k, w.uses[k].stage.lease)
    case Elsewhere(step) => Ok(w.(admission := A.Next(w.admission, step)))
  }

  // ---- The invariant --------------------------------------------------------

  predicate LeasesInv(uses: seq<Use>, owned: set<nat>) {
    && (forall k | 0 <= k < |uses| && !uses[k].stage.Returned? :: uses[k].stage.lease in owned && uses[k].frees == 0)
    && (forall k | 0 <= k < |uses| && uses[k].stage.Returned? :: uses[k].frees == 1)
    && (forall j, k | 0 <= j < k < |uses| && !uses[j].stage.Returned? && !uses[k].stage.Returned? ::
          uses[j].stage.lease != uses[k].stage.lease)
  }

  predicate InTable(u: Use) {
    u.stage.Held? || u.stage.Cleaning?
  }

  predicate TableInv(uses: seq<Use>, table: map<Uuid, nat>) {
    && (forall id | id in table :: table[id] < |uses| && uses[table[id]].id == id && InTable(uses[table[id]]))
    && (forall k | 0 <= k < |uses| && InTable(uses[k]) :: uses[k].id in table && table[uses[k].id] == k)
  }

  /** A lease promised to a waiting acquisition belongs to no slot. */
  predicate GrantsApart(uses: seq<Use>, arrivals: seq<A.Arrival>, minted: nat) {
    forall t | 0 <= t < |arrivals| && arrivals[t].Granted? ::
      arrivals[t].lease < minted && HeldByNone(uses, arrivals[t].lease)
  }

  predicate Inv(w: System) {
    && A.Inv(w.admission)
    && LeasesInv(w.uses, w.admission.owned)
    && TableInv(w.uses, w.table)
    && GrantsApart(w.uses, w.admission.arrivals, w.admission.minted)
  }

  // ---- What an admission step does to leases that others hold ---------------

  /** New grants carry a lease that nobody held before. */
  predicate GrantsFresh(before: A.Admission, after: A.Admission) {
    && before.minted <= after.minted
    && forall t | 0 <= t < |after.arrivals| && after.arrivals[t].Granted? ::
         || before.minted <= after.arrivals[t].lease < after.minted
         || (t < |before.arrivals| && before.arrivals[t] == after.arrivals[t])
  }

  predicate NoNewGrants(before: seq<A.Arrival>, after: seq<A.Arrival>) {
    forall t | 0 <= t < |after| && after[t].Granted? :: t < |before| && before[t] == after[t]
  }

  lemma TryAcquireEffect(a: A.Admission)
    ensures NoNewGrants(a.arrivals, A.TryAcquire(a).0.arrivals) && a.minted <= A.TryAcquire(a).0.minted
    ensures var (next, lease) := A.TryAcquire(a);
            if lease.None? then next.owned == a.owned
            else lease.value == a.minted && next.owned == a.owned + {a.minted}
  {
    hide A.Live;
  }

  lemma ReleaseEffect(a: A.Admission, lease: nat)
    requires A.Release(a, lease).Ok?
    ensures var next := A.Release(a, lease).value;
            && GrantsFresh(a, next)
            && (lease in a.owned ==> lease < a.minted ==> lease !in next.owned)
            && (forall x | x in a.owned && x != lease :: x in next.owned)
  {
    hide A.Live;
  }

  lemma HandoffEffect(a: A.Admission, lease: nat)
    requires lease in a.owned
    ensures A.Handoff(a, lease).Ok?
    ensures var (next, moved) := A.Handoff(a, lease).value;
            && next.minted == a.minted + 1 && moved == a.minted
            && next.owned == a.owned - {lease} + {a.minted} && next.arrivals == a.arrivals
  {
  }

  lemma ElsewhereEffect(a: A.Admission, uses: seq<Use>, s: A.Step)
    requires A.Inv(a) && A.Enabled(a, s) && OwnBusiness(uses, s) && GrantsApart(uses, a.arrivals, a.minted)
    ensures GrantsFresh(a, A.Next(a, s))
    ensures forall lease | lease in a.owned && !HeldByNone(uses, lease) :: lease in A.Next(a, s).owned
  {
    hide A.Inv, A.Release, A.TryAcquire, A.Handoff, A.Without, HeldByNone;
    match s
    case TryStep => TryAcquireEffect(a);
    case AcquireStep => TryAcquireEffect(a);
    case ReturnStep(t) =>
    case CancelStep(t) =>
    case AbandonStep(t) =>
      if a.arrivals[t].Granted? {
        A.CancelKeeps(a, t, A.Left);
        A.ReleaseKeeps(a.(arrivals := a.arrivals[t := A.Left]), a.arrivals[t].lease);
        ReleaseEffect(a.(arrivals := a.arrivals[t := A.Left]), a.arrivals[t].lease);
      }
    case ReleaseStep(lease) =>
      A.ReleaseKeeps(a, lease);
      ReleaseEffect(a, lease);
    case HandoffStep(lease) => HandoffMaybe(a, lease);
    case AdoptStep(lease, pending) =>
      A.ReleaseKeeps(a, lease);
      ReleaseEffect(a, lease);
      HandoffMaybe(a, lease);
  }

  lemma HandoffMaybe(a: A.Admission, lease: nat)
    ensures A.Handoff(a, lease).Ok? ==>
              var next := A.Handoff(a, lease).value.0;
              GrantsFresh(a, next) && forall x | x in a.owned && x != lease :: x in next.owned
  {
  }

  // ---- Every step keeps the invariant ---------------------------------------

  lemma GrantsStayApart(before: A.Admission, after: A.Admission, uses: seq<Use>)
    requires GrantsApart(uses, before.arrivals, before.minted) && GrantsFresh(before, after)
    requires forall k | 0 <= k < |uses| && !uses[k].stage.Returned? ::
               uses[k].stage.lease < before.minted || uses[k].stage.lease >= after.minted
    ensures GrantsApart(uses, after.arrivals, after.minted)
  {
  }

  /** The slots of `after` hold leases of `before`, or ones that no waiter was promised. */
  lemma RestageApart(before: seq<Use>, after: seq<Use>, arrivals: seq<A.Arrival>, minted: nat, moved: nat)
    requires GrantsApart(before, arrivals, minted) && minted <= moved
    requires forall j | 0 <= j < |after| && LeaseOf(after[j]).Some? && LeaseOf(after[j]) != Some(moved) ::
               j < |before| && LeaseOf(before[j]) == LeaseOf(after[j])
    ensures GrantsApart(after, arrivals, minted)
  {
  }

  lemma NewSlot(w: System, id: Uuid, lease: nat)
    requires LeasesInv(w.uses, w.admission.owned) && TableInv(w.uses, w.table) && id !in w.table
    requires forall k | 0 <= k < |w.uses| && !w.uses[k].stage.Returned? :: w.uses[k].stage.lease < lease
    ensures LeasesInv(w.uses + [Use(id, Held(lease), 0)], w.admission.owned + {lease})
    ensures TableInv(w.uses + [Use(id, Held(lease), 0)], w.table[id := |w.uses|])
  {
  }

  lemma StartKeeps(w: System, id: Uuid)
    requires Inv(w) && Enabled(w, Start(id))
    ensures After(w, Start(id)).Ok? && Inv(After(w, Start(id)).value)
  {
    var a := w.admission;
    var (next, lease) := A.TryAcquire(a);
    TryAcquireEffect(a);
    A.TryAcquireKeeps(a);
    LeasesAreOld(a, w.uses);
    NewSlot(w, id, a.minted);
    RestageApart(w.uses, w.uses + [Use(id, Held(a.minted), 0)], a.arrivals, a.minted, a.minted);
    hide A.Inv, A.TryAcquire, LeasesInv, TableInv;
  }

  lemma LeasesAreOld(a: A.Admission, uses: seq<Use>)
    requires A.Inv(a) && LeasesInv(uses, a.owned)
    ensures forall k | 0 <= k < |uses| && !uses[k].stage.Returned? :: uses[k].stage.lease < a.minted
  {
  }

  lemma DrainKeeps(w: System, k: nat)
    requires Inv(w) && k < |w.uses| && w.uses[k].stage.Held?
    ensures After(w, Cleanup(k, true)).Ok? && Inv(After(w, Cleanup(k, true)).value)
  {
    var a := w.admission;
    var lease := w.uses[k].stage.lease;
    LeasesAreOld(a, w.uses);
    A.HandoffKeeps(a, lease);
    HandoffEffect(a, lease);
    hide A.Inv, A.Handoff;
    var uses := Restaged(w, k, Draining(a.minted));
    RestageApart(w.uses, uses, a.arrivals, a.minted, a.minted);
    TableRetire(w.uses, uses, w.table, k);
  }

  /** A slot that leaves `Held` and `Cleaning` leaves the dictionary with it. */
  lemma TableRetire(uses: seq<Use>, after: seq<Use>, table: map<Uuid, nat>, k: nat)
    requires TableInv(uses, table) && k < |uses| && InTable(uses[k])
    requires |after| == |uses| && after[k].id == uses[k].id && !InTable(after[k])
    requires forall j | 0 <= j < |uses| && j != k :: after[j] == uses[j]
    ensures TableInv(after, Retired(table, uses[k].id, k))
  {
  }

  lemma CleaningKeeps(w: System, k: nat)
    requires Inv(w) && k < |w.uses| && w.uses[k].stage.Held?
    ensures After(w, Cleanup(k, false)).Ok? && Inv(After(w, Cleanup(k, false)).value)
  {
    hide A.Inv;
    var uses := Restaged(w, k, Cleaning(w.uses[k].stage.lease));
    RestageApart(w.uses, uses, w.admission.arrivals, w.admission.minted, w.admission.minted);
  }

  lemma LeaseGone(uses: seq<Use>, k: nat, before: set<nat>, after: set<nat>)
    requires LeasesInv(uses, before) && k < |uses| && !uses[k].stage.Returned?
    requires forall x | x in before && x != uses[k].stage.lease :: x in after
    ensures LeasesInv(uses[k := Use(uses[k].id, Returned, 1)], after)
  {
  }

  /** The permit that a slot's lease stands for goes back when the lease is released. */
  lemma ReleasedKeeps(w: System, table: map<Uuid, nat>, k: nat, lease: nat)
    requires Inv(w) && k < |w.uses| && LeaseOf(w.uses[k]) == Some(lease)
    requires TableInv(w.uses[k := Use(w.uses[k].id, Returned, 1)], table)
    ensures var r := Released(w.(table := table), k, lease); r.Ok? && Inv(r.value)
  {
    hide A.Inv, A.Release, TableInv, LeasesInv, GrantsApart, GrantsFresh;
    var a := w.admission;
    A.ReleaseKeeps(a, lease);
    ReleaseEffect(a, lease);
    LeaseGone(w.uses, k, a.owned, A.Release(a, lease).value.owned);
    ReleaseApart(a, lease, w.uses, k);
    FreesOne(w, k, lease);
  }

  lemma FreesOne(w: System, k: nat, lease: nat)
    requires LeasesInv(w.uses, w.admission.owned) && k < |w.uses| && LeaseOf(w.uses[k]) == Some(lease)
    ensures lease in w.admission.owned && w.uses[k].frees == 0
  {
  }

  lemma ReleaseApart(a: A.Admission, lease: nat, uses: seq<Use>, k: nat)
    requires A.Inv(a) && LeasesInv(uses, a.owned) && k < |uses|
    requires GrantsApart(uses, a.arrivals, a.minted) && A.Release(a, lease).Ok?
    ensures var next := A.Release(a, lease).value;
            GrantsApart(uses[k := Use(uses[k].id, Returned, 1)], next.arrivals, next.minted)
  {
    var next := A.Release(a, lease).value;
    LeasesAreOld(a, uses);
    ReleaseEffect(a, lease);
    GrantsStayApart(a, next, uses);
    hide A.Inv, A.Release, GrantsFresh, LeasesInv;
    RestageApart(uses, uses[k := Use(uses[k].id, Returned, 1)], next.arrivals, next.minted, next.minted);
  }

  lemma CleanupEndsKeeps(w: System, k: nat)
    requires Inv(w) && k < |w.uses| && w.uses[k].stage.Cleaning?
    ensures After(w, CleanupEnds(k)).Ok? && Inv(After(w, CleanupEnds(k)).value)
  {
    TableRetire(w.uses, w.uses[k := Use(w.uses[k].id, Returned, 1)], w.table, k);
    ReleasedKeeps(w, Retired(w.table, w.uses[k].id, k), k, w.uses[k].stage.lease);
  }

  lemma DrainEndsKeeps(w: System, k: nat)
    requires Inv(w) && k < |w.uses| && w.uses[k].stage.Draining?
    ensures After(w, DrainEnds(k)).Ok? && Inv(After(w, DrainEnds(k)).value)
  {
    ReleasedKeeps(w, w.table, k, w.uses[k].stage.lease);
    assert w.(table := w.table) == w;
  }

  lemma ElsewhereKeeps(w: System, s: A.Step)
    requires Inv(w) && Enabled(w, Elsewhere(s))
    ensures After(w, Elsewhere(s)).Ok? && Inv(After(w, Elsewhere(s)).value)
  {
    ElsewhereEffect(w.admission, w.uses, s);
    LeasesAreOld(w.admission, w.uses);
    A.StepKeeps(w.admission, s);
    hide A.Inv, A.Next, A.Enabled, TableInv, OwnBusiness;
    var next := A.Next(w.admission, s);
    GrantsStayApart(w.admission, next, w.uses);
    forall k | 0 <= k < |w.uses| && !w.uses[k].stage.Returned? ensures w.uses[k].stage.lease in next.owned {
      assert LeaseOf(w.uses[k]) == Some(w.uses[k].stage.lease);
      assert !HeldByNone(w.uses, w.uses[k].stage.lease);
    }
  }

  lemma StepKeeps(w: System, s: Step)
    requires Inv(w) && Enabled(w, s)
    ensures After(w, s).Ok? && Inv(After(w, s).value)
  {
    match s
    case Start(id) => StartKeeps(w, id);
    case Cleanup(k, drains) =>
      if w.uses[k].stage.Held? {
        if drains { DrainKeeps(w, k); } else { CleaningKeeps(w, k); }
      }
    case CleanupEnds(k) => CleanupEndsKeeps(w, k);
    case DrainEnds(k) => DrainEndsKeeps(w, k);
    case Elsewhere(step) => ElsewhereKeeps(w, step);
  }

  // ---- Runs -----------------------------------------------------------------

  predicate Runs(w: System, steps: seq<Step>)
    decreases |steps|
  {
    steps == [] || (Enabled(w, steps[0]) && After(w, steps[0]).Ok? && Runs(After(w, steps[0]).value, steps[1..]))
  }

  function Reached(w: System, steps: seq<Step>): System
    requires Runs(w, steps)
    decreases |steps|
  {
    if steps == [] then w else Reached(After(w, steps[0]).value, steps[1..])
  }

  lemma {:induction false} RunKeeps(w: System, steps: seq<Step>)
    requires Inv(w) && Runs(w, steps)
    ensures Inv(Reached(w, steps)) && Reached(w, steps).admission.capacity == w.admission.capacity
    decreases |steps|
  {
    if steps != [] {
      StepKeeps(w, steps[0]);
      CapacityStays(w, steps[0]);
      hide Inv, After, Enabled;
      RunKeeps(After(w, steps[0]).value, steps[1..]);
    }
  }

  lemma CapacityStays(w: System, s: Step)
    requires Enabled(w, s) && After(w, s).Ok?
    ensures After(w, s).value.admission.capacity == w.admission.capacity
  {
    if s.Elsewhere? {
      A.CapacityStays(w.admission, s.step);
    } else {
      hide A.Live;
    }
  }

  /** Distinct slots hold distinct owned leases, so they cannot outnumber the owned ones. */
  lemma {:induction false} HeldFit(uses: seq<Use>, owned: set<nat>, held: set<nat>)
    requires LeasesInv(uses, owned)
    requires forall k | k in held :: k < |uses| && !uses[k].stage.Returned?
    ensures |held| <= |owned|
    decreases held
  {
    if held != {} {
      var k :| k in held;
      var rest := uses[k := Use(uses[k].id, Returned, 1)];
      assert LeasesInv(rest, owned - {uses[k].stage.lease});
      HeldFit(rest, owned - {uses[k].stage.lease}, held - {k});
    }
  }

  function Unreturned(uses: seq<Use>): set<nat> {
    set k | 0 <= k < |uses| && !uses[k].stage.Returned?
  }

  lemma {:induction false} TableFits(table: map<Uuid, nat>, uses: seq<Use>, ids: set<Uuid>, slots: set<nat>)
    requires TableInv(uses, table) && ids <= table.Keys
    requires forall id | id in ids :: table[id] in slots
    ensures |ids| <= |slots|
    decreases ids
  {
    if ids != {} {
      var id :| id in ids;
      forall other | other in ids - {id} ensures table[other] in slots - {table[id]} {
        assert uses[table[other]].id == other;
      }
      TableFits(table, uses, ids - {id}, slots - {table[id]});
    }
  }

  /**
   In every run: the slots in the dictionary are no more than the slots whose lease is
   out, these are no more than the capacity, no release or hand-off ever fails, and
   a slot's lease has freed exactly one permit once its cleanup or its drain is over and
   none before, whoever reached the cleanup first.
   */
  lemma {:induction false} SlotsFitAndReturnOnce(capacity: nat, steps: seq<Step>)
    requires Runs(New(capacity), steps)
    ensures var w := Reached(New(capacity), steps);
            && |w.table| <= |Unreturned(w.uses)| <= capacity
            && (forall k | 0 <= k < |w.uses| :: w.uses[k].frees == if w.uses[k].stage.Returned? then 1 else 0)
            && (forall s: Step | Enabled(w, s) :: After(w, s).Ok?)
  {
    RunKeeps(New(capacity), steps);
    var w := Reached(New(capacity), steps);
    hide Runs, Reached;
    forall s: Step | Enabled(w, s) ensures After(w, s).Ok? {
      StepKeeps(w, s);
    }
    HeldFit(w.uses, w.admission.owned, Unreturned(w.uses));
    TableFits(w.table, w.uses, w.table.Keys, Unreturned(w.uses));
  }
}
