/**
 The first-in first-out permit allocator shared by all local transfers.  A lease is
 an identifier; it is owned or it is not.  Every successful or waiting acquisition
 is an arrival, numbered in the order of the calls.
 */
module Admission {
  import opened Basics

  /** What became of one acquisition. */
  datatype Arrival =
    | Pending                    // its future is unresolved
    | Granted(lease: nat)        // resolved, its coroutine not yet resumed
    | Returned(lease: nat)       // the caller has the lease
    | Cancelled                  // its future is cancelled, its coroutine not yet resumed
    | Left                       // gone without a lease

  datatype Admission = Admission(
    capacity: nat,
    available: int,
    waiters: seq<nat>,
    arrivals: seq<Arrival>,
    owned: set<nat>,
    minted: nat)

  datatype Error = ExcessRelease | NotOwned

  function New(capacity: nat): Admission {
    Admission(capacity, capacity, [], [], {}, 0)
  }

  // ---- Atomic sections ------------------------------------------------------

  /** The waiters whose futures are unresolved, in order. */
  function Live(waiters: seq<nat>, arrivals: seq<Arrival>): (live: seq<nat>)
    ensures forall i | 0 <= i < |live| :: live[i] < |arrivals| && arrivals[live[i]].Pending?
  {
    if waiters == [] then []
    else if waiters[0] < |arrivals| && arrivals[waiters[0]].Pending? then [waiters[0]] + Live(waiters[1..], arrivals)
    else Live(waiters[1..], arrivals)
  }

  function Discarded(a: Admission): Admission {
    a.(waiters := Live(a.waiters, a.arrivals))
  }

  function Mint(a: Admission): Admission {
    a.(owned := a.owned + {a.minted}, minted := a.minted + 1)
  }

  function TryAcquire(a: Admission): (Admission, Option<nat>) {
    var d := Discarded(a);
    if d.available == 0 || d.waiters != [] then (d, None)
    else
      (Mint(d.(available := d.available - 1, arrivals := d.arrivals + [Returned(d.minted)])), Some(d.minted))
  }

  /** `acquire` up to its first suspension: a lease at once, or a place in the queue. */
  function Acquire(a: Admission): (Admission, Option<nat>) {
    var (d, lease) := TryAcquire(a);
    if lease.Some? then (d, lease)
    else (d.(waiters := d.waiters + [|d.arrivals|], arrivals := d.arrivals + [Pending]), None)
  }

  /** A freed permit goes to the longest waiting live acquisition, or back to the pool. */
  function PassOn(a: Admission): Result<Admission, Error> {
    var d := Discarded(a);
    if d.waiters != [] then
      Ok(Mint(d.(waiters := d.waiters[1..], arrivals := d.arrivals[d.waiters[0] := Granted(d.minted)])))
    else if d.available >= d.capacity then Err(ExcessRelease)
    else Ok(d.(available := d.available + 1))
  }

  function Release(a: Admission, lease: nat): Result<Admission, Error> {
    if lease !in a.owned then Ok(a) else PassOn(a.(owned := a.owned - {lease}))
  }

  function Handoff(a: Admission, lease: nat): Result<(Admission, nat), Error> {
    if lease !in a.owned then Err(NotOwned)
    else Ok((Mint(a.(owned := a.owned - {lease})), a.minted))
  }

  function Without(waiters: seq<nat>, ticket: nat): seq<nat> {
    if waiters == [] then []
    else if waiters[0] == ticket then waiters[1..]
    else [waiters[0]] + Without(waiters[1..], ticket)
  }

  /** A time-out or cancellation reaches a waiting future: it is done, and still queued. */
  function Cancel(a: Admission, ticket: nat): Admission
    requires ticket < |a.arrivals|
  {
    if a.arrivals[ticket].Pending? then a.(arrivals := a.arrivals[ticket := Cancelled]) else a
  }

  /**
   The awaiting coroutine resumes with an exception: a lease granted meanwhile goes back, an
   unresolved future is cancelled now, and the future leaves the queue if it is still there.
   */
  function Abandon(a: Admission, ticket: nat): Result<Admission, Error>
    requires ticket < |a.arrivals|
  {
    var gone := a.(arrivals := a.arrivals[ticket := Left]);
    match a.arrivals[ticket]
    case Granted(lease) =>
      (match Release(gone, lease)
       case Err(e) => Err(e)
       case Ok(next) => Ok(next.(waiters := Without(next.waiters, ticket))))
    case Pending => Ok(gone.(waiters := Without(a.waiters, ticket)))
    case Cancelled => Ok(gone.(waiters := Without(a.waiters, ticket)))
    case _ => Ok(a)
  }

  /** `LocalTransferDrainRegistry.adopt`: without drains the lease is released at once. */
  function Adopt(a: Admission, lease: nat, pending: bool): Result<(Admission, nat), Error> {
    if pending then Handoff(a, lease)
    else match Release(a, lease)
      case Ok(next) => Ok((next, lease))
      case Err(e) => Err(e)
  }

  // ---- The invariant --------------------------------------------------------

  predicate Increasing(waiters: seq<nat>) {
    forall i, j | 0 <= i < j < |waiters| :: waiters[i] < waiters[j]
  }

  predicate QueueInv(waiters: seq<nat>, arrivals: seq<Arrival>) {
    && Increasing(waiters)
    && (forall i | 0 <= i < |waiters| :: waiters[i] < |arrivals|)
    && (forall t | 0 <= t < |arrivals| && arrivals[t].Pending? :: t in waiters)
  }

  predicate Served(x: Arrival) {
    x.Granted? || x.Returned?
  }

  /** Nobody is served while an earlier arrival is still waiting. */
  predicate Fifo(arrivals: seq<Arrival>) {
    forall f, g | 0 <= f < g < |arrivals| && arrivals[f].Pending? :: !Served(arrivals[g])
  }

  predicate NoneWaiting(arrivals: seq<Arrival>) {
    forall t | 0 <= t < |arrivals| :: !arrivals[t].Pending?
  }

  predicate Inv(a: Admission) {
    && 0 <= a.available
    && a.available + |a.owned| == a.capacity
    && (forall lease | lease in a.owned :: lease < a.minted)
    && QueueInv(a.waiters, a.arrivals)
    && Fifo(a.arrivals)
    && (a.available > 0 ==> NoneWaiting(a.arrivals))
  }

  lemma IncreasingCons(head: nat, rest: seq<nat>)
    requires Increasing(rest) && forall t | t in rest :: head < t
    ensures Increasing([head] + rest)
  {
    var all := [head] + rest;
    forall i, j | 0 <= i < j < |all| ensures all[i] < all[j] {
      assert all[j] == rest[j - 1] && rest[j - 1] in rest;
      assert i > 0 ==> all[i] == rest[i - 1];
    }
  }

  lemma IncreasingTail(waiters: seq<nat>)
    requires Increasing(waiters) && waiters != []
    ensures Increasing(waiters[1..]) && forall t | t in waiters[1..] :: waiters[0] < t
  {
  }

  lemma {:induction false} LiveContents(waiters: seq<nat>, arrivals: seq<Arrival>)
    ensures forall t :: t in Live(waiters, arrivals) <==> t in waiters && t < |arrivals| && arrivals[t].Pending?
    ensures Increasing(waiters) ==> Increasing(Live(waiters, arrivals))
  {
    if waiters != [] {
      var head, rest := waiters[0], waiters[1..];
      assert waiters == [head] + rest;
      LiveContents(rest, arrivals);
      if Increasing(waiters) {
        IncreasingTail(waiters);
        IncreasingCons(head, Live(rest, arrivals));
      }
    }
  }

  lemma {:induction false} WithoutContents(waiters: seq<nat>, ticket: nat)
    requires Increasing(waiters)
    ensures forall t :: t in Without(waiters, ticket) <==> t in waiters && t != ticket
    ensures Increasing(Without(waiters, ticket))
  {
    if waiters != [] {
      var head, rest := waiters[0], waiters[1..];
      assert waiters == [head] + rest;
      IncreasingTail(waiters);
      if head != ticket {
        WithoutContents(rest, ticket);
        IncreasingCons(head, Without(rest, ticket));
      }
    }
  }

  lemma DiscardedKeeps(a: Admission)
    requires Inv(a)
    ensures Inv(Discarded(a))
    ensures (Discarded(a).waiters == []) <==> NoneWaiting(a.arrivals)
    ensures forall t | t in Discarded(a).waiters :: t < |a.arrivals| && a.arrivals[t].Pending?
  {
    LiveContents(a.waiters, a.arrivals);
    var live := Live(a.waiters, a.arrivals);
    hide Live;
    if live != [] {
      assert live[0] in live;
    }
    forall i | 0 <= i < |live| ensures live[i] < |a.arrivals| {
      assert live[i] in live;
    }
  }

  lemma MintKeeps(owned: set<nat>, minted: nat)
    requires forall lease | lease in owned :: lease < minted
    ensures |owned + {minted}| == |owned| + 1
    ensures forall lease | lease in owned + {minted} :: lease < minted + 1
  {
    assert minted !in owned;
  }

  lemma TryAcquireKeeps(a: Admission)
    requires Inv(a)
    ensures Inv(TryAcquire(a).0)
  {
    DiscardedKeeps(a);
    var d := Discarded(a);
    hide Discarded, QueueInv, Fifo;
    if !(d.available == 0 || d.waiters != []) {
      MintKeeps(d.owned, d.minted);
      AppendServed(d, Returned(d.minted));
    }
  }

  lemma AppendServed(d: Admission, x: Arrival)
    requires Inv(d) && NoneWaiting(d.arrivals) && Served(x)
    ensures QueueInv(d.waiters, d.arrivals + [x]) && Fifo(d.arrivals + [x]) && NoneWaiting(d.arrivals + [x])
  {
  }

  lemma AppendPending(d: Admission)
    requires Inv(d) && d.available == 0
    ensures Inv(d.(waiters := d.waiters + [|d.arrivals|], arrivals := d.arrivals + [Pending]))
  {
    var n := |d.arrivals|;
    assert forall t | t in d.waiters :: t in d.waiters + [n];
    assert n in d.waiters + [n];
  }

  lemma AcquireKeeps(a: Admission)
    requires Inv(a)
    ensures Inv(Acquire(a).0)
  {
    TryAcquireKeeps(a);
    var (d, lease) := TryAcquire(a);
    DiscardedKeeps(a);
    hide Inv, Discarded;
    if lease.None? {
      AvailableOrWaiting(a);
      AppendPending(d);
    }
  }

  lemma AvailableOrWaiting(a: Admission)
    requires Inv(a) && TryAcquire(a).1.None?
    ensures TryAcquire(a).0.available == 0
  {
    DiscardedKeeps(a);
  }

  lemma GrantFirst(d: Admission)
    requires QueueInv(d.waiters, d.arrivals) && Fifo(d.arrivals) && d.waiters != []
    requires forall t | t in d.waiters :: t < |d.arrivals| && d.arrivals[t].Pending?
    ensures var arrivals := d.arrivals[d.waiters[0] := Granted(d.minted)];
            QueueInv(d.waiters[1..], arrivals) && Fifo(arrivals)
  {
    var first := d.waiters[0];
    var arrivals := d.arrivals[first := Granted(d.minted)];
    assert d.waiters == [first] + d.waiters[1..];
    forall f, g | 0 <= f < g < |arrivals| && arrivals[f].Pending? ensures !Served(arrivals[g]) {
      assert f in d.waiters;
      assert g == first ==> f < first;
    }
  }

  lemma PassOnKeeps(a: Admission)
    requires 0 <= a.available && a.available + |a.owned| + 1 == a.capacity
    requires forall lease | lease in a.owned :: lease < a.minted
    requires QueueInv(a.waiters, a.arrivals) && Fifo(a.arrivals) && (a.available > 0 ==> NoneWaiting(a.arrivals))
    ensures PassOn(a).Ok? && Inv(PassOn(a).value)
  {
    LiveContents(a.waiters, a.arrivals);
    var d := Discarded(a);
    assert QueueInv(d.waiters, d.arrivals) by {
      forall i | 0 <= i < |d.waiters| ensures d.waiters[i] < |d.arrivals| { assert d.waiters[i] in d.waiters; }
    }
    if d.waiters != [] {
      assert a.arrivals[d.waiters[0]].Pending?;
      MintKeeps(d.owned, d.minted);
      GrantFirst(d);
    } else {
      assert NoneWaiting(a.arrivals);
    }
  }

  lemma ReleaseKeeps(a: Admission, lease: nat)
    requires Inv(a)
    ensures Release(a, lease).Ok? && Inv(Release(a, lease).value)
  {
    if lease in a.owned {
      hide PassOn, QueueInv, Fifo;
      PassOnKeeps(a.(owned := a.owned - {lease}));
    }
  }

  lemma HandoffKeeps(a: Admission, lease: nat)
    requires Inv(a)
    ensures Handoff(a, lease).Ok? ==> Inv(Handoff(a, lease).value.0)
  {
    hide QueueInv, Fifo;
    if lease in a.owned {
      MintKeeps(a.owned - {lease}, a.minted);
    }
  }

  lemma CancelKeeps(a: Admission, ticket: nat, x: Arrival)
    requires Inv(a) && ticket < |a.arrivals| && (x.Cancelled? || x.Left?)
    ensures Inv(a.(arrivals := a.arrivals[ticket := x]))
    ensures Inv(a.(arrivals := a.arrivals[ticket := x], waiters := Without(a.waiters, ticket)))
  {
    WithoutContents(a.waiters, ticket);
    var rest := Without(a.waiters, ticket);
    forall i | 0 <= i < |rest| ensures rest[i] < |a.arrivals| { assert rest[i] in rest; }
  }

  lemma DropKeeps(a: Admission, ticket: nat)
    requires Inv(a) && ticket < |a.arrivals| && !a.arrivals[ticket].Pending?
    ensures Inv(a.(waiters := Without(a.waiters, ticket)))
  {
    WithoutContents(a.waiters, ticket);
    var rest := Without(a.waiters, ticket);
    forall i | 0 <= i < |rest| ensures rest[i] < |a.arrivals| { assert rest[i] in rest; }
  }

  /** Passing a permit on never makes an arrival wait again. */
  lemma ReleaseLeaves(a: Admission, lease: nat, ticket: nat)
    requires Release(a, lease).Ok? && ticket < |a.arrivals| && !a.arrivals[ticket].Pending?
    ensures var next := Release(a, lease).value; ticket < |next.arrivals| && !next.arrivals[ticket].Pending?
  {
  }

  lemma AbandonKeeps(a: Admission, ticket: nat)
    requires Inv(a) && ticket < |a.arrivals|
    ensures Abandon(a, ticket).Ok? && Inv(Abandon(a, ticket).value)
  {
    hide Inv, Release, Without;
    CancelKeeps(a, ticket, Left);
    if a.arrivals[ticket].Granted? {
      var lease := a.arrivals[ticket].lease;
      var c := a.(arrivals := a.arrivals[ticket := Left]);
      ReleaseKeeps(c, lease);
      ReleaseLeaves(c, lease, ticket);
      DropKeeps(Release(c, lease).value, ticket);
    }
  }

  // ---- Runs -----------------------------------------------------------------

  datatype Step =
    | TryStep
    | AcquireStep
    | ReturnStep(ticket: nat)
    | CancelStep(ticket: nat)
    | AbandonStep(ticket: nat)
    | ReleaseStep(lease: nat)
    | HandoffStep(lease: nat)
    | AdoptStep(lease: nat, pending: bool)

  predicate Enabled(a: Admission, s: Step) {
    match s
    case ReturnStep(t) => t < |a.arrivals| && a.arrivals[t].Granted?
    case CancelStep(t) => t < |a.arrivals| && a.arrivals[t].Pending?
    case AbandonStep(t) =>
      t < |a.arrivals| && (a.arrivals[t].Granted? || a.arrivals[t].Pending? || a.arrivals[t].Cancelled?)
    case _ => true
  }

  function Taken(r: Result<(Admission, nat), Error>): Result<Admission, Error> {
    match r case Ok((a, _)) => Ok(a) case Err(e) => Err(e)
  }

  function After(a: Admission, s: Step): Result<Admission, Error>
    requires Enabled(a, s)
  {
    match s
    case TryStep => Ok(TryAcquire(a).0)
    case AcquireStep => Ok(Acquire(a).0)
    case ReturnStep(t) => Ok(a.(arrivals := a.arrivals[t := Returned(a.arrivals[t].lease)]))
    case CancelStep(t) => Ok(Cancel(a, t))
    case AbandonStep(t) => Abandon(a, t)
    case ReleaseStep(lease) => Release(a, lease)
    case HandoffStep(lease) => Taken(Handoff(a, lease))
    case AdoptStep(lease, pending) => Taken(Adopt(a, lease, pending))
  }

  /** The state a step leaves behind: an exception leaves the fields as they were. */
  function Next(a: Admission, s: Step): Admission
    requires Enabled(a, s)
  {
    match After(a, s) case Ok(next) => next case Err(_) => a
  }

  predicate Runs(a: Admission, steps: seq<Step>)
    decreases |steps|
  {
    steps == [] || (Enabled(a, steps[0]) && Runs(Next(a, steps[0]), steps[1..]))
  }

  function Reached(a: Admission, steps: seq<Step>): Admission
    requires Runs(a, steps)
    decreases |steps|
  {
    if steps == [] then a else Reached(Next(a, steps[0]), steps[1..])
  }

  lemma StepKeeps(a: Admission, s: Step)
    requires Inv(a) && Enabled(a, s)
    ensures Inv(Next(a, s)) && After(a, s) != Err(ExcessRelease)
  {
    hide Inv, TryAcquire, Acquire, Release, Handoff, Abandon;
    match s
    case TryStep => TryAcquireKeeps(a);
    case AcquireStep => AcquireKeeps(a);
    case ReturnStep(t) => ReturnKeeps(a, t);
    case CancelStep(t) => CancelKeeps(a, t, Cancelled);
    case AbandonStep(t) => AbandonKeeps(a, t);
    case ReleaseStep(lease) => ReleaseKeeps(a, lease);
    case HandoffStep(lease) => HandoffKeeps(a, lease); HandoffError(a, lease);
    case AdoptStep(lease, pending) => ReleaseKeeps(a, lease); HandoffKeeps(a, lease); HandoffError(a, lease);
  }

  lemma ReturnKeeps(a: Admission, t: nat)
    requires Inv(a) && Enabled(a, ReturnStep(t))
    ensures Inv(After(a, ReturnStep(t)).value)
  {
  }

  lemma HandoffError(a: Admission, lease: nat)
    ensures Handoff(a, lease) != Err(ExcessRelease)
  {
  }

  /**
   From a new allocator, whatever mix of acquisitions, time-outs and cancellations before
   or after a grant, with releases between them and the resumption, hand-offs and
   adoptions: free permits plus owned leases make up the capacity, nobody is served
   before an earlier live waiter, a free permit means nobody waits, and no further
   step can raise the excess error.
   */
  lemma {:induction false} RunsConserve(capacity: nat, steps: seq<Step>)
    requires Runs(New(capacity), steps)
    ensures var a := Reached(New(capacity), steps);
            && a.capacity == capacity
            && a.available + |a.owned| == capacity && 0 <= a.available
            && Fifo(a.arrivals)
            && (a.available > 0 ==> NoneWaiting(a.arrivals))
            && (forall s: Step | Enabled(a, s) :: After(a, s) != Err(ExcessRelease))
  {
    var a := Reached(New(capacity), steps);
    RunKeeps(New(capacity), steps);
    forall s: Step | Enabled(a, s) ensures After(a, s) != Err(ExcessRelease) {
      StepKeeps(a, s);
    }
  }

  lemma {:induction false} RunKeeps(a: Admission, steps: seq<Step>)
    requires Inv(a) && Runs(a, steps)
    ensures Inv(Reached(a, steps)) && Reached(a, steps).capacity == a.capacity
    decreases |steps|
  {
    if steps != [] {
      StepKeeps(a, steps[0]);
      CapacityStays(a, steps[0]);
      hide Inv, Next, Enabled;
      RunKeeps(Next(a, steps[0]), steps[1..]);
    }
  }

  lemma CapacityStays(a: Admission, s: Step)
    requires Enabled(a, s)
    ensures Next(a, s).capacity == a.capacity
  {
    hide Live, Without;
  }

  // ---- Who is served --------------------------------------------------------

  predicate Earliest(arrivals: seq<Arrival>, t: nat) {
    t < |arrivals| && arrivals[t].Pending? && forall e | 0 <= e < t :: !arrivals[e].Pending?
  }

  /**
   A freed permit is granted to the earliest live arrival past every future that is done but
   still queued, with a lease nobody had, and changes nothing for anyone else.
   */
  lemma FreedPermitGoesToTheEarliest(a: Admission, lease: nat, t: nat)
    requires Inv(a) && lease in a.owned && Earliest(a.arrivals, t)
    ensures var r := Release(a, lease);
            && r.Ok? && a.minted !in a.owned
            && r.value.arrivals == a.arrivals[t := Granted(a.minted)]
            && r.value.owned == a.owned - {lease} + {a.minted} && r.value.available == a.available
  {
    LiveContents(a.waiters, a.arrivals);
    var live := Live(a.waiters, a.arrivals);
    hide Live;
    var i :| 0 <= i < |live| && live[i] == t;
    assert live[0] in live;
    assert live[0] <= live[i];
  }

  lemma {:induction false} RunsOn(a: Admission, steps: seq<Step>, s: Step)
    requires Runs(a, steps) && Enabled(Reached(a, steps), s)
    ensures Runs(a, steps + [s]) && Reached(a, steps + [s]) == Next(Reached(a, steps), s)
    decreases |steps|
  {
    hide Next, Enabled;
    if steps == [] {
      assert steps + [s] == [s] && [s][1..] == [];
    } else {
      assert (steps + [s])[0] == steps[0] && (steps + [s])[1..] == steps[1..] + [s];
      RunsOn(Next(a, steps[0]), steps[1..], s);
    }
  }

  /** A lone permit is out, and two more calls wait. */
  lemma TwoWait() returns (steps: seq<Step>)
    ensures Runs(New(1), steps)
    ensures Reached(New(1), steps) == Admission(1, 0, [1, 2], [Returned(0), Pending, Pending], {0}, 1)
  {
    hide Runs, Reached;
    assert Runs(New(1), []) && Reached(New(1), []) == New(1) by { EmptyRun(New(1)); }
    RunsOn(New(1), [], AcquireStep);
    RunsOn(New(1), [] + [AcquireStep], AcquireStep);
    var one := Admission(1, 0, [1], [Returned(0), Pending], {0}, 1);
    assert Next(Next(New(1), AcquireStep), AcquireStep) == one;
    assert Live([1], one.arrivals) == [1];
    RunsOn(New(1), [] + [AcquireStep] + [AcquireStep], AcquireStep);
    steps := [] + [AcquireStep] + [AcquireStep] + [AcquireStep];
  }

  lemma EmptyRun(a: Admission)
    ensures Runs(a, []) && Reached(a, []) == a
  {
  }

  /** A done future can still be queued when a permit is freed, and is passed over. */
  lemma CancelledWaiterIsPassedOver() returns (steps: seq<Step>)
    ensures Runs(New(1), steps)
    ensures var a := Reached(New(1), steps);
            && a.waiters == [1, 2] && a.arrivals == [Returned(0), Cancelled, Pending]
            && Release(a, 0).Ok? && Release(a, 0).value.arrivals == [Returned(0), Cancelled, Granted(1)]
  {
    hide Runs, Reached;
    steps := TwoWait();
    RunKeepsNew(1, steps);
    RunsOn(New(1), steps, CancelStep(1));
    steps := steps + [CancelStep(1)];
    RunKeepsNew(1, steps);
    FreedPermitGoesToTheEarliest(Reached(New(1), steps), 0, 2);
  }

  lemma RunKeepsNew(capacity: nat, steps: seq<Step>)
    requires Runs(New(capacity), steps)
    ensures Inv(Reached(New(capacity), steps))
  {
    RunKeeps(New(capacity), steps);
  }
}
