/** The admission object: permits, waiting futures and leases updated in place. */
module LocalTransferAdmission {
  import opened Basics
  import A = Admission

  lemma {:induction false} LiveSnoc(waiters: seq<nat>, arrivals: seq<A.Arrival>, last: nat)
    ensures A.Live(waiters + [last], arrivals)
         == A.Live(waiters, arrivals) + if last < |arrivals| && arrivals[last].Pending? then [last] else []
  {
    if waiters == [] {
      assert [] + [last] == [last] && [last][1..] == [];
    } else {
      assert (waiters + [last])[1..] == waiters[1..] + [last];
      LiveSnoc(waiters[1..], arrivals, last);
    }
  }

  lemma {:induction false} WithoutAt(waiters: seq<nat>, ticket: nat, i: nat)
    requires i <= |waiters| && ticket !in waiters[..i]
    requires i < |waiters| ==> waiters[i] == ticket
    ensures A.Without(waiters, ticket) == if i < |waiters| then waiters[..i] + waiters[i + 1..] else waiters
  {
    if i > 0 {
      assert waiters[..i][0] == waiters[0] && waiters[1..][..i - 1] == waiters[..i][1..];
      WithoutAt(waiters[1..], ticket, i - 1);
      assert i < |waiters| ==> [waiters[0]] + waiters[1..][..i - 1] == waiters[..i];
      assert [waiters[0]] + waiters[1..] == waiters;
    }
  }

  class LocalTransferAdmission {
    const capacity: nat
    var available: int
    var waiters: seq<nat>
    var arrivals: seq<A.Arrival>
    var owned: set<nat>
    var minted: nat

    function State(): A.Admission
      reads this
    {
      A.Admission(capacity, available, waiters, arrivals, owned, minted)
    }

    ghost predicate Valid()
      reads this
    {
      A.Inv(State())
    }

    constructor (capacity: nat)
      requires capacity >= 1
      ensures Valid() && State() == A.New(capacity)
    {
      this.capacity := capacity;
      available, waiters, arrivals, owned, minted := capacity, [], [], {}, 0;
    }

    method DiscardFinishedWaiters()
      modifies this`waiters
      ensures State() == A.Discarded(old(State()))
    {
      var kept: seq<nat> := [];
      for i := 0 to |waiters|
        invariant State() == old(State())
        invariant kept == A.Live(waiters[..i], arrivals)
      {
        assert waiters[..i + 1] == waiters[..i] + [waiters[i]];
        LiveSnoc(waiters[..i], arrivals, waiters[i]);
        if waiters[i] < |arrivals| && arrivals[waiters[i]].Pending? {
          kept := kept + [waiters[i]];
        }
      }
      assert waiters[..|waiters|] == waiters;
      waiters := kept;
    }

    method Mint() returns (lease: nat)
      modifies this`owned, this`minted
      ensures State() == A.Mint(old(State())) && lease == old(minted)
    {
      lease := minted;
      owned, minted := owned + {lease}, minted + 1;
    }

    method TryAcquire() returns (lease: Option<nat>)
      requires Valid()
      modifies this
      ensures Valid()
      ensures State() == A.TryAcquire(old(State())).0
      ensures lease == A.TryAcquire(old(State())).1
    {
      hide A.Inv, A.Live;
      A.TryAcquireKeeps(State());
      DiscardFinishedWaiters();
      if available == 0 || waiters != [] {
        return None;
      }
      available := available - 1;
      arrivals := arrivals + [A.Returned(minted)];
      var id := Mint();
      lease := Some(id);
    }

    /** `acquire` until it returns or suspends; a suspended call holds its arrival number. */
    method Acquire() returns (lease: Option<nat>)
      requires Valid()
      modifies this
      ensures Valid()
      ensures State() == A.Acquire(old(State())).0
      ensures lease == A.Acquire(old(State())).1
    {
      hide A.Inv, A.TryAcquire;
      A.AcquireKeeps(State());
      lease := TryAcquire();
      if lease.None? {
        waiters := waiters + [|arrivals|];
        arrivals := arrivals + [A.Pending];
      }
    }

    /** `_release`; after the discard the first waiter, if there is one, is unresolved. */
    method PassOn() returns (r: Result<(), A.Error>)
      modifies this
      ensures match A.PassOn(old(State()))
              case Ok(next) => r == Ok(()) && State() == next
              case Err(e) => r == Err(e)
    {
      DiscardFinishedWaiters();
      if waiters != [] {
        var waiter := waiters[0];
        waiters := waiters[1..];
        arrivals := arrivals[waiter := A.Granted(minted)];
        var _ := Mint();
        return Ok(());
      }
      if available >= capacity {
        return Err(A.ExcessRelease);
      }
      available := available + 1;
      r := Ok(());
    }

    /** Idempotent; in a valid allocator it cannot fail. */
    method Release(lease: nat) returns (r: Result<(), A.Error>)
      requires Valid()
      modifies this
      ensures Valid() && r == Ok(())
      ensures A.Release(old(State()), lease) == Ok(State())
    {
      hide A.Inv, A.PassOn;
      A.ReleaseKeeps(State(), lease);
      if lease !in owned {
        return Ok(());
      }
      owned := owned - {lease};
      r := PassOn();
    }

    method Handoff(lease: nat) returns (r: Result<nat, A.Error>)
      requires Valid()
      modifies this`owned, this`minted
      ensures Valid()
      ensures match A.Handoff(old(State()), lease)
              case Ok((next, fresh_)) => r == Ok(fresh_) && State() == next
              case Err(e) => r == Err(e) && State() == old(State())
    {
      hide A.Inv;
      A.HandoffKeeps(State(), lease);
      if lease !in owned {
        return Err(A.NotOwned);
      }
      owned := owned - {lease};
      var moved := Mint();
      r := Ok(moved);
    }

    method RemoveWaiter(ticket: nat)
      modifies this`waiters
      ensures State() == old(State()).(waiters := A.Without(old(waiters), ticket))
    {
      var i := 0;
      while i < |waiters| && waiters[i] != ticket
        invariant i <= |waiters| && ticket !in waiters[..i]
      {
        assert waiters[..i + 1] == waiters[..i] + [waiters[i]];
        i := i + 1;
      }
      WithoutAt(waiters, ticket, i);
      if i < |waiters| {
        waiters := waiters[..i] + waiters[i + 1..];
      }
    }

    /** The future of a waiting call is cancelled; its coroutine has not resumed. */
    method Cancel(ticket: nat)
      requires Valid() && ticket < |arrivals|
      modifies this`arrivals
      ensures Valid() && State() == A.Cancel(old(State()), ticket)
    {
      hide A.Inv;
      A.CancelKeeps(State(), ticket, A.Cancelled);
      if arrivals[ticket].Pending? {
        arrivals := arrivals[ticket := A.Cancelled];
      }
    }

    /** A waiting call resumes with an exception; a lease granted meanwhile goes back. */
    method Abandon(ticket: nat)
      requires Valid() && ticket < |arrivals|
      modifies this
      ensures Valid() && A.Abandon(old(State()), ticket) == Ok(State())
    {
      hide A.Inv, A.Release, A.Without;
      A.AbandonKeeps(State(), ticket);
      A.CancelKeeps(State(), ticket, A.Left);
      if arrivals[ticket].Granted? {
        var lease := arrivals[ticket].lease;
        arrivals := arrivals[ticket := A.Left];
        var _ := Release(lease);
        RemoveWaiter(ticket);
      } else if arrivals[ticket].Pending? || arrivals[ticket].Cancelled? {
        arrivals := arrivals[ticket := A.Left];
        RemoveWaiter(ticket);
      }
    }

    /** `adopt`: the lease moves to a drain owner, or is released when nothing drains. */
    method Adopt(lease: nat, pending: bool) returns (r: Result<nat, A.Error>)
      requires Valid()
      modifies this
      ensures Valid()
      ensures match A.Adopt(old(State()), lease, pending)
              case Ok((next, held)) => r == Ok(held) && State() == next
              case Err(e) => r == Err(e) && State() == old(State())
    {
      hide A.Inv, A.Release;
      if pending {
        r := Handoff(lease);
      } else {
        var _ := Release(lease);
        r := Ok(lease);
      }
    }
  }
}
