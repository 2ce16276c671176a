/**
 Runs of the whole manager.  Whatever its handlers, workers, purges and evictions do to all
 identifiers together, what happens to any one of them is a run of the slot machine, so what
 holds of every such run holds of the manager.
 */
module ManagerRuns {
  import opened Basics
  import opened Protocol
  import opened TransferSlot
  import opened TransferRuns
  import opened TransferManager

  /** `states[i + 1]` follows `states[i]`. */
  ghost predicate ManagerRun(h: Hash, states: seq<Manager>, records: seq<Record>) {
    && |states| == |records| + 1
    && forall i | 0 <= i < |records| :: Follows(h, states[i], records[i], states[i + 1])
  }

  /** What was seen of one identifier. */
  function Seen(records: seq<Record>, id: Uuid): seq<Event> {
    if records == [] then []
    else
      var last := records[|records| - 1];
      Seen(records[..|records| - 1], id) +
      match last
      case Moved(addressed, _, _, events) => if addressed == id then events else []
      case ShutDown(_, seen) => SeenFor(seen, id)
  }

  /** One step of the manager is at most two of the identifier. */
  lemma StepProjects(h: Hash, m: Manager, r: Record, m': Manager, id: Uuid) returns (actions: seq<Action>)
    requires Follows(h, m, r, m')
    ensures Runs(h, ViewOf(m, id), actions) && Reached(h, ViewOf(m, id), actions) == ViewOf(m', id)
    ensures Trace(h, ViewOf(m, id), actions) ==
            match r
            case Moved(addressed, _, _, events) => if addressed == id then events else []
            case ShutDown(_, seen) => SeenFor(seen, id)
  {
    hide ViewOf, ReaderStep, SenderStep, ReceiverStep, ShutdownStep, SenderCan, ReceiverCan;
    var life, after := ViewOf(m, id), ViewOf(m', id);
    match r
    case ShutDown(rooms, seen) =>
      ClosedView(m, id);
      actions := OneStep(h, life, Shutdown(RoomFor(rooms, id)));
    case Moved(addressed, a, purge, events) =>
      if addressed != id {
        if after == life {
          actions := [];
        } else {
          actions := OneStep(h, life, TombstoneForgotten);
        }
      } else if Purged(life, purge) == life {
        actions := OneStep(h, life, a);
      } else {
        actions := TwoSteps(h, life, a);
      }
  }

  lemma ClosedView(m: Manager, id: Uuid)
    ensures ViewOf(m, id).closed == m.closed
  {
  }

  lemma OneStep(h: Hash, life: Life, a: Action) returns (actions: seq<Action>)
    requires Enabled(life, a)
    ensures Runs(h, life, actions) && Reached(h, life, actions) == Step(h, life, a).life
    ensures Trace(h, life, actions) == Step(h, life, a).events
  {
    hide Step, Enabled;
    actions := [a];
    assert actions[1..] == [];
    var o := Step(h, life, a);
    assert Runs(h, o.life, []) && Reached(h, o.life, []) == o.life && Trace(h, o.life, []) == [];
    assert o.events + [] == o.events;
  }

  lemma TwoSteps(h: Hash, life: Life, a: Action) returns (actions: seq<Action>)
    requires Enabled(life.(tomb := None), a)
    ensures Runs(h, life, actions) && Reached(h, life, actions) == Step(h, life.(tomb := None), a).life
    ensures Trace(h, life, actions) == Step(h, life.(tomb := None), a).events
  {
    var next := life.(tomb := None);
    assert Enabled(life, TombstoneForgotten) && Step(h, life, TombstoneForgotten) == Outcome(next, []);
    hide Step, Enabled;
    var rest := OneStep(h, next, a);
    actions := [TombstoneForgotten] + rest;
    assert actions[1..] == rest;
    assert [] + Trace(h, next, rest) == Trace(h, next, rest);
  }

  lemma {:induction false} RunsJoin(h: Hash, life: Life, first: seq<Action>, rest: seq<Action>)
    requires Runs(h, life, first) && Runs(h, Reached(h, life, first), rest)
    ensures Runs(h, life, first + rest)
    ensures Reached(h, life, first + rest) == Reached(h, Reached(h, life, first), rest)
    ensures Trace(h, life, first + rest) == Trace(h, life, first) + Trace(h, Reached(h, life, first), rest)
    decreases |first|
  {
    hide Step, Enabled;
    if first == [] {
      assert first + rest == rest;
    } else {
      assert (first + rest)[0] == first[0] && (first + rest)[1..] == first[1..] + rest;
      RunsJoin(h, Step(h, life, first[0]).life, first[1..], rest);
    }
  }

  /** The manager's run, seen from one identifier, is a run of the slot machine with the same events. */
  lemma {:induction false} RunProjects(h: Hash, states: seq<Manager>, records: seq<Record>, id: Uuid)
    returns (actions: seq<Action>)
    requires ManagerRun(h, states, records)
    ensures Runs(h, ViewOf(states[0], id), actions)
    ensures Reached(h, ViewOf(states[0], id), actions) == ViewOf(states[|records|], id)
    ensures Trace(h, ViewOf(states[0], id), actions) == Seen(records, id)
    decreases |records|
  {
    hide ViewOf, Follows;
    if records == [] {
      actions := [];
    } else {
      var n := |records| - 1;
      assert records[..n] == records[..|records| - 1];
      var first := RunProjects(h, states[..n + 1], records[..n], id);
      var rest := StepProjects(h, states[n], records[n], states[n + 1], id);
      RunsJoin(h, ViewOf(states[0], id), first, rest);
      actions := first + rest;
    }
  }

  /**
   From a manager that holds nothing for an identifier, in every run of all its identifiers
   with purges and evictions: what is seen of the identifier is permitted and safe.
   */
  lemma ManagerRunsAreSafe(h: Hash, states: seq<Manager>, records: seq<Record>, id: Uuid)
    requires ManagerRun(h, states, records) && ViewOf(states[0], id) == FRESH
    ensures TraceOk(h, UNSEEN, Seen(records, id)) && Safe(ObserveAll(UNSEEN, Seen(records, id)))
  {
    var actions := RunProjects(h, states, records, id);
    RunsAreSafe(h, actions);
  }
}
