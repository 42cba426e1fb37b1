// Bounded terminal calls (services/mt5_gateway/runtime.py, call_mt5_bounded and
// _run_mt5_op). Each call runs on a worker of its own that takes the ops lock
// itself; the caller joins the worker for a bounded time and may leave it behind.
module BoundedCalls {
  import opened Wrappers

  datatype Outcome = Value(result: int) | Raised(error: int)

  // A worker queues for the lock, runs, records its outcome as it lets the lock
  // go, and at last exits.
  datatype Work = Queued | Running(began: real) | Ended(began: real, ended: real, outcome: Outcome, exited: Option<real>)

  datatype Caller = Joining | TimedOut(at: real) | Returned(outcome: Outcome)

  datatype Call = Call(locked: bool, deadline: real, work: Work, caller: Caller)

  // The lock is held by one worker or by a health probe.
  datatype Holder = Worker(call: nat) | Probe

  datatype State = State(now: real, calls: seq<Call>, lock: Option<Holder>)

  datatype Step =
    | Start(locked: bool, timeout: real)
    | Acquire(call: nat)
    | Finish(call: nat, outcome: Outcome)
    | Exit(call: nat)
    | Join(call: nat)
    | GiveUp(call: nat)
    | ProbeTake
    | ProbeDrop
    | Pass(delay: real)

  const SHORTEST_WAIT := 0.05

  function Deadline(now: real, timeout: real): real {
    now + if timeout > SHORTEST_WAIT then timeout else SHORTEST_WAIT
  }

  predicate Begun(w: Work) {
    !w.Queued?
  }

  predicate Exited(w: Work) {
    w.Ended? && w.exited.Some?
  }

  predicate Enabled(s: State, e: Step) {
    match e
    case Start(_, _) => true
    case Acquire(i) => i < |s.calls| && s.calls[i].work.Queued? && (s.calls[i].locked ==> s.lock.None?)
    case Finish(i, _) => i < |s.calls| && s.calls[i].work.Running?
    case Exit(i) => i < |s.calls| && s.calls[i].work.Ended? && s.calls[i].work.exited.None?
    case Join(i) => i < |s.calls| && s.calls[i].caller.Joining? && Exited(s.calls[i].work)
    case GiveUp(i) => i < |s.calls| && s.calls[i].caller.Joining? && !Exited(s.calls[i].work) && s.now >= s.calls[i].deadline
    case ProbeTake => s.lock.None?
    case ProbeDrop => s.lock == Some(Probe)
    case Pass(d) => d >= 0.0
  }

  function Put(s: State, i: nat, c: Call): State
    requires i < |s.calls|
  {
    s.(calls := s.calls[i := c])
  }

  function Do(s: State, e: Step): State {
    if !Enabled(s, e) then s
    else
      match e
      case Start(locked, timeout) => s.(calls := s.calls + [Call(locked, Deadline(s.now, timeout), Queued, Joining)])
      case Acquire(i) =>
        Put(s, i, s.calls[i].(work := Running(s.now))).(lock := if s.calls[i].locked then Some(Worker(i)) else s.lock)
      case Finish(i, o) =>
        Put(s, i, s.calls[i].(work := Ended(s.calls[i].work.began, s.now, o, None))).(lock := if s.calls[i].locked then None else s.lock)
      case Exit(i) => Put(s, i, s.calls[i].(work := s.calls[i].work.(exited := Some(s.now))))
      case Join(i) => Put(s, i, s.calls[i].(caller := Returned(s.calls[i].work.outcome)))
      case GiveUp(i) => Put(s, i, s.calls[i].(caller := TimedOut(s.now)))
      case ProbeTake => s.(lock := Some(Probe))
      case ProbeDrop => s.(lock := None)
      case Pass(d) => s.(now := s.now + d)
  }

  function Reached(s: State, steps: seq<Step>): State {
    if steps == [] then s else Do(Reached(s, steps[..|steps| - 1]), steps[|steps| - 1])
  }

  const IDLE := State(0.0, [], None)

  // ---------------------------------------------------------------------
  // One call at a time

  // `first` let the terminal go before `second` touched it.
  predicate Before(first: Work, second: Work) {
    first.Ended? && Begun(second) && first.ended <= second.began
  }

  predicate Timely(c: Call, now: real) {
    && (c.work.Running? ==> c.work.began <= now)
    && (c.work.Ended? ==> c.work.began <= c.work.ended <= now)
    && (Exited(c.work) ==> c.work.ended <= c.work.exited.value <= now)
    && (c.caller.Returned? ==> Exited(c.work) && c.caller.outcome == c.work.outcome)
    && (c.caller.TimedOut? ==> c.deadline <= c.caller.at <= now && (Exited(c.work) ==> c.caller.at <= c.work.exited.value))
  }

  predicate LockKept(s: State) {
    && (forall i :: 0 <= i < |s.calls| ==> (s.lock == Some(Worker(i)) <==> s.calls[i].locked && s.calls[i].work.Running?))
    && (s.lock.Some? && s.lock.value.Worker? ==> s.lock.value.call < |s.calls|)
  }

  predicate NoOverlap(s: State) {
    forall i, j :: 0 <= i < |s.calls| && 0 <= j < |s.calls| && i != j && s.calls[i].locked && s.calls[j].locked
      && Begun(s.calls[i].work) && Begun(s.calls[j].work)
      ==> Before(s.calls[i].work, s.calls[j].work) || Before(s.calls[j].work, s.calls[i].work)
  }

  predicate Kept(s: State) {
    LockKept(s) && NoOverlap(s) && forall i :: 0 <= i < |s.calls| ==> Timely(s.calls[i], s.now)
  }

  lemma StepKeepsLock(s: State, e: Step)
    requires LockKept(s)
    ensures LockKept(Do(s, e))
  {
  }

  lemma StepKeepsTimes(s: State, e: Step)
    requires forall i :: 0 <= i < |s.calls| ==> Timely(s.calls[i], s.now)
    ensures forall i :: 0 <= i < |Do(s, e).calls| ==> Timely(Do(s, e).calls[i], Do(s, e).now)
  {
    var t := Do(s, e);
    forall i | 0 <= i < |t.calls|
      ensures Timely(t.calls[i], t.now)
    {
      if i < |s.calls| {
        assert Timely(s.calls[i], s.now);
      }
    }
  }

  // A worker may begin only while no locked worker runs, hence after all others ended.
  lemma AcquireKeepsNoOverlap(s: State, i: nat)
    requires Kept(s) && Enabled(s, Acquire(i))
    ensures NoOverlap(Do(s, Acquire(i)))
  {
    var t := Do(s, Acquire(i));
    forall j | 0 <= j < |t.calls| && j != i && s.calls[i].locked && s.calls[j].locked && Begun(s.calls[j].work)
      ensures Before(t.calls[j].work, t.calls[i].work)
    {
      assert Timely(s.calls[j], s.now);
    }
  }

  lemma StepKeepsNoOverlap(s: State, e: Step)
    requires Kept(s)
    ensures NoOverlap(Do(s, e))
  {
    if e.Acquire? && Enabled(s, e) {
      AcquireKeepsNoOverlap(s, e.call);
    } else {
      var t := Do(s, e);
      forall i | 0 <= i < |t.calls| && Begun(t.calls[i].work)
        ensures i < |s.calls| && Begun(s.calls[i].work) && t.calls[i].locked == s.calls[i].locked
        ensures t.calls[i].work.began == s.calls[i].work.began
        ensures s.calls[i].work.Ended? ==> t.calls[i].work.Ended? && t.calls[i].work.ended == s.calls[i].work.ended
      {
      }
    }
  }

  lemma StepKeeps(s: State, e: Step)
    requires Kept(s)
    ensures Kept(Do(s, e))
  {
    StepKeepsLock(s, e);
    StepKeepsTimes(s, e);
    StepKeepsNoOverlap(s, e);
  }

  lemma {:induction false} RunKeeps(s: State, steps: seq<Step>)
    requires Kept(s)
    ensures Kept(Reached(s, steps))
  {
    if steps != [] {
      RunKeeps(s, steps[..|steps| - 1]);
      StepKeeps(Reached(s, steps[..|steps| - 1]), steps[|steps| - 1]);
    }
  }

  // Over any run, the terminal time of two locked calls never overlaps, so at
  // most one of them is running, orphans of timed-out callers included.
  lemma LockedCallsNeverOverlap(steps: seq<Step>, i: nat, j: nat)
    requires var s := Reached(IDLE, steps);
             i < |s.calls| && j < |s.calls| && i != j && s.calls[i].locked && s.calls[j].locked
             && Begun(s.calls[i].work) && Begun(s.calls[j].work)
    ensures var v, w := Reached(IDLE, steps).calls[i].work, Reached(IDLE, steps).calls[j].work;
            Before(v, w) || Before(w, v)
  {
    RunKeeps(IDLE, steps);
  }

  // A caller receives its own worker's outcome or its own timeout, and it times
  // out only at its deadline with the worker still alive.
  lemma CallerGetsItsOwnOutcome(steps: seq<Step>, i: nat)
    requires i < |Reached(IDLE, steps).calls|
    ensures var c := Reached(IDLE, steps).calls[i];
            && (c.caller.Returned? ==> Exited(c.work) && c.caller.outcome == c.work.outcome)
            && (c.caller.TimedOut? ==> c.caller.at >= c.deadline && (Exited(c.work) ==> c.caller.at <= c.work.exited.value))
  {
    RunKeeps(IDLE, steps);
    assert Timely(Reached(IDLE, steps).calls[i], Reached(IDLE, steps).now);
  }

  // ---------------------------------------------------------------------
  // What later steps cannot change

  // A finished call keeps its outcome and a settled caller its answer.
  predicate Settles(c: Call, d: Call) {
    && d.locked == c.locked && d.deadline == c.deadline
    && (c.work.Ended? ==> d.work.Ended? && d.work.(exited := None) == c.work.(exited := None))
    && (!c.caller.Joining? ==> d.caller == c.caller)
  }

  lemma {:induction false} OutcomesAreFinal(s: State, steps: seq<Step>, i: nat)
    requires i < |s.calls|
    ensures i < |Reached(s, steps).calls| && Settles(s.calls[i], Reached(s, steps).calls[i])
  {
    if steps != [] {
      OutcomesAreFinal(s, steps[..|steps| - 1], i);
    }
  }

  // Since s, worker i has kept the lock and no other locked call has begun.
  predicate Excludes(s: State, t: State, i: nat) {
    && i < |s.calls| <= |t.calls|
    && t.calls[i].locked && t.calls[i].work == s.calls[i].work && s.calls[i].work.Running?
    && t.lock == Some(Worker(i))
    && (forall j :: 0 <= j < |s.calls| && s.calls[j].work.Queued? && s.calls[j].locked ==> t.calls[j].work.Queued? && t.calls[j].locked)
    && (forall j :: |s.calls| <= j < |t.calls| && t.calls[j].locked ==> t.calls[j].work.Queued?)
  }

  lemma StepExcludes(s: State, t: State, i: nat, e: Step)
    requires Excludes(s, t, i) && !(e.Finish? && e.call == i)
    requires forall j :: 0 <= j < |t.calls| && j != i && t.calls[j].locked ==> !t.calls[j].work.Running?
    ensures Excludes(s, Do(t, e), i)
  {
  }

  // While a locked worker runs, whether or not anyone still waits for it, no
  // other locked call begins and no probe gets in.
  lemma {:induction false} RunningWorkerExcludesAll(s: State, steps: seq<Step>, i: nat)
    requires Kept(s) && i < |s.calls| && s.calls[i].locked && s.calls[i].work.Running?
    requires forall k :: 0 <= k < |steps| ==> !(steps[k].Finish? && steps[k].call == i)
    ensures Excludes(s, Reached(s, steps), i)
  {
    if steps != [] {
      var front := steps[..|steps| - 1];
      assert forall k :: 0 <= k < |front| ==> front[k] == steps[k];
      RunningWorkerExcludesAll(s, front, i);
      RunKeeps(s, front);
      StepExcludes(s, Reached(s, front), i, steps[|steps| - 1]);
    }
  }

  // A caller is never wedged: from its deadline on, exactly one of returning and
  // timing out is possible, and either settles it.
  lemma DeadlineSettlesTheCaller(s: State, i: nat)
    requires i < |s.calls| && s.calls[i].caller.Joining? && s.now >= s.calls[i].deadline
    ensures Enabled(s, Join(i)) <==> !Enabled(s, GiveUp(i))
    ensures !Do(Do(s, Join(i)), GiveUp(i)).calls[i].caller.Joining?
  {
  }

  // A result that arrives before the caller looks is returned, even past the deadline.
  lemma FinishedWorkIsReturned(s: State, i: nat)
    requires i < |s.calls| && s.calls[i].caller.Joining? && Exited(s.calls[i].work)
    ensures Do(s, GiveUp(i)) == s
    ensures Do(s, Join(i)).calls[i].caller == Returned(s.calls[i].work.outcome)
  {
  }

  // The lock is never lost: if no locked worker runs and no probe holds it, any
  // queued worker may begin.
  lemma IdleLockIsFree(steps: seq<Step>, i: nat)
    requires var s := Reached(IDLE, steps);
             && i < |s.calls| && s.calls[i].work.Queued? && s.lock != Some(Probe)
             && forall j :: 0 <= j < |s.calls| && s.calls[j].locked ==> !s.calls[j].work.Running?
    ensures Enabled(Reached(IDLE, steps), Acquire(i))
  {
    hide Reached;
    RunKeeps(IDLE, steps);
    var s := Reached(IDLE, steps);
    assert s.lock.Some? && s.lock.value.Worker? ==> s.lock == Some(Worker(s.lock.value.call));
  }

  // ---------------------------------------------------------------------
  // What a call owes to the steps that made it

  // Step k of the run started call i, with the timeout its deadline is made of.
  predicate StartedAt(steps: seq<Step>, k: nat, i: nat, c: Call) {
    && k < |steps| && steps[k].Start? && steps[k].locked == c.locked
    && var start := Reached(IDLE, steps[..k]);
       |start.calls| == i
       && c.deadline >= start.now + steps[k].timeout && c.deadline >= start.now + 0.05
       && (c.deadline == start.now + steps[k].timeout || c.deadline == start.now + 0.05)
  }

  lemma StepStarts(s: State, e: Step, i: nat)
    requires i < |Do(s, e).calls|
    ensures i < |s.calls| ==> Do(s, e).calls[i].locked == s.calls[i].locked && Do(s, e).calls[i].deadline == s.calls[i].deadline
    ensures i >= |s.calls| ==>
              && i == |s.calls| && e.Start? && Do(s, e).calls[i].locked == e.locked
              && Do(s, e).calls[i].deadline == s.now + if e.timeout > 0.05 then e.timeout else 0.05
  {
  }

  lemma {:induction false} CallIsAsStarted(steps: seq<Step>, i: nat) returns (k: nat)
    requires i < |Reached(IDLE, steps).calls|
    ensures StartedAt(steps, k, i, Reached(IDLE, steps).calls[i])
  {
    hide Do;
    var front, last := steps[..|steps| - 1], steps[|steps| - 1];
    StepStarts(Reached(IDLE, front), last, i);
    if i < |Reached(IDLE, front).calls| {
      k := CallIsAsStarted(front, i);
      assert front[..k] == steps[..k];
    } else {
      k := |front|;
      assert steps[..k] == front;
    }
  }

  // A caller gives up no earlier than its own timeout, and never within a
  // twentieth of a second, after it started.
  lemma GivesUpNoEarlier(steps: seq<Step>, i: nat) returns (k: nat)
    requires i < |Reached(IDLE, steps).calls| && Reached(IDLE, steps).calls[i].caller.TimedOut?
    ensures StartedAt(steps, k, i, Reached(IDLE, steps).calls[i])
    ensures var at, start := Reached(IDLE, steps).calls[i].caller.at, Reached(IDLE, steps[..k]).now;
            at >= start + steps[k].timeout && at >= start + 0.05
  {
    hide Reached;
    CallerGetsItsOwnOutcome(steps, i);
    k := CallIsAsStarted(steps, i);
  }

  predicate EndedWith(s: State, i: nat, o: Outcome) {
    i < |s.calls| && s.calls[i].work.Ended? && s.calls[i].work.outcome == o
  }

  lemma StepEnds(s: State, e: Step, i: nat, o: Outcome)
    ensures EndedWith(Do(s, e), i, o) <==> EndedWith(s, i, o) || (e == Finish(i, o) && Enabled(s, e))
  {
  }

  predicate Finishes(s: State, steps: seq<Step>, i: nat, o: Outcome) {
    exists k | 0 <= k < |steps| :: steps[k] == Finish(i, o) && Enabled(Reached(s, steps[..k]), steps[k])
  }

  // A worker has ended with an outcome exactly when its own call finished with it.
  lemma {:induction false} EndedIffFinished(steps: seq<Step>, i: nat, o: Outcome)
    ensures EndedWith(Reached(IDLE, steps), i, o) <==> Finishes(IDLE, steps, i, o)
  {
    hide Do, Enabled;
    if steps != [] {
      var front, last := steps[..|steps| - 1], steps[|steps| - 1];
      EndedIffFinished(front, i, o);
      StepEnds(Reached(IDLE, front), last, i, o);
      assert forall k :: 0 <= k < |front| ==> front[k] == steps[k] && front[..k] == steps[..k];
      assert steps[..|front|] == front;
    }
  }

  // So a caller that returns brings what its own worker's call finished with.
  lemma ReturnedIsFinished(steps: seq<Step>, i: nat)
    requires i < |Reached(IDLE, steps).calls| && Reached(IDLE, steps).calls[i].caller.Returned?
    ensures Finishes(IDLE, steps, i, Reached(IDLE, steps).calls[i].caller.outcome)
  {
    hide Reached, Finishes;
    CallerGetsItsOwnOutcome(steps, i);
    EndedIffFinished(steps, i, Reached(IDLE, steps).calls[i].caller.outcome);
  }
}
