// Single flight for identical requests, and the plain market calls that share
// its semaphore (services/mt5_gateway/routers.py). Between two awaits a coroutine
// runs alone on the event loop, so each such stretch is one step.
module SingleFlight {
  import opened Wrappers

  datatype Lane = Market | Calc

  datatype Outcome = Success(value: int) | Failure(error: int)

  // The call behind one future: waiting for its semaphore, in the worker thread,
  // finished at some moment, or dropped because its only request was cancelled;
  // its thread, if it had one, then runs on by itself.
  datatype Progress = Queued | Running | Done(outcome: Outcome, at: nat) | Dropped(inThread: bool)

  // A plain call has no key: nobody can join it.
  datatype Flight = Flight(key: Option<string>, lane: Lane, progress: Progress)

  // One request waiting for a flight: behind a shield for a keyed one, directly
  // for a plain one.
  datatype Status = Waiting | Got(outcome: Outcome) | Cancelled

  datatype Waiter = Waiter(flight: nat, arrived: nat, status: Status)

  datatype State = State(clock: nat, inflight: map<string, nat>, flights: seq<Flight>, waiters: seq<Waiter>, free: map<Lane, nat>)

  datatype Step =
    | Call(key: string, lane: Lane)
    | Plain
    | Acquire(flight: nat)
    | Finish(flight: nat, outcome: Outcome)
    | Wake(waiter: nat)
    | Cancel(waiter: nat)

  predicate Unfinished(f: Flight) {
    f.progress.Queued? || f.progress.Running?
  }

  predicate Enabled(s: State, e: Step) {
    match e
    case Call(_, _) => true
    case Plain => true
    case Acquire(f) =>
      f < |s.flights| && s.flights[f].progress.Queued? && s.flights[f].lane in s.free && s.free[s.flights[f].lane] > 0
    case Finish(f, _) => f < |s.flights| && s.flights[f].progress.Running? && s.flights[f].lane in s.free
    case Wake(w) =>
      w < |s.waiters| && s.waiters[w].status.Waiting? && s.waiters[w].flight < |s.flights|
      && s.flights[s.waiters[w].flight].progress.Done?
    case Cancel(w) =>
      w < |s.waiters| && s.waiters[w].status.Waiting? && s.waiters[w].flight < |s.flights|
      && s.flights[s.waiters[w].flight].lane in s.free
  }

  // A request joins the key's unfinished flight, else starts one.
  predicate Joins(s: State, key: string) {
    key in s.inflight && s.inflight[key] < |s.flights| && Unfinished(s.flights[s.inflight[key]])
  }

  // A plain call goes with its request, and gives its permit back.
  predicate Drops(s: State, w: nat)
    requires w < |s.waiters| && s.waiters[w].flight < |s.flights|
  {
    s.flights[s.waiters[w].flight].key.None? && Unfinished(s.flights[s.waiters[w].flight])
  }

  function Drop(s: State, f: nat): State
    requires f < |s.flights| && s.flights[f].lane in s.free
  {
    var flight := s.flights[f];
    s.(flights := s.flights[f := flight.(progress := Dropped(flight.progress.Running?))],
       free := if flight.progress.Running? then s.free[flight.lane := s.free[flight.lane] + 1] else s.free)
  }

  function Do(s: State, e: Step): State {
    if !Enabled(s, e) then s
    else
      match e
      case Call(key, lane) =>
        if Joins(s, key) then
          s.(clock := s.clock + 1, waiters := s.waiters + [Waiter(s.inflight[key], s.clock, Waiting)])
        else
          State(s.clock + 1, s.inflight[key := |s.flights|], s.flights + [Flight(Some(key), lane, Queued)],
                s.waiters + [Waiter(|s.flights|, s.clock, Waiting)], s.free)
      case Plain =>
        State(s.clock + 1, s.inflight, s.flights + [Flight(None, Market, Queued)],
              s.waiters + [Waiter(|s.flights|, s.clock, Waiting)], s.free)
      case Acquire(f) =>
        s.(flights := s.flights[f := s.flights[f].(progress := Running)],
           free := s.free[s.flights[f].lane := s.free[s.flights[f].lane] - 1])
      case Finish(f, o) =>
        var key := s.flights[f].key;
        s.(clock := s.clock + 1, flights := s.flights[f := s.flights[f].(progress := Done(o, s.clock))],
           free := s.free[s.flights[f].lane := s.free[s.flights[f].lane] + 1],
           inflight := if key.Some? && key.value in s.inflight && s.inflight[key.value] == f then s.inflight - {key.value}
                       else s.inflight)
      case Wake(w) =>
        s.(waiters := s.waiters[w := s.waiters[w].(status := Got(s.flights[s.waiters[w].flight].progress.outcome))])
      case Cancel(w) =>
        var t := if Drops(s, w) then Drop(s, s.waiters[w].flight) else s;
        t.(waiters := s.waiters[w := s.waiters[w].(status := Cancelled)])
  }

  function Reached(s: State, steps: seq<Step>): State {
    if steps == [] then s else Do(Reached(s, steps[..|steps| - 1]), steps[|steps| - 1])
  }

  // The semaphore sizes: the configured number, at least one.
  function Permits(configured: int): (n: nat)
    ensures n >= 1 && (configured >= 1 ==> n == configured)
  {
    if configured > 1 then configured else 1
  }

  function Idle(marketSize: nat, calcSize: nat): State {
    State(0, map[], [], [], map[Market := marketSize, Calc := calcSize])
  }

  // ---------------------------------------------------------------------
  // The coroutines' shared state, updated in place

  class Router {
    var clock: nat
    var inflight: map<string, nat>
    var flights: seq<Flight>
    var waiters: seq<Waiter>
    var free: map<Lane, nat>

    ghost function View(): State
      reads this
    {
      State(clock, inflight, flights, waiters, free)
    }

    constructor (marketSize: int, calcSize: int)
      ensures View() == Idle(Permits(marketSize), Permits(calcSize))
    {
      clock, inflight, flights, waiters := 0, map[], [], [];
      free := map[Market := Permits(marketSize), Calc := Permits(calcSize)];
    }

    // The stretch from the request to its await on the shielded future.
    method Request(key: string, lane: Lane) returns (waiter: nat)
      modifies this
      ensures View() == Do(old(View()), Call(key, lane)) && waiter == |old(waiters)|
    {
      waiter := |waiters|;
      var flight := |flights|;
      if key in inflight && inflight[key] < |flights| && Unfinished(flights[inflight[key]]) {
        flight := inflight[key];
      } else {
        flights := flights + [Flight(Some(key), lane, Queued)];
        inflight := inflight[key := flight];
      }
      waiters := waiters + [Waiter(flight, clock, Waiting)];
      clock := clock + 1;
    }

    // A request that shares its call with nobody.
    method PlainRequest() returns (waiter: nat)
      modifies this
      ensures View() == Do(old(View()), Plain) && waiter == |old(waiters)|
    {
      waiter := |waiters|;
      waiters := waiters + [Waiter(|flights|, clock, Waiting)];
      flights := flights + [Flight(None, Market, Queued)];
      clock := clock + 1;
    }

    // The task passes its semaphore and hands the call to a thread.
    method Enter(f: nat) returns (entered: bool)
      modifies this
      ensures View() == Do(old(View()), Acquire(f)) && entered == Enabled(old(View()), Acquire(f))
    {
      entered := f < |flights| && flights[f].progress.Queued? && flights[f].lane in free && free[flights[f].lane] > 0;
      if entered {
        free := free[flights[f].lane := free[flights[f].lane] - 1];
        flights := flights[f := flights[f].(progress := Running)];
      }
    }

    // The thread is back: release the semaphore, resolve the future, forget the key.
    method Complete(f: nat, outcome: Outcome)
      modifies this
      ensures View() == Do(old(View()), Finish(f, outcome))
      ensures old(Enabled(View(), Finish(f, outcome))) ==> flights[f].progress == Done(outcome, old(clock))
    {
      if f < |flights| && flights[f].progress.Running? && flights[f].lane in free {
        var key := flights[f].key;
        free := free[flights[f].lane := free[flights[f].lane] + 1];
        flights := flights[f := flights[f].(progress := Done(outcome, clock))];
        if key.Some? && key.value in inflight && inflight[key.value] == f {
          inflight := inflight - {key.value};
        }
        clock := clock + 1;
      }
    }

    method Resume(w: nat) returns (outcome: Option<Outcome>)
      modifies this
      ensures View() == Do(old(View()), Wake(w))
      ensures outcome.Some? <==> Enabled(old(View()), Wake(w))
      ensures outcome.Some? ==> waiters[w].status == Got(outcome.value)
    {
      outcome := None;
      if w < |waiters| && waiters[w].status.Waiting? && waiters[w].flight < |flights| {
        var progress := flights[waiters[w].flight].progress;
        if progress.Done? {
          waiters := waiters[w := waiters[w].(status := Got(progress.outcome))];
          outcome := Some(progress.outcome);
        }
      }
    }

    // A cancelled request: the shield protects a keyed flight, a plain one ends.
    method Abort(w: nat)
      modifies this
      ensures View() == Do(old(View()), Cancel(w))
    {
      if w < |waiters| && waiters[w].status.Waiting? && waiters[w].flight < |flights| && flights[waiters[w].flight].lane in free {
        var f := waiters[w].flight;
        var flight := flights[f];
        if flight.key.None? && Unfinished(flight) {
          if flight.progress.Running? {
            free := free[flight.lane := free[flight.lane] + 1];
          }
          flights := flights[f := flight.(progress := Dropped(flight.progress.Running?))];
        }
        waiters := waiters[w := waiters[w].(status := Cancelled)];
      }
    }
  }

  // ---------------------------------------------------------------------
  // What every run keeps

  // The table holds exactly the unfinished keyed flights, each under its key, and
  // no keyed flight is ever dropped.
  predicate TableKept(s: State) {
    && (forall key :: key in s.inflight ==>
          && s.inflight[key] < |s.flights|
          && s.flights[s.inflight[key]].key == Some(key) && Unfinished(s.flights[s.inflight[key]]))
    && (forall f :: 0 <= f < |s.flights| && s.flights[f].key.Some? && Unfinished(s.flights[f]) ==>
          s.flights[f].key.value in s.inflight && s.inflight[s.flights[f].key.value] == f)
    && (forall f :: 0 <= f < |s.flights| && s.flights[f].progress.Dropped? ==> s.flights[f].key.None?)
  }

  // A plain flight has at most one request, and while that waits it is not dropped.
  predicate PlainKept(s: State) {
    && (forall w :: 0 <= w < |s.waiters| ==> s.waiters[w].flight < |s.flights|)
    && (forall v, w :: 0 <= v < w < |s.waiters| && s.waiters[v].flight == s.waiters[w].flight ==>
          s.flights[s.waiters[v].flight].key.Some?)
    && (forall w :: 0 <= w < |s.waiters| && s.waiters[w].status.Waiting? ==> !s.flights[s.waiters[w].flight].progress.Dropped?)
  }

  // Every waiter arrived before its flight finished, and gets its outcome or none.
  predicate WaitersKept(s: State) {
    && (forall f :: 0 <= f < |s.flights| && s.flights[f].progress.Done? ==> s.flights[f].progress.at < s.clock)
    && (forall w :: 0 <= w < |s.waiters| ==>
          var x := s.waiters[w];
          && x.flight < |s.flights| && x.arrived < s.clock
          && (s.flights[x.flight].progress.Done? ==> x.arrived < s.flights[x.flight].progress.at)
          && (x.status.Got? ==> s.flights[x.flight].progress.Done? && x.status.outcome == s.flights[x.flight].progress.outcome))
  }

  function InLane(flights: seq<Flight>, lane: Lane): set<nat> {
    set f: nat | f < |flights| && flights[f].lane == lane && flights[f].progress.Running?
  }

  // Calls in a lane plus its free permits make up the lane's size.
  predicate LanesKept(s: State, size: map<Lane, nat>) {
    forall lane :: lane in s.free && lane in size && s.free[lane] + |InLane(s.flights, lane)| == size[lane]
  }

  predicate Kept(s: State, size: map<Lane, nat>) {
    TableKept(s) && PlainKept(s) && WaitersKept(s) && LanesKept(s, size)
  }

  lemma IdleIsKept(marketSize: nat, calcSize: nat)
    ensures Kept(Idle(marketSize, calcSize), map[Market := marketSize, Calc := calcSize])
  {
    var s := Idle(marketSize, calcSize);
    assert TableKept(s) && PlainKept(s) && WaitersKept(s);
    IdleLanes(marketSize, calcSize);
  }

  lemma IdleLanes(marketSize: nat, calcSize: nat)
    ensures LanesKept(Idle(marketSize, calcSize), map[Market := marketSize, Calc := calcSize])
  {
    hide InLane;
    var s := Idle(marketSize, calcSize);
    forall lane: Lane
      ensures lane in s.free && s.free[lane] + |InLane(s.flights, lane)| == if lane == Market then marketSize else calcSize
    {
      NothingInLane(lane);
      assert lane == Market || lane == Calc;
    }
  }

  lemma NothingInLane(lane: Lane)
    ensures |InLane([], lane)| == 0
  {
    assert InLane([], lane) == {};
  }

  lemma RequestKeepsTable(s: State, e: Step)
    requires TableKept(s) && (e.Call? || e.Plain?)
    ensures TableKept(Do(s, e))
  {
  }

  lemma ProgressKeepsTable(s: State, e: Step)
    requires TableKept(s) && !e.Call? && !e.Plain?
    ensures TableKept(Do(s, e))
  {
  }

  lemma StepKeepsTable(s: State, e: Step)
    requires TableKept(s)
    ensures TableKept(Do(s, e))
  {
    hide TableKept, Do;
    if e.Call? || e.Plain? {
      RequestKeepsTable(s, e);
    } else {
      ProgressKeepsTable(s, e);
    }
  }

  lemma RequestKeepsPlain(s: State, e: Step)
    requires TableKept(s) && PlainKept(s) && (e.Call? || e.Plain?)
    ensures PlainKept(Do(s, e))
  {
  }

  lemma CancelKeepsPlain(s: State, w: nat)
    requires PlainKept(s)
    ensures PlainKept(Do(s, Cancel(w)))
  {
  }

  lemma FinishKeepsPlain(s: State, e: Step)
    requires PlainKept(s) && (e.Acquire? || e.Finish? || e.Wake?)
    ensures PlainKept(Do(s, e))
  {
  }

  lemma StepKeepsPlain(s: State, e: Step)
    requires TableKept(s) && PlainKept(s)
    ensures PlainKept(Do(s, e))
  {
    hide PlainKept, Do;
    if e.Call? || e.Plain? {
      RequestKeepsPlain(s, e);
    } else if e.Cancel? {
      CancelKeepsPlain(s, e.waiter);
    } else {
      FinishKeepsPlain(s, e);
    }
  }

  lemma StepKeepsWaiters(s: State, e: Step)
    requires TableKept(s) && WaitersKept(s)
    ensures WaitersKept(Do(s, e))
  {
  }

  // Replacing one flight moves at most that flight in or out of a lane.
  lemma InLaneUpdate(flights: seq<Flight>, f: nat, x: Flight, lane: Lane)
    requires f < |flights| && x.lane == flights[f].lane
    ensures var was, now := InLane(flights, lane), InLane(flights[f := x], lane);
            |now| == |was| + if x.lane != lane || x.progress.Running? == flights[f].progress.Running? then 0
                             else if x.progress.Running? then 1 else -1
  {
    var was, now := InLane(flights, lane), InLane(flights[f := x], lane);
    if x.lane != lane || x.progress.Running? == flights[f].progress.Running? {
      assert now == was;
    } else if x.progress.Running? {
      assert now == was + {f};
    } else {
      assert now == was - {f};
    }
  }

  lemma InLaneAppend(flights: seq<Flight>, x: Flight, lane: Lane)
    requires !x.progress.Running?
    ensures InLane(flights + [x], lane) == InLane(flights, lane)
  {
  }

  lemma StepKeepsLanes(s: State, e: Step, size: map<Lane, nat>)
    requires LanesKept(s, size)
    ensures LanesKept(Do(s, e), size)
  {
    hide InLane, Joins;
    var t := Do(s, e);
    forall lane: Lane
      ensures lane in t.free && lane in size && t.free[lane] + |InLane(t.flights, lane)| == size[lane]
    {
      assert lane in s.free && lane in size && s.free[lane] + |InLane(s.flights, lane)| == size[lane];
      if Enabled(s, e) {
        match e
        case Call(key, l) => InLaneAppend(s.flights, Flight(Some(key), l, Queued), lane);
        case Plain => InLaneAppend(s.flights, Flight(None, Market, Queued), lane);
        case Acquire(f) => InLaneUpdate(s.flights, f, s.flights[f].(progress := Running), lane);
        case Finish(f, o) => InLaneUpdate(s.flights, f, s.flights[f].(progress := Done(o, s.clock)), lane);
        case Wake(_) =>
        case Cancel(w) =>
          if Drops(s, w) {
            var f := s.waiters[w].flight;
            InLaneUpdate(s.flights, f, s.flights[f].(progress := Dropped(s.flights[f].progress.Running?)), lane);
          }
      }
    }
  }

  lemma {:induction false} RunKeeps(s: State, steps: seq<Step>, size: map<Lane, nat>)
    requires Kept(s, size)
    ensures Kept(Reached(s, steps), size)
  {
    hide Do, TableKept, PlainKept, WaitersKept, LanesKept;
    if steps != [] {
      var front, last := steps[..|steps| - 1], steps[|steps| - 1];
      RunKeeps(s, front, size);
      StepKeepsTable(Reached(s, front), last);
      StepKeepsPlain(Reached(s, front), last);
      StepKeepsWaiters(Reached(s, front), last);
      StepKeepsLanes(Reached(s, front), last, size);
    }
  }

  // At most one underlying call per key is ever in flight.
  lemma OneFlightPerKey(s: State, steps: seq<Step>, size: map<Lane, nat>, f: nat, g: nat)
    requires Kept(s, size)
    requires var t := Reached(s, steps);
             f < |t.flights| && g < |t.flights| && t.flights[f].key.Some? && t.flights[f].key == t.flights[g].key
             && Unfinished(t.flights[f]) && Unfinished(t.flights[g])
    ensures f == g
  {
    RunKeeps(s, steps, size);
  }

  // All waiters of a flight get its one outcome, completed after they arrived.
  lemma WaitersShareOneFreshOutcome(s: State, steps: seq<Step>, size: map<Lane, nat>, v: nat, w: nat)
    requires Kept(s, size)
    requires var t := Reached(s, steps);
             v < |t.waiters| && w < |t.waiters| && t.waiters[v].status.Got? && t.waiters[w].status.Got?
             && t.waiters[v].flight == t.waiters[w].flight
    ensures var t := Reached(s, steps);
            && t.waiters[v].status == t.waiters[w].status
            && t.waiters[v].flight < |t.flights| && t.flights[t.waiters[v].flight].progress.Done?
            && t.waiters[v].arrived < t.flights[t.waiters[v].flight].progress.at
  {
    RunKeeps(s, steps, size);
  }

  // A lane never has more calls in progress than its semaphore size, plain ones
  // included.
  lemma LaneStaysWithinItsSize(s: State, steps: seq<Step>, size: map<Lane, nat>, lane: Lane)
    requires Kept(s, size)
    ensures lane in size && |InLane(Reached(s, steps).flights, lane)| <= size[lane]
  {
    hide Reached;
    RunKeeps(s, steps, size);
  }

  // ---------------------------------------------------------------------
  // Cancellation

  // The same state but for the status of one waiter.
  predicate SameButWaiter(s: State, t: State, w: nat) {
    && s.clock == t.clock && s.inflight == t.inflight && s.flights == t.flights && s.free == t.free
    && |s.waiters| == |t.waiters| && w < |s.waiters|
    && s.waiters[w].flight < |s.flights| && s.flights[s.waiters[w].flight].key.Some?
    && (forall v :: 0 <= v < |s.waiters| && v != w ==> s.waiters[v] == t.waiters[v])
    && s.waiters[w].flight == t.waiters[w].flight
  }

  lemma RequestIgnoresTheWaiter(s: State, t: State, w: nat, e: Step)
    requires SameButWaiter(s, t, w) && (e.Call? || e.Plain?)
    ensures SameButWaiter(Do(s, e), Do(t, e), w)
  {
  }

  lemma AnswerIgnoresTheWaiter(s: State, t: State, w: nat, e: Step)
    requires SameButWaiter(s, t, w) && (e.Wake? || e.Cancel?)
    ensures SameButWaiter(Do(s, e), Do(t, e), w)
  {
  }

  lemma StepIgnoresTheWaiter(s: State, t: State, w: nat, e: Step)
    requires SameButWaiter(s, t, w)
    ensures SameButWaiter(Do(s, e), Do(t, e), w)
  {
    if e.Call? || e.Plain? {
      RequestIgnoresTheWaiter(s, t, w, e);
    } else if e.Wake? || e.Cancel? {
      AnswerIgnoresTheWaiter(s, t, w, e);
    }
  }

  // A cancelled request for a keyed flight never shows: whatever follows, the
  // calls, the table and every other waiter are as if it had gone on waiting.
  lemma {:induction false} CancelIsInvisible(s: State, w: nat, steps: seq<Step>)
    requires Enabled(s, Cancel(w)) && s.flights[s.waiters[w].flight].key.Some?
    ensures SameButWaiter(Reached(s, steps), Reached(Do(s, Cancel(w)), steps), w)
  {
    hide Enabled, Do;
    if steps == [] {
      CancelChangesOneWaiter(s, w);
    } else {
      var front, last := steps[..|steps| - 1], steps[|steps| - 1];
      CancelIsInvisible(s, w, front);
      StepIgnoresTheWaiter(Reached(s, front), Reached(Do(s, Cancel(w)), front), w, last);
    }
  }

  lemma CancelChangesOneWaiter(s: State, w: nat)
    requires Enabled(s, Cancel(w)) && s.flights[s.waiters[w].flight].key.Some?
    ensures SameButWaiter(s, Do(s, Cancel(w)), w)
  {
  }

  // ---------------------------------------------------------------------
  // What a state owes to the steps that led to it

  predicate FinishedWith(s: State, f: nat, o: Outcome) {
    f < |s.flights| && s.flights[f].progress.Done? && s.flights[f].progress.outcome == o
  }

  lemma StepFinishes(s: State, e: Step, f: nat, o: Outcome)
    ensures FinishedWith(Do(s, e), f, o) <==> FinishedWith(s, f, o) || (e == Finish(f, o) && Enabled(s, e))
  {
  }

  // Some step of the run was the completion of flight f with outcome o.
  predicate Completes(s: State, steps: seq<Step>, f: nat, o: Outcome) {
    exists k | 0 <= k < |steps| :: steps[k] == Finish(f, o) && Enabled(Reached(s, steps[..k]), steps[k])
  }

  // A flight is done with an outcome exactly when its own call completed with it.
  lemma {:induction false} DoneIffCompleted(s: State, steps: seq<Step>, f: nat, o: Outcome)
    requires s.flights == []
    ensures FinishedWith(Reached(s, steps), f, o) <==> Completes(s, steps, f, o)
  {
    hide Do, Enabled;
    if steps == [] {
    } else {
      var front, last := steps[..|steps| - 1], steps[|steps| - 1];
      DoneIffCompleted(s, front, f, o);
      StepFinishes(Reached(s, front), last, f, o);
      assert forall k :: 0 <= k < |front| ==> front[k] == steps[k] && front[..k] == steps[..k];
      assert steps[..|front|] == front;
    }
  }

  // Step k of the run started flight f, with this key and in this lane.
  predicate Starts(s: State, steps: seq<Step>, k: nat, f: nat, key: Option<string>, lane: Lane) {
    && k < |steps| && |Reached(s, steps[..k]).flights| == f
    && ((key.Some? && steps[k] == Call(key.value, lane) && !Joins(Reached(s, steps[..k]), key.value))
        || (key.None? && lane == Market && steps[k] == Plain))
  }

  lemma StepStarts(s: State, e: Step, f: nat)
    requires f < |Do(s, e).flights|
    ensures f < |s.flights| ==> Do(s, e).flights[f].key == s.flights[f].key && Do(s, e).flights[f].lane == s.flights[f].lane
    ensures f >= |s.flights| ==> f == |s.flights| && Do(s, e).flights[f].progress.Queued?
    ensures f >= |s.flights| ==>
              var x := Do(s, e).flights[f];
              || (x.key.Some? && e == Call(x.key.value, x.lane) && !Joins(s, x.key.value))
              || (x.key.None? && x.lane == Market && e == Plain)
  {
  }

  // Every flight has the key and the lane of the request that started it.
  lemma {:induction false} FlightIsAsStarted(s: State, steps: seq<Step>, f: nat) returns (k: nat)
    requires s.flights == [] && f < |Reached(s, steps).flights|
    ensures Starts(s, steps, k, f, Reached(s, steps).flights[f].key, Reached(s, steps).flights[f].lane)
  {
    hide Do, Enabled, Joins;
    var front, last := steps[..|steps| - 1], steps[|steps| - 1];
    StepStarts(Reached(s, front), last, f);
    if f < |Reached(s, front).flights| {
      k := FlightIsAsStarted(s, front, f);
      assert front[..k] == steps[..k];
    } else {
      k := |front|;
      assert steps[..k] == front;
    }
  }

  // Step k of the run was the request of waiter w, for this key.
  predicate Asks(s: State, steps: seq<Step>, k: nat, w: nat, key: Option<string>) {
    && k < |steps| && |Reached(s, steps[..k]).waiters| == w
    && (if key.Some? then steps[k].Call? && steps[k].key == key.value else steps[k] == Plain)
  }

  lemma StepAsks(s: State, e: Step, w: nat)
    requires TableKept(s) && PlainKept(s) && w < |Do(s, e).waiters|
    ensures var x := Do(s, e).waiters[w];
            && x.flight < |Do(s, e).flights|
            && (w < |s.waiters| ==> x.flight == s.waiters[w].flight && Do(s, e).flights[x.flight].key == s.flights[x.flight].key)
            && (w >= |s.waiters| ==>
                  && w == |s.waiters|
                  && var key := Do(s, e).flights[x.flight].key;
                     if key.Some? then e.Call? && e.key == key.value else e == Plain)
  {
  }

  // Every waiter waits for a flight of the key it asked for.
  lemma {:induction false} WaiterIsOnItsKey(s: State, steps: seq<Step>, size: map<Lane, nat>, w: nat) returns (k: nat)
    requires Kept(s, size) && s.waiters == [] && w < |Reached(s, steps).waiters|
    ensures var t := Reached(s, steps);
            t.waiters[w].flight < |t.flights| && Asks(s, steps, k, w, t.flights[t.waiters[w].flight].key)
  {
    hide Do, TableKept, WaitersKept, LanesKept;
    var front, last := steps[..|steps| - 1], steps[|steps| - 1];
    RunKeeps(s, front, size);
    StepAsks(Reached(s, front), last, w);
    if w < |Reached(s, front).waiters| {
      k := WaiterIsOnItsKey(s, front, size, w);
      assert front[..k] == steps[..k];
    } else {
      k := |front|;
      assert steps[..k] == front;
    }
  }

  // A request is answered with what the call of its own key completed with.
  lemma AnswerIsOfItsOwnCall(s: State, steps: seq<Step>, size: map<Lane, nat>, w: nat) returns (k: nat)
    requires Kept(s, size) && s.flights == [] && s.waiters == []
    requires w < |Reached(s, steps).waiters| && Reached(s, steps).waiters[w].status.Got?
    ensures var t := Reached(s, steps); var x := t.waiters[w];
            && x.flight < |t.flights| && Asks(s, steps, k, w, t.flights[x.flight].key)
            && Completes(s, steps, x.flight, x.status.outcome)
  {
    hide Reached, Completes, Asks;
    RunKeeps(s, steps, size);
    k := WaiterIsOnItsKey(s, steps, size, w);
    var x := Reached(s, steps).waiters[w];
    DoneIffCompleted(s, steps, x.flight, x.status.outcome);
  }

  // Calls whose worker thread is busy, permit or not.
  function Threads(flights: seq<Flight>, lane: Lane): set<nat> {
    set f: nat | f < |flights| && flights[f].lane == lane && (flights[f].progress.Running? || flights[f].progress == Dropped(true))
  }

  // The permits bound the busy threads exactly while no plain call was cancelled
  // in its thread: each such call is one thread beyond the permits.
  lemma ThreadsBeyondPermits(s: State, size: map<Lane, nat>, lane: Lane)
    requires Kept(s, size)
    ensures lane in size && lane in s.free
    ensures |Threads(s.flights, lane)| == size[lane] - s.free[lane] + |DroppedIn(s.flights, lane)|
  {
    assert lane in s.free && lane in size && s.free[lane] + |InLane(s.flights, lane)| == size[lane];
    assert Threads(s.flights, lane) == InLane(s.flights, lane) + DroppedIn(s.flights, lane);
    assert InLane(s.flights, lane) !! DroppedIn(s.flights, lane);
  }

  function DroppedIn(flights: seq<Flight>, lane: Lane): set<nat> {
    set f: nat | f < |flights| && flights[f].lane == lane && flights[f].progress == Dropped(true)
  }

  // ---------------------------------------------------------------------
  // No waiter is left behind

  // Some step other than a new request moves the waiter's lane or the waiter.
  ghost predicate CanMove(s: State, w: nat)
    requires w < |s.waiters| && s.waiters[w].flight < |s.flights|
  {
    var f := s.waiters[w].flight;
    || Enabled(s, Wake(w))
    || Enabled(s, Acquire(f))
    || exists g: nat, o :: Enabled(s, Finish(g, o)) && s.flights[g].lane == s.flights[f].lane
  }

  lemma WaiterCanMove(s: State, size: map<Lane, nat>, w: nat)
    requires Kept(s, size) && w < |s.waiters| && s.waiters[w].status.Waiting?
    requires forall lane :: lane in size && size[lane] >= 1
    ensures s.waiters[w].flight < |s.flights| && CanMove(s, w)
  {
    var f := s.waiters[w].flight;
    var flight := s.flights[f];
    assert flight.lane in s.free && s.free[flight.lane] + |InLane(s.flights, flight.lane)| == size[flight.lane];
    if flight.progress.Running? {
      assert Enabled(s, Finish(f, Success(0)));
    } else if flight.progress.Queued? && s.free[flight.lane] == 0 {
      assert InLane(s.flights, flight.lane) != {};
      var g :| g in InLane(s.flights, flight.lane);
      assert Enabled(s, Finish(g, Success(0)));
    }
  }

  function QueuedFlights(flights: seq<Flight>): set<nat> {
    set f: nat | f < |flights| && flights[f].progress.Queued?
  }

  function UnfinishedFlights(flights: seq<Flight>): set<nat> {
    set f: nat | f < |flights| && Unfinished(flights[f])
  }

  function WaitingOnes(waiters: seq<Waiter>): set<nat> {
    set w: nat | w < |waiters| && waiters[w].status.Waiting?
  }

  // What is still to be done before every task has finished and every request is answered.
  function Work(s: State): nat {
    |QueuedFlights(s.flights)| + |UnfinishedFlights(s.flights)| + |WaitingOnes(s.waiters)|
  }

  lemma FlightMovesOn(flights: seq<Flight>, f: nat, x: Flight)
    requires f < |flights|
    requires (flights[f].progress.Queued? && x.progress.Running?) || (flights[f].progress.Running? && x.progress.Done?)
    ensures var after := flights[f := x];
            |QueuedFlights(after)| + |UnfinishedFlights(after)| == |QueuedFlights(flights)| + |UnfinishedFlights(flights)| - 1
  {
    var after := flights[f := x];
    if x.progress.Running? {
      assert QueuedFlights(after) == QueuedFlights(flights) - {f};
      assert UnfinishedFlights(after) == UnfinishedFlights(flights);
    } else {
      assert QueuedFlights(after) == QueuedFlights(flights);
      assert UnfinishedFlights(after) == UnfinishedFlights(flights) - {f};
    }
  }

  lemma FlightIsDropped(flights: seq<Flight>, f: nat, x: Flight)
    requires f < |flights| && Unfinished(flights[f]) && x.progress.Dropped?
    ensures var after := flights[f := x];
            |QueuedFlights(after)| + |UnfinishedFlights(after)| < |QueuedFlights(flights)| + |UnfinishedFlights(flights)|
  {
    var after := flights[f := x];
    assert QueuedFlights(after) == QueuedFlights(flights) - {f};
    assert UnfinishedFlights(after) == UnfinishedFlights(flights) - {f};
  }

  lemma WaiterMovesOn(waiters: seq<Waiter>, w: nat, x: Waiter)
    requires w < |waiters| && waiters[w].status.Waiting? && !x.status.Waiting?
    ensures |WaitingOnes(waiters[w := x])| == |WaitingOnes(waiters)| - 1
  {
    assert WaitingOnes(waiters[w := x]) == WaitingOnes(waiters) - {w};
  }

  // Every step but a new request brings the end nearer, so once requests stop, at
  // most Work(s) steps answer them all.
  lemma StepDoesWork(s: State, e: Step)
    requires Enabled(s, e) && !e.Call? && !e.Plain?
    ensures Work(Do(s, e)) < Work(s)
  {
    hide QueuedFlights, UnfinishedFlights, WaitingOnes, Joins;
    match e
    case Acquire(f) => FlightMovesOn(s.flights, f, s.flights[f].(progress := Running));
    case Finish(f, o) => FlightMovesOn(s.flights, f, s.flights[f].(progress := Done(o, s.clock)));
    case Wake(w) =>
      WaiterMovesOn(s.waiters, w, s.waiters[w].(status := Got(s.flights[s.waiters[w].flight].progress.outcome)));
    case Cancel(w) =>
      WaiterMovesOn(s.waiters, w, s.waiters[w].(status := Cancelled));
      if Drops(s, w) {
        var f := s.waiters[w].flight;
        FlightIsDropped(s.flights, f, s.flights[f].(progress := Dropped(s.flights[f].progress.Running?)));
      }
  }

  predicate AllEnabled(s: State, steps: seq<Step>) {
    steps != [] ==>
      var front := steps[..|steps| - 1];
      AllEnabled(s, front) && !steps[|steps| - 1].Call? && !steps[|steps| - 1].Plain? && Enabled(Reached(s, front), steps[|steps| - 1])
  }

  lemma {:induction false} RequestsAreAnswered(s: State, steps: seq<Step>)
    requires AllEnabled(s, steps)
    ensures |steps| + Work(Reached(s, steps)) <= Work(s)
  {
    hide Do, Work, Enabled;
    if steps != [] {
      var front, last := steps[..|steps| - 1], steps[|steps| - 1];
      RequestsAreAnswered(s, front);
      StepDoesWork(Reached(s, front), last);
    }
  }

  // A run that can go no further without a new request has answered everyone.
  lemma StuckMeansAnswered(s: State, size: map<Lane, nat>, w: nat)
    requires Kept(s, size) && w < |s.waiters|
    requires forall lane :: lane in size && size[lane] >= 1
    requires forall e: Step :: Enabled(s, e) ==> e.Call? || e.Plain?
    ensures !s.waiters[w].status.Waiting?
  {
    if s.waiters[w].status.Waiting? {
      WaiterCanMove(s, size, w);
    }
  }
}
