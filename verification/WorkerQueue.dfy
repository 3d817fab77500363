/** The mock worker's load counters under any number of concurrent calls and its single dispatcher
    (internal/mockworker/worker.go:144-155, 179-193, 315-361). */
module WorkerQueue {
  import opened Model

  // ---- Counter updates, each made under the worker's lock ----------------

  function AddWaiting(s: WorkerState, work: uint64): WorkerState {
    s.(waitingRequestCount := Wrap32(s.waitingRequestCount + 1),
       waitingTokenCount := Wrap64(s.waitingTokenCount + work))
  }

  function SaturatingSub(a: nat, b: nat): nat {
    if a >= b then a - b else 0
  }

  function RemoveWaiting(s: WorkerState, work: uint64): WorkerState {
    s.(waitingRequestCount := SaturatingSub(s.waitingRequestCount, 1),
       waitingTokenCount := SaturatingSub(s.waitingTokenCount, work))
  }

  function MoveToRunning(s: WorkerState, work: uint64): WorkerState {
    RemoveWaiting(s, work).(runningRequestCount := Wrap32(s.runningRequestCount + 1),
                            runningWorkTokens := Wrap64(s.runningWorkTokens + work))
  }

  function FinishRunning(s: WorkerState, work: uint64): WorkerState {
    s.(runningRequestCount := SaturatingSub(s.runningRequestCount, 1),
       runningWorkTokens := SaturatingSub(s.runningWorkTokens, work))
  }

  // ---- The system --------------------------------------------------------

  datatype Dispatcher = Idle | Dequeued(work: uint64) | Running(work: uint64) | Stopped

  /** `announced` holds the calls between addWaiting and either the queue or removeWaiting. */
  datatype System = System(state: WorkerState, announced: seq<uint64>, queue: seq<uint64>, dispatcher: Dispatcher)

  /** `Withdraw(i, cancelled)`: the i-th announced call gives up, cancelled or because the queue is full. */
  datatype Label =
    | Announce(work: uint64)
    | Enqueue(i: nat)
    | Withdraw(i: nat, cancelled: bool)
    | Dequeue
    | Start
    | Finish
    | Stop

  function Without(xs: seq<uint64>, i: nat): seq<uint64>
    requires i < |xs|
  {
    xs[..i] + xs[i + 1..]
  }

  function Step(capacity: nat, s: System, l: Label): Option<System> {
    match l
    case Announce(work) =>
      Some(s.(state := AddWaiting(s.state, work), announced := s.announced + [work]))
    case Enqueue(i) =>
      if i >= |s.announced| || |s.queue| >= capacity then None
      else Some(s.(announced := Without(s.announced, i), queue := s.queue + [s.announced[i]]))
    case Withdraw(i, cancelled) =>
      if i >= |s.announced| || (!cancelled && |s.queue| < capacity) then None
      else Some(s.(state := RemoveWaiting(s.state, s.announced[i]), announced := Without(s.announced, i)))
    case Dequeue =>
      if s.dispatcher != Idle || s.queue == [] then None
      else Some(s.(queue := s.queue[1..], dispatcher := Dequeued(s.queue[0])))
    case Start =>
      if !s.dispatcher.Dequeued? then None
      else Some(s.(state := MoveToRunning(s.state, s.dispatcher.work), dispatcher := Running(s.dispatcher.work)))
    case Finish =>
      if !s.dispatcher.Running? then None
      else Some(s.(state := FinishRunning(s.state, s.dispatcher.work), dispatcher := Idle))
    case Stop =>
      if s.dispatcher != Idle then None else Some(s.(dispatcher := Stopped))
  }

  predicate Fresh(s: WorkerState) {
    s.waitingRequestCount == 0 && s.waitingTokenCount == 0 && s.runningRequestCount == 0 && s.runningWorkTokens == 0
  }

  function Run(capacity: nat, start: WorkerState, ls: seq<Label>): Option<System> {
    if ls == [] then Some(System(start, [], [], Idle))
    else
      var s := Run(capacity, start, ls[..|ls| - 1]);
      if s.None? then None else Step(capacity, s.value, ls[|ls| - 1])
  }

  // ---- What the counters should say --------------------------------------

  /** The work of every call that waits: announced, queued, or taken out of the queue but not started. */
  function Waiting(s: System): seq<uint64> {
    s.announced + s.queue + if s.dispatcher.Dequeued? then [s.dispatcher.work] else []
  }

  function InProgress(s: System): seq<uint64> {
    if s.dispatcher.Running? then [s.dispatcher.work] else []
  }

  function Sum(xs: seq<uint64>): nat {
    if xs == [] then 0 else xs[0] + Sum(xs[1..])
  }

  predicate Exact(s: System) {
    && s.state.waitingRequestCount == |Waiting(s)| && s.state.waitingTokenCount == Sum(Waiting(s))
    && s.state.runningRequestCount == |InProgress(s)| && s.state.runningWorkTokens == Sum(InProgress(s))
  }

  /** The load can be expressed in the counters' widths. */
  predicate Fits(s: System) {
    |Waiting(s)| < U32 && Sum(Waiting(s)) < U64
  }

  lemma {:induction false} SumConcat(xs: seq<uint64>, ys: seq<uint64>)
    ensures Sum(xs + ys) == Sum(xs) + Sum(ys)
  {
    if xs == [] {
      assert xs + ys == ys;
    } else {
      SumConcat(xs[1..], ys);
      assert (xs + ys)[1..] == xs[1..] + ys;
    }
  }

  lemma SumWithout(xs: seq<uint64>, i: nat)
    requires i < |xs|
    ensures Sum(Without(xs, i)) == Sum(xs) - xs[i]
  {
    assert xs == xs[..i] + ([xs[i]] + xs[i + 1..]);
    SumConcat(xs[..i], [xs[i]] + xs[i + 1..]);
    SumConcat([xs[i]], xs[i + 1..]);
    SumConcat(xs[..i], xs[i + 1..]);
    SumOne(xs[i]);
  }

  lemma SumOne(x: uint64)
    ensures Sum([x]) == x
  {
  }

  lemma SumWaiting(s: System)
    ensures Sum(Waiting(s)) == Sum(s.announced) + Sum(s.queue) + if s.dispatcher.Dequeued? then s.dispatcher.work else 0
  {
    SumConcat(s.announced + s.queue, if s.dispatcher.Dequeued? then [s.dispatcher.work] else []);
    SumConcat(s.announced, s.queue);
    if s.dispatcher.Dequeued? {
      SumOne(s.dispatcher.work);
    }
  }

  /** How a step changes the waiting work: gained and lost amounts. */
  lemma StepLoad(capacity: nat, s: System, l: Label)
    requires Step(capacity, s, l).Some?
    ensures var t := Step(capacity, s, l).value;
            var gained := if l.Announce? then [l.work] else [];
            var lost := if l.Withdraw? then [s.announced[l.i]] else if l.Start? then [s.dispatcher.work] else [];
            && |Waiting(t)| == |Waiting(s)| + |gained| - |lost|
            && Sum(Waiting(t)) == Sum(Waiting(s)) + Sum(gained) - Sum(lost)
  {
    var t := Step(capacity, s, l).value;
    SumWaiting(s);
    SumWaiting(t);
    match l
    case Announce(work) => SumOne(work); SumConcat(s.announced, [work]);
    case Enqueue(i) => SumWithout(s.announced, i); SumOne(s.announced[i]); SumConcat(s.queue, [s.announced[i]]);
    case Withdraw(i, _) => SumWithout(s.announced, i); SumOne(s.announced[i]);
    case Dequeue =>
    case Start => SumOne(s.dispatcher.work);
    case Finish =>
    case Stop =>
  }

  /** A call that waits is counted, so no subtraction of its work saturates. */
  lemma NothingSaturates(capacity: nat, s: System, l: Label)
    requires Exact(s) && Step(capacity, s, l).Some?
    ensures l.Withdraw? ==> s.state.waitingRequestCount >= 1 && s.state.waitingTokenCount >= s.announced[l.i]
    ensures l.Start? ==> s.state.waitingRequestCount >= 1 && s.state.waitingTokenCount >= s.dispatcher.work
                         && s.state.runningRequestCount == 0 && s.state.runningWorkTokens == 0
    ensures l.Finish? ==> s.state.runningRequestCount == 1 && s.state.runningWorkTokens == s.dispatcher.work
  {
    StepLoad(capacity, s, l);
    match l
    case Withdraw(i, _) => SumOne(s.announced[i]);
    case Start => SumOne(s.dispatcher.work);
    case Finish => SumOne(s.dispatcher.work);
    case _ =>
  }

  lemma ExactStep(capacity: nat, s: System, l: Label)
    requires Exact(s) && Step(capacity, s, l).Some? && Fits(Step(capacity, s, l).value)
    ensures Exact(Step(capacity, s, l).value)
  {
    StepLoad(capacity, s, l);
    NothingSaturates(capacity, s, l);
    match l
    case Announce(work) => SumOne(work);
    case Withdraw(i, _) => SumOne(s.announced[i]);
    case Start => SumOne(s.dispatcher.work);
    case _ =>
  }

  ghost predicate AlwaysFits(capacity: nat, start: WorkerState, ls: seq<Label>) {
    forall k | 0 <= k <= |ls| :: Run(capacity, start, ls[..k]).Some? ==> Fits(Run(capacity, start, ls[..k]).value)
  }

  ghost predicate AlwaysExact(capacity: nat, start: WorkerState, ls: seq<Label>) {
    forall k | 0 <= k <= |ls| :: Run(capacity, start, ls[..k]).Some? ==> Exact(Run(capacity, start, ls[..k]).value)
  }

  lemma {:induction false} FittingRunIsExact(capacity: nat, start: WorkerState, ls: seq<Label>)
    requires Fresh(start) && AlwaysFits(capacity, start, ls) && Run(capacity, start, ls).Some?
    ensures Exact(Run(capacity, start, ls).value)
  {
    if ls != [] {
      var front := ls[..|ls| - 1];
      assert AlwaysFits(capacity, start, front) by {
        forall k | 0 <= k <= |front| ensures front[..k] == ls[..k] {}
      }
      FittingRunIsExact(capacity, start, front);
      assert ls[..|ls|] == ls;
      ExactStep(capacity, Run(capacity, start, front).value, ls[|ls| - 1]);
    }
  }

  /** Over any interleaving the counters give the number and total work of the waiting and running
      calls at every moment, if and only if at every moment the load fits the counters' widths. */
  lemma ExactIffFits(capacity: nat, start: WorkerState, ls: seq<Label>)
    requires Fresh(start)
    ensures AlwaysExact(capacity, start, ls) <==> AlwaysFits(capacity, start, ls)
  {
    if AlwaysFits(capacity, start, ls) {
      forall k | 0 <= k <= |ls| && Run(capacity, start, ls[..k]).Some?
        ensures Exact(Run(capacity, start, ls[..k]).value)
      {
        assert AlwaysFits(capacity, start, ls[..k]) by {
          forall j | 0 <= j <= k ensures ls[..k][..j] == ls[..j] {}
        }
        FittingRunIsExact(capacity, start, ls[..k]);
      }
    }
  }

  lemma RunOfOne(capacity: nat, start: WorkerState, l: Label)
    ensures Run(capacity, start, [l]) == Step(capacity, System(start, [], [], Idle), l)
  {
    assert [l][..0] == [];
  }

  /** Two announced calls whose work does not fit 64 bits together make the counters wrong. */
  lemma OverflowIsInexact(capacity: nat, start: WorkerState, x: uint64, y: uint64)
    requires Fresh(start) && x + y >= U64
    ensures Run(capacity, start, [Announce(x), Announce(y)]).Some?
    ensures !Exact(Run(capacity, start, [Announce(x), Announce(y)]).value)
    ensures !AlwaysExact(capacity, start, [Announce(x), Announce(y)])
  {
    var ls := [Announce(x), Announce(y)];
    RunOfOne(capacity, start, Announce(x));
    assert ls[..1] == [Announce(x)] && ls[..2] == ls;
    var s := Run(capacity, start, ls).value;
    assert Waiting(s) == [x, y];
    SumOne(y);
    assert [x, y][1..] == [y];
  }

  /** With no call in mid-announcement, nothing queued and the dispatcher idle or stopped, every
      counter is back at zero; at no time does the worker report more than one running request. */
  lemma CountersReturnToZero(capacity: nat, start: WorkerState, ls: seq<Label>)
    requires Fresh(start) && AlwaysFits(capacity, start, ls) && Run(capacity, start, ls).Some?
    ensures var s := Run(capacity, start, ls).value;
            && s.state.runningRequestCount <= 1
            && (s.announced == [] && s.queue == [] && (s.dispatcher == Idle || s.dispatcher == Stopped) ==>
                  Fresh(s.state))
  {
    FittingRunIsExact(capacity, start, ls);
  }
}
