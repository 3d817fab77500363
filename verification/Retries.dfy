/** The attempt loop composed with selection over the registry: exactly when a request whose first worker
    fails gets a second one, and what the client then gets (internal/gateway/http.go:117-190, 290-302,
    429-442). */
module Retries {
  import opened Model
  import opened Gateway
  import opened GatewayProofs
  import opened GatewayTheorems
  import Placement
  import Registry
  import Routing

  // ---- Selections in a run -----------------------------------------------

  /** Position of the selection made for the second attempt. */
  function SecondSelection(c: Config, ls: seq<Label>): (k: Option<nat>)
    requires ConfigOk(c)
    ensures k.Some? ==> k.value < |ls| && ls[k.value].Select?
  {
    if ls == [] then None
    else
      var front, last := ls[..|ls| - 1], ls[|ls| - 1];
      var k := SecondSelection(c, front);
      if k.Some? then k
      else if Run(c, front).Some? && Run(c, front).value.n == 2 && last.Select? then Some(|front|)
      else None
  }

  /** What the second selection has to do with the state at hand. */
  ghost predicate Booked(c: Config, ls: seq<Label>, s: State)
    requires ConfigOk(c)
  {
    var k := SecondSelection(c, ls);
    && (k.Some? <==> s.n == 2 && s.pc != Selecting)
    && (k.None? && s.n == 2 ==> |s.workers| == 1)
    && (k.Some? ==> s.workers != [] && BookedAt(c, ls, s, k.value))
  }

  ghost predicate BookedAt(c: Config, ls: seq<Label>, s: State, k: nat)
    requires ConfigOk(c) && s.workers != []
  {
    && k < |ls| && ls[k].Select? && Run(c, ls[..k]).Some?
    && Run(c, ls[..k]).value.excluded == {s.workers[0]}
    && (|s.workers| == 2 <==> ls[k].picked.Some?)
  }

  lemma OtherStepsKeepLoop(c: Config, s: State, l: Label)
    requires ConfigOk(c) && Step(c, s, l).Some? && !l.Select? && !l.Decide?
    ensures var t := Step(c, s, l).value;
            t.n == s.n && t.workers == s.workers && (t.pc == Selecting <==> s.pc == Selecting || l == Admit(Admitted))
  {
    if !l.ContextEnds? && ReceiverOf(l).None? {
      HandlerKeepsLoop(c, s, l);
    }
  }

  lemma HandlerKeepsLoop(c: Config, s: State, l: Label)
    requires ConfigOk(c) && HandlerStep(c, s, l).Some? && !l.Select? && !l.Decide?
    ensures var t := HandlerStep(c, s, l).value;
            t.n == s.n && t.workers == s.workers && (t.pc == Selecting <==> l == Admit(Admitted)) && s.pc != Selecting
  {
  }

  lemma SelectingSteps(c: Config, s: State, l: Label)
    requires ConfigOk(c) && Step(c, s, l).Some? && l.Select?
    ensures var t := Step(c, s, l).value;
            && s.pc == Selecting && t.n == s.n && t.pc != Selecting
            && t.workers == if l.picked.Some? then s.workers + [l.picked.value.id] else s.workers
  {
  }

  lemma DecidingSteps(c: Config, s: State, l: Label)
    requires ConfigOk(c) && Inv(c, s) && Step(c, s, l).Some? && l.Decide?
    ensures var t := Step(c, s, l).value;
            && s.pc.Deciding? && t.workers == s.workers && |s.workers| == s.n
            && ((t.n == s.n && t.pc == Failing(s.pc.failure)) || (s.n == 1 && t.n == 2 && t.pc == Selecting))
  {
  }

  lemma SelectingNumbers(c: Config, s: State)
    requires Inv(c, s)
    ensures s.pc == Selecting ==> |s.workers| == s.n - 1
    ensures s.pc == Admitting ==> s.n == 1
    ensures 1 <= s.n <= 2 && (s.n == 2 ==> s.workers != [] && s.excluded == {s.workers[0]})
  {
  }

  lemma PrefixOfPrefix<T>(xs: seq<T>, k: nat)
    requires k < |xs|
    ensures xs[..|xs| - 1][..k] == xs[..k]
  {
  }

  lemma NewlyBooked(c: Config, ls: seq<Label>, s: State, t: State)
    requires ConfigOk(c) && ls != [] && Run(c, ls[..|ls| - 1]) == Some(s) && Step(c, s, ls[|ls| - 1]) == Some(t)
    requires Inv(c, s) && s.n == 2 && ls[|ls| - 1].Select? && SecondSelection(c, ls[..|ls| - 1]).None?
    ensures Booked(c, ls, t)
  {
    SelectingSteps(c, s, ls[|ls| - 1]);
    SelectingNumbers(c, s);
  }

  lemma StillBooked(c: Config, ls: seq<Label>, s: State, t: State)
    requires ConfigOk(c) && ls != [] && Booked(c, ls[..|ls| - 1], s)
    requires SecondSelection(c, ls) == SecondSelection(c, ls[..|ls| - 1])
    requires t.workers == s.workers && (t.n == 2 && t.pc != Selecting <==> s.n == 2 && s.pc != Selecting)
    requires t.n == 2 && t.pc == Selecting ==> |t.workers| == 1
    ensures Booked(c, ls, t)
  {
    var k := SecondSelection(c, ls);
    if k.Some? {
      PrefixOfPrefix(ls, k.value);
    }
  }

  lemma BookedStep(c: Config, ls: seq<Label>, s: State, t: State)
    requires ConfigOk(c) && ls != [] && Run(c, ls[..|ls| - 1]) == Some(s) && Step(c, s, ls[|ls| - 1]) == Some(t)
    requires Inv(c, s) && Booked(c, ls[..|ls| - 1], s)
    ensures Booked(c, ls, t)
  {
    var l := ls[|ls| - 1];
    SelectingNumbers(c, s);
    if l.Select? {
      SelectingSteps(c, s, l);
      if s.n == 2 {
        NewlyBooked(c, ls, s, t);
      }
    } else if l.Decide? {
      DecidingSteps(c, s, l);
      StillBooked(c, ls, s, t);
    } else {
      OtherStepsKeepLoop(c, s, l);
      AdmittedFirst(c, s, l);
      StillBooked(c, ls, s, t);
    }
  }

  lemma AdmittedFirst(c: Config, s: State, l: Label)
    requires ConfigOk(c) && Inv(c, s) && Step(c, s, l).Some?
    ensures l == Admit(Admitted) ==> s.n == 1
  {
  }

  lemma {:induction false} RunBooked(c: Config, ls: seq<Label>)
    requires ConfigOk(c) && Run(c, ls).Some?
    ensures Booked(c, ls, Run(c, ls).value)
  {
    if ls != [] {
      var front := ls[..|ls| - 1];
      RunExists(c, ls);
      RunBooked(c, front);
      RunOk(c, front);
      BookedStep(c, ls, Run(c, front).value, Run(c, ls).value);
    }
  }

  // ---- Why a second attempt is made --------------------------------------

  /** The failures `shouldRetry` lets pass on a live context. */
  predicate Retriable(f: Failure) {
    f != ContextCanceled && CodeOf(f) in {Unavailable, Unknown, Internal, DeadlineExceeded}
  }

  /** The stream of the attempt fails before its first chunk, retriably. */
  predicate FailsRetriably(a: Attempt) {
    FirstFailure(Reference(a)[0]).Some? && Retriable(FirstFailure(Reference(a)[0]).value)
  }

  /** Every call that was started has been opened. */
  predicate OpensSucceed(ls: seq<Label>) {
    forall l | l in ls && l.Open? :: l.error.None?
  }

  /** So far no disturbance and no delivery timeout. */
  predicate Smooth(s: State) {
    !s.disturbed && forall i | 0 <= i < |s.attempts| :: s.attempts[i].interruption != TimedOut
  }

  predicate Opening(s: State) {
    s.pc.Opening?
  }

  /** The context only ends with the handler. */
  predicate ContextHolds(s: State) {
    s.context == Live || (s.pc == Gone && s.context == ClientGone)
  }

  /** During the first attempt, once its call is open. */
  predicate FirstPhase(s: State) {
    s.n == 1 && s.attempts != [] ==>
      && (FailsRetriably(s.attempts[0]) ==> s.pc == AwaitingFirst || s.pc.Deciding?)
      && (s.pc.Deciding? ==> FirstFailure(Reference(s.attempts[0])[0]) == Some(s.pc.failure))
  }

  /** After the first attempt: it failed retriably, and without a second call 502 is the answer. */
  predicate SecondPhase(s: State) {
    s.n == 2 ==>
      && s.attempts != [] && FailsRetriably(s.attempts[0])
      && (|s.attempts| == 1 && s.pc != Selecting && !Opening(s) ==> BadGateway(s))
  }

  predicate BadGateway(s: State) {
    || (s.pc.Failing? && s.out == [])
    || (s.pc == Responding(502) && s.out == [])
    || ((s.pc == Releasing || s.pc == Ending || s.pc == Gone) && s.out == [ApiError(502)])
  }

  predicate Tracked(s: State) {
    && |s.workers| == |s.attempts| + (if Opening(s) then 1 else 0)
    && ContextHolds(s) && FirstPhase(s) && SecondPhase(s)
  }

  lemma SmoothBefore(c: Config, s: State, l: Label)
    requires ConfigOk(c) && Inv(c, s) && Step(c, s, l).Some? && Smooth(Step(c, s, l).value)
    ensures Smooth(s) && !l.ContextEnds?
  {
    if !l.ContextEnds? {
      if ReceiverOf(l).None? {
        HandlerKeepsAttempts(c, s, l);
      } else {
        ReceiverKeepsAttempts(c, s, ReceiverOf(l).value, l);
      }
    }
  }

  /** The calls of `s` are still there, with their streams, identifiers and timeouts. */
  predicate Continues(s: State, t: State) {
    && |s.attempts| <= |t.attempts|
    && forall i | 0 <= i < |s.attempts| ::
         && t.attempts[i].script == s.attempts[i].script && t.attempts[i].ids == s.attempts[i].ids
         && (s.attempts[i].interruption == TimedOut ==> t.attempts[i].interruption == TimedOut)
  }

  lemma ForwardKeepsAttempts(s: State, write: Write)
    requires ForwardStep(s, write).Some?
    ensures var t := ForwardStep(s, write).value;
            Continues(s, t) && t.disturbed == s.disturbed && |t.attempts| == |s.attempts|
  {
  }

  lemma TakeFirstKeepsAttempts(s: State)
    requires TakeFirstStep(s).Some?
    ensures var t := TakeFirstStep(s).value;
            Continues(s, t) && t.disturbed == s.disturbed && |t.attempts| == |s.attempts|
  {
  }

  lemma HandlerKeepsAttempts(c: Config, s: State, l: Label)
    requires ConfigOk(c) && HandlerStep(c, s, l).Some?
    ensures var t := HandlerStep(c, s, l).value;
            Continues(s, t) && t.disturbed == s.disturbed && (!l.Open? ==> |t.attempts| == |s.attempts|)
  {
    if l.Forward? {
      ForwardKeepsAttempts(s, l.write);
    } else if l.TakeFirst? {
      TakeFirstKeepsAttempts(s);
    }
  }

  lemma ReceiverKeepsAttempts(c: Config, s: State, i: nat, l: Label)
    requires ConfigOk(c) && Inv(c, s) && ReceiverTurn(c, s, i, l).Some?
    ensures var t := ReceiverTurn(c, s, i, l).value;
            Continues(s, t) && t == s.(attempts := t.attempts) && |t.attempts| == |s.attempts|
  {
    ReceiverStepOk(s.attempts[i], c.capacity, s.context, l);
  }

  lemma SameReference(s: State, t: State)
    requires Continues(s, t) && s.attempts != []
    ensures Reference(t.attempts[0]) == Reference(s.attempts[0])
    ensures FailsRetriably(t.attempts[0]) <==> FailsRetriably(s.attempts[0])
  {
  }

  lemma TrackedReceiver(c: Config, s: State, i: nat, l: Label)
    requires ConfigOk(c) && Inv(c, s) && ReceiverTurn(c, s, i, l).Some? && Tracked(s)
    ensures Tracked(ReceiverTurn(c, s, i, l).value)
  {
    ReceiverKeepsAttempts(c, s, i, l);
    SameReference(s, ReceiverTurn(c, s, i, l).value);
  }

  lemma TrackedOpen(c: Config, s: State, l: Label)
    requires ConfigOk(c) && Inv(c, s) && l == Open(None) && OpenStep(c, s, None).Some? && Tracked(s) && Smooth(s)
    ensures Tracked(OpenStep(c, s, None).value)
  {
    var t := OpenStep(c, s, None).value;
    if s.attempts != [] {
      SameReference(s, t);
    }
  }

  /** Undisturbed, the first thing the handler learns of a call is the first event of its stream. */
  lemma FirstLearned(c: Config, s: State)
    requires ConfigOk(c) && Inv(c, s) && TakeFirstStep(s).Some? && Smooth(s) && s.context == Live
    ensures Current(s).channel != [] && Current(s).channel[0] == Reference(Current(s))[0]
  {
    var a := Current(s);
    InvExpecting(c, s);
    assert AttemptOk(s.attempts[|s.attempts| - 1], c.capacity, s.context);
    if a.channel == [] {
      NothingLeft(a, c.capacity, s.context);
    }
    TakenAttemptOk(a, c.capacity, s.context);
    FirstEvent(a, c.capacity, s.context);
  }

  lemma TrackedTakeFirst(c: Config, s: State)
    requires ConfigOk(c) && Inv(c, s) && TakeFirstStep(s).Some? && Tracked(s) && Smooth(s)
    ensures Tracked(TakeFirstStep(s).value)
  {
    var t := TakeFirstStep(s).value;
    FirstLearned(c, s);
    HandlerKeepsAttempts(c, s, TakeFirst);
    SameReference(s, t);
    SecondCallStays(c, s);
  }

  /** While the second attempt waits for its first event there are two calls. */
  lemma SecondCallStays(c: Config, s: State)
    requires Inv(c, s) && s.pc == AwaitingFirst && Tracked(s)
    ensures |s.attempts| == s.n
  {
  }

  lemma TrackedDecide(c: Config, s: State)
    requires ConfigOk(c) && Inv(c, s) && HandlerStep(c, s, Decide).Some? && Tracked(s) && Smooth(s)
    ensures Tracked(HandlerStep(c, s, Decide).value)
  {
    DecidingSteps(c, s, Decide);
  }

  lemma TrackedSelect(c: Config, s: State, picked: Option<Worker>)
    requires ConfigOk(c) && Inv(c, s) && HandlerStep(c, s, Select(picked)).Some? && Tracked(s)
    ensures Tracked(HandlerStep(c, s, Select(picked)).value)
  {
  }

  /** The steps that concern neither selection nor the first event. */
  predicate Plain(l: Label) {
    !l.Open? && !l.TakeFirst? && !l.Decide? && !l.Select?
  }

  lemma PlainPlaces(c: Config, s: State, l: Label)
    requires ConfigOk(c) && HandlerStep(c, s, l).Some? && Plain(l)
    ensures var t := HandlerStep(c, s, l).value;
            && !Opening(s) && !Opening(t) && !s.pc.Deciding? && !t.pc.Deciding?
            && s.pc != AwaitingFirst && s.pc != Selecting
            && (t.context == s.context || (t.pc == Gone && s.context == Live && t.context == ClientGone))
  {
  }

  lemma BadGatewayStays(c: Config, s: State, l: Label)
    requires ConfigOk(c) && HandlerStep(c, s, l).Some? && BadGateway(s) && ContextHolds(s)
    ensures BadGateway(HandlerStep(c, s, l).value)
  {
  }

  lemma TrackedAfter(s: State, t: State)
    requires Tracked(s) && Continues(s, t) && |t.attempts| == |s.attempts|
    requires t.n == s.n && t.workers == s.workers && !Opening(s) && !Opening(t)
    requires !s.pc.Deciding? && !t.pc.Deciding? && s.pc != AwaitingFirst && s.pc != Selecting
    requires t.context == s.context || (t.pc == Gone && s.context == Live && t.context == ClientGone)
    requires s.pc != Gone
    requires BadGateway(s) ==> BadGateway(t)
    ensures Tracked(t)
  {
    if s.attempts != [] {
      SameReference(s, t);
    }
  }

  lemma TrackedPlain(c: Config, s: State, l: Label)
    requires ConfigOk(c) && HandlerStep(c, s, l).Some? && Tracked(s) && Plain(l) && s.pc != Gone
    ensures Tracked(HandlerStep(c, s, l).value)
  {
    HandlerKeepsAttempts(c, s, l);
    HandlerKeepsLoop(c, s, l);
    PlainPlaces(c, s, l);
    if BadGateway(s) {
      BadGatewayStays(c, s, l);
    }
    TrackedAfter(s, HandlerStep(c, s, l).value);
  }

  lemma TrackedHandler(c: Config, s: State, l: Label)
    requires ConfigOk(c) && Inv(c, s) && HandlerStep(c, s, l).Some? && Tracked(s) && Smooth(s)
    requires l.Open? ==> l.error.None?
    ensures Tracked(HandlerStep(c, s, l).value)
  {
    if l.Open? {
      TrackedOpen(c, s, l);
    } else if l.TakeFirst? {
      TrackedTakeFirst(c, s);
    } else if l.Decide? {
      TrackedDecide(c, s);
    } else if l.Select? {
      TrackedSelect(c, s, l.picked);
    } else {
      GoneTakesNone(c, s, l);
      TrackedPlain(c, s, l);
    }
  }

  lemma GoneTakesNone(c: Config, s: State, l: Label)
    requires ConfigOk(c) && HandlerStep(c, s, l).Some?
    ensures s.pc != Gone
  {
  }

  lemma {:induction false} RunTrackedSmoothly(c: Config, ls: seq<Label>)
    requires ConfigOk(c) && Run(c, ls).Some? && OpensSucceed(ls) && Smooth(Run(c, ls).value)
    ensures Tracked(Run(c, ls).value)
  {
    if ls != [] {
      var front, l := ls[..|ls| - 1], ls[|ls| - 1];
      var s := Run(c, front).value;
      RunExists(c, ls);
      RunOk(c, front);
      SmoothBefore(c, s, l);
      RunTrackedSmoothly(c, front);
      if ReceiverOf(l).None? {
        TrackedHandler(c, s, l);
      } else {
        TrackedReceiver(c, s, ReceiverOf(l).value, l);
      }
    }
  }

  // ---- The registry decides ----------------------------------------------

  /** What selections meet: the policy, and at each step of the run the registry calls so far, the
      cursor and the clock. */
  datatype Surroundings = Surroundings(
    policy: Routing.Policy,
    staleAfter: Time,
    calls: nat -> seq<Registry.Op>,
    cursor: nat -> uint64,
    clock: nat -> Time)

  function WorkersAt(e: Surroundings, k: nat): Registry.Workers {
    Registry.Run(e.calls(k), map[])
  }

  /** The k-th step is a selection over the registry's snapshot at that moment. */
  ghost predicate PicksFromRegistry(c: Config, ls: seq<Label>, e: Surroundings, k: nat)
    requires ConfigOk(c) && k < |ls|
  {
    ls[k].Select? && Run(c, ls[..k]).Some? ==>
      exists snapshot ::
        && Registry.IsSnapshot(snapshot, WorkersAt(e, k), e.clock(k), e.staleAfter)
        && ls[k].picked == Placement.SelectWorker(e.policy, e.cursor(k), c.request, snapshot,
                                                  Run(c, ls[..k]).value.excluded)
  }

  ghost predicate FollowsRegistry(c: Config, ls: seq<Label>, e: Surroundings)
    requires ConfigOk(c)
  {
    forall k: nat | k < |ls| :: PicksFromRegistry(c, ls, e, k)
  }

  lemma PickIffServed(c: Config, ls: seq<Label>, e: Surroundings, k: nat)
    requires ConfigOk(c) && k < |ls| && ls[k].Select? && Run(c, ls[..k]).Some? && PicksFromRegistry(c, ls, e, k)
    ensures ls[k].picked.Some? <==>
            Placement.SomeServes(WorkersAt(e, k), c.request, Run(c, ls[..k]).value.excluded, e.clock(k), e.staleAfter)
  {
    var excluded := Run(c, ls[..k]).value.excluded;
    var snapshot :|
      && Registry.IsSnapshot(snapshot, WorkersAt(e, k), e.clock(k), e.staleAfter)
      && ls[k].picked == Placement.SelectWorker(e.policy, e.cursor(k), c.request, snapshot, excluded);
    var picked := Placement.SelectionIffServing(e.policy, e.cursor(k), c.request, excluded, e.calls(k), snapshot,
                                                e.clock(k), e.staleAfter);
  }

  /** At the second selection some registered worker other than this one was fresh, healthy and of the
      request's model. */
  ghost predicate AnotherServed(c: Config, ls: seq<Label>, e: Surroundings, id: string)
    requires ConfigOk(c)
  {
    var k := SecondSelection(c, ls);
    k.Some? && Placement.SomeServes(WorkersAt(e, k.value), c.request, {id}, e.clock(k.value), e.staleAfter)
  }

  lemma SecondPickIffServed(c: Config, ls: seq<Label>, e: Surroundings)
    requires ConfigOk(c) && Run(c, ls).Some? && FollowsRegistry(c, ls, e)
    requires Run(c, ls).value.n == 2 && Run(c, ls).value.pc == Gone
    ensures var s := Run(c, ls).value;
            s.workers != [] && (|s.workers| == 2 <==> AnotherServed(c, ls, e, s.workers[0]))
  {
    RunBooked(c, ls);
    var k := SecondSelection(c, ls).value;
    assert PicksFromRegistry(c, ls, e, k);
    PickIffServed(c, ls, e, k);
  }

  lemma FirstWorker(c: Config, s: State)
    requires IdsOk(c, s) && |s.attempts| == |s.workers| && s.attempts != []
    ensures s.attempts[0].ids.workerId == s.workers[0]
  {
  }

  lemma RetriedOnlyIfFailed(c: Config, s: State)
    requires Inv(c, s) && Tracked(s) && s.pc == Gone
    ensures s.n == 2 <==> s.attempts != [] && FailsRetriably(s.attempts[0])
  {
    SelectingNumbers(c, s);
  }

  lemma TwoCallsIffServed(c: Config, ls: seq<Label>, e: Surroundings, s: State)
    requires ConfigOk(c) && Run(c, ls) == Some(s) && s.pc == Gone && FollowsRegistry(c, ls, e)
    requires Inv(c, s) && Tracked(s)
    ensures |s.attempts| == 2 <==> s.attempts != [] && FailsRetriably(s.attempts[0])
                                   && AnotherServed(c, ls, e, s.attempts[0].ids.workerId)
  {
    RetriedOnlyIfFailed(c, s);
    if s.n == 2 {
      SecondPickIffServed(c, ls, e);
      FirstWorker(c, s);
    } else {
      OneWorker(c, s);
    }
  }

  lemma LoopAnswers(c: Config, s: State)
    requires Inv(c, s) && Tracked(s) && s.pc == Gone && Undisturbed(s)
    ensures |s.attempts| == 2 && FirstFailure(Reference(s.attempts[1])[0]).None? ==>
              s.delivered == Rendered(Reference(s.attempts[1]))
    ensures |s.attempts| == 1 && FailsRetriably(s.attempts[0]) ==> s.delivered == [ApiError(502)]
  {
    RetriedOnlyIfFailed(c, s);
    AllDelivered(c, s);
    if |s.attempts| == 2 && FirstFailure(Reference(s.attempts[1])[0]).None? {
      LastCallRendered(c, s);
    }
  }

  /** The attempt loop and the registry composed. In an undisturbed run in which every started call is
      opened, a second call is opened if and only if the first one fails retriably before its first chunk
      and at the second selection some other registered worker is fresh, healthy and of the request's
      model. The client gets the second call's whole stream if it starts well, and 502 if there was no
      such worker. */
  lemma SecondCallIffServed(c: Config, ls: seq<Label>, e: Surroundings)
    requires ConfigOk(c) && Run(c, ls).Some? && Run(c, ls).value.pc == Gone
    requires Undisturbed(Run(c, ls).value) && OpensSucceed(ls) && FollowsRegistry(c, ls, e)
    ensures var s := Run(c, ls).value;
            && (|s.attempts| == 2 <==> s.attempts != [] && FailsRetriably(s.attempts[0])
                                       && AnotherServed(c, ls, e, s.attempts[0].ids.workerId))
            && (|s.attempts| == 2 && FirstFailure(Reference(s.attempts[1])[0]).None? ==>
                  s.delivered == Rendered(Reference(s.attempts[1])))
            && (|s.attempts| == 1 && FailsRetriably(s.attempts[0]) ==> s.delivered == [ApiError(502)])
  {
    RunOk(c, ls);
    RunTrackedSmoothly(c, ls);
    TwoCallsIffServed(c, ls, e, Run(c, ls).value);
    LoopAnswers(c, Run(c, ls).value);
  }

  lemma OneWorker(c: Config, s: State)
    requires Inv(c, s) && s.n == 1
    ensures |s.workers| <= 1
  {
  }

  lemma AllDelivered(c: Config, s: State)
    requires Inv(c, s) && !s.broken
    ensures s.delivered == s.out
  {
  }
}
