/** What the gateway protocol guarantees in every run. */
module GatewayTheorems {
  import opened Model
  import opened Gateway
  import opened GatewayProofs

  // ---- Output ------------------------------------------------------------

  /** Tokens read from the channel are the reference's own, in order and without gaps. */
  lemma SentTokensAreReference(a: Attempt, capacity: nat, context: Context, k: nat)
    requires AttemptOk(a, capacity, context) && k <= |a.sent| && AllTokens(a.sent[..k])
    ensures k <= |Reference(a)| && a.sent[..k] == Reference(a)[..k]
  {
  }

  lemma WrapAdds(x: nat, y: nat)
    ensures Wrap32(Wrap32(x) + y) == Wrap32(x + y)
  {
  }

  lemma DecodedIsExpected(a: Arrival, ids: Ids, expected: uint32)
    requires Decode(a, ids, expected).Got?
    ensures Numbered(Decode(a, ids, expected).chunk, ids, expected)
  {
  }

  /** Carries this index and these identifiers. */
  predicate Numbered(c: Chunk, ids: Ids, index: uint32) {
    c.tokenIndex == index && Ids(c.requestId, c.attemptId, c.workerId) == ids
  }

  lemma {:induction false} EventsNumbered(s: Stream, ids: Ids, expected: uint32, k: nat)
    requires k < |Events(s, ids, expected)| && Events(s, ids, expected)[k].Got?
    ensures Numbered(Events(s, ids, expected)[k].chunk, ids, Wrap32(expected + k))
    decreases |s.arrivals|
  {
    if k > 0 {
      EventsNumbered(Rest(s), ids, Wrap32(expected + 1), k - 1);
      WrapAdds(expected + 1, k - 1);
    } else {
      DecodedIsExpected(s.arrivals[0], ids, expected);
    }
  }

  /** The chunk at position `k` of a stream, the final one included, carries index `k` and the
      identifiers of its attempt: relayed tokens are 0, 1, 2, ... of one attempt without a gap. */
  lemma ReferenceIsNumbered(a: Attempt, k: nat)
    requires k < |Reference(a)| && Reference(a)[k].Got?
    ensures Numbered(Reference(a)[k].chunk, a.ids, Wrap32(k))
  {
    EventsNumbered(a.script, a.ids, 0, k);
  }

  /** The committed response for `k` tokens of a stream, closed by `tail`. */
  function Response(reference: seq<Event>, k: nat, tail: seq<Frame>): seq<Frame>
    requires k <= |reference|
  {
    [Headers] + TokenFrames(reference[..k]) + tail
  }

  /** What the client should get for a stream when nothing interferes. */
  function Rendered(reference: seq<Event>): seq<Frame>
    requires |reference| > 0
  {
    Response(reference, |reference| - 1, [FrameFor(reference[|reference| - 1]), Done])
  }

  /** The response of a request that committed to attempt `a`. */
  ghost predicate CommittedTo(s: State, a: Attempt) {
    var reference := Reference(a);
    && s.tokens <= |reference| && AllTokens(reference[..s.tokens])
    && (|| (s.out == Response(reference, s.tokens, []) && (s.broken || s.disturbed))
        || s.out == Rendered(reference)
        || (exists cause ::
              s.out == Response(reference, s.tokens, [StreamError(cause), Done])
              && (s.disturbed || a.interruption == TimedOut)))
  }

  lemma AbandonedIsCommitted(s: State)
    requires Relayed(s, []) && (s.broken || s.disturbed)
    requires s.tokens <= |Reference(Current(s))| && Current(s).sent[..s.tokens] == Reference(Current(s))[..s.tokens]
    ensures CommittedTo(s, Current(s))
  {
  }

  lemma ClosedIsCommitted(s: State, f: Frame)
    requires Relayed(s, [f, Done]) && TailOk(s, f)
    requires s.tokens <= |Reference(Current(s))| && Current(s).sent[..s.tokens] == Reference(Current(s))[..s.tokens]
    ensures CommittedTo(s, Current(s))
  {
  }

  lemma SealedIsCommitted(c: Config, s: State)
    requires Inv(c, s) && s.attempts != [] && Sealed(s)
    ensures CommittedTo(s, Current(s))
  {
    assert AttemptOk(s.attempts[|s.attempts| - 1], c.capacity, s.context);
    SentTokensAreReference(Current(s), c.capacity, s.context, s.tokens);
    if Relayed(s, []) && (s.broken || s.disturbed) {
      AbandonedIsCommitted(s);
    } else {
      ClosedIsCommitted(s, s.out[|s.out| - 2]);
    }
  }

  predicate IsStatus(f: Frame) {
    f.ApiError? || f.Headers?
  }

  /** How a finished request can look. With API errors: 429 and 500 before anything was reserved, 503
      only if no attempt has failed, 502 and 504 only after one has, 504 only past the deadline. */
  ghost predicate Outcome(s: State) {
    || (&& |s.out| == 1 && s.out[0].ApiError?
        && StatusJustified(s, s.out[0].status))
    || (s.attempts != [] && CommittedTo(s, Current(s)))
  }

  /** Main safety theorem. In every interleaving of handler, receivers, context, timers and write
      failures, a finished request has written one API error, or: headers, then the first tokens of
      the last attempt's stream in order, then what that stream calls for and DONE. The stream may be
      cut short by nothing at all (only after a write failure or the end of the context) or by an
      error and DONE (only after the end of the context or a delivery timeout). The client has
      received a prefix of it, and all of it unless a write failed. */
  lemma EveryRunEndsWell(c: Config, ls: seq<Label>)
    requires ConfigOk(c) && Run(c, ls).Some? && Run(c, ls).value.pc == Gone
    ensures var s := Run(c, ls).value;
            Outcome(s) && s.delivered <= s.out && (!s.broken ==> s.delivered == s.out)
  {
    RunOk(c, ls);
    var s := Run(c, ls).value;
    if !Answered(s) {
      SealedIsCommitted(c, s);
    }
  }

  /** No disturbance: the context lasted, every write worked and no delivery timed out. */
  predicate Undisturbed(s: State) {
    !s.disturbed && !s.broken && forall i | 0 <= i < |s.attempts| :: s.attempts[i].interruption != TimedOut
  }

  lemma SupersededIsDoomed(s: State)
    requires Responded(s) && s.attempts != []
    ensures |s.attempts| >= 2 || Answered(s) ==> Doomed(s, s.attempts[0])
  {
  }

  lemma OnlyRendered(s: State, a: Attempt)
    requires CommittedTo(s, a) && !s.disturbed && !s.broken && a.interruption != TimedOut
    ensures s.out == Rendered(Reference(a))
  {
  }

  lemma GoneUndisturbed(c: Config, s: State)
    requires Inv(c, s) && s.pc == Gone && Undisturbed(s)
    requires s.attempts != [] && FirstFailure(Reference(s.attempts[0])[0]).None?
    ensures |s.attempts| == 1 && s.delivered == s.out == Rendered(Reference(s.attempts[0]))
  {
    GoneResponded(c, s);
    SupersededIsDoomed(s);
    SealedIsCommitted(c, s);
    OnlyRendered(s, s.attempts[0]);
  }

  /** An undisturbed run whose last call starts well delivers that call's whole stream. */
  lemma LastCallRendered(c: Config, s: State)
    requires Inv(c, s) && s.pc == Gone && Undisturbed(s)
    requires s.attempts != [] && FirstFailure(Reference(Current(s))[0]).None?
    ensures s.delivered == s.out == Rendered(Reference(Current(s)))
  {
    GoneResponded(c, s);
    assert Answered(s) ==> Doomed(s, Current(s));
    SealedIsCommitted(c, s);
    OnlyRendered(s, Current(s));
  }

  /** Refinement: an undisturbed run whose first opened call starts well delivers exactly what that
      stream, read sequentially, calls for, and opens no further call. */
  lemma UndisturbedRunRendersStream(c: Config, ls: seq<Label>)
    requires ConfigOk(c) && Run(c, ls).Some? && Run(c, ls).value.pc == Gone
    requires var s := Run(c, ls).value;
             Undisturbed(s) && s.attempts != [] && FirstFailure(Reference(s.attempts[0])[0]).None?
    ensures var s := Run(c, ls).value;
            |s.attempts| == 1 && s.delivered == s.out == Rendered(Reference(s.attempts[0]))
  {
    RunOk(c, ls);
    GoneUndisturbed(c, Run(c, ls).value);
  }

  /** An undisturbed run that commits at all delivers exactly the last call's stream. */
  lemma UndisturbedCommitIsComplete(c: Config, ls: seq<Label>)
    requires ConfigOk(c) && Run(c, ls).Some? && Run(c, ls).value.pc == Gone
    requires var s := Run(c, ls).value; Undisturbed(s) && s.out != [] && s.out[0] == Headers
    ensures var s := Run(c, ls).value;
            s.attempts != [] && s.delivered == s.out == Rendered(Reference(Current(s)))
  {
    EveryRunEndsWell(c, ls);
  }

  function Statuses(fs: seq<Frame>): nat {
    if fs == [] then 0 else (if IsStatus(fs[0]) then 1 else 0) + Statuses(fs[1..])
  }

  lemma {:induction false} NoStatuses(fs: seq<Frame>)
    requires forall i | 0 <= i < |fs| :: !IsStatus(fs[i])
    ensures Statuses(fs) == 0
  {
    if fs != [] {
      NoStatuses(fs[1..]);
    }
  }

  lemma OnlyFirstIsStatus(fs: seq<Frame>)
    requires fs != [] && IsStatus(fs[0]) && forall i | 1 <= i < |fs| :: !IsStatus(fs[i])
    ensures Statuses(fs) == 1
  {
    NoStatuses(fs[1..]);
  }

  lemma SealedStatus(s: State)
    requires s.attempts != [] && Sealed(s)
    ensures s.out != [] && s.out[0] == Headers && forall i | 1 <= i < |s.out| :: !IsStatus(s.out[i])
  {
  }

  lemma RespondedStatus(s: State)
    requires Responded(s) && (s.attempts == [] ==> Answered(s))
    ensures s.out != [] && IsStatus(s.out[0]) && Statuses(s.out) == 1
  {
    if !Answered(s) {
      SealedStatus(s);
    }
    OnlyFirstIsStatus(s.out);
  }

  lemma GoneResponded(c: Config, s: State)
    requires PcOk(c, s) && s.pc == Gone
    ensures Responded(s) && (s.attempts == [] ==> Answered(s))
  {
  }

  /** Every finished request has written exactly one HTTP status, and wrote it first. */
  lemma ExactlyOneStatus(c: Config, ls: seq<Label>)
    requires ConfigOk(c) && Run(c, ls).Some? && Run(c, ls).value.pc == Gone
    ensures var s := Run(c, ls).value; s.out != [] && IsStatus(s.out[0]) && Statuses(s.out) == 1
  {
    RunOk(c, ls);
    var s := Run(c, ls).value;
    GoneResponded(c, s);
    RespondedStatus(s);
  }

  // ---- Attempts and the lease --------------------------------------------

  /** At most two calls, to different workers and under different attempt IDs; a lease held while any
      of them is in use and released exactly once; none open when the handler is gone. */
  lemma AttemptsAndLease(c: Config, ls: seq<Label>)
    requires ConfigOk(c) && Run(c, ls).Some?
    ensures var s := Run(c, ls).value;
            && |s.attempts| <= 2
            && (|s.attempts| == 2 ==> s.attempts[0].ids.workerId != s.attempts[1].ids.workerId
                                      && s.attempts[0].ids.attemptId != s.attempts[1].ids.attemptId
                                      && s.attempts[0].stopped)
            && (forall i | 0 <= i < |s.attempts| && !s.attempts[i].stopped :: s.lease == Held)
            && (s.pc == Gone ==> s.releases == (if s.lease == NoLease then 0 else 1)
                                 && AllStopped(s.attempts))
            && s.releases <= 1
  {
    RunOk(c, ls);
    var s := Run(c, ls).value;
    if |s.attempts| == 2 {
      AttemptIdsDiffer(c.request);
      FirstIsClosed(c, s);
    }
    if s.lease != Held {
      StoppedWithoutLease(c, s);
    }
  }

  lemma AttemptIdsDiffer(request: Request)
    ensures AttemptId(request, 1) != AttemptId(request, 2)
  {
    assert AttemptId(request, 1)[|request.id| + 2] != AttemptId(request, 2)[|request.id| + 2];
  }

  predicate AllStopped(attempts: seq<Attempt>) {
    forall i | 0 <= i < |attempts| :: attempts[i].stopped
  }

  lemma RespondedStopped(s: State)
    requires Responded(s) && (s.attempts == [] ==> Answered(s))
    ensures AllStopped(s.attempts)
  {
  }

  /** Earlier attempts are always given up, in every state. */
  lemma EarlierAreClosed(c: Config, s: State)
    requires PcOk(c, s) && (s.pc == Starting || s.pc == Admitting ==> s.attempts == []) && s.attempts != []
    ensures AllClosed(s, s.attempts[..|s.attempts| - 1])
  {
  }

  lemma FirstIsClosed(c: Config, s: State)
    requires Inv(c, s) && |s.attempts| == 2
    ensures s.attempts[0].stopped
  {
    EarlierAreClosed(c, s);
    assert s.attempts[..1][0] == s.attempts[0];
  }

  lemma NoLeaseResponded(c: Config, s: State)
    requires LeaseOk(s) && PcOk(c, s) && s.lease != Held && s.attempts != []
    ensures Responded(s)
  {
  }

  lemma StoppedWithoutLease(c: Config, s: State)
    requires Inv(c, s) && s.lease != Held
    ensures AllStopped(s.attempts)
  {
    if s.attempts != [] {
      NoLeaseResponded(c, s);
      RespondedStopped(s);
    }
  }

  lemma NotOpeningOnceWritten(c: Config, s: State)
    requires PcOk(c, s) && s.out != []
    ensures !s.pc.Opening?
  {
  }

  /** `t` has the calls of `s` and at least its output. */
  predicate OnlyAppends(s: State, t: State) {
    |t.attempts| == |s.attempts| && s.out <= t.out && s.delivered <= t.delivered
  }

  lemma TakeFirstAppends(s: State)
    requires TakeFirstStep(s).Some?
    ensures OnlyAppends(s, TakeFirstStep(s).value)
  {
  }

  lemma ForwardAppends(s: State, write: Write)
    requires ForwardStep(s, write).Some?
    ensures OnlyAppends(s, ForwardStep(s, write).value)
  {
  }

  lemma HandlerOnlyAppends(c: Config, s: State, l: Label)
    requires ConfigOk(c) && HandlerStep(c, s, l).Some? && !s.pc.Opening?
    ensures OnlyAppends(s, HandlerStep(c, s, l).value)
  {
    match l
    case TakeFirst => TakeFirstAppends(s);
    case Forward(write) => ForwardAppends(s, write);
    case _ =>
  }

  /** Once the response has been committed, no step opens another call or changes a written frame. */
  lemma NothingOpensAfterCommit(c: Config, ls: seq<Label>, l: Label)
    requires ConfigOk(c) && Run(c, ls).Some? && Step(c, Run(c, ls).value, l).Some?
    requires Run(c, ls).value.out != []
    ensures var s := Run(c, ls).value;
            OnlyAppends(s, Step(c, s, l).value)
  {
    RunOk(c, ls);
    var s := Run(c, ls).value;
    NotOpeningOnceWritten(c, s);
    if !l.ContextEnds? && ReceiverOf(l).None? {
      HandlerOnlyAppends(c, s, l);
    }
  }

  // ---- Progress ----------------------------------------------------------

  predicate Terminated(s: State) {
    s.pc == Gone && forall i | 0 <= i < |s.attempts| :: s.attempts[i].pc == Exited
  }

  /** A step that is neither a disturbance from outside nor a failed write. */
  predicate Orderly(l: Label) {
    match l
    case ContextEnds(_) => false
    case DeliverTimeout(_) => false
    case Respond(ok) => ok
    case WriteHeaders(ok) => ok
    case WriteFirst(write) => write.Sent?
    case Forward(write) => write.Sent?
    case WriteDone(ok) => ok
    case _ => true
  }

  lemma ReceiverEnabled(a: Attempt, capacity: nat, context: Context, i: nat) returns (l: Label)
    requires a.pc != Exited && capacity > 0 && (a.stopped || a.channel == [])
    ensures Orderly(l) && ReceiverOf(l) == Some(i) && ReceiverStep(a, capacity, context, l).Some?
  {
    match a.pc
    case Receiving => l := Receive(i, if AttemptDone(a, context) then Some(ContextCanceled) else None);
    case Delivering(_) => l := if |a.channel| < capacity then Deliver(i) else DeliverAbandoned(i);
    case Cancelling => l := ReceiverCancel(i);
    case Closing => l := ReceiverClose(i);
  }

  /** A receiver that has not exited can move if there is room in its channel or it was stopped. */
  lemma ReceiverCanMove(c: Config, s: State, i: nat) returns (l: Label)
    requires ConfigOk(c) && i < |s.attempts| && s.attempts[i].pc != Exited
    requires s.attempts[i].stopped || s.attempts[i].channel == []
    ensures Orderly(l) && Step(c, s, l).Some?
  {
    l := ReceiverEnabled(s.attempts[i], c.capacity, s.context, i);
  }

  /** The handler's part of an orderly schedule. */
  function HandlerLabel(pc: HandlerPc): Label
    requires pc != Gone
  {
    match pc
    case Starting => CheckHealth(true)
    case Admitting => Admit(Admitted)
    case Selecting => Select(None)
    case Opening(_) => Open(None)
    case AwaitingFirst => TakeFirst
    case Deciding(_) => Decide
    case Failing(_) => Fail
    case Responding(_) => Respond(true)
    case Committing(_) => WriteHeaders(true)
    case WritingFirst(_) => WriteFirst(Sent)
    case Forwarding => Forward(Sent)
    case WritingDone => WriteDone(true)
    case Leaving => CancelAttempt
    case Releasing => Release
    case Ending => End
  }

  predicate Waiting(s: State) {
    s.pc == AwaitingFirst || s.pc == Forwarding
  }

  lemma HandlerLabelEnabled(c: Config, s: State)
    requires ConfigOk(c) && s.pc != Gone
    requires Waiting(s) ==> s.attempts != [] && (Current(s).channel != [] || Current(s).pc == Exited)
    requires s.pc == Leaving ==> s.attempts != []
    requires s.pc.Opening? ==> |s.attempts| < 2
    ensures Orderly(HandlerLabel(s.pc)) && HandlerStep(c, s, HandlerLabel(s.pc)).Some?
  {
  }

  lemma PcNeeds(c: Config, s: State)
    requires Inv(c, s)
    ensures Waiting(s) || s.pc == Leaving ==> s.attempts != []
    ensures s.pc.Opening? ==> |s.attempts| < 2
    ensures s.pc == Gone ==> s.context != Live && s.lease != Held
    ensures |s.attempts| <= 2 && 1 <= s.n <= 2
  {
  }

  lemma HandlerCanMove(c: Config, s: State) returns (l: Label)
    requires ConfigOk(c) && s.pc != Gone
    requires Waiting(s) ==> s.attempts != [] && (Current(s).channel != [] || Current(s).pc == Exited)
    requires s.pc == Leaving ==> s.attempts != []
    requires s.pc.Opening? ==> |s.attempts| < 2
    ensures Orderly(l) && Step(c, s, l).Some?
  {
    HandlerLabelEnabled(c, s);
    l := HandlerLabel(s.pc);
  }

  lemma RemainingReceiver(c: Config, s: State) returns (i: nat)
    requires Inv(c, s) && s.pc == Gone && !Terminated(s)
    ensures i < |s.attempts| && s.attempts[i].pc != Exited && s.attempts[i].stopped
  {
    PcNeeds(c, s);
    StoppedWithoutLease(c, s);
    i :| 0 <= i < |s.attempts| && s.attempts[i].pc != Exited;
  }

  lemma BlockedCanMove(c: Config, s: State) returns (l: Label)
    requires ConfigOk(c) && s.attempts != [] && Current(s).channel == [] && Current(s).pc != Exited
    ensures Orderly(l) && Step(c, s, l).Some?
  {
    l := ReceiverCanMove(c, s, |s.attempts| - 1);
  }

  lemma GoneCanMove(c: Config, s: State) returns (l: Label)
    requires ConfigOk(c) && Inv(c, s) && s.pc == Gone && !Terminated(s)
    ensures Orderly(l) && Step(c, s, l).Some?
  {
    var i := RemainingReceiver(c, s);
    l := ReceiverCanMove(c, s, i);
  }

  lemma StateCanMove(c: Config, s: State) returns (l: Label)
    requires ConfigOk(c) && Inv(c, s) && !Terminated(s)
    ensures Orderly(l) && Step(c, s, l).Some?
  {
    PcNeeds(c, s);
    if s.pc == Gone {
      l := GoneCanMove(c, s);
    } else if Waiting(s) && Current(s).channel == [] && Current(s).pc != Exited {
      l := BlockedCanMove(c, s);
    } else {
      l := HandlerCanMove(c, s);
    }
  }

  /** No deadlock: until the handler is gone and every receiver has exited, some orderly step is possible. */
  lemma NoDeadlock(c: Config, ls: seq<Label>) returns (l: Label)
    requires ConfigOk(c) && Run(c, ls).Some? && !Terminated(Run(c, ls).value)
    ensures Orderly(l) && Step(c, Run(c, ls).value, l).Some?
  {
    RunOk(c, ls);
    l := StateCanMove(c, Run(c, ls).value);
  }

  lemma GoneHandlerStays(c: Config, s: State, l: Label)
    requires ConfigOk(c) && s.pc == Gone
    ensures HandlerStep(c, s, l).None?
  {
  }

  lemma TerminatedStays(c: Config, s: State, l: Label)
    requires ConfigOk(c) && Terminated(s) && s.context != Live
    ensures Step(c, s, l).None?
  {
    GoneHandlerStays(c, s, l);
  }

  /** A terminated system has no further step: it is at rest for good. */
  lemma TerminatedIsFinal(c: Config, ls: seq<Label>, l: Label)
    requires ConfigOk(c) && Run(c, ls).Some? && Terminated(Run(c, ls).value)
    ensures Step(c, Run(c, ls).value, l).None?
  {
    RunOk(c, ls);
    PcNeeds(c, Run(c, ls).value);
    TerminatedStays(c, Run(c, ls).value, l);
  }

  // ---- Termination -------------------------------------------------------

  function ReceiverRank(a: Attempt): nat {
    |a.channel| +
    match a.pc
    case Receiving => 3 * |a.rest.arrivals| + 6
    case Delivering(e) => if IsToken(e) then 3 * |a.rest.arrivals| + 8 else 4
    case Cancelling => 2
    case Closing => 1
    case Exited => 0
  }

  function HandlerRank(pc: HandlerPc, n: nat): nat {
    var first := if n <= 1 then 4 else 0;
    match pc
    case Starting => 26 + first
    case Admitting => 25 + first
    case Selecting => 24 + first
    case Opening(_) => 23 + first
    case AwaitingFirst => 22 + first
    case Deciding(_) => 21 + first
    case Failing(_) => 20
    case Responding(_) => 19
    case Committing(_) => 14
    case WritingFirst(_) => 13
    case Forwarding => 12
    case WritingDone => 11
    case Leaving => 10
    case Releasing => 9
    case Ending => 8
    case Gone => 0
  }

  /** What the i-th call can still cost: a receiver at work, or a stream not yet opened. */
  function CallRank(c: Config, s: State, i: nat): nat
    requires i < |c.streams|
  {
    if i < |s.attempts| then ReceiverRank(s.attempts[i]) else 3 * |c.streams[i].arrivals| + 6
  }

  function Measure(c: Config, s: State): nat
    requires ConfigOk(c)
  {
    (if s.context == Live then 1 else 0) + HandlerRank(s.pc, s.n) + CallRank(c, s, 0) + CallRank(c, s, 1)
  }

  lemma ReceiverRankDrops(a: Attempt, capacity: nat, context: Context, l: Label)
    requires ReceiverStep(a, capacity, context, l).Some?
    ensures ReceiverRank(ReceiverStep(a, capacity, context, l).value) < ReceiverRank(a)
  {
  }

  lemma TakeEventRank(c: Config, s: State)
    requires ConfigOk(c) && 0 < |s.attempts| <= 2 && Current(s).channel != []
    ensures var t := TakeEvent(s);
            CallRank(c, t, 0) + CallRank(c, t, 1) == CallRank(c, s, 0) + CallRank(c, s, 1) - 1
  {
  }

  lemma StopCurrentRank(c: Config, s: State)
    requires ConfigOk(c) && 0 < |s.attempts| <= 2
    ensures var t := StopCurrent(s);
            CallRank(c, t, 0) + CallRank(c, t, 1) == CallRank(c, s, 0) + CallRank(c, s, 1)
  {
  }

  lemma TakeNothingRank(c: Config, s: State)
    requires ConfigOk(c) && |s.attempts| <= 2 && TakeFirstStep(s).Some? && Current(s).channel == []
    ensures Measure(c, TakeFirstStep(s).value) < Measure(c, s)
  {
  }

  lemma TakeChunkRank(c: Config, s: State)
    requires ConfigOk(c) && |s.attempts| <= 2 && TakeFirstStep(s).Some? && Current(s).channel != []
    ensures Measure(c, TakeFirstStep(s).value) < Measure(c, s)
  {
    TakeEventRank(c, s);
    StopCurrentRank(c, TakeEvent(s));
  }

  lemma TakeFirstRank(c: Config, s: State)
    requires ConfigOk(c) && |s.attempts| <= 2 && TakeFirstStep(s).Some?
    ensures Measure(c, TakeFirstStep(s).value) < Measure(c, s)
  {
    if Current(s).channel == [] {
      TakeNothingRank(c, s);
    } else {
      TakeChunkRank(c, s);
    }
  }

  lemma ForwardRank(c: Config, s: State, write: Write)
    requires ConfigOk(c) && |s.attempts| <= 2 && ForwardStep(s, write).Some?
    ensures Measure(c, ForwardStep(s, write).value) < Measure(c, s)
  {
    if Current(s).channel != [] {
      TakeEventRank(c, s);
    }
  }

  lemma OpenRank(c: Config, s: State, error: Option<Failure>)
    requires ConfigOk(c) && OpenStep(c, s, error).Some?
    ensures Measure(c, OpenStep(c, s, error).value) < Measure(c, s)
  {
  }

  lemma SameCallsRank(c: Config, s: State, t: State)
    requires ConfigOk(c) && t.attempts == s.attempts && t.context == s.context
    requires HandlerRank(t.pc, t.n) < HandlerRank(s.pc, s.n)
    ensures Measure(c, t) < Measure(c, s)
  {
  }

  lemma CancelRank(c: Config, s: State)
    requires ConfigOk(c) && 0 < |s.attempts| <= 2 && s.pc == Leaving
    ensures Measure(c, StopCurrent(s).(pc := Releasing)) < Measure(c, s)
  {
  }

  lemma EndRank(c: Config, s: State, t: State)
    requires ConfigOk(c) && s.pc == Ending && t == s.(pc := Gone, context := t.context) && t.context != Live
    ensures Measure(c, t) < Measure(c, s)
  {
  }

  /** The steps from the selection of a worker to the response, short of those with a lemma of their own. */
  predicate BeforeOutput(l: Label) {
    l.CheckHealth? || l.Admit? || l.Select? || l.Decide? || l.Fail?
  }

  lemma EarlyStepsRank(c: Config, s: State, l: Label)
    requires ConfigOk(c) && s.n >= 1 && HandlerStep(c, s, l).Some? && BeforeOutput(l)
    ensures var t := HandlerStep(c, s, l).value;
            t.attempts == s.attempts && t.context == s.context && HandlerRank(t.pc, t.n) < HandlerRank(s.pc, s.n)
  {
  }

  lemma WritingStepsRank(c: Config, s: State, l: Label)
    requires ConfigOk(c) && HandlerStep(c, s, l).Some? && !BeforeOutput(l)
    requires !l.TakeFirst? && !l.Forward? && !l.Open? && !l.CancelAttempt? && !l.End?
    ensures var t := HandlerStep(c, s, l).value;
            t.attempts == s.attempts && t.context == s.context && HandlerRank(t.pc, t.n) < HandlerRank(s.pc, s.n)
  {
  }

  lemma HandlerRankDrops(c: Config, s: State, l: Label)
    requires ConfigOk(c) && |s.attempts| <= 2 && s.n >= 1 && HandlerStep(c, s, l).Some?
    ensures Measure(c, HandlerStep(c, s, l).value) < Measure(c, s)
  {
    if l.TakeFirst? {
      TakeFirstRank(c, s);
    } else if l.Forward? {
      ForwardRank(c, s, l.write);
    } else if l.Open? {
      OpenRank(c, s, l.error);
    } else if l.CancelAttempt? {
      CancelRank(c, s);
    } else if l.End? {
      EndRank(c, s, HandlerStep(c, s, l).value);
    } else {
      if BeforeOutput(l) {
        EarlyStepsRank(c, s, l);
      } else {
        WritingStepsRank(c, s, l);
      }
      SameCallsRank(c, s, HandlerStep(c, s, l).value);
    }
  }

  lemma ReceiverTurnRank(c: Config, s: State, i: nat, l: Label)
    requires ConfigOk(c) && |s.attempts| <= 2 && ReceiverTurn(c, s, i, l).Some?
    ensures Measure(c, ReceiverTurn(c, s, i, l).value) < Measure(c, s)
  {
    ReceiverRankDrops(s.attempts[i], c.capacity, s.context, l);
  }

  /** Every step of every interleaving uses up some of the measure. */
  lemma StepDecreases(c: Config, s: State, l: Label)
    requires ConfigOk(c) && Inv(c, s) && Step(c, s, l).Some?
    ensures Measure(c, Step(c, s, l).value) < Measure(c, s)
  {
    PcNeeds(c, s);
    if l.ContextEnds? {
    } else if ReceiverOf(l).None? {
      HandlerRankDrops(c, s, l);
    } else {
      ReceiverTurnRank(c, s, ReceiverOf(l).value, l);
    }
  }

  /** Every run is finite: its length is bounded by the number of chunks the two calls can carry. */
  lemma {:induction false} RunsAreBounded(c: Config, ls: seq<Label>)
    requires ConfigOk(c) && Run(c, ls).Some?
    ensures |ls| + Measure(c, Run(c, ls).value) <= 43 + 3 * (|c.streams[0].arrivals| + |c.streams[1].arrivals|)
  {
    if ls != [] {
      var front := ls[..|ls| - 1];
      RunsAreBounded(c, front);
      RunOk(c, front);
      StepDecreases(c, Run(c, front).value, ls[|ls| - 1]);
    }
  }

  /** How many steps a stopped receiver can still take, however long its stream is. */
  function StoppedRank(a: Attempt): (r: nat)
    ensures r <= 5 && (r == 0 <==> a.pc == Exited)
  {
    match a.pc
    case Receiving => 4
    case Delivering(e) => if IsToken(e) then 5 else 3
    case Cancelling => 2
    case Closing => 1
    case Exited => 0
  }

  /** `Recv` fails once its context is done. */
  predicate RecvFails(l: Label) {
    l.Receive? ==> l.cut.Some?
  }

  lemma StoppedRankDrops(a: Attempt, capacity: nat, context: Context, l: Label)
    requires a.stopped && ReceiverStep(a, capacity, context, l).Some? && RecvFails(l)
    ensures var b := ReceiverStep(a, capacity, context, l).value;
            b.stopped && StoppedRank(b) < StoppedRank(a)
  {
  }

  function Lingering(attempts: seq<Attempt>): (r: nat)
    ensures r <= 5 * |attempts|
  {
    if attempts == [] then 0 else StoppedRank(attempts[0]) + Lingering(attempts[1..])
  }

  lemma {:induction false} LingeringDrops(attempts: seq<Attempt>, i: nat, a: Attempt)
    requires i < |attempts| && StoppedRank(a) < StoppedRank(attempts[i])
    ensures Lingering(attempts[i := a]) < Lingering(attempts)
  {
    if i > 0 {
      LingeringDrops(attempts[1..], i - 1, a);
      assert attempts[i := a][1..] == attempts[1..][i - 1 := a];
    }
  }

  lemma GoneStep(c: Config, s: State, l: Label)
    requires ConfigOk(c) && Inv(c, s) && s.pc == Gone && Step(c, s, l).Some? && RecvFails(l)
    ensures var t := Step(c, s, l).value;
            t.pc == Gone && |t.attempts| == |s.attempts| && Lingering(t.attempts) < Lingering(s.attempts)
  {
    PcNeeds(c, s);
    StoppedWithoutLease(c, s);
    GoneHandlerStays(c, s, l);
    var i := ReceiverOf(l).value;
    StoppedRankDrops(s.attempts[i], c.capacity, s.context, l);
    LingeringDrops(s.attempts, i, Step(c, s, l).value.attempts[i]);
  }

  lemma GoneOneMore(c: Config, ls: seq<Label>, l: Label)
    requires ConfigOk(c) && Run(c, ls).Some? && Run(c, ls).value.pc == Gone
    requires Step(c, Run(c, ls).value, l).Some? && RecvFails(l)
    ensures var s, t := Run(c, ls).value, Step(c, Run(c, ls).value, l).value;
            t.pc == Gone && |t.attempts| == |s.attempts| && Lingering(t.attempts) < Lingering(s.attempts)
  {
    RunOk(c, ls);
    GoneStep(c, Run(c, ls).value, l);
  }

  lemma SplitLast<T>(a: seq<T>, b: seq<T>)
    requires b != []
    ensures a + b == (a + b[..|b| - 1]) + [b[|b| - 1]]
    ensures (a + b)[..|a + b| - 1] == a + b[..|b| - 1]
  {
  }

  lemma RunExists(c: Config, ls: seq<Label>)
    requires ConfigOk(c) && Run(c, ls).Some? && ls != []
    ensures Run(c, ls[..|ls| - 1]).Some? && Step(c, Run(c, ls[..|ls| - 1]).value, ls[|ls| - 1]) == Run(c, ls)
  {
  }

  /** No receiver outlives its handler for long: if `Recv` fails once its context is done, at most ten
      steps remain after the handler is gone, whatever the streams still hold; and no deadlock means
      that when no step is left every receiver has exited. */
  lemma {:induction false} ReceiversFollowHandler(c: Config, ls: seq<Label>, more: seq<Label>)
    requires ConfigOk(c) && Run(c, ls).Some? && Run(c, ls).value.pc == Gone
    requires Run(c, ls + more).Some? && forall l | l in more :: RecvFails(l)
    ensures var s, t := Run(c, ls).value, Run(c, ls + more).value;
            && t.pc == Gone && |t.attempts| == |s.attempts| <= 2
            && |more| + Lingering(t.attempts) <= Lingering(s.attempts) <= 10
    decreases |more|
  {
    if more == [] {
      assert ls + more == ls;
      RunOk(c, ls);
      PcNeeds(c, Run(c, ls).value);
    } else {
      var front, l := more[..|more| - 1], more[|more| - 1];
      SplitLast(ls, more);
      RunExists(c, ls + more);
      ReceiversFollowHandler(c, ls, front);
      GoneOneMore(c, ls + front, l);
    }
  }

  lemma RunExtend(c: Config, ls: seq<Label>, l: Label)
    requires ConfigOk(c) && Run(c, ls).Some?
    ensures Run(c, ls + [l]) == Step(c, Run(c, ls).value, l)
  {
  }

  /** The state reached from `s` by further steps. */
  predicate Leads(c: Config, s: State, ls: seq<Label>, t: State)
    requires ConfigOk(c)
    decreases |ls|
  {
    if ls == [] then s == t
    else Step(c, s, ls[0]).Some? && Leads(c, Step(c, s, ls[0]).value, ls[1..], t)
  }

  lemma AppendHead<T>(a: seq<T>, b: seq<T>)
    requires b != []
    ensures a + [b[0]] + b[1..] == a + b
  {
  }

  lemma LeadsHead(c: Config, s: State, more: seq<Label>, t: State) returns (u: State)
    requires ConfigOk(c) && more != [] && Leads(c, s, more, t)
    ensures Step(c, s, more[0]) == Some(u) && Leads(c, u, more[1..], t)
  {
    u := Step(c, s, more[0]).value;
  }

  lemma {:induction false} RunLeads(c: Config, ls: seq<Label>, s: State, more: seq<Label>, t: State)
    requires ConfigOk(c) && Run(c, ls) == Some(s) && Leads(c, s, more, t)
    ensures Run(c, ls + more) == Some(t)
    decreases |more|
  {
    if more == [] {
      assert ls + more == ls;
    } else {
      var u := LeadsHead(c, s, more, t);
      RunExtend(c, ls, more[0]);
      RunLeads(c, ls + [more[0]], u, more[1..], t);
      AppendHead(ls, more);
    }
  }

  lemma LeadsCons(c: Config, s: State, l: Label, u: State, ls: seq<Label>, t: State)
    requires ConfigOk(c) && Step(c, s, l) == Some(u) && Leads(c, u, ls, t)
    ensures Leads(c, s, [l] + ls, t)
  {
  }

  lemma {:induction false} FinishFrom(c: Config, s: State) returns (rest: seq<Label>, t: State)
    requires ConfigOk(c) && Inv(c, s)
    ensures Leads(c, s, rest, t) && Terminated(t) && forall l | l in rest :: Orderly(l)
    decreases Measure(c, s)
  {
    if Terminated(s) {
      rest, t := [], s;
    } else {
      var l := StateCanMove(c, s);
      var u := Step(c, s, l).value;
      StepOk(c, s, l);
      StepDecreases(c, s, l);
      var tail;
      tail, t := FinishFrom(c, u);
      rest := [l] + tail;
      LeadsCons(c, s, l, u, tail, t);
    }
  }

  /** Any run can be completed to a terminated one, by orderly steps only. */
  lemma EveryRunCanFinish(c: Config, ls: seq<Label>) returns (rest: seq<Label>)
    requires ConfigOk(c) && Run(c, ls).Some?
    ensures Run(c, ls + rest).Some? && Terminated(Run(c, ls + rest).value)
    ensures forall l | l in rest :: Orderly(l)
  {
    RunOk(c, ls);
    var t;
    rest, t := FinishFrom(c, Run(c, ls).value);
    RunLeads(c, ls, Run(c, ls).value, rest, t);
  }

  // ---- Where the code departs from its documentation ---------------------

  lemma QuietSteps(c: Config, s: State) returns (ls: seq<Label>, t: State)
    requires ConfigOk(c) && s.pc == Forwarding && s.context != Live && s.attempts != []
    ensures Leads(c, s, ls, t) && t.pc == Gone && t.out == s.out && t.context == s.context
    ensures forall l | l in ls :: Calm(l)
  {
    var s2 := s.(pc := Leaving);
    var s3 := StopCurrent(s2).(pc := Releasing);
    var s4 := s3.(pc := Ending, lease := Released, releases := s3.releases + 1);
    t := s4.(pc := Gone);
    LeadsCons(c, s4, End, t, [], t);
    LeadsCons(c, s3, Release, s4, [End], t);
    LeadsCons(c, s2, CancelAttempt, s3, [Release] + [End], t);
    ls := [CancelAttempt] + ([Release] + [End]);
    LeadsCons(c, s, NoticeContext, s2, ls, t);
    ls := [NoticeContext] + ls;
  }

  lemma SilentSteps(c: Config, s: State) returns (ls: seq<Label>, t: State)
    requires ConfigOk(c) && s.pc == Forwarding && s.context == Live && s.attempts != []
    ensures Leads(c, s, ls, t) && t.pc == Gone && t.context == DeadlinePassed && t.out == s.out
  {
    var late := s.(context := DeadlinePassed, disturbed := true);
    var rest;
    rest, t := QuietSteps(c, late);
    ls := [ContextEnds(true)] + rest;
    LeadsCons(c, s, ContextEnds(true), late, rest, t);
  }

  /** The API contract promises an error frame and DONE when the deadline passes after commitment.
      The handler may instead notice the context first, and then it leaves without another frame. */
  lemma DeadlineAfterCommitCanBeSilent(c: Config, ls: seq<Label>) returns (more: seq<Label>)
    requires ConfigOk(c) && Run(c, ls).Some? && Run(c, ls).value.pc == Forwarding && Run(c, ls).value.context == Live
    ensures Run(c, ls + more).Some?
    ensures var s := Run(c, ls + more).value;
            s.pc == Gone && s.context == DeadlinePassed && s.out == Run(c, ls).value.out
  {
    RunOk(c, ls);
    PcNeeds(c, Run(c, ls).value);
    var t;
    more, t := SilentSteps(c, Run(c, ls).value);
    RunLeads(c, ls, Run(c, ls).value, more, t);
  }

  predicate Leaves(pc: HandlerPc) {
    pc == Leaving || pc == Releasing || pc == Ending || pc == Gone
  }

  predicate Committed(s: State) {
    s.out != [] && s.out[0] == Headers
  }

  predicate EndsInDone(s: State) {
    s.out != [] && s.out[|s.out| - 1] == Done
  }

  /** `noticed`: the handler has left the forwarding loop because the context had ended. */
  predicate DoneTracked(noticed: bool, s: State) {
    if noticed then Leaves(s.pc) && Committed(s) && !EndsInDone(s)
    else Leaves(s.pc) && Committed(s) && !s.broken ==> EndsInDone(s)
  }

  lemma LeavingKeepsOutput(c: Config, s: State, l: Label)
    requires ConfigOk(c) && Leaves(s.pc) && HandlerStep(c, s, l).Some?
    ensures var t := HandlerStep(c, s, l).value;
            Leaves(t.pc) && t.out == s.out && t.broken == s.broken && l != NoticeContext
  {
  }

  lemma ForwardingOutput(c: Config, s: State)
    requires PcOk(c, s) && s.pc == Forwarding
    ensures Committed(s) && !EndsInDone(s)
  {
  }

  lemma ForwardTracked(s: State, write: Write)
    requires ForwardStep(s, write).Some?
    ensures DoneTracked(false, ForwardStep(s, write).value)
  {
  }

  lemma WriteFirstTracked(s: State, write: Write)
    requires WriteFirstStep(s, write).Some?
    ensures DoneTracked(false, WriteFirstStep(s, write).value)
  {
  }

  lemma UnwrittenBefore(c: Config, s: State)
    requires PcOk(c, s) && (s.pc.Responding? || s.pc.Deciding?)
    ensures s.out == []
  {
  }

  lemma NoticeTracked(c: Config, s: State)
    requires ConfigOk(c) && PcOk(c, s) && HandlerStep(c, s, NoticeContext).Some?
    ensures DoneTracked(true, HandlerStep(c, s, NoticeContext).value)
  {
    ForwardingOutput(c, s);
  }

  lemma PlainTracked(c: Config, s: State, l: Label)
    requires ConfigOk(c) && !Leaves(s.pc) && HandlerStep(c, s, l).Some?
    requires !l.Forward? && !l.WriteFirst? && !l.NoticeContext? && !l.TakeFirst?
    requires s.pc.Responding? || s.pc.Deciding? ==> s.out == []
    ensures DoneTracked(false, HandlerStep(c, s, l).value)
  {
  }

  lemma TakeFirstTracked(s: State)
    requires TakeFirstStep(s).Some?
    ensures DoneTracked(false, TakeFirstStep(s).value)
  {
  }

  lemma LeavingTracked(c: Config, s: State, l: Label)
    requires ConfigOk(c) && PcOk(c, s) && !Leaves(s.pc) && HandlerStep(c, s, l).Some?
    ensures DoneTracked(l == NoticeContext, HandlerStep(c, s, l).value)
  {
    if l.Forward? {
      ForwardTracked(s, l.write);
    } else if l.WriteFirst? {
      WriteFirstTracked(s, l.write);
    } else if l.TakeFirst? {
      TakeFirstTracked(s);
    } else if l.NoticeContext? {
      NoticeTracked(c, s);
    } else {
      if s.pc.Responding? || s.pc.Deciding? {
        UnwrittenBefore(c, s);
      }
      PlainTracked(c, s, l);
    }
  }

  lemma StepTracked(c: Config, s: State, l: Label, noticed: bool)
    requires ConfigOk(c) && PcOk(c, s) && DoneTracked(noticed, s) && Step(c, s, l).Some?
    ensures DoneTracked(noticed || l == NoticeContext, Step(c, s, l).value)
  {
    if l.ContextEnds? || ReceiverOf(l).Some? {
      OutsideKeepsOutput(c, s, l);
    } else if Leaves(s.pc) {
      LeavingKeepsOutput(c, s, l);
    } else {
      LeavingTracked(c, s, l);
    }
  }

  lemma OutsideKeepsOutput(c: Config, s: State, l: Label)
    requires ConfigOk(c) && (l.ContextEnds? || ReceiverOf(l).Some?) && Step(c, s, l).Some?
    ensures var t := Step(c, s, l).value; t.pc == s.pc && t.out == s.out && t.broken == s.broken && l != NoticeContext
  {
  }

  lemma InFrontOrLast<T>(xs: seq<T>, x: T)
    requires xs != []
    ensures x in xs <==> x in xs[..|xs| - 1] || xs[|xs| - 1] == x
  {
  }

  lemma {:induction false} RunTracked(c: Config, ls: seq<Label>)
    requires ConfigOk(c) && Run(c, ls).Some?
    ensures DoneTracked(NoticeContext in ls, Run(c, ls).value)
  {
    if ls != [] {
      var front, l := ls[..|ls| - 1], ls[|ls| - 1];
      RunExists(c, ls);
      RunTracked(c, front);
      RunOk(c, front);
      StepTracked(c, Run(c, front).value, l, NoticeContext in front);
      InFrontOrLast(ls, NoticeContext);
    }
  }

  lemma DoneUnlessContextNoticed(c: Config, ls: seq<Label>)
    requires ConfigOk(c) && Run(c, ls).Some? && Run(c, ls).value.pc == Gone
    requires var s := Run(c, ls).value; Committed(s) && !s.broken
    ensures EndsInDone(Run(c, ls).value) <==> NoticeContext !in ls
  {
    RunTracked(c, ls);
  }

  /** A committed response whose writes all worked lacks its DONE only if the context ended while the
      handler was running. */
  lemma NoDoneOnlyIfDisturbed(c: Config, ls: seq<Label>)
    requires ConfigOk(c) && Run(c, ls).Some? && Run(c, ls).value.pc == Gone
    requires var s := Run(c, ls).value; Committed(s) && !s.broken && !EndsInDone(s)
    ensures Run(c, ls).value.disturbed
  {
    RunOk(c, ls);
    var s := Run(c, ls).value;
    GoneResponded(c, s);
    SealedIsCommitted(c, s);
    CommittedEndings(s, Current(s));
  }

  /** What the API contract promises after commitment: a completion or an error frame, then DONE. */
  predicate EndsAsPromised(s: State) {
    && |s.out| >= 2 && s.out[|s.out| - 1] == Done
    && (s.out[|s.out| - 2].Completion? || s.out[|s.out| - 2].StreamError?)
  }

  lemma CommittedEndings(s: State, a: Attempt)
    requires CommittedTo(s, a)
    ensures EndsAsPromised(s) || (!EndsInDone(s) && (s.broken || s.disturbed))
  {
    var reference := Reference(a);
    if s.out == Rendered(reference) {
      EventsEnd(a);
      assert s.out[|s.out| - 2] == FrameFor(reference[|reference| - 1]);
    } else if s.out == Response(reference, s.tokens, []) {
    } else {
      var cause :| s.out == Response(reference, s.tokens, [StreamError(cause), Done]);
      assert s.out[|s.out| - 2] == StreamError(cause);
    }
  }

  /** Neither a new end of the context nor a write that does not reach the client. */
  predicate Calm(l: Label) {
    match l
    case ContextEnds(_) => false
    case Respond(ok) => ok
    case WriteHeaders(ok) => ok
    case WriteFirst(write) => write.Sent?
    case Forward(write) => write.Sent?
    case WriteDone(ok) => ok
    case _ => true
  }

  /** Past commitment with a live context, until the handler is gone. */
  predicate Unworried(s: State) {
    !s.broken && Committed(s) && (s.context == Live || s.pc == Gone)
  }

  lemma CalmForward(s: State)
    requires ForwardStep(s, Sent).Some? && Unworried(s)
    ensures Unworried(ForwardStep(s, Sent).value)
  {
  }

  lemma CalmHandler(c: Config, s: State, l: Label)
    requires ConfigOk(c) && HandlerStep(c, s, l).Some? && Calm(l) && Unworried(s)
    ensures Unworried(HandlerStep(c, s, l).value) && l != NoticeContext
  {
    if l.Forward? {
      CalmForward(s);
    } else if l.TakeFirst? {
      CalmTakeFirst(s);
    }
  }

  lemma CalmTakeFirst(s: State)
    requires TakeFirstStep(s).Some? && Unworried(s)
    ensures Unworried(TakeFirstStep(s).value)
  {
  }

  lemma CalmStep(c: Config, s: State, l: Label)
    requires ConfigOk(c) && Step(c, s, l).Some? && Calm(l) && Unworried(s)
    ensures Unworried(Step(c, s, l).value) && l != NoticeContext
  {
    if ReceiverOf(l).None? {
      CalmHandler(c, s, l);
    }
  }

  lemma {:induction false} CalmRun(c: Config, ls: seq<Label>, more: seq<Label>)
    requires ConfigOk(c) && Run(c, ls).Some? && Unworried(Run(c, ls).value)
    requires Run(c, ls + more).Some? && forall l | l in more :: Calm(l)
    ensures Unworried(Run(c, ls + more).value) && NoticeContext !in more
    decreases |more|
  {
    if more == [] {
      assert ls + more == ls;
    } else {
      var front, l := more[..|more| - 1], more[|more| - 1];
      SplitLast(ls, more);
      RunExists(c, ls + more);
      CalmRun(c, ls, front);
      CalmStep(c, Run(c, ls + front).value, l);
      InFrontOrLast(more, NoticeContext);
    }
  }

  /** Every calm continuation to the handler's end closes the response as promised. */
  ghost predicate KeepsPromise(c: Config, ls: seq<Label>)
    requires ConfigOk(c)
  {
    forall more | (forall l | l in more :: Calm(l)) && Run(c, ls + more).Some? && Run(c, ls + more).value.pc == Gone ::
      EndsAsPromised(Run(c, ls + more).value)
  }

  lemma CalmEnds(c: Config, ls: seq<Label>, more: seq<Label>)
    requires ConfigOk(c) && Run(c, ls).Some? && Run(c, ls).value.pc == Forwarding
    requires Unworried(Run(c, ls).value)
    requires Run(c, ls + more).Some? && Run(c, ls + more).value.pc == Gone && forall l | l in more :: Calm(l)
    ensures EndsAsPromised(Run(c, ls + more).value)
  {
    var s := Run(c, ls + more).value;
    CalmRun(c, ls, more);
    RunTracked(c, ls);
    DoneUnlessContextNoticed(c, ls + more);
    RunOk(c, ls + more);
    GoneResponded(c, s);
    SealedIsCommitted(c, s);
    CommittedEndings(s, Current(s));
  }

  lemma ForwardingCommitted(c: Config, s: State)
    requires PcOk(c, s) && s.pc == Forwarding
    ensures Committed(s)
  {
    ForwardingOutput(c, s);
  }

  lemma EndedContextBreaksPromise(c: Config, ls: seq<Label>)
    requires ConfigOk(c) && Run(c, ls).Some? && Run(c, ls).value.pc == Forwarding && Run(c, ls).value.context != Live
    ensures !KeepsPromise(c, ls)
  {
    var s := Run(c, ls).value;
    RunOk(c, ls);
    PcNeeds(c, s);
    ForwardingOutput(c, s);
    var more, t := QuietSteps(c, s);
    RunLeads(c, ls, s, more, t);
    assert !EndsAsPromised(t);
  }

  /** Exactly when the promise is kept. From any reachable state in which the handler forwards over a
      working connection, every calm continuation closes the response as promised if and only if the
      context is still live. */
  lemma PromiseKeptIffLive(c: Config, ls: seq<Label>)
    requires ConfigOk(c) && Run(c, ls).Some? && Run(c, ls).value.pc == Forwarding && !Run(c, ls).value.broken
    ensures KeepsPromise(c, ls) <==> Run(c, ls).value.context == Live
  {
    if Run(c, ls).value.context == Live {
      RunOk(c, ls);
      ForwardingCommitted(c, Run(c, ls).value);
      forall more | (forall l | l in more :: Calm(l)) && Run(c, ls + more).Some? && Run(c, ls + more).value.pc == Gone
        ensures EndsAsPromised(Run(c, ls + more).value)
      {
        CalmEnds(c, ls, more);
      }
    } else {
      EndedContextBreaksPromise(c, ls);
    }
  }
}
