/** The inductive invariant of the gateway protocol, kept by every step of every interleaving. */
module GatewayProofs {
  import opened Model
  import opened Gateway

  // ---- The invariant: attempts -------------------------------------------

  /** What the attempt's stream amounts to. */
  function Reference(a: Attempt): (es: seq<Event>)
    ensures |es| > 0
  {
    Events(a.script, a.ids, 0)
  }

  /** What the receiver still has to put into the channel if nothing interferes. */
  function Pending(a: Attempt): seq<Event> {
    match a.pc
    case Receiving => Events(a.rest, a.ids, a.expected)
    case Delivering(e) => if IsToken(e) then [e] + Events(a.rest, a.ids, a.expected) else [e]
    case _ => []
  }

  predicate Finishing(a: Attempt) {
    a.pc == Cancelling || a.pc == Closing || a.pc == Exited
  }

  /** The events are the start of the reference, except that a cancellation error may follow. */
  predicate CutShort(es: seq<Event>, reference: seq<Event>) {
    es < reference || (es != [] && es[|es| - 1].Failed? && es[..|es| - 1] < reference)
  }

  predicate HistoryOk(a: Attempt, context: Context) {
    match a.interruption
    case NoInterruption => a.sent + Pending(a) == Reference(a)
    case TimedOut => Finishing(a) && a.sent < Reference(a)
    case Abandoned =>
      && (a.stopped || context != Live)
      && (if a.pc.Delivering? then a.pc.event.Failed? && a.sent < Reference(a)
          else Finishing(a) && CutShort(a.sent, Reference(a)))
  }

  predicate ChannelOk(a: Attempt, capacity: nat) {
    a.taken <= |a.sent| && a.channel == a.sent[a.taken..] && |a.channel| <= capacity
  }

  predicate AttemptOk(a: Attempt, capacity: nat, context: Context) {
    ChannelOk(a, capacity) && HistoryOk(a, context)
  }

  // ---- The invariant: handler --------------------------------------------

  function TextOf(e: Event): string {
    if e.Got? then e.chunk.tokenText else ""
  }

  function TokenFrames(es: seq<Event>): (fs: seq<Frame>)
    ensures |fs| == |es|
    ensures forall i | 0 <= i < |es| :: fs[i] == Token(TextOf(es[i]))
  {
    seq(|es|, i requires 0 <= i < |es| => Token(TextOf(es[i])))
  }

  predicate AllTokens(es: seq<Event>) {
    forall i | 0 <= i < |es| :: IsToken(es[i])
  }

  /** An attempt given up before its first chunk was given up for a reason. */
  predicate Doomed(s: State, a: Attempt) {
    s.disturbed || a.interruption == TimedOut || FirstFailure(Reference(a)[0]).Some?
  }

  predicate Closed(s: State, a: Attempt) {
    a.stopped && Doomed(s, a)
  }

  predicate AllClosed(s: State, attempts: seq<Attempt>) {
    forall i | 0 <= i < |attempts| :: Closed(s, attempts[i])
  }

  predicate Quiet(s: State) {
    s.out == [] && s.delivered == [] && !s.broken && s.tokens == 0
  }

  /** Nothing has been written and every attempt so far has been given up. */
  predicate Uncommitted(s: State) {
    Quiet(s) && AllClosed(s, s.attempts)
  }

  /** The current attempt is running; earlier ones have been given up. */
  predicate Engaged(s: State) {
    s.lease == Held && s.attempts != [] && !Current(s).stopped && AllClosed(s, s.attempts[..|s.attempts| - 1])
  }

  function IdsFor(c: Config, s: State, k: nat): Ids
    requires 1 <= k <= |s.workers|
  {
    Ids(c.request.id, AttemptId(c.request, k), s.workers[k - 1])
  }

  /** The tokens written are exactly the first `s.tokens` events of the current attempt. */
  predicate Relayed(s: State, tail: seq<Frame>) {
    && s.attempts != []
    && s.tokens <= |Current(s).sent|
    && AllTokens(Current(s).sent[..s.tokens])
    && s.out == [Headers] + TokenFrames(Current(s).sent[..s.tokens]) + tail
  }

  /** The closing frame is the one the stream calls for, unless something interfered. */
  predicate TailOk(s: State, t: Frame)
    requires s.attempts != []
  {
    var reference := Reference(Current(s));
    || (|reference| == s.tokens + 1 && reference <= Current(s).sent && t == FrameFor(reference[s.tokens]))
    || (t.StreamError? && (s.disturbed || Current(s).interruption == TimedOut))
  }

  /** The response is complete, or was abandoned for a reason. */
  predicate Sealed(s: State) {
    || (Relayed(s, []) && (s.broken || s.disturbed))
    || (|s.out| >= 2 && Relayed(s, [s.out[|s.out| - 2], Done]) && TailOk(s, s.out[|s.out| - 2]))
  }

  predicate Answered(s: State) {
    |s.out| == 1 && s.out[0].ApiError? && AllClosed(s, s.attempts) && s.tokens == 0
    && StatusJustified(s, s.out[0].status)
  }

  predicate StatusJustified(s: State, status: nat) {
    match status
    case 429 => s.lease == NoLease && s.workers == []
    case 500 => s.lease == NoLease && s.workers == []
    case 502 => s.previous.Some?
    case 503 => s.previous.None?
    case 504 => s.previous.Some? && s.context == DeadlinePassed
    case _ => false
  }

  predicate Responded(s: State) {
    || Answered(s)
    || (Sealed(s) && s.lease != NoLease && AllClosed(s, s.attempts[..|s.attempts| - 1]) && Current(s).stopped)
  }

  predicate FirstTaken(s: State, first: Chunk) {
    && Engaged(s)
    && Current(s).taken == 1 && |Current(s).sent| >= 1 && Current(s).sent[0] == Got(first)
    && FirstFailure(Got(first)).None? && s.tokens == 0
  }

  predicate AttemptNumberOk(s: State) {
    && 1 <= s.n <= 2
    && (s.n == 1 ==> s.excluded == {} && |s.workers| <= 1)
    && (s.n == 2 ==> 1 <= |s.workers| <= 2 && s.excluded == {s.workers[0]} && s.previous.Some?)
    && (|s.workers| == 2 ==> s.workers[0] != s.workers[1])
  }

  predicate IdsOk(c: Config, s: State) {
    && |s.attempts| <= |s.workers| <= 2
    && (|s.attempts| == 2 ==> s.attempts[0].ids == IdsFor(c, s, 1) && s.attempts[1].ids == IdsFor(c, s, 2))
    && (|s.attempts| == 1 ==> s.attempts[0].ids == IdsFor(c, s, 1)
                              || (|s.workers| == 2 && s.attempts[0].ids == IdsFor(c, s, 2)))
    && forall i | 0 <= i < |s.attempts| :: i < |c.streams| && s.attempts[i].script == c.streams[i]
  }

  predicate DeliveryOk(s: State) {
    s.delivered <= s.out && (!s.broken ==> s.delivered == s.out)
  }

  predicate LeaseOk(s: State) {
    && s.releases == (if s.lease == Released then 1 else 0)
    && (s.lease == Released ==> s.pc == Ending || s.pc == Gone)
    && (s.attempts != [] && s.lease != Held ==> s.pc == Ending || s.pc == Gone)
  }

  predicate ContextOk(s: State) {
    (s.context != Live ==> s.disturbed || s.pc == Gone) && (s.pc == Gone ==> s.context != Live)
  }

  predicate PcOk(c: Config, s: State) {
    match s.pc
    case Starting => Quiet(s) && s.lease == NoLease && s.n == 1 && s.workers == [] && s.previous.None?
    case Admitting => Quiet(s) && s.lease == NoLease && s.n == 1 && s.workers == [] && s.previous.None?
    case Selecting => Uncommitted(s) && s.lease == Held && |s.workers| == s.n - 1 && (s.n == 1 ==> s.previous.None?)
    case Opening(w) =>
      && 1 <= s.n && Uncommitted(s) && s.lease == Held && |s.workers| == s.n && w.id == s.workers[s.n - 1]
      && |s.attempts| < s.n
      && (s.attempts != [] ==> s.attempts[0].ids == IdsFor(c, s, 1))
    case AwaitingFirst => Quiet(s) && Engaged(s) && |s.workers| == s.n && Current(s).taken == 0
    case Deciding(f) => Uncommitted(s) && s.lease == Held && s.previous == Some(f) && |s.workers| == s.n
    case Failing(f) => Uncommitted(s) && s.lease == Held && s.previous == Some(f)
    case Responding(status) =>
      && Uncommitted(s) && StatusJustified(s, status) && s.lease != Released
      && (status == 502 || status == 504 ==> s.lease == Held)
    case Committing(first) => Quiet(s) && FirstTaken(s, first)
    case WritingFirst(first) => FirstTaken(s, first) && s.out == [Headers]
    case Forwarding => Engaged(s) && Relayed(s, []) && Current(s).taken == s.tokens >= 1
    case WritingDone => s.out != [] && Engaged(s) && Relayed(s, [s.out[|s.out| - 1]]) && TailOk(s, s.out[|s.out| - 1])
    case Leaving => Engaged(s) && Sealed(s)
    case Releasing => s.lease == Held && Responded(s)
    case Ending => s.lease != Held && Responded(s)
    case Gone => s.lease != Held && Responded(s)
  }

  predicate Inv(c: Config, s: State) {
    && (forall i | 0 <= i < |s.attempts| :: AttemptOk(s.attempts[i], c.capacity, s.context))
    && AttemptNumberOk(s) && IdsOk(c, s) && DeliveryOk(s) && LeaseOk(s) && ContextOk(s)
    && PcOk(c, s)
  }

  lemma InitOk(c: Config)
    requires ConfigOk(c)
    ensures Inv(c, Init())
  {
  }

  // ---- Receiver steps ----------------------------------------------------

  /** What no receiver step changes, and what it can only extend. */
  predicate Grown(a: Attempt, b: Attempt) {
    && b.ids == a.ids && b.script == a.script && b.taken == a.taken && b.stopped == a.stopped
    && a.sent <= b.sent
    && (a.interruption == TimedOut ==> b.interruption == TimedOut)
  }

  lemma ReceiveOk(a: Attempt, capacity: nat, context: Context, l: Label)
    requires AttemptOk(a, capacity, context) && l.Receive? && ReceiverStep(a, capacity, context, l).Some?
    ensures var b := ReceiverStep(a, capacity, context, l).value;
            AttemptOk(b, capacity, context) && Grown(a, b)
  {
    var b := ReceiverStep(a, capacity, context, l).value;
    assert a.interruption == NoInterruption;
    if l.cut.Some? {
      assert Reference(a)[..|a.sent|] == a.sent;
    } else {
      assert Pending(b) == Pending(a);
    }
  }

  lemma DeliverOk(a: Attempt, capacity: nat, context: Context, l: Label)
    requires AttemptOk(a, capacity, context) && l.Deliver? && ReceiverStep(a, capacity, context, l).Some?
    ensures var b := ReceiverStep(a, capacity, context, l).value;
            AttemptOk(b, capacity, context) && Grown(a, b)
  {
    var b := ReceiverStep(a, capacity, context, l).value;
    assert b.channel == b.sent[b.taken..];
    if a.interruption == NoInterruption {
      assert Pending(a) == [a.pc.event] + Pending(b);
      assert a.sent + Pending(a) == b.sent + Pending(b);
    } else {
      assert b.sent[..|b.sent| - 1] == a.sent;
    }
  }

  lemma UndeliveredOk(a: Attempt, capacity: nat, context: Context, l: Label)
    requires AttemptOk(a, capacity, context) && (l.DeliverAbandoned? || l.DeliverTimeout?)
    requires ReceiverStep(a, capacity, context, l).Some?
    ensures var b := ReceiverStep(a, capacity, context, l).value;
            AttemptOk(b, capacity, context) && Grown(a, b)
  {
  }

  lemma ReceiverStepOk(a: Attempt, capacity: nat, context: Context, l: Label)
    requires AttemptOk(a, capacity, context) && ReceiverStep(a, capacity, context, l).Some?
    ensures var b := ReceiverStep(a, capacity, context, l).value;
            AttemptOk(b, capacity, context) && Grown(a, b)
  {
    if l.Receive? {
      ReceiveOk(a, capacity, context, l);
    } else if l.Deliver? {
      DeliverOk(a, capacity, context, l);
    } else if l.DeliverAbandoned? || l.DeliverTimeout? {
      UndeliveredOk(a, capacity, context, l);
    }
  }

  // ---- The handler's part is stable under receiver steps -----------------

  /** `t` differs from `s` in attempt `i` only, which has grown. */
  predicate OnlyGrew(s: State, t: State, i: nat) {
    && i < |s.attempts| && |t.attempts| == |s.attempts| && Grown(s.attempts[i], t.attempts[i])
    && t == s.(attempts := s.attempts[i := t.attempts[i]])
  }

  lemma RelayedGrows(s: State, t: State, i: nat, tail: seq<Frame>)
    requires OnlyGrew(s, t, i) && Relayed(s, tail)
    ensures Relayed(t, tail)
  {
  }

  lemma TailGrows(s: State, t: State, i: nat, f: Frame)
    requires OnlyGrew(s, t, i) && TailOk(s, f)
    ensures TailOk(t, f)
  {
  }

  lemma EarlierGrow(s: State, t: State, i: nat)
    requires OnlyGrew(s, t, i)
    ensures AllClosed(s, s.attempts) ==> AllClosed(t, t.attempts)
    ensures AllClosed(s, s.attempts[..|s.attempts| - 1]) ==> AllClosed(t, t.attempts[..|t.attempts| - 1])
    ensures Engaged(s) ==> Engaged(t)
    ensures Current(t).taken == Current(s).taken && Current(t).stopped == Current(s).stopped
  {
  }

  lemma SealedGrows(s: State, t: State, i: nat)
    requires OnlyGrew(s, t, i)
    ensures Sealed(s) ==> Sealed(t)
  {
    if Relayed(s, []) {
      RelayedGrows(s, t, i, []);
    }
    if |s.out| >= 2 && Relayed(s, [s.out[|s.out| - 2], Done]) && TailOk(s, s.out[|s.out| - 2]) {
      RelayedGrows(s, t, i, [s.out[|s.out| - 2], Done]);
      TailGrows(s, t, i, s.out[|s.out| - 2]);
    }
  }

  lemma RespondedGrows(s: State, t: State, i: nat)
    requires OnlyGrew(s, t, i) && Responded(s)
    ensures Responded(t)
  {
    EarlierGrow(s, t, i);
    SealedGrows(s, t, i);
  }

  lemma PcGrows(c: Config, s: State, t: State, i: nat)
    requires OnlyGrew(s, t, i) && PcOk(c, s)
    ensures PcOk(c, t)
  {
    EarlierGrow(s, t, i);
    match s.pc
    case Forwarding => RelayedGrows(s, t, i, []);
    case WritingDone =>
      RelayedGrows(s, t, i, [s.out[|s.out| - 1]]);
      TailGrows(s, t, i, s.out[|s.out| - 1]);
    case Leaving => SealedGrows(s, t, i);
    case Releasing => RespondedGrows(s, t, i);
    case Ending => RespondedGrows(s, t, i);
    case Gone => RespondedGrows(s, t, i);
    case _ =>
  }

  lemma ReceiverTurnOk(c: Config, s: State, i: nat, l: Label)
    requires Inv(c, s) && ReceiverTurn(c, s, i, l).Some?
    ensures Inv(c, ReceiverTurn(c, s, i, l).value)
  {
    var t := ReceiverTurn(c, s, i, l).value;
    ReceiverStepOk(s.attempts[i], c.capacity, s.context, l);
    PcGrows(c, s, t, i);
  }

  // ---- The context ends --------------------------------------------------

  predicate OnlyDisturbed(s: State, t: State) {
    t == s.(context := t.context, disturbed := true)
  }

  lemma ClosedDisturbed(s: State, t: State, attempts: seq<Attempt>)
    requires OnlyDisturbed(s, t) && AllClosed(s, attempts)
    ensures AllClosed(t, attempts)
  {
  }

  lemma SealedDisturbed(s: State, t: State)
    requires OnlyDisturbed(s, t) && Sealed(s)
    ensures Sealed(t)
  {
  }

  lemma RespondedDisturbed(s: State, t: State)
    requires OnlyDisturbed(s, t) && Responded(s) && s.context == Live
    ensures Responded(t)
  {
  }

  lemma EngagedDisturbed(s: State, t: State)
    requires OnlyDisturbed(s, t) && Engaged(s)
    ensures Engaged(t)
  {
  }

  lemma PcDisturbed(c: Config, s: State, t: State)
    requires OnlyDisturbed(s, t) && PcOk(c, s) && s.context == Live
    ensures PcOk(c, t)
  {
    match s.pc
    case Starting =>
    case Admitting =>
    case Selecting => ClosedDisturbed(s, t, s.attempts);
    case Opening(_) => ClosedDisturbed(s, t, s.attempts);
    case Deciding(_) => ClosedDisturbed(s, t, s.attempts);
    case Failing(_) => ClosedDisturbed(s, t, s.attempts);
    case Responding(_) => ClosedDisturbed(s, t, s.attempts);
    case AwaitingFirst => EngagedDisturbed(s, t);
    case Committing(_) => EngagedDisturbed(s, t);
    case WritingFirst(_) => EngagedDisturbed(s, t);
    case Forwarding => EngagedDisturbed(s, t);
    case WritingDone => EngagedDisturbed(s, t);
    case Leaving => EngagedDisturbed(s, t); SealedDisturbed(s, t);
    case Releasing => RespondedDisturbed(s, t);
    case Ending => RespondedDisturbed(s, t);
    case Gone => RespondedDisturbed(s, t);
  }

  lemma ContextEndsOk(c: Config, s: State, deadline: bool)
    requires ConfigOk(c) && Inv(c, s) && Step(c, s, ContextEnds(deadline)).Some?
    ensures Inv(c, Step(c, s, ContextEnds(deadline)).value)
  {
    PcDisturbed(c, s, Step(c, s, ContextEnds(deadline)).value);
  }

  // ---- Handler steps before commitment -----------------------------------

  /** The part of the invariant that does not depend on the program counter. */
  predicate Common(c: Config, s: State) {
    && (forall i | 0 <= i < |s.attempts| :: AttemptOk(s.attempts[i], c.capacity, s.context))
    && AttemptNumberOk(s) && IdsOk(c, s) && DeliveryOk(s) && LeaseOk(s) && ContextOk(s)
  }

  lemma EarlyStepsOk(c: Config, s: State, l: Label)
    requires ConfigOk(c) && Inv(c, s) && HandlerStep(c, s, l).Some? && (l.CheckHealth? || l.Admit?)
    ensures Inv(c, HandlerStep(c, s, l).value)
  {
  }

  lemma SelectOk(c: Config, s: State, picked: Option<Worker>)
    requires ConfigOk(c) && Inv(c, s) && s.pc == Selecting && Selectable(s.excluded, picked)
    ensures Inv(c, AfterSelect(s, picked))
  {
  }

  lemma FreshAttempt(c: Config, a: Attempt, context: Context)
    requires a.script == a.rest && a.expected == 0 && a.pc == Receiving && a.channel == [] && a.sent == []
    requires a.taken == 0
    requires a.interruption == NoInterruption
    ensures AttemptOk(a, c.capacity, context)
  {
  }

  lemma AppendedCommon(c: Config, s: State, t: State, a: Attempt)
    requires Common(c, s) && |s.attempts| < 2 && s.lease == Held && s.pc != Ending && s.pc != Gone
    requires t == s.(pc := AwaitingFirst, attempts := s.attempts + [a])
    requires AttemptOk(a, c.capacity, s.context) && |s.attempts| < s.n == |s.workers| && |s.attempts| < |c.streams|
    requires a.script == c.streams[|s.attempts|] && a.ids == IdsFor(c, s, s.n)
    requires s.attempts != [] ==> s.attempts[0].ids == IdsFor(c, s, 1)
    ensures Common(c, t)
  {
  }

  lemma AppendedAttempt(c: Config, s: State, t: State, a: Attempt)
    requires ConfigOk(c) && Inv(c, s) && s.pc.Opening? && |s.attempts| < 2
    requires t == s.(pc := AwaitingFirst, attempts := s.attempts + [a])
    requires AttemptOk(a, c.capacity, s.context) && !a.stopped && a.taken == 0
    requires a.script == c.streams[|s.attempts|] && a.ids == IdsFor(c, s, s.n)
    ensures Inv(c, t)
  {
    AppendedCommon(c, s, t, a);
    assert t.attempts[..|t.attempts| - 1] == s.attempts;
    assert Current(t) == a;
  }

  lemma OpenFailedOk(c: Config, s: State, failure: Failure)
    requires ConfigOk(c) && Inv(c, s) && s.pc.Opening?
    ensures Inv(c, s.(pc := Deciding(failure), previous := Some(failure)))
  {
  }

  lemma OpenedOk(c: Config, s: State)
    requires ConfigOk(c) && Inv(c, s) && OpenStep(c, s, None).Some?
    ensures Inv(c, OpenStep(c, s, None).value)
  {
    var script := c.streams[|s.attempts|];
    var a := Attempt(IdsFor(c, s, s.n), script, script, 0, Receiving, [], [], 0, false, NoInterruption);
    FreshAttempt(c, a, s.context);
    AppendedAttempt(c, s, OpenStep(c, s, None).value, a);
  }

  lemma OpenOk(c: Config, s: State, error: Option<Failure>)
    requires ConfigOk(c) && Inv(c, s) && OpenStep(c, s, error).Some?
    ensures Inv(c, OpenStep(c, s, error).value)
  {
    if error.None? {
      OpenedOk(c, s);
    } else {
      OpenFailedOk(c, s, error.value);
    }
  }

  // ---- Taking events -----------------------------------------------------

  lemma TakenAttemptOk(a: Attempt, capacity: nat, context: Context)
    requires AttemptOk(a, capacity, context) && a.channel != []
    ensures a.taken < |a.sent| && a.channel[0] == a.sent[a.taken]
    ensures AttemptOk(a.(channel := a.channel[1..], taken := a.taken + 1), capacity, context)
  {
  }

  /** The first event, if it is the handler's to read, is the reference's first unless the context ended. */
  lemma FirstEvent(a: Attempt, capacity: nat, context: Context)
    requires AttemptOk(a, capacity, context) && !a.stopped && a.sent != []
    ensures a.sent[0] == Reference(a)[0] || context != Live
  {
  }

  /** A receiver that is gone without leaving anything to read was cut off. */
  lemma NothingLeft(a: Attempt, capacity: nat, context: Context)
    requires AttemptOk(a, capacity, context) && !a.stopped && a.pc == Exited && a.channel == []
    requires AllTokens(a.sent[..a.taken])
    ensures a.interruption == TimedOut || context != Live
  {
  }

  lemma EventsEnd(a: Attempt)
    ensures !IsToken(Reference(a)[|Reference(a)| - 1])
    ensures forall k | 0 <= k < |Reference(a)| - 1 :: IsToken(Reference(a)[k])
  {
  }

  /** `t` is `s` with the current attempt replaced and possibly a failure noted. */
  predicate Replaced(s: State, t: State, a: Attempt) {
    && s.attempts != []
    && t.attempts == s.attempts[|s.attempts| - 1 := a]
    && a.ids == Current(s).ids && a.script == Current(s).script
    && t.n == s.n && t.excluded == s.excluded && t.workers == s.workers
    && t.lease == s.lease && t.releases == s.releases
    && t.context == s.context && t.disturbed == s.disturbed
    && (t.previous == s.previous || t.previous.Some?)
  }

  lemma ReplacedOk(c: Config, s: State, t: State, a: Attempt)
    requires Common(c, s) && Replaced(s, t, a) && AttemptOk(a, c.capacity, s.context) && s.lease == Held
    requires s.pc != Gone && t.pc != Gone && DeliveryOk(t)
    ensures Common(c, t)
    ensures t.attempts[..|t.attempts| - 1] == s.attempts[..|s.attempts| - 1] && Current(t) == a
    ensures AllClosed(s, s.attempts[..|s.attempts| - 1]) ==> AllClosed(t, t.attempts[..|t.attempts| - 1])
  {
    ReplacedFront(s, t, a);
    ReplacedIds(c, s, t, a);
  }

  lemma ReplacedFront(s: State, t: State, a: Attempt)
    requires Replaced(s, t, a)
    ensures t.attempts[..|t.attempts| - 1] == s.attempts[..|s.attempts| - 1] && Current(t) == a
    ensures AllClosed(s, s.attempts[..|s.attempts| - 1]) ==> AllClosed(t, t.attempts[..|t.attempts| - 1])
  {
  }

  lemma ReplacedIds(c: Config, s: State, t: State, a: Attempt)
    requires Replaced(s, t, a) && IdsOk(c, s)
    ensures IdsOk(c, t)
  {
  }

  lemma AllClosedFromParts(s: State)
    requires s.attempts != [] && AllClosed(s, s.attempts[..|s.attempts| - 1]) && Closed(s, Current(s))
    ensures AllClosed(s, s.attempts)
  {
  }

  /** The invariant while waiting for the first event. */
  predicate Expecting(c: Config, s: State) {
    Common(c, s) && s.pc == AwaitingFirst && Quiet(s) && Engaged(s) && |s.workers| == s.n && Current(s).taken == 0
  }

  lemma InvExpecting(c: Config, s: State)
    requires Inv(c, s) && s.pc == AwaitingFirst
    ensures Expecting(c, s)
  {
  }

  lemma GiveUpOk(c: Config, s: State, t: State, a: Attempt, f: Failure)
    requires Expecting(c, s) && Replaced(s, t, a)
    requires t == s.(pc := Deciding(f), previous := Some(f), attempts := t.attempts)
    requires AttemptOk(a, c.capacity, s.context) && Closed(t, a)
    ensures Inv(c, t)
  {
    ReplacedOk(c, s, t, a);
    AllClosedFromParts(t);
  }

  lemma CommittingOk(c: Config, t: State, first: Chunk)
    requires Common(c, t) && t.pc == Committing(first) && Quiet(t) && FirstTaken(t, first)
    ensures Inv(c, t)
  {
  }

  lemma FirstIsTaken(s: State, t: State, a: Attempt, first: Chunk)
    requires Engaged(s) && Replaced(s, t, a) && s.tokens == 0 && t.tokens == 0 && FirstFailure(Got(first)).None?
    requires !a.stopped && a.taken == 1 && |a.sent| >= 1 && a.sent[0] == Got(first)
    ensures FirstTaken(t, first)
  {
    ReplacedFront(s, t, a);
  }

  lemma CommitOk(c: Config, s: State, t: State, a: Attempt, first: Chunk)
    requires Expecting(c, s) && Replaced(s, t, a)
    requires t == s.(pc := Committing(first), attempts := t.attempts)
    requires AttemptOk(a, c.capacity, s.context) && !a.stopped && a.taken == 1 && |a.sent| >= 1
    requires a.sent[0] == Got(first)
    requires FirstFailure(Got(first)).None?
    ensures Inv(c, t)
  {
    ReplacedOk(c, s, t, a);
    FirstIsTaken(s, t, a, first);
    CommittingOk(c, t, first);
  }

  lemma StoppedOk(a: Attempt, capacity: nat, context: Context)
    requires AttemptOk(a, capacity, context)
    ensures AttemptOk(a.(stopped := true), capacity, context)
  {
  }

  lemma TakeNothingOk(c: Config, s: State)
    requires Expecting(c, s) && TakeFirstStep(s).Some? && Current(s).channel == []
    ensures Inv(c, TakeFirstStep(s).value)
  {
    var a := Current(s);
    assert AttemptOk(s.attempts[|s.attempts| - 1], c.capacity, s.context);
    NothingLeft(a, c.capacity, s.context);
    StoppedOk(a, c.capacity, s.context);
    GiveUpOk(c, s, TakeFirstStep(s).value, a.(stopped := true), UnexpectedEof);
  }

  lemma TakeFailureOk(c: Config, s: State)
    requires Expecting(c, s) && TakeFirstStep(s).Some?
    requires Current(s).channel != [] && FirstFailure(Current(s).channel[0]).Some?
    ensures Inv(c, TakeFirstStep(s).value)
  {
    var t := TakeFirstStep(s).value;
    var a := Current(s);
    assert AttemptOk(s.attempts[|s.attempts| - 1], c.capacity, s.context);
    TakenAttemptOk(a, c.capacity, s.context);
    FirstEvent(a, c.capacity, s.context);
    var b := a.(channel := a.channel[1..], taken := a.taken + 1);
    StoppedOk(b, c.capacity, s.context);
    assert t.attempts == s.attempts[|s.attempts| - 1 := b.(stopped := true)];
    GiveUpOk(c, s, t, b.(stopped := true), FirstFailure(a.channel[0]).value);
  }

  lemma TakeChunkOk(c: Config, s: State)
    requires Expecting(c, s) && TakeFirstStep(s).Some?
    requires Current(s).channel != [] && FirstFailure(Current(s).channel[0]).None?
    ensures Inv(c, TakeFirstStep(s).value)
  {
    var a := Current(s);
    assert AttemptOk(s.attempts[|s.attempts| - 1], c.capacity, s.context);
    TakenAttemptOk(a, c.capacity, s.context);
    CommitOk(c, s, TakeFirstStep(s).value, a.(channel := a.channel[1..], taken := a.taken + 1), a.channel[0].chunk);
  }

  lemma TakeFirstOk(c: Config, s: State)
    requires ConfigOk(c) && Inv(c, s) && TakeFirstStep(s).Some?
    ensures Inv(c, TakeFirstStep(s).value)
  {
    InvExpecting(c, s);
    if Current(s).channel == [] {
      TakeNothingOk(c, s);
    } else if FirstFailure(Current(s).channel[0]).Some? {
      TakeFailureOk(c, s);
    } else {
      TakeChunkOk(c, s);
    }
  }

  // ---- Deciding and reporting --------------------------------------------

  lemma DecideOk(c: Config, s: State, l: Label)
    requires ConfigOk(c) && Inv(c, s) && HandlerStep(c, s, l).Some? && l.Decide?
    ensures Inv(c, HandlerStep(c, s, l).value)
  {
  }

  lemma FailOk(c: Config, s: State, l: Label)
    requires ConfigOk(c) && Inv(c, s) && HandlerStep(c, s, l).Some? && l.Fail?
    ensures Inv(c, HandlerStep(c, s, l).value)
  {
  }

  lemma RespondOk(c: Config, s: State, l: Label)
    requires ConfigOk(c) && Inv(c, s) && HandlerStep(c, s, l).Some? && l.Respond?
    ensures Inv(c, HandlerStep(c, s, l).value)
  {
  }

  // ---- Committed steps ---------------------------------------------------

  lemma EmitOk(s: State, f: Frame, ok: bool)
    requires DeliveryOk(s)
    ensures DeliveryOk(Emit(s, f, ok))
  {
  }

  /** `t` is `s` with more output and another program counter. */
  predicate Wrote(s: State, t: State) {
    && t == s.(pc := t.pc, out := t.out, delivered := t.delivered, broken := t.broken, tokens := t.tokens)
    && DeliveryOk(t) && (s.broken ==> t.broken)
    && t.pc != Ending && t.pc != Gone && s.pc != Ending && s.pc != Gone
  }

  lemma WroteEngaged(s: State, t: State)
    requires Wrote(s, t) && Engaged(s)
    ensures Engaged(t) && Current(t) == Current(s)
  {
  }

  lemma WroteIds(c: Config, s: State, t: State)
    requires IdsOk(c, s) && t.workers == s.workers && t.attempts == s.attempts
    ensures IdsOk(c, t)
  {
  }

  lemma WroteCommon(c: Config, s: State, t: State)
    requires Common(c, s) && Wrote(s, t) && Engaged(s)
    ensures Common(c, t) && Engaged(t) && Current(t) == Current(s)
  {
    WroteEngaged(s, t);
    WroteIds(c, s, t);
  }

  lemma HeadersOk(c: Config, s: State, t: State, first: Chunk)
    requires Inv(c, s) && s.pc == Committing(first) && Wrote(s, t)
    requires t.pc == WritingFirst(first) && t.out == s.out + [Headers] && t.tokens == s.tokens
    ensures Inv(c, t)
  {
    WroteCommon(c, s, t);
  }

  lemma FirstRelayed(s: State, t: State, first: Chunk)
    requires s.attempts != [] && t.attempts == s.attempts && s.out == [Headers] && t.tokens == 1
    requires |Current(s).sent| >= 1 && Current(s).sent[0] == Got(first) && !first.final
    requires t.out == s.out + [Token(first.tokenText)]
    ensures Relayed(t, [])
  {
    var sent := Current(s).sent;
    assert sent[..1] == [Got(first)];
    assert t.out == [Headers] + TokenFrames(sent[..1]) + [];
  }

  lemma FirstTokenOk(c: Config, s: State, t: State, first: Chunk)
    requires Inv(c, s) && s.pc == WritingFirst(first) && !first.final && Wrote(s, t)
    requires t.out == s.out + [Token(first.tokenText)] && t.tokens == s.tokens + 1
    requires (t.pc == Forwarding || (t.pc == Leaving && t.broken))
    ensures Inv(c, t)
  {
    WroteCommon(c, s, t);
    FirstRelayed(s, t, first);
  }

  lemma FirstFinalOk(c: Config, s: State, t: State, first: Chunk)
    requires Inv(c, s) && s.pc == WritingFirst(first) && first.final && Wrote(s, t)
    requires t.out == s.out + [Completion(first.reason)] && t.tokens == s.tokens && t.pc == WritingDone
    ensures Inv(c, t)
  {
    WroteCommon(c, s, t);
    var a := Current(s);
    assert AttemptOk(s.attempts[|s.attempts| - 1], c.capacity, s.context);
    TerminalIsLast(a, c.capacity, s.context, 0);
    assert t.out == [Headers] + TokenFrames(a.sent[..0]) + [Completion(first.reason)];
  }

  /** A terminal event read by the handler ends the reference, unless it is a cancellation error. */
  lemma TerminalIsLast(a: Attempt, capacity: nat, context: Context, k: nat)
    requires AttemptOk(a, capacity, context) && !a.stopped && k < |a.sent| && !IsToken(a.sent[k])
    ensures (|Reference(a)| == k + 1 && Reference(a) <= a.sent && a.sent[k] == Reference(a)[k])
            || (context != Live && a.sent[k].Failed?)
  {
    EventsEnd(a);
    if a.interruption == NoInterruption {
      assert a.sent[k] == (a.sent + Pending(a))[k];
      assert a.sent == Reference(a);
    } else if a.interruption == Abandoned && !(a.sent < Reference(a)) {
      assert k == |a.sent| - 1;
    }
  }

  lemma WriteFirstFinalOk(c: Config, s: State, write: Write)
    requires Inv(c, s) && WriteFirstStep(s, write).Some? && s.pc.first.final
    ensures Inv(c, WriteFirstStep(s, write).value)
  {
    EmitOk(s, Completion(s.pc.first.reason), write.Sent?);
    FirstFinalOk(c, s, WriteFirstStep(s, write).value, s.pc.first);
  }

  lemma WriteFirstTokenOk(c: Config, s: State, write: Write)
    requires Inv(c, s) && WriteFirstStep(s, write).Some? && !s.pc.first.final
    ensures Inv(c, WriteFirstStep(s, write).value)
  {
    EmitOk(s, Token(s.pc.first.tokenText), write.Sent?);
    FirstTokenOk(c, s, WriteFirstStep(s, write).value, s.pc.first);
  }

  lemma WriteFirstOk(c: Config, s: State, write: Write)
    requires Inv(c, s) && WriteFirstStep(s, write).Some?
    ensures Inv(c, WriteFirstStep(s, write).value)
  {
    if s.pc.first.final {
      WriteFirstFinalOk(c, s, write);
    } else {
      WriteFirstTokenOk(c, s, write);
    }
  }

  lemma WriteHeadersOk(c: Config, s: State, l: Label)
    requires ConfigOk(c) && Inv(c, s) && HandlerStep(c, s, l).Some? && l.WriteHeaders?
    ensures Inv(c, HandlerStep(c, s, l).value)
  {
    EmitOk(s, Headers, l.ok);
    HeadersOk(c, s, HandlerStep(c, s, l).value, s.pc.first);
  }

  lemma DoneOk(c: Config, s: State, t: State)
    requires Inv(c, s) && s.pc == WritingDone && Wrote(s, t)
    requires t.out == s.out + [Done] && t.tokens == s.tokens && t.pc == Leaving
    ensures Inv(c, t)
  {
    WroteCommon(c, s, t);
    var f := s.out[|s.out| - 1];
    assert t.out[|t.out| - 2] == f;
    assert t.out == [Headers] + TokenFrames(Current(t).sent[..t.tokens]) + [f, Done];
    assert Relayed(t, [f, Done]);
  }

  lemma WriteDoneOk(c: Config, s: State, l: Label)
    requires ConfigOk(c) && Inv(c, s) && HandlerStep(c, s, l).Some? && l.WriteDone?
    ensures Inv(c, HandlerStep(c, s, l).value)
  {
    EmitOk(s, Done, l.ok);
    DoneOk(c, s, HandlerStep(c, s, l).value);
  }

  // ---- Forwarding --------------------------------------------------------

  /** The handler has taken the event at position `s.tokens` and handed a frame to the writer. */
  predicate Forwarded(s: State, t: State, a: Attempt, f: Frame) {
    && s.attempts != []
    && t == s.(pc := t.pc, attempts := s.attempts[|s.attempts| - 1 := a], out := s.out + [f],
               delivered := t.delivered, broken := t.broken, tokens := t.tokens)
    && DeliveryOk(t)
    && a.ids == Current(s).ids && a.script == Current(s).script && a.sent == Current(s).sent && !a.stopped
    && a.interruption == Current(s).interruption
  }

  /** The invariant while forwarding. */
  predicate Relaying(c: Config, s: State) {
    Common(c, s) && s.pc == Forwarding && Engaged(s) && Relayed(s, []) && Current(s).taken == s.tokens >= 1
  }

  lemma InvRelaying(c: Config, s: State)
    requires Inv(c, s) && s.pc == Forwarding
    ensures Relaying(c, s)
  {
  }

  lemma ForwardedCommon(c: Config, s: State, t: State, a: Attempt, f: Frame)
    requires Relaying(c, s) && Forwarded(s, t, a, f) && AttemptOk(a, c.capacity, s.context)
    requires t.pc != Ending && t.pc != Gone
    ensures Common(c, t) && Engaged(t) && Current(t) == a
  {
    ReplacedOk(c, s, t, a);
  }

  lemma RelayedMore(s: State, t: State, a: Attempt, e: Event)
    requires Relayed(s, []) && IsToken(e) && Forwarded(s, t, a, Token(e.chunk.tokenText))
    requires s.tokens < |a.sent| && a.sent[s.tokens] == e && t.tokens == s.tokens + 1
    ensures Relayed(t, [])
  {
  }

  lemma TokenForwarded(c: Config, s: State, t: State, a: Attempt, e: Event)
    requires Relaying(c, s) && IsToken(e) && Forwarded(s, t, a, Token(e.chunk.tokenText))
    requires AttemptOk(a, c.capacity, s.context) && s.tokens < |a.sent| && a.sent[s.tokens] == e
    requires t.tokens == s.tokens + 1 == a.taken && (t.pc == Forwarding || (t.pc == Leaving && t.broken))
    ensures Inv(c, t)
  {
    ForwardedCommon(c, s, t, a, Token(e.chunk.tokenText));
    RelayedMore(s, t, a, e);
  }

  lemma EndForwarded(c: Config, s: State, t: State, a: Attempt, f: Frame)
    requires Relaying(c, s) && Forwarded(s, t, a, f) && AttemptOk(a, c.capacity, s.context)
    requires t.tokens == s.tokens && t.pc == WritingDone && TailOk(t, f)
    ensures Inv(c, t)
  {
    ForwardedCommon(c, s, t, a, f);
    assert t.out[|t.out| - 1] == f;
    assert Relayed(t, [f]);
  }

  lemma EmptyForwardOk(c: Config, s: State, write: Write)
    requires Relaying(c, s) && ForwardStep(s, write).Some? && Current(s).channel == []
    ensures Inv(c, ForwardStep(s, write).value)
  {
    var t := ForwardStep(s, write).value;
    var a := Current(s);
    assert AttemptOk(s.attempts[|s.attempts| - 1], c.capacity, s.context);
    NothingLeft(a, c.capacity, s.context);
    EmitOk(s, StreamError(ClosedEarly), write.Sent?);
    assert t.attempts == s.attempts[|s.attempts| - 1 := a];
    EndForwarded(c, s, t, a, StreamError(ClosedEarly));
  }

  lemma TerminalForwarded(c: Config, s: State, t: State, a: Attempt, e: Event)
    requires Relaying(c, s) && !IsToken(e) && Forwarded(s, t, a, FrameFor(e))
    requires AttemptOk(a, c.capacity, s.context) && s.tokens < |a.sent| && a.sent[s.tokens] == e
    requires t.tokens == s.tokens && t.pc == WritingDone
    ensures Inv(c, t)
  {
    TerminalIsLast(a, c.capacity, s.context, s.tokens);
    assert Current(t) == a;
    EndForwarded(c, s, t, a, FrameFor(e));
  }

  lemma ForwardedEvent(s: State, write: Write, t: State) returns (a: Attempt, e: Event)
    requires ForwardStep(s, write) == Some(t) && Current(s).channel != [] && DeliveryOk(s) && !Current(s).stopped
    ensures e == Current(s).channel[0]
    ensures a == Current(s).(channel := Current(s).channel[1..], taken := Current(s).taken + 1)
    ensures Forwarded(s, t, a, FrameFor(e))
    ensures t.tokens == s.tokens + (if IsToken(e) then 1 else 0)
    ensures if IsToken(e) then t.pc == Forwarding || (t.pc == Leaving && t.broken) else t.pc == WritingDone
  {
    e := Current(s).channel[0];
    a := Current(s).(channel := Current(s).channel[1..], taken := Current(s).taken + 1);
    EmitOk(TakeEvent(s), FrameFor(e), write.Sent?);
  }

  lemma TokenEventOk(c: Config, s: State, write: Write, t: State)
    requires Relaying(c, s) && ForwardStep(s, write) == Some(t) && Current(s).channel != []
    requires IsToken(Current(s).channel[0])
    ensures Inv(c, t)
  {
    assert AttemptOk(s.attempts[|s.attempts| - 1], c.capacity, s.context);
    TakenAttemptOk(Current(s), c.capacity, s.context);
    var a, e := ForwardedEvent(s, write, t);
    TokenForwarded(c, s, t, a, e);
  }

  lemma TerminalEventOk(c: Config, s: State, write: Write, t: State)
    requires Relaying(c, s) && ForwardStep(s, write) == Some(t) && Current(s).channel != []
    requires !IsToken(Current(s).channel[0])
    ensures Inv(c, t)
  {
    assert AttemptOk(s.attempts[|s.attempts| - 1], c.capacity, s.context);
    TakenAttemptOk(Current(s), c.capacity, s.context);
    var a, e := ForwardedEvent(s, write, t);
    TerminalForwarded(c, s, t, a, e);
  }

  lemma ForwardOk(c: Config, s: State, write: Write)
    requires ConfigOk(c) && Inv(c, s) && ForwardStep(s, write).Some?
    ensures Inv(c, ForwardStep(s, write).value)
  {
    InvRelaying(c, s);
    if Current(s).channel == [] {
      EmptyForwardOk(c, s, write);
    } else if IsToken(Current(s).channel[0]) {
      TokenEventOk(c, s, write, ForwardStep(s, write).value);
    } else {
      TerminalEventOk(c, s, write, ForwardStep(s, write).value);
    }
  }

  // ---- Leaving -----------------------------------------------------------

  lemma NoticedOk(c: Config, s: State, t: State)
    requires Relaying(c, s) && s.context != Live && t == s.(pc := Leaving)
    ensures Inv(c, t)
  {
    assert Relayed(t, []);
  }

  lemma NoticeContextOk(c: Config, s: State, l: Label)
    requires ConfigOk(c) && Inv(c, s) && HandlerStep(c, s, l).Some? && l.NoticeContext?
    ensures Inv(c, HandlerStep(c, s, l).value)
  {
    InvRelaying(c, s);
    NoticedOk(c, s, HandlerStep(c, s, l).value);
  }

  lemma StoppedSealed(s: State, t: State)
    requires s.attempts != [] && t == StopCurrent(s).(pc := Releasing) && Sealed(s)
    ensures Sealed(t)
  {
  }

  lemma StoppedCommon(c: Config, s: State, t: State)
    requires Common(c, s) && Engaged(s) && s.pc == Leaving && t == StopCurrent(s).(pc := Releasing)
    ensures Common(c, t) && Current(t).stopped && AllClosed(t, t.attempts[..|t.attempts| - 1])
  {
    assert AttemptOk(s.attempts[|s.attempts| - 1], c.capacity, s.context);
    StoppedOk(Current(s), c.capacity, s.context);
    ReplacedOk(c, s, t, Current(s).(stopped := true));
  }

  lemma CancelledOk(c: Config, s: State, t: State)
    requires Inv(c, s) && s.pc == Leaving && s.attempts != [] && t == StopCurrent(s).(pc := Releasing)
    ensures Inv(c, t)
  {
    StoppedCommon(c, s, t);
    StoppedSealed(s, t);
  }

  lemma CancelAttemptOk(c: Config, s: State, l: Label)
    requires ConfigOk(c) && Inv(c, s) && HandlerStep(c, s, l).Some? && l.CancelAttempt?
    ensures Inv(c, HandlerStep(c, s, l).value)
  {
    CancelledOk(c, s, HandlerStep(c, s, l).value);
  }

  /** `t` is `s` further along its cleanup. */
  predicate CleanedUp(s: State, t: State) {
    t == s.(pc := t.pc, lease := t.lease, releases := t.releases, context := t.context)
    && (t.context == s.context || s.context == Live) && (t.lease == NoLease <==> s.lease == NoLease)
  }

  lemma RespondedCleanedUp(s: State, t: State)
    requires CleanedUp(s, t) && Responded(s)
    ensures Responded(t)
  {
  }

  lemma ReleasedOk(c: Config, s: State, t: State)
    requires Inv(c, s) && s.pc == Releasing && t == s.(pc := Ending, lease := Released, releases := s.releases + 1)
    ensures Inv(c, t)
  {
    RespondedCleanedUp(s, t);
  }

  lemma ReleaseOk(c: Config, s: State, l: Label)
    requires ConfigOk(c) && Inv(c, s) && HandlerStep(c, s, l).Some? && l.Release?
    ensures Inv(c, HandlerStep(c, s, l).value)
  {
    ReleasedOk(c, s, HandlerStep(c, s, l).value);
  }

  lemma AttemptsOkUnderEnd(c: Config, s: State, t: State)
    requires t.attempts == s.attempts && (t.context == s.context || s.context == Live)
    requires forall i | 0 <= i < |s.attempts| :: AttemptOk(s.attempts[i], c.capacity, s.context)
    ensures forall i | 0 <= i < |t.attempts| :: AttemptOk(t.attempts[i], c.capacity, t.context)
  {
  }

  lemma EndedOk(c: Config, s: State, t: State)
    requires Inv(c, s) && s.pc == Ending
    requires t == s.(pc := Gone, context := if s.context == Live then ClientGone else s.context)
    ensures Inv(c, t)
  {
    RespondedCleanedUp(s, t);
    AttemptsOkUnderEnd(c, s, t);
  }

  lemma EndOk(c: Config, s: State, l: Label)
    requires ConfigOk(c) && Inv(c, s) && HandlerStep(c, s, l).Some? && l.End?
    ensures Inv(c, HandlerStep(c, s, l).value)
  {
    EndedOk(c, s, HandlerStep(c, s, l).value);
  }

  // ---- The invariant holds in every run ----------------------------------

  /** The steps whose effect is a function of its own. */
  predicate Elaborate(l: Label) {
    l.Select? || l.Open? || l.TakeFirst? || l.WriteFirst? || l.Forward?
  }

  lemma ElaborateStepOk(c: Config, s: State, l: Label)
    requires ConfigOk(c) && Inv(c, s) && HandlerStep(c, s, l).Some? && Elaborate(l)
    ensures Inv(c, HandlerStep(c, s, l).value)
  {
    if l.Select? {
      SelectOk(c, s, l.picked);
    } else if l.Open? {
      OpenOk(c, s, l.error);
    } else if l.TakeFirst? {
      TakeFirstOk(c, s);
    } else if l.WriteFirst? {
      WriteFirstOk(c, s, l.write);
    } else {
      ForwardOk(c, s, l.write);
    }
  }

  /** The steps that leave the attempt or the request. */
  predicate Departing(l: Label) {
    l.NoticeContext? || l.CancelAttempt? || l.Release? || l.End?
  }

  lemma DepartingStepOk(c: Config, s: State, l: Label)
    requires ConfigOk(c) && Inv(c, s) && HandlerStep(c, s, l).Some? && Departing(l)
    ensures Inv(c, HandlerStep(c, s, l).value)
  {
    if l.NoticeContext? {
      NoticeContextOk(c, s, l);
    } else if l.CancelAttempt? {
      CancelAttemptOk(c, s, l);
    } else if l.Release? {
      ReleaseOk(c, s, l);
    } else {
      EndOk(c, s, l);
    }
  }

  lemma PlainStepOk(c: Config, s: State, l: Label)
    requires ConfigOk(c) && Inv(c, s) && HandlerStep(c, s, l).Some? && !Elaborate(l) && !Departing(l)
    ensures Inv(c, HandlerStep(c, s, l).value)
  {
    if l.CheckHealth? || l.Admit? {
      EarlyStepsOk(c, s, l);
    } else if l.Decide? {
      DecideOk(c, s, l);
    } else if l.Fail? {
      FailOk(c, s, l);
    } else if l.Respond? {
      RespondOk(c, s, l);
    } else if l.WriteHeaders? {
      WriteHeadersOk(c, s, l);
    } else {
      WriteDoneOk(c, s, l);
    }
  }

  lemma HandlerStepOk(c: Config, s: State, l: Label)
    requires ConfigOk(c) && Inv(c, s) && HandlerStep(c, s, l).Some?
    ensures Inv(c, HandlerStep(c, s, l).value)
  {
    if Elaborate(l) {
      ElaborateStepOk(c, s, l);
    } else if Departing(l) {
      DepartingStepOk(c, s, l);
    } else {
      PlainStepOk(c, s, l);
    }
  }

  lemma StepOk(c: Config, s: State, l: Label)
    requires ConfigOk(c) && Inv(c, s) && Step(c, s, l).Some?
    ensures Inv(c, Step(c, s, l).value)
  {
    if l.ContextEnds? {
      ContextEndsOk(c, s, l.deadline);
    } else if ReceiverOf(l).None? {
      HandlerStepOk(c, s, l);
    } else {
      ReceiverTurnOk(c, s, ReceiverOf(l).value, l);
    }
  }

  /** Every state of every interleaving satisfies the invariant. */
  lemma {:induction false} RunOk(c: Config, ls: seq<Label>)
    requires ConfigOk(c) && Run(c, ls).Some?
    ensures Inv(c, Run(c, ls).value)
  {
    if ls == [] {
      InitOk(c);
    } else {
      RunOk(c, ls[..|ls| - 1]);
      StepOk(c, Run(c, ls[..|ls| - 1]).value, ls[|ls| - 1]);
    }
  }
}
