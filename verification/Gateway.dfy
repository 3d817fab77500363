/** One chat request as a labelled transition system (internal/gateway/http.go:83-442): the handler,
    one receiver per opened attempt, their bounded channels, the request context and the client
    connection. Labels carry every choice the Go scheduler, the network and the clock make. */
module Gateway {
  import opened Model
  import Convert

  // ---- Errors ------------------------------------------------------------

  datatype Code =
    | Canceled | Unknown | InvalidArgument | DeadlineExceeded | NotFound | AlreadyExists | PermissionDenied
    | ResourceExhausted | FailedPrecondition | Aborted | OutOfRange | Unimplemented | Internal | Unavailable
    | DataLoss | Unauthenticated

  datatype ChunkError =
    | IdentifiersMismatch
    | IndexMismatch
    | MissingText
    | UnexpectedText
    | Undecodable(e: Convert.ConvertError)

  /** A gRPC status, Go's `context.Canceled`, or any other error. */
  datatype Failure =
    | Status(code: Code)
    | ContextCanceled
    | UnexpectedEof
    | BadChunk(reason: ChunkError)
    | Other(text: string)

  /** gRPC's `status.Code`. */
  function CodeOf(f: Failure): Code {
    if f.Status? then f.code else Unknown
  }

  // ---- Streams and events ------------------------------------------------

  /** What one `Recv` returns, with the clock reading at that moment. */
  datatype Arrival = Arrival(wire: Option<Convert.WireChunk>, now: Time)

  datatype StreamEnd = Eof | Broke(failure: Failure)

  /** Everything a worker sends on one call: chunks in order, then a terminal status. */
  datatype Stream = Stream(arrivals: seq<Arrival>, end: StreamEnd)

  datatype Event = Got(chunk: Chunk) | Failed(failure: Failure)

  function EndFailure(e: StreamEnd): Failure {
    match e case Eof => UnexpectedEof case Broke(f) => f
  }

  /** `validateChunk`: none means the chunk is acceptable. */
  function ValidateChunk(c: Chunk, requestId: string, attemptId: string, workerId: string,
                         expected: uint32): Option<ChunkError> {
    if c.requestId != requestId || c.attemptId != attemptId || c.workerId != workerId then Some(IdentifiersMismatch)
    else if c.tokenIndex != expected then Some(IndexMismatch)
    else if !c.final && c.tokenText == "" then Some(MissingText)
    else if c.final && c.tokenText != "" then Some(UnexpectedText)
    else None
  }

  /** Identifies the attempt whose chunks a receiver accepts. */
  datatype Ids = Ids(requestId: string, attemptId: string, workerId: string)

  /** The event a received message becomes when index `expected` is due. */
  function Decode(a: Arrival, ids: Ids, expected: uint32): Event {
    match Convert.ChunkFromProto(a.wire, a.now)
    case Err(e) => Failed(BadChunk(Undecodable(e)))
    case Ok(c) =>
      match ValidateChunk(c, ids.requestId, ids.attemptId, ids.workerId, expected)
      case Some(e) => Failed(BadChunk(e))
      case None => Got(c)
  }

  predicate IsToken(e: Event) {
    e.Got? && !e.chunk.final
  }

  /** The reference: the events a stream amounts to, read to its end without interference. */
  function Events(s: Stream, ids: Ids, expected: uint32): (es: seq<Event>)
    ensures |es| > 0 && !IsToken(es[|es| - 1])
    ensures forall k | 0 <= k < |es| - 1 :: IsToken(es[k])
    decreases |s.arrivals|
  {
    if s.arrivals == [] then [Failed(EndFailure(s.end))]
    else
      var e := Decode(s.arrivals[0], ids, expected);
      if IsToken(e) then [e] + Events(Rest(s), ids, Wrap32(expected + 1)) else [e]
  }

  function Rest(s: Stream): Stream
    requires s.arrivals != []
  {
    s.(arrivals := s.arrivals[1..])
  }

  // ---- Output ------------------------------------------------------------

  datatype Cause = ClosedEarly | WorkerFailed(failure: Failure) | TerminalError

  datatype Frame =
    | ApiError(status: nat)
    | Headers
    | Token(text: string)
    | Completion(reason: FinishReason)
    | StreamError(cause: Cause)
    | Done

  // ---- State -------------------------------------------------------------

  datatype Context = Live | ClientGone | DeadlinePassed

  datatype ReceiverPc = Receiving | Delivering(event: Event) | Cancelling | Closing | Exited

  /** Why a receiver stopped before the end of its stream. */
  datatype Interruption = NoInterruption | TimedOut | Abandoned

  datatype Attempt = Attempt(
    ids: Ids,
    script: Stream,            // what the worker sends on this call
    rest: Stream,              // what has not been received yet
    expected: uint32,
    pc: ReceiverPc,
    channel: seq<Event>,
    sent: seq<Event>,          // history: everything put into the channel
    taken: nat,                // history: how many of those the handler has taken out
    stopped: bool,             // the handler has called cancel
    interruption: Interruption)

  datatype HandlerPc =
    | Starting
    | Admitting
    | Selecting
    | Opening(worker: Worker)
    | AwaitingFirst
    | Deciding(failure: Failure)      // attempt cancelled, about to run shouldRetry
    | Failing(failure: Failure)       // about to run writePrecommitAttemptError
    | Responding(status: nat)         // about to write an API error
    | Committing(first: Chunk)        // about to write the stream headers
    | WritingFirst(first: Chunk)
    | Forwarding
    | WritingDone
    | Leaving                         // about to cancel the current attempt
    | Releasing                       // about to release the lease
    | Ending                          // about to cancel the request context
    | Gone

  datatype Lease = NoLease | Held | Released

  datatype State = State(
    pc: HandlerPc,
    n: nat,                           // attemptNumber
    excluded: set<string>,
    previous: Option<Failure>,        // previousAttemptErr
    attempts: seq<Attempt>,
    context: Context,
    out: seq<Frame>,                  // everything handed to the response writer
    delivered: seq<Frame>,            // the part of it that reached the client
    broken: bool,                     // a write has failed; later ones fail too
    lease: Lease,
    releases: nat,                    // history
    workers: seq<string>,             // history: workers selected so far
    tokens: nat,                      // history: token frames written
    disturbed: bool)                  // history: the context ended while the handler was running

  /** The constants of one request: `streams[i]` is what the i-th opened call will carry. */
  datatype Config = Config(request: Request, capacity: nat, streams: seq<Stream>)

  ghost predicate ConfigOk(c: Config) {
    c.capacity > 0 && |c.streams| == 2
  }

  datatype AdmitOutcome = Admitted | LimitReached | AdmitFailed

  /** Small writes are buffered and a failing flush goes unreported, so a lost frame may show only at a
      later write. */
  datatype Write = Sent | Lost | Refused

  datatype Label =
    | CheckHealth(healthy: bool)
    | Admit(outcome: AdmitOutcome)
    | Select(picked: Option<Worker>)
    | Open(error: Option<Failure>)
    | TakeFirst
    | Decide
    | Fail
    | Respond(ok: bool)
    | WriteHeaders(ok: bool)
    | WriteFirst(write: Write)
    | Forward(write: Write)
    | NoticeContext
    | WriteDone(ok: bool)
    | CancelAttempt
    | Release
    | End
    | Receive(i: nat, cut: Option<Failure>)   // `cut`: the call fails because its context is done
    | Deliver(i: nat)
    | DeliverAbandoned(i: nat)
    | DeliverTimeout(i: nat)
    | ReceiverCancel(i: nat)
    | ReceiverClose(i: nat)
    | ContextEnds(deadline: bool)

  function Init(): State {
    State(Starting, 1, {}, None, [], Live, [], [], false, NoLease, 0, [], 0, false)
  }

  // ---- Pure decisions ----------------------------------------------------

  function AttemptId(request: Request, n: nat): string {
    request.id + (if n == 1 then "-a1" else "-a2")
  }

  function ShouldRetry(context: Context, f: Failure, n: nat): bool {
    if n >= 2 || context != Live then false
    else if f == ContextCanceled then false
    else CodeOf(f) in {Unavailable, Unknown, Internal, DeadlineExceeded}
  }

  /** The worker's failure before the first chunk, if the event is one. */
  function FirstFailure(e: Event): Option<Failure> {
    match e
    case Failed(f) => Some(f)
    case Got(c) => if c.final && c.reason == FinishError then Some(Status(Internal)) else None
  }

  // ---- Helpers on states -------------------------------------------------

  /** Hands a frame to the response writer. */
  function Emit(s: State, f: Frame, ok: bool): State {
    var broken := s.broken || !ok;
    s.(out := s.out + [f], broken := broken, delivered := if broken then s.delivered else s.delivered + [f])
  }

  function Current(s: State): Attempt
    requires s.attempts != []
  {
    s.attempts[|s.attempts| - 1]
  }

  function SetCurrent(s: State, a: Attempt): State
    requires s.attempts != []
  {
    s.(attempts := s.attempts[|s.attempts| - 1 := a])
  }

  /** `current.cancel()` */
  function StopCurrent(s: State): State
    requires s.attempts != []
  {
    SetCurrent(s, Current(s).(stopped := true))
  }

  /** The handler takes the next event out of the channel. */
  function TakeEvent(s: State): State
    requires s.attempts != [] && Current(s).channel != []
  {
    var a := Current(s);
    SetCurrent(s, a.(channel := a.channel[1..], taken := a.taken + 1))
  }

  /** The attempt context is done: cancelled by the handler, by the receiver on its way out, or
      through the request context. */
  predicate AttemptDone(a: Attempt, context: Context) {
    a.stopped || a.pc == Closing || a.pc == Exited || context != Live
  }

  // ---- Handler steps -----------------------------------------------------

  /** The one fact about `selectWorker` the protocol relies on; `Serving.SelectWorkerIsSelectable` proves
      it of every policy. */
  predicate Selectable(excluded: set<string>, picked: Option<Worker>) {
    picked.Some? ==> picked.value.id !in excluded
  }

  /** With no worker left, an earlier attempt's failure is what gets reported. */
  function AfterSelect(s: State, picked: Option<Worker>): State {
    match picked
    case Some(w) => s.(pc := Opening(w), workers := s.workers + [w.id])
    case None => s.(pc := if s.previous.Some? then Failing(s.previous.value) else Responding(503))
  }

  /** `openAttempt`: acquiring the client and starting the call succeed or fail as one step. */
  function OpenStep(c: Config, s: State, error: Option<Failure>): Option<State>
    requires ConfigOk(c)
  {
    if !s.pc.Opening? || |s.attempts| >= 2 then None
    else if error.Some? then Some(s.(pc := Deciding(error.value), previous := error))
    else
      var script := c.streams[|s.attempts|];
      var ids := Ids(c.request.id, AttemptId(c.request, s.n), s.pc.worker.id);
      Some(s.(pc := AwaitingFirst,
              attempts := s.attempts + [Attempt(ids, script, script, 0, Receiving, [], [], 0, false, NoInterruption)]))
  }

  /** The handler blocks here on the channel alone; it does not watch the context. */
  function TakeFirstStep(s: State): Option<State> {
    if s.pc != AwaitingFirst || s.attempts == [] then None
    else if Current(s).channel == [] then
      if Current(s).pc != Exited then None
      else Some(StopCurrent(s).(pc := Deciding(UnexpectedEof), previous := Some(UnexpectedEof)))
    else
      var e := Current(s).channel[0];
      var t := TakeEvent(s);
      var f := FirstFailure(e);
      if f.Some? then Some(StopCurrent(t).(pc := Deciding(f.value), previous := f))
      else Some(t.(pc := Committing(e.chunk)))
  }

  /** Only a reported failure makes the handler give up. */
  function AfterToken(write: Write): HandlerPc {
    if write.Refused? then Leaving else Forwarding
  }

  function WriteFirstStep(s: State, write: Write): Option<State> {
    if !s.pc.WritingFirst? then None
    else if s.pc.first.final then Some(Emit(s, Completion(s.pc.first.reason), write.Sent?).(pc := WritingDone))
    else
      Some(Emit(s, Token(s.pc.first.tokenText), write.Sent?).(tokens := s.tokens + 1, pc := AfterToken(write)))
  }

  /** The frame for an event read after commitment. */
  function FrameFor(e: Event): Frame {
    match e
    case Failed(f) => StreamError(WorkerFailed(f))
    case Got(chunk) =>
      if !chunk.final then Token(chunk.tokenText)
      else if chunk.reason == FinishError then StreamError(TerminalError)
      else Completion(chunk.reason)
  }

  function ForwardStep(s: State, write: Write): Option<State> {
    if s.pc != Forwarding || s.attempts == [] then None
    else if Current(s).channel == [] then
      if Current(s).pc != Exited then None
      else Some(Emit(s, StreamError(ClosedEarly), write.Sent?).(pc := WritingDone))
    else
      var e := Current(s).channel[0];
      var t := Emit(TakeEvent(s), FrameFor(e), write.Sent?);
      if IsToken(e) then Some(t.(tokens := s.tokens + 1, pc := AfterToken(write)))
      else Some(t.(pc := WritingDone))
  }

  function HandlerStep(c: Config, s: State, l: Label): Option<State>
    requires ConfigOk(c)
  {
    match l
    case CheckHealth(healthy) =>
      if s.pc != Starting then None
      else if healthy then Some(s.(pc := Admitting))
      else Some(s.(pc := Responding(503)))
    case Admit(outcome) =>
      if s.pc != Admitting then None
      else (match outcome
            case Admitted => Some(s.(pc := Selecting, lease := Held))
            case LimitReached => Some(s.(pc := Responding(429)))
            case AdmitFailed => Some(s.(pc := Responding(500))))
    case Select(picked) =>
      if s.pc != Selecting || !Selectable(s.excluded, picked) then None
      else Some(AfterSelect(s, picked))
    case Open(error) => OpenStep(c, s, error)
    case TakeFirst => TakeFirstStep(s)
    case Decide =>
      if !s.pc.Deciding? then None
      else if ShouldRetry(s.context, s.pc.failure, s.n) && s.workers != [] then
        var t := s.(excluded := s.excluded + {s.workers[|s.workers| - 1]}, n := s.n + 1);
        // Past the second attempt the loop would fall through without a response.
        Some(if t.n <= 2 then t.(pc := Selecting) else t.(pc := Releasing))
      else Some(s.(pc := Failing(s.pc.failure)))
    case Fail =>
      if !s.pc.Failing? then None
      else Some(s.(pc := Responding(if s.context == DeadlinePassed then 504 else 502)))
    case Respond(ok) =>
      if !s.pc.Responding? then None
      else Some(Emit(s, ApiError(s.pc.status), ok).(pc := if s.lease == Held then Releasing else Ending))
    case WriteHeaders(ok) =>
      if !s.pc.Committing? then None
      else Some(Emit(s, Headers, ok).(pc := WritingFirst(s.pc.first)))
    case WriteFirst(write) => WriteFirstStep(s, write)
    case Forward(write) => ForwardStep(s, write)
    case NoticeContext =>
      if s.pc != Forwarding || s.context == Live then None else Some(s.(pc := Leaving))
    case WriteDone(ok) =>
      if s.pc != WritingDone then None else Some(Emit(s, Done, ok).(pc := Leaving))
    case CancelAttempt =>
      if s.pc != Leaving || s.attempts == [] then None else Some(StopCurrent(s).(pc := Releasing))
    case Release =>
      if s.pc != Releasing then None else Some(s.(pc := Ending, lease := Released, releases := s.releases + 1))
    case End =>
      if s.pc != Ending then None
      else Some(s.(pc := Gone, context := if s.context == Live then ClientGone else s.context))
    case _ => None
  }

  // ---- Receiver steps ----------------------------------------------------

  /** One step of `receiveAttempt`/`deliverAttempt`. Once the attempt context is done, `Recv` may fail
      with any error, but may still return what has arrived. */
  function ReceiverStep(a: Attempt, capacity: nat, context: Context, l: Label): Option<Attempt> {
    match l
    case Receive(_, cut) =>
      if a.pc != Receiving then None
      else if cut.Some? then
        if !AttemptDone(a, context) then None
        else Some(a.(pc := Delivering(Failed(cut.value)), interruption := Abandoned))
      else if a.rest.arrivals == [] then Some(a.(pc := Delivering(Failed(EndFailure(a.rest.end)))))
      else
        var e := Decode(a.rest.arrivals[0], a.ids, a.expected);
        Some(a.(pc := Delivering(e), rest := Rest(a.rest),
                expected := if IsToken(e) then Wrap32(a.expected + 1) else a.expected))
    case Deliver(_) =>
      if !a.pc.Delivering? || |a.channel| >= capacity then None
      else Some(a.(pc := if IsToken(a.pc.event) then Receiving else Cancelling,
                   channel := a.channel + [a.pc.event], sent := a.sent + [a.pc.event]))
    case DeliverAbandoned(_) =>
      if !a.pc.Delivering? || !AttemptDone(a, context) then None
      else Some(a.(pc := Cancelling, interruption := Abandoned))
    case DeliverTimeout(_) =>
      if !a.pc.Delivering? then None else Some(a.(pc := Cancelling, interruption := TimedOut))
    case ReceiverCancel(_) =>
      if a.pc != Cancelling then None else Some(a.(pc := Closing))
    case ReceiverClose(_) =>
      if a.pc != Closing then None else Some(a.(pc := Exited))
    case _ => None
  }

  function ReceiverOf(l: Label): Option<nat> {
    match l
    case Receive(i, _) => Some(i)
    case Deliver(i) => Some(i)
    case DeliverAbandoned(i) => Some(i)
    case DeliverTimeout(i) => Some(i)
    case ReceiverCancel(i) => Some(i)
    case ReceiverClose(i) => Some(i)
    case _ => None
  }

  // ---- The transition function -------------------------------------------

  /** The state after `l`, or none when `l` cannot happen in `s`. */
  function Step(c: Config, s: State, l: Label): Option<State>
    requires ConfigOk(c)
  {
    if l.ContextEnds? then
      if s.context != Live then None
      else Some(s.(context := if l.deadline then DeadlinePassed else ClientGone, disturbed := true))
    else if ReceiverOf(l).None? then HandlerStep(c, s, l)
    else ReceiverTurn(c, s, ReceiverOf(l).value, l)
  }

  function ReceiverTurn(c: Config, s: State, i: nat, l: Label): Option<State> {
    if i >= |s.attempts| then None
    else
      var a := ReceiverStep(s.attempts[i], c.capacity, s.context, l);
      if a.None? then None else Some(s.(attempts := s.attempts[i := a.value]))
  }

  /** The state after a sequence of steps from the initial one, if all of them can happen. */
  function Run(c: Config, ls: seq<Label>): Option<State>
    requires ConfigOk(c)
  {
    if ls == [] then Some(Init())
    else
      var s := Run(c, ls[..|ls| - 1]);
      if s.None? then None else Step(c, s.value, ls[|ls| - 1])
  }
}
