/** The mock worker behind the gateway: its chunks survive the wire and the receiver's checks, and an
    undisturbed request is answered with exactly what the worker produced. */
module Serving {
  import opened Model
  import opened Gateway
  import opened GatewayProofs
  import opened GatewayTheorems
  import Convert
  import MockWorker
  import Placement
  import Routing

  /** `Generate` sends chunks and ends with the error status, or normally after the final chunk
      (internal/mockworker/worker.go:157-177). `received` gives the receiver's clock. */
  function StreamOf(rs: seq<MockWorker.Result>, received: nat -> Time): Stream {
    if rs == [] then Stream([], Eof)
    else
      var tail := StreamOf(rs[1..], Later(received));
      match rs[0]
      case TokenResult(c) => tail.(arrivals := [Arrival(Some(Convert.ChunkToProto(c)), received(0))] + tail.arrivals)
      case FinalResult(c) => Stream([Arrival(Some(Convert.ChunkToProto(c)), received(0))], Eof)
      case ErrorResult => Stream([], Broke(Status(Unavailable)))
  }

  function Later(clock: nat -> Time): nat -> Time {
    (i: nat) => clock(i + 1)
  }

  /** What the gateway makes of one result. */
  function EventOf(r: MockWorker.Result): Event {
    match r
    case TokenResult(c) => Got(c)
    case FinalResult(c) => Got(c)
    case ErrorResult => Failed(Status(Unavailable))
  }

  function EventsOf(rs: seq<MockWorker.Result>): (es: seq<Event>)
    ensures |es| == |rs| && forall i | 0 <= i < |rs| :: es[i] == EventOf(rs[i])
  {
    seq(|rs|, i requires 0 <= i < |rs| => EventOf(rs[i]))
  }

  /** The chunk the receiver with these identifiers accepts next. */
  predicate Acceptable(c: Chunk, ids: Ids, index: uint32) {
    && c.requestId == ids.requestId && c.attemptId == ids.attemptId && c.workerId == ids.workerId
    && c.tokenIndex == index && (c.final <==> c.tokenText == "") && (c.final <==> c.reason != NoReason)
    && Convert.Representable(c.at)
  }

  /** Every result but the last is an acceptable token, the last one is not a token. */
  predicate WellFormed(rs: seq<MockWorker.Result>, ids: Ids, index: uint32)
    decreases |rs|
  {
    rs != [] &&
    match rs[0]
    case TokenResult(c) => Acceptable(c, ids, index) && !c.final && WellFormed(rs[1..], ids, Wrap32(index + 1))
    case FinalResult(c) => Acceptable(c, ids, index) && c.final && |rs| == 1
    case ErrorResult => |rs| == 1
  }

  lemma AcceptableDecodes(c: Chunk, ids: Ids, index: uint32, now: Time)
    requires Acceptable(c, ids, index)
    ensures Decode(Arrival(Some(Convert.ChunkToProto(c)), now), ids, index) == Got(c)
  {
  }

  lemma StreamStarts(rs: seq<MockWorker.Result>, received: nat -> Time)
    requires rs != [] && rs[0].TokenResult?
    ensures var s := StreamOf(rs, received);
            && s.arrivals != [] && s.arrivals[0] == Arrival(Some(Convert.ChunkToProto(rs[0].chunk)), received(0))
            && Rest(s) == StreamOf(rs[1..], Later(received))
  {
  }

  lemma EventsStart(s: Stream, ids: Ids, index: uint32, e: Event)
    requires s.arrivals != [] && Decode(s.arrivals[0], ids, index) == e && IsToken(e)
    ensures Events(s, ids, index) == [e] + Events(Rest(s), ids, Wrap32(index + 1))
  {
  }

  lemma EventsOfStarts(rs: seq<MockWorker.Result>)
    requires rs != []
    ensures EventsOf(rs) == [EventOf(rs[0])] + EventsOf(rs[1..])
  {
  }

  /** Well-formed results reach the handler as they were produced. */
  lemma {:induction false} StreamEvents(rs: seq<MockWorker.Result>, ids: Ids, index: uint32, received: nat -> Time)
    requires WellFormed(rs, ids, index)
    ensures Events(StreamOf(rs, received), ids, index) == EventsOf(rs)
    decreases |rs|
  {
    match rs[0]
    case TokenResult(c) =>
      AcceptableDecodes(c, ids, index, received(0));
      StreamEvents(rs[1..], ids, Wrap32(index + 1), Later(received));
      StreamStarts(rs, received);
      EventsStart(StreamOf(rs, received), ids, index, Got(c));
      EventsOfStarts(rs);
    case FinalResult(c) =>
      AcceptableDecodes(c, ids, index, received(0));
    case ErrorResult =>
  }

  ghost predicate ClockRepresentable(src: MockWorker.Source) {
    forall i :: Convert.Representable(src.clock(i))
  }

  predicate Addressed(cfg: MockWorker.Config, r: Convert.WireRequest, ids: Ids) {
    ids == Ids(r.requestId, r.attemptId, cfg.id)
  }

  lemma TokenAcceptable(cfg: MockWorker.Config, r: Convert.WireRequest, src: MockWorker.Source, ids: Ids, i: nat)
    requires Addressed(cfg, r, ids) && ClockRepresentable(src)
    ensures Acceptable(MockWorker.TokenChunk(cfg, r, src, i), ids, Wrap32(i))
  {
  }

  /** The i-th of n results is what the receiver expects there. */
  predicate Fits(r: MockWorker.Result, ids: Ids, i: nat, n: nat) {
    match r
    case TokenResult(c) => i < n - 1 && !c.final && Acceptable(c, ids, Wrap32(i))
    case FinalResult(c) => i == n - 1 && c.final && Acceptable(c, ids, Wrap32(i))
    case ErrorResult => i == n - 1
  }

  lemma TailOf<T>(xs: seq<T>, k: nat)
    requires k < |xs|
    ensures xs[k..][0] == xs[k] && xs[k..][1..] == xs[k + 1..] && |xs[k..]| == |xs| - k
  {
  }

  lemma WrapSuccessor(k: nat)
    ensures Wrap32(Wrap32(k) + 1) == Wrap32(k + 1)
  {
  }

  lemma {:induction false} SuffixWellFormed(rs: seq<MockWorker.Result>, ids: Ids, k: nat)
    requires k < |rs| && forall i | 0 <= i < |rs| :: Fits(rs[i], ids, i, |rs|)
    ensures WellFormed(rs[k..], ids, Wrap32(k))
    decreases |rs| - k
  {
    TailOf(rs, k);
    WrapSuccessor(k);
    assert Fits(rs[k], ids, k, |rs|);
    if k < |rs| - 1 {
      SuffixWellFormed(rs, ids, k + 1);
    }
  }

  /** Everything a job sends is accepted by the receiver of the attempt it was started for. */
  lemma ScriptWellFormed(cfg: MockWorker.Config, r: Convert.WireRequest, src: MockWorker.Source, failBefore: bool,
                         ids: Ids)
    requires Addressed(cfg, r, ids) && ClockRepresentable(src)
    ensures WellFormed(MockWorker.Script(cfg, r, src, failBefore), ids, 0)
  {
    var rs := MockWorker.Script(cfg, r, src, failBefore);
    forall i | 0 <= i < |rs| ensures Fits(rs[i], ids, i, |rs|) {
      if !failBefore && i < |rs| - 1 {
        TokenAcceptable(cfg, r, src, ids, i);
      }
    }
    SuffixWellFormed(rs, ids, 0);
    assert rs[0..] == rs;
  }

  /** The frames of a worker's tokens. */
  function WorkerTokens(src: MockWorker.Source, requestId: string, n: nat): (fs: seq<Frame>)
    ensures |fs| == n
  {
    seq(n, i requires 0 <= i < n => Token("mock-" + src.digest(requestId, i)))
  }

  /** The response for a job of the mock worker that gets past the injected first failure. */
  function WorkerResponse(cfg: MockWorker.Config, r: Convert.WireRequest, src: MockWorker.Source): seq<Frame> {
    [Headers] + WorkerTokens(src, r.requestId, MockWorker.Produced(cfg, r)) +
    [if 0 < cfg.failAfterTokens < MockWorker.Outputs(r) then StreamError(WorkerFailed(Status(Unavailable)))
     else if r.maxOutputTokens <= 8 then Completion(FinishLength)
     else Completion(FinishStop),
     Done]
  }

  lemma ScriptRendered(cfg: MockWorker.Config, r: Convert.WireRequest, src: MockWorker.Source)
    ensures Rendered(EventsOf(MockWorker.Script(cfg, r, src, false))) == WorkerResponse(cfg, r, src)
  {
  }

  lemma FirstIsFine(cfg: MockWorker.Config, r: Convert.WireRequest, src: MockWorker.Source)
    requires r.maxOutputTokens > 0
    ensures FirstFailure(EventsOf(MockWorker.Script(cfg, r, src, false))[0]).None?
  {
  }

  /** The i-th call of a run carries the mock worker's output for that attempt. */
  ghost predicate ServedBy(c: Config, s: State, i: nat, cfg: MockWorker.Config, src: MockWorker.Source,
                           failBefore: bool, 
                           received: nat -> Time)
    requires ConfigOk(c) && i < |s.attempts| <= 2
  {
    var ids := s.attempts[i].ids;
    && ids.workerId == cfg.id
    && c.streams[i] == StreamOf(MockWorker.Script(cfg, WireFor(c, ids), src, failBefore), received)
  }

  /** The request as the worker of an attempt receives it. */
  function WireFor(c: Config, ids: Ids): Convert.WireRequest {
    Convert.RequestToProto(c.request.(attemptId := ids.attemptId), ids.workerId)
  }

  lemma AttemptStream(c: Config, s: State, i: nat)
    requires IdsOk(c, s) && i < |s.attempts|
    ensures |s.attempts| <= 2 && s.attempts[i].script == c.streams[i] && s.attempts[i].ids.requestId == c.request.id
  {
  }

  /** What the gateway makes of a call that the mock worker serves. */
  lemma ServedReference(c: Config, s: State, i: nat, cfg: MockWorker.Config, src: MockWorker.Source, failBefore: bool,
                        received: nat -> Time)
    requires ConfigOk(c) && ClockRepresentable(src) && Inv(c, s) && i < |s.attempts| <= 2
    requires ServedBy(c, s, i, cfg, src, failBefore, received)
    ensures Reference(s.attempts[i]) == EventsOf(MockWorker.Script(cfg, WireFor(c, s.attempts[i].ids), src, failBefore))
  {
    AttemptStream(c, s, i);
    var ids := s.attempts[i].ids;
    ScriptWellFormed(cfg, WireFor(c, ids), src, failBefore, ids);
    StreamEvents(MockWorker.Script(cfg, WireFor(c, ids), src, failBefore), ids, 0, received);
  }

  /** Producer and consumer composed. If the first opened call reaches the mock worker (and no failure
      before the first token is injected), an undisturbed run delivers min(max, 8) tokens, finish
      reason "length" exactly when max <= 8, and DONE; with a failure injected after 0 < f < min(max, 8)
      tokens it delivers f tokens, an error and DONE. No second call is made. */
  lemma UndisturbedServing(c: Config, ls: seq<Label>, cfg: MockWorker.Config, src: MockWorker.Source,
                           received: nat -> Time)
    requires ConfigOk(c) && c.request.maxOutputTokens > 0 && ClockRepresentable(src)
    requires Run(c, ls).Some? && Run(c, ls).value.pc == Gone
    requires var s := Run(c, ls).value;
             Undisturbed(s) && 0 < |s.attempts| <= 2 && ServedBy(c, s, 0, cfg, src, false, received)
    ensures var s := Run(c, ls).value;
            |s.attempts| == 1 && s.delivered == WorkerResponse(cfg, WireFor(c, s.attempts[0].ids), src)
  {
    RunOk(c, ls);
    var s := Run(c, ls).value;
    var r := WireFor(c, s.attempts[0].ids);
    ServedReference(c, s, 0, cfg, src, false, received);
    FirstIsFine(cfg, r, src);
    UndisturbedRunRendersStream(c, ls);
    ScriptRendered(cfg, r, src);
  }

  /** The retry composed. If the first call meets an injected failure before its first token and the
      second call is opened, an undisturbed run makes exactly these two calls, to different workers,
      and the client gets the second worker's whole response and nothing of the first. */
  lemma RetriedServing(c: Config, ls: seq<Label>, first: MockWorker.Config, second: MockWorker.Config,
                       src: MockWorker.Source, 
                       other: MockWorker.Source, received: nat -> Time, later: nat -> Time)
    requires ConfigOk(c) && c.request.maxOutputTokens > 0 && ClockRepresentable(src) && ClockRepresentable(other)
    requires Run(c, ls).Some? && Run(c, ls).value.pc == Gone
    requires var s := Run(c, ls).value;
             && Undisturbed(s) && |s.attempts| == 2
             && ServedBy(c, s, 0, first, src, true, received) && ServedBy(c, s, 1, second, other, false, later)
    ensures var s := Run(c, ls).value;
            && first.id != second.id
            && Reference(s.attempts[0]) == [Failed(Status(Unavailable))]
            && s.delivered == WorkerResponse(second, WireFor(c, s.attempts[1].ids), other)
  {
    RunOk(c, ls);
    var s := Run(c, ls).value;
    var r := WireFor(c, s.attempts[1].ids);
    AttemptsAndLease(c, ls);
    ServedReference(c, s, 0, first, src, true, received);
    ServedReference(c, s, 1, second, other, false, later);
    FirstIsFine(second, r, other);
    LastCallRendered(c, s);
    ScriptRendered(second, r, other);
  }

  /** The worker the gateway selects is one the protocol admits, under every policy and for every list
      of workers: in particular a retry never returns to the worker that failed. */
  lemma SelectWorkerIsSelectable(policy: Routing.Policy, cursor: uint64, request: Request, ws: seq<Worker>,
                                 excluded: set<string>)
    ensures Selectable(excluded, Placement.SelectWorker(policy, cursor, request, ws, excluded))
  {
    Placement.LookupNeverMisses(policy, cursor, request, ws, excluded);
  }
}
