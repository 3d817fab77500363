/** Conversion between domain values and the wire messages (internal/protocol/convert.go). */
module Convert {
  import opened Model

  const NANOS: int := 1_000_000_000

  datatype Stamp = Stamp(seconds: int, nanos: int)

  datatype WireStatus = StatusUnspecified | StatusHealthy | StatusDraining | StatusUnhealthy | StatusUnknown(n: int)

  datatype WireFinish = FinishUnspecified | WireStop | WireLength | WireCancelled | WireError | FinishUnknown(n: int)

  datatype WirePrefix = WirePrefix(tokenCount: uint32, sha256: string)

  datatype WireCached = WireCached(prefix: Option<WirePrefix>)

  datatype WireKV = WireKV(capacityTokens: uint64, usedTokens: uint64)

  datatype WireState = WireState(
    statusVersion: uint64,
    status: WireStatus,
    waitingRequestCount: uint32,
    waitingTokenCount: uint64,
    runningRequestCount: uint32,
    runningWorkTokens: uint64,
    kvUsage: Option<WireKV>,
    prefillTokensPerSecond: real,
    decodeTokensPerSecond: real,
    decodeSchedulingQuantumTokens: uint32,
    cachedPrefixes: seq<Option<WireCached>>,
    observedAt: Option<Stamp>)

  datatype WireChunk = WireChunk(
    protocolVersion: string,
    requestId: string,
    attemptId: string,
    workerId: string,
    tokenIndex: uint32,
    tokenText: string,
    final: bool,
    finishReason: WireFinish,
    workerTimestamp: Option<Stamp>)

  datatype ConvertError =
    | MissingState
    | InvalidStatus
    | MissingTimestamp
    | InvalidTimestamp
    | InvalidCachedPrefix
    | MissingChunk
    | ProtocolMismatch
    | InvalidFinishReason
    | ReasonOnToken

  /** Seconds from 0001-01-01 up to 9999-12-31, as `CheckValid` demands. */
  predicate StampValid(s: Stamp) {
    -62135596800 <= s.seconds <= 253402300799 && 0 <= s.nanos < NANOS
  }

  function ToStamp(t: Time): Stamp {
    Stamp(t / NANOS, t % NANOS)
  }

  function AsTime(s: Stamp): Time {
    s.seconds * NANOS + s.nanos
  }

  /** An instant the wire format can carry. */
  predicate Representable(t: Time) {
    -62135596800 * NANOS <= t < 253402300800 * NANOS
  }

  lemma StampRoundTrip(t: Time)
    ensures AsTime(ToStamp(t)) == t
    ensures StampValid(ToStamp(t)) <==> Representable(t)
  {
  }

  function TimestampFromProto(s: Option<Stamp>): Result<Time, ConvertError> {
    match s
    case None => Err(MissingTimestamp)
    case Some(v) => if StampValid(v) then Ok(AsTime(v)) else Err(InvalidTimestamp)
  }

  function StatusToProto(s: WorkerStatus): WireStatus {
    match s
    case Healthy => StatusHealthy
    case Draining => StatusDraining
    case _ => StatusUnhealthy
  }

  function StatusFromProto(s: WireStatus): Result<WorkerStatus, ConvertError> {
    match s
    case StatusHealthy => Ok(Healthy)
    case StatusDraining => Ok(Draining)
    case StatusUnhealthy => Ok(Unhealthy)
    case _ => Err(InvalidStatus)
  }

  function FinishToProto(r: FinishReason): WireFinish {
    match r
    case FinishStop => WireStop
    case FinishLength => WireLength
    case FinishCancelled => WireCancelled
    case _ => WireError
  }

  function FinishFromProto(r: WireFinish): Result<FinishReason, ConvertError> {
    match r
    case WireStop => Ok(FinishStop)
    case WireLength => Ok(FinishLength)
    case WireCancelled => Ok(FinishCancelled)
    case WireError => Ok(FinishError)
    case _ => Err(InvalidFinishReason)
  }

  // ---- Fingerprint lists -------------------------------------------------

  function PrefixToWire(p: PrefixFingerprint): Option<WirePrefix> {
    Some(WirePrefix(p.tokenCount, p.sha256))
  }

  function WirePrefixes(ps: seq<PrefixFingerprint>): (r: seq<Option<WirePrefix>>)
    ensures |r| == |ps|
    ensures forall i | 0 <= i < |ps| :: r[i] == PrefixToWire(ps[i])
  {
    seq(|ps|, i requires 0 <= i < |ps| => PrefixToWire(ps[i]))
  }

  /** The non-nil entries, in order. */
  function DomainPrefixes(ws: seq<Option<WirePrefix>>): seq<PrefixFingerprint> {
    if ws == [] then []
    else
      var rest := DomainPrefixes(ws[1..]);
      match ws[0]
      case None => rest
      case Some(p) => [PrefixFingerprint(p.tokenCount, p.sha256)] + rest
  }

  lemma {:induction false} DomainPrefixesConcat(a: seq<Option<WirePrefix>>, b: seq<Option<WirePrefix>>)
    ensures DomainPrefixes(a + b) == DomainPrefixes(a) + DomainPrefixes(b)
  {
    if a == [] {
      assert a + b == b;
    } else {
      DomainPrefixesConcat(a[1..], b);
      assert (a + b)[1..] == a[1..] + b;
    }
  }

  /** A request's fingerprints reach the worker unchanged. */
  lemma {:induction false} PrefixesRoundTrip(ps: seq<PrefixFingerprint>)
    ensures DomainPrefixes(WirePrefixes(ps)) == ps
  {
    if ps != [] {
      PrefixesRoundTrip(ps[1..]);
      assert WirePrefixes(ps)[1..] == WirePrefixes(ps[1..]);
    }
  }

  method PrefixesToProto(prefixes: seq<PrefixFingerprint>) returns (result: seq<Option<WirePrefix>>)
    ensures result == WirePrefixes(prefixes)
    ensures DomainPrefixes(result) == prefixes
  {
    result := [];
    for i := 0 to |prefixes|
      invariant |result| == i
      invariant forall j | 0 <= j < i :: result[j] == PrefixToWire(prefixes[j])
    {
      result := result + [PrefixToWire(prefixes[i])];
    }
    PrefixesRoundTrip(prefixes);
  }

  method PrefixesFromProto(prefixes: seq<Option<WirePrefix>>) returns (result: seq<PrefixFingerprint>)
    ensures result == DomainPrefixes(prefixes)
  {
    result := [];
    for i := 0 to |prefixes|
      invariant result == DomainPrefixes(prefixes[..i])
    {
      DomainPrefixesConcat(prefixes[..i], [prefixes[i]]);
      assert prefixes[..i + 1] == prefixes[..i] + [prefixes[i]];
      match prefixes[i]
      case None =>
      case Some(p) =>
        result := result + [PrefixFingerprint(p.tokenCount, p.sha256)];
    }
    assert prefixes[..|prefixes|] == prefixes;
  }

  // ---- Worker state ------------------------------------------------------

  function CachedToWire(p: PrefixFingerprint): Option<WireCached> {
    Some(WireCached(Some(WirePrefix(p.tokenCount, p.sha256))))
  }

  predicate CachedPresent(item: Option<WireCached>) {
    item.Some? && item.value.prefix.Some?
  }

  function CachedFromWire(item: Option<WireCached>): PrefixFingerprint
    requires CachedPresent(item)
  {
    PrefixFingerprint(item.value.prefix.value.tokenCount, item.value.prefix.value.sha256)
  }

  function WireCachedList(ps: seq<PrefixFingerprint>): (r: seq<Option<WireCached>>)
    ensures |r| == |ps|
  {
    seq(|ps|, i requires 0 <= i < |ps| => CachedToWire(ps[i]))
  }

  /** All entries, or an error when any of them is nil. */
  function DomainCachedList(ws: seq<Option<WireCached>>): Result<seq<PrefixFingerprint>, ConvertError> {
    if forall i | 0 <= i < |ws| :: CachedPresent(ws[i]) then
      Ok(seq(|ws|, i requires 0 <= i < |ws| => CachedFromWire(ws[i])))
    else
      Err(InvalidCachedPrefix)
  }

  method CachedFromProto(items: seq<Option<WireCached>>) returns (r: Result<seq<PrefixFingerprint>, ConvertError>)
    ensures r == DomainCachedList(items)
  {
    var cached: seq<PrefixFingerprint> := [];
    for i := 0 to |items|
      invariant |cached| == i
      invariant forall j | 0 <= j < i :: CachedPresent(items[j]) && cached[j] == CachedFromWire(items[j])
    {
      if !CachedPresent(items[i]) {
        return Err(InvalidCachedPrefix);
      }
      cached := cached + [CachedFromWire(items[i])];
    }
    assert cached == DomainCachedList(items).value;
    return Ok(cached);
  }

  function StateToProto(s: WorkerState): WireState {
    WireState(s.statusVersion, StatusToProto(s.status), s.waitingRequestCount, s.waitingTokenCount,
              s.runningRequestCount, s.runningWorkTokens,
              Some(WireKV(s.kvUsage.capacityTokens, s.kvUsage.usedTokens)),
              s.prefillTokensPerSecond, s.decodeTokensPerSecond, s.decodeSchedulingQuantumTokens,
              WireCachedList(s.cachedPrefixes), Some(ToStamp(s.observedAt)))
  }

  function StateFromProto(w: Option<WireState>): Result<WorkerState, ConvertError> {
    if w.None? then Err(MissingState) else
    var s := w.value;
    match StatusFromProto(s.status)
    case Err(e) => Err(e)
    case Ok(status) =>
      match TimestampFromProto(s.observedAt)
      case Err(e) => Err(e)
      case Ok(observed) =>
        match DomainCachedList(s.cachedPrefixes)
        case Err(e) => Err(e)
        case Ok(cached) =>
          var kv := match s.kvUsage case None => KVUsage(0, 0) case Some(u) => KVUsage(u.capacityTokens, u.usedTokens);
          Ok(WorkerState(s.statusVersion, status, s.waitingRequestCount, s.waitingTokenCount,
                         s.runningRequestCount, s.runningWorkTokens, kv, s.prefillTokensPerSecond,
                         s.decodeTokensPerSecond, s.decodeSchedulingQuantumTokens, cached, observed))
  }

  /** A state survives the wire exactly when its status is one of the three constants
      and its observation time is representable. */
  lemma StateRoundTrip(s: WorkerState)
    ensures StateFromProto(Some(StateToProto(s))) == Ok(s) <==> !s.status.OtherStatus? && Representable(s.observedAt)
  {
    StampRoundTrip(s.observedAt);
    var wire := WireCachedList(s.cachedPrefixes);
    assert forall i | 0 <= i < |wire| :: CachedPresent(wire[i]) && CachedFromWire(wire[i]) == s.cachedPrefixes[i];
    assert DomainCachedList(wire).value == s.cachedPrefixes;
  }

  // ---- Chunks ------------------------------------------------------------

  function ChunkToProto(c: Chunk): WireChunk {
    WireChunk(PROTOCOL_VERSION, c.requestId, c.attemptId, c.workerId, c.tokenIndex, c.tokenText, c.final,
              if c.final then FinishToProto(c.reason) else FinishUnspecified, Some(ToStamp(c.at)))
  }

  /** `now` is the clock reading used when the worker sent no timestamp. */
  function ChunkFromProto(w: Option<WireChunk>, now: Time): Result<Chunk, ConvertError> {
    if w.None? then Err(MissingChunk) else
    var c := w.value;
    if c.protocolVersion != PROTOCOL_VERSION then Err(ProtocolMismatch)
    else if c.workerTimestamp.Some? && !StampValid(c.workerTimestamp.value) then Err(InvalidTimestamp)
    else
      var at := if c.workerTimestamp.Some? then AsTime(c.workerTimestamp.value) else now;
      if c.final then
        match FinishFromProto(c.finishReason)
        case Err(e) => Err(e)
        case Ok(reason) => Ok(Chunk(c.requestId, c.attemptId, c.workerId, c.tokenIndex, c.tokenText, true, reason, at))
      else if c.finishReason != FinishUnspecified then Err(ReasonOnToken)
      else Ok(Chunk(c.requestId, c.attemptId, c.workerId, c.tokenIndex, c.tokenText, false, NoReason, at))
  }

  /** A chunk survives the wire exactly when a finish reason is present on final chunks only
      and its timestamp is representable. */
  lemma ChunkRoundTrip(c: Chunk, now: Time)
    ensures ChunkFromProto(Some(ChunkToProto(c)), now) == Ok(c)
            <==> (c.final <==> c.reason != NoReason) && Representable(c.at)
  {
  }

  // ---- Requests ----------------------------------------------------------

  datatype WireRequest = WireRequest(
    protocolVersion: string,
    requestId: string,
    attemptId: string,
    workerId: string,
    model: string,
    estimatedInputTokens: uint64,
    maxOutputTokens: uint64,
    prefixFingerprints: seq<Option<WirePrefix>>)

  function RequestToProto(r: Request, workerId: string): WireRequest {
    WireRequest(PROTOCOL_VERSION, r.id, r.attemptId, workerId, r.model, r.estimatedInputTokens, r.maxOutputTokens,
                WirePrefixes(r.prefixFingerprints))
  }
}
