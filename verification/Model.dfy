/** Domain values shared by the router packages (internal/model/model.go). */
module Model {

  const PROTOCOL_VERSION := "1.0"
  const U32: int := 0x1_0000_0000
  const U64: int := 0x1_0000_0000_0000_0000

  type uint32 = n: int | 0 <= n < U32
  type uint64 = n: int | 0 <= n < U64

  /** An instant or a duration in nanoseconds. */
  type Time = int

  datatype Option<+T> = None | Some(value: T)

  datatype Result<+T, +E> = Ok(value: T) | Err(error: E)

  /** Unsigned 32-bit arithmetic wraps around. */
  function Wrap32(n: nat): uint32 {
    n % U32
  }

  /** Unsigned 64-bit arithmetic wraps around. */
  function Wrap64(n: nat): uint64 {
    n % U64
  }

  datatype Message = Message(role: string, content: string)

  datatype PrefixFingerprint = PrefixFingerprint(tokenCount: uint32, sha256: string)

  /** `OtherStatus` stands for any string outside the three constants. */
  datatype WorkerStatus = Healthy | Draining | Unhealthy | OtherStatus(text: string)

  datatype KVUsage = KVUsage(capacityTokens: uint64, usedTokens: uint64)

  datatype WorkerState = WorkerState(
    statusVersion: uint64,
    status: WorkerStatus,
    waitingRequestCount: uint32,
    waitingTokenCount: uint64,
    runningRequestCount: uint32,
    runningWorkTokens: uint64,
    kvUsage: KVUsage,
    prefillTokensPerSecond: real,
    decodeTokensPerSecond: real,
    decodeSchedulingQuantumTokens: uint32,
    cachedPrefixes: seq<PrefixFingerprint>,
    observedAt: Time)

  datatype Worker = Worker(
    id: string,
    dataAddress: string,
    model: string,
    protocolVersion: string,
    state: WorkerState,
    lastHeartbeat: Time,
    stale: bool)

  datatype Request = Request(
    id: string,
    attemptId: string,
    tenantId: string,
    model: string,
    messages: seq<Message>,
    estimatedInputTokens: uint64,
    maxOutputTokens: uint64,
    prefixFingerprints: seq<PrefixFingerprint>)

  /** `NoReason` is Go's zero value, carried by every non-final chunk. */
  datatype FinishReason = FinishStop | FinishLength | FinishCancelled | FinishError | NoReason

  datatype Chunk = Chunk(
    requestId: string,
    attemptId: string,
    workerId: string,
    tokenIndex: uint32,
    tokenText: string,
    final: bool,
    reason: FinishReason,
    at: Time)
}
