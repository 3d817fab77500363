/** The mock worker: load counters, prefix cache, chunk production and state reports
    (internal/mockworker/worker.go). Waiting and sending are steps that complete or are cut off. */
module MockWorker {
  import opened Model
  import opened WorkerCache
  import Convert
  import WorkerQueue

  datatype Config = Config(
    id: string,
    model: string,
    prefillRate: real,
    decodeRate: real,
    quantum: uint32,
    cacheCapacity: uint64,
    cacheLimit: nat,
    failBeforeFirst: nat,
    failAfterTokens: nat)

  /** What `WorkerConfig.Validate` demands. */
  predicate ConfigOk(c: Config) {
    c.prefillRate > 0.0 && c.decodeRate > 0.0 && c.quantum > 0 && c.cacheLimit > 0 && c.cacheCapacity > 0
  }

  // ---- The chunk script --------------------------------------------------

  /** What a job puts on its result channel: a token, an error status, or the final chunk. */
  datatype Result = TokenResult(chunk: Chunk) | ErrorResult | FinalResult(chunk: Chunk)

  /** `digest` gives the hexadecimal digits derived from seed, request ID and index; `clock` the time
      at which the i-th chunk is made. */
  datatype Source = Source(digest: (string, nat) -> string, clock: nat -> Time)

  function Outputs(r: Convert.WireRequest): nat {
    if r.maxOutputTokens > 8 then 8 else r.maxOutputTokens
  }

  /** Tokens produced before the end or the injected failure. */
  function Produced(c: Config, r: Convert.WireRequest): (n: nat)
    ensures n <= 8
  {
    if 0 < c.failAfterTokens < Outputs(r) then c.failAfterTokens else Outputs(r)
  }

  function TokenChunk(c: Config, r: Convert.WireRequest, src: Source, i: nat): Chunk {
    Chunk(r.requestId, r.attemptId, c.id, Wrap32(i), "mock-" + src.digest(r.requestId, i), false, NoReason,
          src.clock(i))
  }

  function FinalChunk(c: Config, r: Convert.WireRequest, src: Source): Chunk {
    var n := Outputs(r);
    Chunk(r.requestId, r.attemptId, c.id, Wrap32(n), "", true,
          if n == r.maxOutputTokens then FinishLength else FinishStop, src.clock(n))
  }

  function TokenResults(c: Config, r: Convert.WireRequest, src: Source, n: nat): (rs: seq<Result>)
    ensures |rs| == n && forall i | 0 <= i < n :: rs[i] == TokenResult(TokenChunk(c, r, src, i))
  {
    seq(n, i requires 0 <= i < n => TokenResult(TokenChunk(c, r, src, i)))
  }

  /** Everything a job sends when nothing cuts it off. */
  function Script(c: Config, r: Convert.WireRequest, src: Source, failBefore: bool): seq<Result> {
    if failBefore then [ErrorResult]
    else
      var n := Produced(c, r);
      TokenResults(c, r, src, n) + [if n < Outputs(r) then ErrorResult else FinalResult(FinalChunk(c, r, src))]
  }

  // ---- Cache representation ----------------------------------------------

  predicate CacheConsistent(cache: map<string, PrefixFingerprint>, order: seq<string>) {
    && (forall i | 0 <= i < |order| :: order[i] in cache && cache[order[i]].sha256 == order[i])
    && (forall i, j | 0 <= i < j < |order| :: order[i] != order[j])
    && (forall key | key in cache :: key in order)
  }

  function EntriesOf(cache: map<string, PrefixFingerprint>, order: seq<string>): (es: seq<PrefixFingerprint>)
    requires forall i | 0 <= i < |order| :: order[i] in cache
    ensures |es| == |order| && forall i | 0 <= i < |order| :: es[i] == cache[order[i]]
  {
    seq(|order|, i requires 0 <= i < |order| => cache[order[i]])
  }

  lemma KeyLookup(cache: map<string, PrefixFingerprint>, order: seq<string>, key: string)
    requires CacheConsistent(cache, order)
    ensures key in cache <==> HasKey(EntriesOf(cache, order), key)
  {
  }

  lemma AppendEntry(cache: map<string, PrefixFingerprint>, order: seq<string>, f: PrefixFingerprint)
    requires CacheConsistent(cache, order) && f.sha256 !in cache
    ensures CacheConsistent(cache[f.sha256 := f], order + [f.sha256])
    ensures EntriesOf(cache[f.sha256 := f], order + [f.sha256]) == EntriesOf(cache, order) + [f]
  {
  }

  lemma DropEntry(cache: map<string, PrefixFingerprint>, order: seq<string>)
    requires CacheConsistent(cache, order) && order != []
    ensures CacheConsistent(cache - {order[0]}, order[1..])
    ensures EntriesOf(cache - {order[0]}, order[1..]) == EntriesOf(cache, order)[1..]
  {
  }

  // ---- What the worker does, as a function of its state ------------------

  /** The state the lock protects. */
  datatype Mock = Mock(state: WorkerState, entries: seq<PrefixFingerprint>)

  /** The counter updates of `Generate` and the dispatcher, the end of a job, and a report. */
  datatype Act =
    | Announce(work: uint64)
    | Withdraw(work: uint64)
    | Begin(work: uint64)
    | Finish(work: uint64)
    | Complete(fingerprints: seq<PrefixFingerprint>)
    | Report(now: Time)

  function CacheOf(m: Mock): Cache {
    Cache(m.entries, m.state.kvUsage.usedTokens)
  }

  /** The state with another number of used tokens. */
  function Using(s: WorkerState, used: uint64): WorkerState {
    s.(kvUsage := KVUsage(s.kvUsage.capacityTokens, used))
  }

  function WithCache(m: Mock, c: Cache): Mock {
    Mock(Using(m.state, c.used), c.entries)
  }

  /** The state a report carries. */
  function ReportOf(m: Mock, now: Time): WorkerState {
    m.state.(statusVersion := Wrap64(m.state.statusVersion + 1), observedAt := now, cachedPrefixes := m.entries)
  }

  function Acted(c: Config, m: Mock, a: Act): Mock {
    match a
    case Announce(work) => m.(state := WorkerQueue.AddWaiting(m.state, work))
    case Withdraw(work) => m.(state := WorkerQueue.RemoveWaiting(m.state, work))
    case Begin(work) => m.(state := WorkerQueue.MoveToRunning(m.state, work))
    case Finish(work) => m.(state := WorkerQueue.FinishRunning(m.state, work))
    case Complete(fs) => WithCache(m, PutAll(CacheOf(m), fs, c.cacheLimit, c.cacheCapacity))
    case Report(now) => m.(state := ReportOf(m, now))
  }

  /** What every worker keeps, whatever it does. */
  predicate MockOk(c: Config, m: Mock) {
    && ConfigOk(c)
    && m.state.kvUsage.capacityTokens == c.cacheCapacity && Bounded(CacheOf(m), c.cacheLimit, c.cacheCapacity)
    && m.state.status == Healthy && m.state.prefillTokensPerSecond == c.prefillRate
    && m.state.decodeTokensPerSecond == c.decodeRate && m.state.decodeSchedulingQuantumTokens == c.quantum
  }

  function NewMock(c: Config): Mock {
    Mock(WorkerState(0, Healthy, 0, 0, 0, 0, KVUsage(c.cacheCapacity, 0), c.prefillRate, c.decodeRate, c.quantum,
                     [], 0),
         [])
  }

  /** Fingerprints that count something and have a hash. */
  predicate Sound(fs: seq<PrefixFingerprint>) {
    forall f | f in fs :: f.tokenCount > 0 && f.sha256 != ""
  }

  lemma ActedOk(c: Config, m: Mock, a: Act)
    requires MockOk(c, m)
    ensures MockOk(c, Acted(c, m, a))
    ensures Acted(c, m, a).state.statusVersion ==
            if a.Report? then Wrap64(m.state.statusVersion + 1) else m.state.statusVersion
    ensures Sound(m.entries) && (a.Complete? ==> Sound(a.fingerprints)) ==> Sound(Acted(c, m, a).entries)
  {
    if a.Complete? {
      PutAllBounded(CacheOf(m), a.fingerprints, c.cacheLimit, c.cacheCapacity);
    }
  }

  // ---- The worker --------------------------------------------------------

  lemma PutCases(c: Config, entries: seq<PrefixFingerprint>, used: uint64, f: PrefixFingerprint)
    ensures Put(Cache(entries, used), f, c.cacheLimit, c.cacheCapacity) ==
            if HasKey(entries, f.sha256) then Cache(entries, used)
            else Shrunk(Cache(entries + [f], Wrap64(used + f.tokenCount)), c.cacheLimit, c.cacheCapacity)
  {
  }

  lemma PutOk(c: Config, m: Mock, v: Mock, f: PrefixFingerprint)
    requires MockOk(c, m) && v.state == Using(m.state, v.state.kvUsage.usedTokens)
    requires CacheOf(v) == Put(CacheOf(m), f, c.cacheLimit, c.cacheCapacity)
    ensures MockOk(c, v)
  {
    PutBounded(CacheOf(m), f, c.cacheLimit, c.cacheCapacity);
  }

  /** The worker after a sequence of acts. */
  function After(c: Config, m: Mock, acts: seq<Act>): Mock {
    if acts == [] then m else Acted(c, After(c, m, acts[..|acts| - 1]), acts[|acts| - 1])
  }

  class Worker {
    const config: Config
    var state: WorkerState
    var cache: map<string, PrefixFingerprint>
    var cacheOrder: seq<string>
    var failBeforeRemaining: nat

    ghost predicate Valid()
      reads this
    {
      CacheConsistent(cache, cacheOrder) && MockOk(config, View())
    }

    function Entries(): (es: seq<PrefixFingerprint>)
      requires CacheConsistent(cache, cacheOrder)
      reads this
    {
      EntriesOf(cache, cacheOrder)
    }

    function View(): Mock
      requires CacheConsistent(cache, cacheOrder)
      reads this
    {
      Mock(state, Entries())
    }

    constructor (config: Config)
      requires ConfigOk(config)
      ensures Valid() && this.config == config && View() == NewMock(config) && WorkerQueue.Fresh(state)
      ensures failBeforeRemaining == config.failBeforeFirst
    {
      this.config := config;
      state := WorkerState(0, Healthy, 0, 0, 0, 0, KVUsage(config.cacheCapacity, 0), config.prefillRate,
                           config.decodeRate, config.quantum, [], 0);
      cache := map[];
      cacheOrder := [];
      failBeforeRemaining := config.failBeforeFirst;
    }

    // Load counters

    method AddWaiting(work: uint64)
      requires Valid()
      modifies this`state
      ensures Valid() && state == WorkerQueue.AddWaiting(old(state), work)
      ensures View() == Acted(config, old(View()), Announce(work))
    {
      state := state.(waitingRequestCount := Wrap32(state.waitingRequestCount + 1));
      state := state.(waitingTokenCount := Wrap64(state.waitingTokenCount + work));
    }

    method RemoveWaiting(work: uint64)
      requires Valid()
      modifies this`state
      ensures Valid() && state == WorkerQueue.RemoveWaiting(old(state), work)
      ensures View() == Acted(config, old(View()), Withdraw(work))
    {
      if state.waitingRequestCount > 0 {
        state := state.(waitingRequestCount := state.waitingRequestCount - 1);
      }
      if state.waitingTokenCount >= work {
        state := state.(waitingTokenCount := state.waitingTokenCount - work);
      } else {
        state := state.(waitingTokenCount := 0);
      }
    }

    method MoveToRunning(work: uint64)
      requires Valid()
      modifies this`state
      ensures Valid() && state == WorkerQueue.MoveToRunning(old(state), work)
      ensures View() == Acted(config, old(View()), Begin(work))
    {
      if state.waitingRequestCount > 0 {
        state := state.(waitingRequestCount := state.waitingRequestCount - 1);
      }
      if state.waitingTokenCount >= work {
        state := state.(waitingTokenCount := state.waitingTokenCount - work);
      } else {
        state := state.(waitingTokenCount := 0);
      }
      state := state.(runningRequestCount := Wrap32(state.runningRequestCount + 1));
      state := state.(runningWorkTokens := Wrap64(state.runningWorkTokens + work));
    }

    method FinishRunning(work: uint64)
      requires Valid()
      modifies this`state
      ensures Valid() && state == WorkerQueue.FinishRunning(old(state), work)
      ensures View() == Acted(config, old(View()), Finish(work))
    {
      if state.runningRequestCount > 0 {
        state := state.(runningRequestCount := state.runningRequestCount - 1);
      }
      if state.runningWorkTokens >= work {
        state := state.(runningWorkTokens := state.runningWorkTokens - work);
      } else {
        state := state.(runningWorkTokens := 0);
      }
    }

    // Prefix cache

    method AddPrefixes(prefixes: seq<PrefixFingerprint>)
      requires Valid()
      modifies this`state, this`cache, this`cacheOrder
      ensures Valid() && View() == Acted(config, old(View()), Complete(prefixes))
      ensures old(Sound(Entries())) && Sound(prefixes) ==> Sound(Entries())
    {
      for i := 0 to |prefixes|
        invariant Valid() && View() == Acted(config, old(View()), Complete(prefixes[..i]))
      {
        assert prefixes[..i + 1][..i] == prefixes[..i];
        ghost var m := View();
        AddPrefix(prefixes[i]);
        PutOk(config, m, View(), prefixes[i]);
      }
      assert prefixes[..|prefixes|] == prefixes;
      ActedOk(config, old(View()), Complete(prefixes));
    }

    method AddPrefix(f: PrefixFingerprint)
      requires CacheConsistent(cache, cacheOrder) && state.kvUsage.capacityTokens == config.cacheCapacity
      modifies this`state, this`cache, this`cacheOrder
      ensures CacheConsistent(cache, cacheOrder)
      ensures CacheOf(View()) == Put(old(CacheOf(View())), f, config.cacheLimit, config.cacheCapacity)
      ensures state == Using(old(state), state.kvUsage.usedTokens)
    {
      KeyLookup(cache, cacheOrder, f.sha256);
      PutCases(config, Entries(), state.kvUsage.usedTokens, f);
      if f.sha256 in cache {
        return;
      }
      Append(f);
      EvictExcess();
    }

    method Append(f: PrefixFingerprint)
      requires CacheConsistent(cache, cacheOrder) && f.sha256 !in cache
      modifies this`state, this`cache, this`cacheOrder
      ensures CacheConsistent(cache, cacheOrder)
      ensures CacheOf(View()) == Cache(old(Entries()) + [f], Wrap64(old(state.kvUsage.usedTokens) + f.tokenCount))
      ensures state == Using(old(state), state.kvUsage.usedTokens)
    {
      AppendEntry(cache, cacheOrder, f);
      cache := cache[f.sha256 := f];
      cacheOrder := cacheOrder + [f.sha256];
      SetUsed(Wrap64(state.kvUsage.usedTokens + f.tokenCount));
    }

    method SetUsed(used: uint64)
      modifies this`state
      ensures state == Using(old(state), used)
    {
      state := state.(kvUsage := KVUsage(state.kvUsage.capacityTokens, used));
    }

    method EvictExcess()
      requires CacheConsistent(cache, cacheOrder) && state.kvUsage.capacityTokens == config.cacheCapacity
      modifies this`state, this`cache, this`cacheOrder
      ensures CacheConsistent(cache, cacheOrder)
      ensures CacheOf(View()) == Shrunk(old(CacheOf(View())), config.cacheLimit, config.cacheCapacity)
      ensures state == Using(old(state), state.kvUsage.usedTokens)
    {
      while (|cacheOrder| > config.cacheLimit || state.kvUsage.usedTokens > state.kvUsage.capacityTokens)
            && |cacheOrder| > 0
        invariant CacheConsistent(cache, cacheOrder)
        invariant state == Using(old(state), state.kvUsage.usedTokens)
        invariant Shrunk(CacheOf(View()), config.cacheLimit, config.cacheCapacity)
                  == Shrunk(old(CacheOf(View())), config.cacheLimit, config.cacheCapacity)
        decreases |cacheOrder|
      {
        EvictOldest();
      }
    }

    method EvictOldest()
      requires CacheConsistent(cache, cacheOrder) && cacheOrder != []
      modifies this`state, this`cache, this`cacheOrder
      ensures CacheConsistent(cache, cacheOrder)
      ensures CacheOf(View()) == WithoutOldest(old(CacheOf(View()))) && |cacheOrder| == |old(cacheOrder)| - 1
      ensures state == Using(old(state), state.kvUsage.usedTokens)
    {
      var evicted := cacheOrder[0];
      DropEntry(cache, cacheOrder);
      cacheOrder := cacheOrder[1..];
      var dropped := cache[evicted];
      cache := cache - {evicted};
      assert Entries() == old(Entries())[1..];
      if state.kvUsage.usedTokens >= dropped.tokenCount {
        SetUsed(state.kvUsage.usedTokens - dropped.tokenCount);
      } else {
        SetUsed(0);
      }
    }

    // Chunk production

    /** Runs a job. `oracle[i]` says whether the i-th wait or send completes; past its end they do. */
    method RunJob(r: Convert.WireRequest, src: Source, oracle: seq<bool>) returns (sent: seq<Result>)
      requires Valid()
      modifies this`state, this`cache, this`cacheOrder, this`failBeforeRemaining
      ensures Valid()
      ensures sent <= Script(config, r, src, old(failBeforeRemaining) > 0)
      ensures AllTrue(oracle) ==> sent == Script(config, r, src, old(failBeforeRemaining) > 0)
      ensures failBeforeRemaining == if Completes(oracle, 0) && old(failBeforeRemaining) > 0
                                     then old(failBeforeRemaining) - 1 else old(failBeforeRemaining)
      ensures View() == if Completes(oracle, 0) && old(failBeforeRemaining) == 0 && |sent| >= Outputs(r)
                           && Produced(config, r) == Outputs(r)
                        then Acted(config, old(View()), Complete(Convert.DomainPrefixes(r.prefixFingerprints)))
                        else old(View())
    {
      sent := [];
      if !Completes(oracle, 0) {
        return;
      }
      if failBeforeRemaining > 0 {
        failBeforeRemaining := failBeforeRemaining - 1;
        if Completes(oracle, 1) {
          sent := [ErrorResult];
        }
        return;
      }
      var outputs: nat := r.maxOutputTokens;
      if outputs > 8 {
        outputs := 8;
      }
      var index: nat := 0;
      while index < outputs
        invariant index <= Produced(config, r) && outputs == Outputs(r)
        invariant sent == TokenResults(config, r, src, index)
        invariant Valid() && View() == old(View()) && failBeforeRemaining == 0
      {
        if config.failAfterTokens > 0 && index >= config.failAfterTokens {
          if Completes(oracle, 1 + 2 * index) {
            sent := sent + [ErrorResult];
          }
          return;
        }
        if !Completes(oracle, 1 + 2 * index) || !Completes(oracle, 2 + 2 * index) {
          return;
        }
        sent := sent + [TokenResult(TokenChunk(config, r, src, index))];
        index := index + 1;
      }
      var prefixes := Convert.PrefixesFromProto(r.prefixFingerprints);
      AddPrefixes(prefixes);
      if Completes(oracle, 1 + 2 * outputs) {
        sent := sent + [FinalResult(FinalChunk(config, r, src))];
      }
    }

    // Reports

    method NextState(now: Time) returns (report: WorkerState)
      requires Valid()
      modifies this`state
      ensures Valid() && View() == Acted(config, old(View()), Report(now))
      ensures report == ReportOf(old(View()), now) == state
    {
      state := state.(statusVersion := Wrap64(state.statusVersion + 1));
      state := state.(observedAt := now);
      var cached: seq<PrefixFingerprint> := [];
      for i := 0 to |cacheOrder|
        invariant |cached| == i && forall j | 0 <= j < i :: cached[j] == Entries()[j]
      {
        cached := cached + [cache[cacheOrder[i]]];
      }
      assert cached == Entries();
      state := state.(cachedPrefixes := cached);
      report := state;
    }
  }

  predicate Completes(oracle: seq<bool>, i: nat) {
    i >= |oracle| || oracle[i]
  }

  predicate AllTrue(oracle: seq<bool>) {
    forall i | 0 <= i < |oracle| :: oracle[i]
  }
}
