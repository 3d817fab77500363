/** Worker registrations and heartbeats (internal/registry/registry.go). */
module Registry {
  import opened Model
  import opened Ordering

  datatype RegistryError =
    | MissingIdentity
    | UnsupportedProtocol
    | VersionNotPositive
    | InvalidStatus
    | InvalidKvUsage
    | RatesNotPositive
    | QuantumNotPositive
    | InvalidCachedPrefix
    | UnknownWorker
    | StateVersionRegression

  function ValidateState(s: WorkerState): Option<RegistryError> {
    if s.statusVersion == 0 then Some(VersionNotPositive)
    else if s.status.OtherStatus? then Some(InvalidStatus)
    else if s.kvUsage.capacityTokens == 0 || s.kvUsage.usedTokens > s.kvUsage.capacityTokens then Some(InvalidKvUsage)
    else if s.prefillTokensPerSecond <= 0.0 || s.decodeTokensPerSecond <= 0.0 then Some(RatesNotPositive)
    else if s.decodeSchedulingQuantumTokens == 0 then Some(QuantumNotPositive)
    else if exists f | f in s.cachedPrefixes :: f.tokenCount == 0 || f.sha256 == "" then Some(InvalidCachedPrefix)
    else None
  }

  function Validate(w: Worker): Option<RegistryError> {
    if w.id == "" || w.dataAddress == "" || w.model == "" then Some(MissingIdentity)
    else if w.protocolVersion != PROTOCOL_VERSION then Some(UnsupportedProtocol)
    else ValidateState(w.state)
  }

  type Workers = map<string, Worker>

  datatype Op =
    | RegisterOp(worker: Worker, now: Time)
    | HeartbeatOp(id: string, state: WorkerState, now: Time)

  function Reject(op: Op, ws: Workers): Option<RegistryError> {
    match op
    case RegisterOp(w, _) => Validate(w)
    case HeartbeatOp(id, state, _) =>
      if ValidateState(state).Some? then ValidateState(state)
      else if id !in ws then Some(UnknownWorker)
      else if state.statusVersion <= ws[id].state.statusVersion then Some(StateVersionRegression)
      else None
  }

  function Apply(op: Op, ws: Workers): Workers {
    if Reject(op, ws).Some? then ws else
    match op
    case RegisterOp(w, now) => ws[w.id := w.(lastHeartbeat := now, stale := false)]
    case HeartbeatOp(id, state, now) => ws[id := ws[id].(state := state, lastHeartbeat := now, stale := false)]
  }

  function Run(ops: seq<Op>, ws: Workers): Workers {
    if ops == [] then ws else Apply(ops[|ops| - 1], Run(ops[..|ops| - 1], ws))
  }

  predicate IsStale(w: Worker, now: Time, staleAfter: Time) {
    now - w.lastHeartbeat > staleAfter
  }

  function Aged(w: Worker, now: Time, staleAfter: Time): Worker {
    w.(stale := IsStale(w, now, staleAfter))
  }

  /** The list a snapshot returns: the registered workers, each once, by increasing ID. */
  ghost predicate IsSnapshot(snapshot: seq<Worker>, ws: Workers, now: Time, staleAfter: Time) {
    && StrictlySorted(snapshot)
    && (forall id | id in ws :: Aged(ws[id], now, staleAfter) in snapshot)
    && (forall w | w in snapshot :: w.id in ws && w == Aged(ws[w.id], now, staleAfter))
  }

  predicate FreshAndHealthy(w: Worker, now: Time, staleAfter: Time) {
    !IsStale(w, now, staleAfter) && w.state.status == Healthy
  }

  ghost predicate ValidWorkers(ws: Workers) {
    forall id | id in ws :: ws[id].id == id && Validate(ws[id]).None?
  }

  predicate CountsFor(w: Worker, id: string) {
    w.id == id && !w.stale && w.state.status == Healthy
  }

  lemma CountedAll(snapshot: seq<Worker>, counted: set<string>, ws: Workers, now: Time, staleAfter: Time)
    requires IsSnapshot(snapshot, ws, now, staleAfter) && ValidWorkers(ws)
    requires forall id :: id in counted <==> exists j :: 0 <= j < |snapshot| && CountsFor(snapshot[j], id)
    ensures counted == set id | id in ws && FreshAndHealthy(ws[id], now, staleAfter)
  {
  }

  class Registry {
    var workers: Workers
    const staleAfter: Time

    /** `New` refuses a non-positive timeout before constructing anything. */
    constructor (staleAfter: Time)
      requires staleAfter > 0
      ensures workers == map[] && this.staleAfter == staleAfter
      ensures ValidWorkers(workers)
    {
      workers := map[];
      this.staleAfter := staleAfter;
    }

    method Register(worker: Worker, now: Time) returns (error: Option<RegistryError>)
      modifies this`workers
      ensures error == Reject(RegisterOp(worker, now), old(workers))
      ensures workers == Apply(RegisterOp(worker, now), old(workers))
      ensures old(ValidWorkers(workers)) ==> ValidWorkers(workers)
    {
      error := Validate(worker);
      if error.Some? {
        return;
      }
      workers := workers[worker.id := worker.(lastHeartbeat := now, stale := false)];
    }

    method Heartbeat(id: string, state: WorkerState, now: Time) returns (error: Option<RegistryError>)
      modifies this`workers
      ensures error == Reject(HeartbeatOp(id, state, now), old(workers))
      ensures workers == Apply(HeartbeatOp(id, state, now), old(workers))
      ensures old(ValidWorkers(workers)) ==> ValidWorkers(workers)
    {
      error := ValidateState(state);
      if error.Some? {
        return;
      }
      if id !in workers {
        return Some(UnknownWorker);
      }
      var worker := workers[id];
      if state.statusVersion <= worker.state.statusVersion {
        return Some(StateVersionRegression);
      }
      worker := worker.(state := state);
      worker := worker.(lastHeartbeat := now);
      worker := worker.(stale := false);
      workers := workers[id := worker];
      error := None;
    }

    /** Go iterates over the map in an arbitrary order; sorting makes the result unique. */
    method Snapshot(now: Time) returns (snapshot: seq<Worker>)
      requires ValidWorkers(workers)
      ensures IsSnapshot(snapshot, workers, now, staleAfter)
    {
      var found: seq<Worker> := [];
      var rest := workers.Keys;
      while rest != {}
        invariant rest <= workers.Keys
        invariant DistinctIds(found)
        invariant forall id | id in workers && id !in rest :: Aged(workers[id], now, staleAfter) in found
        invariant forall i | 0 <= i < |found| ::
                    && found[i].id in workers && found[i].id !in rest
                    && found[i] == Aged(workers[found[i].id], now, staleAfter)
        decreases rest
      {
        var id :| id in rest;
        rest := rest - {id};
        found := found + [Aged(workers[id], now, staleAfter)];
      }
      snapshot := SortById(found);
      SortSorted(found);
      forall w ensures w in snapshot <==> w in found {
        SortMembers(found, w);
      }
    }

    method HealthyCount(now: Time) returns (count: nat)
      requires ValidWorkers(workers)
      ensures count == |set id | id in workers && FreshAndHealthy(workers[id], now, staleAfter)|
    {
      var snapshot := Snapshot(now);
      count := 0;
      ghost var counted: set<string> := {};
      for i := 0 to |snapshot|
        invariant count == |counted|
        invariant forall id :: id in counted <==> exists j :: 0 <= j < i && CountsFor(snapshot[j], id)
      {
        if !snapshot[i].stale && snapshot[i].state.status == Healthy {
          SortedIdsDiffer(snapshot, i);
          count := count + 1;
          counted := counted + {snapshot[i].id};
        }
      }
      CountedAll(snapshot, counted, workers, now, staleAfter);
    }
  }

  lemma SortedIdsDiffer(ws: seq<Worker>, i: nat)
    requires StrictlySorted(ws) && i < |ws|
    ensures forall j | 0 <= j < i :: ws[j].id != ws[i].id
  {
    LessTotal(ws[i].id, ws[i].id);
  }

  /** A snapshot is determined by the registry and the clock. */
  lemma SnapshotUnique(a: seq<Worker>, b: seq<Worker>, ws: Workers, now: Time, staleAfter: Time)
    requires IsSnapshot(a, ws, now, staleAfter) && IsSnapshot(b, ws, now, staleAfter) && ValidWorkers(ws)
    ensures a == b
  {
    SortedUnique(a, b);
  }

  lemma ApplyValid(op: Op, ws: Workers)
    requires ValidWorkers(ws)
    ensures ValidWorkers(Apply(op, ws))
  {
  }

  /** Every reachable registry holds validated workers under their own IDs. */
  lemma {:induction false} ReachableIsValid(ops: seq<Op>)
    ensures ValidWorkers(Run(ops, map[]))
  {
    if ops != [] {
      ReachableIsValid(ops[..|ops| - 1]);
      ApplyValid(ops[|ops| - 1], Run(ops[..|ops| - 1], map[]));
    }
  }

  function VersionOf(id: string, ws: Workers): nat {
    if id in ws then ws[id].state.statusVersion else 0
  }

  predicate Registers(op: Op, id: string) {
    op.RegisterOp? && op.worker.id == id
  }

  /** Between registrations of a worker, its stored version never goes down; it is the largest
      version any accepted heartbeat has carried, and the stored state is that heartbeat's. */
  lemma {:induction false} VersionsNeverRegress(ops: seq<Op>, ws: Workers, id: string)
    requires forall i | 0 <= i < |ops| :: !Registers(ops[i], id)
    ensures VersionOf(id, ws) <= VersionOf(id, Run(ops, ws))
    ensures id in Run(ops, ws) <==> id in ws
    ensures id in ws ==>
              || Run(ops, ws)[id] == ws[id]
              || exists i :: && 0 <= i < |ops| && ops[i].HeartbeatOp? && ops[i].id == id
                             && Run(ops, ws)[id].state == ops[i].state
    ensures id in ws ==>
              forall i
                | 0 <= i < |ops| && ops[i].HeartbeatOp? && ops[i].id == id && ValidateState(ops[i].state).None? ::
              ops[i].state.statusVersion <= VersionOf(id, Run(ops, ws))
  {
    if ops != [] {
      var n := |ops| - 1;
      VersionsNeverRegress(ops[..n], ws, id);
      assert forall i | 0 <= i < n :: ops[..n][i] == ops[i];
    }
  }

  /** The stored version of a worker goes back in exactly one way: by a valid registration of that worker
      with a lower version. */
  lemma RegressionsAreRegistrations(op: Op, ws: Workers, id: string)
    ensures VersionOf(id, Apply(op, ws)) < VersionOf(id, ws)
            <==> LowersVersion(op, ws, id)
  {
  }

  predicate LowersVersion(op: Op, ws: Workers, id: string) {
    Registers(op, id) && Validate(op.worker).None? && op.worker.state.statusVersion < VersionOf(id, ws)
  }

  /** The stored version goes back at call `k` of a run. */
  predicate GoesBack(ops: seq<Op>, ws: Workers, id: string, k: nat)
    requires k < |ops|
  {
    VersionOf(id, Run(ops[..k + 1], ws)) < VersionOf(id, Run(ops[..k], ws))
  }

  predicate LowersAt(ops: seq<Op>, ws: Workers, id: string, k: nat)
    requires k < |ops|
  {
    LowersVersion(ops[k], Run(ops[..k], ws), id)
  }

  /** Over a whole run of calls a worker's stored version never goes back if and only if no call of the run
      is a valid registration of that worker with a version lower than the one then stored. */
  lemma VersionsMonotoneIff(ops: seq<Op>, ws: Workers, id: string)
    ensures (forall k: nat | k < |ops| :: !GoesBack(ops, ws, id, k))
            <==> (forall k: nat | k < |ops| :: !LowersAt(ops, ws, id, k))
  {
    forall k: nat | k < |ops| ensures GoesBack(ops, ws, id, k) <==> LowersAt(ops, ws, id, k) {
      assert ops[..k + 1][..k] == ops[..k];
      RegressionsAreRegistrations(ops[k], Run(ops[..k], ws), id);
    }
  }
}
