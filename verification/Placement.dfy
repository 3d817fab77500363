/** Selection over registry snapshots (internal/gateway/http.go:290-302). */
module Placement {
  import opened Model
  import opened Ordering
  import opened Routing
  import opened RoutingProofs
  import Registry

  function FindWorker(ws: seq<Worker>, id: string): Option<Worker> {
    if ws == [] then None
    else if ws[0].id == id then Some(ws[0])
    else FindWorker(ws[1..], id)
  }

  /** The worker the gateway contacts: the first listed one with the selected ID. */
  function SelectWorker(policy: Policy, cursor: uint64, request: Request, ws: seq<Worker>,
                        excluded: set<string>): Option<Worker> {
    match Selected(policy, cursor, request, ws, excluded)
    case None => None
    case Some(w) => FindWorker(ws, w.id)
  }

  method Lookup(ws: seq<Worker>, id: string) returns (r: Option<Worker>)
    ensures r == FindWorker(ws, id)
  {
    for i := 0 to |ws|
      invariant FindWorker(ws, id) == FindWorker(ws[i..], id)
    {
      if ws[i].id == id {
        return Some(ws[i]);
      }
      assert ws[i..][1..] == ws[i + 1..];
    }
    return None;
  }

  lemma {:induction false} FindWorkerFinds(ws: seq<Worker>, w: Worker)
    requires w in ws
    ensures FindWorker(ws, w.id).Some? && FindWorker(ws, w.id).value.id == w.id
    ensures FindWorker(ws, w.id).value in ws
    ensures DistinctIds(ws) ==> FindWorker(ws, w.id) == Some(w)
  {
    if ws[0].id != w.id {
      FindWorkerFinds(ws[1..], w);
    }
  }

  /** The lookup after a successful selection never misses, never returns an excluded worker, and on
      a list with distinct IDs returns the very worker that was evaluated. */
  lemma LookupNeverMisses(policy: Policy, cursor: uint64, request: Request, ws: seq<Worker>, excluded: set<string>)
    ensures SelectWorker(policy, cursor, request, ws, excluded).Some?
            <==> Selected(policy, cursor, request, ws, excluded).Some?
    ensures var w := SelectWorker(policy, cursor, request, ws, excluded);
            w.Some? ==> w.value.id !in excluded && w.value in ws
    ensures DistinctIds(ws) ==>
              SelectWorker(policy, cursor, request, ws, excluded) == Selected(policy, cursor, request, ws, excluded)
  {
    SelectedIsEligible(policy, cursor, request, ws, excluded);
    var s := Selected(policy, cursor, request, ws, excluded);
    if s.Some? {
      FindWorkerFinds(ws, s.value);
    }
  }

  /** A validated worker can be turned down for four reasons only. */
  lemma RegisteredRejections(policy: Policy, request: Request, w: Worker, excluded: set<string>)
    requires Registry.Validate(w).None?
    ensures Ineligibility(policy, request, w, excluded)
            == if w.id in excluded then Some(ExcludedAttemptWorker)
               else if w.stale then Some(StaleHeartbeat)
               else if w.model != request.model then Some(IncompatibleWorker)
               else if w.state.status != Healthy then Some(UnhealthyWorker)
               else None
  {
  }

  ghost predicate Serves(w: Worker, request: Request, excluded: set<string>, now: Time, staleAfter: Time) {
    w.id !in excluded && Registry.FreshAndHealthy(w, now, staleAfter) && w.model == request.model
  }

  lemma SortedDistinct(ws: seq<Worker>)
    requires StrictlySorted(ws)
    ensures DistinctIds(ws)
  {
    forall i, j | 0 <= i < j < |ws| ensures ws[i].id != ws[j].id {
      LessTotal(ws[i].id, ws[j].id);
    }
  }

  lemma SnapshotEligible(policy: Policy, request: Request, excluded: set<string>, ws: Registry.Workers,
                         snapshot: seq<Worker>, now: Time, staleAfter: Time, w: Worker)
    requires Registry.ValidWorkers(ws) && Registry.IsSnapshot(snapshot, ws, now, staleAfter) && w in snapshot
    ensures Eligible(policy, request, w, excluded) <==> Serves(ws[w.id], request, excluded, now, staleAfter)
  {
  }

  ghost predicate SomeEligible(policy: Policy, request: Request, excluded: set<string>, ws: seq<Worker>) {
    exists w :: w in ws && Eligible(policy, request, w, excluded)
  }

  ghost predicate SomeServes(ws: Registry.Workers, request: Request, excluded: set<string>, now: Time,
                             staleAfter: Time) {
    exists id :: id in ws && Serves(ws[id], request, excluded, now, staleAfter)
  }

  ghost predicate EligibleAmong(picked: Worker, policy: Policy, request: Request, excluded: set<string>,
                                ws: seq<Worker>) {
    picked in ws && Eligible(policy, request, picked, excluded)
  }

  lemma EligibleExistsIffServing(policy: Policy, request: Request, excluded: set<string>, ws: Registry.Workers,
                                 snapshot: seq<Worker>, now: Time, staleAfter: Time)
    requires Registry.ValidWorkers(ws) && Registry.IsSnapshot(snapshot, ws, now, staleAfter)
    ensures SomeEligible(policy, request, excluded, snapshot) <==> SomeServes(ws, request, excluded, now, staleAfter)
  {
  }

  lemma PickedIsEligible(policy: Policy, cursor: uint64, request: Request, snapshot: seq<Worker>, excluded: set<string>)
    returns (picked: Option<Worker>)
    requires DistinctIds(snapshot)
    ensures picked == SelectWorker(policy, cursor, request, snapshot, excluded)
    ensures picked.Some? <==> SomeEligible(policy, request, excluded, snapshot)
    ensures picked.Some? ==> EligibleAmong(picked.value, policy, request, excluded, snapshot)
  {
    LookupNeverMisses(policy, cursor, request, snapshot, excluded);
    SelectedIsEligible(policy, cursor, request, snapshot, excluded);
    picked := SelectWorker(policy, cursor, request, snapshot, excluded);
  }

  /** Over the snapshot of any reachable registry, under every policy, the gateway finds a worker
      exactly when some registered worker is fresh, healthy, of the request's model and not excluded;
      the worker it finds is one of those. */
  lemma SelectionIffServing(policy: Policy, cursor: uint64, request: Request, excluded: set<string>,
                            ops: seq<Registry.Op>, snapshot: seq<Worker>, now: Time, staleAfter: Time)
    returns (picked: Option<Worker>)
    requires Registry.IsSnapshot(snapshot, Registry.Run(ops, map[]), now, staleAfter)
    ensures picked == SelectWorker(policy, cursor, request, snapshot, excluded)
    ensures picked.Some? <==> SomeServes(Registry.Run(ops, map[]), request, excluded, now, staleAfter)
    ensures picked.Some? ==>
              var ws := Registry.Run(ops, map[]);
              picked.value.id in ws && Serves(ws[picked.value.id], request, excluded, now, staleAfter)
  {
    var ws := Registry.Run(ops, map[]);
    Registry.ReachableIsValid(ops);
    SortedDistinct(snapshot);
    picked := PickedIsEligible(policy, cursor, request, snapshot, excluded);
    EligibleExistsIffServing(policy, request, excluded, ws, snapshot, now, staleAfter);
    if picked.Some? {
      SnapshotEligible(policy, request, excluded, ws, snapshot, now, staleAfter, picked.value);
    }
  }
}
