/** What the routing policies guarantee: eligibility, determinism, fairness. */
module RoutingProofs {
  import opened Model
  import opened Ordering
  import opened Routing
  import Prefix

  // ---- Eligibility -------------------------------------------------------

  /** `Select` succeeds exactly when some worker is eligible, and picks an eligible one. */
  lemma SelectedIsEligible(policy: Policy, cursor: uint64, request: Request, workers: seq<Worker>,
                           excluded: set<string>)
    ensures Selected(policy, cursor, request, workers, excluded).Some?
            <==> exists w :: w in workers && Eligible(policy, request, w, excluded)
    ensures var s := Selected(policy, cursor, request, workers, excluded);
            s.Some? ==> s.value in workers && Eligible(policy, request, s.value, excluded) && s.value.id !in excluded
  {
    var sorted := SortById(workers);
    var eligible := EligibleWorkers(policy, request, sorted, excluded);
    forall w ensures w in sorted <==> w in workers {
      SortMembers(workers, w);
    }
    if w :| w in workers && Eligible(policy, request, w, excluded) {
      assert w in eligible;
    }
    if eligible != [] {
      assert eligible[0] in eligible;
      assert eligible[Choose(policy, cursor, Scored(policy, request, eligible))] in eligible;
    }
  }

  function WorkerIds(ws: seq<Worker>): seq<string> {
    seq(|ws|, i requires 0 <= i < |ws| => ws[i].id)
  }

  function TraceIds(es: seq<Evaluation>): seq<string> {
    seq(|es|, i requires 0 <= i < |es| => es[i].workerId)
  }

  lemma IdsCons(w: Worker, ws: seq<Worker>)
    ensures WorkerIds([w] + ws) == [w.id] + WorkerIds(ws)
    ensures multiset(WorkerIds([w] + ws)) == multiset{w.id} + multiset(WorkerIds(ws))
  {
  }

  lemma {:induction false} InsertIds(w: Worker, ws: seq<Worker>)
    ensures multiset(WorkerIds(Insert(w, ws))) == multiset(WorkerIds(ws)) + multiset{w.id}
  {
    if ws == [] || Less(w.id, ws[0].id) {
      assert [w] + ws == Insert(w, ws);
      IdsCons(w, ws);
    } else {
      InsertIds(w, ws[1..]);
      IdsCons(ws[0], Insert(w, ws[1..]));
      IdsCons(ws[0], ws[1..]);
      assert ws == [ws[0]] + ws[1..];
    }
  }

  lemma {:induction false} SortIds(ws: seq<Worker>)
    ensures multiset(WorkerIds(SortById(ws))) == multiset(WorkerIds(ws))
  {
    if ws != [] {
      SortIds(ws[1..]);
      InsertIds(ws[0], SortById(ws[1..]));
      IdsCons(ws[0], ws[1..]);
      assert ws == [ws[0]] + ws[1..];
    }
  }

  lemma WorkerIdsSnoc(ws: seq<Worker>, w: Worker)
    ensures multiset(WorkerIds(ws + [w])) == multiset(WorkerIds(ws)) + multiset{w.id}
  {
    assert WorkerIds(ws + [w]) == WorkerIds(ws) + [w.id];
  }

  lemma TraceIdsSnoc(es: seq<Evaluation>, e: Evaluation)
    ensures multiset(TraceIds(es + [e])) == multiset(TraceIds(es)) + multiset{e.workerId}
  {
    assert TraceIds(es + [e]) == TraceIds(es) + [e.workerId];
  }

  lemma PartitionStep(policy: Policy, request: Request, ws: seq<Worker>, w: Worker, excluded: set<string>)
    ensures multiset(TraceIds(Rejections(policy, request, ws + [w], excluded)))
            + multiset(WorkerIds(EligibleWorkers(policy, request, ws + [w], excluded)))
            == multiset(TraceIds(Rejections(policy, request, ws, excluded)))
               + multiset(WorkerIds(EligibleWorkers(policy, request, ws, excluded))) + multiset{w.id}
  {
    assert (ws + [w])[..|ws|] == ws;
    match Ineligibility(policy, request, w, excluded)
    case Some(reason) => TraceIdsSnoc(Rejections(policy, request, ws, excluded), Rejected(w, reason));
    case None => WorkerIdsSnoc(EligibleWorkers(policy, request, ws, excluded), w);
  }

  lemma {:induction false} PartitionIds(policy: Policy, request: Request, ws: seq<Worker>, excluded: set<string>)
    ensures multiset(TraceIds(Rejections(policy, request, ws, excluded)))
            + multiset(WorkerIds(EligibleWorkers(policy, request, ws, excluded))) == multiset(WorkerIds(ws))
  {
    if ws != [] {
      var front, last := ws[..|ws| - 1], ws[|ws| - 1];
      PartitionIds(policy, request, front, excluded);
      PartitionStep(policy, request, front, last, excluded);
      WorkerIdsSnoc(front, last);
      assert ws == front + [last];
    }
  }

  lemma EligibleTraceIds(policy: Policy, cursor: uint64, request: Request, eligible: seq<Worker>)
    requires eligible != []
    ensures var scored := Scored(policy, request, eligible);
            TraceIds(Traces(policy, scored, Choose(policy, cursor, scored))) == WorkerIds(eligible)
  {
  }

  lemma TraceIdsConcat(a: seq<Evaluation>, b: seq<Evaluation>)
    ensures TraceIds(a + b) == TraceIds(a) + TraceIds(b)
  {
  }

  /** The candidate trace lists every worker exactly as often as it was given. */
  lemma TraceCoversWorkers(policy: Policy, cursor: uint64, request: Request, workers: seq<Worker>,
                           excluded: set<string>)
    ensures multiset(TraceIds(Decide(policy, cursor, request, workers, excluded).candidates))
            == multiset(WorkerIds(workers))
  {
    var sorted := SortById(workers);
    var eligible := EligibleWorkers(policy, request, sorted, excluded);
    var rejected := Rejections(policy, request, sorted, excluded);
    SortIds(workers);
    PartitionIds(policy, request, sorted, excluded);
    if eligible == [] {
      assert WorkerIds(eligible) == [];
    } else {
      EligibleTraceIds(policy, cursor, request, eligible);
      var scored := Scored(policy, request, eligible);
      TraceIdsConcat(rejected, Traces(policy, scored, Choose(policy, cursor, scored)));
    }
  }

  /** Listing the same workers in another order changes nothing in the decision. */
  lemma DecisionIgnoresOrder(policy: Policy, cursor: uint64, request: Request, a: seq<Worker>, b: seq<Worker>,
                             excluded: set<string>)
    requires DistinctIds(a) && DistinctIds(b) && multiset(a) == multiset(b)
    ensures Decide(policy, cursor, request, a, excluded) == Decide(policy, cursor, request, b, excluded)
    ensures Selected(policy, cursor, request, a, excluded) == Selected(policy, cursor, request, b, excluded)
  {
    SortPermutation(a, b);
  }

  /** For a request carrying its own tokens' fingerprints, cached and uncached tokens add up to the
      estimate, whatever the worker reports. */
  lemma UncachedIsRemainder(hash: string -> string, tokens: seq<string>, request: Request, w: Worker)
    requires Prefix.Small(tokens)
    requires request.prefixFingerprints == Prefix.FingerprintList(hash, tokens)
    requires request.estimatedInputTokens == |tokens|
    ensures Evaluate(request, w).matchedTokens + Evaluate(request, w).uncachedPrefill == |tokens|
  {
    Prefix.MatchBounds(hash, tokens, w.state.cachedPrefixes);
  }

  // ---- Round robin -------------------------------------------------------

  /** Positions chosen by `k` successful selections among `n` eligible workers from a given cursor. */
  function Picks(cursor: nat, n: nat, k: nat): (r: seq<nat>)
    requires n > 0
    ensures |r| == k && forall i | 0 <= i < k :: r[i] < n
  {
    if k == 0 then [] else Picks(cursor, n, k - 1) + [(cursor + k - 1) % n]
  }

  function Times<T(==)>(picks: seq<T>, j: T): nat {
    if picks == [] then 0
    else Times(picks[..|picks| - 1], j) + if picks[|picks| - 1] == j then 1 else 0
  }

  /** How many of 0, 1, ..., x-1 leave remainder `j`. */
  function Below(x: nat, n: nat, j: nat): nat
    requires j < n
  {
    (x + n - 1 - j) / n
  }

  lemma MulOrder(a: int, b: int, n: int)
    requires n > 0
    ensures a <= b <==> a * n <= b * n
  {
  }

  lemma DivUnique(x: int, n: int, q: int)
    requires n > 0 && q * n <= x < (q + 1) * n
    ensures x / n == q && x % n == x - q * n
  {
    var d := x / n;
    assert d * n <= x < (d + 1) * n;
    MulOrder(d + 1, q, n);
    MulOrder(q + 1, d, n);
  }

  lemma DivStep(y: nat, n: nat)
    requires n > 0
    ensures (y + 1) / n == y / n + if (y + 1) % n == 0 then 1 else 0
  {
    var q := y / n;
    assert (q + 1) * n == q * n + n && (q + 2) * n == q * n + 2 * n;
    DivUnique(y + 1, n, if y % n == n - 1 then q + 1 else q);
  }

  lemma ModShift(x: nat, n: nat, j: nat)
    requires j < n
    ensures (x + n - j) % n == 0 <==> x % n == j
  {
    var q, r := x / n, x % n;
    assert (q + 1) * n == q * n + n && (q + 2) * n == q * n + 2 * n;
    DivUnique(x + n - j, n, if r < j then q else q + 1);
  }

  lemma BelowStep(x: nat, n: nat, j: nat)
    requires j < n
    ensures Below(x + 1, n, j) == Below(x, n, j) + if x % n == j then 1 else 0
  {
    DivStep(x + n - 1 - j, n);
    ModShift(x, n, j);
  }

  lemma {:induction false} TimesCounts(cursor: nat, n: nat, k: nat, j: nat)
    requires j < n
    ensures Times(Picks(cursor, n, k), j) == Below(cursor + k, n, j) - Below(cursor, n, j)
  {
    if k > 0 {
      var picks := Picks(cursor, n, k);
      assert picks[..k - 1] == Picks(cursor, n, k - 1);
      TimesCounts(cursor, n, k - 1, j);
      BelowStep(cursor + k - 1, n, j);
    }
  }

  lemma CarryAtMostOne(a: nat, k: nat, n: nat)
    requires n > 0
    ensures (a + k) / n - a / n == k / n + if a % n + k % n < n then 0 else 1
  {
    var q, s := a / n, k / n;
    Multiples(q, s, n);
    DivUnique(a + k, n, if a % n + k % n < n then q + s else q + s + 1);
  }

  lemma Multiples(q: int, s: int, n: int)
    ensures (q + s) * n == q * n + s * n && (q + s + 1) * n == (q + s) * n + n && (q + s + 2) * n == (q + s) * n + 2 * n
  {
  }

  lemma CeilingDiv(k: nat, n: nat)
    requires n > 0
    ensures (k + n - 1) / n == k / n + if k % n == 0 then 0 else 1
  {
    var s := k / n;
    assert (s + 1) * n == s * n + n && (s + 2) * n == s * n + 2 * n;
    DivUnique(k + n - 1, n, if k % n == 0 then s else s + 1);
  }

  lemma QuotientDifference(a: nat, k: nat, n: nat)
    requires n > 0
    ensures k / n <= (a + k) / n - a / n <= (k + n - 1) / n
  {
    CarryAtMostOne(a, k, n);
    CeilingDiv(k, n);
    DivUnique(a, n, a / n);
  }

  /** floor(k/n) or ceil(k/n) out of `k`. */
  predicate FairShare(times: nat, k: nat, n: nat)
    requires n > 0
  {
    k / n <= times <= (k + n - 1) / n
  }

  /** Fairness: over any `k` selections each of the `n` eligible workers is chosen floor(k/n) or
      ceil(k/n) times, wherever the cursor starts. */
  lemma RoundRobinIsFair(cursor: nat, n: nat, k: nat, j: nat)
    requires j < n
    ensures FairShare(Times(Picks(cursor, n, k), j), k, n)
  {
    TimesCounts(cursor, n, k, j);
    QuotientDifference(cursor + n - 1 - j, k, n);
  }

  datatype Tour = Tour(cursor: uint64, chosen: seq<string>)

  /** The effect of one `Select` under round robin on the cursor and the list of chosen workers. */
  function Advance(t: Tour, pick: Option<Worker>): Tour {
    match pick
    case None => t
    case Some(w) => Tour(Wrap64(t.cursor + 1), t.chosen + [w.id])
  }

  function PickIn(t: Tour, request: Request, workers: seq<Worker>, excluded: set<string>): Option<Worker> {
    Selected(RoundRobin, t.cursor, request, workers, excluded)
  }

  /** A run of selections under round robin: `rounds[i]` is the snapshot the i-th one sees. */
  function RunSelections(cursor: uint64, request: Request, rounds: seq<seq<Worker>>, excluded: set<string>): Tour {
    if rounds == [] then Tour(cursor, []) else
      var n := |rounds| - 1;
      var t := RunSelections(cursor, request, rounds[..n], excluded);
      Advance(t, PickIn(t, request, rounds[n], excluded))
  }

  /** The round offers exactly the workers `pool`, or none at all. */
  ghost predicate Offers(request: Request, workers: seq<Worker>, excluded: set<string>, pool: seq<Worker>) {
    var e := EligibleWorkers(RoundRobin, request, SortById(workers), excluded);
    e == [] || e == pool
  }

  /** `chosen` walks round the pool from position `start`. */
  ghost predicate Ring(start: nat, pool: seq<Worker>, chosen: seq<string>)
    requires pool != []
  {
    forall i | 0 <= i < |chosen| :: chosen[i] == pool[(start + i) % |pool|].id
  }

  ghost predicate Walked(start: nat, pool: seq<Worker>, t: Tour)
    requires pool != []
  {
    t.cursor == start + |t.chosen| && Ring(start, pool, t.chosen)
  }

  lemma RoundRobinPick(t: Tour, request: Request, workers: seq<Worker>, excluded: set<string>, pool: seq<Worker>)
    requires pool != [] && Offers(request, workers, excluded, pool)
    ensures var pick := PickIn(t, request, workers, excluded);
            pick == None || pick == Some(pool[t.cursor % |pool|])
  {
  }

  lemma WalkOn(start: nat, pool: seq<Worker>, t: Tour, pick: Option<Worker>)
    requires pool != [] && Walked(start, pool, t) && t.cursor + 1 < U64
    requires pick == None || pick == Some(pool[t.cursor % |pool|])
    ensures Walked(start, pool, Advance(t, pick)) && Advance(t, pick).cursor <= t.cursor + 1
  {
  }

  /** Selections that find no worker leave the cursor alone; the others walk round the pool. */
  lemma {:induction false} RunWalksThePool(cursor: uint64, request: Request, rounds: seq<seq<Worker>>,
                                           excluded: set<string>, 
                                           pool: seq<Worker>)
    requires pool != [] && cursor + |rounds| < U64
    requires forall r | r in rounds :: Offers(request, r, excluded, pool)
    ensures Walked(cursor, pool, RunSelections(cursor, request, rounds, excluded))
    ensures RunSelections(cursor, request, rounds, excluded).cursor <= cursor + |rounds|
  {
    if rounds != [] {
      var n := |rounds| - 1;
      RunWalksThePool(cursor, request, rounds[..n], excluded, pool);
      assert rounds[n] in rounds;
      var t := RunSelections(cursor, request, rounds[..n], excluded);
      RoundRobinPick(t, request, rounds[n], excluded, pool);
      WalkOn(cursor, pool, t, PickIn(t, request, rounds[n], excluded));
    }
  }

  lemma {:induction false} WorkersAreCounted(start: nat, pool: seq<Worker>, chosen: seq<string>, j: nat)
    requires j < |pool| && DistinctIds(pool)
    requires Ring(start, pool, chosen)
    ensures Times(chosen, pool[j].id) == Times(Picks(start, |pool|, |chosen|), j)
  {
    if chosen != [] {
      var k := |chosen| - 1;
      WorkersAreCounted(start, pool, chosen[..k], j);
      assert Picks(start, |pool|, k + 1)[..k] == Picks(start, |pool|, k);
      var pick := (start + k) % |pool|;
      assert pick != j ==> pool[pick].id != pool[j].id;
    }
  }

  lemma FairShareOf(start: nat, n: nat, k: nat, j: nat, times: nat)
    requires j < n && times == Times(Picks(start, n, k), j)
    ensures FairShare(times, k, n)
  {
    RoundRobinIsFair(start, n, k, j);
  }

  lemma RingIsFair(start: nat, pool: seq<Worker>, chosen: seq<string>, j: nat)
    requires j < |pool| && DistinctIds(pool) && Ring(start, pool, chosen)
    ensures FairShare(Times(chosen, pool[j].id), |chosen|, |pool|)
  {
    WorkersAreCounted(start, pool, chosen, j);
    FairShareOf(start, |pool|, |chosen|, j, Times(chosen, pool[j].id));
  }

  /** Fairness of whole runs: while each round offers the same workers or none, every one of them
      serves floor(k/n) or ceil(k/n) of the k successful selections. */
  lemma RoundRobinRunIsFair(cursor: uint64, request: Request, rounds: seq<seq<Worker>>, excluded: set<string>,
                            pool: seq<Worker>, j: nat)
    requires j < |pool| && DistinctIds(pool) && cursor + |rounds| < U64
    requires forall r | r in rounds :: Offers(request, r, excluded, pool)
    ensures var chosen := RunSelections(cursor, request, rounds, excluded).chosen;
            FairShare(Times(chosen, pool[j].id), |chosen|, |pool|)
  {
    RunWalksThePool(cursor, request, rounds, excluded, pool);
    RingIsFair(cursor, pool, RunSelections(cursor, request, rounds, excluded).chosen, j);
  }
}
