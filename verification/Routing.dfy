/** Worker selection policies (internal/routing/routing.go). Scores are exact reals. */
module Routing {
  import opened Model
  import opened Ordering
  import Prefix

  datatype Policy = RoundRobin | LeastWaitingTokens | PrefixAffinity | PredictedTTFT

  datatype Rejection =
    | ExcludedAttemptWorker
    | StaleHeartbeat
    | ProtocolMismatch
    | IncompatibleWorker
    | UnhealthyWorker
    | InvalidKvMetadata
    | MissingMetric

  datatype TieBreak = NoTieBreak | RoundRobinCursor | MinimumScore

  datatype Evaluation = Evaluation(
    workerId: string,
    eligible: bool,
    rejection: Option<Rejection>,
    stateVersion: uint64,
    matchedTokens: uint32,
    queueDelay: real,
    uncachedPrefill: uint64,
    prefillDelay: real,
    overloadPenalty: real,
    predictedTtft: real,
    score: real,
    tieBreak: TieBreak)

  datatype Decision = Decision(
    requestId: string,
    policy: Policy,
    selectedWorker: string,
    candidates: seq<Evaluation>,
    workerVersions: map<string, uint64>,
    cursor: uint64)

  const EPSILON: real := 0.000000000001

  // ---- Eligibility -------------------------------------------------------

  function Ineligibility(policy: Policy, request: Request, w: Worker, excluded: set<string>): Option<Rejection> {
    if w.id in excluded then Some(ExcludedAttemptWorker)
    else if w.stale then Some(StaleHeartbeat)
    else if w.protocolVersion != PROTOCOL_VERSION then Some(ProtocolMismatch)
    else if w.dataAddress == "" || w.model != request.model then Some(IncompatibleWorker)
    else if w.state.status != Healthy then Some(UnhealthyWorker)
    else if w.state.kvUsage.capacityTokens == 0 || w.state.kvUsage.usedTokens > w.state.kvUsage.capacityTokens then
      Some(InvalidKvMetadata)
    else if policy != RoundRobin && (w.state.prefillTokensPerSecond <= 0.0 || w.state.decodeTokensPerSecond <= 0.0
                                     || w.state.decodeSchedulingQuantumTokens == 0) then
      Some(MissingMetric)
    else None
  }

  predicate Eligible(policy: Policy, request: Request, w: Worker, excluded: set<string>) {
    Ineligibility(policy, request, w, excluded).None?
  }

  function EligibleWorkers(policy: Policy, request: Request, ws: seq<Worker>, excluded: set<string>): (r: seq<Worker>)
    ensures forall w :: w in r <==> w in ws && Eligible(policy, request, w, excluded)
    ensures |r| <= |ws|
  {
    if ws == [] then [] else
      var n := |ws| - 1;
      assert ws == ws[..n] + [ws[n]];
      var front := EligibleWorkers(policy, request, ws[..n], excluded);
      if Eligible(policy, request, ws[n], excluded) then front + [ws[n]] else front
  }

  // ---- Evaluation --------------------------------------------------------

  /** Division by a rate. Round robin alone may meet a zero rate; it does not use the quotient. */
  function Per(n: nat, rate: real): real {
    if rate == 0.0 then 0.0 else n as real / rate
  }

  function Rejected(w: Worker, reason: Rejection): Evaluation {
    Evaluation(w.id, false, Some(reason), w.state.statusVersion, 0, 0.0, 0, 0.0, 0.0, 0.0, 0.0, NoTieBreak)
  }

  /** The queued plus running work and the product of counts wrap at their Go widths. */
  function Evaluate(request: Request, w: Worker): Evaluation {
    var matched := Prefix.Match(request.prefixFingerprints, w.state.cachedPrefixes);
    var queue := Per(Wrap64(w.state.waitingTokenCount + w.state.runningWorkTokens), w.state.prefillTokensPerSecond);
    var input := request.estimatedInputTokens;
    var uncached: uint64 := if matched < input then input - matched else 0;
    var prefill := Per(uncached, w.state.prefillTokensPerSecond);
    var overload := Per(Wrap32(w.state.runningRequestCount * w.state.decodeSchedulingQuantumTokens),
                        w.state.decodeTokensPerSecond);
    Evaluation(w.id, true, None, w.state.statusVersion, matched, queue, uncached, prefill, overload,
               queue + prefill + overload, 0.0, NoTieBreak)
  }

  /** The score of the worker at position `i` of the eligible list. */
  function Score(policy: Policy, i: nat, w: Worker, e: Evaluation): real {
    match policy
    case RoundRobin => i as real
    case LeastWaitingTokens => w.state.waitingTokenCount as real
    case PrefixAffinity => e.queueDelay + e.prefillDelay
    case PredictedTTFT => e.predictedTtft
  }

  /** The evaluations of the eligible workers, each with its policy's score. */
  function Scored(policy: Policy, request: Request, ws: seq<Worker>): (r: seq<Evaluation>)
    ensures |r| == |ws|
    ensures forall i | 0 <= i < |ws| :: r[i].workerId == ws[i].id && r[i].eligible && r[i].tieBreak == NoTieBreak
    ensures policy == LeastWaitingTokens ==>
              forall i | 0 <= i < |ws| :: r[i].score == ws[i].state.waitingTokenCount as real
  {
    seq(|ws|, i requires 0 <= i < |ws| =>
      var e := Evaluate(request, ws[i]);
      e.(score := Score(policy, i, ws[i], e)))
  }

  // ---- Comparison and scan -----------------------------------------------

  function Abs(x: real): real {
    if x < 0.0 then -x else x
  }

  /** Compares scores up to EPSILON, then matched tokens if asked to, then worker IDs. */
  predicate Better(a: Evaluation, best: Evaluation, preferPrefix: bool) {
    if Abs(a.score - best.score) > EPSILON then a.score < best.score
    else if preferPrefix && a.matchedTokens != best.matchedTokens then a.matchedTokens > best.matchedTokens
    else Less(a.workerId, best.workerId)
  }

  /** Index selected by the left-to-right scan. */
  function Scan(es: seq<Evaluation>, preferPrefix: bool): (i: nat)
    requires es != []
    ensures i < |es|
  {
    var n := |es| - 1;
    if n == 0 then 0 else
      var best := Scan(es[..n], preferPrefix);
      if Better(es[n], es[best], preferPrefix) then n else best
  }

  lemma ScanStep(es: seq<Evaluation>, i: nat, preferPrefix: bool)
    requires 0 < i < |es|
    ensures Scan(es[..i], preferPrefix) < i
    ensures Scan(es[..i + 1], preferPrefix) ==
            var best := Scan(es[..i], preferPrefix);
            if Better(es[i], es[best], preferPrefix) then i else best
  {
    assert es[..i + 1][..i] == es[..i];
  }

  predicate PrefersPrefix(policy: Policy) {
    policy == PrefixAffinity || policy == PredictedTTFT
  }

  /** Position of the selected worker among the eligible ones. */
  function Choose(policy: Policy, cursor: uint64, scored: seq<Evaluation>): (i: nat)
    requires scored != []
    ensures i < |scored|
  {
    if policy == RoundRobin then cursor % |scored|
    else Scan(scored, PrefersPrefix(policy))
  }

  /** The worker `Select` picks, if any. */
  function Selected(policy: Policy, cursor: uint64, request: Request, workers: seq<Worker>,
                    excluded: set<string>): Option<Worker> {
    var eligible := EligibleWorkers(policy, request, SortById(workers), excluded);
    if eligible == [] then None
    else Some(eligible[Choose(policy, cursor, Scored(policy, request, eligible))])
  }

  // ---- The decision trace ------------------------------------------------

  function Rejections(policy: Policy, request: Request, ws: seq<Worker>, excluded: set<string>): seq<Evaluation> {
    if ws == [] then [] else
      var n := |ws| - 1;
      var front := Rejections(policy, request, ws[..n], excluded);
      match Ineligibility(policy, request, ws[n], excluded)
      case Some(reason) => front + [Rejected(ws[n], reason)]
      case None => front
  }

  function Versions(ws: seq<Worker>): map<string, uint64> {
    if ws == [] then map[] else
      var n := |ws| - 1;
      Versions(ws[..n])[ws[n].id := ws[n].state.statusVersion]
  }

  function Marked(policy: Policy, e: Evaluation, isChosen: bool, chosenId: string): Evaluation {
    e.(tieBreak := if policy == RoundRobin && isChosen then RoundRobinCursor
                   else if e.workerId == chosenId then MinimumScore
                   else NoTieBreak)
  }

  /** The traces of the eligible workers when position `chosen` was selected. */
  function Traces(policy: Policy, scored: seq<Evaluation>, chosen: nat): (r: seq<Evaluation>)
    requires chosen < |scored|
    ensures |r| == |scored|
    ensures forall i | 0 <= i < |scored| :: r[i] == Marked(policy, scored[i], i == chosen, scored[chosen].workerId)
  {
    seq(|scored|, i requires 0 <= i < |scored| => Marked(policy, scored[i], i == chosen, scored[chosen].workerId))
  }

  function Decide(policy: Policy, cursor: uint64, request: Request, workers: seq<Worker>,
                  excluded: set<string>): Decision {
    var sorted := SortById(workers);
    var eligible := EligibleWorkers(policy, request, sorted, excluded);
    var rejected := Rejections(policy, request, sorted, excluded);
    if eligible == [] then
      Decision(request.id, policy, "", rejected, Versions(sorted), 0)
    else
      var scored := Scored(policy, request, eligible);
      var chosen := Choose(policy, cursor, scored);
      Decision(request.id, policy, eligible[chosen].id, rejected + Traces(policy, scored, chosen),
               Versions(sorted), if policy == RoundRobin then cursor else 0)
  }

  class Router {
    const policy: Policy
    var cursor: uint64

    constructor (policy: Policy, seed: uint64)
      ensures this.policy == policy && cursor == seed
    {
      this.policy := policy;
      cursor := seed;
    }

    /** Evaluates and scans the workers; `ok` is false for the no-eligible-workers error. */
    method Select(request: Request, workers: seq<Worker>, excluded: set<string>) returns (decision: Decision, ok: bool)
      modifies this`cursor
      ensures decision == Decide(policy, old(cursor), request, workers, excluded)
      ensures ok <==> Selected(policy, old(cursor), request, workers, excluded).Some?
      ensures ok ==> decision.selectedWorker == Selected(policy, old(cursor), request, workers, excluded).value.id
      ensures cursor == if ok && policy == RoundRobin then Wrap64(old(cursor) + 1) else old(cursor)
    {
      var sorted := SortById(workers);
      var eligible, candidates, versions := Partition(request, sorted, excluded);
      if eligible == [] {
        return Decision(request.id, policy, "", candidates, versions, 0), false;
      }
      var scored := Scored(policy, request, eligible);
      var selected: nat := 0;
      var used: uint64 := 0;
      if policy == RoundRobin {
        used := cursor;
        cursor := Wrap64(cursor + 1);
        selected := used % |eligible|;
      } else {
        selected := ScanAll(scored);
      }
      var traces := TraceAll(scored, selected);
      decision := Decision(request.id, policy, eligible[selected].id, candidates + traces, versions, used);
      ok := true;
    }

    method Partition(request: Request, sorted: seq<Worker>, excluded: set<string>)
      returns (eligible: seq<Worker>, candidates: seq<Evaluation>, versions: map<string, uint64>)
      ensures eligible == EligibleWorkers(policy, request, sorted, excluded)
      ensures candidates == Rejections(policy, request, sorted, excluded)
      ensures versions == Versions(sorted)
    {
      eligible, candidates, versions := [], [], map[];
      for i := 0 to |sorted|
        invariant eligible == EligibleWorkers(policy, request, sorted[..i], excluded)
        invariant candidates == Rejections(policy, request, sorted[..i], excluded)
        invariant versions == Versions(sorted[..i])
      {
        var w := sorted[i];
        assert sorted[..i + 1][..i] == sorted[..i];
        versions := versions[w.id := w.state.statusVersion];
        match Ineligibility(policy, request, w, excluded)
        case Some(reason) => candidates := candidates + [Rejected(w, reason)];
        case None => eligible := eligible + [w];
      }
      assert sorted[..|sorted|] == sorted;
    }

    method ScanAll(scored: seq<Evaluation>) returns (selected: nat)
      requires scored != []
      ensures selected == Scan(scored, PrefersPrefix(policy))
    {
      selected := 0;
      for i := 1 to |scored|
        invariant selected < i
        invariant selected == Scan(scored[..i], PrefersPrefix(policy))
      {
        ScanStep(scored, i, PrefersPrefix(policy));
        if Better(scored[i], scored[selected], PrefersPrefix(policy)) {
          selected := i;
        }
      }
      assert scored[..|scored|] == scored;
    }

    method TraceAll(scored: seq<Evaluation>, selected: nat) returns (traces: seq<Evaluation>)
      requires selected < |scored|
      ensures traces == Traces(policy, scored, selected)
    {
      traces := [];
      for i := 0 to |scored|
        invariant |traces| == i
        invariant forall j | 0 <= j < i ::
                    traces[j] == Marked(policy, scored[j], j == selected, scored[selected].workerId)
      {
        traces := traces + [Marked(policy, scored[i], i == selected, scored[selected].workerId)];
      }
    }
  }
}
