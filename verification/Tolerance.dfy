/** How close to the best worker selection comes: the comparison tolerates EPSILON and is not
    transitive (internal/routing/routing.go:93-113, 151-159). */
module Tolerance {
  import opened Model
  import opened Ordering
  import opened Routing

  // ---- The scan ----------------------------------------------------------

  lemma BetterBound(a: Evaluation, best: Evaluation, preferPrefix: bool)
    ensures Better(a, best, preferPrefix) ==> a.score <= best.score + EPSILON
    ensures !Better(a, best, preferPrefix) ==> best.score <= a.score + EPSILON
  {
  }

  /** The selected score exceeds none by more than one EPSILON per comparison. */
  lemma {:induction false} ScanWithinEpsilon(es: seq<Evaluation>, preferPrefix: bool, j: nat)
    requires j < |es|
    ensures es[Scan(es, preferPrefix)].score <= es[j].score + (|es| - 1) as real * EPSILON
  {
    var n := |es| - 1;
    if n > 0 {
      var best := Scan(es[..n], preferPrefix);
      BetterBound(es[n], es[best], preferPrefix);
      if j < n {
        ScanWithinEpsilon(es[..n], preferPrefix, j);
        assert es[best].score <= es[j].score + (n - 1) as real * EPSILON;
      }
    }
  }

  ghost predicate DistinctTraceIds(es: seq<Evaluation>) {
    forall i, j | 0 <= i < j < |es| :: es[i].workerId != es[j].workerId
  }

  /** The documented order: lower score, then more matched tokens, then the smaller worker ID. */
  predicate Precedes(a: Evaluation, b: Evaluation, preferPrefix: bool) {
    || a.score < b.score
    || (a.score == b.score
        && if preferPrefix && a.matchedTokens != b.matchedTokens then a.matchedTokens > b.matchedTokens
           else Less(a.workerId, b.workerId))
  }

  lemma PrecedesTransitive(a: Evaluation, b: Evaluation, c: Evaluation, preferPrefix: bool)
    requires Precedes(a, b, preferPrefix) && Precedes(b, c, preferPrefix)
    ensures Precedes(a, c, preferPrefix)
  {
    if Less(a.workerId, b.workerId) && Less(b.workerId, c.workerId) {
      LessTransitive(a.workerId, b.workerId, c.workerId);
    }
  }

  /** No score but `m` lies at or below `m` + EPSILON. */
  ghost predicate Clear(es: seq<Evaluation>, m: real) {
    forall i | 0 <= i < |es| :: es[i].score == m || es[i].score > m + EPSILON
  }

  ghost predicate Attained(es: seq<Evaluation>, m: real) {
    exists i :: 0 <= i < |es| && es[i].score == m
  }

  ghost predicate Foremost(es: seq<Evaluation>, best: nat, preferPrefix: bool)
    requires best < |es|
  {
    forall j | 0 <= j < |es| && j != best :: Precedes(es[best], es[j], preferPrefix)
  }

  lemma OneMoreCandidate(es: seq<Evaluation>, best: nat, preferPrefix: bool, m: real)
    requires 0 < |es| && best < |es| - 1 && Clear(es, m) && DistinctTraceIds(es)
    requires Attained(es[..|es| - 1], m) ==> es[best].score == m && Foremost(es[..|es| - 1], best, preferPrefix)
    requires Attained(es, m)
    ensures var n := |es| - 1;
            var next := if Better(es[n], es[best], preferPrefix) then n else best;
            es[next].score == m && Foremost(es, next, preferPrefix)
  {
    var n := |es| - 1;
    var front := es[..n];
    LessTotal(es[n].workerId, es[best].workerId);
    if Attained(front, m) {
      assert forall j | 0 <= j < n :: front[j] == es[j];
      if Better(es[n], es[best], preferPrefix) {
        forall j | 0 <= j < n ensures Precedes(es[n], es[j], preferPrefix) {
          if j != best {
            PrecedesTransitive(es[n], es[best], es[j], preferPrefix);
          }
        }
      }
    } else {
      assert forall j | 0 <= j < n :: front[j] == es[j] && es[j].score > m + EPSILON;
      assert es[n].score == m;
    }
  }

  /** With nothing within EPSILON above a score that is attained, the scan finds the documented optimum. */
  lemma {:induction false} ScanIsOptimal(es: seq<Evaluation>, preferPrefix: bool, m: real)
    requires es != [] && Clear(es, m) && Attained(es, m) && DistinctTraceIds(es)
    ensures es[Scan(es, preferPrefix)].score == m && Foremost(es, Scan(es, preferPrefix), preferPrefix)
  {
    var n := |es| - 1;
    if n > 0 {
      var front := es[..n];
      if Attained(front, m) {
        ScanIsOptimal(front, preferPrefix, m);
      }
      OneMoreCandidate(es, Scan(front, preferPrefix), preferPrefix, m);
    }
  }

  /** `j` has a score within EPSILON of all lower ones, and wins every tie. */
  ghost predicate Favourite(es: seq<Evaluation>, j: nat)
    requires j < |es|
  {
    forall i | 0 <= i < |es| && i != j ::
      && es[i].score >= es[j].score - EPSILON
      && (es[i].matchedTokens < es[j].matchedTokens
          || (i > j && es[i].matchedTokens == es[j].matchedTokens && Less(es[j].workerId, es[i].workerId)))
  }

  lemma {:induction false} FavouriteWins(es: seq<Evaluation>, j: nat, n: nat)
    requires j < n <= |es| && Favourite(es, j)
    ensures Scan(es[..n], true) == j
  {
    ScanPrefix(es, n);
    if n - 1 > j {
      FavouriteWins(es, j, n - 1);
      LessTotal(es[j].workerId, es[n - 1].workerId);
    }
  }

  lemma ScanPrefix(es: seq<Evaluation>, n: nat)
    requires 0 < n <= |es|
    ensures n > 1 ==> Scan(es[..n - 1], true) < n - 1
    ensures Scan(es[..n], true) ==
            if n == 1 then 0
            else
              var best := Scan(es[..n - 1], true);
              if Better(es[n - 1], es[best], true) then n - 1 else best
  {
    if n > 1 {
      ScanStep(es, n - 1, true);
    }
  }

  /** Each candidate one EPSILON worse than the one before, but with more matched tokens. */
  ghost predicate Drifts(es: seq<Evaluation>) {
    forall i | 0 < i < |es| :: es[i].score == es[i - 1].score + EPSILON && es[i].matchedTokens > es[i - 1].matchedTokens
  }

  lemma {:induction false} DriftWalks(es: seq<Evaluation>, n: nat)
    requires Drifts(es) && 1 <= n <= |es|
    ensures Scan(es[..n], true) == n - 1
    ensures es[n - 1].score == es[0].score + (n - 1) as real * EPSILON
  {
    ScanPrefix(es, n);
    if n > 1 {
      DriftWalks(es, n - 1);
    }
  }

  // ---- Selection over workers --------------------------------------------

  lemma EligibleSnoc(policy: Policy, request: Request, ws: seq<Worker>, w: Worker, excluded: set<string>)
    requires Eligible(policy, request, w, excluded)
    ensures EligibleWorkers(policy, request, ws + [w], excluded) == EligibleWorkers(policy, request, ws, excluded) + [w]
  {
    assert (ws + [w])[..|ws|] == ws;
  }

  lemma {:induction false} EligiblePrefix(policy: Policy, request: Request, ws: seq<Worker>, excluded: set<string>,
                                          n: nat)
    requires n <= |ws| && forall i | 0 <= i < |ws| :: Eligible(policy, request, ws[i], excluded)
    ensures EligibleWorkers(policy, request, ws[..n], excluded) == ws[..n]
  {
    if n > 0 {
      EligiblePrefix(policy, request, ws, excluded, n - 1);
      EligibleSnoc(policy, request, ws[..n - 1], ws[n - 1], excluded);
      assert ws[..n] == ws[..n - 1] + [ws[n - 1]];
    }
  }

  lemma AllEligible(policy: Policy, request: Request, ws: seq<Worker>, excluded: set<string>)
    requires forall i | 0 <= i < |ws| :: Eligible(policy, request, ws[i], excluded)
    ensures EligibleWorkers(policy, request, ws, excluded) == ws
  {
    EligiblePrefix(policy, request, ws, excluded, |ws|);
    assert ws[..|ws|] == ws;
  }

  lemma SortedAlready(ws: seq<Worker>)
    requires StrictlySorted(ws)
    ensures SortById(ws) == ws && DistinctIds(ws)
  {
    forall i, j | 0 <= i < j < |ws| ensures ws[i].id != ws[j].id {
      LessTotal(ws[i].id, ws[j].id);
    }
    SortSorted(ws);
    forall w ensures w in SortById(ws) <==> w in ws {
      SortMembers(ws, w);
    }
    SortedUnique(SortById(ws), ws);
  }

  lemma {:induction false} EligibleSorted(policy: Policy, request: Request, ws: seq<Worker>, excluded: set<string>)
    requires DistinctIds(ws)
    ensures DistinctIds(EligibleWorkers(policy, request, ws, excluded))
  {
    if ws != [] {
      var n := |ws| - 1;
      EligibleSorted(policy, request, ws[..n], excluded);
      var front := EligibleWorkers(policy, request, ws[..n], excluded);
      assert forall w | w in front :: w in ws[..n];
      forall i | 0 <= i < |front| ensures front[i].id != ws[n].id {
        assert front[i] in ws[..n];
      }
    }
  }

  /** The score a policy gives a worker; round robin gives positions instead. */
  function ScoreOf(policy: Policy, request: Request, w: Worker): real {
    Score(policy, 0, w, Evaluate(request, w))
  }

  predicate Scoring(policy: Policy) {
    policy != RoundRobin
  }

  /** The eligible workers in canonical order. */
  function Field(policy: Policy, request: Request, workers: seq<Worker>, excluded: set<string>): seq<Worker> {
    EligibleWorkers(policy, request, SortById(workers), excluded)
  }

  lemma ScoredScores(policy: Policy, request: Request, eligible: seq<Worker>)
    requires Scoring(policy)
    ensures var es := Scored(policy, request, eligible);
            forall i | 0 <= i < |es| :: es[i].score == ScoreOf(policy, request, eligible[i])
                                        && es[i].matchedTokens == Evaluate(request, eligible[i]).matchedTokens
  {
  }

  lemma FieldMembers(policy: Policy, request: Request, workers: seq<Worker>, excluded: set<string>, w: Worker)
    ensures w in Field(policy, request, workers, excluded) <==> w in workers && Eligible(policy, request, w, excluded)
  {
    SortMembers(workers, w);
  }

  /** With n eligible workers, the selected one's score exceeds no other's by more than n - 1 EPSILONs. */
  lemma SelectedWithinEpsilon(policy: Policy, cursor: uint64, request: Request, workers: seq<Worker>,
                              excluded: set<string>, w: Worker)
    requires Scoring(policy) && w in workers && Eligible(policy, request, w, excluded)
    ensures var s := Selected(policy, cursor, request, workers, excluded);
            s.Some? && ScoreOf(policy, request, s.value) <= ScoreOf(policy, request, w)
                       + (|Field(policy, request, workers, excluded)| - 1) as real * EPSILON
  {
    var eligible := Field(policy, request, workers, excluded);
    FieldMembers(policy, request, workers, excluded, w);
    var j :| 0 <= j < |eligible| && eligible[j] == w;
    ScoredScores(policy, request, eligible);
    ScanWithinEpsilon(Scored(policy, request, eligible), PrefersPrefix(policy), j);
  }

  /** The documented order on workers. */
  predicate Outranks(policy: Policy, request: Request, v: Worker, w: Worker) {
    var x, y := Evaluate(request, v).matchedTokens, Evaluate(request, w).matchedTokens;
    || ScoreOf(policy, request, v) < ScoreOf(policy, request, w)
    || (ScoreOf(policy, request, v) == ScoreOf(policy, request, w)
        && if PrefersPrefix(policy) && x != y then x > y else Less(v.id, w.id))
  }

  /** The selected worker outranks every other eligible one. */
  ghost predicate SelectsBest(policy: Policy, request: Request, workers: seq<Worker>, excluded: set<string>) {
    var s := Selected(policy, 0, request, workers, excluded);
    s.Some? && forall w | w in workers && Eligible(policy, request, w, excluded) && w != s.value ::
                 Outranks(policy, request, s.value, w)
  }

  /** The least score is attained and no score lies within EPSILON above it. */
  ghost predicate Isolated(scores: seq<real>, m: real) {
    && (exists i :: 0 <= i < |scores| && scores[i] == m)
    && forall i | 0 <= i < |scores| :: scores[i] == m || scores[i] > m + EPSILON
  }

  function ScoresOf(policy: Policy, request: Request, ws: seq<Worker>): (r: seq<real>)
    ensures |r| == |ws| && forall i | 0 <= i < |ws| :: r[i] == ScoreOf(policy, request, ws[i])
  {
    seq(|ws|, i requires 0 <= i < |ws| => ScoreOf(policy, request, ws[i]))
  }

  lemma FieldDistinct(policy: Policy, request: Request, workers: seq<Worker>, excluded: set<string>)
    requires DistinctIds(workers)
    ensures DistinctIds(Field(policy, request, workers, excluded))
  {
    SortSorted(workers);
    SortedAlready(SortById(workers));
    EligibleSorted(policy, request, SortById(workers), excluded);
  }

  lemma ForemostOutranks(policy: Policy, request: Request, eligible: seq<Worker>, best: nat, w: Worker)
    requires Scoring(policy) && best < |eligible| && w in eligible && w != eligible[best]
    requires Foremost(Scored(policy, request, eligible), best, PrefersPrefix(policy))
    ensures Outranks(policy, request, eligible[best], w)
  {
    var es := Scored(policy, request, eligible);
    ScoredScores(policy, request, eligible);
    var j :| 0 <= j < |eligible| && eligible[j] == w;
    assert Precedes(es[best], es[j], PrefersPrefix(policy));
  }

  /** An isolated least score makes the selected worker the documented optimum. */
  lemma SelectedIsBest(policy: Policy, request: Request, workers: seq<Worker>, excluded: set<string>, m: real)
    requires Scoring(policy) && DistinctIds(workers)
    requires Isolated(ScoresOf(policy, request, Field(policy, request, workers, excluded)), m)
    ensures SelectsBest(policy, request, workers, excluded)
  {
    var eligible := Field(policy, request, workers, excluded);
    var es := Scored(policy, request, eligible);
    ScoredScores(policy, request, eligible);
    FieldDistinct(policy, request, workers, excluded);
    AttainedByScore(es, ScoresOf(policy, request, eligible), m);
    ScanIsOptimal(es, PrefersPrefix(policy), m);
    forall w | w in workers && Eligible(policy, request, w, excluded) && w != eligible[Scan(es, PrefersPrefix(policy))]
      ensures Outranks(policy, request, eligible[Scan(es, PrefersPrefix(policy))], w)
    {
      FieldMembers(policy, request, workers, excluded, w);
      ForemostOutranks(policy, request, eligible, Scan(es, PrefersPrefix(policy)), w);
    }
  }

  lemma AttainedByScore(es: seq<Evaluation>, scores: seq<real>, m: real)
    requires |es| == |scores| && (forall i | 0 <= i < |es| :: es[i].score == scores[i]) && Isolated(scores, m)
    ensures Attained(es, m) && Clear(es, m) && es != []
  {
    var i :| 0 <= i < |scores| && scores[i] == m;
    assert es[i].score == m;
  }

  // ---- Least waiting tokens ----------------------------------------------

  lemma {:induction false} LeastOf(scores: seq<real>) returns (m: real)
    requires scores != []
    ensures (exists i :: 0 <= i < |scores| && scores[i] == m) && forall i | 0 <= i < |scores| :: m <= scores[i]
  {
    var n := |scores| - 1;
    m := scores[n];
    if n > 0 {
      var rest := LeastOf(scores[..n]);
      if rest < m {
        m := rest;
        var i :| 0 <= i < n && scores[..n][i] == m;
        assert scores[i] == m;
      }
      assert forall i | 0 <= i < n :: scores[i] == scores[..n][i];
    }
  }

  /** Least-waiting-tokens always selects the documented optimum: its scores are integers, so the least
      one is isolated. */
  lemma LeastWaitingIsBest(request: Request, workers: seq<Worker>, excluded: set<string>)
    requires DistinctIds(workers) && Field(LeastWaitingTokens, request, workers, excluded) != []
    ensures SelectsBest(LeastWaitingTokens, request, workers, excluded)
  {
    var eligible := Field(LeastWaitingTokens, request, workers, excluded);
    var scores := ScoresOf(LeastWaitingTokens, request, eligible);
    var m := LeastOf(scores);
    var k :| 0 <= k < |scores| && scores[k] == m;
    forall i | 0 <= i < |scores| ensures scores[i] == m || scores[i] > m + EPSILON {
      IntegersApart(eligible[i].state.waitingTokenCount, eligible[k].state.waitingTokenCount);
    }
    SelectedIsBest(LeastWaitingTokens, request, workers, excluded, m);
  }

  lemma IntegersApart(x: int, y: int)
    ensures x > y ==> x as real > y as real + EPSILON
    ensures x <= y ==> x as real <= y as real
  {
  }
}
