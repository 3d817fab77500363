/** Registered workers with given scores: the tolerance is used to the full, and selection is exactly as
    good as the gap above the least score (internal/routing/routing.go:67-75, 100-113, 151-159). */
module ScoreWitnesses {
  import opened Model
  import opened Ordering
  import opened Routing
  import opened Tolerance
  import Prefix
  import Registry

  // ---- Workers with given scores -----------------------------------------

  /** Names "a", "aa", "aaa", ...: increasing worker IDs. */
  function Name(i: nat): (s: string)
    ensures |s| == i + 1
  {
    seq(i + 1, _ => 'a')
  }

  lemma {:induction false} NamesIncrease(i: nat, j: nat)
    requires i < j
    ensures Less(Name(i), Name(j))
  {
    assert Name(j)[1..] == Name(j - 1);
    if i > 0 {
      assert Name(i)[1..] == Name(i - 1);
      NamesIncrease(i - 1, j - 1);
    } else {
      assert Name(i)[1..] == [];
    }
  }

  /** A healthy worker of the request's model with these reported values. */
  function Made(request: Request, i: nat, waiting: uint64, rate: real, cached: seq<PrefixFingerprint>): Worker {
    Worker(Name(i), "address", request.model, PROTOCOL_VERSION,
           WorkerState(1, Healthy, 0, waiting, 0, 0, KVUsage(1, 0), rate, 1.0, 1, cached, 0), 0, false)
  }

  /** The request carries the fingerprints of its tokens. */
  ghost predicate Carries(hash: string -> string, tokens: seq<string>, request: Request) {
    && Prefix.Small(tokens) && request.prefixFingerprints == Prefix.FingerprintList(hash, tokens)
    && request.estimatedInputTokens == |tokens| && request.model != "" && forall s :: hash(s) != ""
  }

  /** Nothing cached, or the request's first `b` blocks. */
  function CachedBlock(hash: string -> string, tokens: seq<string>, b: nat): seq<PrefixFingerprint>
    requires b <= |tokens| / 16
  {
    if b == 0 then [] else [Prefix.FingerprintAt(hash, tokens, b)]
  }

  lemma SingleMatch(fs: seq<PrefixFingerprint>, g: PrefixFingerprint)
    requires g in fs && g.sha256 != ""
    ensures Prefix.Match(fs, [g]) == g.tokenCount
  {
    Prefix.LargestHits([g], g);
    Prefix.MatchUpper(fs, [g], g);
    if Prefix.Match(fs, [g]) > 0 {
      var f := Prefix.MatchWitness(fs, [g]);
      assert Prefix.MaxCount([g], f.sha256) == f.tokenCount;
    }
  }

  lemma EmptyMatch(fs: seq<PrefixFingerprint>)
    ensures Prefix.Match(fs, []) == 0
  {
    if Prefix.Match(fs, []) > 0 {
      var f := Prefix.MatchWitness(fs, []);
    }
  }

  lemma BlockListed(hash: string -> string, tokens: seq<string>, b: nat)
    requires Prefix.Small(tokens) && 0 < b <= |tokens| / 16
    ensures Prefix.FingerprintAt(hash, tokens, b) in Prefix.FingerprintList(hash, tokens)
    ensures Prefix.FingerprintAt(hash, tokens, b).tokenCount == 16 * b
  {
    assert Prefix.FingerprintList(hash, tokens)[b - 1] == Prefix.FingerprintAt(hash, tokens, b);
  }

  lemma OneBlockMatch(hash: string -> string, tokens: seq<string>, fs: seq<PrefixFingerprint>, b: nat)
    requires Prefix.Small(tokens) && b <= |tokens| / 16 && fs == Prefix.FingerprintList(hash, tokens)
    requires b > 0 ==> Prefix.FingerprintAt(hash, tokens, b).sha256 != ""
    ensures Prefix.Match(fs, CachedBlock(hash, tokens, b)) == 16 * b
  {
    if b > 0 {
      BlockListed(hash, tokens, b);
      SingleMatch(fs, Prefix.FingerprintAt(hash, tokens, b));
    } else {
      EmptyMatch(fs);
    }
  }

  /** Cache contents that match 0, 16, 32, ... tokens of the request. */
  ghost predicate Offers(request: Request, blocks: seq<seq<PrefixFingerprint>>) {
    && request.model != "" && blocks != []
    && forall i | 0 <= i < |blocks| :: OffersAt(request, blocks[i], i)
  }

  ghost predicate OffersAt(request: Request, cached: seq<PrefixFingerprint>, i: nat) {
    && Prefix.Match(request.prefixFingerprints, cached) == 16 * i <= request.estimatedInputTokens
    && forall f | f in cached :: f.tokenCount > 0 && f.sha256 != ""
  }

  function BlocksOf(hash: string -> string, tokens: seq<string>): (r: seq<seq<PrefixFingerprint>>)
    ensures |r| == |tokens| / 16 + 1 && forall i | 0 <= i < |r| :: r[i] == CachedBlock(hash, tokens, i)
  {
    seq(|tokens| / 16 + 1, i requires 0 <= i < |tokens| / 16 + 1 => CachedBlock(hash, tokens, i))
  }

  lemma BlockOffered(hash: string -> string, tokens: seq<string>, request: Request, b: nat)
    requires Carries(hash, tokens, request) && b <= |tokens| / 16
    ensures OffersAt(request, CachedBlock(hash, tokens, b), b)
  {
    OneBlockMatch(hash, tokens, request.prefixFingerprints, b);
    if b > 0 {
      BlockListed(hash, tokens, b);
    }
  }

  lemma BlocksOffered(hash: string -> string, tokens: seq<string>, request: Request)
    requires Carries(hash, tokens, request)
    ensures Offers(request, BlocksOf(hash, tokens))
  {
    forall i | 0 <= i <= |tokens| / 16 ensures OffersAt(request, BlocksOf(hash, tokens)[i], i) {
      BlockOffered(hash, tokens, request, i);
    }
  }

  lemma MadeQueue(request: Request, w: Worker, i: nat, waiting: uint64, rate: real, cached: seq<PrefixFingerprint>)
    requires w == Made(request, i, waiting, rate, cached)
    ensures Evaluate(request, w).queueDelay == Per(waiting, rate)
  {
  }

  lemma MadePrefill(request: Request, w: Worker, i: nat, waiting: uint64, rate: real, cached: seq<PrefixFingerprint>)
    requires w == Made(request, i, waiting, rate, cached)
    ensures Evaluate(request, w).prefillDelay == Per(Evaluate(request, w).uncachedPrefill, rate)
  {
  }

  lemma PerZero(rate: real)
    ensures Per(0, rate) == 0.0
  {
  }

  lemma MadeOverload(request: Request, w: Worker, i: nat, waiting: uint64, rate: real, cached: seq<PrefixFingerprint>)
    requires w == Made(request, i, waiting, rate, cached)
    ensures Evaluate(request, w).overloadPenalty == 0.0
  {
    PerZero(1.0);
    assert Wrap32(0 * 1) == 0;
  }

  lemma MadeMatch(request: Request, w: Worker, i: nat, waiting: uint64, rate: real, cached: seq<PrefixFingerprint>,
                  matched: nat)
    requires w == Made(request, i, waiting, rate, cached)
    requires Prefix.Match(request.prefixFingerprints, cached) == matched <= request.estimatedInputTokens
    ensures Evaluate(request, w).matchedTokens == matched
    ensures Evaluate(request, w).uncachedPrefill == request.estimatedInputTokens - matched
  {
  }

  lemma ScoreFromDelays(policy: Policy, request: Request, w: Worker)
    requires PrefersPrefix(policy) && Evaluate(request, w).overloadPenalty == 0.0
    ensures ScoreOf(policy, request, w) == Evaluate(request, w).queueDelay + Evaluate(request, w).prefillDelay
  {
  }

  lemma MadeScore(request: Request, i: nat, waiting: uint64, rate: real, cached: seq<PrefixFingerprint>, b: nat,
                  policy: Policy, 
                  w: Worker, total: nat)
    requires OffersAt(request, cached, b) && rate > 0.0 && PrefersPrefix(policy)
    requires w == Made(request, i, waiting, rate, cached) && total == waiting + request.estimatedInputTokens - 16 * b
    ensures Evaluate(request, w).matchedTokens == 16 * b
    ensures ScoreOf(policy, request, w) == total as real / rate
  {
    MadeMatch(request, w, i, waiting, rate, cached, 16 * b);
    MadeQueue(request, w, i, waiting, rate, cached);
    MadePrefill(request, w, i, waiting, rate, cached);
    MadeOverload(request, w, i, waiting, rate, cached);
    ScoreFromDelays(policy, request, w);
    var e := Evaluate(request, w);
    AddUp(ScoreOf(policy, request, w), e.queueDelay, e.prefillDelay, waiting, e.uncachedPrefill, rate, total);
  }

  lemma AddUp(score: real, queue: real, prefill: real, waiting: nat, rest: nat, rate: real, total: nat)
    requires rate > 0.0 && score == queue + prefill && total == waiting + rest
    requires queue == Per(waiting, rate) && prefill == Per(rest, rate)
    ensures score == total as real / rate
  {
  }

  lemma MadeRegisters(request: Request, i: nat, waiting: uint64, rate: real, cached: seq<PrefixFingerprint>, b: nat)
    requires OffersAt(request, cached, b) && request.model != "" && rate > 0.0
    ensures var w := Made(request, i, waiting, rate, cached);
            Registry.Validate(w).None? && forall policy :: Eligible(policy, request, w, {})
  {
  }

  /** Registered workers in canonical order, all of them eligible. */
  ghost predicate Lineup(request: Request, ws: seq<Worker>) {
    && StrictlySorted(ws)
    && forall i | 0 <= i < |ws| ::
         Registry.Validate(ws[i]).None? && forall policy :: Eligible(policy, request, ws[i], {})
  }

  lemma LineupSelects(policy: Policy, cursor: uint64, request: Request, ws: seq<Worker>)
    requires Lineup(request, ws) && Scoring(policy) && ws != []
    ensures Field(policy, request, ws, {}) == ws
    ensures Selected(policy, cursor, request, ws, {})
            == Some(ws[Scan(Scored(policy, request, ws), PrefersPrefix(policy))])
  {
    SortedAlready(ws);
    AllEligible(policy, request, ws, {});
  }

  lemma Winner(policy: Policy, cursor: uint64, request: Request, ws: seq<Worker>, i: nat)
    requires Lineup(request, ws) && PrefersPrefix(policy) && ws != [] && Scan(Scored(policy, request, ws), true) == i
    ensures Selected(policy, cursor, request, ws, {}) == Some(ws[i])
  {
    LineupSelects(policy, cursor, request, ws);
  }

  lemma NamedInOrder(ws: seq<Worker>)
    requires forall i | 0 <= i < |ws| :: ws[i].id == Name(i)
    ensures StrictlySorted(ws)
  {
    forall i, j | 0 <= i < j < |ws| ensures Less(ws[i].id, ws[j].id) {
      NamesIncrease(i, j);
    }
  }

  // ---- The bound is tight ------------------------------------------------

  const RATE: real := 1000000000000.0

  /** One more cached block, but seventeen more waiting tokens, than the worker before. */
  function Drifting(request: Request, blocks: seq<seq<PrefixFingerprint>>, n: nat): (ws: seq<Worker>)
    requires n <= |blocks| && 17 * n < U64
    ensures |ws| == n
    ensures forall i | 0 <= i < n :: 17 * i < U64 && ws[i] == Made(request, i, 17 * i, RATE, blocks[i])
  {
    seq(n, i requires 0 <= i < n => Made(request, i, 17 * i, RATE, blocks[i]))
  }

  lemma DriftingLineup(request: Request, blocks: seq<seq<PrefixFingerprint>>, n: nat)
    requires Offers(request, blocks) && n <= |blocks| && 17 * n < U64
    ensures Lineup(request, Drifting(request, blocks, n))
  {
    var ws := Drifting(request, blocks, n);
    NamedInOrder(ws);
    forall i | 0 <= i < n
      ensures Registry.Validate(ws[i]).None? && forall policy :: Eligible(policy, request, ws[i], {})
    {
      MadeRegisters(request, i, 17 * i, RATE, blocks[i], i);
    }
  }

  lemma OverRate(x: nat)
    ensures x as real / RATE == x as real * EPSILON
  {
  }

  ghost predicate ScoresDrift(policy: Policy, request: Request, ws: seq<Worker>, base: nat) {
    forall i | 0 <= i < |ws| ::
      ScoreOf(policy, request, ws[i]) == (base + i) as real / RATE && Evaluate(request, ws[i]).matchedTokens == 16 * i
  }

  lemma DriftingScores(request: Request, blocks: seq<seq<PrefixFingerprint>>, n: nat, policy: Policy)
    requires Offers(request, blocks) && n <= |blocks| && 17 * n < U64 && PrefersPrefix(policy)
    ensures ScoresDrift(policy, request, Drifting(request, blocks, n), request.estimatedInputTokens)
  {
    var ws := Drifting(request, blocks, n);
    forall i | 0 <= i < n
      ensures ScoreOf(policy, request, ws[i]) == (request.estimatedInputTokens + i) as real / RATE
      ensures Evaluate(request, ws[i]).matchedTokens == 16 * i
    {
      MadeScore(request, i, 17 * i, RATE, blocks[i], i, policy, ws[i], request.estimatedInputTokens + i);
    }
  }

  lemma DriftsInOrder(es: seq<Evaluation>, base: nat)
    requires forall i | 0 <= i < |es| :: es[i].score == (base + i) as real / RATE && es[i].matchedTokens == 16 * i
    ensures Drifts(es)
  {
    forall i | 0 < i < |es| ensures es[i].score == es[i - 1].score + EPSILON {
      OverRate(base + i);
      OverRate(base + i - 1);
      assert (base + i) as real == (base + i - 1) as real + 1.0;
    }
  }

  lemma DriftingEvaluations(request: Request, ws: seq<Worker>, base: nat, policy: Policy)
    requires PrefersPrefix(policy) && ScoresDrift(policy, request, ws, base)
    ensures var es := Scored(policy, request, ws);
            && (ws != [] ==> && es[|ws| - 1].score == ScoreOf(policy, request, ws[|ws| - 1])
                             && es[0].score == ScoreOf(policy, request, ws[0]))
            && forall i | 0 <= i < |es| :: es[i].score == (base + i) as real / RATE && es[i].matchedTokens == 16 * i
  {
    ScoredScores(policy, request, ws);
  }

  lemma DriftLast(request: Request, ws: seq<Worker>, base: nat, policy: Policy)
    requires ws != [] && PrefersPrefix(policy) && ScoresDrift(policy, request, ws, base)
    ensures Scan(Scored(policy, request, ws), true) == |ws| - 1
    ensures ScoreOf(policy, request, ws[|ws| - 1]) == ScoreOf(policy, request, ws[0]) + (|ws| - 1) as real * EPSILON
  {
    var es := Scored(policy, request, ws);
    DriftingEvaluations(request, ws, base, policy);
    DriftsInOrder(es, base);
    DriftWalks(es, |es|);
    assert es[..|es|] == es;
  }

  lemma DriftSelects(request: Request, ws: seq<Worker>, base: nat, policy: Policy, cursor: uint64)
    requires Lineup(request, ws) && ws != [] && PrefersPrefix(policy) && ScoresDrift(policy, request, ws, base)
    ensures Selected(policy, cursor, request, ws, {}) == Some(ws[|ws| - 1])
    ensures ScoreOf(policy, request, ws[|ws| - 1]) == ScoreOf(policy, request, ws[0]) + (|ws| - 1) as real * EPSILON
  {
    DriftLast(request, ws, base, policy);
    Winner(policy, cursor, request, ws, |ws| - 1);
  }

  /** The bound is attained: for every request with n - 1 complete blocks there are n registered
      workers of which both prefix-aware policies select the worst, n - 1 EPSILONs above the best. */
  lemma EpsilonBoundIsTight(hash: string -> string, tokens: seq<string>, request: Request,
                            n: nat) returns (ws: seq<Worker>)
    requires Carries(hash, tokens, request) && 1 <= n <= |tokens| / 16 + 1
    ensures |ws| == n && Lineup(request, ws)
    ensures forall policy, cursor | PrefersPrefix(policy) ::
              && Selected(policy, cursor, request, ws, {}) == Some(ws[n - 1])
              && ScoreOf(policy, request, ws[n - 1]) == ScoreOf(policy, request, ws[0]) + (n - 1) as real * EPSILON
  {
    BlocksOffered(hash, tokens, request);
    ws := DriftToWorst(request, BlocksOf(hash, tokens), n);
  }

  lemma DriftToWorst(request: Request, blocks: seq<seq<PrefixFingerprint>>, n: nat) returns (ws: seq<Worker>)
    requires Offers(request, blocks) && 1 <= n <= |blocks| && 17 * n < U64
    ensures |ws| == n && Lineup(request, ws)
    ensures forall policy, cursor | PrefersPrefix(policy) ::
              && Selected(policy, cursor, request, ws, {}) == Some(ws[n - 1])
              && ScoreOf(policy, request, ws[n - 1]) == ScoreOf(policy, request, ws[0]) + (n - 1) as real * EPSILON
  {
    ws := Drifting(request, blocks, n);
    DriftingLineup(request, blocks, n);
    forall policy, cursor | PrefersPrefix(policy)
      ensures Selected(policy, cursor, request, ws, {}) == Some(ws[n - 1])
      ensures ScoreOf(policy, request, ws[n - 1]) == ScoreOf(policy, request, ws[0]) + (n - 1) as real * EPSILON
    {
      DriftingScores(request, blocks, n, policy);
      DriftSelects(request, ws, request.estimatedInputTokens, policy, cursor);
    }
  }

  // ---- Exactly when the documented optimum is selected -------------------

  /** Worker `j` wins every tie. */
  ghost predicate Preferred(request: Request, ws: seq<Worker>, j: nat) {
    && j < |ws|
    && forall i | 0 <= i < |ws| && i != j ::
         var x, y := Evaluate(request, ws[i]).matchedTokens, Evaluate(request, ws[j]).matchedTokens;
         x < y || (i > j && x == y && Less(ws[j].id, ws[i].id))
  }

  /** Workers with these scores. */
  ghost predicate Realizes(policy: Policy, request: Request, ws: seq<Worker>, scores: seq<real>) {
    Lineup(request, ws) && ScoresOf(policy, request, ws) == scores
  }

  lemma RateFor(x: nat, score: real)
    requires x > 0 && score > 0.0
    ensures x as real / score > 0.0 && x as real / (x as real / score) == score
  {
    var rate := x as real / score;
    assert rate * score == x as real;
    var back := x as real / rate;
    assert back * rate == x as real;
    assert (back - score) * rate == 0.0;
  }

  /** A worker with one waiting token, `b` cached blocks, and the rate that gives it this score. */
  function MadeFor(request: Request, blocks: seq<seq<PrefixFingerprint>>, score: real, i: nat, b: nat): Worker
    requires score > 0.0 && b < |blocks| && 16 * b <= request.estimatedInputTokens
  {
    Made(request, i, 1, (1 + request.estimatedInputTokens - 16 * b) as real / score, blocks[b])
  }

  lemma MadeForScore(request: Request, blocks: seq<seq<PrefixFingerprint>>, score: real, i: nat, b: nat, policy: Policy,
                     w: Worker)
    requires Offers(request, blocks) && score > 0.0 && b < |blocks| && 16 * b <= request.estimatedInputTokens
    requires PrefersPrefix(policy) && w == MadeFor(request, blocks, score, i, b)
    ensures ScoreOf(policy, request, w) == score && Evaluate(request, w).matchedTokens == 16 * b
    ensures Registry.Validate(w).None? && forall p :: Eligible(p, request, w, {})
  {
    var x := 1 + request.estimatedInputTokens - 16 * b;
    RateFor(x, score);
    MadeScore(request, i, 1, x as real / score, blocks[b], b, policy, w, x);
    MadeRegisters(request, i, 1, x as real / score, blocks[b], b);
  }

  ghost predicate Positive(scores: seq<real>) {
    forall i | 0 <= i < |scores| :: scores[i] > 0.0
  }

  /** Workers with the given scores of which only number `j` has cached anything of the request. */
  function Favouring(request: Request, blocks: seq<seq<PrefixFingerprint>>, scores: seq<real>,
                     j: nat): (ws: seq<Worker>)
    requires |blocks| >= 2 && request.estimatedInputTokens >= 16 && Positive(scores)
    ensures |ws| == |scores|
    ensures forall i | 0 <= i < |scores| :: ws[i] == MadeFor(request, blocks, scores[i], i, if i == j then 1 else 0)
  {
    seq(|scores|, i requires 0 <= i < |scores| => MadeFor(request, blocks, scores[i], i, if i == j then 1 else 0))
  }

  lemma FavouringRealizes(request: Request, blocks: seq<seq<PrefixFingerprint>>, scores: seq<real>, j: nat,
                          policy: Policy)
    requires Offers(request, blocks) && |blocks| >= 2 && request.estimatedInputTokens >= 16 && PrefersPrefix(policy)
    requires Positive(scores)
    ensures var ws := Favouring(request, blocks, scores, j);
            Realizes(policy, request, ws, scores) && (j < |scores| ==> Preferred(request, ws, j))
  {
    var ws := Favouring(request, blocks, scores, j);
    NamedInOrder(ws);
    forall i | 0 <= i < |ws|
      ensures Registry.Validate(ws[i]).None? && forall p :: Eligible(p, request, ws[i], {})
      ensures ScoreOf(policy, request, ws[i]) == scores[i]
      ensures Evaluate(request, ws[i]).matchedTokens == if i == j then 16 else 0
    {
      MadeForScore(request, blocks, scores[i], i, if i == j then 1 else 0, policy, ws[i]);
    }
  }

  lemma FavouriteScanned(request: Request, ws: seq<Worker>, scores: seq<real>, j: nat, policy: Policy)
    requires PrefersPrefix(policy) && ScoresOf(policy, request, ws) == scores && j < |scores|
    requires Preferred(request, ws, j) && forall i | 0 <= i < |scores| :: scores[i] >= scores[j] - EPSILON
    ensures |ws| == |scores| && Scan(Scored(policy, request, ws), true) == j
  {
    var es := Scored(policy, request, ws);
    ScoredScores(policy, request, ws);
    assert forall i | 0 <= i < |es| :: es[i].score == ScoresOf(policy, request, ws)[i];
    FavouriteWins(es, j, |es|);
    assert es[..|es|] == es;
  }

  lemma CloseScoreWins(request: Request, ws: seq<Worker>, scores: seq<real>, j: nat, policy: Policy)
    requires PrefersPrefix(policy) && Realizes(policy, request, ws, scores) && Preferred(request, ws, j) && j < |scores|
    requires forall i | 0 <= i < |scores| :: scores[i] >= scores[j] - EPSILON
    ensures |ws| == |scores| && Selected(policy, 0, request, ws, {}) == Some(ws[j])
  {
    FavouriteScanned(request, ws, scores, j, policy);
    Winner(policy, 0, request, ws, j);
  }

  ghost predicate AlwaysBest(policy: Policy, request: Request, scores: seq<real>) {
    forall ws | Realizes(policy, request, ws, scores) :: SelectsBest(policy, request, ws, {})
  }

  lemma NotOutranked(policy: Policy, request: Request, v: Worker, w: Worker)
    requires ScoreOf(policy, request, w) < ScoreOf(policy, request, v)
    ensures !Outranks(policy, request, v, w) && w != v
  {
  }

  lemma NotBest(policy: Policy, request: Request, ws: seq<Worker>, v: Worker, w: Worker)
    requires Selected(policy, 0, request, ws, {}) == Some(v) && w in ws && Eligible(policy, request, w, {})
    requires !Outranks(policy, request, v, w) && w != v
    ensures !SelectsBest(policy, request, ws, {})
  {
  }

  lemma WorseWins(policy: Policy, request: Request, ws: seq<Worker>, scores: seq<real>, j: nat, k: nat)
    requires Realizes(policy, request, ws, scores) && j < |scores| && k < |scores| && |ws| == |scores|
    requires scores[k] < scores[j]
    requires Selected(policy, 0, request, ws, {}) == Some(ws[j])
    ensures !SelectsBest(policy, request, ws, {})
  {
    assert ScoresOf(policy, request, ws)[k] == scores[k] && ScoresOf(policy, request, ws)[j] == scores[j];
    NotOutranked(policy, request, ws[j], ws[k]);
    NotBest(policy, request, ws, ws[j], ws[k]);
  }

  lemma CloseScoreBreaks(request: Request, blocks: seq<seq<PrefixFingerprint>>, scores: seq<real>, j: nat, k: nat,
                         policy: Policy)
    requires Offers(request, blocks) && |blocks| >= 2 && request.estimatedInputTokens >= 16 && PrefersPrefix(policy)
    requires Positive(scores) && j < |scores| && k < |scores| && scores[k] < scores[j]
    requires forall i | 0 <= i < |scores| :: scores[i] >= scores[j] - EPSILON
    ensures !AlwaysBest(policy, request, scores)
  {
    var ws := Favouring(request, blocks, scores, j);
    FavouringRealizes(request, blocks, scores, j, policy);
    CloseScoreWins(request, ws, scores, j, policy);
    WorseWins(policy, request, ws, scores, j, k);
  }

  lemma IsolatedIsBest(policy: Policy, request: Request, scores: seq<real>, m: real)
    requires Scoring(policy) && Isolated(scores, m)
    ensures AlwaysBest(policy, request, scores)
  {
    forall ws | Realizes(policy, request, ws, scores) ensures SelectsBest(policy, request, ws, {}) {
      assert |ws| == |scores|;
      LineupSelects(policy, 0, request, ws);
      SortedAlready(ws);
      SelectedIsBest(policy, request, ws, {}, m);
    }
  }

  ghost predicate Least(scores: seq<real>, m: real) {
    (exists i :: 0 <= i < |scores| && scores[i] == m) && forall i | 0 <= i < |scores| :: m <= scores[i]
  }

  /** Exactly when the documented optimum is selected. Whatever registered workers show the given
      positive scores, whatever they have cached, a prefix-aware policy selects the best of them if and
      only if no score lies above the least one by EPSILON or less. */
  lemma AlwaysBestIffIsolated(hash: string -> string, tokens: seq<string>, request: Request, scores: seq<real>, m: real,
                              policy: Policy)
    requires Carries(hash, tokens, request) && |tokens| >= 16 && PrefersPrefix(policy)
    requires Positive(scores) && Least(scores, m)
    ensures AlwaysBest(policy, request, scores) <==> Isolated(scores, m)
  {
    if Isolated(scores, m) {
      IsolatedIsBest(policy, request, scores, m);
    } else {
      var j :| 0 <= j < |scores| && scores[j] != m && scores[j] <= m + EPSILON;
      var k :| 0 <= k < |scores| && scores[k] == m;
      BlocksOffered(hash, tokens, request);
      CloseScoreBreaks(request, BlocksOf(hash, tokens), scores, j, k, policy);
    }
  }

  // ---- In any order, for any request -------------------------------------

  lemma NothingOffered(request: Request)
    requires request.model != ""
    ensures OffersAt(request, [], 0) && Offers(request, [[]])
  {
    EmptyMatch(request.prefixFingerprints);
  }

  /** Workers with the given scores that have cached nothing. */
  function Unaware(request: Request, scores: seq<real>): (ws: seq<Worker>)
    requires Positive(scores)
    ensures |ws| == |scores|
    ensures forall i | 0 <= i < |scores| :: ws[i] == MadeFor(request, [[]], scores[i], i, 0)
  {
    seq(|scores|, i requires 0 <= i < |scores| => MadeFor(request, [[]], scores[i], i, 0))
  }

  lemma UnawareRealizes(request: Request, scores: seq<real>, policy: Policy)
    requires request.model != "" && Positive(scores) && PrefersPrefix(policy)
    ensures var ws := Unaware(request, scores);
            Realizes(policy, request, ws, scores) && (scores != [] ==> Preferred(request, ws, 0))
  {
    var ws := Unaware(request, scores);
    NothingOffered(request);
    NamedInOrder(ws);
    forall i | 0 <= i < |ws|
      ensures Registry.Validate(ws[i]).None? && forall p :: Eligible(p, request, ws[i], {})
      ensures ScoreOf(policy, request, ws[i]) == scores[i]
      ensures Evaluate(request, ws[i]).matchedTokens == 0
    {
      MadeForScore(request, [[]], scores[i], i, 0, policy, ws[i]);
    }
  }

  lemma CloseScoreFirstBreaks(request: Request, scores: seq<real>, k: nat, policy: Policy)
    requires request.model != "" && Positive(scores) && PrefersPrefix(policy)
    requires k < |scores| && scores[k] < scores[0]
    requires forall i | 0 <= i < |scores| :: scores[i] >= scores[0] - EPSILON
    ensures !AlwaysBest(policy, request, scores)
  {
    var ws := Unaware(request, scores);
    UnawareRealizes(request, scores, policy);
    CloseScoreWins(request, ws, scores, 0, policy);
    WorseWins(policy, request, ws, scores, 0, k);
  }

  lemma SameMembers<T>(a: seq<T>, b: seq<T>)
    requires multiset(a) == multiset(b)
    ensures forall x :: x in a <==> x in b
  {
    forall x ensures x in a <==> x in b {
      assert x in multiset(a) <==> x in multiset(b);
    }
  }

  lemma MovedToFront<T>(a: seq<T>, j: nat) returns (r: seq<T>)
    requires j < |a|
    ensures r != [] && r[0] == a[j] && multiset(r) == multiset(a)
  {
    r := [a[j]] + a[..j] + a[j + 1..];
    assert a == a[..j] + [a[j]] + a[j + 1..];
  }

  ghost predicate AlwaysBestInAnyOrder(policy: Policy, request: Request, scores: seq<real>) {
    forall r: seq<real> | multiset(r) == multiset(scores) :: AlwaysBest(policy, request, r)
  }

  lemma IsolatedInAnyOrder(scores: seq<real>, r: seq<real>, m: real)
    requires Isolated(scores, m) && multiset(r) == multiset(scores)
    ensures Isolated(r, m)
  {
    SameMembers(r, scores);
    var i :| 0 <= i < |scores| && scores[i] == m;
    assert m in scores && m in r;
    forall i | 0 <= i < |r| ensures r[i] == m || r[i] > m + EPSILON {
      assert r[i] in r && r[i] in scores;
    }
  }

  /** The exact condition for every request, short ones included: whatever registered workers show the
      given positive scores, in whatever order of their IDs and whatever they have cached, a prefix-aware
      policy selects the documented optimum if and only if no score lies above the least one by EPSILON
      or less. */
  lemma AlwaysBestInAnyOrderIffIsolated(request: Request, scores: seq<real>, m: real, policy: Policy)
    requires request.model != "" && PrefersPrefix(policy) && Positive(scores) && Least(scores, m)
    ensures AlwaysBestInAnyOrder(policy, request, scores) <==> Isolated(scores, m)
  {
    if Isolated(scores, m) {
      forall r: seq<real> | multiset(r) == multiset(scores) ensures AlwaysBest(policy, request, r) {
        IsolatedInAnyOrder(scores, r, m);
        IsolatedIsBest(policy, request, r, m);
      }
    } else {
      var j :| 0 <= j < |scores| && scores[j] != m && scores[j] <= m + EPSILON;
      var r := MovedToFront(scores, j);
      SameMembers(r, scores);
      assert m in scores && m in r;
      var k :| 0 <= k < |r| && r[k] == m;
      forall i | 0 <= i < |r| ensures r[i] > 0.0 && r[i] >= m {
        assert r[i] in scores;
      }
      CloseScoreFirstBreaks(request, r, k, policy);
    }
  }

  // ---- Scores of zero ----------------------------------------------------

  /** Every score close above zero comes after a zero in canonical order. */
  ghost predicate ZeroFirst(scores: seq<real>) {
    forall j | 0 <= j < |scores| && 0.0 < scores[j] <= EPSILON :: ZeroBefore(scores, j)
  }

  ghost predicate ZeroBefore(scores: seq<real>, j: nat) {
    exists k :: 0 <= k < j && k < |scores| && scores[k] == 0.0
  }

  lemma PerSign(n: nat, rate: real)
    requires rate > 0.0
    ensures Per(n, rate) >= 0.0 && (Per(n, rate) == 0.0 ==> n == 0)
  {
    var q := n as real / rate;
    assert q * rate == n as real;
  }

  /** An idle worker with everything cached: nothing else scores zero. */
  lemma ZeroIsMatched(policy: Policy, request: Request, w: Worker)
    requires PrefersPrefix(policy) && Registry.Validate(w).None? && ScoreOf(policy, request, w) == 0.0
    ensures Evaluate(request, w).matchedTokens >= request.estimatedInputTokens
  {
    var e := Evaluate(request, w);
    PerSign(Wrap64(w.state.waitingTokenCount + w.state.runningWorkTokens), w.state.prefillTokensPerSecond);
    PerSign(e.uncachedPrefill, w.state.prefillTokensPerSecond);
    PerSign(Wrap32(w.state.runningRequestCount * w.state.decodeSchedulingQuantumTokens), w.state.decodeTokensPerSecond);
  }

  /** Candidate `k` is the first with score zero, nothing before it is within EPSILON, and none has more
      matched tokens. */
  ghost predicate FirstZero(es: seq<Evaluation>, k: nat)
    requires k < |es|
  {
    && es[k].score == 0.0
    && (forall i | 0 <= i < k :: es[i].score > EPSILON)
    && forall i | k < i < |es| :: es[i].score >= 0.0 && es[i].matchedTokens <= es[k].matchedTokens
                                  && Less(es[k].workerId, es[i].workerId)
  }

  lemma {:induction false} FirstZeroWins(es: seq<Evaluation>, k: nat, n: nat)
    requires k < n <= |es| && FirstZero(es, k)
    ensures Scan(es[..n], true) == k
  {
    ScanPrefix(es, n);
    if n - 1 > k {
      FirstZeroWins(es, k, n - 1);
      LessTotal(es[k].workerId, es[n - 1].workerId);
    }
  }

  lemma {:induction false} FirstZeroOf(scores: seq<real>, n: nat) returns (k: nat)
    requires n <= |scores| && exists i :: 0 <= i < n && scores[i] == 0.0
    ensures k < n && scores[k] == 0.0 && forall i | 0 <= i < k :: scores[i] != 0.0
  {
    if i :| 0 <= i < n - 1 && scores[i] == 0.0 {
      k := FirstZeroOf(scores, n - 1);
    } else {
      k := n - 1;
    }
  }

  ghost predicate NonNegative(scores: seq<real>) {
    forall i | 0 <= i < |scores| :: scores[i] >= 0.0
  }

  lemma MatchedAtMost(hash: string -> string, tokens: seq<string>, request: Request, w: Worker)
    requires Carries(hash, tokens, request)
    ensures Evaluate(request, w).matchedTokens <= request.estimatedInputTokens
    ensures Evaluate(request, w).matchedTokens % 16 == 0
  {
    Prefix.MatchBounds(hash, tokens, w.state.cachedPrefixes);
  }

  lemma FirstZeroSelected(hash: string -> string, tokens: seq<string>, request: Request, ws: seq<Worker>,
                          scores: seq<real>, 
                          k: nat, policy: Policy)
    requires Carries(hash, tokens, request) && PrefersPrefix(policy) && Realizes(policy, request, ws, scores)
    requires NonNegative(scores) && k < |scores| == |ws| && scores[k] == 0.0
    requires forall i | 0 <= i < k :: scores[i] > EPSILON
    ensures Selected(policy, 0, request, ws, {}) == Some(ws[k])
  {
    var es := Scored(policy, request, ws);
    ScoredScores(policy, request, ws);
    assert forall i | 0 <= i < |es| :: es[i].score == ScoresOf(policy, request, ws)[i];
    ZeroIsMatched(policy, request, ws[k]);
    forall i | 0 <= i < |es| ensures es[i].matchedTokens <= es[k].matchedTokens {
      MatchedAtMost(hash, tokens, request, ws[i]);
    }
    FirstZeroWins(es, k, |es|);
    assert es[..|es|] == es;
    Winner(policy, 0, request, ws, k);
  }

  lemma ZeroFirstIsBest(hash: string -> string, tokens: seq<string>, request: Request, scores: seq<real>,
                        policy: Policy)
    requires Carries(hash, tokens, request) && PrefersPrefix(policy) && NonNegative(scores) && Least(scores, 0.0)
    requires ZeroFirst(scores)
    ensures AlwaysBest(policy, request, scores)
  {
    var k := FirstZeroOf(scores, |scores|);
    forall i | 0 <= i < k ensures scores[i] > EPSILON {
      assert !ZeroBefore(scores, i);
    }
    forall ws | Realizes(policy, request, ws, scores) ensures SelectsBest(policy, request, ws, {}) {
      assert |ws| == |scores|;
      FirstZeroSelected(hash, tokens, request, ws, scores, k, policy);
      forall w | w in ws && Eligible(policy, request, w, {}) && w != ws[k] ensures Outranks(policy, request, ws[k], w) {
        var i :| 0 <= i < |ws| && ws[i] == w;
        FirstZeroOutranks(hash, tokens, request, ws, scores, k, i, policy);
      }
    }
  }

  lemma FirstZeroOutranks(hash: string -> string, tokens: seq<string>, request: Request, ws: seq<Worker>,
                          scores: seq<real>, 
                          k: nat, i: nat, policy: Policy)
    requires Carries(hash, tokens, request) && PrefersPrefix(policy) && Realizes(policy, request, ws, scores)
    requires NonNegative(scores) && k < |scores| == |ws| && i < |scores| && i != k
    requires scores[k] == 0.0 && (i < k ==> scores[i] > EPSILON)
    ensures Outranks(policy, request, ws[k], ws[i])
  {
    assert ScoresOf(policy, request, ws)[k] == scores[k] && ScoresOf(policy, request, ws)[i] == scores[i];
    if scores[i] == 0.0 {
      ZeroIsMatched(policy, request, ws[k]);
      ZeroIsMatched(policy, request, ws[i]);
      MatchedAtMost(hash, tokens, request, ws[k]);
      MatchedAtMost(hash, tokens, request, ws[i]);
    }
  }

  /** A worker with this score that has cached everything, or, with a positive score, nothing. */
  function Shown(request: Request, blocks: seq<seq<PrefixFingerprint>>, score: real, i: nat, all: bool): Worker
    requires score >= 0.0 && blocks != [] && 16 * (|blocks| - 1) <= request.estimatedInputTokens
  {
    if score == 0.0 then Made(request, i, 0, 1.0, blocks[|blocks| - 1])
    else MadeFor(request, blocks, score, i, if all then |blocks| - 1 else 0)
  }

  lemma ShownScore(request: Request, blocks: seq<seq<PrefixFingerprint>>, score: real, i: nat, all: bool,
                   policy: Policy, w: Worker)
    requires Offers(request, blocks) && score >= 0.0 && request.estimatedInputTokens == 16 * (|blocks| - 1)
    requires PrefersPrefix(policy) && w == Shown(request, blocks, score, i, all)
    ensures ScoreOf(policy, request, w) == score
    ensures Evaluate(request, w).matchedTokens == if score == 0.0 || all then request.estimatedInputTokens else 0
    ensures Registry.Validate(w).None? && forall p :: Eligible(p, request, w, {})
  {
    var last := |blocks| - 1;
    if score == 0.0 {
      MadeScore(request, i, 0, 1.0, blocks[last], last, policy, w, 0);
      MadeRegisters(request, i, 0, 1.0, blocks[last], last);
    } else {
      MadeForScore(request, blocks, score, i, if all then last else 0, policy, w);
    }
  }

  function Showing(request: Request, blocks: seq<seq<PrefixFingerprint>>, scores: seq<real>, j: nat): (ws: seq<Worker>)
    requires NonNegative(scores) && blocks != [] && 16 * (|blocks| - 1) <= request.estimatedInputTokens
    ensures |ws| == |scores| && forall i | 0 <= i < |scores| :: ws[i] == Shown(request, blocks, scores[i], i, i == j)
  {
    seq(|scores|, i requires 0 <= i < |scores| => Shown(request, blocks, scores[i], i, i == j))
  }

  lemma ShowingRealizes(request: Request, blocks: seq<seq<PrefixFingerprint>>, scores: seq<real>, j: nat,
                        policy: Policy)
    requires Offers(request, blocks) && |blocks| >= 2 && request.estimatedInputTokens == 16 * (|blocks| - 1)
    requires PrefersPrefix(policy) && NonNegative(scores) && j < |scores| && !ZeroBefore(scores, j)
    ensures var ws := Showing(request, blocks, scores, j);
            Realizes(policy, request, ws, scores) && Preferred(request, ws, j)
  {
    var ws := Showing(request, blocks, scores, j);
    NamedInOrder(ws);
    forall i | 0 <= i < |ws|
      ensures Registry.Validate(ws[i]).None? && forall p :: Eligible(p, request, ws[i], {})
      ensures ScoreOf(policy, request, ws[i]) == scores[i]
      ensures Evaluate(request, ws[i]).matchedTokens ==
              if scores[i] == 0.0 || i == j then request.estimatedInputTokens else 0
    {
      ShownScore(request, blocks, scores[i], i, i == j, policy, ws[i]);
    }
  }

  lemma EarlyScoreBreaks(request: Request, blocks: seq<seq<PrefixFingerprint>>, scores: seq<real>, j: nat, k: nat,
                         policy: Policy)
    requires Offers(request, blocks) && |blocks| >= 2 && request.estimatedInputTokens == 16 * (|blocks| - 1)
    requires PrefersPrefix(policy) && NonNegative(scores) && j < |scores| && !ZeroBefore(scores, j)
    requires 0.0 < scores[j] <= EPSILON && k < |scores| && scores[k] == 0.0
    ensures !AlwaysBest(policy, request, scores)
  {
    var ws := Showing(request, blocks, scores, j);
    ShowingRealizes(request, blocks, scores, j, policy);
    CloseScoreWins(request, ws, scores, j, policy);
    WorseWins(policy, request, ws, scores, j, k);
  }

  /** With a least score of zero, which takes a request of complete blocks only, the zeros are matched in
      full and tie only with each other and with later workers: the best one is always selected if and
      only if no score above zero by EPSILON or less precedes all zeros. */
  lemma AlwaysBestAtZero(hash: string -> string, tokens: seq<string>, request: Request, scores: seq<real>,
                         policy: Policy)
    requires Carries(hash, tokens, request) && |tokens| >= 16 && |tokens| % 16 == 0 && PrefersPrefix(policy)
    requires NonNegative(scores) && Least(scores, 0.0)
    ensures AlwaysBest(policy, request, scores) <==> ZeroFirst(scores)
  {
    if ZeroFirst(scores) {
      ZeroFirstIsBest(hash, tokens, request, scores, policy);
    } else {
      var j :| 0 <= j < |scores| && 0.0 < scores[j] <= EPSILON && !ZeroBefore(scores, j);
      var k :| 0 <= k < |scores| && scores[k] == 0.0;
      BlocksOffered(hash, tokens, request);
      EarlyScoreBreaks(request, BlocksOf(hash, tokens), scores, j, k, policy);
    }
  }

  /** Other requests always leave some prefill, so no worker scores zero. */
  lemma NobodyScoresZero(hash: string -> string, tokens: seq<string>, request: Request, w: Worker, policy: Policy)
    requires Carries(hash, tokens, request) && |tokens| % 16 != 0 && PrefersPrefix(policy) && Registry.Validate(w).None?
    ensures ScoreOf(policy, request, w) != 0.0
  {
    MatchedAtMost(hash, tokens, request, w);
    if ScoreOf(policy, request, w) == 0.0 {
      ZeroIsMatched(policy, request, w);
    }
  }
}
