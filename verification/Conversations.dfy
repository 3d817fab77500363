/** Follow-up turns and prefix-aware routing, from messages to the router's evaluation. */
module Conversations {
  import opened Model
  import FollowUps
  import MockWorker
  import Prefix
  import Routing
  import Tokenizer

  /** The request of a conversation as `parseRequest` builds it (internal/gateway/http.go:251-269). */
  predicate RequestFor(hash: string -> string, request: Request, ms: seq<Message>) {
    && request.messages == ms
    && request.estimatedInputTokens == Tokenizer.Estimate(ms)
    && request.prefixFingerprints == Prefix.FingerprintList(hash, Tokenizer.Tokens(ms))
  }

  /** Completing requests with these token lists, in order. */
  function Jobs(hash: string -> string, histories: seq<seq<string>>): (acts: seq<MockWorker.Act>)
    ensures |acts| == |histories|
  {
    seq(|histories|, i requires 0 <= i < |histories| => MockWorker.Complete(Prefix.FingerprintList(hash, histories[i])))
  }

  /** What a worker that has completed these requests caches, and its counter. */
  lemma {:induction false} WorkerHolds(hash: string -> string, c: MockWorker.Config, histories: seq<seq<string>>)
    requires MockWorker.ConfigOk(c)
    ensures var m := MockWorker.After(c, MockWorker.NewMock(c), Jobs(hash, histories));
            MockWorker.CacheOf(m) == FollowUps.AfterRequests(hash, histories, c.cacheLimit, c.cacheCapacity)
  {
    if histories != [] {
      var n := |histories| - 1;
      WorkerHolds(hash, c, histories[..n]);
      assert Jobs(hash, histories)[..n] == Jobs(hash, histories[..n]);
    }
  }

  /** Right after a worker has completed the conversation `ms`, having served no rival of it before,
      its next report makes the router credit it with at least the complete blocks of `ms` for any
      continuation of `ms`, and charge exactly the remaining tokens as uncached. */
  lemma FollowUpIsCredited(hash: string -> string, c: MockWorker.Config, histories: seq<seq<string>>, ms: seq<Message>,
                           more: seq<Message>, now: Time, request: Request, w: Worker)
    requires MockWorker.ConfigOk(c)
    requires 16 * (Tokenizer.Estimate(ms) / 16) <= c.cacheCapacity && Tokenizer.Estimate(ms + more) < U32
    requires var a := Tokenizer.Tokens(ms);
             Prefix.Applicable(hash, a, histories) && forall t | t in histories :: !FollowUps.Rival(a, t)
    requires RequestFor(hash, request, ms + more)
    requires var jobs := Jobs(hash, histories + [Tokenizer.Tokens(ms)]);
             w.state == MockWorker.ReportOf(MockWorker.After(c, MockWorker.NewMock(c), jobs), now)
    ensures var e := Routing.Evaluate(request, w);
            && e.matchedTokens >= 16 * (Tokenizer.Estimate(ms) / 16)
            && e.matchedTokens + e.uncachedPrefill == Tokenizer.Estimate(ms + more)
  {
    Tokenizer.TokensAppend(ms, more);
    WorkerHolds(hash, c, histories + [Tokenizer.Tokens(ms)]);
    FollowUps.FollowUpFindsHistory(hash, histories, Tokenizer.Tokens(ms), c.cacheLimit, c.cacheCapacity);
    Prefix.MatchBounds(hash, Tokenizer.Tokens(ms + more), w.state.cachedPrefixes);
  }
}
