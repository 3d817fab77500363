# AetherServe: a verified model

AetherServe routes chat requests to inference workers. It admits a request against a tenant's token
bucket and a global budget, picks a worker by policy, relays the worker's token stream to the client as
server-sent events, and retries once, on another worker, as long as nothing has been sent. This project
models that path in Dafny and proves what it guarantees.

The centre is the gateway's attempt protocol (`Gateway.dfy`): a labelled transition system in which the
request handler, one receiver goroutine per opened call, the bounded channels between them, the request
context and the client connection take their steps in any order. Labels carry every choice that the
scheduler, the network, the clock and the workers make, so a statement about all label sequences is a
statement about all interleavings. `GatewayProofs.dfy` proves one inductive invariant;
`GatewayTheorems.dfy` draws the consequences: what the client can see, progress, and termination.

Around it stand the parts the protocol is composed with. `Routing.dfy` (selection, with exact reals and
the comparison's tolerance), `Admission.dfy`, `Registry.dfy`, `Prefix.dfy`, `Tokenizer.dfy`,
`Convert.dfy`, and the mock worker (`MockWorker.dfy`, `WorkerCache.dfy`, `WorkerQueue.dfy`) follow the Go
packages of those names: methods that update state are methods here, proved against functions about which
the lemmas speak. `Joins.dfy` settles which lists of words their join determines; `Tolerance.dfy` and
`ScoreWitnesses.dfy` settle how good the selected worker is. `Sse.dfy` defines the client's side from
sections 9.2.5 and 9.2.6 of the WHATWG HTML Living Standard. `Placement.dfy`, `Serving.dfy`,
`Retries.dfy`, `Sites.dfy`, `Reporting.dfy`, `FollowUps.dfy`, `Conversations.dfy` and `Framing.dfy`
compose these parts: a selected worker is always found; what the mock worker produces is what the client
reads, after a retry too; a second call is made exactly when the registry offers another worker; any number
of handlers share one controller without losing a reservation; a worker's reports are never turned away; a
follow-up turn is credited with its history; bytes on the wire determine the frames.

Five statements one might expect are false of the code. For each the model gives the input that fails and
the exact condition:

* The documented optimum need not be selected (`docs/routing-algorithms.md:47-48`), because the comparison
  tolerates 1e-12 and is not transitive. The selected score is within (n-1) tolerances of the least, and
  for every request with n-1 complete blocks there are n registered workers for which it is exactly that
  far off. For every request: whatever workers show given positive scores, in whatever order of their IDs,
  the optimum is selected if and only if no score lies within the tolerance above the least one. For a
  request with a complete block the same holds in each single order; a shorter request, which no cache can
  match, may get the optimum in one order and not in another. At a least score of zero, the optimum is
  selected if and only if no such score comes before all zeros.
* The fingerprint index need not agree with direct token comparison, because the separator of the join,
  U+001F, is not Go whitespace and can occur inside tokens. Over the token lists that chats have, it always
  agrees for a request if and only if the words of its complete blocks after the first role are free of
  separators or nothing but one, except that the first of them may start with its only separator and the
  last may end in its only one.
* A follow-up turn need not find the history its worker has just served. It always does, whatever the
  worker has served out of some lists before and whatever its bounds, if and only if none of those lists
  is a rival: one with another number of blocks whose join is that of the history's blocks. Every chat of
  two or more blocks has a rival.
* `docs/api-contract.md:89-97` promises an error frame and DONE when the deadline passes after commitment.
  `internal/gateway/http.go:422-424` may leave silently; the model follows the code. From a forwarding
  state with a working connection the promise is kept in every calm continuation if and only if the
  context is still live.
* Worker load counters are exact over a run if and only if the load fits their widths all along.

## Model

| member | source | states |
|---|---|---|
| GatewayTheorems.EveryRunEndsWell | internal/gateway/http.go:83-209 | In every interleaving a finished request has written one API error with a justified status, or headers, the gap-free first tokens of the last call's stream, and then what that stream calls for plus DONE; cut short only after a write failure, the end of the context or a delivery timeout. The client has a prefix of it, all of it if no write failed. |
| GatewayTheorems.ReferenceIsNumbered | internal/gateway/http.go:328-356 | The chunk at position k of a call's events carries index k and the identifiers of its attempt: relayed tokens are numbered without a gap. |
| GatewayTheorems.UndisturbedRunRendersStream | internal/gateway/http.go:192-207 | Refinement: an undisturbed run whose first opened call starts well delivers exactly the sequential reading of that stream and opens no second call. |
| GatewayTheorems.UndisturbedCommitIsComplete | internal/gateway/http.go:389-427 | An undisturbed run that commits, after a retry or not, delivers exactly the whole stream of its last call. |
| GatewayTheorems.ExactlyOneStatus | internal/gateway/http.go:95-209 | Every finished request has written exactly one HTTP status, first of all; no path falls out of the attempt loop without one. |
| GatewayTheorems.AttemptsAndLease | internal/gateway/http.go:110-190 | At most two calls, on different workers and under different attempt IDs, the first cancelled before the second opens; the lease is held while any call is uncancelled and is released exactly once; every call is cancelled when the handler is gone. |
| GatewayTheorems.NothingOpensAfterCommit | internal/gateway/http.go:192-208 | Once something has been written no step opens a call, and output only grows. |
| GatewayTheorems.NoDeadlock | internal/gateway/http.go:147-207 | Until the handler is gone and every receiver has exited, some step other than a failure or disturbance can happen. |
| GatewayTheorems.TerminatedIsFinal | internal/gateway/http.go:325-427 | When all have exited no step is possible. |
| GatewayTheorems.RunsAreBounded | internal/gateway/http.go:119-209 | Every run, under every schedule, has at most 43 steps plus three per chunk of the two streams. |
| GatewayTheorems.EveryRunCanFinish | internal/gateway/http.go:119-209 | Every reachable state can be taken to termination without failures or disturbances. |
| GatewayTheorems.ReceiversFollowHandler | internal/gateway/http.go:325-371 | If Recv fails once its context is done, at most ten receiver steps remain after the handler is gone, however much the streams still hold. |
| GatewayTheorems.DeadlineAfterCommitCanBeSilent | internal/gateway/http.go:422-424 | From any live forwarding state the run can end, past its deadline, without another frame, against the API contract. |
| GatewayTheorems.PromiseKeptIffLive | internal/gateway/http.go:389-427 | From a reachable forwarding state over a working connection, every continuation without a new end of the context or a failing write closes with a completion or error frame and DONE, if and only if the context is live. |
| GatewayTheorems.NoDoneOnlyIfDisturbed | internal/gateway/http.go:389-427 | A committed response whose writes all worked lacks its DONE only if the context ended while the handler ran. |
| GatewayProofs.RunOk | internal/gateway/http.go:83-427 | The invariant (channel contents, relay position, cancelled attempts, lease, context, per program counter) holds in every reachable state. |
| GatewayProofs.ReceiverStepOk | internal/gateway/http.go:325-371 | A receiver step keeps what was sent plus what is still to be sent equal to the stream's events, unless it was cut off, and never exceeds the channel's capacity. |
| GatewayProofs.NothingLeft | internal/gateway/http.go:393-399 | A receiver that exited leaving only tokens behind was cut off by a delivery timeout or the end of the context. |
| GatewayProofs.TerminalIsLast | internal/gateway/http.go:400-417 | A terminal event the handler reads is the stream's last event, at the position right after the tokens read, unless it is a cancellation error. |
| Placement.LookupNeverMisses | internal/gateway/http.go:290-302 | The lookup after a successful selection finds a listed, non-excluded worker; with distinct IDs, the one evaluated. |
| Placement.Lookup | internal/gateway/http.go:296-300 | The search loop returns the first worker with the ID, or none. |
| Placement.SelectionIffServing | internal/gateway/http.go:290-302 | Over any reachable registry and under every policy, a worker is found if and only if some registered worker is fresh, healthy, of the request's model and not excluded, and it is one of those. |
| Retries.SecondCallIffServed | internal/gateway/http.go:117-190 | In an undisturbed run that opens the calls it starts, a second call is opened if and only if the first fails retriably before its first chunk and at the second selection some other registered worker is fresh, healthy and of the model; the client gets the second call's whole stream if it starts well, and 502 if there was no such worker. |
| Serving.StreamEvents | internal/gateway/http.go:328-356 | Well-formed worker results cross the wire and the receiver's checks unchanged and in order. |
| Serving.ScriptWellFormed | internal/mockworker/worker.go:210-235 | Everything a job sends is what the receiver of its attempt expects at that index. |
| Serving.UndisturbedServing | internal/mockworker/worker.go:195-236 | Worker and gateway composed: an undisturbed request delivers min(max, 8) tokens with reason "length" exactly when max <= 8, or, failing after 0 < f < min(max, 8) tokens, f tokens, an error and DONE; one call only. |
| Serving.RetriedServing | internal/gateway/http.go:159-176 | The retry composed: if the first call meets the worker's injected failure before its first token and a second call is opened, an undisturbed run makes these two calls, to different workers, and the client gets the second worker's whole response and nothing of the first. |
| Serving.SelectWorkerIsSelectable | internal/gateway/http.go:290-302 | What the gateway selects never is an excluded worker, the one fact about selection the protocol relies on. |
| Routing.Router.constructor | internal/routing/routing.go:32-41 | The router starts at the seeded cursor. |
| Routing.Router.Select | internal/routing/routing.go:45-124 | The loops compute the decision of the specification from the old cursor; an error is returned exactly when nobody is eligible, and only a successful round-robin selection moves the cursor. |
| Routing.Router.Partition | internal/routing/routing.go:57-77 | The first loop splits the list into eligible workers and rejected candidates and records every version. |
| Routing.Router.ScanAll | internal/routing/routing.go:93-113 | The scan returns the position the left-to-right comparison defines. |
| Routing.Router.TraceAll | internal/routing/routing.go:115-120 | The traces are marked with the tie-break that decided. |
| RoutingProofs.SelectedIsEligible | internal/routing/routing.go:57-82 | A worker is selected if and only if an eligible one exists, and it is eligible and not excluded. |
| RoutingProofs.TraceCoversWorkers | internal/routing/routing.go:57-121 | The candidate trace lists every given worker exactly once per occurrence. |
| RoutingProofs.DecisionIgnoresOrder | internal/routing/routing.go:50-51 | With distinct IDs, any order of the input gives the same decision and trace. |
| RoutingProofs.UncachedIsRemainder | internal/routing/routing.go:67-72 | Matched plus uncached tokens are exactly the request's tokens, whatever the worker reports. |
| Tolerance.SelectedWithinEpsilon | internal/routing/routing.go:93-121 | With n eligible workers, the selected one's score exceeds no other's by more than (n-1) * 1e-12. |
| ScoreWitnesses.EpsilonBoundIsTight | internal/routing/routing.go:151-159 | For every request with n-1 complete blocks there are n registered, eligible workers of which both prefix-aware policies select the worst, exactly (n-1) * 1e-12 above the best. |
| Tolerance.SelectedIsBest | internal/routing/routing.go:100-121 | If no eligible score lies within 1e-12 above the least one, the selected worker precedes every other eligible one by score, matched tokens, ID. |
| ScoreWitnesses.AlwaysBestInAnyOrderIffIsolated | internal/routing/routing.go:151-159 | For every request and positive scores: whatever registered workers show them, in whatever order of IDs and whatever they have cached, the documented optimum is selected, if and only if no score lies within 1e-12 above the least one. |
| ScoreWitnesses.AlwaysBestIffIsolated | internal/routing/routing.go:151-159 | For a request with a complete block the same holds for the scores in one fixed order of IDs. |
| ScoreWitnesses.AlwaysBestAtZero | internal/routing/routing.go:151-159 | For a least score of zero: if and only if no score in (0, 1e-12] precedes all zeros in canonical order. |
| ScoreWitnesses.NobodyScoresZero | internal/routing/routing.go:67-75 | For a request with an incomplete last block no registered worker scores zero. |
| Tolerance.LeastWaitingIsBest | internal/routing/routing.go:93-99 | Least-waiting-tokens always selects the least waiting count, ties to the smaller ID. |
| RoutingProofs.RoundRobinIsFair | internal/routing/routing.go:85-92 | Over any k picks from any cursor, each of n positions is chosen floor(k/n) or ceil(k/n) times. |
| RoutingProofs.RunWalksThePool | internal/routing/routing.go:78-92 | While each round offers the same pool or nobody, the selections walk round the pool from the start cursor, and failed ones leave the cursor alone. |
| RoutingProofs.RoundRobinRunIsFair | internal/routing/routing.go:78-92 | Hence, over whole runs with failing rounds interspersed, each worker serves floor(k/n) or ceil(k/n) of the k successes. |
| Ordering.SortPermutation | internal/routing/routing.go:50-51 | Sorting by distinct IDs forgets the input order. |
| Ordering.SortedUnique | internal/registry/registry.go:81-81 | A strictly sorted list is determined by its members. |
| Registry.Registry.constructor | internal/registry/registry.go:26-34 | A registry starts empty. |
| Registry.Registry.Register | internal/registry/registry.go:36-48 | A valid worker replaces whatever was stored under its ID; an invalid one changes nothing; the stored workers stay valid. |
| Registry.Registry.Heartbeat | internal/registry/registry.go:50-68 | The state is replaced exactly when it is valid, the worker known and the version larger; otherwise nothing changes and the error says which. |
| Registry.Registry.Snapshot | internal/registry/registry.go:71-83 | The snapshot is strictly sorted and holds exactly the registered workers, each marked stale by age. |
| Registry.Registry.HealthyCount | internal/registry/registry.go:85-93 | The number of registered workers that are fresh and healthy. |
| Registry.SnapshotUnique | internal/registry/registry.go:71-83 | A snapshot is determined by the registry and the clock, whatever the map's iteration order. |
| Registry.ReachableIsValid | internal/registry/registry.go:95-129 | After any calls, every stored worker is valid and filed under its own ID. |
| Registry.VersionsNeverRegress | internal/registry/registry.go:50-68 | Between registrations of a worker its stored version never goes down, is at least that of every valid heartbeat received, and the stored state is the initial one or that of some heartbeat. |
| Registry.VersionsMonotoneIff | internal/registry/registry.go:36-68 | Over a whole run of calls a worker's stored version never goes back if and only if no call is a valid registration of it with a version lower than the one then stored. |
| Reporting.ReportIsValid | internal/mockworker/worker.go:303-313 | Every report of a worker in the state its methods keep, with sound cached fingerprints, survives the wire unchanged, is valid for the registry and carries the next version. |
| Reporting.GatewayMadeIsSound | internal/prefix/prefix.go:14-24 | The fingerprints the gateway sends with a request arrive with positive counts and non-empty hashes. |
| Reporting.WorkerIsNeverTurnedAway | internal/mockworker/worker.go:263-301 | For a new worker that serves the gateway's requests, whatever it did before and whatever the registry holds: its registration and all its later reports, as heartbeats or registrations, are accepted, however reports get lost and calls about other workers interleave. |
| Admission.Controller.constructor | internal/admission/admission.go:41-49 | Nothing is in flight at first. |
| Admission.Controller.Reserve | internal/admission/admission.go:51-80 | The decision, the bucket and the usage after a call, granted or rejected; usage equals the cost of outstanding leases and is within the limit. |
| Admission.Controller.InFlight | internal/admission/admission.go:96-100 | Reports the total cost of outstanding leases. |
| Admission.Lease.constructor | internal/admission/admission.go:79-79 | A new lease is unreleased. |
| Admission.Lease.Release | internal/admission/admission.go:82-94 | Returns the lease's cost exactly once; the underflow panic is unreachable. |
| AdmissionProofs.UsageIsOutstanding | internal/admission/admission.go:72-93 | After any calls, usage is the sum of unreleased leases, within the limit and at least each of them. |
| Sites.UsageIsHeldByHandlers | internal/gateway/http.go:100-119 | In every interleaving of any number of handlers with one controller, usage is the total cost of the requests holding a lease, within the limit, and zero once every handler is gone, however each ended. |
| Sites.HandlersRunTheProtocol | internal/gateway/http.go:83-209 | Each handler's steps taken alone are a run of its protocol, so what holds of one request holds of every request of a site. |
| Sites.LedgerRunsTheController | internal/admission/admission.go:51-94 | The handlers' reservations and releases taken alone are a run of the controller, so the rate bound and the rest hold of every site. |
| AdmissionProofs.TenantRateBound | internal/admission/admission.go:58-79 | After any history and in any window, even with clock readings out of order, a tenant's admitted cost is at most burst plus rate times the time from the first call to the last admitted one. |
| AdmissionProofs.ZeroTimeBreaksBound | internal/admission/admission.go:62-63 | A clock reading Go's zero time would break the bound. |
| AdmissionProofs.RefillComposes | internal/admission/admission.go:61-67 | On a clock that does not go back, two capped refills are one. |
| AdmissionProofs.RejectedCallsLeaveNoTrace | internal/admission/admission.go:68-75 | On such a clock, dropping any rejected calls from a run changes no other decision, level, in-flight total or lease. |
| Prefix.Fingerprints | internal/prefix/prefix.go:14-24 | One fingerprint per complete block, shortest first. |
| Prefix.LongestMatch | internal/prefix/prefix.go:26-40 | The largest count of a request entry equal to the largest count cached under its hash, or zero. |
| Joins.SettledUnique | internal/prefix/prefix.go:17-17 | No other list of words with as many or more words has the join of a settled one. |
| Joins.UnsettledRegroups | internal/prefix/prefix.go:17-17 | Every list of words that is not settled has the join of another list of as many words. |
| Prefix.HitIffShared | internal/prefix/prefix.go:26-40 | Against unambiguous histories a request block hits if and only if some history starts with the same tokens. |
| Prefix.MatchIsLongestCommonPrefix | internal/prefix/prefix.go:14-40 | The hash index refines direct comparison: against unambiguous histories the match is the longest common prefix with any of them, in whole blocks. |
| Prefix.MatchBounds | internal/routing/routing.go:67-72 | Against any report, a match is a multiple of 16 and at most the request's length. |
| Prefix.RegroupedIsTaken | internal/prefix/prefix.go:17-17 | A different history with the join of all of the request's blocks is taken for them in full. |
| Prefix.ExactIffSettled | internal/prefix/prefix.go:14-40 | Among lists of words, the index is exact for a request against all histories and collision-free hashes if and only if the words of its complete blocks are settled. |
| Prefix.ChatExactIffSettled | internal/prefix/prefix.go:14-40 | Among the token lists of chats, if and only if the words after the first role are. |
| Tokenizer.ChatsAreReceivable | internal/gateway/http.go:230-241 | The chats are exactly the token lists of the messages the gateway accepts. |
| Tokenizer.Canonicalize | internal/tokenizer/tokenizer.go:11-20 | The builder loop produces the canonical text. |
| Tokenizer.FieldsAreWords | internal/tokenizer/tokenizer.go:23-25 | Tokens are non-empty, free of whitespace, and together hold every non-space character in order. |
| Tokenizer.FieldsAppend | internal/tokenizer/tokenizer.go:23-25 | No token straddles the seam after trailing whitespace. |
| Tokenizer.TokensAppend | internal/tokenizer/tokenizer.go:11-29 | Tokens and estimates of a longer conversation extend those of the shorter one. |
| WorkerCache.EvictKeepsLongestSuffix | internal/mockworker/worker.go:373-383 | Eviction keeps the longest suffix that meets both bounds. |
| WorkerCache.InsertAllOk | internal/mockworker/worker.go:363-385 | Keys stay distinct and both bounds hold after any insertions. |
| WorkerCache.LastIsCached | internal/mockworker/worker.go:363-385 | After an insertion the last fingerprint's key is cached if it fits at all, whatever the counter does. |
| WorkerCache.PutAllBounded | internal/mockworker/worker.go:363-385 | Whatever is inserted and whatever the 64-bit counter does, keys stay distinct, both bounds hold, the counter never exceeds the cached total, and only inserted entries are cached. |
| WorkerCache.PutAllExact | internal/mockworker/worker.go:363-385 | With room for one entry too many the counter stays the cached total, neither wrapping nor saturating, and the cache is the ideal one. |
| WorkerCache.CounterExactIffRoom | internal/mockworker/worker.go:372-382 | The counter is the cached total after every sequence of insertions if and only if the capacity is at most 2^64 - 2^32 or the cache holds at most 2^32 entries. |
| FollowUps.FindsIffKeyNotTaken | internal/mockworker/worker.go:366-372 | From any cache: after a request for `a`, every continuation matches all of `a`'s blocks if and only if no entry with another count held the last key when it was inserted. |
| FollowUps.FollowUpFindsHistory | internal/mockworker/worker.go:234-234 | Right after a worker completes `a`, having served no rival of it, every continuation of `a` matches all complete blocks of `a`. |
| FollowUps.AlwaysFindsIffNoRival | internal/mockworker/worker.go:363-385 | This holds for every past drawn from a set of lists and all bounds if and only if the set holds no rival. |
| FollowUps.RivalHides | internal/mockworker/worker.go:366-372 | Within ample bounds, a rival served before hides the history. |
| FollowUps.LongChatsHaveRivals | internal/prefix/prefix.go:17-17 | Every chat of two or more blocks has a rival of one block. |
| Conversations.WorkerHolds | internal/mockworker/worker.go:363-385 | What a worker that has completed requests caches, and its counter, are those the follow-up results speak of. |
| Conversations.FollowUpIsCredited | internal/routing/routing.go:67-72 | From messages over the worker's own report to evaluation: a continued conversation is credited with its history's blocks and charged exactly the rest. |
| WorkerQueue.ExactIffFits | internal/mockworker/worker.go:315-361 | Over any interleaving of calls with the dispatcher, the counters are the number and work of waiting and running calls throughout, if and only if the load fits their widths throughout. |
| WorkerQueue.OverflowIsInexact | internal/mockworker/worker.go:315-320 | Two announced calls whose work exceeds 64 bits together make the counters wrong. |
| WorkerQueue.NothingSaturates | internal/mockworker/worker.go:322-361 | With exact counters no saturating branch is taken. |
| WorkerQueue.CountersReturnToZero | internal/mockworker/worker.go:144-193 | With nobody announcing, an empty queue and an idle dispatcher, all counters are zero; never more than one request runs. |
| MockWorker.Worker.constructor | internal/mockworker/worker.go:59-76 | A new worker is healthy, idle and has an empty cache. |
| MockWorker.Worker.AddWaiting | internal/mockworker/worker.go:315-320 | Counts one more waiting call; see the counter lemmas. |
| MockWorker.Worker.RemoveWaiting | internal/mockworker/worker.go:322-333 | Counts one waiting call less. |
| MockWorker.Worker.MoveToRunning | internal/mockworker/worker.go:335-348 | Moves one call's count and work from waiting to running. |
| MockWorker.Worker.FinishRunning | internal/mockworker/worker.go:350-361 | Counts the running call off. |
| MockWorker.Worker.AddPrefixes | internal/mockworker/worker.go:363-385 | The map, the order list and the used-token counter change as the specified cache does, sound entries stay sound, nothing else changes. |
| MockWorker.Worker.AddPrefix | internal/mockworker/worker.go:366-384 | One insertion: a known key changes nothing, a new one goes last and evicts from the front. |
| MockWorker.Worker.Append | internal/mockworker/worker.go:370-372 | Stores a new fingerprint last in the order and adds its count, with wrap-around, to the used tokens. |
| MockWorker.Worker.EvictExcess | internal/mockworker/worker.go:373-383 | The eviction loop ends with the specified suffix and counter. |
| MockWorker.Worker.EvictOldest | internal/mockworker/worker.go:374-382 | Drops the oldest entry and its count, saturating at zero. |
| MockWorker.Worker.RunJob | internal/mockworker/worker.go:195-236 | A job sends a prefix of its script, all of it if nothing cuts it off; fingerprints are cached exactly when all tokens were sent, and an injected failure is consumed exactly when it is hit. |
| MockWorker.Worker.NextState | internal/mockworker/worker.go:303-313 | A report carries the next version and the cache, oldest first. |
| MockWorker.ActedOk | internal/mockworker/worker.go:303-385 | Every act keeps what a worker guarantees of itself, sound entries included, and only reports move the version, by one. |
| Convert.PrefixesToProto | internal/protocol/convert.go:31-37 | The loop's result converts back to the input. |
| Convert.PrefixesFromProto | internal/protocol/convert.go:39-47 | Keeps the non-nil entries in order. |
| Convert.PrefixesRoundTrip | internal/protocol/convert.go:31-47 | Fingerprint lists survive the wire. |
| Convert.CachedFromProto | internal/protocol/convert.go:79-85 | All entries, or an error if any is nil. |
| Convert.StateRoundTrip | internal/protocol/convert.go:49-94 | A state survives the wire if and only if its status is one of the three constants and its time representable. |
| Convert.ChunkRoundTrip | internal/protocol/convert.go:118-156 | A chunk survives the wire if and only if it has a finish reason exactly when final and its time is representable. |
| Convert.StampRoundTrip | internal/protocol/convert.go:98-106 | Instants survive, and are valid exactly between years 1 and 9999. |
| Sse.EventRoundTrip | internal/gateway/http.go:494-509 | The standard's parser reads one written event back as that event. |
| Sse.TruncationOnlyLoses | internal/gateway/http.go:494-509 | Cutting the byte stream anywhere loses messages at its end and invents none. |
| Framing.BodyRoundTrip | internal/gateway/http.go:466-509 | Parsing a response body gives exactly the frames written. |
| Framing.NoForgedDone | internal/gateway/http.go:487-492 | A client reads DONE exactly where one was written, whatever the tokens contain. |
| Framing.BodyDeterminesFrames | internal/gateway/http.go:466-509 | If payloads can be decoded, equal bodies come from equal frames, whatever creation times the payloads carry. |
| Framing.ClientReadsResponse | internal/gateway/http.go:192-206 | From whatever bytes of a finished run arrive, a client reads the first messages of the committed response, and DONE only at the end of a complete one. |

## Left out

- HTTP and JSON parsing, headers, request IDs, the effective timeout, error message texts, metrics,
  logging, configuration loading, `cmd/` and start-up: library calls and plumbing. `json.Marshal` is a
  parameter, assumed to produce line-free text starting with `{` (and decodable where stated).
- gRPC transport: a call is a lossless stream of chunks and a terminal status. Progress statements assume
  that a worker goes on sending or its connection fails; the bound of `ReceiversFollowHandler` assumes that
  Recv fails once its context is done. Acquiring a client and starting a call is one step.
- A failed write is taken to be permanent: later frames on the connection are lost too. Whether the
  handler is told of a lost token frame is left open, frame by frame.
- SHA-256: any function without collisions among the joined block prefixes involved and without empty
  values.
- Floating point: rates, scores and bucket levels are exact reals; NaN, infinities, rounding, and the
  normalised work and simulated durations computed from them are not modelled.
- Go's saturation of durations beyond 292 years, in the bucket refill and in the staleness test.
- `sort.Slice` is unstable; lists with repeated IDs are sorted stably here. Registries never produce them.
- Worker message, tenant and deadline fields of a generation request, which neither the gateway's checks
  nor the mock worker read.
- Faults of the mock worker's `Generate` between its queue and the stream, and its dispatcher's timing:
  waiting and sending are steps that complete or are cut off. The registration loop's network calls and
  ticker are left out.
- Aliasing that `cloneWorker` and `cloneState` prevent: states are values here.
- Routing.Router.Select: with a zero rate, which only round robin admits, Go's quotients in the trace are infinite or NaN; they are zero here.
- RoutingProofs.RunWalksThePool: fairness is stated up to the wrap-around of the 64-bit cursor.
- AdmissionProofs.TenantRateBound: assumes that the clock never reads Go's zero time, which marks an unused bucket; the counterexample is `AdmissionProofs.ZeroTimeBreaksBound`.
- Tolerance.LeastWaitingIsBest: counts are compared exactly; beyond 2^53 the code's float64 conversion could make different counts tie.
- Reporting.WorkerIsNeverTurnedAway: assumes a clock the wire format can carry, versions short of 2^64, and requests from the gateway only; the worker itself does not check the fingerprints it is sent.
