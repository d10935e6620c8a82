# Verification of the Forgepoint cores

A Dafny model of the parts of Forgepoint that other services trust blindly, with proofs of what they
promise. The model follows the code; where the code and its own documentation differ, the difference
is stated below and proved.

- **AI Gateway** (`CircuitBreaker`, `ProbeSlots`, `Registries`, `Failover`, `Routing`, `GatewayService`,
  `GatewayRuns`, `GatewayBreakers`, `Metering`, `Cost`, `Domain`): one chat completion from validation to
  metering, failover over per-provider circuit breakers, and whole runs of requests from any teams.
- **Overlapping requests** (`GatewayOverlap`, `OverlapBreakers`, `OverlapBudget`, `OverlapBudgetExact`): every
  interleaving of the steps in which requests touch the cache, the breakers and the stores they share.
- **Token budget** (`TokenBudget`, `BudgetGate`): the lazily refilled bucket in Redis, and concurrent
  requests that are checked before and charged after.
- **Semantic cache** (`Cosine`, `SemanticCache`): the capped per-team list ranked by cosine.
- **At-least-once consumer** (`Consumer`): one delivery, and every run of a redelivering broker.
- **Audit trail** (`CanonicalRecord`, `AuditChain`, `AuditInterceptors`): the canonical encoding, the hash
  chain with its table, and the two interceptors around authentication.
- **Server-sent events** (`SseReader`, `ChatStream`, `ExecutionWatch`): the incremental reader of both web
  hooks, from the relay that writes the stream to what the component shows.

Objects whose methods update their fields are classes here too. Each method is proved against a function of
the old state, and what that function is for is proved as lemmas over every input, run or interleaving.
`dafny verify dfyconfig.toml` checks the whole project.

Choices that shape the model:

- Clock readings, the answers and failures of Redis, NATS, Postgres, providers and the client, and the
  behaviour of JSON, `strconv.IsPrint` and SHA-256 are parameters. A result that needs some store not to fail, or
  counts its failures, says so in its contract; the others hold whatever fails. Of SHA-256 only the shape of its
  output is used, of the square root only that it is non-negative and squares back.
- Floating-point numbers are reals, in the cosine and in the bucket. Token counts wrap at 32 bits.
- Text that Go holds as bytes is, in the audit encoding, a sequence of scalar values and stray bytes, which is
  what `strconv.Quote` distinguishes.
- Critical sections, Lua scripts and transactions are single steps. The breaker, the budget, the audit calls and
  gateway requests are proved under every interleaving of such steps; a request nobody interrupts does what the
  whole-request specification says (`GatewayOverlap.SoloIsHandle`).

Where the code differs from what it says of itself, or from what one would expect:

- A client that disconnects while a half-open probe streams leaves the probe's slot reserved. Once every slot is
  held and no older call is still out, the provider is refused for ever (`ProbeSlots.LockedOutExactly`), and some
  run of requests gets there (`GatewayBreakers.LockoutIsReached`).
- The budget is overshot by all requests in flight and by those let through because the store did not answer their
  check, not by one (`BudgetGate.OvershootIsOneRequestExactly`).
- The cap per window is approximate, as it says: the rolling refill holds a short burst to one budget and the
  overdrafts (`BudgetGate.StretchSpendIsExact`), but a whole window can serve two budgets
  (`BudgetGate.WindowSpendIsExact`), and requests to the gateway reach that
  (`OverlapBudgetExact.OverlapWindowIsExact`).
- A request pinned to a provider can be answered from the cache with another provider's text
  (`GatewayRuns.PinsArePassedOverExactly`).
- Eviction of an idle key forgives any debt beyond sixty seconds of refill (`TokenBudget.EvictionIsRefillExactly`).
- Token counts whose 32-bit sum overflows are served but not charged (`Metering.OverflowIsNotDeducted`).
- A message NAKed on its last delivery is neither redelivered nor dead-lettered
  (`Consumer.FinalDeliveryKeepsACopyExactly`, `Consumer.OutageLosesMessage`), and one whose handler fails by
  exceeding its deadline can never be dead-lettered (`Consumer.SlownessLosesMessage`).
- The audit table has no column for the source service and keeps times to the microsecond, so its hashes cannot in
  general be recomputed from its rows (`AuditChain.ColumnsRecomputeExactly`, `AuditChain.ReadBackVerifiesExactly`).
- The retry schedule's fifteen-second delay is never reached (`ExecutionWatch.LongestBackoffIsUnused`).

## Model

| member | source | states |
|---|---|---|
| CircuitBreaker.Tuned | services/ai-gateway/internal/domain/breaker_registry.go:45-67 | each field of the registry's configuration is the one given if positive and otherwise 3 failures, 1 success, 30 seconds and 1 probe |
| CircuitBreaker.Breaker.State | services/ai-gateway/internal/domain/circuit_breaker.go:83-88 | reading the state may realize a due OPEN to HALF_OPEN edge, and does nothing else |
| CircuitBreaker.Breaker.Allow | services/ai-gateway/internal/domain/circuit_breaker.go:95-115 | admits and reserves a probe slot as the specification `Admits`/`Step` says, in each state and at the cooldown boundary |
| CircuitBreaker.Breaker.RecordSuccess | services/ai-gateway/internal/domain/circuit_breaker.go:118-134 | new state of all five fields; a success in HALF_OPEN releases a slot even if it comes from an earlier epoch |
| CircuitBreaker.Breaker.RecordFailure | services/ai-gateway/internal/domain/circuit_breaker.go:138-154 | new state of all five fields; any failure in HALF_OPEN reopens and restarts the cooldown |
| CircuitBreaker.Breaker.MaybeHalfOpen | services/ai-gateway/internal/domain/circuit_breaker.go:158-162 | the cooldown edge is taken at exactly lastTransition + resetTimeout or later |
| CircuitBreaker.Breaker.TransitionTo | services/ai-gateway/internal/domain/circuit_breaker.go:166-172 | a change of state clears every counter and stamps the transition |
| CircuitBreaker.RunKeepsCounters | services/ai-gateway/internal/domain/circuit_breaker.go:61-71 | over every run the counters stay in range and are zero outside the state they belong to |
| CircuitBreaker.ClosedCountsTheStreak | services/ai-gateway/internal/domain/circuit_breaker.go:118-154 | while CLOSED the tally is exactly the unbroken run of failures and below the threshold; the breaker leaves CLOSED on the failure that completes the run and on nothing else |
| CircuitBreaker.HalfOpenCountsSuccesses | services/ai-gateway/internal/domain/circuit_breaker.go:118-154 | over every run, in HALF_OPEN the tally is exactly the successes of the epoch and below the threshold; the breaker closes on the success that completes them and on nothing else, and opens on a failure and on nothing else |
| CircuitBreaker.LeavesOpenExactly | services/ai-gateway/internal/domain/circuit_breaker.go:95-162 | OPEN is left by a reading of the clock at the end of the cooldown or later and by nothing else, for HALF_OPEN; a result recorded meanwhile changes nothing |
| CircuitBreaker.Recovers | services/ai-gateway/internal/domain/circuit_breaker.go:95-134 | after any trip, once the cooldown is over, successThreshold calls that all succeed are all admitted and leave the breaker as new, whenever they are made and end |
| CircuitBreaker.HalfOpenFloodBound | services/ai-gateway/internal/domain/circuit_breaker.go:90-115 | one HALF_OPEN epoch admits at most halfOpenMaxProbes + successThreshold - 1 calls, over every run and however late results arrive |
| CircuitBreaker.FloodBoundIsReached | services/ai-gateway/internal/domain/circuit_breaker.go:106-133 | the flood bound is attained for every configuration |
| CircuitBreaker.RoundsOfProbes | services/ai-gateway/internal/domain/circuit_breaker.go:136-172 | with no success recorded, each completed cooldown buys at most one round of halfOpenMaxProbes admissions |
| CircuitBreaker.DeadProviderLoad | services/ai-gateway/internal/domain/circuit_breaker.go:136-172 | if every recorded result is a failure, at most halfOpenMaxProbes calls per completed cooldown are admitted after a trip, and none before the first |
| CircuitBreaker.DeadProviderLoadIsExact | services/ai-gateway/internal/domain/circuit_breaker.go:136-172 | after any trip, a number bounds what such a provider is sent within a time if and only if it is at least halfOpenMaxProbes for each cooldown completed in it |
| ProbeSlots.ActAccounts | services/ai-gateway/internal/domain/circuit_breaker.go:90-154 | each step of any interleaving of callers keeps the slot accounting |
| ProbeSlots.SlotAccounting | services/ai-gateway/internal/domain/circuit_breaker.go:95-134 | in HALF_OPEN, over every interleaving, slots reserved are this epoch's outstanding or dropped calls less at most one per late result; with none late they are equal and never pass halfOpenMaxProbes |
| ProbeSlots.SequentialSlots | services/ai-gateway/internal/domain/gateway_service.go:355-405 | for requests served one after another the slots held are exactly the attempts of this epoch whose client left, which decides exactly when the next request is admitted |
| ProbeSlots.LockedOutExactly | services/ai-gateway/internal/domain/circuit_breaker.go:95-134 | over every interleaving, no later step of any caller is ever admitted if and only if the breaker is HALF_OPEN with every slot reserved and no call of any epoch still out |
| ProbeSlots.StuckExactly | services/ai-gateway/internal/domain/gateway_service.go:384-387 | for attempts made one after another, every later one is refused at any time if and only if departures of this epoch hold every slot |
| ProbeSlots.StuckIsReached | services/ai-gateway/internal/domain/gateway_service.go:384-387 | every configuration has a run of attempts that ends stuck |
| Registries.CandidatesAreEligible | services/ai-gateway/internal/domain/provider_registry.go:46-94 | a pin yields at most that one kind and never another provider; unpinned requests may try every provider that serves the model, and only those |
| Registries.UnpinnedInOrder | services/ai-gateway/internal/domain/provider_registry.go:65-94 | unpinned, the candidates are the providers at a strictly increasing sequence of places in the registration order, which are exactly the places of those that serve the model: each is tried once and none before one registered earlier |
| Registries.PinnedIsTheLatest | services/ai-gateway/internal/domain/provider_registry.go:38-64 | pinned, the candidate is the provider registered last under that kind, if it serves the model |
| Registries.ProviderRegistry.constructor | services/ai-gateway/internal/domain/provider_registry.go:38-44 | the index holds, for each kind, the provider last registered under it |
| Registries.ProviderRegistry.Route | services/ai-gateway/internal/domain/provider_registry.go:58-72 | the candidate list is the specified one, in failover order |
| Registries.BreakerRegistry.constructor | services/ai-gateway/internal/domain/breaker_registry.go:45-67 | starts with no breaker and a positive configuration |
| Registries.BreakerRegistry.Get | services/ai-gateway/internal/domain/breaker_registry.go:72-88 | returns the kind's one breaker, creating it CLOSED on first use and leaving the others as they were |
| Registries.BreakerRegistry.State | services/ai-gateway/internal/domain/breaker_registry.go:95-103 | an unseen kind reads CLOSED and stays unseen |
| Registries.BreakerRegistry.Ask | services/ai-gateway/internal/domain/gateway_service.go:355-361 | getting and asking the kind's breaker changes that breaker only |
| Registries.BreakerRegistry.Tell | services/ai-gateway/internal/domain/gateway_service.go:393-402 | recording a result changes that breaker only |
| Failover.StreamedDelivers | services/ai-gateway/internal/domain/gateway_service.go:545-585 | streaming one provider forwards an in-order prefix of its tokens; which of clean, recoverable, aborted or sink-failed it returns is characterized by the tokens, the end of the stream and the refused frame |
| Failover.RouteUnspliced | services/ai-gateway/internal/domain/gateway_service.go:355-417 | the last candidate visited is the only one of which a token was forwarded; those called before it failed silently; the outcome is decided by that one stream or by there being nobody left |
| Failover.NoSplicedAnswer | services/ai-gateway/internal/domain/gateway_service.go:313-417 | for every candidate list, breaker state, provider behaviour and sink failure the client accepts an in-order prefix of one provider's tokens and at most one Done frame, last; a clean answer is all of that provider's tokens, and no candidate is visited after a token was forwarded |
| Failover.RouteVisits | services/ai-gateway/internal/domain/gateway_service.go:355-405 | breakers change only by the visits, and only the last visit of a request can leave a slot held |
| Failover.BreakersAreIndependent | services/ai-gateway/internal/domain/breaker_registry.go:69-88 | each provider's breaker is its own attempts replayed, whatever happens on the others |
| Routing.Client.Push | services/ai-gateway/internal/domain/gateway_service.go:80 | the caller's sink accepts or refuses a frame |
| Routing.CapturingSink.Push | services/ai-gateway/internal/domain/gateway_service.go:331-344 | the wrapper forwards, and keeps the text of accepted deltas only |
| Routing.StreamOne | services/ai-gateway/internal/domain/gateway_service.go:545-585 | the draining loop with its forwarded flag computes the specified stream result and wire |
| Routing.TryCandidate | services/ai-gateway/internal/domain/gateway_service.go:355-405 | one turn of the loop asks, streams and records as specified; a sink failure records nothing |
| Routing.RouteAndStream | services/ai-gateway/internal/domain/gateway_service.go:355-417 | the failover loop over the objects computes the specified outcome, breakers and frames sent |
| Routing.Conclude | services/ai-gateway/internal/domain/gateway_service.go:384-417 | the terminal frame goes out on exhaustion and on an abort, and not when the client has gone |
| Cosine.CosineSimilarity | services/ai-gateway/internal/domain/cache.go:129-144 | the accumulating loop computes the similarity of which the law of cosines, the bounds and the symmetry are proved, 0 for a degenerate pair |
| Cosine.LawOfCosines | services/ai-gateway/internal/domain/cache.go:127-144 | of two non-zero vectors of one length the squared distance is the sum of the squared lengths less twice the product of the lengths and the similarity, which fixes its value; of all others the similarity is 0 |
| Cosine.CauchySchwarz | services/ai-gateway/internal/domain/cache.go:129-144 | the square of the dot product is at most the product of the squared norms, for vectors of any length |
| Cosine.SimilarityBounded | services/ai-gateway/internal/domain/cache.go:127-144 | similarity lies in [-1, 1] |
| Cosine.SimilaritySymmetric | services/ai-gateway/internal/domain/cache.go:127-144 | similarity is symmetric |
| Cosine.SimilarityIgnoresScale | services/ai-gateway/internal/domain/cache.go:127-144 | scaling a vector by a positive factor changes nothing |
| Cosine.SimilarityToSelf | services/ai-gateway/internal/domain/cache.go:127-144 | a non-zero vector is at similarity 1 with itself; a zero vector at 0 |
| SemanticCache.NearestByCosine | services/ai-gateway/internal/domain/cache.go:159-169 | the scan returns the first index of greatest similarity, or -1 for an empty set |
| SemanticCache.RedisCache.constructor | services/ai-gateway/internal/cache/redis_cache.go:103-113 | the cap is the one given if positive and otherwise 256 |
| SemanticCache.RedisCache.Store | services/ai-gateway/internal/cache/redis_cache.go:168-183 | push at the head and trim to the cap, or no change on failure |
| SemanticCache.RedisCache.Lookup | services/ai-gateway/internal/cache/redis_cache.go:130-161 | the answer is the nearest decodable entry of the team's capped list, the newest on ties, or nothing |
| SemanticCache.AnswerIsUnique | services/ai-gateway/internal/cache/redis_cache.go:130-161 | a lookup has exactly one answer |
| SemanticCache.KeysSeparateTeams | services/ai-gateway/internal/cache/redis_cache.go:118-121 | two teams share a key only if they are the same team |
| SemanticCache.ListIsRecentHistory | services/ai-gateway/internal/cache/redis_cache.go:168-183 | after any interleaving of stores and expiries a team's list is its last min(n, max) stores since the last expiry, newest first |
| SemanticCache.HitsExactly | services/ai-gateway/internal/cache/redis_cache.go:130-183 | a request hits if and only if a retained decodable push reaches the threshold; the entry replayed is nearest, newest among equals, of the query's length and of non-zero norm |
| GatewayService.Threshold | services/ai-gateway/internal/domain/gateway_service.go:186-189 | the threshold in force is the one given if positive and otherwise 0.95 |
| GatewayService.Gateway.Charge | services/ai-gateway/internal/domain/gateway_service.go:436-453 | deducts and adds only for a named team with tokens, each unless its store fails |
| GatewayService.Gateway.Remember | services/ai-gateway/internal/domain/gateway_service.go:455-473 | stores only with a usable embedding and a non-empty answer |
| GatewayService.Gateway.Publish | services/ai-gateway/internal/domain/gateway_service.go:475-503 | publishes one served event, or none when the publisher is absent or fails |
| GatewayService.Gateway.Meter | services/ai-gateway/internal/domain/gateway_service.go:419-503 | everything a served completion leaves behind |
| GatewayService.Gateway.Settle | services/ai-gateway/internal/domain/gateway_service.go:384-505 | what each outcome of the failover loop leads to |
| GatewayService.Gateway.StreamFromProviders | services/ai-gateway/internal/domain/gateway_service.go:320-417 | streams through the capturing sink and returns exactly the text accepted |
| GatewayService.Gateway.Candidates | services/ai-gateway/internal/domain/gateway_service.go:312-318 | the candidates of the request, in failover order |
| GatewayService.Gateway.ServeFrom | services/ai-gateway/internal/domain/gateway_service.go:320-505 | streaming from the candidates and settling what came of it |
| GatewayService.Gateway.ServeByProvider | services/ai-gateway/internal/domain/gateway_service.go:312-505 | the miss path as specified, with no candidate answered by one error frame |
| GatewayService.Gateway.FinishCacheHit | services/ai-gateway/internal/domain/gateway_service.go:281-294 | a hit replays one delta, publishes one event and charges nothing; a sink failure aborts it |
| GatewayService.Gateway.FindCached | services/ai-gateway/internal/domain/gateway_service.go:263-298 | a lookup happens only with a cache, an embedding and a store that answers |
| GatewayService.Gateway.ChatCompletion | services/ai-gateway/internal/domain/gateway_service.go:206-506 | the whole request: the gates in order, hit or miss, and every store, breaker and frame afterwards |
| GatewayRuns.CompletedIsServedInFull | services/ai-gateway/internal/domain/gateway_service.go:355-434 | a completion delivered all tokens of the provider it names (the pinned one if pinned), with the token counts and finish reason of that provider's terminal frame, their wrapped total and their price |
| GatewayRuns.GatesExactly | services/ai-gateway/internal/domain/gateway_service.go:207-242 | which of no messages, a forbidden model and a spent budget a request is refused for, exactly and in that order; a refused request changes nothing and is sent nothing |
| GatewayRuns.FailuresLeaveNoTrace | services/ai-gateway/internal/domain/gateway_service.go:312-417 | a request neither completed nor replayed changes nothing but breakers; one that finds no provider, or none that works, is sent the error frame last, and an answer that broke off is told from one that never began by whether any of it arrived |
| GatewayRuns.StoresExactly | services/ai-gateway/internal/domain/gateway_service.go:455-473 | what a completed request leaves in the cache, exactly: the text its client received, unless that is empty or there is no cache, embedding or store, with its prompt, embedding, price and provider |
| GatewayRuns.PromptIsLines | services/ai-gateway/internal/domain/gateway_service.go:641-660 | the prompt is one line a message, in order, each after the name of who said it |
| GatewayRuns.ListAfterRequest | services/ai-gateway/internal/domain/gateway_service.go:455-473 | a request changes at most its own team's list, and only by pushing what it itself completed |
| GatewayRuns.EveryEntryWasLeft | services/ai-gateway/internal/cache/redis_cache.go:168-183 | over every run, each entry of a team's list was left by an earlier completed request of that team |
| GatewayRuns.ReplayFidelity | services/ai-gateway/internal/domain/gateway_service.go:276-298 | what a hit replays to a team is the text, usage and provider of one earlier request of the same team that was served in full |
| GatewayRuns.ListIsRecentCompletions | services/ai-gateway/internal/cache/redis_cache.go:168-183 | after every run a team's list is its last min(n, maxEntries) stored completions since its key expired, newest first |
| GatewayRuns.RequestHitsExactly | services/ai-gateway/internal/domain/gateway_service.go:276-298 | after every run a request replays the nearest, newest among equals, of its team's last maxEntries stored completions if and only if one clears the threshold, and is served otherwise |
| GatewayRuns.ReplayIgnoresPin | services/ai-gateway/internal/domain/gateway_service.go:276-294 | whatever the pin and the model say, a replay names the provider that left the nearest entry its team retains |
| GatewayRuns.PinIsPassedOver | services/ai-gateway/internal/domain/gateway_service.go:276-294 | in every setup with a cache and a threshold of at most one, some run has an answer by one provider replayed to a request pinned to another |
| GatewayRuns.PinsArePassedOverExactly | services/ai-gateway/internal/domain/gateway_service.go:276-294 | some run has an answer of a provider replayed past a pin to another if and only if the cache is wired, its threshold is at most one and the provider is registered |
| Metering.RequestAppends | services/ai-gateway/internal/domain/gateway_service.go:419-506 | what each kind of reply appends to the three ledgers |
| Metering.EventSays | services/ai-gateway/internal/domain/gateway_service.go:475-503 | a completed or replayed request publishes one event, others none; it names the team, the model, whose answer it was, its usage and whether it was replayed, and carries the prompt and the text the client received if and only if texts are asked for |
| Metering.LedgersAgreeExactly | services/ai-gateway/internal/domain/gateway_service.go:425-453 | a completion moves the three ledgers alike if and only if its token counts are non-negative with a sum that fits 32 bits, or the sum wraps to zero |
| Metering.OverflowIsNotDeducted | services/ai-gateway/internal/domain/gateway_service.go:425-441 | a completion whose token counts overflow 32 bits is announced with a negative total, and nothing is deducted or added for it |
| Metering.OverflowIsReached | services/ai-gateway/internal/domain/gateway_service.go:425-441 | a request to a registered provider whose terminal frame carries such counts does this |
| Metering.MeteringConserved | services/ai-gateway/internal/domain/gateway_service.go:419-506 | over every run without store failures a named team's deductions, usage total and miss-event tokens are equal |
| Metering.EventsAreBilled | services/ai-gateway/internal/domain/gateway_service.go:425-488 | every miss event carries its wrapped total and the price of its own provider |
| Metering.ChargesAreClose | services/ai-gateway/internal/domain/cost.go:57-70 | n misses together cost at most the exact price and less than 2n micro-USD below it |
| Metering.RunChargesAreClose | services/ai-gateway/internal/domain/cost.go:57-70 | the same of the misses of every run of requests whose token counts are not negative |
| Cost.CostRoundsDown | services/ai-gateway/internal/domain/cost.go:62-70 | a price rounds down by less than two micro-USD and fits 64 bits |
| Cost.PartsAreTruncated | services/ai-gateway/internal/domain/cost.go:62-70 | prompt and answer are priced apart, each rounded toward zero |
| Cost.PricesPerThousand | services/ai-gateway/internal/domain/cost.go:41-70 | what a thousand tokens of prompt and of answer cost with each provider, nothing for an unknown one |
| Domain.Add32Wraps | services/ai-gateway/internal/domain/gateway_service.go:425 | the sum of two counts is the true one up to a multiple of 2 to the 32nd, and the true one if that fits |
| GatewayBreakers.RequestVisits | services/ai-gateway/internal/domain/gateway_service.go:355-405 | a request touches the breakers only by its visits; only a sink failure on its last one leaves a slot held |
| GatewayBreakers.AbortsWhenRefused | services/ai-gateway/internal/domain/gateway_service.go:281-298 | an aborted request had its last token refused and all those before accepted; a completed or replayed one had every frame accepted, and of a failed one at most the error frame was refused |
| GatewayBreakers.EveryAttemptIsARequest | services/ai-gateway/internal/domain/gateway_service.go:355-405 | every sequence of attempts on a registered provider is what some run of requests makes of it |
| GatewayBreakers.LockoutIsReached | services/ai-gateway/internal/domain/gateway_service.go:384-387 | in every setup some run of requests locks a registered provider out for ever |
| GatewayBreakers.SlotsLeftByAborts | services/ai-gateway/internal/domain/gateway_service.go:384-387 | over every run of requests a provider's reserved slots are exactly the client aborts of the epoch, which decides when it is admitted next and when it is locked out for ever |
| GatewayOverlap.AllAreSound | services/ai-gateway/internal/domain/gateway_service.go:355-434 | under every interleaving each request is at every moment where its own steps can have brought it: nothing sent until a provider's stream, then that one provider's tokens |
| GatewayOverlap.OverlappedAnswersAreUnmixed | services/ai-gateway/internal/domain/gateway_service.go:355-434 | under every interleaving a finished request showed the tokens of one provider alone, all of them if it completed, or the one text it replayed |
| GatewayOverlap.OverlappedReplayFidelity | services/ai-gateway/internal/domain/gateway_service.go:276-298 | under every interleaving what a hit replays is the text, usage and provider of one request of the same team that was served in full and stored |
| GatewayOverlap.OverlappedListIsRecent | services/ai-gateway/internal/cache/redis_cache.go:168-183 | under every interleaving a team's list is its last min(n, maxEntries) stored completions since its key expired, newest store first |
| GatewayOverlap.OverlappedHitsExactly | services/ai-gateway/internal/domain/gateway_service.go:276-298 | under every interleaving a lookup hits if and only if an entry retained at that moment clears the threshold, and replays the nearest, newest among equals |
| GatewayOverlap.SoloIsHandle | services/ai-gateway/internal/domain/gateway_service.go:229-298 | a request whose steps nobody interrupts does exactly what the whole-request specification says, in state, reply and frames |
| GatewayOverlap.SerialRunsOverlap | services/ai-gateway/internal/domain/gateway_service.go:355-480 | every run of requests one after another is one of these interleavings |
| OverlapBreakers.NeverCalledExactly | services/ai-gateway/internal/domain/gateway_service.go:384-387 | under every interleaving a provider is never called again, whatever the requests in progress do and whichever arrive, if and only if its breaker is HALF_OPEN with every slot reserved and every request still streaming from it will lose its client |
| OverlapBreakers.RequestsAreCallers | services/ai-gateway/internal/domain/gateway_service.go:355-405 | under every interleaving each provider's breaker is one shared by concurrent callers, whose calls out are exactly the requests streaming from the provider |
| OverlapBreakers.OverlappedSlots | services/ai-gateway/internal/domain/circuit_breaker.go:95-134 | under every interleaving of requests, in HALF_OPEN, slots reserved are this epoch's streaming or abandoned requests less at most one per late result, and those never pass the flood bound |
| TokenBudget.Configured | services/ai-gateway/internal/budget/redis_budget.go:129-148 | the window is the one given if positive and otherwise 3600 seconds; a non-positive budget means no cap |
| TokenBudget.RedisBudget.constructor | services/ai-gateway/internal/budget/redis_budget.go:129-148 | with these limits, and nothing stored for any team |
| TokenBudget.RedisBudget.Run | services/ai-gateway/internal/budget/redis_budget.go:64-102 | the atomic step refills, spends, answers whether a token was left (on a check) or enough (on a deduction) and rounds down the rest; what is stored for the team afterwards is what it wrote, and for every other team what was stored before |
| TokenBudget.RedisBudget.Check | services/ai-gateway/internal/budget/redis_budget.go:159-168 | allowed exactly when the team's own refilled balance is at least one token; always without a cap; never when the store is down; no other team is touched |
| TokenBudget.RedisBudget.Deduct | services/ai-gateway/internal/budget/redis_budget.go:173-182 | subtracts from the team's own refilled balance, which may go negative, and from no other; no-op without a cap or for non-positive tokens |
| TokenBudget.RedisBudget.Usage | services/ai-gateway/internal/budget/redis_budget.go:186-199 | consumption is the missing balance of the team rounded up to whole tokens, never negative, or the store's error |
| TokenBudget.TouchedBuckets | services/ai-gateway/internal/budget/redis_budget.go:205-212 | an operation on the store is seen by its own team and by no other |
| TokenBudget.BucketsArePerTeam | services/ai-gateway/internal/budget/redis_budget.go:205-212 | after any sequence of operations for any teams, what is stored for each team is what its own operations alone would have left |
| TokenBudget.AllowedExactly | services/ai-gateway/internal/budget/redis_budget.go:64-102 | with a steady clock and no expiry, after any operations for any teams a check is allowed if and only if the team's continuous balance, by its own deductions, is at least one token |
| TokenBudget.ContinuousInClosedForm | services/ai-gateway/internal/budget/redis_budget.go:81-84 | the continuous balance is the least, over past charges, of what a full bucket would have left since then, capped by the budget |
| TokenBudget.LazyRefillIsContinuous | services/ai-gateway/internal/budget/redis_budget.go:64-102 | with a steady clock and no expiry the lazily refilled balance equals the continuously refilled one, given only the charges |
| TokenBudget.PeeksAreInvisible | services/ai-gateway/internal/budget/redis_budget.go:86-102 | histories with the same charges are told apart by no later operation, however many checks and usage queries were interleaved |
| TokenBudget.EvictionIsRefillExactly | services/ai-gateway/internal/budget/redis_budget.go:137-139 | losing the key gives what refill would have given if and only if the stored balance was at least minus sixty seconds of refill |
| BudgetGate.MoveStaysAfloat | services/ai-gateway/internal/domain/gateway_service.go:229-242 | each check, unanswered check, deduction, lost deduction, failure or query keeps the balance above the floor that the requests in flight allow |
| BudgetGate.BalanceFloor | services/ai-gateway/internal/domain/gateway_service.go:229-242 | with at most k requests in flight of at most m tokens and f checks unanswered, so let through, the balance stays within [1 - (k + f) m, budget], whatever the clock and the expiry do and whichever deductions are lost |
| BudgetGate.FloorIsReached | services/ai-gateway/internal/domain/gateway_service.go:436-441 | for every k, f and m some run reaches 1 - (k + f) m exactly |
| BudgetGate.FloorIsExact | services/ai-gateway/internal/domain/gateway_service.go:229-242 | a number bounds the balance from below in every such run if and only if it is at most 1 - (k + f) m |
| BudgetGate.OvershootIsOneRequestExactly | services/ai-gateway/internal/domain/ports.go:84-100 | the documented overshoot of at most one request's tokens, a balance of -m or more in every run, holds if and only if requests do not overlap and every check is answered, or m is 1 and two requests at most are in flight or unchecked |
| BudgetGate.ServedIsSpentOrLost | services/ai-gateway/internal/domain/gateway_service.go:436-441 | tokens served are those deducted and those whose deduction was lost |
| BudgetGate.SpendIsPaidFor | services/ai-gateway/internal/budget/redis_budget.go:81-102 | deducted tokens are paid out of the opening balance, the refill since and what requests in flight and unchecked ones overdraw, in every stretch without eviction |
| BudgetGate.SpendBound | services/ai-gateway/internal/budget/redis_budget.go:81-102 | between evictions a stretch serves at most the budget, its refill and (k + f + g) m - 1, with f checks unanswered and g deductions lost in it |
| BudgetGate.SpendIsReached | services/ai-gateway/internal/budget/redis_budget.go:81-102 | while n tokens are refilled exactly budget + n + (k + f + g) m - 1 can be served: the budget at once, each token as it comes, the overdrafts last |
| BudgetGate.StretchSpendIsExact | services/ai-gateway/internal/budget/redis_budget.go:28-32 | what a stretch of any length without eviction can serve, exactly: a number bounds it if and only if it is at least budget + the whole tokens refilled in that time + (k + f + g) m - 1, so a short burst is held to one budget and the overdrafts |
| BudgetGate.WindowSpendBound | services/ai-gateway/internal/budget/redis_budget.go:129-139 | one window serves at most 2 budget + (k + f + g) m - 1, whatever the expiry does |
| BudgetGate.WindowSpendIsReached | services/ai-gateway/internal/budget/redis_budget.go:81-102 | for every k, f, g and m some window serves exactly 2 budget + (k + f + g) m - 1, one budget being refilled meanwhile |
| BudgetGate.WindowSpendIsExact | services/ai-gateway/internal/budget/redis_budget.go:28-32 | what one window can serve, exactly, whatever the expiry does: a number bounds it if and only if it is at least 2 budget + (k + f + g) m - 1 |
| OverlapBudget.VaultIsAHall | services/ai-gateway/internal/domain/gateway_service.go:229-242 | overlapping requests whose checks the bucket answers are an interleaving of requests, so that what holds of all of those holds of them |
| OverlapBudget.AdvancedDeducts | services/ai-gateway/internal/domain/gateway_service.go:436-441 | of all steps of a request only the deducting write deducts: the completion's total, when it has a team and the total is positive |
| OverlapBudget.OverlapsAreGateRuns | services/ai-gateway/internal/domain/gateway_service.go:229-242 | under every interleaving requests are, for each team, a run of the budget gate with as many in flight as overlap: they leave the team's bucket as that run does, and what was deducted and served is what it spent and served |
| OverlapBudget.OverlapsKeepTheFloor | services/ai-gateway/internal/domain/gateway_service.go:436-441 | under every interleaving a team's balance lies between 1 - (k + f) m and the budget, what the gateway deducted is what the bucket was charged, and it covers what was served but for lost deductions |
| OverlapBudgetExact.GateRunsAreOverlaps | services/ai-gateway/internal/domain/gateway_service.go:229-242 | conversely every run of the gate with positive counts that fit 32 bits is made by some overlapping requests to any registered provider |
| OverlapBudgetExact.OverlapFloorIsExact | services/ai-gateway/internal/domain/gateway_service.go:229-242 | a number bounds a team's balance from below under every interleaving of requests, at most k of which overlap, if and only if it is at most 1 - (k + f) m |
| OverlapBudgetExact.OverlapWindowIsExact | services/ai-gateway/internal/budget/redis_budget.go:28-32 | a number bounds what overlapping requests of a team are served in every window if and only if it is at least 2 budget + (k + f + g) m - 1 |
| Consumer.ProcessedStore.IsProcessed | pkg/natsutil/idempotency.go:80-85 | answers membership, or fails |
| Consumer.ProcessedStore.MarkProcessed | pkg/natsutil/idempotency.go:88-93 | adds the event; a failing call may have stored it all the same |
| Consumer.Subscriber.HandleMessage | pkg/natsutil/subscriber.go:269-347 | one delivery performs exactly the specified effects in order, and marks before it acks |
| Consumer.Subscriber.HandlerSucceeded | pkg/natsutil/subscriber.go:333-346 | marks the event before it acks, and naks when the mark fails |
| Consumer.Subscriber.HandlerFailed | pkg/natsutil/subscriber.go:350-439 | dead-letters and terms on the final delivery, naks otherwise; a failing or absent dead-letter subject drops the message |
| Consumer.DeliveryVerdict | pkg/natsutil/subscriber.go:269-363 | a completed delivery gives exactly one verdict, last, and what each verdict implies |
| Consumer.EffectsUnderRedelivery | pkg/natsutil/subscriber.go:295-347 | over every run, successful handler runs of an event number one if it is recorded plus one for each time the record was lost |
| Consumer.DeliveryRecords | pkg/natsutil/subscriber.go:298-344 | no handler runs on a recorded event; a record is lost only by a failed mark or a crash before it |
| Consumer.RecordedStaysHandled | pkg/natsutil/subscriber.go:298-312 | after the event is recorded its handler never runs on it again, with success or without, in any continuation |
| Consumer.AckedIsRecorded | pkg/natsutil/subscriber.go:333-346 | an acked event has been recorded |
| Consumer.DeliveriesAreBounded | pkg/natsutil/subscriber.go:450-459 | with a retry cap no message is delivered or handled more than maxRetries + 1 times |
| Consumer.RedeliveredExactly | pkg/natsutil/subscriber.go:441-459 | an unsettled message can be delivered again if and only if it has had at most maxRetries deliveries or there is no cap |
| Consumer.ExhaustedMessages | pkg/natsutil/subscriber.go:349-363 | a message out of deliveries was acked, was routed to the DLQ, or its last delivery crashed or ended in a NAK for a store or metadata error |
| Consumer.FinalDeliveryKeepsACopyExactly | pkg/natsutil/subscriber.go:298-363 | over every run and continuation, a message out of deliveries whose last one completed unacked is never delivered again, and is dead-lettered if and only if that delivery's store check was answered, its handler failed before the message's deadline, its metadata was readable and the DLQ took it |
| Consumer.DeadLetteredByTheLast | pkg/natsutil/subscriber.go:349-363 | only a message's last delivery can have dead-lettered it |
| Consumer.TimedOutIsNotDeadLettered | pkg/natsutil/subscriber.go:289-293 | a message whose last delivery ran past its deadline is never dead-lettered, in any continuation: the spent context fails the DLQ publish |
| Consumer.OutageLosesMessage | pkg/natsutil/subscriber.go:298-312 | while the store does not answer, some run NAKs a message to its last delivery, after which no continuation delivers or dead-letters it |
| Consumer.SlownessLosesMessage | pkg/natsutil/subscriber.go:406-436 | with the store and the DLQ in order, a message whose handler exceeds its deadline each time is dropped: no continuation delivers or dead-letters it |
| Consumer.RoutedOnce | pkg/natsutil/subscriber.go:356-359 | a message is routed to the DLQ at most once, and only on delivery maxRetries + 1 |
| CanonicalRecord.Builder.WriteField | pkg/audit/record.go:254-261 | appends exactly one field |
| CanonicalRecord.CanonicalJSON | pkg/audit/record.go:225-246 | the builder writes the twelve fields in the fixed order |
| CanonicalRecord.EscapedReadsBack | pkg/audit/record.go:248-261 | every escape of a unit, stray bytes included, reads back as that unit and never starts with a quote |
| CanonicalRecord.QuoteReadsBack | pkg/audit/record.go:248-261 | a quoted text reads back whole and leaves the rest untouched |
| CanonicalRecord.FieldsReadBack | pkg/audit/record.go:225-261 | any number of fields read back in order, whatever follows |
| CanonicalRecord.CanonicalRoundTrip | pkg/audit/record.go:211-246 | decoding the canonical encoding gives back the record, for arbitrary field values |
| CanonicalRecord.CanonicalIsInjective | pkg/audit/record.go:211-246 | two records share an encoding if and only if they are equal |
| CanonicalRecord.CanonicalSpells | pkg/audit/record.go:225-261 | the encoding of a record of texts that need no escape is, byte for byte, the twelve named pairs in this order between braces |
| CanonicalRecord.EscapesByName | pkg/audit/record.go:248-261 | quotes, backslashes and the seven control characters with a name are escaped by it, printable characters stand for themselves |
| CanonicalRecord.EscapesInHex | pkg/audit/record.go:248-261 | any other character is its code in two, four or eight hexadecimal digits, by its size |
| CanonicalRecord.StraysInHex | pkg/audit/record.go:248-261 | a byte that is no part of a character is its value in two hexadecimal digits |
| AuditChain.ChainHash | pkg/audit/record.go:204-209 | hashes the previous hash followed by the canonical encoding |
| AuditChain.CanonicalIsFaithful | pkg/audit/record.go:225-246 | the canonical encoding is injective and opens with a brace |
| AuditChain.SealedSplitsOnce | pkg/audit/record.go:204-209 | the hashed concatenation splits in only one way when the previous hash is empty or a digest |
| AuditChain.TamperEvident | pkg/audit/record.go:178-209 | two different logs with the same head hash yield two distinct texts with the same SHA-256, one hashed in building the one log's chain and the other in building the other's |
| AuditChain.CanonicalLogsAreTamperEvident | pkg/audit/record.go:178-209 | the same for the chain over the canonical encoding itself: the two texts are among those that `ChainHash` hashed for the two logs |
| AuditChain.Repository.ReadHead | services/auth/internal/audit/repository.go:209-226 | genesis values on an empty table, the last entry hash and the next number otherwise |
| AuditChain.Repository.Commit | services/auth/internal/audit/repository.go:138-196 | one transaction under the lock appends a sealed row and reports its number and hash, or does nothing for an event already stored |
| AuditChain.Repository.Append | services/auth/internal/audit/repository.go:120-196 | the same, and what is reported to the caller, whatever other appends commit between the first lookup and the lock |
| AuditChain.ReportsTheRow | services/auth/internal/audit/repository.go:120-196 | an append reports that it appended if and only if no append before it stored the event, and then the number and the hash of the row it added; an event found at once is reported with its own row |
| AuditChain.TableOfARun | services/auth/internal/audit/repository.go:120-196 | however often and in whatever order events are redelivered, the table is the hash chain of their first deliveries |
| AuditChain.FirstsAreDistinct | services/auth/internal/audit/repository.go:109-119 | no event has two rows |
| AuditChain.RunsVerify | services/auth/internal/audit/repository.go:71-95 | given the sealed records, every run's table is one linear chain that verifies, numbered 1, 2, 3 without gaps |
| AuditChain.HeadPinsTheLog | pkg/audit/record.go:178-199 | a table whose records verify and that ends in a run's head hash holds exactly that run's records, or a text hashed for the run collides with one hashed for the table |
| AuditChain.EditIsFound | pkg/audit/record.go:184-186 | an edited record fails at its own row, or its text collides with the one that was sealed |
| AuditChain.MovedRowIsFound | pkg/audit/record.go:187-190 | a row put after any row but its own predecessor (deletion, reordering) does not link to it, or two of the texts hashed for the table collide |
| AuditChain.ColumnsRecomputeExactly | services/auth/internal/audit/repository.go:162-182 | recomputed from the stored columns alone an entry hash is right if and only if the source service was empty and the time had no part below a microsecond, collisions apart |
| AuditChain.ReadBackVerifiesExactly | services/auth/migrations/002_audit_log.up.sql:88-110 | a table read back from its columns verifies if and only if every record survives them, collisions apart |
| AuditInterceptors.BuildRecord | pkg/audit/interceptor.go:190-230 | a denial is always recorded, anything else only for a security-relevant method, with these fields |
| AuditInterceptors.ActorFromContext | pkg/audit/interceptor.go:251-269 | the actor always has a user id |
| AuditInterceptors.ActorSays | pkg/audit/interceptor.go:251-269 | without claims, or with claims that name no user, the user is anonymous; all else is as the claims say |
| AuditInterceptors.MarkAudited | pkg/audit/deny.go:83-87 | sets the marker where there is one |
| AuditInterceptors.Inner | pkg/audit/interceptor.go:117-141 | returns the handler's result untouched, records at most once and sets the marker exactly when it records |
| AuditInterceptors.Auth | pkg/grpcutil/interceptors.go:294-320 | a refusal reaches neither handler nor sink nor marker; otherwise the claims are passed on |
| AuditInterceptors.Serve | pkg/audit/deny.go:102-128 | the call's result is auth's refusal or the handler's, and the sink gets exactly the call's trail |
| AuditInterceptors.TrailAttests | pkg/audit/interceptor.go:190-297 | every record a call leaves states ALLOW if and only if the call succeeded, DENY if and only if it ended in Unauthenticated or PermissionDenied and ERROR otherwise; with the method, the code's name, an error text exactly if there was an error, and the resource, correlation id, source and time of the call |
| AuditInterceptors.AdmittedExactly | pkg/grpcutil/interceptors.go:302-318 | a call gets through authentication if and only if there is none for it or its token is accepted, and then as whom the validator says |
| AuditInterceptors.RefusalSays | pkg/grpcutil/interceptors.go:342-372 | the code and the message of every refusal: a message of the validator's own reaches the client only with a denial |
| AuditInterceptors.RecordedOnceExactly | pkg/audit/deny.go:11-60 | every call is recorded exactly as often as it should be if and only if the inner interceptor is installed and the outer one is wherever there is authentication |
| AuditInterceptors.AttributionExactly | pkg/audit/deny.go:25-56 | a record names who the call was let through as if and only if the inner interceptor is installed or that is nobody |
| AuditInterceptors.FinishedCallsLeaveTheirTrail | pkg/audit/deny.go:73-128 | under every interleaving of concurrent calls each finished call has left exactly its own trail |
| SseReader.IndexOfDelimiter | web/src/hooks/useChat.ts:248 | the position is that of the first blank line |
| SseReader.DrainMore | web/src/hooks/useChat.ts:241-253 | draining a longer text picks up where draining a shorter one left off |
| SseReader.ChunkingDoesNotMatter | web/src/hooks/useChat.ts:241-253 | for every way of cutting the text into chunks the state, and whether and why the loop stopped, are those of the whole text; the leftover buffer has no delimiter and is the same if nothing stopped |
| SseReader.ParseRecord | web/src/hooks/useChat.ts:191-200 | the loop over a record's lines |
| SseReader.RecordSays | web/src/hooks/useChat.ts:192-200 | the data of a record are its data lines in order, its event is the last one named; comments and other lines say nothing, wherever they come |
| SseReader.LinesOfJoined | web/src/hooks/useChat.ts:194-200 | joining several data lines loses none: splitting again gives them back |
| SseReader.TrimmedExactly | web/src/hooks/useChat.ts:196-197 | trimming takes space off both ends and nothing else, and leaves none there |
| SseReader.ItemReadsBack | services/bff/internal/handlers/pipelines.go:499-529 | an event as the relay writes it is parsed as that event, and a heartbeat as nothing |
| SseReader.WrittenIsRead | services/bff/internal/handlers/pipelines.go:499-529 | a written stream, cut off anywhere, is read as the items that got through whole |
| SseReader.CutFrameHasNoDelimiter | services/bff/internal/handlers/pipelines.go:507-523 | nothing of a frame cut short is handled |
| SseReader.StreamDelivers | web/src/hooks/useChat.ts:185-253 | however a written stream arrives, the hook reacts to the items themselves |
| SseReader.PingsAreInvisible | services/bff/internal/handlers/ai.go:224-228 | heartbeats change nothing |
| SseReader.ReactAppend | web/src/hooks/useChat.ts:185-253 | reacting to events in two parts is reacting to them all, unless the first part ends it |
| ChatStream.Chat.HandleRecord | web/src/hooks/useChat.ts:191-239 | one record's effect on every piece of state, and whether reading stops or throws |
| ChatStream.Chat.Records | web/src/hooks/useChat.ts:246-252 | the inner loop handles the records a chunk completes |
| ChatStream.Chat.Read | web/src/hooks/useChat.ts:241-268 | the read loop and how it settles on a stop, a drop or an end |
| ChatStream.Chat.Send | web/src/hooks/useChat.ts:118-272 | a turn starts clean and ends as the response dictates |
| ChatStream.SameTextSameView | web/src/hooks/useChat.ts:185-268 | the same text shows the same assistant message, status and metadata however it is cut |
| ChatStream.RelayedChat | services/bff/internal/handlers/ai.go:218-272 | end to end, a relayed completion shows its deltas in order, done, with the metadata of its frames, whatever heartbeats and chunking |
| ChatStream.DroppedChat | web/src/hooks/useChat.ts:241-261 | a connection dropped mid-stream shows exactly the deltas that came through whole, and an error |
| ChatStream.UnfinishedChat | web/src/hooks/useChat.ts:202-268 | a stream with no terminal frame: an error event, a drop or a null frame shows the deltas before it and which failure it was; an end counts as done, with the metadata so far |
| ChatStream.FrameEndsExactly | web/src/hooks/useChat.ts:218-238 | a frame ends the turn, done and with metadata, if and only if its event or the frame itself says that it is the last |
| ChatStream.MalformedIsSkipped | web/src/hooks/useChat.ts:211-216 | an event whose data is no JSON changes nothing, wherever it comes |
| ChatStream.TurnsWithoutStream | web/src/hooks/useChat.ts:136-183 | a turn that gets no stream shows nothing but the reason, and on an ended session not even that |
| ChatStream.MetadataIsLatest | web/src/hooks/useChat.ts:218-232 | of a completed chat the provider, the request and the cache flag shown are the last that any frame named; usage and finish reason are the terminal frame's |
| ExecutionWatch.Watch.HandleRecord | web/src/hooks/useExecutionWatch.ts:178-230 | one record's effect on the snapshot, the highlighted step and the connection |
| ExecutionWatch.Watch.Read | web/src/hooks/useExecutionWatch.ts:232-263 | the read loop and whether the end was for good |
| ExecutionWatch.Watch.OpenStream | web/src/hooks/useExecutionWatch.ts:118-264 | which failures of an attempt are final and which are retried |
| ExecutionWatch.Watch.RunWithRetry | web/src/hooks/useExecutionWatch.ts:289-339 | at most five attempts, with the delays before them being the first ones of the schedule |
| ExecutionWatch.Watch.Reseed | web/src/hooks/useExecutionWatch.ts:271-284 | a fetched snapshot replaces the one shown; a terminal one reads as closed until the next attempt |
| ExecutionWatch.SameTextSameAttempt | web/src/hooks/useExecutionWatch.ts:118-264 | an attempt shows the same and is final or transient alike, however the text it reads is cut |
| ExecutionWatch.OpenedUntilLasting | web/src/hooks/useExecutionWatch.ts:289-304 | the stream is opened until the first attempt that is not transient, five times at most, and gives up with an error only then |
| ExecutionWatch.LongestBackoffIsUnused | web/src/hooks/useExecutionWatch.ts:72-73 | the fifteen-second delay is never waited for |
| ExecutionWatch.DelaysDouble | web/src/hooks/useExecutionWatch.ts:70-72 | the delays waited are one second and then twice the one before |
| ExecutionWatch.RelayedWatch | services/bff/internal/handlers/pipelines.go:434-482 | a stream relayed whole shows the last snapshot up to the first terminal one and the last step changed before it, closed, after one attempt |
| ExecutionWatch.FrameEndsExactly | web/src/hooks/useExecutionWatch.ts:64-69 | a frame ends the watch, closed, if and only if it shows a completed, failed or cancelled execution |
| ExecutionWatch.ErrorEnds | web/src/hooks/useExecutionWatch.ts:200-209 | an error event ends the watch for good, with what came before still on show |
| ExecutionWatch.MalformedIsSkipped | web/src/hooks/useExecutionWatch.ts:211-229 | an event whose data is no JSON changes nothing, wherever it comes |
| ExecutionWatch.AttemptsWithoutStream | web/src/hooks/useExecutionWatch.ts:118-163 | an attempt that gets no stream is final on an ended session or a client error, with the reason shown, and otherwise retried with nothing changed |
| ExecutionWatch.BrokenStreamIsRetried | web/src/hooks/useExecutionWatch.ts:233-264 | a stream that breaks off or ends early shows what it brought and is worth another attempt |
| ExecutionWatch.OutageShowsSnapshots | web/src/hooks/useExecutionWatch.ts:269-304 | while every attempt fails the last snapshot fetched is on show, and after the fifth attempt the error |

## Left out

- Warm signals, latencies, request IDs, logging, metrics and tracing: no decision depends on them.
- The contents of the allow-list, the method predicate and the embedder: their verdicts are parameters.
- Within overlapping requests, what touches nothing shared is not a step of its own: a provider's frames reach the client together with the breaker's report. The registry's double-checked lock is one atomic step with the breaker's answer.
- A real lookup or store against Redis that half succeeds: each is one step that happens or not, except that a failing mark of a processed event may have been stored.
- `GetUsage`, `ListProviders` and the usage store's read side.
- Floating-point rounding, the number formatting of the Lua script, and the instant a key expires: at the expiry time itself the key still counts as live.
- The decoding of UTF-8, RFC 3339 rendering of times, the tables behind `strconv.IsPrint`, and SHA-256 itself.
- How a time is cut to whole microseconds: `micros` in `AuditChain.Columns` is any function of its rendering.
- Database errors of an append: the transaction rolls back and nothing changes.
- Consumer.EffectsUnderRedelivery: deliveries of one event that overlap in time are not modelled; two can both pass the processed check.
- Consumer.Subscriber.HandlerSucceeded: whether a mark under a spent context fails is left to the store, since one in memory does not look at the context.
- Subscribe, Close and the broker's timers: a run is any sequence of deliveries the broker may make.
- The parsing of the authorization header, token validation, and panics inside handlers.
- Signing out when a session has ended: a flag in the chat hook, and in the watch hook only its message.
- Unmounting, aborting and overlapping sends in the hooks: a send or a watch runs to its end.
- AuditInterceptors.Serve: whether a record handed to the sink is then published; failures there are only logged.
- JSON beyond whether data parses, which fields a frame has, and that a frame survives being printed and parsed.
- Trailing carriage returns and the `id` and `retry` fields of server-sent events, which the reader ignores.
