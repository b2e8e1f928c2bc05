# Secure service gateway: a Dafny model

This project models the decision-making core of the gateway and proves what every run of it keeps:
the replay defence (in memory and over Redis), JWT minting and verification, the power-of-two-choices
balancer with its latency average, health hysteresis, the request pipeline under any interleaving,
and the controller's reconcile loop. `dafny verify dfyconfig.toml` checks the whole project.

## How it is laid out

- `Clock`, `ReplayLaw`, `NonceCache`, `MemoryReplay`, `RedisNonce`, `RedisReplay`: the abstract law a
  nonce store must meet, the two stores as objects, and each store as a system of interleaved steps
  (clock ticks, time checks, store steps, sweeper reads and deletions; for Redis any number of
  replicas with their own clock offsets and commands whose answer is lost).
- `Base64Url`, `Verifier`, `Token`: base64url both ways, key registration, the verifier's checks, the
  Python client's minting and tampering.
- `Sums`, `TwoChoices`, `Ewma`, `Pool`, `Health`: the balancer's draw counted exactly, the latency
  average in closed form, the backend and pool objects, the counter machine against its history.
- `Headers`, `Routing`, `Gateway`: header copying, and the gateway as a step machine: any number of
  request threads next to the clock, health probes and the sweeper, with the system of `MemoryReplay`
  as its replay defence.
- `GatewaySafety`, `GatewayReplay`, `GatewayBackends`, `GatewayAverages`, `LostSample`: what every run of
  that machine keeps: counting and provenance, replay, health and choice of backends, and averages.
- `Fleet`: any number of replicas of the gateway in front of one Redis, with the system of `RedisReplay`
  as their shared replay defence.
- `HandlerRuns`, `Handler`: the handler as in-place code on backends, nonce store, metrics, response
  writer and wire. Each method keeps those objects in step with a state of the machine, which it moves
  only by the machine's own events, so serving a request is a run of one of its threads.
- `EndToEnd`: from the client's header to the name the backend sees.
- `Render`, `Controller`, `RenderedGateway`: configuration rendering, the multi-write reconcile, and the
  gateway that loads what was rendered.

A run is a sequence of steps or events folded from an initial state; a step that is not enabled does
nothing, so "every sequence" is "every interleaving".

## Assumptions

- The global clock never goes backwards, and it stands after Go's zero time (year 1).
- Stores lose nothing: a restart of Redis or of the gateway is outside a run.
- A Redis key is visible up to and including its deadline; sub-millisecond rounding is ignored.
- Timestamps and durations fit Go's types: times are unbounded integers of nanoseconds.
- float64 is a real number; latencies come from a monotonic clock and are not negative.
- Ed25519, JSON, YAML, SHA-256 and standard base64 are functions passed in as parameters. The only laws
  used are those of `Lawful`: a signature verifies under its own key and is 64 bytes long, and JSON
  decodes what it encoded.
- Backend IDs are distinct within a pool, since the health counters are keyed by ID, a backend object is
  in one pool only, and every route's service has a pool, since the handler looks it up unguarded.
- An upstream's status code is between 100 and 999: net/http panics on writing any other.
- A write to the Kubernetes API that the client gave up on takes effect at most once, at any later moment or never.
- Header names and the word "Bearer" are ASCII.

## Where code and documentation differ

- The comment at `internal/auth/jwt.go:23` says a token is refused at `now >= exp`; the code at line 196
  still accepts at `now == exp` (`AcceptedAtExpiry`). `ExpiryAsDocumentedIff` says exactly when the two
  tests agree. The model follows the code; the sweeper uses the same boundary, which is what the replay
  theorems rest on.
- A token is not accepted "at most once" under all interleavings: a request that passed its time check and
  reaches the store after the expiry and a sweep is let in again (`LateStoreLetsTokenInTwice`).
  `AcceptsIffAllSwept` says exactly when, and `LetOnIff` says it of a whole gateway. With Redis, clock skew has the same effect
  (`SkewLetsTokenInTwice`), inside the window `SkewWindow` gives.
- `api/v1alpha1/types.go:133` documents port 8443 for a service without a port; the renderer carries the
  port of earlier services over (`PortLeaks`). `PortsAsDocumentedIff` says exactly when the two agree.
- A reconcile that reports success does not always leave both annotations equal: a write of an earlier
  reconcile whose answer timed out may land between its own two (`LateWriteSplits`). `SuccessConverges`
  says exactly when it does, `StaysConvergedIff` when that lasts, and `LastWritesDecide` when the
  annotations agree in any reachable state.
- SetHealthy is documented to reset the average on recovery. It turns the bit first and wipes the average
  later, so a reply recorded in between is lost (`SampleLost`). `AverageSinceTurn` says exactly when the
  average is of all samples since the recovery.
- The order of client keys matters exactly when two registrations of one kid differ
  (`OrderIrrelevantIff`); key order follows Go's map iteration.

## Model

| member | source | states |
|---|---|---|
| `ReplayLaw.AbstractNextKeepsLaw` | internal/auth/nonce.go:11-15 | A store that lets a jti in only when every earlier acceptance of it is over keeps a lawful history: of two acceptances of a jti the later is stored strictly after the earlier one's expiry. |
| `ReplayLaw.LawConsequences` | internal/auth/jwt.go:195-207 | A lawful history has at most one acceptance of a token stored by its expiry; with check and store at one instant, successive acceptances of a jti have strictly growing expiries; with clock offsets, a second acceptance needs a clock behind the first and falls in a window as long as the difference. |
| `NonceCaches.NonceCache.constructor` | internal/auth/nonce.go:28-35 | The cache starts empty and its fallback lifetime is positive, five minutes when the given one is not. |
| `NonceCaches.NonceCache.CheckAndStore` | internal/auth/nonce.go:45-56 | Lets a jti in exactly when it was absent; an existing entry stays as it is, a new one carries the token's expiry, or the fallback lifetime from now for a zero expiry. |
| `NonceCaches.NonceCache.Sweep` | internal/auth/nonce.go:58-71 | Deleting in place, in any iteration order, leaves exactly the entries whose expiry the reading has not passed. |
| `MemoryReplay.RunKeepsInv` | internal/auth/nonce.go:45-71 | In every reachable state the map holds exactly the acceptances no later sweep reading has passed, with their expiries. |
| `MemoryReplay.AcceptsIffAllSwept` | internal/auth/nonce.go:45-71 | A request past its time check is let in if and only if every earlier acceptance of its jti has been swept by a reading past its expiry; so a first presentation is always let in, and none at or before an earlier acceptance's expiry. |
| `MemoryReplay.NextRefinesAbstract` | internal/auth/jwt.go:195-207 | Every step of threads, clock and sweeper is a step of the abstract store. |
| `MemoryReplay.ReplaySafe` | internal/auth/jwt.go:195-207 | In every interleaving the history is lawful, at most one acceptance of a token is stored by its expiry, and with instantaneous check and store expiries of one jti grow. |
| `MemoryReplay.LateStoreLetsTokenInTwice` | internal/auth/jwt.go:195-205 | A concrete run that accepts one token twice, the second time stored after its expiry. |
| `RedisNonces.AfterSetNx` | internal/auth/redis_nonce.go:38-50 | SET NX leaves a visible key alone, otherwise makes the key visible, and touches no other key. |
| `RedisNonces.Ttl` | internal/auth/redis_nonce.go:39-42 | The lifetime is positive, ends exactly at the expiry when that is ahead, and never before it. |
| `RedisNonces.RedisNonceStore.CheckAndStore` | internal/auth/redis_nonce.go:38-50 | True exactly when the command was answered and no key was visible; a failed command denies, whether or not it wrote the key. |
| `RedisReplay.RunKeepsInv` | internal/auth/redis_nonce.go:38-50 | In every run of any number of replicas the key of an accepted token outlives the token on the accepting clock, and the visible keys are exactly the writes whose deadline is ahead. |
| `RedisReplay.NextRefinesAbstract` | internal/auth/redis_nonce.go:38-50 | Every step, lost answers and the five-minute fallback included, is a step of the same abstract store. |
| `RedisReplay.ReplaySafe` | internal/auth/redis_nonce.go:38-50 | Every run is lawful; with offsets, a second acceptance at one instant comes from a clock behind the first within the difference; with equal clocks the in-memory guarantees hold. |
| `RedisReplay.AcceptsIffNoDeadlineAhead` | internal/auth/redis_nonce.go:38-50 | An answered command lets a request in if and only if no key written for its jti, by an acceptance or a failed command, has a deadline ahead; failed commands let nothing in. |
| `RedisReplay.LetInNow` | internal/auth/redis_nonce.go:38-50 | A token that passes the time check and has no visible key can be let in at that instant. |
| `RedisReplay.SkewLetsTokenInTwice` | internal/auth/redis_nonce.go:39-44 | Two replicas ten seconds apart accept one unexpired token twice. |
| `Base64Url.StripPadRoundTrip` | client/gateway.py:70-71 | Stripping and re-padding undo each other for every byte string and every stripped text; the stripped form holds digits only. |
| `Base64Url.DecodeRoundTrip` | client/gateway.py:70-71 | The Go decoder and the re-padded Python decoder both give back every byte string the client encodes. |
| `Base64Url.DecodesIff` | internal/auth/jwt.go:153-153 | The decoder takes exactly digits of the alphabet that leave no single one over after groups of four. |
| `Base64Url.LineBreaksIgnored` | internal/auth/jwt.go:153-153 | A line break anywhere makes no difference to the decoder. |
| `Base64Url.AlphabetCodes` | client/gateway.py:70-71 | The digits are the letters, figures, '-' and '_' of section 5 of RFC 4648, by code. |
| `Base64Url.GroupIsNumber` | client/gateway.py:70-71 | Three bytes and their four digits are one number, most significant first. |
| `Base64Url.Vectors` | client/gateway.py:70-71 | Test vectors of section 10 of RFC 4648. |
| `Verifiers.BuildKeys` | internal/auth/jwt.go:119-144 | Fails exactly on an empty list or a public key that does not decode to 32 bytes; otherwise each kid has the subject, public key and scopes of its last registration, and no other kid has a key. |
| `Verifiers.KeysOnFields` | internal/auth/jwt.go:129-142 | The same of the map as a function, on the fields of the registrations. |
| `Verifiers.KeysOfMeaning` | internal/auth/jwt.go:129-142 | The map exists exactly when every registration is good; its kids are those registered, each with a key registered for it. |
| `Verifiers.LastRegistrationWins` | internal/auth/jwt.go:129-142 | The key of a kid is that of its last registration. |
| `Verifiers.OrderIrrelevantIff` | internal/auth/jwt.go:129-142 | Every order of the registrations builds the same map, or all fail, if and only if registrations of one kid agree or one of them is bad. |
| `Verifiers.SplitThree` | internal/auth/jwt.go:149-152 | Joining three dot-free segments and splitting gives the segments back. |
| `Verifiers.SplitParts` | internal/auth/jwt.go:149-152 | Splitting and joining gives any text back, and no part holds the separator. |
| `Verifiers.AuthenticateIff` | internal/auth/jwt.go:148-211 | The checks before the store succeed with given claims and subject if and only if a registered EdDSA key signed three dot-free segments carrying those claims, the subject is the key's, and the claims are for this gateway and this moment. |
| `Verifiers.AcceptedIsSignedOver` | internal/auth/jwt.go:174-178 | Whenever the checks accept, a registered key verified a signature over exactly the bytes of the token up to its second dot, one per character. |
| `Verifiers.SignatureBindsClaims` | internal/auth/jwt.go:174-178 | Where one signature verifies one message only, two accepted tokens with the same key and signature have the same header and claims. |
| `Verifiers.ClaimsRefusedIff` | internal/auth/jwt.go:189-204 | Each refusal on the claims, exactly and in order: issuer, audience, expiry, issue time, jti. |
| `Verifiers.SegmentsRefusedIff` | internal/auth/jwt.go:161-178 | Each refusal before the claims: another algorithm, an unregistered kid, a signature that does not verify. |
| `Clock.ExpiryAsDocumentedIff` | internal/auth/jwt.go:23-23 | The code's expiry test is the documented one if and only if the token has no expiry or the instant is not its expiry. |
| `Verifiers.AcceptedAtExpiry` | internal/auth/jwt.go:195-198 | Every authentic token that is otherwise current is accepted at the instant of its expiry, where the documentation refuses it. |
| `Verifiers.Verifier.Verify` | internal/auth/jwt.go:148-211 | The result and the new store are those of the checks followed by the nonce store, replay last. |
| `Verifiers.HasScope` | internal/auth/jwt.go:215-225 | True exactly when no scope is required or the claims carry it. |
| `Tokens.MintedSplits` | client/gateway.py:74-105 | A minted token splits into its signed segments and signature, and each decodes to what was encoded. |
| `Tokens.MintedFields` | client/gateway.py:86-101 | What a minted token says, field by field, for any flags. |
| `Tokens.DefaultFields` | client/gateway.py:74-84 | The fields under the default flags. |
| `Tokens.MintedVerdict` | client/gateway.py:74-105 | The exact verdict on a token minted with any flags, whatever is registered: unknown kid, bad signature when the kid's key does not verify it, or what the claims alone deserve; the minting key's own public key always verifies it. |
| `Tokens.MintedAcceptedOnce` | internal/auth/jwt.go:148-211 | A default token of a registered key is accepted on first presentation, with its claims and the registered subject, exactly from the skew before minting to its expiry; presented again in that window it is a replay while the store keeps it. |
| `Tokens.Tamper` | client/gateway.py:108-113 | The in-place byte flip computes `Tampered`, failing where the source raises. |
| `Tokens.TamperInvolution` | client/gateway.py:108-113 | On any head.body.signature text tampering keeps head and body, changes the signature and undoes itself. |
| `Tokens.TamperMinted` | client/gateway.py:108-113 | On minted tokens tamper keeps the signed segments, changes the token, and is its own inverse. |
| `TwoChoices.DrawsArePairs` | internal/lb/pool.go:133-137 | The skipping draws are in bijection with ordered pairs of distinct indices. |
| `TwoChoices.WinCountExact` | internal/lb/pool.go:125-143 | Of all n(n-1) draws a backend wins exactly twice the number of worse ones plus the number of ties. |
| `TwoChoices.WinCountsTotal` | internal/lb/pool.go:125-143 | The wins of all backends add up to n(n-1). |
| `TwoChoices.LowerScoreWinsMore` | internal/lb/pool.go:138-142 | A lower score never wins fewer draws, and a strictly lower one wins at least two more. |
| `TwoChoices.EqualScoresUniform` | internal/lb/pool.go:138-142 | With equal scores every backend wins n-1 draws. |
| `TwoChoices.ExtremesExact` | internal/lb/pool.go:138-142 | A backend wins no draw exactly when strictly worst, and 2(n-1) exactly when strictly best. |
| `Ewma.WeightsSumToOne` | internal/lb/pool.go:67-78 | The weights of the closed form sum to one. |
| `Ewma.SampleMeaning` | internal/lb/pool.go:69-69 | A sample is the latency in whole milliseconds. |
| `Ewma.FirstTwoSamples` | internal/lb/pool.go:68-77 | A first sample is the average, a second enters with weight 0.3. |
| `Ewma.EwmaClosedForm` | internal/lb/pool.go:52-78 | After any run of RecordLatency and SetHealthy calls the average is the weighted sum of exactly the samples since the last unhealthy-to-healthy flip, and there are statistics exactly when there are samples. |
| `Ewma.LastFlipExists` | internal/lb/pool.go:52-60 | Every run has a point just after its last flip, or its start, to which the closed form applies. |
| `Ewma.EwmaBetween` | internal/lb/pool.go:67-78 | The average lies between any bounds on those samples. |
| `Ewma.Convergence` | internal/lb/pool.go:65-78 | k equal samples shrink the distance to them by exactly 0.7^k. |
| `Ewma.HalvesEveryTwo` | internal/lb/pool.go:65-78 | Two equal samples at least halve the distance. |
| `Pools.Score` | internal/lb/pool.go:80-88 | The score is positive for a non-negative average and in-flight count. |
| `Pools.ScoreMeaning` | internal/lb/pool.go:80-88 | n requests in flight multiply the idle score by n+1; the idle score is the average, and a zero average counts as one millisecond. |
| `Pools.ScoreOrders` | internal/lb/pool.go:80-88 | A lower average at one in-flight count, or fewer in flight at one average, scores lower. |
| `Pools.Backend.SwapHealthy` | internal/lb/pool.go:52-53 | The swap returns the old bit and sets the new one; the average and the in-flight count stay. |
| `Pools.Backend.WipeStats` | internal/lb/pool.go:54-59 | The wipe leaves no average; the bit and the in-flight count stay. |
| `Pools.Backend.SetHealthy` | internal/lb/pool.go:52-60 | With nothing in between, the two steps set the bit and wipe the average exactly on a flip to healthy. |
| `Pools.Backend.Acquire` | internal/lb/pool.go:62-62 | Adds one in flight and nothing else. |
| `Pools.Backend.Release` | internal/lb/pool.go:63-63 | Takes one off and nothing else. |
| `Pools.Backend.RecordLatency` | internal/lb/pool.go:67-78 | The first sample becomes the average, later ones are blended in; the bit and the in-flight count stay. |
| `Pools.Pool.constructor` | internal/lb/pool.go:96-107 | One new backend per configured one, in order, healthy, without samples, nothing in flight. |
| `Pools.HealthyInOrder` | internal/lb/pool.go:113-121 | The snapshot holds each healthy member at the place given by the number of healthy members before it, and nothing else. |
| `Pools.Pool.Healthy` | internal/lb/pool.go:113-121 | The loop returns the healthy members in order. |
| `Pools.Pool.Pick` | internal/lb/pool.go:125-143 | Null exactly when no member is healthy; otherwise a healthy member, the only one or the winner of the draw. |
| `Pools.DrawPreferred` | internal/lb/pool.go:133-142 | The winner of a draw, on the fields of its two candidates: the lower average at equal in-flight counts, fewer in flight at equal averages, the first on a tie. |
| `Health.Checker.Record` | internal/health/checker.go:95-129 | One probe moves this backend's counters, bit and gauge as the counter machine does, wipes the average only on recovery, and touches no other ID. |
| `Health.HealthyIffHistory` | internal/health/checker.go:95-129 | The bit is up if and only if every run of three failures is followed by a later run of two successes; the counters are the trailing runs, never both nonzero, below three while up and below two while down. |
| `Health.GaugeShowsBit` | internal/health/checker.go:99-128 | The gauge once set equals the bit, and is set exactly from the first success or the third probe on. |
| `Health.FlapBound` | internal/health/checker.go:99-128 | With E ejections and R restorations in n probes: R <= E <= R+1, 3E failures at least, 2R successes at least, 5(E+R) <= 2n. |
| `Health.AlwaysFailingIsDown` | internal/health/checker.go:116-128 | A backend all of whose probes fail is down exactly from its third probe on. |
| `Health.BackendsIndependent` | internal/health/checker.go:95-129 | In any interleaving of probes each backend's state is that of its own probes alone. |
| `Headers.CanonMeaning` | internal/proxy/handler.go:215-228 | Canonical spelling is stable and changes only letter case. |
| `Headers.TokenCharCodes` | internal/proxy/handler.go:215-228 | The characters of a name that is put in canonical spelling, by code (section 3.2.6 of RFC 7230). |
| `Headers.SameNameIff` | internal/proxy/handler.go:215-228 | Two names have one canonical spelling exactly when they differ in letter case only. |
| `Headers.HopByHopNames` | internal/proxy/handler.go:217-223 | The names dropped are the eight listed, in any letter case. |
| `Headers.CopiedValues` | internal/proxy/handler.go:215-228 | After copying, a name holds its old values and then those of the one non-hop-by-hop source key that spells it. |
| `Headers.CopyKeepsValues` | internal/proxy/handler.go:208-208 | Values already there come first after a copy. |
| `Headers.CopyOrderIrrelevant` | internal/proxy/handler.go:215-228 | Whatever order the map is iterated in, the copy is the same. |
| `Headers.CopyHeaders` | internal/proxy/handler.go:215-228 | The in-place loop computes the copy for some iteration order of all keys. |
| `Headers.ForwardedProperly` | internal/proxy/handler.go:189-194 | The forwarded headers have the subject and request id as sole values, no spelling of Authorization or of a hop-by-hop name, and otherwise the client's values in order. |
| `Headers.BackendSees` | internal/proxy/handler.go:189-194 | Name by name: X-Forwarded-Sub and X-Request-Id once each, the former in one spelling, and nothing spelled like Authorization or a hop-by-hop name. |
| `Routing.FirstMatchMeaning` | internal/proxy/handler.go:141-148 | The match is the first route whose prefix the path has, and there is none exactly when no route matches. |
| `Routing.BearerMeaning` | internal/proxy/handler.go:230-237 | After "Bearer" in any letter case and one space, the token is the rest without the white space around it. |
| `Routing.BearerIff` | internal/proxy/handler.go:230-237 | There is a token exactly when the first Authorization value presents one that is not blank. |
| `Routing.StatusIsRight` | internal/proxy/handler.go:150-162 | 403 for a missing scope, 401 for any other authentication failure, 404, 502 and 503 for the rest, each exactly. |
| `Routing.VerdictReasons` | internal/auth/jwt.go:39-50 | Every refusal of the verifier is one of its own auth reasons; an acceptance passed all checks and was not stored. |
| `GatewaySafety.StepKeepsBookkeeping` | internal/proxy/handler.go:63-139 | Every step keeps what a thread may have written, counted and forwarded at each point. |
| `GatewaySafety.StepEffects` | internal/proxy/handler.go:63-213 | A step's shared effect is exactly the change in what its thread contributes to in-flight counts and counters. |
| `GatewaySafety.RunKeepsInv` | internal/proxy/handler.go:63-213 | In every interleaving in-flight counts, RequestsTotal and AuthFailures equal the threads that account for them. |
| `GatewaySafety.RunKeepsProvenance` | internal/proxy/handler.go:78-121 | In every interleaving each thread's route is the first match, it is verified exactly when it holds a place in the store's history, and it picks and forwards only in scope, to a backend read healthy, with proper headers. |
| `GatewaySafety.InflightConserved` | internal/proxy/handler.go:176-177 | In every reachable state the in-flight count is the number of forwards under way, never negative, zero when all requests have finished, and every score is positive. |
| `GatewaySafety.AuthFailuresMatch` | internal/proxy/handler.go:150-162 | For each auth reason RequestsTotal summed over routes is AuthFailures plus the requests between the two increments; other reasons never reach AuthFailures. |
| `GatewayReplay.ReplayIsRun` | internal/auth/jwt.go:195-207 | Whatever requests do, the gateway's nonce store goes through a run of the replay system: time checks, store steps, clock and sweeper. |
| `GatewayReplay.HistoryIsLawful` | internal/auth/jwt.go:195-207 | So in every run of the gateway the store's history of acceptances is lawful. |
| `GatewayReplay.RunKeepsReplayInv` | internal/auth/jwt.go:148-211 | In every run each verified request owns exactly one acceptance, of its own token, which passed every other check at that acceptance's reading; and every acceptance has one owner. |
| `GatewayReplay.NoReplayThrough` | internal/proxy/handler.go:78-91 | Of two requests past the verifier with one jti, one was stored strictly after the other's expiry; with one expiry at most one is stored on time, and not both check and store at one instant. |
| `GatewayReplay.LetOnIff` | internal/auth/jwt.go:205-207 | A request at the store is let on if and only if every earlier acceptance of its jti has been swept; so always on first presentation, and never by an earlier acceptance's expiry. |
| `GatewayReplay.EveryRequest` | internal/proxy/handler.go:63-139 | At most one status and one RequestsTotal increment, exactly one of each when finished, with the status its reason calls for; at most two forwards to different backends, none after a status; nothing forwarded without first matching route, an acceptance of its own token in the store's history, scope, a bit read healthy in that Pick, and proper headers. |
| `GatewayBackends.NodeFollowsProbes` | internal/health/checker.go:95-129 | Whatever requests do, a backend's health state is that of its own probes. |
| `GatewayBackends.ForwardedToUp` | internal/lb/pool.go:113-143 | Every forward of every run went to a backend that was up at some moment of the Pick that chose it. |
| `GatewayBackends.ForwardedToLower` | internal/lb/pool.go:125-143 | Every forward of every run whose Pick found several backends up went to one of two different ones drawn, whose score as read in that Pick was no higher than the other's as read there; a Pick that found one chose it. |
| `GatewayBackends.ForwardedToFaster` | internal/lb/pool.go:133-142 | The same on averages and in-flight counts: at moments of that Pick the backend chosen was no slower at an equal count and had no more in flight at an equal average. |
| `GatewayBackends.RetriedAfterFailure` | internal/proxy/handler.go:114-123 | In every run a second forward, and the Pick for it, come after the first failed in a way that may be retried. |
| `GatewayBackends.DeadBackendNeverPicked` | internal/health/checker.go:116-128 | A backend all of whose probes fail is down from its third on, and no Pick that starts after that leads to a forward to it. |
| `GatewayAverages.AverageFollowsMarks` | internal/lb/pool.go:52-78 | Whatever else happens, a backend's bit, average and pending wipe are those of its own latencies, turns and wipes. |
| `GatewayAverages.AverageInRun` | internal/lb/pool.go:52-78 | In every run of the gateway the average is the weighted sum of exactly the latencies since the last wipe. |
| `GatewayAverages.AverageSinceTurn` | internal/lb/pool.go:52-60 | Once the wipe is done, the samples since the bit turned up are those recorded between turn and wipe, which are lost, and then those averaged; so the average is of all of them if and only if none was recorded in between. |
| `LostSample.SampleLost` | internal/lb/pool.go:52-78 | From a fresh gateway, for every request it lets through and every latency, a run after which a backend that is up has no average although that latency was recorded since it came back up. |
| `Fleet.RedisIsRun` | internal/auth/redis_nonce.go:38-50 | Whatever the replicas do, the shared Redis goes through a run of its own system. |
| `Fleet.RunKeepsInv` | internal/auth/jwt.go:148-211 | In every run of any number of replicas each verified request owns exactly one acceptance, of its own token on its own replica's clock. |
| `Fleet.NoReplayAcross` | internal/auth/redis_nonce.go:38-50 | Of two requests past any replicas' verifiers with one jti, one was stored after the other's token had run out on the clock that let it in; for one token, checked when stored, its replica is behind and it got in within the difference; with equal clocks never both at once. |
| `Fleet.LetOnIff` | internal/auth/redis_nonce.go:38-50 | An answered command lets a request on if and only if no key written for its jti by any replica has a deadline ahead; a failed one never does. |
| `HandlerRuns.ServedInRun` | internal/proxy/handler.go:63-139 | Serving a request on a reachable state continues that state's run. |
| `HandlerRuns.ServedRequest` | internal/proxy/handler.go:63-139 | Serving a request on any reachable state writes one status, the right number for a refusal, counts one label that tells what happened and its auth reason in step, puts exactly its forwards on the wire, at most two, to different backends and with proper headers, at least one on success, and none unless cleared with an acceptance of its own token. |
| `EndToEnd.AdmissibleIsServed` | internal/proxy/handler.go:78-97 | A request the checks accept, with a nonce not seen, ends past the verifier with its claims and registered subject if it has the route's scope, and in missing_scope if not. |
| `EndToEnd.DefaultTokenGetsThrough` | client/gateway.py:74-105 | A request presenting "Bearer" and a default token of a registered key, in its time and for the first time, on a route within the key's scopes, gets past the verifier under the registered subject. |
| `EndToEnd.BackendSeesRegisteredSubject` | internal/auth/jwt.go:208-210 | In every run the X-Forwarded-Sub a backend sees is the subject of the last registration of the kid in the request's token, whose public key verified its signature. |
| `HandlerRuns.FinishedAccounts` | internal/proxy/handler.go:63-162 | A finished request leaves every in-flight count as it was and has moved each counter by exactly what it counted. |
| `Handlers.Handler.Match` | internal/proxy/handler.go:141-148 | The loop finds the first matching route. |
| `Handlers.Handler.DenyAuth` | internal/proxy/handler.go:150-162 | The objects follow the thread through both counters and the status, to its end. |
| `Handlers.Handler.PickFrom` | internal/lb/pool.go:125-143 | The backend returned is a healthy member, chosen among exactly the bits the live backends show, and the thread goes where that choice leads. |
| `Handlers.Handler.Send` | internal/proxy/handler.go:176-197 | The backend is acquired and, unless the target is malformed, exactly one request with properly built headers goes on the wire, as the thread's step does. |
| `Handlers.Handler.Receive` | internal/proxy/handler.go:198-210 | The latency enters the average as the thread's step says; only a response touches the writer, and its own status is the one written. |
| `Handlers.Handler.Forward` | internal/proxy/handler.go:167-213 | One forward is the thread's steps from Acquire to Release; an error leaves the writer untouched, a response writes its status and names the backend. |
| `Handlers.BuildHeaders` | internal/proxy/handler.go:189-194 | The headers built for a backend are properly forwarded ones. |
| `Handlers.Respond` | internal/proxy/handler.go:208-210 | Upstream headers are added to those set, X-Upstream is the backend alone, one status is written. |
| `Handlers.Handler.Retry` | internal/proxy/handler.go:114-123 | A second forward happens at most once, to a backend with another ID, before any status; the wire shows exactly the thread's forwards. |
| `Handlers.Handler.Admit` | internal/proxy/handler.go:78-97 | Admits exactly on an accepting verdict with the route's scope, and otherwise answers the refusal; the nonce store is left as verification leaves it. |
| `Handlers.Handler.ServeHTTP` | internal/proxy/handler.go:63-139 | On objects that show any state of the machine, serving a request leaves them showing the state reached when the clock moves on, the request arrives and its thread alone acts to its end; the writer has that thread's statuses and the wire its forwards, every in-flight count is back, the response carries the request id, and the nonce store is as verification leaves it. |
| `Handlers.Handler.ShowsInit` | internal/lb/pool.go:96-107 | Newly made objects show the machine's initial state. |
| `Rendering.CarriedPortMeaning` | cmd/controller/main.go:318-340 | Service k uses the last positive port among services 0..k, else 8443. |
| `Rendering.PortsAsDocumentedIff` | api/v1alpha1/types.go:133-134 | Every service gets its documented port if and only if no unset port directly follows a set one other than 8443; so whenever all are set. |
| `Rendering.PortLeaks` | cmd/controller/main.go:319-323 | A service without a port after one on 9443 is rendered on 9443. |
| `Rendering.RenderServices` | cmd/controller/main.go:318-340 | The loops render each service with its health path and one address per backend on its carried port. |
| `Rendering.RenderConfig` | cmd/controller/main.go:264-354 | The configuration before encoding is the one the resource, keys, Redis URL and TLS secret determine. |
| `Rendering.AddressMeaning` | cmd/controller/main.go:329-332 | A backend's address is its name in its namespace and digits that read back as the port. |
| `RenderedGateway.StartsIff` | internal/config/config.go:75-105 | The gateway of a resource starts exactly when there are routes, services and keys, each key 32 bytes of base64. |
| `RenderedGateway.AcceptsIff` | cmd/controller/main.go:297-306 | The gateway that loads the rendered configuration accepts exactly the properly signed tokens of the resource's issuer, if it names one, for its audience, "gateway" if it names none, in their time, under the keys given. |
| `RenderedGateway.RoutesLead` | cmd/controller/main.go:318-347 | Each path goes to the first of the resource's routes that matches, with its service and scope, and every service has its name, its health path and one address per backend on its port. |
| `RenderedGateway.ReconcileRenders` | cmd/controller/main.go:101-148 | What a reconcile renders, on the fields of what it read: listener paths exactly when an issuer or a Secret is named. |
| `Rendering.FetchClientKeys` | cmd/controller/main.go:454-461 | The loop returns the entries that parse, in some order that visits every key of the Secret once. |
| `Rendering.RenderUpToKeyOrder` | cmd/controller/main.go:454-461 | Two enumerations of one Secret render configurations equal up to key order, and when registrations of one kid agree both build the same key map or both fail. |
| `Controllers.Controller.Reconcile` | cmd/controller/main.go:101-179 | The cluster and the result after one reconcile, for every way its calls can end, every point it can stop, and every earlier write that lands meanwhile. |
| `Controllers.StopsBeforeWriting` | cmd/controller/main.go:101-148 | A reconcile that cannot read the resource or the keys, or whose Certificate or rendering fails, changes nothing and reports failure. |
| `Controllers.FailureKeepsHashOff` | cmd/controller/main.go:151-174 | A failed ConfigMap write or network policy keeps the hash off the Deployment. |
| `Controllers.HashesAlwaysBacked` | cmd/controller/main.go:535-588 | Across any sequence of reconciles and late landings every hash written on the Deployment is that of a configuration already written to the ConfigMap, and the ConfigMap's annotation matches its content. |
| `Controllers.HashesFollowConfigs` | cmd/controller/main.go:152-174 | As long as nothing lands late, every hash is written while the ConfigMap holds the configuration it is of. |
| `Controllers.LastWriterDecides` | cmd/controller/main.go:101-179 | The last reconcile that reached the ConfigMap decides both annotations until the next write takes effect: what it rendered or what landed on top of it, and on the Deployment its hash exactly if it got that far. |
| `Controllers.LastWritesDecide` | cmd/controller/main.go:535-588 | In every run, late landings included, the ConfigMap holds the last configuration written and the Deployment the last hash; so the annotations agree if and only if that configuration has that hash. |
| `Controllers.SuccessConverges` | cmd/controller/main.go:101-179 | A reconcile that reports success leaves both annotations equal whatever lands between its writes if and only if every configuration still to land has the hash of what it rendered; with nothing landing, always. |
| `Controllers.StaysConvergedIff` | cmd/controller/main.go:535-588 | Equal annotations stay equal whatever lands if and only if everything still to land has their hash. |
| `Controllers.LateWriteSplits` | cmd/controller/main.go:535-563 | From a cluster with nothing pending, a run of two reconciles after which the second has reported success and the annotations differ. |

## Left out

- TLS setup, certificates and handshakes: a failed handshake is only a failed probe or a transport error.
- HTTP clients, body streaming, query strings and path rewriting: a retry is not claimed to resend the same body.
- The Kubernetes client and the watch loop: each call is reduced to whether it took effect and what it reported.
- Network policy and Certificate contents, the defaults of addresses and nonce lifetime, logging, the upstream metrics and the Prometheus library: wiring.
- Registered key scopes: the map is built but neither `Verify` nor `HasScope` reads it.
- Hash stability of repeated reconciles: key order follows Go's map iteration, so only equality up to order is stated.
- Floating-point rounding, overflow of Go times and durations, non-ASCII header names.
- SafeScore, Total and the sweeper's and checker's tickers: only easy facts.
- Tokens.Tamper: Python's decoder skips characters outside the alphabet; the model fails on them, which does not concern minted tokens.
- The health gauge is set in the step that turns the bit, so the moment between the two inside one probe is not shown.
- The two reads of a score, the average and the in-flight count, are one step.
- Pools.Pool.Pick: reads all bits and scores in one step; in module `Gateway` each bit and each score is read in a step of its own.
- Handlers.Handler.Forward: http.Error's own header changes and the copying of the body are not shown.
