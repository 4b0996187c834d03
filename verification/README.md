# Verification of the registry webhook scanner

A Dafny 4.11 model of the scanner's pipeline and proofs about it: the bounded queue and its worker pool, the ordered shutdown, deduplication, retries, the reading and printing of image references, the Registry Scanner client, the running metrics, and the startup checks of the configuration. `dafny verify dfyconfig.toml` checks everything.

## How the model is laid out

| file | what it models |
|---|---|
| `Models.dfy`, `Sums.dfy` | the scan request; sums over sequences |
| `PoolProtocol.dfy` | queue, callers of Enqueue, workers and callers of Stop as one transition system of atomic steps |
| `PoolInvariants.dfy`, `PoolTheorems.dfy` | what every step keeps, and what that means for whole runs |
| `ScanQueue.dfy` | `ScanQueue` and the worker loop as objects, for calls that do not overlap |
| `CoordinatedShutdown.dfy` | `ExecuteShutdown`, as an object and as a goroutine among the others |
| `ShutdownManager.dfy` | `Manager.Shutdown`: one goroutine per handler, errors collected under a mutex |
| `DedupCache.dfy`, `DedupInterleaved.dfy` | the deduplication cache, for calls one after the other and for overlapping calls |
| `GoStrings.dfy`, `ImageReference.dfy` | the string functions used, and the parser and printer of image references |
| `ErrorPatterns.dfy`, `Retry.dfy` | the classification of errors; backoff and the retries of a request |
| `ApiClient.dfy`, `RegistryScan.dfy` | the retry loop and the poll loop of the Registry Scanner client |
| `ResultMetrics.dfy` | running metrics and the result cache |
| `ScannerConfig.dfy` | defaults, validation, and the choice of a backend |

Concurrent code is modelled by actions. An action is one atomic step of the program: a critical section, one channel operation, one atomic addition, one WaitGroup operation, the choice of a select. `Enabled` says when an action can happen and `Apply` what it does; a run is any sequence of enabled actions, so a theorem over runs covers every interleaving and any number of producers, workers and callers of Stop. Enqueue is four actions (check the flag, send or refuse, count), Dequeue two, Close two, an iteration of Start one. A select with several ready cases may take any of them; a caller's own context may expire at any time. A handler may call Enqueue itself, as a retry does; it may go on after a panic of that call, which allows more than the code does.

Time, the scheduler, network answers and file-system lookups are parameters: clocks are non-decreasing numbers, HTTP outcomes and ticks are scripts, `time.ParseDuration` and the lookup of an executable are functions. Logging and Prometheus calls do nothing. A `char` stands for a byte. `float64` is modelled as exact reals; `int64` conversion and overflow are written out where they decide the result.

## Where the code differs from what is expected of it

- The tag is cut at the first colon before the registry is looked at, so a registry with a port is taken apart at the port (`PortIsTakenForTag`), although `pkg/webhook/parsers/normalize_test.go:110-117` expects otherwise. The exact condition of the round trip is `Printable`.
- Normalising is not idempotent on references that begin with `docker.io/docker.io/`, and on no others; and it turns a valid reference into an invalid one exactly for the family `HubThenBareRegistry`.
- `isRetriableError` is meant to ignore letter case. It does, but for four messages: "not found", "invalid", "authentication" and "authorization" by themselves and not in lower case are retried.
- `calculateBackoff` converts before it caps. From the 35th retry on, with the default configuration, the value does not fit `int64`.
- The error of `Stop` belongs to the call that runs the body of the Once: a second call returns nil even when the first timed out. So a nil can be trusted when no call of Stop has returned the error, and not by itself; `AnotherTimeoutStillCloses` is a coordinated shutdown whose own Stop returns nil and in which a handler still sends on the closed channel.
- `ExecuteShutdown` closes the queue also when the pool did not stop in time; a handler's retry can then send on the closed channel. The callback that stops acceptance must wait for the requests already admitted, which the code leaves to the caller (`UnwaitedProducerFaults`). `cmd/scanner-webhook/main.go:71-81` registers the three parts as separate handlers, which `Manager.Shutdown` would run at the same time; the model follows `ExecuteShutdown`.
- Stop cancels before the queue drains, so what is still in the channel at a clean shutdown is lost, though the event-processing requirements ask that a shutdown process as many queued items as possible.
- `Depth()` may be negative, because a worker can subtract before the sender adds.
- `MinDuration` uses zero for "unset", so a recorded zero is forgotten.
- The scan handler looks up the scanner by the host of the image (`req.Registry`), whereas overrides are configured, probed at startup and otherwise looked up by the registry's name (`req.RegistryName`). A backend is created for every request, but for a host that is no configured name it is that of the global type: an override takes effect if and only if it repeats the global type or is empty (`OverrideOfRequestTakesEffectIff`).
- A nil error handed to `ShouldRetry` with retries left, or to `ScheduleRetry`, panics when its message is logged.
- Defaults for the Registry Scanner are not filled in when only a registry override selects it.

## Model

| member | source | states |
|---|---|---|
| PoolTheorems.Conservation | pkg/queue/queue.go:44-73 | in every reachable state the requests taken out are a prefix of those accepted, the channel holds the rest in order, and the accepted ones are those in flight (at most one a worker), finished, or in the channel |
| PoolTheorems.HandOffIsSendAndReceive | pkg/queue/queue.go:44-73 | an admitted sender and a worker waiting on the empty open channel can always meet: with a buffer as a send and a receive, without one directly |
| PoolTheorems.InvRun | pkg/queue/worker.go:45-151 | the whole invariant is kept along every run, whatever the interleaving |
| PoolInvariants.ConservedStep | pkg/queue/worker.go:93-151 | one action keeps: dequeued = held by workers + finished |
| PoolInvariants.DepthStep | pkg/queue/queue.go:44-69 | one action keeps: depth = length - enqueues that have sent and not counted + dequeues that have received and not counted |
| PoolInvariants.WaitGroupStep | pkg/queue/worker.go:49-52 | one action keeps: the WaitGroup counts the workers between Add and Done |
| PoolInvariants.WaitGroupZero | pkg/queue/worker.go:68-73 | the counter is zero exactly when no started worker is left |
| PoolInvariants.DoneStep | pkg/queue/worker.go:58-84 | one action keeps: once Stop's waiter has seen zero after Start, all workers have exited |
| PoolInvariants.IdleStep | pkg/queue/worker.go:58-112 | one action keeps: once Stop's waiter has seen zero, no worker waits for a request or holds one, even one that Start spawns later |
| PoolTheorems.DepthAgainstLength | pkg/queue/queue.go:76-93 | depth against length in every reachable state, its bounds, and that they agree if and only if as many operations are mid-step on either side |
| PoolTheorems.QuietDepthIsLength | pkg/queue/queue.go:85-93 | between operations IsEmpty and IsFull are right about the channel |
| PoolTheorems.DepthCanBeNegative | pkg/queue/queue.go:44-69 | a run in which Depth() is -1 |
| PoolTheorems.StopWaits | pkg/queue/worker.go:58-84 | when some call of Stop has returned and none with the timeout error, no worker waits for or holds a request, nothing is in flight and no handler is in a call; if stopping began after Start, all workers have exited |
| PoolTheorems.NoneTakenAfterStop | pkg/queue/worker.go:58-112 | from then on no continuation takes up a request |
| PoolTheorems.StopBeforeStart | pkg/queue/worker.go:45-84 | a run in which a Stop before Start returns nil and a worker is still to come, so that all have exited takes a complete Start |
| PoolTheorems.OneStopDecides | pkg/queue/worker.go:58-84 | once a Stop has returned exactly one call ran the body of the Once, it has returned, and none timed out if and only if it returned nil |
| PoolTheorems.SecondStopReturnsNil | pkg/queue/worker.go:58-84 | a run in which the second Stop returns nil after the first timed out, with a scan running |
| PoolTheorems.AtMostOneMore | pkg/queue/worker.go:93-112 | after cancellation each worker takes up at most one more request, and only if it was inside Dequeue |
| PoolTheorems.AtMostWorkersMore | pkg/queue/worker.go:58-65 | after cancellation at most as many further requests start as workers were inside Dequeue |
| PoolTheorems.WorkersRunOut | pkg/queue/worker.go:87-115 | after cancellation at most five worker actions a worker happen in any continuation |
| PoolTheorems.WorkerCanMove | pkg/queue/worker.go:87-115 | after cancellation a worker that has not exited, or the call its handler is in, can always move |
| PoolTheorems.StuckMeansExited | pkg/queue/worker.go:67-73 | a cancelled pool with no action left to workers and handlers has exited, and Stop's waiter can report it |
| PoolTheorems.CloseAndDrain | pkg/queue/worker.go:99-112 | without cancellation, when all workers (at least one) have exited the queue is closed and empty and every accepted request has been handled |
| PoolTheorems.ClosedIsSafeIffNoneAdmitted | pkg/queue/queue.go:36-45 | once the flag is set, no continuation sends on the closed channel if and only if no Enqueue is between its check and its send |
| PoolTheorems.LateSend | pkg/queue/queue.go:36-45 | an Enqueue between check and send when the queue closes can send on the closed channel |
| CoordinatedShutdown.OrderedShutdownNeverPanics | pkg/shutdown/shutdown.go:196-227 | with producers waited for and no call of Stop having returned an error, past the pool stage no send has met or can meet the closed channel and no worker is busy, even if Start is still spawning; if stopping began after Start, every worker has exited |
| CoordinatedShutdown.OrderedShutdownLosesTheChannel | pkg/shutdown/shutdown.go:196-227 | what such a shutdown leaves: all taken requests handled, none in flight, the rest in the channel, the depth its length, and once finished the queue closed |
| CoordinatedShutdown.FinishedDidEverything | pkg/shutdown/shutdown.go:199-223 | a finished shutdown, whatever its errors, accepts nothing, has had Stop return, and has closed the queue, as far as the callbacks are set |
| CoordinatedShutdown.CoordinatorCanMove | pkg/shutdown/shutdown.go:196-227 | an unfinished shutdown whose producers are idle can move: the coordinator, a call of Stop, or Close |
| CoordinatedShutdown.TimedOutStopStillCloses | pkg/shutdown/shutdown.go:205-217 | a run of the full shutdown in which Stop times out, the queue is closed and a handler's retry sends on it |
| CoordinatedShutdown.AnotherTimeoutStillCloses | pkg/shutdown/shutdown.go:205-217 | a run in which the coordinator's Stop returns nil because another call timed out, and a handler's retry sends on the closed channel |
| CoordinatedShutdown.UnwaitedProducerFaults | pkg/shutdown/shutdown.go:199-217 | a run in which acceptance stops without waiting, the pool stops cleanly, and a producer admitted before sends on the closed channel |
| CoordinatedShutdown.SystemInvRun | pkg/shutdown/shutdown.go:196-227 | the invariant of coordinator and pool is kept along every run |
| CoordinatedShutdown.PoolActionKeepsInv | pkg/shutdown/shutdown.go:199-217 | one pool action keeps it |
| CoordinatedShutdown.ShutdownCoordinator.ExecuteShutdown | pkg/shutdown/shutdown.go:196-227 | the callbacks that are set run in the planned order, and no error is reported |
| CoordinatedShutdown.PlannedInOrder | pkg/shutdown/shutdown.go:199-223 | each callback that is set runs once, and the queue is closed only after acceptance and the pool were stopped |
| ShutdownManager.InvRun | pkg/shutdown/shutdown.go:86-145 | the invariant of Shutdown and its goroutines is kept along every run |
| ShutdownManager.HandlersStartOnce | pkg/shutdown/shutdown.go:86-118 | over any number of overlapping calls exactly one runs the handlers, once there was a call; one goroutine each, in order, of those registered before its loop, each called once at the most |
| ShutdownManager.CompletedCollectsAllErrors | pkg/shutdown/shutdown.go:107-139 | when Shutdown completes, every handler registered before its loop has returned once and run to its end, and the errors are exactly the bag of those that the schedule has handlers return |
| ShutdownManager.ErrorsConserved | pkg/shutdown/shutdown.go:112-116 | along every run, errors appended + errors held by goroutines = errors returned so far |
| ShutdownManager.ShutdownCanMove | pkg/shutdown/shutdown.go:107-139 | the call that runs the handlers, its waiter or a goroutine can always move, and a handler may return any result |
| ScanQueues.ScanQueue.Enqueue | pkg/queue/queue.go:36-58 | closed exactly on a closed queue, full exactly at the capacity with a live context, taken exactly with room unless the select prefers a done context; refusals change nothing |
| ScanQueues.ScanQueue.Dequeue | pkg/queue/queue.go:62-73 | the head comes out whenever there is one unless the select prefers a done context; closed only on a closed and empty queue; blocked exactly when no case is ready |
| ScanQueues.ScanQueue.Close | pkg/queue/queue.go:97-106 | the flag is set and the channel closed, the items stay |
| ScanQueues.ScanQueue.Stats | pkg/queue/queue.go:116-125 | empty, full and the percentage used tell the truth between calls |
| ScanQueues.WorkerPool.Worker | pkg/queue/worker.go:87-115 | the loop handles a prefix in order, and ends drained only on a closed and empty queue, stopped only by cancellation |
| ScanQueues.EnqueueIsARun | pkg/queue/queue.go:36-58 | an Enqueue on its own is a run of the protocol with the same outcome, a refusal by the action of that very reason |
| ScanQueues.DequeueIsARun | pkg/queue/queue.go:62-73 | a Dequeue on its own is a run of the protocol with the same outcome, and when it blocks no case of the select is enabled |
| ScanQueues.CloseIsARun | pkg/queue/queue.go:97-106 | a Close on its own is a run of the protocol |
| DedupCache.SameKey | pkg/queue/dedup.go:72-82 | two requests share a key if and only if they share a digest, or have none and share the reference |
| DedupCache.DeduplicationCache.IsDuplicate | pkg/queue/dedup.go:43-68 | answer, new cache and tallies of a call on its own; a hit leaves the entry alone |
| DedupCache.DeduplicationCache.Cleanup | pkg/queue/dedup.go:100-120 | exactly the entries older than the ttl go, and are counted |
| DedupCache.DeduplicationCache.Stats | pkg/queue/dedup.go:135-152 | the hit rate is the percentage of hits |
| DedupCache.EvictedEntriesAreExpired | pkg/queue/dedup.go:100-120 | the evicting cache is the never-evicting one with only expired entries missing |
| DedupCache.EvictionIsUnobservable | pkg/queue/dedup.go:43-120 | every answer equals that of a cache that never evicts |
| DedupCache.SuppressedIffRecentlyAccepted | pkg/queue/dedup.go:43-68 | a call is suppressed if and only if an earlier one with its key was accepted less than ttl before |
| DedupCache.AcceptedAreApart | pkg/queue/dedup.go:43-68 | accepted calls with equal keys are at least ttl apart |
| DedupInterleaved.SuppressedAreCovered | pkg/queue/dedup.go:46-64 | under any interleaving a suppressed call has an accepted one with its key less than ttl before it |
| DedupInterleaved.AcceptedAreApartUnlessOverlapping | pkg/queue/dedup.go:46-64 | accepted calls with equal keys are at least ttl apart if the later read after the earlier stored |
| DedupInterleaved.OverlapIsEnough | pkg/queue/dedup.go:46-64 | the converse: in every reachable state a call about to store a key stored less than ttl ago read before that store, and can store less than ttl after it |
| DedupInterleaved.StoredTimeNeverDecreases | pkg/queue/dedup.go:62-64 | the stored time of a key never decreases, even across an eviction |
| DedupInterleaved.CleanupLeavesUnexpired | pkg/queue/dedup.go:100-112 | a cleanup leaves exactly the entries of age at most ttl |
| DedupInterleaved.OverlappingCallsBothAccepted | pkg/queue/dedup.go:46-64 | from any state two idle calls with one key that is not recent can both be accepted at the same time |
| GoStrings.JoinSplit | pkg/webhook/parsers/normalize.go:57-61 | Join undoes Split |
| GoStrings.SplitJoin | pkg/webhook/parsers/normalize.go:57-61 | Split undoes Join on parts without the separator |
| ImageReference.ParseShape | pkg/webhook/parsers/normalize.go:39-69 | the four parts in terms of the first @, the first colon before it, and the first slash before that |
| ImageReference.PrintedForm | pkg/webhook/parsers/normalize.go:10-36 | the printed reference letter by letter: host unless Docker Hub, repository, tag or latest, digest with sha256: |
| ImageReference.CanonicalShape | pkg/webhook/parsers/normalize.go:10-69 | normalising a parsed reference keeps the name up to one leading docker.io and spells out tag and digest prefix |
| ImageReference.IdempotentIffHubAtMostOnce | pkg/webhook/parsers/normalize.go:10-69 | normalising is idempotent on s if and only if s does not begin with docker.io/docker.io/ |
| ImageReference.FixpointAfterLeadingHubs | pkg/webhook/parsers/normalize.go:10-69 | iterating is at its fixpoint after n >= 1 rounds if and only if at most n components docker.io lead |
| ImageReference.RoundTripIffPrintable | pkg/webhook/parsers/normalize.go:10-69 | parsing a printed reference gives back its parts, up to defaults, if and only if they are printable |
| ImageReference.CleanBaseReadsBack | pkg/webhook/parsers/normalize.go:39-69 | what is read back when the base holds no separator |
| ImageReference.PortIsTakenForTag | pkg/webhook/parsers/normalize.go:47-58 | a host with a port is read as a repository with a tag |
| ImageReference.ValidityShape | pkg/webhook/parsers/normalize.go:72-92 | valid exactly with a repository and a tag, and which error otherwise; the registry is never empty |
| ImageReference.ValidityKeptIff | pkg/webhook/parsers/normalize.go:72-92 | a valid reference stays valid when normalised if and only if it is not docker.io before a bare registry |
| ErrorPatterns.ToLower | pkg/queue/retry.go:190-198 | lower-cases ASCII letters in place and nothing else |
| ErrorPatterns.LowerAlphabet | pkg/queue/retry.go:190-198 | the 26 capital letters and no others change |
| ErrorPatterns.ContainsIgnoreCase | pkg/queue/retry.go:179-188 | true if and only if the lower-cased pattern occurs in the lower-cased text |
| ErrorPatterns.Contains | pkg/queue/retry.go:174-177 | true if and only if equal, or longer and containing the pattern in any case |
| ErrorPatterns.IsRetriableError | pkg/queue/retry.go:71-115 | an error is retried if and only if it matches one of the eight transient signs or none of the seven permanent ones |
| ErrorPatterns.VerdictSpelledOut | pkg/queue/retry.go:78-114 | the verdict word by word |
| ErrorPatterns.CaseMattersOnlyForFinalWords | pkg/queue/retry.go:71-115 | the verdict equals that of the lower-cased message, but for four words in other than lower case |
| ErrorPatterns.SameVerdictUpToCase | pkg/queue/retry.go:71-115 | exactly when two messages that differ only in case get the same verdict |
| Retry.CalculateBackoff | pkg/queue/retry.go:146-162 | the loop computes initial times multiplier to the n-1, converted and then capped |
| Retry.ScaledIsGeometric | pkg/queue/retry.go:148-152 | the values start at the initial backoff and grow by the multiplier from one retry to the next |
| Retry.BackoffIsCutAndCapped | pkg/queue/retry.go:154-161 | a value in the range of int64 is cut toward zero and then capped |
| Retry.DefaultBackoffs | pkg/queue/retry.go:20-27 | three retries, after 1, 2 and 4 seconds; further ones reach a minute |
| Retry.GetBackoffDurations | pkg/queue/retry.go:165-171 | one backoff for each retry; a negative MaxRetries panics |
| Retry.BackoffGrowsToTheCap | pkg/queue/retry.go:146-162 | within int64 the backoffs are the capped powers, never fall, and stay at the cap |
| Retry.CappedIffFits | pkg/queue/retry.go:154-159 | the result is the capped power, whatever an out-of-range conversion yields, if and only if the value fits |
| Retry.DefaultFitsUpTo34 | pkg/queue/retry.go:20-27 | with the defaults the value fits int64 if and only if n <= 34 |
| Retry.DurationsSortedAndBounded | pkg/queue/retry.go:165-171 | the announced durations are sorted and sum to at most MaxRetries times the cap |
| Retry.RetryManager.ShouldRetry | pkg/queue/retry.go:46-68 | true if and only if retries are left and the error is retriable; a nil error with retries left panics |
| Retry.RetryManager.ScheduleRetry | pkg/queue/retry.go:118-143 | the counter goes up by one and the backoff is slept even when the queue then refuses the request, which it does only when closed, full or cancelled; a nil error panics after the count |
| Retry.RetryManager.Drive | pkg/queue/retry.go:46-143 | a request attempted until success, exhaustion or refusal: attempts and final counter bounded by MaxRetries, time slept, and how it ends in terms of the last attempt |
| Retry.RetriesAreTheLeadingRun | pkg/queue/retry.go:46-68 | the retries are the leading retriable run cut off at the retries that are left |
| Retry.LeadingRetriedExists | pkg/queue/retry.go:46-68 | every script has such a leading run |
| Retry.RetriesFit | pkg/queue/retry.go:48-55 | retries, counting one the queue refuses, never exceed the retries that are left |
| Retry.FreshRequest | pkg/queue/retry.go:46-171 | a fresh request gets at most MaxRetries + 1 attempts, its counter ends at MaxRetries at most, and it sleeps the sum of the announced durations up to that counter |
| Retry.SleepIsAPrefixSum | pkg/queue/retry.go:123-134 | sleeping up to the k-th retry takes the sum of the first k announced durations, negative ones not slept |
| ApiClient.Client.MakeAPIRequest | pkg/scanner/registry_api.go:58-151 | the loop refines the recursive specification, for every environment |
| ApiClient.UndisturbedRun | pkg/scanner/registry_api.go:58-188 | left alone it sends 1 + min(maxRetries, leading outcomes that are network errors or 429, 500, 502, 503, 504) requests, returns the outcome it stops at, and waits 2^n - 1 seconds plus the seconds each retried 429 asks for, five if it gives no number |
| ApiClient.EveryRun | pkg/scanner/registry_api.go:58-151 | any run, cancelled wherever, retries exactly at transient outcomes and stops at the first attempt not retried: result, requests sent and time waited |
| ApiClient.LeadingRunExists | pkg/scanner/registry_api.go:61-148 | every script has such a leading run |
| ApiClient.BackoffIsAPower | pkg/scanner/registry_api.go:62-64 | the backoff is a power of two of seconds if and only if the attempt is at most the 34th |
| ApiClient.BodiesClosedOnce | pkg/scanner/registry_api.go:97-150 | on every path each response's body is closed exactly once, but for the one returned; the statement after the loop is never reached |
| RegistryScan.GetTimeout | pkg/scanner/registry_scanner.go:390-400 | the timeout of the first entry with the name that sets one, or the default when none does |
| RegistryScan.PollScanStatus | pkg/scanner/registry_scanner.go:237-303 | the loop ends for every script that covers the timeout, with the verdict of the first event that is not running or pending, after at most timeout/interval + 1 polls |
| RegistryScan.PollsFitTheTimeout | pkg/scanner/registry_scanner.go:249-267 | polls that found the scan in progress began within the timeout, so the script still has the event that decides |
| RegistryScan.InitiateScan | pkg/scanner/registry_scanner.go:193-233 | an id is given if and only if the status is 200 or 201 and the decoded id is not empty, and it is that one |
| RegistryScan.Scan | pkg/scanner/registry_scanner.go:46-130 | no error if and only if Success if and only if the scan was started, its timeout parses and the first status other than running and pending was completed; otherwise Failed |
| ResultMetrics.ResultProcessor.UpdateMetrics | pkg/scanner/results.go:134-160 | the metrics stay a summary of the results so far |
| ResultMetrics.ResultProcessor.ProcessResult | pkg/scanner/results.go:34-57 | metrics updated, only successes cached |
| ResultMetrics.ResultProcessor.GetCachedResult | pkg/scanner/results.go:175-190 | an entry is returned up to and including its expiry |
| ResultMetrics.MinIsRightIff | pkg/scanner/results.go:154-156 | the kept minimum is the minimum if and only if no recorded zero is followed by a non-zero last duration |
| ResultMetrics.MinAvgMax | pkg/scanner/results.go:149-159 | Avg <= Max for all durations that are not negative, and Min <= Avg when no zero was forgotten |
| ResultMetrics.CountsFit | pkg/scanner/results.go:138-147 | the three tallies sum to at most the total, and to it exactly when every status is one of the three |
| ScannerConfig.LoadedConfig.ApplyDefaults | pkg/config/loader.go:38-89 | each unset option gets its default |
| ScannerConfig.DefaultsSpelledOut | pkg/config/loader.go:38-89 | option by option: what is set stays, what is not becomes the named default |
| ScannerConfig.LoadedConfig.Load | pkg/config/loader.go:26-34 | a configuration loads if and only if it is valid with its defaults |
| ScannerConfig.ValidateRegistries | pkg/config/loader.go:98-115 | the loop accepts exactly unique non-empty names, the three known types and the three auth types with a secret where one is needed; an error names a registry with that fault |
| ScannerConfig.Validate | pkg/config/loader.go:92-157 | no error if and only if the configuration is valid, that is, no error can be held against it; an error says something that is wrong |
| ScannerConfig.ValidateScannerConfig | cmd/scanner-webhook/main.go:124-150 | no error if and only if every startup probe succeeds |
| ScannerConfig.ProbesCoverEveryName | cmd/scanner-webhook/main.go:124-150 | with no empty registry name the probes succeed if and only if a backend can be created for every name |
| ScannerConfig.TypeByFirstMatch | pkg/scanner/factory.go:49-67 | the type of the first registry with the name if it sets one, else the global type, else cli |
| ScannerConfig.CreatedIff | pkg/scanner/factory.go:11-45 | when each backend is created, and the error otherwise |
| ScannerConfig.StartupCoversEveryName | pkg/scanner/factory.go:11-67 | after both startup checks every name gets a backend, of the override configured under it or else of the global type |
| ScannerConfig.StartupCoversRunTime | cmd/scanner-webhook/main.go:153-166 | after both startup checks every request gets a backend, the one its registry name is configured for if and only if host and name lead to the same type |
| ScannerConfig.OverrideOfRequestTakesEffectIff | cmd/scanner-webhook/main.go:163 | for a host that is no configured name the global type is chosen, so the request's override takes effect if and only if it is empty or the same |
| ScannerConfig.OverrideGoesByHost | cmd/scanner-webhook/main.go:163 | a configuration accepted at startup and a request that gets the CLI scanner although its registry is set to the Registry Scanner |
| ScannerConfig.EmptyNameHidesTheGlobalType | pkg/config/loader.go:100-102 | without the check for empty names the probes can succeed and a request fail |
| ScannerConfig.OverrideAloneGetsNoDefaults | pkg/config/loader.go:70-80 | an override to the Registry Scanner without an address is refused at startup although defaults were applied |

## Left out

- HTTP serving, routing, authentication, logging, Prometheus, JSON and YAML decoding: library plumbing.
- The webhook payload parsers, the CLI scanner's process handling and the credential provider: field copying and branches on exit codes.
- Interleavings of worker.go and shutdown.go are modelled on values, as transition systems, so pointer identity of a request is not captured; the worker loop and the coordinator are also given as objects for runs without interference.
- `WorkerPoolStats.InFlight` is the constant 0 in the code and has no counterpart.
- Calls of Start more than once, and of RegisterHandler by the wrapped name.
- Floating-point rounding in backoff, hit rate, utilization and averages.
- SHA-256: a parameter, injective where keys are compared.
- The tallies of the cache under overlapping calls: the code updates them outside the lock.
- The request body of makeAPIRequest: one reader is handed to every attempt, and what a retry finds in it depends on the transport.
- The numeric reading of a Retry-After header (`strconv.Atoi`): the header is missing, a number, or neither.
- The wording of errors: results and errors carry a short fixed text where the code formats one.
- `parseTextOutput` and `ScanSummary.Total`: a count of keywords per line.
- `buildScanRequest` and `ParseImageReference`'s callers: map building.
- Retry.RetryManager.Drive: no driver exists in the code; the script says whether the queue takes a request back, instead of other requests passing through it.
