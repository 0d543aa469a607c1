# Verified model of the FastMCP client core

This project models the parts of the FastMCP client where correctness is hardest to see from the code, and proves what
they promise.

- **Request executor** (`ExecutorProtocol`, `ExecutorInvariant`, `ExecutorRuns`, `ExecutorWire`, `ExecutorNotices`,
  `ExecutorRecords`, `ExecutorStreams`, `ExecutorWitnesses`, `ExecutorSpec`, `Executor`, with `Correlation` and
  `ReverseProtocol`). The correlation protocol is a state machine whose steps are atomic under the executor's one lock.
  Its safety theorems range over every run: any schedule of operations, any monotone clock, any result of a send, any
  message of the peer. `Executor.RequestExecutor` is the object itself, a class whose operations update its state in
  place; ghost logs record the protocol actions each operation performs and every frame it sends, and `Valid` says that
  the state is what the actions lead to and that the frames are those that the actions send, so every theorem about runs
  and about the wire is a theorem about every use of the object. The correlation key is an arbitrary partial function of
  the request id, so that several ids may share one key; payloads are opaque.
- **TTL rewriter** (`JsonGrammar`, `JsonSpelling`, `JsonRoundTrip`, `JsonMeaning`, `TtlScanner`, `TtlScannerCorrect`,
  `TtlRewrite`). The hand-written scanner and splice are related to a grammar of JSON texts by a commuting square:
  parsing the rewritten source is rewriting the parsed value.
- **Final-result cache** (`FinalCache`, `FinalCacheRuns`, `FinalCacheHits`, `FinalResultCache`). Byte accounting,
  eviction, expiry, class revisions and the lifecycle epoch, with both counters saturating at 64 bits, proved to refine
  an unbounded reference.
- **Restricted YAML recognizer** (`YamlText`, `YamlFlow`, `YamlParser`, `YamlRoundTrip`, `YamlDocument`). The mutually
  recursive indentation parser with its rebuilt rows, and a round trip from trees to files and back.
- **Smaller machines** (`HttpFallback`, `ConnectionRetry`, `AppsHost`). The HTTP fallback coordinator, the bounded retry
  schedule, and the Apps host with its deferred frames.

`dafny verify dfyconfig.toml` checks everything.

## What turned out to be conditional

- Cross-generation delivery needs no condition on the retention: when it no longer fits the clock range, no later
  response can be recorded either (`NoCrossGenerationDelivery`). Cancelling by id does need one
  (`CancelReachesForeignGeneration`, `StaleHandleNamesLaterOwner`).
- The fence protects a request that the transport took exactly when both deadlines of its policy fit the clock after the
  send (`FencedExactlyWhenDeadlinesFit`). An application timeout is only checked against the clock when it is made; one
  that no longer fits when the request is sent leaves the request on the wire without an owner, so that its key stays
  open (`OrphanedRequestLeavesKeyOpen`).
- The peer is told of every request other than `initialize` that was given up and whose id can be encoded, exactly unless
  the clock had no room for the tombstone: then the owner is lost without a notice (`PeerIsTold`, `LostIsNeverTold`).
- The rewritten source is admitted except when a negative TTL is spelled more than once: the scanner replaces the first
  spelling while the decoded value keeps the last (`RewriteCommutes`, `DuplicateTtlIsRefused`).
- A fresh answer of the cache is the reference's answer exactly when the last cacheable result of that key was within
  the byte budget: an oversized refill is refused without removing the older entry (`FreshAnswerIsReferenceAnswer`,
  `OversizedRefillKeepsOlder`).
- The sum that admission compares with the correlation limit can exceed it afterwards; what holds is the bound on each
  pair of maps (`CorrelationBound`, `AdmissionSumCanExceedLimit`).
- A legacy GET is opened without an authorization exactly by the permit of another coordinator whose attempt has the
  same number (`OpenLegacyGet`, `ForeignPermitOpensGet`).
- View requests are refused as duplicates or as too many exactly after futures that handled such requests were dropped
  (`HandleRequest`).

## Model

| member | source | states |
|---|---|---|
| `ExecutorRuns.NoCrossGenerationDelivery` | crates/fastmcp-client/src/execution.rs:2524-2629 | In every run whatever retires an owner, a final response with or without a decoding defect included, retires the current owner of its key, whose key has no tombstone; every other request that the transport took under that key is earlier, and retired and past its full retention exactly when its deadlines fitted the clock. |
| `ExecutorRuns.FencedExactlyWhenDeadlinesFit` | crates/fastmcp-client/src/execution.rs:1543-1603 | In every reachable state every generation used so far has its sending, and it is pending or retired exactly when the transport took the request and both deadlines of its policy fitted the clock. |
| `ExecutorRuns.DeliveredAsRetired` | crates/fastmcp-client/src/execution.rs:3449-3485 | In every run the outcome handed to a waiter is the one its generation was retired with. |
| `ExecutorRuns.DeliveredPayloadWasAnswered` | crates/fastmcp-client/src/execution.rs:2587-2611 | In every run a payload handed to a waiter is that of a response accepted earlier for the very generation and id of its handle. |
| `ExecutorSpec.RetiredIsNeverAwaited` | crates/fastmcp-client/src/execution.rs:2504-2522 | The expectation in `wait_for_terminal`, in every schedule: once a generation is retired, taking its outcome at any later point of the run never finds it pending. |
| `ExecutorSpec.GoneIsRetired` | crates/fastmcp-client/src/execution.rs:2328-2337 | In every run an issued generation whose key is not pending has been retired. |
| `ExecutorRuns.CancelReachesForeignGeneration` | crates/fastmcp-client/src/execution.rs:2328-2370 | Cancelling by id reaches another generation than one's own only when one's own is retired, its tombstone is gone and its retention has passed. |
| `ExecutorRuns.RetiredForEver` | crates/fastmcp-client/src/execution.rs:2569-2628 | A generation that left `pending` keeps its one retirement for ever and is never pending again. |
| `ExecutorRuns.HandedOutOnce` | crates/fastmcp-client/src/execution.rs:3449-3485 | Two outcomes handed out in one run belong to different generations, and only a retired generation's outcome is handed out. |
| `ExecutorRuns.TerminalMapsAgree` | crates/fastmcp-client/src/execution.rs:1209-1240 | `completed`, `terminal_records` and `terminal_expirations` have equal key sets in every reachable state. |
| `ExecutorRuns.CorrelationBound` | crates/fastmcp-client/src/execution.rs:1526-1542 | In every reachable state no key is both pending and fenced, and the in-flight and correlation limits hold for each pair of maps, so the total is at most twice the limit. |
| `ExecutorWire.CancellationNotices` | crates/fastmcp-client/src/execution.rs:2704-2803 | In every run, of the frames that the executor sent: at most one cancellation for a generation, none for `initialize`, none for a peer teardown, none after a final response. |
| `ExecutorWire.NoticesCounted` | crates/fastmcp-client/src/execution.rs:2662-2803 | The cancellations on the wire for a generation are exactly the tally that the protocol keeps. |
| `ExecutorWire.NoticeFollowsRequest` | crates/fastmcp-client/src/execution.rs:2704-2803 | A cancellation on the wire comes after a request that the transport took for the same generation, and its id has the key of that request. |
| `ExecutorWire.RequestsCounted` | crates/fastmcp-client/src/execution.rs:1543-1552 | Exactly one request is on the wire for each generation used so far, and none for any other. |
| `ExecutorWire.RequestOf` | crates/fastmcp-client/src/execution.rs:1543-1552 | The request of a generation went out as it was ordered, and its result says whether the transport took it. |
| `ExecutorWire.RequestsAreClean` | crates/fastmcp-client/src/execution.rs:1506-1552 | Each request on the wire went out on a live connection, under a free key, with the next generation and no deferred cancellation outstanding. |
| `ExecutorWire.ReverseResponses` | crates/fastmcp-client/src/execution.rs:2253-2308 | In every run at most one response that the transport took is on the wire for each peer request, and none for a cancelled one. |
| `ExecutorWire.ResponsesNameTheirRequest` | crates/fastmcp-client/src/execution.rs:2289-2299 | Every response on the wire, taken or not, carries the id that came with the request of its capability. |
| `ExecutorWire.SilentOnceFailed` | crates/fastmcp-client/src/execution.rs:1250-1280 | Once the connection has failed nothing more is put on the wire. |
| `ExecutorNotices.PeerIsTold` | crates/fastmcp-client/src/execution.rs:2662-2803 | The lower bound: in every run a request other than `initialize` that was cancelled, timed out, dropped or shut down, and whose id can be encoded, has exactly one cancellation on the wire, or its cancellation is deferred, or the connection has failed since, unless its owner was lost to a clock overflow. |
| `ExecutorNotices.LostIsNeverTold` | crates/fastmcp-client/src/execution.rs:2732-2743 | The exception is real: an owner lost to a clock overflow has no cancellation on the wire and none deferred, in every run. |
| `ExecutorRecords.RecordTellsWhy` | crates/fastmcp-client/src/execution.rs:2597-2628 | In every reachable state a terminal record names the reason of the retirement; its state and flags are those of that reason, and its attempts are the cancellations sent. |
| `ExecutorRecords.TombstoneTellsWhy` | crates/fastmcp-client/src/execution.rs:2540-2580 | In every reachable state a tombstone keeps late responses exactly when a response, well-formed or not, had ended the request. |
| `ExecutorRuns.OutcomeIsKept` | crates/fastmcp-client/src/execution.rs:1209-1240 | In every reachable state the outcome of a retired generation is stored as it was recorded, unless it was handed out, its handle was dropped, or its ten minutes have passed or no longer fit the clock. |
| `ExecutorStreams.DeliveredStreamWasHeard` | crates/fastmcp-client/src/execution.rs:3449-3485 | In every run the stream handed out with a response is exactly the progress kept for that execution since its stream was last taken, in order; a failure comes without any. |
| `ExecutorStreams.TakenStreamWasHeard` | crates/fastmcp-client/src/execution.rs:3386-3398 | The same for the stream of a pending execution. |
| `ExecutorRuns.SendsAreClean` | crates/fastmcp-client/src/execution.rs:1506-1552 | A request goes out only under a free key, on a live connection, with no deferred cancellation outstanding. |
| `ExecutorRuns.FailureIsFinal` | crates/fastmcp-client/src/execution.rs:1250-1280 | Once a terminal error is set the first cause is kept, owners, deferred notices and reverse requests stay empty, and nothing more is sent, admitted, received or answered. |
| `ExecutorRuns.FailAllClears` | crates/fastmcp-client/src/execution.rs:1250-1280 | After `fail_all` its cause is kept and pending owners, tombstones and active peer requests stay empty for the rest of every run. |
| `ExecutorRuns.DeadlinesUnderProgress` | crates/fastmcp-client/src/execution.rs:3146-3206 | While a generation is pending its absolute deadline never changes, its idle deadline moves only to at most the absolute one, and its accepted progress never falls. |
| `ExecutorRuns.ProgressIncreases` | crates/fastmcp-client/src/execution.rs:3180-3183 | Two accepted progress notifications of one generation carry strictly increasing values. |
| `ExecutorRuns.IdleDeadlineMoves` | crates/fastmcp-client/src/execution.rs:3182-3203 | Accepted progress puts the idle deadline of an owner that resets it at the lesser of now plus its idle timeout and its absolute deadline; nothing else about any owner changes. |
| `ExecutorRuns.ReverseAnsweredOnce` | crates/fastmcp-client/src/execution.rs:2253-2308 | A capability that was used, withdrawn by the peer or cancelled never answers anything later in the run, even when its id is reused. |
| `ExecutorRuns.PeerRequestWaits` | crates/fastmcp-client/src/execution.rs:1169-1202 | In every run a retained peer request is in the queue exactly until the queue is taken, it is answered or withdrawn, or the connection fails. |
| `ExecutorRuns.GrownRun` | crates/fastmcp-client/src/execution.rs:915-948 | Whatever an operation appends to the log of actions leads to a later state: clocks, histories, terminal error and owners only move forward. |
| `ExecutorRuns.ReachableInv` | crates/fastmcp-client/src/execution.rs:1113-1152 | The invariant below holds in every state that any sequence of actions reaches. |
| `ExecutorInvariant.InvKept` | crates/fastmcp-client/src/execution.rs:1153-1280 | Every action keeps sendings, ownership, terminal outcomes and their availability, fences, generation spacing, notices, limits, streams and callbacks. |
| `ExecutorInvariant.KeptKept` | crates/fastmcp-client/src/execution.rs:1209-1280 | No action loses an outcome that was neither handed out, nor without a handle, nor out of its retention. |
| `ExecutorInvariant.SpacingOwn` | crates/fastmcp-client/src/execution.rs:1519-1525 | A new generation of a key starts only after every earlier one is out of its fence. |
| `ExecutorInvariant.FencesLeave` | crates/fastmcp-client/src/execution.rs:2573-2580 | An owner that leaves is replaced by a tombstone of its own generation for the whole retention. |
| `ExecutorInvariant.BoundsFailAll` | crates/fastmcp-client/src/execution.rs:1258-1280 | Failing everybody turns pending owners into outcomes without exceeding the limits. |
| `ReverseProtocol.ReverseInvKept` | crates/fastmcp-client/src/execution.rs:1169-1202 | Active peer requests stay open, under the key of their own id and with tokens of their own; what is queued is active; no token is both cancelled and answered. |
| `ReverseProtocol.ReverseStepLater` | crates/fastmcp-client/src/execution.rs:615-639 | A callback that has left its open state never opens again and keeps the end it got. |
| `ReverseProtocol.AnswerRemovesOnlyItsRequest` | crates/fastmcp-client/src/execution.rs:2300-2306 | The correlation filter after an answer removes exactly the answered request from the queue. |
| `ReverseProtocol.QueueAfter` | crates/fastmcp-client/src/execution.rs:1169-1202 | What each action on peer requests leaves in the queue. |
| `ExecutorWitnesses.AdmissionSumCanExceedLimit` | crates/fastmcp-client/src/execution.rs:1526-1542 | A run in which the sum tested at admission later exceeds the limit. |
| `ExecutorWitnesses.OrphanedRequestLeavesKeyOpen` | crates/fastmcp-client/src/execution.rs:1549-1566 | A run of an executor with the limits of the source: an application timeout that fits the clock when it is made overflows when the request is sent, the transport takes it, nobody remembers it, and the next request under its key, with default timeouts, is sent and completed at once. |
| `ExecutorWitnesses.StaleHandleNamesLaterOwner` | crates/fastmcp-client/src/execution.rs:2328-2337 | A run in which a handle still holds its outcome while its id is owned by a later generation, which cancelling through the handle would reach. |
| `ExecutorWitnesses.TombstoneExpiresFirst` | crates/fastmcp-client/src/execution.rs:1204-1240 | A run in which a tombstone has expired and the outcome of its generation has not. |
| `Executor.RequestExecutor.constructor` | crates/fastmcp-client/src/execution.rs:1314-1345 | A new executor stands at the start of an empty run. |
| `Executor.RequestExecutor.PruneTombstones` | crates/fastmcp-client/src/execution.rs:1204-1207 | Exactly the tombstones whose time has come are removed. |
| `Executor.RequestExecutor.RetainTerminal` | crates/fastmcp-client/src/execution.rs:1209-1220 | Record, expiry and outcome are stored together; the expiry falls back to now when the clock overflows. |
| `Executor.RequestExecutor.ReleaseTerminal` | crates/fastmcp-client/src/execution.rs:1222-1226 | The three terminal maps lose the slot together. |
| `Executor.RequestExecutor.PruneRetainedTerminals` | crates/fastmcp-client/src/execution.rs:1228-1240 | Exactly the expired outcomes go, with their streams. |
| `Executor.RequestExecutor.CancelReverseRequests` | crates/fastmcp-client/src/execution.rs:1242-1248 | Every open callback of an active peer request is cancelled and nothing stays active or queued. |
| `Executor.RequestExecutor.CancelCallback` | crates/fastmcp-client/src/execution.rs:615-622 | Only an open callback becomes cancelled. |
| `Executor.RequestExecutor.FailAll` | crates/fastmcp-client/src/execution.rs:1250-1280 | The first cause wins; every owner gets that error as its outcome, lasting its full retention from its own reading of the clock; fences, deferred notices and callbacks are cleared in one protocol action and no outcome is lost. |
| `Executor.RequestExecutor.RetireOwner` | crates/fastmcp-client/src/execution.rs:2564-2628 | The ordinary terminal transition: owner out, tombstone in, outcome retained, stream dropped unless a response was accepted, and exactly the notice that the cause names on the wire. |
| `Executor.RequestExecutor.CancelPending` | crates/fastmcp-client/src/execution.rs:2704-2803 | What cancelling by id does in every case: nothing for an unknown key or an unencodable notice, one owner lost on clock overflow, else exactly one retirement and one send of its notice, whose result decides between success and a failed connection. |
| `Executor.RequestExecutor.Abandon` | crates/fastmcp-client/src/execution.rs:2728-2803 | One owner leaves; the peer is told by one send when it may be, and the call succeeds exactly when that send does, else the connection fails. |
| `Executor.RequestExecutor.RetireAndTell` | crates/fastmcp-client/src/execution.rs:2738-2803 | An owner leaves with its outcome stored, and a notice that cannot be sent fails the connection. |
| `Executor.RequestExecutor.LoseOwner` | crates/fastmcp-client/src/execution.rs:2728-2743 | On clock overflow the owner is removed and no tombstone replaces it. |
| `Executor.RequestExecutor.FlushDeferredCancellations` | crates/fastmcp-client/src/execution.rs:2662-2682 | Succeeds exactly when every send goes out, and then every deferred notice was sent once and nobody was affected; on failure the connection has failed. No outcome is lost. |
| `Executor.RequestExecutor.FlushOne` | crates/fastmcp-client/src/execution.rs:2667-2674 | The first deferred notice is taken, counted and sent, and is what the wire shows. |
| `Executor.RequestExecutor.DrainAbandoned` | crates/fastmcp-client/src/execution.rs:2631-2660 | Succeeds exactly when every send goes out, the clock has room for every tombstone and no dropped owner's notice is unencodable; then no notice is deferred and exactly the owners whose handle was dropped are gone. |
| `Executor.RequestExecutor.CancelDropped` | crates/fastmcp-client/src/execution.rs:2639-2658 | The loop over the dropped owners stops at the first that cannot be cancelled, and succeeds exactly when there is none. |
| `Executor.RequestExecutor.CancelAbandoned` | crates/fastmcp-client/src/execution.rs:2647-2657 | A dropped owner is cancelled with at most its one notice, its own outcome is forgotten and every other one kept. |
| `Executor.RequestExecutor.ExpireTimeouts` | crates/fastmcp-client/src/execution.rs:3120-3144 | Succeeds exactly when no send fails, no tombstone overflows and no due owner's notice is unencodable. Then an owner stays exactly when both its deadlines are still to come, is retired with the absolute timeout exactly when that one has come, and with the idle timeout exactly when only that one has. In every case whoever left has its outcome stored, unless the clock had no room for its tombstone. |
| `Executor.RequestExecutor.NextPendingDeadline` | crates/fastmcp-client/src/execution.rs:2381-2393 | At most every idle and every absolute deadline and equal to one of them, and none exactly when nobody is pending. |
| `Executor.RequestExecutor.PollTimeoutsAt` | crates/fastmcp-client/src/execution.rs:2373-2377 | When it succeeds; then dropped owners are gone, of the others exactly those with both deadlines to come stay, each of the rest was retired for its own deadline with the error that names it, and its outcome is stored. |
| `ExecutorSpec.NothingDueBeforeNextDeadline` | crates/fastmcp-client/src/execution.rs:2381-2393 | A poll finds both deadlines of everybody still to come exactly when it comes before the next pending deadline. |
| `Executor.RequestExecutor.PrepareDrive` | crates/fastmcp-client/src/execution.rs:1790-1797 | When it succeeds, and that before a message is routed the connection is live, no notice is deferred, no owner is abandoned and both deadlines of everybody are to come. |
| `Executor.RequestExecutor.RouteResponse` | crates/fastmcp-client/src/execution.rs:2524-2629 | A tombstone or an unknown key never completes anybody; a live owner is completed with exactly this payload or defect, and stays when the clock has no room for its tombstone. |
| `Executor.RequestExecutor.RetainUncorrelated` | crates/fastmcp-client/src/execution.rs:1161-1167 | Unowned responses are kept in order up to the limit; beyond it the connection fails. |
| `Executor.RequestExecutor.RouteProgress` | crates/fastmcp-client/src/execution.rs:3146-3206 | Progress counts for the unique owner of its marker and only when it increases; it is kept exactly when clock and stream have room. |
| `Executor.RequestExecutor.AcceptProgress` | crates/fastmcp-client/src/execution.rs:3182-3203 | The accepted value is remembered, the idle deadline moves to at most the absolute one, and the stream grows by one. |
| `Executor.RequestExecutor.RouteCancelled` | crates/fastmcp-client/src/execution.rs:2805-2865 | A legacy peer withdraws its own request, a modern peer ends exactly the subscription it names, anything else changes nothing. |
| `Executor.RequestExecutor.WithdrawReverse` | crates/fastmcp-client/src/execution.rs:2823-2835 | The withdrawn request is inactive, unqueued and, if open, cancelled. |
| `Executor.RequestExecutor.RetainReverse` | crates/fastmcp-client/src/execution.rs:1169-1202 | A peer request joins the end of the queue with a fresh capability exactly when its key is free and there is room, else the connection fails. |
| `Executor.RequestExecutor.TakeReverseRequests` | crates/fastmcp-client/src/execution.rs:2248-2250 | The queue is handed over in order, and every request handed over is active. |
| `Executor.RequestExecutor.RespondToReverse` | crates/fastmcp-client/src/execution.rs:2253-2308 | Without the open capability of the active request nothing is sent; with it there is exactly one response under the request's own id, which counts exactly when the transport takes it; a fatal error fails the connection and any other changes nothing. |
| `Executor.RequestExecutor.RejectReverse` | crates/fastmcp-client/src/execution.rs:2478-2503 | One error response to a peer request that is not admitted; the connection fails exactly on a fatal error. |
| `Executor.RequestExecutor.RetainNotification` | crates/fastmcp-client/src/execution.rs:1153-1159 | A notification joins the generic queue in order, or a full queue fails the connection. |
| `Executor.RequestExecutor.RouteNotification` | crates/fastmcp-client/src/execution.rs:1838-1852 | Progress without a unique owner or an increase joins the generic queue, any other goes to its owner. |
| `Executor.RequestExecutor.Execute` | crates/fastmcp-client/src/execution.rs:1489-1603 | A cancelled caller, an invalid id or a failed draining attempts nothing. Otherwise there is one attempt in the state the housekeeping left; a success leaves a fresh handle of the next generation whose owner has the method and marker of the request, its idle deadline at the idle timeout and its absolute deadline at the absolute timeout from the reading after the send. |
| `Executor.RequestExecutor.SendAndOwn` | crates/fastmcp-client/src/execution.rs:1509-1603 | A key that may not be admitted sends nothing; an admissible one sends once and gets its owner exactly when the send goes out and both deadlines fit. |
| `Executor.RequestExecutor.Commit` | crates/fastmcp-client/src/execution.rs:1549-1603 | One send takes one generation: an owner exactly when the transport takes the request and both deadlines fit the clock after it, a failed connection exactly on a fatal error. |
| `Executor.RequestExecutor.RefuseAdmission` | crates/fastmcp-client/src/execution.rs:1509-1542 | The checks in their order refuse exactly when shutdown, failure, a taken or fenced key or a full limit forbids admission. |
| `Executor.RequestExecutor.Orphan` | crates/fastmcp-client/src/execution.rs:1543-1566 | A send that was not taken, or whose deadlines overflow, uses up its generation and leaves no owner. |
| `Executor.RequestExecutor.Own` | crates/fastmcp-client/src/execution.rs:1567-1590 | The new owner holds the next generation and its policy's deadlines from the reading after the send. |
| `Executor.RequestExecutor.TakeTerminalOutcome` | crates/fastmcp-client/src/execution.rs:3449-3485 | An unexpired outcome leaves as stored, with its stream, and completes the handle; a pending handle gets nothing; any other learns of expiry. |
| `Executor.RequestExecutor.Cancel` | crates/fastmcp-client/src/execution.rs:2328-2337 | What cancelling does, and after a successful cancel the key of the id has no owner and the handle's own generation is retired. |
| `Executor.RequestExecutor.CancelAndTake` | crates/fastmcp-client/src/execution.rs:2513-2518 | With other holders acting before each of its two locks, it ends with the stored outcome and stream of the handle handed out, or at the cancel or take that failed in the state it met: the expectation in the source cannot fail. |
| `Executor.RequestExecutor.WaitForTerminal` | crates/fastmcp-client/src/execution.rs:2504-2522 | With other holders acting between any two of its locks, a wait drives its messages one after the other and ends with the stored outcome and stream of its own handle, or at the take, drive or cancel that failed in the state it met; it cancels only when all messages were driven. |
| `Executor.RequestExecutor.AcceptSubscriptionTeardown` | crates/fastmcp-client/src/execution.rs:2343-2370 | Accepted exactly for an active modern subscription, and without a notice. |
| `Executor.RequestExecutor.DropHandle` | crates/fastmcp-client/src/execution.rs:3488-3577 | What dropping does for a completed, live or outlived handle, and when the lock is taken; a live owner is fenced, nothing is kept for it, and its notice is deferred unless it is `initialize` or cannot be encoded. |
| `Executor.RequestExecutor.ForgetOwner` | crates/fastmcp-client/src/execution.rs:3530-3576 | A dropped owner becomes a tombstone of its generation, keeps no outcome and no stream, and its notice joins the end of the deferred ones when there is one to be sent. |
| `Executor.RequestExecutor.TakeStream` | crates/fastmcp-client/src/execution.rs:3386-3398 | The stream of the handle is handed over whole, once. |
| `Executor.RequestExecutor.Shutdown` | crates/fastmcp-client/src/execution.rs:2412-2449 | Succeeds exactly when the transport closes, every notice goes out, no tombstone overflows and no owner's notice is unencodable. No peer request stays active, only owners whose notice cannot be encoded stay pending, and everybody else has an outcome stored unless the clock had no room for its tombstone; a clean shutdown leaves no owner, no deferred notice and a terminal error. |
| `Executor.RequestExecutor.ReleaseEveryone` | crates/fastmcp-client/src/execution.rs:2417-2437 | Whatever fails, no peer request stays active, only owners whose notice cannot be encoded stay pending, and the outcomes of the others are stored unless the clock had no room. |
| `Executor.RequestExecutor.CancelEveryone` | crates/fastmcp-client/src/execution.rs:2421-2435 | Every owner is cancelled even after a failure; only one whose notice cannot be encoded stays, and no outcome is lost. |
| `Executor.RequestExecutor.Drive` | crates/fastmcp-client/src/execution.rs:1703-1860 | Housekeeping; if that succeeds the one message is routed in the state it leaves, exactly as its kind demands, and if it fails nothing is routed and the drive fails. |
| `Executor.RequestExecutor.Route` | crates/fastmcp-client/src/execution.rs:1799-1860 | What every kind of message does and sends and whether the call succeeds: a foreign modern cancellation does nothing, an unadmitted peer request gets its rejection, and unowned notifications are queued or fail the connection. |
| `JsonRoundTrip.ParseInvertsPrint` | crates/fastmcp-client/src/execution.rs:286-290 | A text parses to a syntax tree exactly when it is the printed form of that well-formed tree (sections 2 to 7 of RFC 8259), which is what admission of the source relies on. |
| `JsonRoundTrip.PrintIsInjective` | crates/fastmcp-client/src/execution.rs:286-290 | No text is the printed form of two documents. |
| `JsonSpelling.PartsMakeNumber` | crates/fastmcp-client/src/execution.rs:286-290 | Sign, integer without leading zero, fraction and exponent make a number (section 6 of RFC 8259). |
| `JsonSpelling.NumberHasParts` | crates/fastmcp-client/src/execution.rs:286-290 | Every number has these parts. |
| `JsonSpelling.SpellingReads` | crates/fastmcp-client/src/execution.rs:286-290 | Every text is the meaning of every string that spells its characters plainly, by short escapes or by UTF-16 code units in either case (section 7 of RFC 8259). |
| `TtlScanner.SkipAsciiWhitespace` | crates/fastmcp-client/src/execution.rs:379-395 | The cursor moves past ASCII whitespace, including the form feed. |
| `TtlScanner.JsonStringEnd` | crates/fastmcp-client/src/execution.rs:425-438 | The position after the first quote that no backslash escapes. |
| `TtlScanner.BalancedEnd` | crates/fastmcp-client/src/execution.rs:447-469 | The position after the closer that empties the bracket stack, strings skipped. |
| `TtlScanner.JsonValueEnd` | crates/fastmcp-client/src/execution.rs:440-482 | The end of a string, container or trimmed scalar. |
| `TtlScanner.TopLevelMemberValueRange` | crates/fastmcp-client/src/execution.rs:377-423 | Total on every text; a returned range lies within it and is what the scan specifies. |
| `TtlScannerCorrect.ScannerFindsFirstMember` | crates/fastmcp-client/src/execution.rs:377-482 | On any spelling of any object the scanner returns exactly the span of the first member with the decoded name. |
| `TtlScannerCorrect.ScannerOnParsedText` | crates/fastmcp-client/src/execution.rs:377-482 | The same on every text that parses to an object. |
| `TtlScannerCorrect.BalancedValue` | crates/fastmcp-client/src/execution.rs:447-469 | Passing over any well-formed value leaves the bracket stack as it was. |
| `TtlRewrite.RewriteIsLexical` | crates/fastmcp-client/src/execution.rs:333-375 | The rewrite always succeeds on a parsed source and its output parses to the input tree with only the TTL member changed. |
| `TtlRewrite.RewriteCommutes` | crates/fastmcp-client/src/execution.rs:319-331 | Parsing the rewritten source equals rewriting the parsed value, and the later source-equals-value check admits it, exactly unless a negative TTL occurs more than once. |
| `TtlRewrite.TolerantTtlExactly` | crates/fastmcp-client/src/execution.rs:484-520 | For each of the five list and read requests and any object whose `resultType` is absent or `complete`: the result has a TTL that is no negative number, every other member as it was, and the diagnostic `Missing` or `Negative` exactly when the member was absent or a negative number. Every other result is left alone, and a second pass changes nothing. |
| `TtlRewrite.RewrittenSource` | crates/fastmcp-client/src/execution.rs:319-375 | The same of the source text: what is parsed after the rewrite, and that rewriting again leaves every character in place. |
| `TtlRewrite.DuplicateTtlIsRefused` | crates/fastmcp-client/src/execution.rs:366-373 | A source with the member twice on which the rewrite and the value differ. |
| `TtlRewrite.AppendKeepsFields` | crates/fastmcp-client/src/execution.rs:338-363 | Appending the member keeps every other member's order and lexeme. |
| `TtlRewrite.ReplaceKeepsFields` | crates/fastmcp-client/src/execution.rs:364-373 | Replacing the value keeps every other member's order and lexeme. |
| `JsonMeaning.OccursIffDenoted` | crates/fastmcp-client/src/execution.rs:484-520 | A name occurs among the members exactly when the decoded object has it. |
| `FinalCacheRuns.CacheReachable` | crates/fastmcp-client/src/cache.rs:302-581 | In every reachable state the byte count is the recomputed sum, both limits hold, every entry's generation is current, a disabled cache is empty and an exhausted one disabled. |
| `FinalCacheRuns.TokenIsCurrentIffUnfenced` | crates/fastmcp-client/src/cache.rs:327-363 | On an enabled cache a token captured earlier is current exactly when no clear, enable change, invalidation of its class or saturated invalidation came in between. |
| `FinalCacheRuns.UnfencedIffCurrent` | crates/fastmcp-client/src/cache.rs:428-437 | On an enabled cache an insertion's token is current exactly when nothing has fenced the class of its key since its fetch began for that class; a token of another cache counts for what it says. |
| `FinalCacheRuns.TicketOfFetch` | crates/fastmcp-client/src/cache.rs:357-363 | Every token given out belongs to a fetch that began at one place of the run. |
| `FinalCacheRuns.FencedFetchStoresNothing` | crates/fastmcp-client/src/cache.rs:428-437 | An insertion whose fetch was fenced since it began is refused and changes nothing, in every run. |
| `FinalCacheRuns.ExhaustedForEver` | crates/fastmcp-client/src/cache.rs:344-353 | Once the epoch is used up the cache stays disabled and empty for ever. |
| `FinalCacheRuns.FreshAnswerIsReferenceAnswer` | crates/fastmcp-client/src/cache.rs:366-420 | The outdated-generation miss never happens, and a fresh answer equals that of the unbounded reference, which knows no generations, exactly when the last cacheable result of that key was within the byte budget. |
| `FinalCacheRuns.CacheRefines` | crates/fastmcp-client/src/cache.rs:428-551 | The reference keeps what fetches brought that nothing fenced since they began; every retained entry is the reference's unless the reference has since taken a result too large to retain. |
| `FinalCacheRuns.OversizedRefillKeepsOlder` | crates/fastmcp-client/src/cache.rs:453-459 | A run in which an oversized refill leaves the older result in place. |
| `FinalCacheHits.StoredResultIsAnswered` | crates/fastmcp-client/src/cache.rs:366-485 | The hit law, in every run: after a result was stored, and while no other was stored for its key, a lookup gives that result with its generation and scope before its expiry and a stale miss from then on, unless a fence of its class, an eviction or an earlier late lookup took it away. |
| `FinalCacheHits.NothingStoredIsMissed` | crates/fastmcp-client/src/cache.rs:375-420 | A key for which nothing was stored is missed. |
| `FinalCacheHits.StoredExactly` | crates/fastmcp-client/src/cache.rs:428-459 | An insertion is stored exactly when the cache is enabled, nothing has fenced the class since the fetch began, and the result may be cached and is within the byte budget at its true size. |
| `FinalCacheHits.VerdictExactly` | crates/fastmcp-client/src/cache.rs:428-459 | When each other verdict is given. |
| `FinalCacheRuns.FenceMovesOn` | crates/fastmcp-client/src/cache.rs:498-521 | A fence moves epoch or revision strictly past every token given out before, or exhausts the cache. |
| `FinalCache.CacheInvKept` | crates/fastmcp-client/src/cache.rs:302-581 | Every action keeps the cache invariant. |
| `FinalCache.StoredSizeIsExact` | crates/fastmcp-client/src/cache.rs:125-145 | The saturating size of an entry is its true size whenever it is within any byte budget. |
| `FinalResultCache.ResultCache.constructor` | crates/fastmcp-client/src/cache.rs:302-314 | A new cache is enabled and empty, and has the limits it is given when they are within range. |
| `FinalResultCache.ResultCache.ClearAll` | crates/fastmcp-client/src/cache.rs:344-353 | Entries go and the epoch advances, or the cache is exhausted and disabled. |
| `FinalResultCache.ResultCache.Switch` | crates/fastmcp-client/src/cache.rs:327-332 | A change of the enabled state clears; an exhausted cache cannot be enabled. |
| `FinalResultCache.ResultCache.BeginFetch` | crates/fastmcp-client/src/cache.rs:357-363 | The token is the current generation of the class. |
| `FinalResultCache.ResultCache.LookupPageAt` | crates/fastmcp-client/src/cache.rs:375-420 | The answer in every case; a stale entry is removed with its bytes and any other lookup leaves every entry in place (`StoredResultIsAnswered`). |
| `FinalResultCache.ResultCache.EvictOldest` | crates/fastmcp-client/src/cache.rs:560-574 | One entry with the least receipt goes, and none exactly when the cache is empty. |
| `FinalResultCache.ResultCache.MakeRoom` | crates/fastmcp-client/src/cache.rs:464-470 | The loop ends without refusal; no victim is younger than a survivor and none more is evicted than needed. |
| `FinalResultCache.ResultCache.InsertIfCurrentAt` | crates/fastmcp-client/src/cache.rs:428-485 | The verdict in every case, for any token; when stored, the victims make room and the entry is placed, else nothing changes. |
| `FinalResultCache.ResultCache.InvalidateResultSet` | crates/fastmcp-client/src/cache.rs:498-521 | The revision advances and the class's entries go, or a saturated revision rotates the epoch. |
| `FinalResultCache.ResultCache.RecountRetainedBytes` | crates/fastmcp-client/src/cache.rs:576-580 | The recount is the sum of all entries and does not saturate. |
| `FinalResultCache.ResultCache.InvalidateNotification` | crates/fastmcp-client/src/cache.rs:524-551 | Which classes each server notification fences, in order. |
| `YamlText.StripCommentLoop` | scripts/release_quarantine/quarantine_reachability.py:139-156 | The line up to its unquoted comment, trimmed at the end. |
| `YamlText.CommentExactly` | scripts/release_quarantine/quarantine_reachability.py:139-156 | A comment starts at the first `#` that is outside quotes and at the start of the line or after a blank. |
| `YamlText.SplitFlowLoop` | scripts/release_quarantine/quarantine_reachability.py:158-186 | The stripped pieces between commas outside quotes and brackets. |
| `YamlText.HasTopLevelColon` | scripts/release_quarantine/quarantine_reachability.py:244-262 | True exactly when some unquoted, unbracketed colon stands before a blank or the end. |
| `YamlText.SplitKey` | scripts/release_quarantine/quarantine_reachability.py:265-283 | Raises exactly when there is no such colon; else splits at the first one, with a separator that is never empty. |
| `YamlText.BracketsShield` | scripts/release_quarantine/quarantine_reachability.py:244-262 | No colon between a bracket or brace and the one that closes it separates, and the depth outside is as before. |
| `YamlText.QuotesShield` | scripts/release_quarantine/quarantine_reachability.py:244-262 | No colon inside quotes of either kind separates, whatever else stands in them. |
| `YamlParser.ParseBlockRows` | scripts/release_quarantine/quarantine_reachability.py:198-207 | Terminates on every row list and agrees with the reference parser, never moving the index back. |
| `YamlParser.ParseSequenceRows` | scripts/release_quarantine/quarantine_reachability.py:209-241 | The same for sequences, including the rebuilt rows of an item that opens a mapping. |
| `YamlParser.ParseMappingRows` | scripts/release_quarantine/quarantine_reachability.py:287-321 | The same for mappings, including block scalars, whose text is pinned by `BlockReadsBack`, repeated keys, pinned by `PutAssigns`, and flush sequences. |
| `YamlParser.PutAssigns` | scripts/release_quarantine/quarantine_reachability.py:287-321 | The last assignment to a key counts, other keys keep their values, and keys keep the order of their first assignment. |
| `YamlParser.ParseRows` | scripts/release_quarantine/quarantine_reachability.py:337-346 | An accepted document is one mapping and leaves no row unconsumed. |
| `YamlRoundTrip.RowsRoundTrip` | scripts/release_quarantine/quarantine_reachability.py:198-321 | Every printable tree is read back from its rows, and every row is consumed. |
| `YamlRoundTrip.BlockReadsBack` | scripts/release_quarantine/quarantine_reachability.py:297-306 | The text of a block scalar, cut after each newline, is one line for each row: as many spaces as it is indented, its content and a newline. |
| `YamlRoundTrip.FieldParses` | scripts/release_quarantine/quarantine_reachability.py:287-321 | A printed key with everything below it is read back, whatever follows it. |
| `YamlRoundTrip.MappingItemParses` | scripts/release_quarantine/quarantine_reachability.py:215-228 | A mapping that starts on the row of its dash is read back through the rebuilt row. |
| `YamlRoundTrip.HeadSplits` | scripts/release_quarantine/quarantine_reachability.py:265-283 | Key and value are read back from the row of a key. |
| `YamlFlow.FlowReads` | scripts/release_quarantine/quarantine_reachability.py:158-195 | Every printed flow sequence of plain, quoted and nested atoms is read back as the list of its atoms. |
| `YamlFlow.SplitJoined` | scripts/release_quarantine/quarantine_reachability.py:158-186 | The pieces between the top-level commas of a printed flow sequence are its atoms. |
| `YamlDocument.ParseWorkflowText` | scripts/release_quarantine/quarantine_reachability.py:324-346 | Accepts exactly when the rows of the lines parse to one mapping, and returns it. |
| `YamlDocument.LinesReadBack` | scripts/release_quarantine/quarantine_reachability.py:326-336 | Comments, blank lines and document markers disappear and every row is read back from its line. |
| `YamlDocument.TabsExpand` | scripts/release_quarantine/quarantine_reachability.py:326-327 | Each tab becomes four spaces and nothing else changes. |
| `YamlDocument.FileRoundTrip` | scripts/release_quarantine/quarantine_reachability.py:324-346 | However comments, blank lines and markers are strewn over the printed rows, the file parses back to the tree. |
| `HttpFallback.Negotiation.constructor` | crates/fastmcp-client/src/negotiation.rs:115-134 | A fresh attempt has dispatched, selected and authorized nothing. |
| `HttpFallback.Negotiation.ObserveModernProbe` | crates/fastmcp-client/src/negotiation.rs:145-171 | One probe per attempt, and what each policy makes of each kind of answer; an authorization never selects the legacy era and a second probe changes nothing. |
| `HttpFallback.AdmissibleExactly` | crates/fastmcp-client/src/leg_neg.rs:481-489 | An admitted target is the configured one, or a query-free configured one extended by a non-empty query. |
| `HttpFallback.TrimRemovesSpace` | crates/fastmcp-client/src/leg_neg.rs:461 | The advertised target loses exactly the white space around it. |
| `HttpFallback.Coordinator.constructor` | crates/fastmcp-client/src/leg_neg.rs:308-337 | A new coordinator has admitted nothing. |
| `HttpFallback.Coordinator.Observe` | crates/fastmcp-client/src/leg_neg.rs:379-424 | Admitted exactly for the own bundle and target, once, on a probe that allows the downgrade or shows the modern era; a GET is authorized exactly by the former, and a refusal changes nothing. |
| `HttpFallback.Coordinator.OpenLegacyGet` | crates/fastmcp-client/src/leg_neg.rs:430-442 | The one GET opens exactly for a permit of the settled attempt. An opened GET exceeds the authorizations exactly when another coordinator's permit has the number of the attempt that this one settled without authorizing. |
| `HttpFallback.Coordinator.AdmitEndpointEvent` | crates/fastmcp-client/src/leg_neg.rs:451-471 | The legacy era is selected exactly by the first admissible endpoint event of an opened GET, and without a foreign permit only after a probe that allows the downgrade; a refusal changes nothing. |
| `HttpFallback.ForeignPermitOpensGet` | crates/fastmcp-client/src/leg_neg.rs:430-442 | Two coordinators of which one opens a GET that it never authorized, with the permit of the other. |
| `ConnectionRetry.AcceptedPolicyFits` | crates/fastmcp-client/src/builder.rs:112-153 | A policy is accepted exactly when it is within its limits and all its delays fit the elapsed limit, and then has the three values given; the product never overflows. |
| `ConnectionRetry.Session.WaitForRetry` | crates/fastmcp-client/src/builder.rs:1167-1211 | Terminates. Counted from a reading of the clock taken since its last sleep and its entry, no sleep exceeds 25 ms, the remaining delay or the remaining deadline. Success only after the whole delay, cancellation exactly when a checkpoint says so, and giving up only at the deadline or without budget. |
| `ConnectionRetry.Session.NextSlice` | crates/fastmcp-client/src/builder.rs:1181-1203 | One round of the wait: over for one of its reasons, or the length of the next sleep from the reading of this round. |
| `ConnectionRetry.Session.Connect` | crates/fastmcp-client/src/builder.rs:966-1015 | At most the allowed attempts, each a full delay after the end of failed ones; success only with the configured connection of the last attempt; cancelled exactly when a checkpoint said so and no cleanup failed; elapsed only out of time; an unverified cleanup reported exactly when an attempt or the close of a connected client ended so; an attempt's failure only when all have failed; a connection that is not returned was closed. |
| `ConnectionRetry.Session.Admit` | crates/fastmcp-client/src/builder.rs:983-999 | A connected client is returned with its policy, or closed for the first of cancellation, deadline and refused policy. |
| `ConnectionRetry.Session.BeforeAttempt` | crates/fastmcp-client/src/builder.rs:966-978 | What ends the loop before an attempt, and that a retry waited its full delay. |
| `AppsHost.Host.constructor` | crates/fastmcp-client/src/mcp_apps.rs:178-194 | A new host is in its first phase with nothing pending. |
| `AppsHost.Host.SendHostRequest` | crates/fastmcp-client/src/mcp_apps.rs:384-416 | When a request is sent; a sent one takes the next id, a failed send restores counter and pending requests exactly, and one dropped while sending leaves its request pending. |
| `AppsHost.Host.BeginTeardown` | crates/fastmcp-client/src/mcp_apps.rs:420-464 | A teardown is pending exactly while the View is closing; a failed send restores phase, counter and pending requests exactly, and one dropped while sending leaves the View closing. |
| `AppsHost.Host.HandleResponse` | crates/fastmcp-client/src/mcp_apps.rs:358-367 | An unknown response changes nothing; the answer to a teardown always finds the View closing and closes it. |
| `AppsHost.Host.HandleRequest` | crates/fastmcp-client/src/mcp_apps.rs:223-321 | A View request is refused before handling exactly when the handling of too many, or of one with its id, was dropped earlier; an initialization is refused for its version or outside the first phase, an application request outside the active one. Result, live requests and phase in every other case. |
| `AppsHost.Host.HandleNotification` | crates/fastmcp-client/src/mcp_apps.rs:323-356 | Only the initialized notification activates, before the policy's hook and whatever the hook says; only an approved request in the active phase whose hook succeeded begins a teardown; a hook's error is reported and changes nothing else. |
| `AppsHost.WireHost.constructor` | crates/fastmcp-client/src/mcp_apps.rs:779-795 | A new wire host has deferred nothing. |
| `AppsHost.WireHost.ProcessNext` | crates/fastmcp-client/src/mcp_apps.rs:808-834 | The frame handed to admission is the first deferred one, and the next from the carrier only when none is deferred; an admitted request is handled to its end and what is deferred meanwhile joins the queue. The frames offered, followed by those deferred, are a subsequence of those that arrived, and every other frame was a control or met a full queue. |
| `AppsHost.WireHost.HandleViewRequest` | crates/fastmcp-client/src/mcp_apps.rs:836-915 | The result and the queue in every case of its rounds. Frames that arrive meanwhile are appended to the queue as they arrived; only controls of this request are left out, and one frame that finds the queue full, which ends the request with an error. |
| `AppsHost.HandledExactly` | crates/fastmcp-client/src/mcp_apps.rs:836-915 | The handling ends at the first round that brings its end, a failure, a cancellation or a frame with no room; frames before it are deferred as they came, and a bad control spoils a success. |
| `AppsHost.WireHost.Defer` | crates/fastmcp-client/src/mcp_apps.rs:860-912 | One frame from the carrier: deferred exactly when it is no control and the queue has room. |

## Left out

- Transports, subprocesses, HTTP, SSE and WebSocket clients: only the outcome of a send, a read or a close appears, as an arbitrary choice.
- Typed decoding of MCP messages, validation of inbound frames and the encoding of cancellation notices: a response carries its payload or the defect that decoding found, and whether a notice can be encoded is an arbitrary predicate of the id.
- Tasks subscriptions, raw result sources and the queue of cancellation events in the executor: they repeat the ownership argument or are plain bounded queues. Draining the two diagnostic queues is left out too.
- Executor.RequestExecutor.CancelPending: the reason and the wish for a notice come together as at every call in the source, where only a teardown by the peer goes without one.
- The wording of errors, except that those of the two timeouts differ from each other and from a cancellation.
- Which peer requests the era admits: an arbitrary property of each request.
- Executor.RequestExecutor.DropHandle, and the waits: a handle is one that this executor issued; a handle of another executor is refused in the source by comparing identities.
- Ingress ownership (`claim_ingress_owner_locked`): a single-branch check.
- Concurrency inside one hold of the executor's lock: there is none, except for a handle dropped while the lock is taken, which is modelled. Waiting for an outcome takes and frees the lock several times, and whatever others do in between is modelled as any continuation of the run.
- Progress values are real numbers, so the check that a value is finite does not appear.
- The cell behind a callback is one of three states in the source; here it is membership of its token in two disjoint sets.
- Byte positions: the scanner counts characters of the source, which are the bytes of its ASCII part; every character it looks for is ASCII.
- The recursion limit of the JSON library and its number formatting: numbers are compared by lexeme.
- Counters of the cache (`hits`, `misses` and the like): they do not influence any answer.
- Extraction of cache hints from typed results: a result carries its hints and the length of its encoding, if it has one.
- `str.splitlines`: a workflow file is given as its lines.
- Quoted keys with a colon inside and other spellings that the recognizer also accepts: the round trip prints one layout of each tree, with flush or indented sequences, flow sequences, quoted scalars and any comments.
- YamlDocument.ParseWorkflowText: error messages are not compared with the reference, only acceptance and the tree.
- The View lifecycle of MCP Apps is defined outside this crate; it is assumed to be a phase that only moves forward, and which phases may start closing is an arbitrary predicate of earlier ones.
- Bridge admission of Apps frames: its verdict on each frame is arbitrary, and closing a request that met a full queue always succeeds.
- ConnectionRetry.Session.Connect: the connection itself, its cleanup and whether a client takes its timeout policy are arbitrary outcomes.
- AppsHost.WireHost.HandleViewRequest: the handling ends, or is dropped by the caller, after a given finite list of rounds.
- Frames that a dropped receive may have taken from the carrier: `log` has what the carrier delivered to the host.
- Executor.RequestExecutor.WaitForTerminal: the reader gets a given finite list of messages before the caller's context is cancelled.
- Policy analysis of workflows, provider audit and command line of the quarantine script: branch-by-branch checks over regular expressions.
- Pagination, multi-round-trip limits, session and authentication helpers: counters and accessors.
