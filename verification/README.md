# Verification model of the agent-safety runtime

This Dafny project models the safety-critical parts of the agent runtime under `src/` and proves what they
promise: the human-approval protocol and its stores, the request consumer, PII masking, output truncation,
circuit breaking and retry, rate limiting, session memory, audit queries, vector search, the harness sprint
loop, and risk scoring with its feedback loop. `dafny verify dfyconfig.toml` checks everything.

## How the models are built

- **Human approval** (`hitl_*.dfy`). `HitlProtocol` is a state machine whose steps are the stretches of code
  between two `await`s. Submissions (alone or inside the orchestrator's act phase), decisions and expiry sweeps
  interleave freely; the lock, the Python objects and the two stores are explicit, because the in-memory store
  hands out the object it holds and the Redis store hands out copies. `Abort` ends a task at any `await`, so no
  external call is assumed to succeed, and Redis may lose any key at any time. The clock never goes back,
  request ids are fresh, there is one process, and a store command takes effect before its call returns or
  raises. `HitlInvariant` and the files beside it prove one invariant of every reachable state; `HitlSafety`,
  `HitlGate`, `HitlProgress` and `HitlBounded` draw the conclusions. `HitlOutcomes`, `HitlCalls` and
  `HitlStamps` fix what each call answers in any interleaving, `HitlShown` and `HitlSweep` what `get_request`
  shows of its work afterwards, and `HitlAudited` what the audit log says of it. `HitlAccount` keeps the gauge's
  books beside a run, and `HitlGauge` balances them over every interleaving; `HitlSerial` and `HitlOverlap` say
  when they come out even. `HitlCapacity` and `HitlRoom` are about requests that are never filed. The machine
  allows a switch at every `await`; `HitlPace` says which of them really suspend, `HitlAtomic` what follows for
  the lock, and the runs in `HitlWitness` switch nowhere else. `HitlLedger` and `HitlGateway` are the same calls
  one at a time, as a class with fields updated in place; `HitlSolo` and `HitlSequential` prove that the
  protocol, when its calls do not overlap, is that ledger; `HitlStore` compares the two stores.
- **Request consumer** (`consumer*.dfy`). The topic's log, the committed offset, the store and the place of
  the single consumer, with a crash possible anywhere; then `_handle` as a method, proved to be a crash-free
  run of that machine; `ConsumerExact` says which runs break its two weaker promises, and `ConsumerSettles`
  which requests can still come to an end. Store entries outlive redelivery.
- **PII masking** (`stable_sort.dfy`, `pii_*.dfy`). What the patterns match is an arbitrary list of non-empty
  spans. The splice loop with its running offset is a method, proved equal to a functional partition.
- **Truncation** (`utf8.dfy`, `sandbox_executor.dfy`). UTF-8 by section 3 of RFC 3629, with Python's
  `errors="ignore"` decoder defined on every byte string.
- **Breaker and retry** (`circuit_breaker.dfy`, `resilient_calls.dfy`). A class whose fields are proved to be
  functions of the history of events, and the two ways in which it is combined with the retry loop.
- **Rate limiter** (`action_*.dfy`). Expiring Redis counters in place, then what they bound over every run and
  every interval of time. Redis executes a pipeline within a minute of the caller's reading of the clock.
- **Session memory** (`session_*.dfy`). One Redis keyspace of strings and sets with deadlines; the three
  commands of a set reach Redis at three moments, and each may be lost, take effect and raise, or be answered.
- **Audit queries** (`audit_*.dfy`), **vector search** (`cosine*.dfy`, `vector_store.dfy`), **sprint loop**
  (`harness.dfy`), **feedback and risk** (`feedback_loop.dfy`, `risk_scorer.dfy`). Scores and embeddings are
  exact reals; `math.sqrt` is any function that squares back to its argument.

## Where the code does not keep a promise

Each promise that fails has a concrete run, and a condition under which it holds, exactly.

- The act phase says that it waits for a human decision. `submit_for_approval` does not wait: behind Redis the
  gated action is never executed (`RedisGateStaysShut`). With the in-memory store it is executed if and only
  if a decision to approve that very request takes effect after the save and before the call returns
  (`GateOpensExactly`; `GateCanOpen` is such a run), and otherwise the act phase raises.
- The gauge of pending requests can go wrong: a late decision and a sweep (`GaugeMiscounts`), or two sweeps
  (`SweepsMiscount`), count one request out twice, because `_expire_single` works outside the lock on an old
  snapshot. Over Redis one request is enough; in memory it takes two, as a sweep lets others in only while it
  writes an audit record. Nothing else is wrong with the gauge: over every interleaving and both stores, when no call is
  cut short and no key lost, the gauge at rest is the pending count less the times a request was counted out
  again (`GaugeIsPendingLessSurplus`). In memory that is the number of expiries that met an object no longer
  PENDING (`SurplusIsMeetings`), and over either store it is 0 if a call begins only when every other is
  finished (`GaugeIsExactOneAtATime`).
- A call cut short after it closed a request and before it filed it leaves the id in the pending set
  (`RoomCanBeLost`). The room can come back if and only if the request is waiting for a decision or some call
  has it in hand (`RoomComesBackExactly`); with no call under way, if and only if it is live and PENDING
  (`RoomAtRest`). If no call was cut short and no key lost, every request left is (`UndisturbedLosesNoRoom`).
- A message can pass the consumer's idempotency check more than once (`CheckCanPassTwice`): once for its
  start, once for each crash between the check and the mark, and once if it is just there (`PassesExactly`).
  What happens at most once is starting it.
- A request cut off in processing stays there (`CutIsForever`). Every other request can still be completed or
  failed by some further run, in any state (`SettlesExactly`).
- Failed is final. Completed is not, if a store write can take effect and still raise: a request shown completed
  later shows failed if and only if the write of `completed` did that and every later attempt of the same
  handling failed, through to the write of `failed` (`CompletedFailsExactly`; `AmbiguousWriteCanUndo` is such
  a run for any number of retries).
- The two request stores agree while no TTL has run out (`RedisRefinesMemory`). After that, `get` alone can
  show an archived copy that the in-memory store would not (`RedisGetCanDiffer`, and exactly when:
  `RedisGetExactly`).
- The breaker's class comment allows one probe in the half-open state; the code lets every caller through
  until an outcome is recorded (`ProbesAreUnlimited`).
- The limiter is called a sliding window, and counts fixed buckets. The limit holds over an interval of the
  window's length, under all limits, if and only if the interval starts with a bucket (`AlignedExactly`); over
  any other, twice the limit does (`SlidingBound`). For given limits and any interval at all, `MostExactly`
  gives the exact number of actions that can be allowed in it, and so `KeepsExactly` and
  `SlidingBoundIsReached` say where a limit is kept and where twice the limit is reached: by default an hour
  that starts at half past lets 200 through (`HalfPast`).
- A session's index is complete exactly under the condition of `SetKeepsIndex`. A shorter TTL, an index that
  runs out in the middle of a set, or a set cut off after its first command hides live values from `get_all`
  and `delete_session` (`ShorterTtlHidesKeys`, `ExpiringIndexHidesKey`, `BrokenSetHidesKey`).
- The two audit stores agree exactly when the time range is empty, or the limit is positive and no name is the
  empty string (`AgreementIsExact`).
- Truncation is not idempotent (`SecondPassCanChange`). A second pass changes nothing if and only if the output
  fits or the cap falls on the end of a code point (`SecondPass`).
- Feedback counters are cumulative, so one burst of rejections, read k times, raises a bias k times
  (`HighRejectionRun`), whatever is read of other action types in between.

## Model

| member | source | states |
|---|---|---|
| HitlRuns.ReachableInv | src/agents/hitl_gateway.py:85-307 | in every interleaving the objects, store entries, index, audit log and decisions stay consistent with each request's history |
| HitlSafety.TerminalStatusIsFinal | src/agents/hitl_gateway.py:166-278 | once a request shows a terminal status no further run makes it show another, although the sweep writes EXPIRED outside the lock from an old snapshot; the in-memory store goes on showing that status for ever |
| HitlSafety.OneDecisionInTime | src/agents/hitl_gateway.py:166-200 | at most one decision per request id ever takes effect, it approves or rejects, and it did so strictly before `expires_at` |
| HitlSafety.SuccessIsUnique | src/agents/hitl_gateway.py:166-252 | two calls that returned success for one id are the same call, and the id shows no other decision than that call's; with no key lost it does show it (`DecidedIsShown`) |
| HitlSafety.ApprovalNeedsDecision | src/agents/hitl_gateway.py:166-200 | APPROVED is only ever shown if a decision to approve took effect before the deadline: silence never approves |
| HitlSafety.CapacityHolds | src/agents/hitl_gateway.py:119-128 | active requests and pending members never exceed the cap in any interleaving, and every live request key is in the pending set |
| HitlOutcomes.DecisionExactly | src/agents/hitl_gateway.py:177-193 | in every interleaving and over both stores, no key lost: a decision takes effect exactly if `get_request` shows the id as PENDING, the decision is to approve or reject, and the deadline has not come; at the deadline and after it turns to expiring the request, and otherwise it raises and changes no store |
| HitlOutcomes.LookupExactly | src/agents/hitl_gateway.py:171-175 | no key lost: a decision finds nothing exactly if the request was never saved or is archived |
| HitlOutcomes.RoomExactly | src/agents/hitl_gateway.py:119-128 | a submission is turned away exactly if as many requests as the cap were saved and not yet archived |
| HitlOutcomes.SavedIsPending | src/agents/hitl_gateway.py:128-131 | saving makes a request appear: nothing is shown for its id before, PENDING right after, and every other id reads as before |
| HitlStamps.StampIsKept | src/agents/hitl_gateway.py:110-118 | in every run and over both stores, whatever `get_request` returns for an id names the agent that asked and expires exactly the timeout after its submission, and every decision and sweep goes by that deadline |
| HitlCalls.CallsAnswerTheirOwn | src/agents/hitl_gateway.py:110-278 | every call ends with its own business: a decision raises or answers its own id and status, a submission raises or returns with its own id logged, an act phase raises or returns with the execution of its own action logged |
| HitlCalls.FailsOnlyThere | src/agents/hitl_gateway.py:110-278 | a call that is not cut short fails in five places only: no room, not found, an unfit decision, and at its end a late decision or an action without approval |
| HitlShown.DecidedIsShown | src/agents/hitl_gateway.py:191-208 | no key lost, calls cut short anywhere: after a decision returned success `get_request` shows it, then and for ever |
| HitlShown.SweptIsShown | src/agents/hitl_gateway.py:258-273 | the same for EXPIRED, once a sweep has filed a request it found |
| HitlShown.LateIsShown | src/agents/hitl_gateway.py:186-208 | the same for EXPIRED, once a late decision has filed its request |
| HitlShown.SubmittedIsShown | src/agents/hitl_gateway.py:128-164 | a request that its submission has saved is shown from then on and for ever |
| HitlSweep.SweepClosesDue | src/agents/hitl_gateway.py:258-278 | a request that is due when a sweep begins shows a terminal status when that sweep is done, whatever other calls do meanwhile and wherever they are cut short, over both stores |
| HitlAudited.RecordsAreTrue | src/agents/hitl_gateway.py:133-304 | over every run: a logged submission was saved, a logged decision took effect, a logged expiry was of an undecided request past its deadline |
| HitlAudited.AnswersAreLogged | src/agents/hitl_gateway.py:133-304 | over every run: a decision that returned success is in the audit log exactly once, so is a submission that went on to its broker call, and a sweep has logged the expiry of all that it is done with |
| HitlAudited.LoggedOnce | src/agents/hitl_gateway.py:133-252 | no decision and no submission is ever logged twice |
| HitlGate.ExecutionWasApproved | src/agents/orchestrator/orchestrator.py:181-260 | an executed record follows the proposed record of the same action and score, and at or above the threshold an approval of that very request took effect before its deadline |
| HitlGate.RedisGateStaysShut | src/agents/orchestrator/orchestrator.py:205-260 | behind the Redis store no action at or above the threshold is ever executed, because the submitted object is never refreshed |
| HitlGate.GateOpensExactly | src/agents/orchestrator/orchestrator.py:205-260 | with the in-memory store, when `submit_for_approval` returns, a gated action goes on to be executed if and only if the same task saved the request and a decision approving it took effect since, before its deadline; otherwise the act phase raises |
| HitlGate.AskedExactly | src/agents/orchestrator/orchestrator.py:225-260 | in every run an action is executed without a request exactly if its score is below the threshold or autonomous mode is on, and only the other actions wait for one |
| HitlGate.UngatedGoesAhead | src/agents/orchestrator/orchestrator.py:203-260 | such an action is recorded as proposed and can at once be recorded as executed: no request is made and the store stays as it was |
| HitlMemory.ObjectShowsVerdict | src/agents/hitl_store.py:23-54 | in memory every holder of a request sees the decision on it: an object shows a verdict if and only if that decision took effect |
| HitlWitness.GateCanOpen | src/agents/orchestrator/orchestrator.py:205-260 | a run of the in-memory store, switching only where the code suspends, in which a gated action is approved and executed: one of those that `GateOpensExactly` describes |
| HitlWitness.GaugeMiscounts | src/agents/hitl_gateway.py:186-205 | for either store, a run that switches only where the code suspends, in which a late decision and a sweep count one request out of the gauge twice |
| HitlWitness.SweepsMiscount | src/agents/hitl_gateway.py:258-282 | for either store, such a run in which two overlapping sweeps count one request out twice |
| HitlAtomic.NoContention | src/agents/hitl_store.py:23-54 | in memory, switching only where the code suspends, no call ever waits for the lock while another holds it: the sections under the lock are atomic there anyway |
| HitlGauge.GaugeIsPendingLessSurplus | src/agents/hitl_gateway.py:110-304 | over every interleaving and both stores with no call cut short and no key lost, once no call is under way an agent's gauge is its number of pending active requests less the times one of its requests was counted out again, and is exact if and only if that is 0 |
| HitlOverlap.SurplusIsMeetings | src/agents/hitl_gateway.py:258-282 | in memory that surplus is the number of times an expiry met an object that was not PENDING any more, so the gauge is exact if and only if that never happened |
| HitlSerial.GaugeIsExactOneAtATime | src/agents/hitl_gateway.py:110-304 | over either store, if a call begins only when every other is finished, none is cut short and no key is lost, nothing is counted out twice and at rest the gauge is the number of pending active requests |
| HitlCapacity.StrandedForever | src/agents/hitl_gateway.py:119-128 | an id in the pending set that is not PENDING in the store and that no unfinished call has in hand stays there in every further run: sweeps skip it, decisions refuse it, and it takes up capacity for ever |
| HitlRoom.RoomComesBackExactly | src/agents/hitl_gateway.py:119-278 | in any reachable state and for either store, some further run takes an id out of the pending set if and only if it is not so stranded: it is live and PENDING, or an unfinished call has it in hand |
| HitlRoom.RoomAtRest | src/agents/hitl_gateway.py:119-278 | with no call under way, if and only if the request is live and PENDING |
| HitlRoom.UndisturbedLosesNoRoom | src/agents/hitl_gateway.py:110-278 | after any run in which no call was cut short and no key lost, at rest every id in the pending set is live and PENDING, and can leave |
| HitlRoom.RoomCanBeLost | src/agents/hitl_gateway.py:202-292 | for either store, a run that switches only where the code suspends leaves an id that can never leave: over Redis a decision cancelled before its archiving, in memory a sweep cancelled while it writes its audit record |
| HitlProgress.TaskCanMove | src/agents/hitl_gateway.py:110-278 | an unfinished task of any reachable state can take its next step unless it waits for a lock another task holds |
| HitlProgress.NeverStuck | src/agents/hitl_gateway.py:110-278 | no deadlock: while some call is unfinished, some task can move |
| HitlBounded.CallsAreBounded | src/agents/hitl_gateway.py:110-278 | no call goes on for ever: in every interleaving it takes at most ten steps of its own, and seven more for each request there is room for |
| HitlStore.KeysDistinct | src/agents/hitl_store.py:80-88 | request keys and archive keys never collide, for any prefix and ids |
| HitlStore.RedisRefinesMemory | src/agents/hitl_store.py:23-54 | after any sequence of operations with no TTL elapsed, `get`, `get_active`, `pending_count` and the set of expired pending requests of the two stores agree |
| HitlStore.RedisNeverInvents | src/agents/hitl_store.py:135-185 | whatever has timed out, each live request key is in the pending set, and neither `get_active` nor the listing of expired requests shows what the in-memory store would not |
| HitlStore.RedisGetExactly | src/agents/hitl_store.py:143-150 | exactly when `get` shows nothing else than the in-memory store would: the live key is readable, or the id is not active in memory, or no archived copy is readable, or that copy is the active request |
| HitlStore.RedisGetCanDiffer | src/agents/hitl_store.py:143-150 | a history in which `get` shows an archived copy where the in-memory store shows a newer request |
| HitlStore.ReadableExactly | src/agents/hitl_store.py:135-150 | after any sequence of operations, a request saved and not yet archived is read back exactly until the grace hours after its deadline are over, or for the moment it was saved if that is later |
| HitlStore.TimelyReadsFind | src/agents/hitl_store.py:135-171 | so with grace a decision before the deadline finds the request, and a sweep finds it from the deadline until the grace is over |
| HitlStore.HITLRedisStore.Save | src/agents/hitl_store.py:135-141 | the new contents, and what they mean to a reader: `get` shows the request until the grace hours after its deadline are over, and for that moment in any case; every other id reads as before |
| HitlStore.HITLRedisStore.Archive | src/agents/hitl_store.py:179-185 | the new contents, and what they mean to a reader: not active or pending any more, `get` shows the archived request for the retention days, and every other id reads as before |
| HitlStore.HITLRedisStore.Get | src/agents/hitl_store.py:143-150 | the live request if its key has not timed out, else the archived one, else nothing |
| HitlStore.HITLRedisStore.GetPendingExpired | src/agents/hitl_store.py:161-171 | the scan loop returns exactly the due members that are still live and PENDING, and no request twice where what is read under an id is that id's |
| HitlStore.RunOwnsIds | src/agents/hitl_store.py:135-185 | after any operations what is read under an id is that id's request, so the listing of expired requests has one entry for each |
| HitlLedger.AdmitKeeps | src/agents/hitl_gateway.py:119-133 | admitting a request keeps each agent's gauge equal to its pending requests and expiry audits exact |
| HitlLedger.DecideKeeps | src/agents/hitl_gateway.py:191-205 | so does a decision |
| HitlLedger.LapseKeeps | src/agents/hitl_gateway.py:275-304 | so does an expiry, and it is audited exactly once |
| HitlLedger.LapseAllResult | src/agents/hitl_gateway.py:258-273 | a sweep archives exactly the requests it found as EXPIRED and leaves all others, in whatever order it visits them |
| HitlSolo.SubmitAlone | src/agents/hitl_gateway.py:110-164 | a submission that runs alone over the in-memory store takes the protocol's state to exactly what `Admit` makes of the ledger, or leaves it when there is no room |
| HitlSolo.DecideAlone | src/agents/hitl_gateway.py:166-252 | a decision that runs alone: refused, expired or recorded, each with the ledger it leaves |
| HitlSolo.SweepAlone | src/agents/hitl_gateway.py:258-304 | a sweep that runs alone expires every due request, in whatever order the store lists them |
| HitlSolo.SameEnd | src/agents/hitl_gateway.py:110-304 | a call left alone has one way to go, so these are its only outcomes |
| HitlSequential.CallBooks | src/agents/hitl_gateway.py:110-304 | every whole, undisturbed call of the protocol does to the state what the ledger operation of that call does to the ledger |
| HitlSequential.HistoryIsLedger | src/agents/hitl_gateway.py:110-304 | after any history of whole calls over the in-memory store the state is the books of a sound ledger |
| HitlGateway.HITLGateway.SubmitForApproval | src/agents/hitl_gateway.py:110-164 | admits a PENDING request stamped with its deadline exactly if there is room, keeping gauge and audit exact |
| HitlGateway.HITLGateway.RecordDecision | src/agents/hitl_gateway.py:166-252 | which of the outcomes occurs, in which order the checks are made, and the whole new state for each |
| HitlGateway.HITLGateway.ExpireStaleRequests | src/agents/hitl_gateway.py:258-278 | expires exactly the pending requests whose deadline has passed, each once |
| ConsumerSafety.StartedAtMostOnce | src/workers/request_consumer.py:118-160 | under any crashes, restarts and redelivery a request is started at most once, and started exactly if its status is past queued |
| ConsumerSafety.CommittedIsHandled | src/workers/request_consumer.py:77-89 | the committed offset never passes a message whose handling did not return; its request is completed, failed, or was cut off in processing |
| ConsumerSafety.StatusMovesForward | src/workers/request_consumer.py:118-221 | statuses only move forward; failed is final in every run, and completed is unless a store write can take effect and raise |
| ConsumerSafety.CutIsForever | src/workers/request_consumer.py:118-135 | a request cut off in processing stays there for ever |
| ConsumerSettles.SettlesExactly | src/workers/request_consumer.py:77-221 | in any reachable state, some further run completes or fails a request if and only if it is not in processing with nobody working on it |
| RequestConsumer.RequestConsumer.Handle | src/workers/request_consumer.py:97-221 | without a crash a fresh request ends completed, or failed after max_retries+1 attempts, total backoff (2^max_retries - 1) times the base and one publish to the dead-letter topic |
| RequestConsumer.CrashFreeHandling | src/workers/request_consumer.py:97-221 | the protocol, left alone, does to the store exactly what `Handle` does |
| RequestConsumer.CheckCanPassTwice | src/workers/request_consumer.py:118-135 | a run in which a crash between the check and the processing mark lets one request pass the check twice: one of those that `PassesExactly` describes |
| ConsumerExact.PassesExactly | src/workers/request_consumer.py:118-135 | in every run a request has passed the idempotency check as often as it was started, plus the crashes between check and mark, plus one if it is there now; so at most once if and only if these come to at most one |
| RequestConsumer.AmbiguousWriteCanUndo | src/workers/request_consumer.py:140-180 | for any number of retries, a run from the start in which a request shows completed and later failed, because the write of completed took effect and raised |
| ConsumerExact.CompletedFailsExactly | src/workers/request_consumer.py:140-221 | in every run, a request once shown completed shows failed at the end if and only if the write of completed took effect and raised and every later attempt of that handling failed, through to the write of failed |
| StableSort.SortIsStable | src/guardrails/pii_filter.py:127 | the sort orders its input and keeps equals in the order they came in |
| StableSort.OrderedIsUnique | src/guardrails/pii_filter.py:127 | an ordered list is determined by its classes of equals |
| PiiFilter.MaskText | src/guardrails/pii_filter.py:114-139 | the in-place splice loop with its running offset computes the left-to-right partition: unclaimed text as it is, claimed regions above the level verbatim, every other claimed region as its token |
| PiiFilter.OwnersAreApart | src/guardrails/pii_filter.py:128-134 | claimed regions lie in the text, disjoint and increasing, and each was detected |
| PiiFilter.EveryMatchAccountedFor | src/guardrails/pii_filter.py:125-134 | every detected span starts inside a claimed region that starts earlier, or that starts with it and is longer, or as long and at least as critical |
| PiiFilter.OwnersAreTheOnly | src/guardrails/pii_filter.py:125-134 | and the claimed regions are the only disjoint detected regions of which that is true |
| PiiFilter.NextClaim | src/guardrails/pii_filter.py:129-132 | a span is claimed exactly if every earlier claimed region ends where it starts or before |
| PiiProperties.RenderedLength | src/guardrails/pii_filter.py:135-139 | the result is longer than the text by what the tokens add and the masked regions lose |
| PiiProperties.KeptCharacter | src/guardrails/pii_filter.py:135-139 | every character outside the masked regions is in the result, moved by the growth so far |
| PiiProperties.TokenPlaced | src/guardrails/pii_filter.py:135-138 | every masked region's token stands where the region stood |
| PiiProperties.LongestIsMasked | src/guardrails/pii_filter.py:125-139 | a span to be masked that is the longest at its start, and that no earlier claimed region reaches, is hidden whole: two texts that differ only inside it are masked alike |
| PiiProperties.MaskedValuesLeaveNoTrace | src/guardrails/pii_filter.py:114-139 | two texts with the same matches are masked alike if and only if they agree outside the masked regions |
| PiiProperties.DetectionOrderIrrelevant | src/guardrails/pii_filter.py:98-127 | the result depends on detection order only between spans equal in start, length and level |
| PiiProperties.PermutationMasksAlike | src/guardrails/pii_filter.py:98-127 | without such ties any permutation of the matches gives the same result |
| PiiProperties.WholeTextMatch | src/guardrails/pii_filter.py:125-139 | if some match covers the whole text, the most critical such match decides: the text unchanged or one token |
| PiiProperties.InternalIdUnchanged | src/guardrails/pii_filter.py:125-139 | a text whose whole-text matches are all above the threshold level, as a request id is, comes back unchanged |
| Utf8.RoundTrip | src/agents/sandbox_executor.py:242-245 | decoding an encoding, errors ignored, gives the text back |
| Utf8.DecodeExactly | src/agents/sandbox_executor.py:242-245 | on any bytes at all: an encoded code point at the front is read, and a byte at which no encoding starts is dropped |
| Utf8.DecodeOfCut | src/agents/sandbox_executor.py:243-245 | decoding an encoding cut at any byte gives exactly the code points whose bytes all survived |
| Utf8.FittingIsLongest | src/agents/sandbox_executor.py:242-245 | that prefix is the longest whose encoding fits |
| SandboxExecutor.CappedMeaning | src/agents/sandbox_executor.py:237-253 | fitting output is unchanged; other output is the longest fitting prefix and the marker, never over cap plus marker and at most three bytes short of it |
| SandboxExecutor.LeftAlone | src/agents/sandbox_executor.py:237-253 | exactly which output a truncation leaves unchanged: output that fits, and output in which the marker alone follows the longest fitting prefix |
| SandboxExecutor.SecondPass | src/agents/sandbox_executor.py:237-253 | truncating twice is truncating once if and only if the output fits or its longest fitting prefix fills the cap |
| SandboxExecutor.SecondPassCanChange | src/agents/sandbox_executor.py:237-253 | two letters of two bytes each under a cap of three are changed by a second pass |
| SandboxExecutor.TruncateMeaning | src/agents/sandbox_executor.py:237-260 | each output is capped by its own setting and nothing else changes |
| CircuitBreakers.CircuitBreaker.constructor | src/shared/retry.py:98-110 | starts closed, with 0 or None read as 5 failures and 60 seconds |
| CircuitBreakers.CircuitBreaker.IsOpen | src/shared/retry.py:112-123 | open exactly if at least `threshold` failures followed the last success and `now` is before the last of them plus the reset interval; else half-open if they did; all fields and the gauge stay functions of the history |
| CircuitBreakers.CircuitBreaker.RecordSuccess | src/shared/retry.py:125-129 | closes the breaker and clears its failures; the history grows by a success |
| CircuitBreakers.CircuitBreaker.RecordFailure | src/shared/retry.py:131-142 | one failure more, and open from `now` on exactly if the threshold is reached; the history grows by a failure |
| CircuitBreakers.ProbingNeedsTrip | src/shared/retry.py:133 | a half-open breaker has at least `threshold` failures, so the half-open disjunct never decides |
| CircuitBreakers.ProbesAreUnlimited | src/shared/retry.py:89-92 | after one caller is let through, so is every later one until an outcome is recorded |
| CircuitBreakers.OutageTraffic | src/shared/retry.py:112-142 | in an outage, one caller at a time gets through freely until the breaker trips and then at most once per reset interval |
| CircuitBreakers.AdmittedExactly | src/shared/retry.py:112-142 | exactly which failing invocations are let through one after the other: all until the breaker trips, and then those a reset interval or more after the one before |
| CircuitBreakers.OutageTrafficIsReached | src/shared/retry.py:112-142 | that rate is reached by a caller who comes back exactly each reset interval |
| ResilientCalls.ResilientDBPool.Call | src/shared/db_client.py:98-117 | the retry loop around the breaker computes `Logical`: result, pool invocations and breaker history |
| ResilientCalls.LoneCallerInvocations | src/shared/db_client.py:98-117 | with pauses shorter than the reset interval a lone call invokes the pool exactly min(attempts, transient errors + 1, room left in the breaker) times |
| ResilientCalls.CallsRecover | src/shared/db_client.py:98-117 | a call reaches the pool exactly if too few failures have come together or the last is a reset interval ago, and an answer then leaves no failure on the breaker |
| ResilientCalls.HowCallsEnd | src/shared/db_client.py:98-117 | which of answer, last transient error, other error and refusal a call ends with, whatever the pauses |
| ResilientCalls.FailuresAfterCall | src/shared/db_client.py:105-117 | the failures on the breaker after a call: none after an answer, one more per transient error, none for a permanent one |
| ResilientCalls.ResilientLLMClient.CallWithRetry | src/shared/retry.py:55-83 | the loop ends with the first attempt that is not transient, or with the last |
| ResilientCalls.ResilientLLMClient.Complete | src/shared/retry.py:167-206 | an open breaker refuses without an attempt; otherwise one outcome is recorded however many attempts were made, and none for a refusal |
| ActionLimits.Redis.Pipeline | src/guardrails/action_limits.py:53-65 | the three counters are incremented and given their TTL, and the counts are replied, unless the pipeline was lost |
| ActionLimits.ActionLimiter.CheckRateLimit | src/guardrails/action_limits.py:41-107 | allowed exactly if Redis answered and all three counts are within their limits; denied attempts count too |
| ActionLimits.ActionLimiter.RecordAction | src/guardrails/action_limits.py:150-172 | increments the same counters, errors swallowed |
| ActionRuns.CountersAreExact | src/guardrails/action_limits.py:47-63 | in every run each counter equals the increments made in its bucket, and its key outlives the bucket |
| ActionRuns.DecisionIsExact | src/guardrails/action_limits.py:65-107 | a check is decided by the number of calls in its three buckets, itself and denied ones included |
| ActionRuns.BucketBound | src/guardrails/action_limits.py:65-107 | allowed actions per agent never exceed the limit of any minute, hour or day bucket |
| ActionWindows.SlidingBound | src/guardrails/action_limits.py:35-107 | nor twice the limit in any sliding interval of that length |
| ActionMost.SlidingBoundIsReached | src/guardrails/action_limits.py:47-107 | for any window and interval of its length, twice the limit can be allowed in it if and only if `MostDuring` comes to that |
| ActionWindows.AlignedExactly | src/guardrails/action_limits.py:35-107 | an interval of a window's length is bounded by the limit, in every run and under all limits, if and only if it starts with a bucket |
| ActionMost.MostExactly | src/guardrails/action_limits.py:35-107 | for any limits and any interval of time, n actions can be allowed in it if and only if n is at most `MostDuring`, which splits the interval into days, hours and minutes and caps each by its limit |
| ActionMost.KeepsExactly | src/guardrails/action_limits.py:35-107 | given limits are kept over an interval of a window's length, in every run, if and only if `MostDuring` is within the limit |
| ActionMost.HalfPast | src/guardrails/action_limits.py:24-28 | with the default limits an hour that starts at half past lets 200 actions through |
| SessionStore.KeysAreInjective | src/memory/session_memory.py:26-31 | session ids without a colon never share a key, and an index key is the value key named `__keys__` |
| SessionIndex.StaysListedIsCovers | src/memory/session_memory.py:64-73 | an index stays complete exactly if it lists every live key and expires no earlier than any |
| SessionIndex.SetKeepsIndex | src/memory/session_memory.py:53-73 | exactly when a set keeps the index complete, for any TTLs, any timing of its three commands, and any of them lost or raising |
| SessionRuns.IndexesStayComplete | src/memory/session_memory.py:53-117 | over every sequential run with one TTL, the index of every session lists all its live keys, if every set keeps its own key listed (`KeepsIndex`): this leaves out sets cut off before the index is written and sets in the middle of which the index runs out |
| SessionRuns.SetTouchesOwnSession | src/memory/session_memory.py:64-73 | a set leaves every other session as it was |
| SessionRuns.DeleteTouchesOwnSession | src/memory/session_memory.py:106-117 | so does a delete |
| SessionRuns.DeleteLeavesNothing | src/memory/session_memory.py:106-117 | a delete leaves no live key of its session, then or later, if the index was complete |
| SessionMemories.SessionMemory.Set | src/memory/session_memory.py:53-73 | the state after SETEX, SADD and EXPIRE or as many of them as took effect; the call succeeds exactly if the TTL is positive and all three were answered; a live value reads back, and other keys are as they were |
| SessionMemories.SetExactly | src/memory/session_memory.py:53-73 | the whole effect of a set, told by its TTL and by what becomes of each of the three commands: the value, the listing, and the index's new deadline |
| SessionMemories.SessionMemory.GetAll | src/memory/session_memory.py:91-104 | returns only entries that were live and not null, and with a complete index all that stay so until it ends |
| SessionMemories.SessionMemory.DeleteSession | src/memory/session_memory.py:106-117 | deletes the listed keys and the index, and nothing else |
| SessionMemories.SessionContract | src/memory/session_memory.py:53-117 | after any such run: live keys are listed and a delete leaves none |
| SessionMemories.ShorterTtlHidesKeys | src/memory/session_memory.py:64-73 | a later set with a shorter TTL makes a live value unlisted and undeletable |
| SessionMemories.ExpiringIndexHidesKey | src/memory/session_memory.py:68-73 | so does an index that runs out between SADD and EXPIRE |
| SessionMemories.BrokenSetHidesKey | src/memory/session_memory.py:64-73 | so does a set whose connection fails between SETEX and SADD |
| AuditStorage.BuildQuery | src/guardrails/audit_logger.py:120-153 | the k-th condition's placeholder is k and denotes its own parameter, the limit's is the last, and the conditions together say what the filter asks |
| AuditEquivalence.SameAnswer | src/guardrails/audit_logger.py:57-153 | on a log with increasing times, a positive limit and no empty names the only possible answer is the reverse of the in-memory result |
| AuditEquivalence.AgreementIsExact | src/guardrails/audit_logger.py:57-153 | exactly for which filters and limits the two stores agree on every such log |
| Cosine.CauchySchwarz | src/memory/vector_store.py:141-147 | the inequality that bounds the similarity |
| Cosine.SimilarityBounded | src/memory/vector_store.py:141-147 | every similarity lies in [-1, 1], zero norms and unequal lengths included; what it says about the vectors is in the four rows that follow |
| CosineMeaning.SimilaritySign | src/memory/vector_store.py:141-147 | the sign of a similarity is that of the dot product |
| CosineMeaning.SelfSimilarity | src/memory/vector_store.py:141-147 | a nonzero vector has similarity 1 to itself |
| CosineMeaning.ScaleInvariant | src/memory/vector_store.py:141-147 | scaling a vector by a positive number changes no similarity |
| CosineMeaning.OneExactly | src/memory/vector_store.py:141-147 | a similarity is 1 exactly if the vectors point the same way |
| VectorStore.SearchIsTopK | src/memory/vector_store.py:123-135 | min(k, matches) documents that pass the filter, by falling similarity, none left out more similar than one returned |
| VectorStore.RankedMeaning | src/memory/vector_store.py:129-134 | the ranking is the candidates with their similarities, equal ones in order of insertion |
| VectorStore.SearchPrefersAligned | src/memory/vector_store.py:123-135 | over documents of one norm, none left out has a larger dot product with the query than one returned |
| VectorStore.AlignedIsBest | src/memory/vector_store.py:123-147 | a document that points the query's way scores 1 and no other scores more |
| VectorStore.CandidatesInOrder | src/memory/vector_store.py:123-129 | the candidates are the documents that pass the filter, each once and in order of insertion |
| VectorStore.InMemoryVectorStore.Upsert | src/memory/vector_store.py:118-121 | replaces a document in its place or appends it, ids staying distinct |
| VectorStore.InMemoryVectorStore.Delete | src/memory/vector_store.py:137-138 | removes the document with that id and no other |
| Harness.HarnessCoordinator.RunSprint | src/agents/harness/coordinator.py:180-288 | the retry loop computes `SprintOf`: iterations, escalation, score, log and number of model calls |
| Harness.HarnessCoordinator.ExecuteSprints | src/agents/harness/coordinator.py:149-178 | the loop over contracts computes `RunOf` |
| Harness.SprintAccount | src/agents/harness/coordinator.py:180-288 | with the evaluator on, a sprint ends at the first pass or the last iteration, logs n decisions and one summary, proposes max(0, n - T) patches, calls the model once for each iteration and each patch, and escalates exactly if every iteration failed |
| Harness.SprintDecisions | src/agents/harness/coordinator.py:180-260 | the i-th decision logged is fresh generation for the first iteration, a patch proposal from the threshold on, and feedback in between |
| Harness.SprintTailExactly | src/agents/harness/coordinator.py:260-288 | after the decisions one summary of iterations, verdict and failures, and an escalation if the sprint escalated |
| Harness.RunAccount | src/agents/harness/coordinator.py:149-178 | a run stops at the first escalation, every sprint before it passed, and the iterations add up |
| Harness.RunLogs | src/agents/harness/coordinator.py:149-178 | a run writes the logs of its sprints one after the other, all of them unless one escalated |
| Harness.RunCounts | src/agents/harness/coordinator.py:149-178 | the last score, one summary a sprint, one decision an iteration, and a model call for each and for each patch |
| FeedbackLoops.FeedbackLoop.MaybeAdjust | src/agents/feedback_loop.py:172-221 | the new bias, the adjustment reported, and no change when there is none |
| FeedbackLoops.FeedbackLoop.RunOnce | src/agents/feedback_loop.py:91-106 | a cycle applies the statistics in order and reports every adjustment; a failed query changes nothing |
| FeedbackLoops.BiasesStayBounded | src/agents/feedback_loop.py:172-208 | over any run each bias stays in [0, max] and is the sum of the adjustments reported for it |
| FeedbackLoops.HighRejectionRun | src/agents/feedback_loop.py:180-199 | k high-rejection readings of an action type, among any readings of others, give min(max, b + k times the step), and at the cap no adjustment of it follows |
| FeedbackLoops.HighApprovalRun | src/agents/feedback_loop.py:187-199 | k high-approval readings take the bias down by k steps and no further than 0, where no adjustment follows |
| FeedbackLoops.NeutralRun | src/agents/feedback_loop.py:172-199 | readings that do neither, or of other types, leave a bias as it is and report nothing of it |
| FeedbackLoops.ThresholdsExactly | src/agents/feedback_loop.py:172-187 | which statistics raise and which lower: from the sample size on, rejections beyond their share, and else approvals beyond theirs |
| FeedbackLoops.Collect | src/agents/feedback_loop.py:133-158 | an entry for every action type in either list, with its sums |
| FeedbackLoops.RatesAddUp | src/agents/feedback_loop.py:38-44 | approval and rejection rate of a sampled action type add up to 1 |
| RiskScorer.ScoreIsUnclamped | src/agents/risk_scorer.py:84-93 | the clamp of the total never takes effect: every score is its weighted sum, a bias adding a twentieth of itself and counting as 0 or 1 beyond that range |
| RiskScorer.ScoreTable | src/agents/risk_scorer.py:24-186 | the score of any action without feedback, in thousandths, told by its keywords, place, size and data |
| RiskScorer.RoutedExactly | src/agents/risk_scorer.py:84-186 | exactly which actions reach the default threshold without feedback, told by their keywords, size, target and data |
| RiskScorer.IrreversibleIsGated | src/agents/risk_scorer.py:115-143 | an irreversible keyword alone puts the score at 0.42 or more, above the default threshold |
| RiskScorer.FeedbackMovesLittle | src/agents/risk_scorer.py:115-133 | by default settings no feedback history moves a score by more than 0.025, nor re-routes an action whose unbiased score is below 0.375 |
| RiskScorer.FeedbackMovesThatMuch | src/agents/risk_scorer.py:115-133 | five or more high-rejection readings of an action type, among any readings of others, move every score by the whole 0.025 |

## Left out

- HitlGateway.HITLGateway.ExpireStaleRequests: the class assumes audit and broker calls that succeed and calls that do not overlap; failures, cancellation and overlap are in the protocol.
- RequestConsumer.RequestConsumer.Handle: the class handles one message without a crash; crashes and redelivery are in the consumer protocol.
- HitlOverlap.SurplusIsMeetings: the in-memory store; over Redis the object met is the sweep's own copy, which is PENDING as the stored one is until it is archived, so that no status tells.
- HitlGauge.GaugeIsPendingLessSurplus: not about runs with cancelled calls or lost keys, after which the gauge need not return.
- Several processes sharing one Redis: the gateway's lock is local to a process.
- More than one partition or consumer, and eviction of request-store entries before redelivery.
- Wall clocks that step back, float rounding and the exact jitter of the retry waits.
- Regular expressions, JSON, encryption and date formats: detected spans and stored values are given, and what is written reads back.
- Concurrent writers of one session: the runs of session memory are sequential, each operation's commands taking their own time; a session's delete whose own commands are lost raises and changes nothing.
- Lower-casing and printing of action parameters: the risk model starts from the lower-cased type and the printed text.
- `mask_dict`: it applies `mask_text` to every string and changes no shape.
- `check_scope_limit`, sandbox command construction and the Postgres vector store: one-branch readings or SQL.
- The harness's solo mode, planner review and prompts, and failures of the model or evaluator in the middle of a sprint.
- Routers, authentication, telemetry, migrations, the Java and Go services and the frontend.
