# PolyGate control logic, verified

PolyGate routes chat requests to model providers, retries and fails over under one time budget, streams answers to a
browser, caches exact repeats, queues batch jobs by priority, and lets an administrator publish and roll back the policy
that steers all of this. This project models the logic that decides and keeps state, and proves what it promises over
whole runs. `dafny verify dfyconfig.toml` checks everything.

How the files fit together:

| file | what it models |
|---|---|
| `Wrappers`, `Lists`, `Decimals`, `Whitespace` | options, filtering, first minimum, decimal numerals, trimming in Python, ECMAScript and JSON |
| `Router`, `RouterTheorems` | provider choice: staged filters, soft and hard limits, the final pick |
| `Breaker`, `BreakerTheorems` | the circuit breaker and its registry; traces of its four operations |
| `Retry`, `RetryTheorems`, `RetryOutcomes` | one provider, retried under the request's deadline, and what its breaker hears |
| `Failover`, `FailoverTheorems` | the loop over providers, and the whole request |
| `SseDecoder`, `SseServer`, `StreamChunks`, `SseAgreement`, `StreamAnswer`, `StreamSpeech` | event framing on both sides ('Interpreting an event stream', section 9.2.6 of the WHATWG HTML Living Standard), and the answer the browser builds |
| `JobQueue`, `JobQueueRuns`, `EnqueueRuns`, `EnqueueTheorems`, `Worker` | the job store, any interleaving of its operations, enqueue calls interleaved command by command, and the worker's decisions |
| `PolicyModel`, `PolicyManagement` | policy documents, the repository, and the manager's commit in atomic phases |
| `PolicyProtocol`, `PolicyHistory`, `PolicyReaders` | several managers on one repository; what a version number means; pollers with entity tags (sections 13.1.2 and 15.4.5 of RFC 9110) |
| `CacheKey`, `CacheRuns` | the text a cache key is hashed from, and runs of the gateway around its cache |

Objects that the source updates in place are classes (`ProviderBreaker`, `CircuitBreakerRegistry`, `Network`,
`SseEventDecoder`, `StreamReader`, `RedisAutomationStore`, `JobWorker`, `PolicyRepository`, `PolicyManager`,
`PolicyRuntime`, `GatewayPolicyRuntime`, `Cache`). Each method is proved equal to a function on values, and the theorems
over runs are about those functions. Clocks, costs and delays are exact reals. Provider behaviour, faults of the network
and crashes are inputs that the theorems quantify over.

What the proofs found the code not to do, each with its exact condition:

* A call that is admitted does not always report to its breaker. It goes unreported exactly if some attempt of it, the
  first or one after a pause that overran, starts with the budget spent, or it opens a stream, which reports when it ends
  (`RetryTheorems.ReportsExactlyOnce`). A whole request, with its failovers and the end of its stream, leaves a breaker
  half open exactly if that was so before, or one of its calls was a probe that had an attempt start with the budget
  spent (`FailoverTheorems.RequestLeavesProbeExactly`); the breaker then refuses every request until some other call
  reports to it (`FailoverTheorems.SpentBudgetLeaksProbe`, `BreakerTheorems.ReportFrees`). If the request starts inside
  its budget and no pause overruns, it never comes to that (`FailoverTheorems.RequestLeavesNoProbe`).
* Withholding usage-only chunks does change the answer for a chunk with `"error": null`, or with white space around it
  that is not JSON's: forwarded, it makes the browser throw (`StreamAnswer.WithholdingHidesError`). The exact condition
  is `StreamAnswer.WithholdingKeepsAnswerExactly`.
* The browser and the gateway read the same values exactly if no line is a bare `data` and no byte order mark at the
  start of the stream hides a data line from the gateway (`SseAgreement.BareDataExactly`; the witnesses are
  `SseAgreement.BareDataDiffers` and `SseAgreement.MarkedDataDiffers`).
* Enqueue calls can create two jobs for one key, exactly if a call that commits is overwritten by another that read the
  key before that commit, and some call returns what it wrote or read in the key from then on
  (`EnqueueTheorems.SecondJobExactly`). The two calls that commit need not overlap each other
  (`EnqueueTheorems.OverlappingEnqueuesDuplicate`), nor need the key be written between a call's own write and its commit:
  a lookup may be overtaken (`EnqueueTheorems.OvertakenLookupDuplicates`).
* A conflict found on reloading after an ambiguous write does not mean that the write was lost
  (`PolicyHistory.OvertakenWriteReportsConflict`). Its record is in the reloaded document exactly if it took effect and
  at most nineteen commits have followed (`PolicyHistory.ConflictTellsExactly`).
* Gateways that hold the same version number hold the same policy exactly unless one is on its built-in defaults, which
  call themselves version 1, and the other is not (`PolicyReaders.GatewaysAgreeOnVersions`; a history that comes to that
  is `PolicyReaders.DefaultsShareVersion`); so it is for an answer from the cache (`CacheRuns.HitsKeepPolicy`; a hit
  across the two is `CacheRuns.DefaultAnswerServedLater`).
* Renewing a lease keeps the lease table right exactly if the job is running (`JobQueueRuns.RenewOnlyRunning`).

## Model

| member | source | states |
|---|---|---|
| `Router.SelectProvider` | gateway/app/router.py:40-151 | the loops and reassignments of provider choice compute `Select`, for every input and with or without a policy; the candidates returned are all providers with their estimates |
| `Router.ChooseFrom` | gateway/app/router.py:78-151 | once the guardrails are applied, the budget stage, the latency stage and the pick compute `Choose`, error cases included |
| `Router.StagedFilters` | gateway/app/router.py:58-76 | filtering in stages, each skipped when it does not apply, is one filter by eligibility |
| `RouterTheorems.FinalPoolMembers` | gateway/app/router.py:58-113 | the pool of the final pick is exactly the contenders, described without filters |
| `RouterTheorems.ChosenContends` | gateway/app/router.py:58-113 | every result passes privacy, capability and health under every policy, and meets a limit whenever that limit is hard or anybody could meet it |
| `RouterTheorems.ChosenIsPricedWell` | gateway/app/router.py:110-151 | `cheap` is cheapest of all contenders, `balanced` costs no more than any of them or than its price times 1 + tolerance, `high` preferring real ones is best by rank and then by cost, and cheapest if there is no real one |
| `RouterTheorems.BalancedStaysInTolerance` | gateway/app/router.py:136-151 | so where estimates are not negative, `balanced` is within 1 + tolerance of every contender |
| `RouterTheorems.EstimatedIsNonNegative` | gateway/app/cost.py:4-13 | an estimate is not negative when the prices are not |
| `RouterTheorems.BalancedPrefersReal` | gateway/app/router.py:136-151 | `balanced` settles for a mock only if every real contender costs more than the tolerance allows |
| `RouterTheorems.TopRankedIsBest` | gateway/app/router.py:117-123 | the cheapest of the top rank is the lexicographic optimum |
| `RouterTheorems.BudgetErrorsExactly` | gateway/app/router.py:76-97 | the budget error and the no-provider error are raised exactly when nobody is affordable, or nobody eligible |
| `RouterTheorems.LatencyErrorExactly` | gateway/app/router.py:100-108 | the latency error is raised exactly when the limit is hard and nobody left by the budget rule meets it |
| `RouterTheorems.SelectsExactly` | gateway/app/router.py:58-151 | in the provider's own fields: routing finds one exactly if some provider passes privacy, capabilities and health and meets each limit, or a soft one that nobody meets, and no rank it must look at is invalid; and the one found is such a provider |
| `RouterTheorems.ChosenSuitsBest` | gateway/app/router.py:110-151 | no contender suits the quality and the strategy asked for better than the one chosen |
| `RouterTheorems.BalancedIsCheapestOfKind` | gateway/app/router.py:136-151 | what `balanced` takes is the cheapest of its kind, and of all unless it is real |
| `RouterTheorems.FirstTwinWins` | gateway/app/router.py:110-151 | of two candidates alike in all but their names the one configured first is chosen, whatever the quality |
| `RouterTheorems.EstimatesAreClose` | gateway/app/cost.py:4-7 | an estimate is within half a unit in the eighth decimal of input and output tokens at their prices |
| `RouterTheorems.TokensAreQuarters` | gateway/app/cost.py:10-13 | one token to every four characters of all contents together, rounded down, and never less than one |
| `RouterTheorems.HardRefinesSoft` | gateway/app/router.py:83-113 | whenever hard modes return a provider, softer modes return the same one |
| `RouterTheorems.IndependentOfUnchosen` | gateway/app/router.py:40-151 | deleting any set of other providers leaves the decision unchanged, first-minimum ties included |
| `RouterTheorems.IndependentOfOtherOutages` | gateway/app/router.py:14-16 | marking another provider down leaves the decision unchanged |
| `Breaker.ProviderBreaker.AllowRequest` | gateway/app/circuit_breaker.py:61-83 | the whole new state and the answer, for each state and clock value |
| `Breaker.ProviderBreaker.RecordSuccess` | gateway/app/circuit_breaker.py:85-91 | a success leaves a breaker as if new |
| `Breaker.ProviderBreaker.RecordFailure` | gateway/app/circuit_breaker.py:93-108 | the whole new state: pruning, the threshold, reopening from half open |
| `Breaker.ProviderBreaker.RecordCancelled` | gateway/app/circuit_breaker.py:110-122 | only a half-open breaker reacts, by opening again |
| `BreakerTheorems.OlderFailuresStayOut` | gateway/app/circuit_breaker.py:56-59 | pruning at each failure leaves what pruning the whole history once would: nothing dropped early is missed later |
| `Breaker.CircuitBreakerRegistry.Get` | gateway/app/circuit_breaker.py:143-147 | a breaker is created closed on first mention; no other entry changes |
| `Breaker.CircuitBreakerRegistry.AllowRequest` | gateway/app/circuit_breaker.py:149-150 | only the named breaker moves, as its own operation says |
| `Breaker.CircuitBreakerRegistry.RecordSuccess` | gateway/app/circuit_breaker.py:152-153 | only the named breaker is reset |
| `Breaker.CircuitBreakerRegistry.RecordFailure` | gateway/app/circuit_breaker.py:155-156 | only the named breaker hears the failure |
| `Breaker.CircuitBreakerRegistry.RecordCancelled` | gateway/app/circuit_breaker.py:158-159 | only the named breaker hears the cancellation |
| `Breaker.CircuitBreakerRegistry.ReadHealth` | gateway/app/circuit_breaker.py:161-173 | a provider is down exactly while its breaker is open, cooled down or not |
| `BreakerTheorems.PrunedListRefinesHistory` | gateway/app/circuit_breaker.py:56-108 | after any trace the breaker is closed exactly while no failure since the last success filled its window, and its pruned list is the full history cut to the window |
| `BreakerTheorems.FailureCountsWindow` | gateway/app/circuit_breaker.py:93-108 | a closed breaker opens exactly on the failure that makes the window's count reach the threshold |
| `BreakerTheorems.HalfOpenMeansProbeInFlight` | gateway/app/circuit_breaker.py:61-122 | after any trace, half open holds exactly while a probe is in flight |
| `BreakerTheorems.AdmittedExactly` | gateway/app/circuit_breaker.py:61-83 | after any trace, a request is admitted exactly if the breaker is closed, or open and cooled down |
| `BreakerTheorems.OpenedAfterAdmissions` | gateway/app/circuit_breaker.py:61-122 | an open breaker opened no earlier than any admission so far |
| `BreakerTheorems.ProbesAreSpaced` | gateway/app/circuit_breaker.py:61-122 | every probe comes at least a cooldown after every earlier admission |
| `BreakerTheorems.ProbesAreSingle` | gateway/app/circuit_breaker.py:61-122 | between two probes somebody reported an outcome |
| `BreakerTheorems.RefusesUntilReport` | gateway/app/circuit_breaker.py:61-83 | while a probe is in flight any number of requests is refused and changes nothing, until somebody reports |
| `BreakerTheorems.ReportFrees` | gateway/app/circuit_breaker.py:85-122 | after a report requests pass again: at once if it leaves the breaker closed, as every success does, otherwise exactly a cooldown later; any other report reopens a half-open breaker |
| `BreakerTheorems.LateFailuresExtend` | gateway/app/circuit_breaker.py:93-108 | a failure reported while open starts the cooldown again exactly if it fills the window |
| `BreakerTheorems.HalfOpenExactly` | gateway/app/circuit_breaker.py:61-122 | after any trace the breaker is half open exactly while a probe has been let through and nobody has reported since |
| `BreakerTheorems.ShownDownExactly` | gateway/app/circuit_breaker.py:161-173 | after any trace routing is shown a provider as down exactly while a failure since its last success has filled the window and no probe of it is out |
| `Retry.CallProviderWithResilience` | gateway/app/retry.py:166-222 | the attempt loop: clock, calls made, pauses and their overruns, breaker reports, counter and outcome are those of `Resilient` |
| `Retry.OpenProviderStreamWithResilience` | gateway/app/retry.py:225-288 | the same for opening a stream, where the call is cut off at the deadline and success is not yet reported |
| `Retry.TryCall` | gateway/app/retry.py:193-202 | one attempt at a whole answer: budget, timeout, call, and the report of a success |
| `Retry.TryOpen` | gateway/app/retry.py:244-268 | one attempt at opening a stream: cut off and reported when the budget ends |
| `Retry.HandleFailure` | gateway/app/retry.py:199-218 | the failure branch: give up and report, run out of budget and report, or back off |
| `Retry.RecordTerminalFailure` | gateway/app/retry.py:92-100 | a provider's failure counts against it, any other error is a cancellation; one more report |
| `Retry.FinishStream` | gateway/app/main.py:795-804 | how the end of an opened stream is reported to its breaker |
| `RetryTheorems.AttemptKeepsDeadline` | gateway/app/retry.py:135-163 | one attempt starts before the deadline, is given no more than what is left, and means to pause only within it |
| `RetryTheorems.ResilientKeepsDeadline` | gateway/app/retry.py:122-218 | so does the whole loop, whatever Retry-After asks for (section 10.2.3 of RFC 9110); if calls and pauses honour their times it ends by the deadline |
| `RetryTheorems.ResilientBacksOff` | gateway/app/retry.py:103-132 | calls and pauses alternate; each pause follows at once a failure that is worth retrying, is as long as Retry-After asks and as the back-off with its jitter, or its cap, and is no longer than either requires |
| `RetryTheorems.PausesStayExponential` | gateway/app/retry.py:122-132 | in powers of two: a pause is at least the cap or base * 2^k + jitter, and at most both unless the server asked for it; so unasked, and with jitter within the base, it stays within base * (2^k + 1) |
| `RetryTheorems.PowersDouble` | gateway/app/retry.py:128 | the powers in that bound are the powers of two: one for none, two for one, products for sums |
| `RetryOutcomes.ResilientGivesTime` | gateway/app/retry.py:141-152 | every call goes to the provider asked for and is given the configured timeout, the time left, or the shorter of them, as mode and deadline have it |
| `RetryOutcomes.ResilientEndsRightly` | gateway/app/retry.py:188-218 | a call is answered by the reply after its last retry: failed only if that is not worth retrying (408, 409, 429, 5xx, timeouts and transport errors are) or the retries are used up, out of budget only if time is up or the pause would reach the deadline |
| `RetryTheorems.ResilientAccounts` | gateway/app/retry.py:44-51 | the retry count an outcome carries is the increments of the counter, and calls are at most one more, within the limit |
| `RetryTheorems.ReportsExactlyOnce` | gateway/app/retry.py:166-288 | a call reports once, to its own breaker only, exactly unless it is refused, or some attempt of it starts with the budget spent, or it opens a stream |
| `RetryOutcomes.BreakerHearsCall` | gateway/app/retry.py:80-100 | as a trace: a call is one request to its breaker and then, unless an attempt starts with the budget spent, one success, failure or cancellation; 400, 422 and such, and bad payloads, are the only errors that do not count against the provider |
| `RetryOutcomes.StreamEndIsReported` | gateway/app/main.py:795-804 | as a trace: a stream that ends in error is one more failure in its breaker's history, a cancelled one is none, and one that ends well clears it |
| `RetryTheorems.PromptNeverSpent` | gateway/app/retry.py:155-163 | if no pause overruns, only the first attempt can start with the budget spent |
| `RetryTheorems.ProbeLeftExactly` | gateway/app/retry.py:188-218 | a call leaves its breaker half open exactly if it was so before, or the call was a probe of which an attempt started with the budget spent or which opened a stream |
| `Failover.ServeRequest` | gateway/app/main.py:578-661 | the failover loop ends, and computes `Rounds`: verdict, names tried and the world left behind |
| `Failover.RunRound` | gateway/app/main.py:680-763 | one turn of the loop, for streams as for whole answers |
| `Failover.NextProvider` | gateway/app/main.py:621-643 | the next provider is routed among those not tried yet; a forced model has none |
| `FailoverTheorems.FallbackExactly` | gateway/app/main.py:621-643 | in the providers' own fields: the next one is untried, internal if privacy is high, has all capabilities required, its breaker is not open, and it is within the policy's limits; none is named exactly if the client named one, nobody is left that is all this, or an invalid rank spoils the routing |
| `FailoverTheorems.FallbackIsBest` | gateway/app/main.py:640-643 | and nobody else within the limits suits the quality asked for better |
| `Failover.FewerUntried` | gateway/app/main.py:578-581 | each round uses up a name, which bounds the loop |
| `FailoverTheorems.RequestKeepsDeadline` | gateway/app/main.py:578-661 | across all retries and failovers no call starts late, none is given too long, no pause is meant to outlive the budget; a 502 is only given before the deadline |
| `FailoverTheorems.RequestTriesDistinct` | gateway/app/main.py:621-629 | the names tried are distinct configured providers, and the last one answers |
| `FailoverTheorems.ForcedTriesOne` | gateway/app/main.py:621-630 | a forced model is tried alone |
| `FailoverTheorems.RequestFailsOverWell` | gateway/app/main.py:578-661 | over a whole request: the names tried are those of its calls, every one after the first goes, after a failure with time left, to a provider that `FallbackExactly` allows by the breakers of that moment; a 502 means the last call failed with time left and not by a timeout, and nobody was left to turn to; a timeout answer means the budget was spent, or the last call timed out and nobody was left |
| `FailoverTheorems.RequestAccounts` | gateway/app/main.py:578-605 | the final retry count is the sum of the counter's increments over all providers tried; calls are at most the rounds times the attempts |
| `FailoverTheorems.ServedRequest` | gateway/app/main.py:531-550 | the bounds in the number of providers, and a decision record whose fields tell the truth and pass its own validator |
| `FailoverTheorems.AtMostOnceEach` | gateway/app/main.py:621-629 | distinct configured names are at most as many as the providers |
| `FailoverTheorems.RequestLeavesProbeExactly` | gateway/app/main.py:578-661 | a whole request, streams and their ends included, leaves a breaker half open exactly if it was so before or one of its rounds probed it and had an attempt start with the budget spent |
| `FailoverTheorems.RequestLeavesNoProbe` | gateway/app/retry.py:166-222 | a request that starts inside its budget, and of which no pause overruns, leaks no probe |
| `FailoverTheorems.SpentBudgetLeaksProbe` | gateway/app/retry.py:188-202 | a probe of which some attempt starts with the budget spent stays in flight, and whatever is asked, the breaker refuses until some other call reports to it |
| `FailoverTheorems.WaysToSpend` | gateway/app/retry.py:193-218 | two ways to that, on any configuration: spent on entry, or a pause that fits and overruns |
| `SseDecoder.SseEventDecoder.Push` | web/src/api/gateway-client.ts:140-168 | the new buffer, the collected lines and the events returned are those of `Feed` |
| `SseDecoder.SseEventDecoder.NextLine` | web/src/api/gateway-client.ts:144-165 | one line is taken exactly if its end is settled, a CR at the end of the buffer not being so |
| `SseDecoder.SseEventDecoder.ConsumeLine` | web/src/api/gateway-client.ts:170-184 | blank, comment, bare `data`, `data:` and other lines |
| `SseDecoder.FindLineEnd` | web/src/api/gateway-client.ts:145-151 | the first CR or LF, or the length |
| `SseDecoder.LineIsSettled` | web/src/api/gateway-client.ts:152-163 | a line that can be taken now is the same line whatever text follows |
| `SseDecoder.ChunkingInvariance` | web/src/api/gateway-client.ts:140-168 | pushing two chunks gives the events and the final state of pushing their concatenation, a CR LF cut in two included |
| `SseDecoder.AnyChunking` | web/src/api/gateway-client.ts:140-168 | so does any number of chunks |
| `SseDecoder.DecodeFrames` | web/src/api/gateway-client.ts:140-184 | LF-framed events decode to one value each, and leave the decoder empty |
| `SseDecoder.LineEndingsAreAlike` | web/src/api/gateway-client.ts:144-165 | lines ended by CR LF, or by CR before another character, in any mixture and chunks, decode as the same lines ended by LF |
| `SseDecoder.DataLineExactly` | web/src/api/gateway-client.ts:175-184 | a line carries this value exactly if it is `data:`, an optional space, and the value, or a bare `data` and the value is empty |
| `SseDecoder.RoundTrip` | web/src/api/gateway-client.ts:136-185 | any chunking of events that carry payloads decodes to exactly the payloads |
| `SseServer.IterSseEvents` | gateway/app/adapters.py:229-239 | upstream lines are regrouped into events framed by LF, the unfinished last one included |
| `SseServer.SseDataValues` | gateway/app/main.py:918-935 | the loop over lines computes the values of the events in the block |
| `SseServer.EndedTextLine` | gateway/app/main.py:922 | every boundary of `str.splitlines` ends one line, CR LF being one |
| `SseServer.BlockValues` | gateway/app/main.py:918-935 | reading a block of joined events gives their values one by one |
| `SseServer.GroupsAreUpstream` | gateway/app/adapters.py:229-239 | regrouping keeps upstream lines whole and leaves no blank line or empty event |
| `SseAgreement.BrowserSeesWhatTheGatewaySaw` | gateway/app/main.py:769-781 | for any upstream lines, prefetched prefix and chunking, the browser decodes the values the gateway read in the blocks it forwarded, up to `str.strip` (no line a bare `data`, none beginning with a byte order mark) |
| `SseAgreement.StreamsAgreeExactly` | web/src/api/gateway-client.ts:170-184 | whole streams decode to the gateway's unstripped values exactly if no event has a bare `data` line |
| `SseAgreement.BareDataExactly` | gateway/app/main.py:918-935 | from upstream lines to decoded events, under any chunking, the two sides agree exactly if no line is a bare `data` and the first line is not a data line behind a byte order mark, which the browser's text decoder drops |
| `SseAgreement.BareDataDiffers` | web/src/api/gateway-client.ts:177-180 | the witness: one such line is an empty value to the browser and nothing to the gateway |
| `SseAgreement.MarkedDataDiffers` | web/src/api/gateway-client.ts:340 | the other witness: a marked first line is a value to the browser and nothing to the gateway |
| `StreamChunks.ReadingAfterStrip` | gateway/app/main.py:886 | what the gateway parses after stripping, the browser parses too exactly if only JSON's white space was stripped |
| `StreamChunks.UsageReadExactly` | gateway/app/main.py:899-915 | a usage-only value is silent to the browser exactly if it has no `error` key and only JSON's white space around it; otherwise it throws |
| `StreamAnswer.StreamReader.ConsumeData` | web/src/api/gateway-client.ts:350-376 | the answer, the deltas reported, the end mark and the error thrown after one value, branch by branch on the parsed chunk |
| `StreamAnswer.StreamReader.Read` | web/src/api/gateway-client.ts:380-387 | the same after one chunk from the network |
| `StreamAnswer.ReadingInChunks` | web/src/api/gateway-client.ts:378-390 | reading chunk by chunk is reading the whole text at once |
| `StreamAnswer.StreamedAnswer` | web/src/api/gateway-client.ts:350-390 | however the stream is cut, the answer is that of its payloads, and the concatenation of all arguments of `onDelta` |
| `StreamAnswer.AnswerIsAllTexts` | web/src/api/gateway-client.ts:350-376 | reading throws exactly if a value before the end mark is unreadable or an error; otherwise the deltas are all the texts of those values, in order, and nothing after the mark |
| `StreamAnswer.AnswerReturnedExactly` | web/src/api/gateway-client.ts:406-421 | an answer is returned exactly if the end mark came, every value before it was readable and some text was among them; it is those texts |
| `StreamSpeech.SaidIsAnswered` | web/src/api/gateway-client.ts:350-376 | in the parsed chunks' own fields, under any chunking: `onDelta` is told the contents of all listed choices, in order and without the empty ones, whatever choices have none; the caller gets all of them together if the end mark follows, and otherwise an error that tells whether anything was said |
| `StreamSpeech.OneContentAnswered` | web/src/api/gateway-client.ts:366-375 | so one content among choices without any is the answer |
| `StreamSpeech.PassingIsAnswered` | gateway/app/main.py:769-781 | through the gateway: while its observer gets through every value and none has an error, the browser answers as if it had read all that upstream sent, usage withheld or not, prefetched or not, in any chunks |
| `StreamSpeech.WithheldExactly` | gateway/app/main.py:899-915 | such a block is withheld exactly if usage was not asked for and each of its values gives usage and no choice |
| `StreamSpeech.ErrorEndsForwarding` | gateway/app/main.py:880-896 | a block with a value that is no object, has an error, uncountable usage or a choice that is no object is not sent, nor is anything after it |
| `StreamAnswer.WithholdingKeepsAnswerExactly` | gateway/app/main.py:779-780 | the client that did not ask for usage gets the same answer or error as the one that did, exactly if no withheld block is unreadable to the browser before the reading ends, or the next thing forwarded is as unreadable |
| `StreamAnswer.CleanUsageHidesNothing` | gateway/app/main.py:911-915 | so it is whenever the withheld objects have no `error` key and only JSON's white space around them |
| `StreamAnswer.WithholdingHidesError` | web/src/api/gateway-client.ts:362-364 | a withheld chunk with a null error, forwarded, makes the browser throw |
| `JobQueue.RedisAutomationStore.ReserveKey` | automation/app/redis_store.py:88-104 | undisturbed: an existing job is found, a new key is reserved under the uuid drawn first, a lost job under the one drawn second |
| `JobQueue.RedisAutomationStore.CommitJob` | automation/app/redis_store.py:106-136 | job, payload, pending set and index are written together |
| `JobQueue.RedisAutomationStore.Enqueue` | automation/app/redis_store.py:87-136 | the whole call undisturbed: queue position, all four places, and the id answered |
| `JobQueue.RedisAutomationStore.ClaimNextJob` | automation/app/redis_store.py:190-255 | none exactly if nothing is queued; else a candidate the rule allows, with the new state: pending set, streak, lease and record with its start time |
| `JobQueue.RedisAutomationStore.SweepPending` | automation/app/redis_store.py:202-215 | the loop drops exactly the stale ids |
| `JobQueue.RedisAutomationStore.LongestStarved` | automation/app/redis_store.py:222-229 | the normal or low job that has waited longest of those past the threshold |
| `JobQueue.RedisAutomationStore.TopRanked` | automation/app/redis_store.py:231-233 | highest effective priority, oldest among equals |
| `JobQueue.RedisAutomationStore.RenewLease` | automation/app/redis_store.py:257-259 | until the new expiry the job is not reaped, and every other job is reaped when it would have been |
| `JobQueue.RedisAutomationStore.CompleteJob` | automation/app/redis_store.py:261-270 | the new state with result and completion time, late calls included; unknown ids change nothing |
| `JobQueue.RedisAutomationStore.FailJob` | automation/app/redis_store.py:272-283 | the same for a failure and its error |
| `JobQueue.RedisAutomationStore.RequeueJob` | automation/app/redis_store.py:285-295 | back to queued with its creation time, payload kept |
| `JobQueue.RedisAutomationStore.ReapExpiredLeases` | automation/app/redis_store.py:297-304 | exactly the jobs with expired leases are requeued, in whatever order |
| `JobQueueRuns.NoJobIsStranded` | automation/app/redis_store.py:87-304 | in every run of all store operations, key writes and commits in any order and renewals included, every queued job is pending, the leases are exactly the running jobs, the index is exactly the jobs, and after a claim the pending set is exactly the queued jobs |
| `JobQueueRuns.ClaimsAlternateWithRequeues` | automation/app/redis_store.py:198-304 | between two claims of one job somebody put it back |
| `JobQueueRuns.RenewOnlyRunning` | automation/app/redis_store.py:257-259 | renewing keeps the lease table right exactly if the job is running |
| `JobQueueRuns.EndingsAreKept` | automation/app/redis_store.py:261-283 | a completed job has its result and time, a failed one its error and time, neither a lease or a payload, and no other job is touched |
| `JobQueueRuns.PutBackIsQueued` | automation/app/redis_store.py:285-295 | a job put back is queued and pending with all else it had, payload included, but its lease |
| `JobQueueRuns.ReapingPutsBack` | automation/app/redis_store.py:297-304 | exactly the known jobs whose lease has run out are put back, and no other is touched |
| `JobQueueRuns.RenewingMovesLease` | automation/app/redis_store.py:257-259 | a renewal moves this one lease to the new expiry, and nothing else |
| `JobQueueRuns.StreakForcesRegular` | automation/app/redis_store.py:220-229 | while a normal or low job is overdue, a claim at the threshold goes to one |
| `JobQueueRuns.ProtectedRunsAreBounded` | automation/app/redis_store.py:220-249 | consecutive critical and high claims are bounded by what is left of the streak |
| `JobQueueRuns.EveryFewClaimsServeRegulars` | automation/app/redis_store.py:190-255 | any T + 1 claims made while a job is overdue include a normal or low one, policies changing between claims |
| `JobQueueRuns.BoundedFairness` | automation/app/redis_store.py:190-255 | with k others waiting and none arriving, an overdue job is claimed within (k + 1)(T + 1) claims |
| `JobQueueRuns.BonusIsMonotone` | automation/app/redis_store.py:44-54 | the waiting bonus never falls with waiting, is never negative and never above its cap |
| `JobQueueRuns.BonusCountsIntervals` | automation/app/redis_store.py:44-54 | after k full intervals the bonus is the smaller of the cap and k times the points |
| `JobQueueRuns.NoBonusBefore` | automation/app/redis_store.py:44-54 | by a clock that is behind the job's creation there is no bonus |
| `JobQueueRuns.ClaimedScoresHighest` | automation/app/redis_store.py:231-235 | on the normal path, in the jobs' own fields: nobody waiting has a higher initial score plus bonus than the job claimed, and of equals nobody is older |
| `JobQueueRuns.ClaimedScoresWell` | automation/app/redis_store.py:231-235 | so nobody as old or older has a higher initial score, and nobody at all one higher by more than the cap |
| `JobQueueRuns.StarvedClaimIsOldest` | automation/app/redis_store.py:220-229 | off the normal path the claim goes to the oldest of the normal and low jobs that have waited too long |
| `JobQueueRuns.ClaimRunsOne` | automation/app/redis_store.py:198-255 | a claim is empty exactly if nobody waits; otherwise it runs, times and leases the one job it names and touches no other |
| `JobQueueRuns.ClaimsAreFifo` | automation/app/redis_store.py:220-235 | on either path a claim passes over no older queued job of its class and score |
| `JobQueueRuns.OlderIsClaimedFirst` | automation/app/redis_store.py:190-255 | in every run, whatever policy each claim uses, of two jobs alike the older is claimed before the younger ever is |
| `JobQueueRuns.JobsAreCreatedWhole` | automation/app/redis_store.py:106-136 | a job comes into being in all four places together, with the preview's contents |
| `EnqueueRuns.AloneIsEnqueued` | automation/app/redis_store.py:87-136 | an enqueue's commands, one by one and undisturbed, come to what `Enqueue` leaves and answers, on a new key, a live job and a lost one |
| `EnqueueRuns.CallsMakeStoreRuns` | automation/app/redis_store.py:87-136 | every interleaving of the commands of enqueue calls, crashes between any two included, is a run of the store, so the theorems of `JobQueueRuns` hold of it |
| `EnqueueRuns.IdsAreWellHeld` | automation/app/redis_store.py:91-104 | in every interleaving, ids held by calls are drawn, not yet jobs, and no two calls hold the same one |
| `EnqueueRuns.StaleRead` | automation/app/redis_store.py:93-98 | a call about to overwrite the key has read an id and, later, found no job under it |
| `EnqueueTheorems.NextWriterReadEarlier` | automation/app/redis_store.py:92-134 | whoever writes the key next after a call that commits is another call, and read the key before that commit |
| `EnqueueTheorems.SecondJobExactly` | automation/app/redis_store.py:92-134 | in any interleaving of commands, a key gets a second job exactly if a call that commits is overwritten by a call that read the key before that commit, and some call returns what it wrote, or read, in the key from then on |
| `EnqueueTheorems.OneJobPerKey` | automation/app/redis_store.py:87-136 | so calls that do not overlap, crashed at any point or not, create at most one job per key |
| `EnqueueRuns.FoundWasCreated` | automation/app/redis_store.py:93-98 | a call that finds a job finds one created for its own key |
| `EnqueueTheorems.EnqueueIsIdempotent` | automation/app/redis_store.py:87-136 | whatever calls crashed, calls that do not overlap and return name the same job, and one that returns after another has changed nothing by any of its commands |
| `EnqueueTheorems.OverlappingEnqueuesDuplicate` | automation/app/redis_store.py:92-134 | a witness: a crashed overwrite in between lets two calls that do not overlap each other create two jobs |
| `EnqueueTheorems.OvertakenLookupDuplicates` | automation/app/redis_store.py:93-104 | a second witness: a lookup overtaken by another call's commit, then written and crashed, leads to two jobs |
| `Worker.JobWorker.ExecuteJob` | automation/app/worker.py:116-161 | which store transition follows each outcome, what is kept of it, the retry count, and the history of executions |
| `Worker.RetriesAreCapped` | automation/app/worker.py:147-158 | at any time a job has been put back as often as the worker's own count says, which is as often as it failed retryably, missing payloads included, up to the limit |
| `Worker.RepliesDecide` | automation/app/worker.py:96-158 | an answer leaves the job completed with that result; a 408, 429, 5xx or network error below the limit leaves it queued and pending with its payload; anything else leaves it failed with that error |
| `Worker.MissingPayloadDecides` | automation/app/worker.py:134-158 | a job without its payload is put back below the limit, and then failed for that reason |
| `Worker.CountsMove` | automation/app/worker.py:147-153 | a job's count goes up exactly when it is put back, and no other's does |
| `PolicyModel.ActiveOf` | automation/app/policy_models.py:146-151 | the active record of a valid document exists and is the one with the active number |
| `PolicyModel.BuildNext` | automation/app/policy_manager.py:267-301 | the loop, the new record and the truncation compute `Next` |
| `PolicyModel.Demote` | automation/app/policy_manager.py:280-285 | every record is archived, the others untouched |
| `PolicyModel.TruncationDropsLowest` | automation/app/policy_manager.py:288-296 | from twenty-one records exactly the one with the lowest number is dropped, records in any order |
| `PolicyModel.CommitKeepsValid` | automation/app/policy_models.py:153-168 | a commit on a valid document gives a valid one, numbered one higher, whose active record is the new one |
| `PolicyModel.CommitKeepsRecords` | automation/app/policy_manager.py:280-286 | every other record is an old one, changed in status at most |
| `PolicyModel.KeepsTwentyHighest` | automation/app/policy_manager.py:288-296 | the kept numbers are the twenty highest of the old ones and the new one |
| `PolicyManagement.PolicyRepository.constructor` | automation/app/policy_repository.py:65-69 | the first revision |
| `PolicyProtocol.RevisionNamesDocument` | automation/app/policy_repository.py:71-76 | in every run a loaded revision names one document for ever: equal revisions, equal documents |
| `PolicyManagement.PolicyRepository.Swap` | automation/app/policy_repository.py:78-95 | compare-and-swap that may be lost, or applied and still raise |
| `PolicyManagement.PolicyManager.constructor` | automation/app/policy_manager.py:132-142 | a manager starts on the repository's active record |
| `PolicyManagement.PolicyManager.LoadForCommit` | automation/app/policy_manager.py:257-301 | stale base refused; else snapshot and next document |
| `PolicyManagement.PolicyManager.LoadForRollback` | automation/app/policy_manager.py:231-246 | the target's policy as it was found, or not found |
| `PolicyManagement.PolicyManager.Write` | automation/app/policy_manager.py:303-314 | repository and manager after the write: published, conflict or unsure |
| `PolicyManagement.PolicyManager.Reconcile` | automation/app/policy_manager.py:314-349 | the four outcomes of reloading after an unsure write |
| `PolicyManagement.PolicyManager.Publish` | automation/app/policy_manager.py:206-221 | undisturbed, a publish adds exactly its record or nothing, and says which unless the reload fails |
| `PolicyProtocol.WritesAreSwaps` | automation/app/policy_repository.py:78-95 | every step of the interleaved system touches the repository only through its compare-and-swap |
| `PolicyProtocol.StepKeepsConsistent` | automation/app/policy_manager.py:248-352 | every step of every manager keeps the protocol's invariant |
| `PolicyProtocol.RunsAreConsistent` | automation/app/policy_manager.py:248-352 | so the invariant holds in every run of any number of managers |
| `PolicyProtocol.RunsContinue` | automation/app/policy_manager.py:248-352 | every enabled step continues a run, so what runs assume of their states excludes none |
| `PolicyProtocol.HistoryIsAChain` | automation/app/policy_manager.py:257-301 | the durable history is a chain: each document is the one before with one record more, numbered one higher |
| `PolicyProtocol.PublishedMeansCommittedOnce` | automation/app/policy_manager.py:303-349 | a returned result means that its record is in the history exactly once, and active here |
| `PolicyProtocol.NotCommittedMeansAbsent` | automation/app/policy_manager.py:324-330 | 'was not committed' means that no record of that number is anywhere in the history |
| `PolicyProtocol.CasConflictMeansNotCommitted` | automation/app/policy_manager.py:309-311 | a conflict of the compare-and-swap means that this call has written nothing |
| `PolicyProtocol.ReconcilingSettles` | automation/app/policy_manager.py:312-349 | in every run, a reload that reaches the repository leaves the manager ready; if it answers published or committed concurrently the manager has in force the active record of the last document of the history, if not committed what it had; a failed reload leaves that and makes it not ready. Which answer it is is characterised |
| `PolicyProtocol.WritingSettles` | automation/app/policy_manager.py:303-311 | in every run, a stored write is in force and is the last document's active record; a conflict or a fault leaves what was in force, and which of them it is is characterised |
| `PolicyProtocol.LoadingKeepsActive` | automation/app/policy_manager.py:132-142 | loading changes neither the history nor what is in force; a manager starts ready on the last document's active record |
| `PolicyProtocol.OthersStandStill` | automation/app/policy_manager.py:248-352 | no step of one manager moves another |
| `PolicyProtocol.PreparingTellsEntry` | automation/app/policy_manager.py:257-277 | a commit is refused exactly if its base is not the version in force, and otherwise prepares a document whose active record has the caller's fields and the next number |
| `PolicyProtocol.RollingTellsTarget` | automation/app/policy_manager.py:231-245 | a rollback is refused exactly if its target is not in the document, and otherwise carries the target's number and policy |
| `PolicyProtocol.RollingOn` | automation/app/policy_manager.py:239-277 | and its second load is refused or prepared as for a commit, with what the first one found |
| `PolicyHistory.RecordsTraceBack` | automation/app/policy_manager.py:267-301 | every durable record differs only in status from the one its number was given to |
| `PolicyHistory.OnePolicyPerVersion` | automation/app/policy_manager.py:267-301 | two records of one number, in any documents of the history, differ only in status: no number is used again |
| `PolicyHistory.RollbackRestores` | automation/app/policy_manager.py:223-246 | a rollback puts in force exactly the policy published under its target, although it loads twice |
| `PolicyHistory.RecentStays` | automation/app/policy_manager.py:288-296 | a committed record stays in the document through the next nineteen commits |
| `PolicyHistory.KeptIsRecent` | automation/app/policy_manager.py:288-296 | and through no more |
| `PolicyHistory.OvertakenWriteReportsConflict` | automation/app/policy_manager.py:331-335 | a write that took effect and was built upon is reported as a conflict |
| `PolicyHistory.ConflictTellsExactly` | automation/app/policy_manager.py:331-335 | the reloaded document holds the record exactly if the write took effect and at most nineteen commits followed |
| `PolicyReaders.ETagIsInjective` | automation/app/main.py:131-132 | entity tags of different versions differ |
| `PolicyReaders.PolicyRuntime.RefreshOnce` | automation/app/policy_runtime.py:173-207 | the worker's poll: replaced by a full answer, kept on 304 and on every failure |
| `PolicyReaders.LoadInitialSnapshot` | gateway/app/policy.py:99-124 | the record the mounted file calls active, the built-in defaults without a file, an error for an unreadable file or one without that record |
| `PolicyReaders.BootsAgree` | automation/app/policy_runtime.py:83-95 | on a valid document gateway and worker start on the same policy |
| `PolicyReaders.GatewayPolicyRuntime.RefreshOnce` | gateway/app/policy.py:130-166 | the gateway's poll: snapshot and tag replaced together, or neither |
| `PolicyReaders.ActiveOncePerVersion` | automation/app/policy_manager.py:267-279 | two records that were active under one number are the same record |
| `PolicyReaders.HistoriesKeepReaders` | automation/app/policy_runtime.py:126-143 | every worker always holds a policy that was active, every gateway one or its defaults, and every remembered tag fits the policy held |
| `PolicyReaders.PolledWorkerAgrees` | automation/app/policy_runtime.py:173-207 | after a poll answered 200 or 304 the worker holds the number, time and policy of the record in force at the polled manager |
| `PolicyReaders.PolledGatewayAgrees` | gateway/app/policy.py:130-166 | after one, a gateway holds that record's number and gateway part, even one that started on its defaults |
| `PolicyReaders.FailedPollsKeep` | automation/app/policy_runtime.py:173-207 | any other poll leaves the reader as it was |
| `PolicyReaders.WorkerBootsFrom` | automation/app/policy_runtime.py:126-145 | a worker starts on the active record of a valid mounted file, else on what the API serves, else not at all |
| `PolicyReaders.GatewayBootsFrom` | gateway/app/policy.py:99-124 | a gateway without a mounted file starts on version 1 and the defaults, with one on the first record of the number it calls active, and not at all if there is none or the file cannot be read |
| `PolicyReaders.GatewaysAgreeOnVersions` | gateway/app/policy.py:99-118 | over any history, gateways that hold one version number hold one policy, exactly unless one is on the built-in defaults and the other is not |
| `PolicyReaders.DefaultsShareVersion` | gateway/app/policy.py:110-112 | the witness: a gateway on its defaults and one on a store's version 1 that differs from them share a number and not a policy |
| `PolicyReaders.HistoriesAreSound` | automation/app/policy_manager.py:248-352 | what histories assume of their states excludes none |
| `CacheKey.EscapeIsPrefixFree` | gateway/app/cache.py:51 | an escaped string ends at its closing quote, whatever it holds and whatever follows |
| `CacheKey.DumpsIsPrefixFree` | gateway/app/cache.py:51 | the JSON text of the messages delimits itself |
| `CacheKey.KeyTextIsInjective` | gateway/app/cache.py:50-58 | the text before hashing determines normalised messages, privacy, scope, quality, cost, latency and policy version, bars in messages and scope included |
| `CacheRuns.Cache.GetClient` | gateway/app/cache.py:120-138 | when a connection is attempted, and what is remembered of it |
| `CacheRuns.Cache.Get` | gateway/app/cache.py:150-166 | a value stored under the key, or none if there is none or it does not parse; an error drops the connection |
| `CacheRuns.Cache.Set` | gateway/app/cache.py:168-176 | the store after a write that may raise, applied or not |
| `CacheRuns.KeysAgreeExactly` | gateway/app/main.py:449-462 | two cacheable requests share a key exactly if model, privacy, quality, cost and latency agree, and message by message role and text up to white space, and they started under one policy version |
| `CacheRuns.HitsAreSound` | gateway/app/main.py:449-487 | in every run, every hit returns a non-empty answer given to a cacheable request alike, under the same policy version, by its first-choice provider |
| `CacheRuns.OnlyCacheableUseCache` | gateway/app/models.py:119-148 | in every run, whatever is served or stored was asked for without no-store, session, stream, tools, further options or anything but text in its messages; other requests do not even use the connection |
| `CacheRuns.BegunExactly` | gateway/app/main.py:335-355 | a request is begun exactly if it named nobody, or a provider that there is, has all capabilities required and is not external when privacy is high; that one is tried first |
| `CacheRuns.ServedExactly` | gateway/app/main.py:446-487 | a request is served from the cache exactly if it is cacheable, may be asked, and the look-up reaches a readable answer under its key; what the connection is afterwards |
| `CacheRuns.StoredExactly` | gateway/app/main.py:553-554 | an answer is stored exactly if it is the first choice's to a cacheable request, not empty, and the write reaches Redis and is applied |
| `CacheRuns.StoredIsServed` | gateway/app/main.py:449-555 | what is stored is served: the next request alike under the same version is given that answer |
| `CacheRuns.HitsKeepPolicy` | gateway/app/main.py:436-463 | and under the very policy in force, exactly unless one of the two is the built-in default policy and the other is not |
| `CacheRuns.DefaultAnswerServedLater` | gateway/app/main.py:449-487 | the witness: an answer given on the built-in defaults is served from the cache after a differing version 1 is loaded |
| `CacheRuns.ReconnectsAreSpaced` | gateway/app/cache.py:120-138 | two connection attempts are at least the back-off apart |

## Left out

- Atomicity: enqueue calls are interleaved command by command, policy commits phase by phase (load, write, reload); each other operation of the store is one step.
- JobQueue.RedisAutomationStore.ClaimNextJob: being one step, it never loses the race for a pending id that its last check guards against.
- JobQueue.RedisAutomationStore.ReserveKey: as a method it runs undisturbed; what other calls do between its commands is in `EnqueueRuns`.
- Router.SelectProvider: the reason text it returns is not modelled.
- PolicyProtocol.NotCommittedMeansAbsent: speaks of the history at the reload; a write that reaches the repository only after that reload is not modelled.
- JobQueueRuns.BoundedFairness: the bound is for an overdue job while no other normal or low job arrives; the code gives no individual bound when they keep arriving.
- JobQueueRuns.OlderIsClaimedFirst: assumes that workers finish only jobs they have claimed, as `execute_job` does.
- JobQueueRuns.NoJobIsStranded: claims, requeues, finishes and reaps are single steps; two workers interleaved command by command are not modelled, as one is deployed. Leases are renewed for running jobs only; nothing in the repository calls `renew_lease`, and for other jobs see `JobQueueRuns.RenewOnlyRunning`.
- FailoverTheorems.RequestLeavesProbeExactly: the request theorems take requests one at a time, although the breakers are shared: what other calls report in between is in the traces of `BreakerTheorems` only. An opened stream whose response is never started, and so never ends, is not modelled.
- SseAgreement.BrowserSeesWhatTheGatewaySaw: upstream lines hold no line boundary of `str.splitlines`, and none begins with a byte order mark; for a mark at the start of a stream that is forwarded whole see `SseAgreement.BareDataExactly`.
- StreamAnswer.WithholdingKeepsAnswerExactly: speaks of decoded lines, so of streams whose first forwarded line does not begin with a byte order mark. A JSON text parses alike in both languages; Python's extensions of JSON, such as `NaN`, are not modelled, nor are clients that disconnect.
- Absorbing terminal states of jobs and a newest-wins active policy across managers are not claimed.
- Floating point: costs, delays and clocks are exact reals, and rounding of costs is to eight decimals, half to even.
- Time: local steps take none but for what a pause overruns, and the wall clock and the monotonic clock are one.
- A job's policy version, preview storage, listings and every expiry of keys.
- Limits on the prefetched part of a stream, and the token counts the observer adds up.
- UTF-8 decoding, JSON parsing below the level of whole chunks, SHA-256 (taken as free of collisions), abort signals and the last flush of the text decoder.
- The ConfigMap-backed repository, the policy cache warning, gateway simulation, validation of drafts and priority previews.
- The threads of one policy manager: one operation at a time is assumed.
- Authentication, metrics, logging, the monitoring routes, the web components and the deployment files.
