# Verification of the retryx engine

retryx is a retrying HTTP transport for Go. One logical call is a loop of attempts: each is built from the
caller's request, looked over by hooks, sent, classified as success, not applied, unknown or fatal, and
repeated only if that cannot duplicate an effect. A shared token bucket limits retries, a health gate holds
calls back while the downstream is down, and a stream of events tells observers what happened. This project
models that engine, the budget, the health monitor, the replay of bodies and the built-in hooks, and proves
what they guarantee over whole runs.

## How the model is built

- `Base.dfy`: outcomes, verdicts, requests, records, events and result labels.
- `Protocol.dfy`: one call as a deterministic automaton. A step is an action of the engine together with the
  answer of its environment (what the transport replied, what hooks said and changed, what the gate showed,
  whether a wait was cut short, and, on the server's side, whether a send was applied). `Run` accepts exactly
  the possible traces. The environment answers anything, so a statement about all accepted traces holds
  against every downstream, hook, classifier, gate and clock.
- `Engine.dfy`: the engine as imperative code over objects for the call, the attempt and the transport. Each
  method is proved to do exactly what the protocol prescribes; `RoundTrip` ends with an accepted trace in a
  halted state, so the results below hold of it.
- `Story.dfy`, `Labels.dfy`: the last thing in a run that decided anything, and the result it calls for.
- `Counting.dfy`, `History.dfy`, `Ownership.dfy`, `Attempts.dfy`, `Safety.dfy`, `GiveUps.dfy`, `Gaps.dfy`,
  `Resend.dfy`, `Effects.dfy`, `Keys.dfy`, `Events.dfy`, `Spending.dfy`, `Waiting.dfy`: what every run keeps.
  `Limits.dfy` has concrete runs that show where these guarantees end.
- `Budget.dfy`: the token bucket, and any number of calls interleaving on one.
- `Backoff.dfy`: the backoff loop and Retry-After in 64-bit arithmetic (section 10.2.3 of RFC 9110).
- `Bodies.dfy`, `Peeking.dfy`, `Hooks.dfy`: buffered request bodies, peeking at response bodies, and the
  idempotency key, reconciler and failover hooks, over heap objects.
- `Health.dfy`: the health monitor as a class. `HealthLog.dfy`: what its counters mean, told by the log of
  probes and reports alone. `HealthSystem.dfy`: the monitor as a concurrent system of one prober, any number
  of reporters and any number of waiters, in which each locked region is one move and a probe reads the clock
  in a move of its own.

A panicking hook is a fourth verdict. Durations are integers in nanoseconds; the 64-bit wrap-around is
written out where the code can meet it. Without an observer the steps that emit events are simply not seen.

## Where the code falls short of its intention

The model follows the code. In these places a comment or an evident intention says more than the code does:

- `retryAfter` multiplies seconds by 10^9 in 64 bits (retryx.go:367). The result is right exactly up to
  9223372036 seconds; 18446744074 seconds count as less than a third of a second.
- `ExponentialJitter` (retryx.go:347-352) is min(max, base * 2^(n-1)) for every attempt exactly when no power
  that is still below the maximum reaches 2^62; every maximum up to 2^62 nanoseconds (146 years) is safe.
- The buffer limit 2^63-1 makes `limit+1` wrap (retryx.go:803): a body that is not empty is then sent empty.
- The probe delay is still doubled at its cap (health.go:474), so it is exact exactly when the cap is below
  2^62 nanoseconds.
- `finish` recognises only the current attempt's own response, and only while the attempt is not done
  (retryx.go:284). A hook that hands in any other released response gets it through: one of an earlier attempt
  in any phase, and the current one in a Reconcile phase or in a give-up phase after the gate has shut
  (`Ownership.DrainedComesBackIff` is the exact condition; `Limits` has two such runs).
- The comment on `ExhaustedError` (retryx.go:316-318) says that giving up after an HTTP status returns the
  last response. If there is one, it is returned exactly if the gate was not the reason: the gate is asked after
  the response has been drained (retryx.go:718-723, `Labels.GivingUpHandsBackIff`).
- A token spent at retryx.go:701 is not given back: it is lost exactly if the call is stopped after the grant
  and before the send (`Spending.TokenIsWastedIff`; `Limits.ShutGateCostsTheResponse` is such a run).
- `recordProbe` reads the clock before it takes the lock (health.go:456), so with a negative hold-down, traffic
  that can trip the gate and a success threshold of one, `since` can move backwards; never otherwise.

## How to read the resend theorem

The engine does not look at the gate again after the release jitter and the hooks (health.go:187-193). The
theorem on what lies between two sends therefore speaks of the gate as it was seen: healthy, or recovered, at
least once since the previous send, and not at the send itself.

## Model

| member | source | states |
|---|---|---|
| Engine.Transport.RoundTrip | retryx.go:577-612 | The whole call, hooks panicking or not, leaves a trace that the protocol accepts and that ends halted with the very result returned; it terminates |
| Engine.Transport.Do | retryx.go:615-736 | The retry loop follows the protocol from the preparation of the body to the point where only the last event is missing, within the attempt limit |
| Engine.Transport.Try | retryx.go:632-735 | One round of the loop: the start gate on the first attempt, the Before hooks, and the send with all that follows lead to the next attempt below the limit or to the end of the call |
| Engine.Transport.StartGate | retryx.go:632-642 | An unhealthy gate at the start lets the call go on to its Before hooks only after recovery; otherwise the call is over and the attempt released |
| Engine.Transport.SendOnce | retryx.go:648-670 | One send of the attempt's request, counted; the call is over as canceled, with the send's error, exactly if the send failed and the caller's context had ended |
| Engine.Transport.Dispatch | retryx.go:650-663 | The request goes out once, under a context of the attempt's own exactly if there is an attempt timeout, and the attempt holds its reply |
| Engine.Transport.Lose | retryx.go:665-670 | The attempt that the caller abandoned is reported as fatal, then released, and not recorded in the history; the result is canceled with its error |
| Engine.Transport.Judge | retryx.go:672-681 | First the outcome, then the report of just that outcome to a gate, then the After hooks, then the event with the outcome that they left; the decision is taken on that outcome |
| Engine.Transport.Assess | retryx.go:672-675 | The classifier's outcome is taken over and a gate, if there is one, is told it |
| Engine.Transport.Weigh | retryx.go:676-681 | The After hooks are heard in order and, unless one panicked, the attempt is recorded and reported as they left it |
| Engine.Transport.LogAttempt | retryx.go:677-678 | The attempt is recorded with its reply and the outcome that the hooks left, before its event, and the decision is taken on just that |
| Engine.Transport.Settle | retryx.go:683-691 | A success refunds the budget and then returns the attempt's own response, open, or its send error; a fatal outcome returns it and does nothing else, so refunds nothing; anything else is left to the retry |
| Engine.Transport.SafetyGates | retryx.go:693-703 | The first obstacle among attempt limit, one-shot body and unsafe unknown outcome is the reason to stop, and then the budget is not asked; without one, the budget decides |
| Engine.Transport.ChooseWait | retryx.go:705-717 | The returned delay is the longer of backoff and Retry-After and is announced with its source; nothing is returned exactly when a Retry-After above the maximum was read |
| Engine.Transport.Retry | retryx.go:693-735 | From a retryable outcome either to the next attempt, with the old one released and the number below the limit, or to the end of the call |
| Engine.Transport.Rest | retryx.go:718-735 | The old response is released, then the pause is taken in full, then an unknown outcome is reconciled with hooks that all say Continue; that is all that leads to the next attempt |
| Engine.Transport.Resume | retryx.go:721-735 | After the release: the full pause, then the reconciliation of an unknown outcome, and the call goes on or ends |
| Engine.Transport.ReconcileUnknown | retryx.go:728-734 | Without an unknown outcome or without hooks nothing happens and the call goes on; otherwise the hooks run in order, it goes on exactly if the last of them said Continue, and else their word makes the result |
| Engine.Transport.GiveUp | retryx.go:754-776 | The give-up hooks are heard in order; if they let it pass, the result is what remains of the call (its open response, or the error with the whole account), otherwise the result that their word makes |
| Engine.Transport.Conclude | retryx.go:756-775 | What is handed back once the give-up hooks have spoken |
| Engine.Transport.Surrender | retryx.go:759-775 | The last response is handed over exactly if there is one and it is open; else the error carries attempts, history, reason and cause |
| Engine.Transport.Finish | retryx.go:278-293 | The result has the label and response, or the error, that the verdict calls for; the attempt's own undrained response goes out still open |
| Engine.Transport.RunHooks | retryx.go:295-302 | Hooks are asked in order until one does not say Continue, and that verdict counts; what is recorded is one verdict for each hook that spoke, and the request, outcome, idempotence and key that the last of them left behind |
| Engine.Transport.AskHooks | retryx.go:295-302 | At most all hooks of the phase speak in turn, none after one that did not say Continue; the call and the attempt are as the last one left them |
| Engine.Transport.RunPhase | retryx.go:562-574 | An empty phase is silent; otherwise one hook event follows unless a hook panicked |
| Engine.Transport.AwaitHealth | health.go:171-194 | Without a wait limit a rejection at once; a wait within the limit that ran out, with its event; or recovery, the release jitter and the event of it; or the caller's end, which cut the wait or the jitter short and says nothing about the gate |
| Engine.Transport.SpreadOut | health.go:187-193 | After recovery a delay within the release jitter, unless the caller ends it, and then the event that the call was let go |
| Engine.Transport.Pause | health.go:199-210 | A completed pause slept just the delay, with the gate seen healthy before and after it; or waited for recovery without sleeping at all, since the gate was down on entry; or waited on top of the sleep |
| Engine.Transport.Look | health.go:200-202 | A healthy gate lets the call go on at once; a gate that is down makes it wait for recovery |
| Engine.Transport.SleepOut | health.go:203-209 | The sleep of a pause and the second look at the gate complete the pause as described |
| Engine.Attempt.Discard | retryx.go:203-215 | Releases body and context the first time, and does nothing when the attempt is done |
| Engine.Attempt.Deliver | retryx.go:218-239 | A response goes out open with the context tied to its Close; a failed send releases everything and gives the error |
| Protocol.Normalized | health.go:138-155 | At least one attempt, no negative waits, 30 seconds and one second where nothing is set, none where the setting is negative; every proper setting and all the rest is kept |
| Counting.CountsAlways | retryx.go:626-736 | In every state of every run: how many attempts were built, sent and recorded, whether the current one is live, and that the limit holds |
| History.HistoryIsFaithful | retryx.go:655-703 | At most maxAttempts sends; the history numbers 1..k with the replies they got, all entries but the last retryable, one missing exactly when the caller gave up during a send; a one-shot body goes out at most once |
| History.ErrorIsTruthful | retryx.go:754-776 | A returned give-up error carries that history and the number of sends, its label is the reason's, and the reason has come up in the run: a refused grant, a shut gate, a Retry-After above the maximum, the limit reached, a one-shot body, or an unknown outcome that was not replay-safe and had no reconcile hooks |
| History.BrokenBodySendsNothing | retryx.go:616-619 | A run in which the body could not be prepared has sent nothing and can only end with that very error |
| Labels.LabelTellsTheEnding | retryx.go:616-776 | The whole result of a finished call, label, response and error with all its fields, is the one that the run's own story calls for (the last outcome with its number and safety, a refused grant, a Retry-After too far off, a shut gate, a hook's word, the caller's end, a broken body); none exactly if a hook panicked |
| Labels.GivingUpHandsBackIff | retryx.go:759-775 | A call that gives up returns its last response if and only if there is one and the gate was not the reason; otherwise the error with attempts, history and reason |
| GiveUps.GiveUpHooksAreAsked | retryx.go:754-758 | In every finished run, a call that was given up, for whatever reason, has asked every give-up hook once and none objected; if one stopped the call, those before it had let it pass and none was asked after it; a call that was not given up has asked none |
| Labels.GivingUpIsNamed | observer.go:108-124 | The label of a call that gave up, by name, for each of the six reasons, and that the attempt limit is used up before it is called exhausted |
| Limits.ShutGateCostsTheResponse | retryx.go:718-724 | A concrete run, answered with 503 and then shut out by the gate: it returns the error and not the response, and has spent a token on no send |
| Ownership.EveryAttemptDisposedOnce | retryx.go:203-293 | Without a panic every built attempt is disposed of exactly once and in order; at most the last is with the caller, and then it is the result; a released response comes back only if a hook handed it in |
| Ownership.OwnResponseIsOpen | retryx.go:218-228 | A response that no hook handed in is the last attempt's own, was handed over and never released |
| Ownership.DrainedComesBackIff | retryx.go:278-293 | A released response comes back if and only if a hook hands it in, and it is not the current attempt's own response handed in by an After hook, or by a give-up hook asked for another reason than the gate |
| Limits.LateHookReturnsDrained | retryx.go:284-289 | A concrete run in which a reconcile hook hands back the drained response and the call returns it |
| Limits.KeptResponseReturnsDrained | retryx.go:284-289 | A concrete run in which a Before hook of the second attempt hands back the first attempt's response, released before the wait |
| Resend.WhatLiesBetweenSends | retryx.go:634-734 | Exactly what precedes a send: for a resend a retryable outcome (replay-safe or with reconcile hooks if unknown), a budget grant, the chosen wait, the release, a completed pause ending with the gate healthy or recovered, and cleared reconcile hooks if there are any to ask; for the first send the start gate |
| Attempts.AttemptsStartAfresh | retryx.go:672-788 | The Before hooks of every attempt are given the caller's own request, they have run before every send, what is sent is what they left (the caller's own without any), and a gate is told every outcome found exactly once, before the After hooks run |
| Safety.AttemptsAreToldAsLeft | retryx.go:181-191 | Every attempt is told and judged by its own reply, by the outcome that its After hooks left (the classifier's without any, fatal if the caller was gone), and as replay-safe exactly if the hooks last left the call idempotent or left the request with the empty method, GET, HEAD, OPTIONS, TRACE, PUT or DELETE |
| Safety.MarksStand | retryx.go:562-574 | Whether a call is idempotent, and its key, are at any time what the last hook left behind |
| Safety.NoBlindResend | retryx.go:699-700 | Without reconcile hooks, an attempt of unknown outcome that is not replay-safe is followed by no send and no request for a token |
| Safety.UnsafeMethodIsNotRepeated | retryx.go:181-191 | A request with any other method, that no hook declares idempotent and none can reconcile, is not sent again once its outcome is unknown |
| Safety.UnsafeEndsOnlyUnsafe | retryx.go:693-703 | A call ends as unsafe to retry only on an attempt of unknown outcome with such a method, not declared idempotent and without reconcile hooks; never if all methods were repeatable |
| Effects.AtMostOnce | retryx.go:626-735 | With sound outcomes and a fail-closed truthful reconciler at any place among the Reconcile hooks, or no protection at all, every run applies the operation at most once |
| Effects.ReconciledMeansExactlyOnce | retryx.go:728-734 | With that reconciler at any place among the Reconcile hooks, and no hook handing in a response for an effect that it has not seen, a call that ends as reconciled was applied exactly once |
| Effects.ReconcilerAloneSuffices | hooks.go:83-97 | If the reconciler is the only Reconcile hook, nothing need be known of hooks for that |
| Effects.ReconcilerDecides | hooks.go:83-97 | A reconciler asked alone decides the call: on to the next attempt if the effect was not found, to the end with that very response if it was, and by its setting if the probe could not tell |
| Limits.FailOpenCanRepeat | hooks.go:80-97 | A concrete run with sound outcomes and an inconclusive probe that fails open applies the operation twice |
| Spending.TokenIsWastedIff | retryx.go:701-734 | A finished call has spent one token for every send after the first, and one more if and only if it was stopped between a grant and its send: by Retry-After, the gate, the caller, a body, or a hook |
| Spending.OnlySuccessRefunds | retryx.go:683-690 | A finished call has refunded the budget once if it ended with the success label, which is when its last outcome was a success, and otherwise never |
| Keys.OneKeyForAllAttempts | hooks.go:36-54 | With a key per call all sends of a run carry one key, the caller's own if there was one, and every send is replay-safe |
| Keys.AtMostOnceByKey | hooks.go:19-22 | If the server dedupes by that key, every run applies the operation at most once, whatever its outcomes are taken for |
| Keys.EffectsAreKeys | hooks.go:19-22 | A deduping server holds as many effects as there are keys among its applied sends, and these are keys that were sent |
| Events.EventsFollowTheGrammar | retryx.go:577-752 | The events of every run are a word of one grammar with exactly one call_done, last; without a panic there are as many attempt events as attempts and that many waits or one fewer |
| Events.TallyAlways | observer.go:159-168 | Every word of the grammar has the numbers of attempt, wait and call_done events that its position tells |
| Waiting.WaitingIsBounded | retryx.go:705-726 | All waits of a run together are at most StartWait + J + (maxAttempts-1) * (D + RetryWait + J), and without a gate (maxAttempts-1) * D |
| Budget.Bucket.constructor | retryx.go:407-407 | The bucket starts full, with whatever maximum and ratio it is given |
| Budget.Bucket.TryAllow | retryx.go:416-427 | A token is granted exactly when there is a whole one, and then just one is taken; the bounds are kept |
| Budget.Bucket.OnSuccess | retryx.go:429-436 | The ratio is added, up to the maximum; the bounds are kept |
| Budget.PoolAlways | retryx.go:683-703 | For any calls interleaving on one bucket: each send spends a right to send earned by the start of the call or by its own grant |
| Budget.AmplificationIsBounded | retryx.go:395-436 | Under every interleaving 0 <= tokens <= max and sends <= calls + max + ratio * successes, where the successes are the calls that end with the success label |
| Budget.RefusedOnlyWhenSpent | retryx.go:416-427 | Under every interleaving a retry is granted exactly if a whole token is left, and takes one; it is refused only after more grants than the maximum less one |
| Backoff.ExponentialJitter | retryx.go:344-356 | The loop's delay lies between half and all of the doubled and capped value; it panics exactly when that value is below -1, and gives zero for -1; when doubling is safe the value is min(max, base * 2^(n-1)) |
| Backoff.BackoffIsExactIffSafe | retryx.go:346-352 | The capped value is min(max, base * 2^(n-1)) for every attempt if and only if no power below the maximum reaches 2^62 |
| Backoff.ModerateMaximumIsSafe | retryx.go:346-352 | Every maximum up to 2^62 is safe |
| Backoff.LargestMaximumIsNot | retryx.go:347-349 | Base one with the largest maximum is not safe |
| Backoff.RetryAfterIsRightIffItFits | retryx.go:366-368 | A number of seconds is compared rightly with every maximum if and only if it is at most 9223372036 |
| Backoff.HugeRetryAfterIsShort | retryx.go:366-368 | A concrete number of seconds that comes out as less than a third of a second |
| Backoff.OtherHeadersAreReadRightly | retryx.go:358-377 | A date gives the time until then, none if it is past, and is compared rightly with every maximum; a missing, negative or malformed header gives nothing; seconds in range are read exactly |
| Bodies.ReadAll | retryx.go:803-803 | Whatever sizes the reads have, the prefix of the limited length is read, and an error exactly if the stream breaks before |
| Bodies.BodyReplayer | retryx.go:792-814 | No body needs nothing; a body with GetBody is closed unread and taken from there, whatever the limit; a body without is sent as it is, once, exactly if there is no positive limit, and is otherwise buffered or refused, and closed |
| Bodies.SendBody | retryx.go:792-814 | A body sent any number of times, each send reading as much as it likes of a reader of the one buffer: refused as too large, with nothing sent, if and only if it is longer than a positive limit; otherwise every send sees the original bytes from the first on; without a limit it is sent once |
| Bodies.BufferingIsRightIff | retryx.go:800-810 | Bodies within the limit are buffered whole and longer ones refused, if and only if the limit is not 2^63-1 or the body is empty |
| Bodies.EndsTooLargeIff | retryx.go:616-619 | A finished call whose body was prepared in this way ended with the too-large error if and only if the body is longer than a positive limit, and then sent nothing |
| Bodies.NotReplayableOnlyIfOneShot | retryx.go:697-698 | A call gives up for a body that cannot be sent again only if there is one without GetBody and without a limit to buffer it, and such a call sends at most once |
| Peeking.TakeIsAPrefix | hooks.go:143-153 | A read of a body put together from pieces takes bytes off the front and changes nothing else |
| Peeking.Response.PeekBody | hooks.go:141-155 | Returns the prefix of the limited length, leaves the stream as it was, and fails exactly if it breaks before the limit |
| Peeking.RetryOnBody | hooks.go:160-175 | Only a success with a response is looked at; a broken stream makes it unknown, the judge of status and bytes may override it, the stream stays as it was |
| Peeking.UseBody | hooks.go:139-175 | After any peeks, judgements and partial reads, one finding for each: what was read and what is left are the original bytes, each use found what the original says where the reads before it ended, and Close reaches the original connection |
| Peeking.EachUseIsAccountedFor | hooks.go:139-175 | Such an account has a right finding for every use, and peeks and judgements alone move nothing |
| Hooks.IdempotencyKey | hooks.go:36-54 | With a key per call a stored key is used again; otherwise the caller's own on the first attempt, if there is one, or a new one; the header and the stored key become it, nothing else in the headers changes, and only a key per call marks the call idempotent |
| Hooks.FailoverHosts | hooks.go:128-137 | Attempt n goes to its place in the rotation; without hosts nothing changes |
| Hooks.HttpRequest.Clone | retryx.go:779-779 | A clone has equal contents and shares no object with the request |
| Hooks.SendMany | retryx.go:778-788 | Any number of attempts carry one key and rotate over the hosts, and the caller's request is as it was |
| Health.WithDefaults | health.go:324-347 | Every default with its value, every positive setting kept, and a cap never below the first delay |
| Health.Monitor.constructor | health.go:348-351 | A new monitor is healthy and its ready channel is closed |
| Health.Monitor.RecordProbe | health.go:455-488 | The new counters, which channel is in use and whether it is closed, the kept kick, and the notices, for every probe result |
| Health.Monitor.Report | health.go:419-445 | Traffic changes the state only by tripping a healthy gate, which makes a new open channel and leaves one kick token |
| Health.Monitor.TripLocked | health.go:490-498 | A trip resets the counters of recovery and makes a fresh open channel |
| Health.Monitor.RecoverLocked | health.go:500-506 | A recovery resets all counters and closes the channel in use, which was open |
| Health.Monitor.NextInterval | health.go:543-565 | The next interval is within ten percent of the interval while healthy, of the recheck delay after a failed probe or while confirming recovery, and of the grown delay while down |
| Health.WaitGrows | health.go:472-481 | The delay after k failed probes is min(MaxRecheck, Recheck * 2^(k-1)) and within its bounds |
| Health.ProbeDelayIsExactIff | health.go:472-481 | The delay has that value for every k if and only if the cap is below 2^62 |
| HealthLog.TrailingIsAWindow | health.go:455-470 | A counter of consecutive hits reaches k exactly when the last k entries are all hits |
| HealthLog.CountersMeanTheLog | health.go:419-506 | After any log the state is down exactly when the log says so: tripped by the last FailureThreshold probes or the last PassiveThreshold reports, recovered only by a probe, with the last SuccessThreshold probes of the outage good and the hold-down over |
| HealthLog.ProbeDelayOfAnOutage | health.go:547-565 | In an outage with k failed probes, good ones in between or not, the delay is min(MaxRecheck, Recheck * 2^(k-1)) and the pace is within [Recheck, MaxRecheck] |
| HealthLog.ProbePaceOfHealth | health.go:547-565 | While the downstream is healthy the pace is the interval, or the recheck delay exactly if the last probe in the log has failed |
| HealthSystem.NoLostWakeup | health.go:401-415 | In every reachable state the channel in use is closed exactly when healthy, older ones are all closed, none twice, and a blocked waiter is stuck only while down and on the channel in use |
| HealthSystem.BlockedWaiterReturns | health.go:401-415 | In every reachable healthy state a blocked waiter is two moves from returning |
| HealthSystem.ReturnsOnlyWhenHealthy | health.go:403-408 | A waiter that returned did so by a look under the lock that saw the downstream healthy |
| HealthSystem.RecoveryHoldsDown | health.go:460-506 | An outage, however long and whatever happens meanwhile, ends only with the recording of a good probe stamped at least the hold-down after the trip, and this closes the very channel that the trip made |
| HealthSystem.SinceNeverMovesBackIff | health.go:455-464 | No move of any run takes the time of the last change back, if and only if the hold-down is not negative, traffic cannot trip the gate, or one good probe is not enough |
| HealthSystem.ProbeLoadIsBounded | health.go:508-565 | The k failed probes of an outage take at least nine tenths of all the delays between them but one, whatever the kick does |
| HealthSystem.EveryRunIsItsLog | health.go:419-488 | Under every interleaving the state is the one that the log of locked regions means |
| HealthSystem.TallyCountsTheOutage | health.go:472-481 | The number of failed probes used in the load bound is the number in the log of the outage |
| HealthSystem.TrafficTripIsProbed | health.go:428-437 | After a trip by traffic the kick stays, whatever happens meanwhile, until the prober takes it, and a waiting prober can take it and check at once |
| HealthSystem.NextProbeIsNear | health.go:508-565 | In every reachable state the probe that is waited for is due within 1.1 times the interval or the largest recheck delay |

## Left out

- The HTTP round trip, the classifier, `HTTPCheck`, `DefaultIsFailure`, TLS and DNS: answers of the environment.
- `ErrorClass`, `statusClass`, labels and elapsed times in events, `DefaultLabeler`: single-branch tables and plain records.
- `WithObserver`, `Multi`, `Recorder` and the obs adapters: they pass events on; only the stream itself is modelled.
- `HealthByHost`, `NewResponse`, `AttemptHeader`, `RandomKey`, `http.ParseTime`: one branch each or library behaviour; a Retry-After date counts as a given number of nanoseconds.
- `Start` and `Stop` beyond a prober that may stop while waiting or checking; the refusal of a second start.
- `Value`/`Set` on a call beyond the idempotency key.
- Panics of the classifier, the backoff, the gate or the labeler inside a call; only hooks panic. `ExponentialJitter` on its own says when it panics.
- Release of responses and contexts when a hook panics; the code promises only the last event there.
- Hooks that write an attempt's number, its history or the original request, or an outcome outside the four constants.
- `WaitHealthy` and the probe loop as objects running side by side: they are moves of the step system over values, which captures their order but not channels as heap objects; the monitor's own channels are objects in `Health.dfy`.
- Polling by `WaitUntilHealthy`, and gates other than `Health`: for a call the gate is any sequence of observations.
- Float rounding of tokens and jitter: tokens are reals, jitter is any integer in its range.
- Wall-clock accuracy and scheduling fairness: the clock does not go backwards and moves interleave in any order.
- The order in which notices of several health changes reach an observer after the lock is released.
- Effects of a send that settle after the reconcile probe has looked: a truthful probe is asked after they have settled.
- Waiting.WaitingIsBounded: counts the time asked for, not a late timer.
