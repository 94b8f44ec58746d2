# smart-log: a verified model of the controllers

smart-log is a Kubernetes operator that tails pod logs, assembles multi-line events, matches them
against rules and sends alerts. This project models the logic of `internal/controller` in Dafny and
proves what it keeps, over every input and every interleaving. `dafny verify dfyconfig.toml` checks it.

| file | subject |
|---|---|
| `RateLimiter.dfy` | the per-key alert limiter and its sliding-window bound |
| `EventBatch.dfy`, `LogStream.dfy` | the meaning of event assembly on a whole log, and the select loop that computes it line by line |
| `MonitorLifecycle.dfy` | monitor loops and pod streams over a tree of cancellable contexts |
| `FanOut.dfy`, `Dispatch.dfy` | sender goroutines, and whole dispatches racing with reconciles for the status counter |
| `Feedback.dfy` | dispatches and monitors composed: what a counted alert does to its monitor |
| `Readiness.dfy`, `Controller.dfy`, `Cascade.dfy` | validation, one level-triggered controller, and three of them over one API server |
| `Convergence.dfy`, `FairRuns.dfy` | progress of the controllers step by step, and over endless runs |
| `Agreement.dfy` | stored readiness against the truth, in runs with and without failed reads |
| `RecordCleaner.dfy` | expiry of alert records |
| `Sanitizer.dfy` | resource-name sanitizing |
| `Wrappers.dfy`, `Counting.dfy`, `Runs.dfy` | an option type, counting in sequences, runs of a state machine |

Where goroutines interleave, the model is a state machine whose sequences of actions are the
interleavings, and theorems quantify over all sequences. Where the Go code runs straight through with
mutable state, it is a class or a loop proved against a specification.

What is assumed of the surroundings:

- API server: it keeps every version of an object and refuses a status update made from any version but
  the latest; an update that changes nothing makes no new version and no watch event.
- Cache and queue: the cache changes only by delivering watch events in order, delivering one enqueues
  its object, the queue holds a name once and keeps one that arrives while it is being processed; one
  worker per controller. The cache never resyncs: a periodic resync (controller-runtime's default is about
  every ten hours) enqueues every object again, so what is said below to be forgotten or to last for good
  lasts until then. Reads for the status counter may return any version at all.
- Go: cancelling a context cancels what derives from it; `Timer.Reset` discards a pending firing (Go
  1.23 and later, `go.mod` asks for 1.24); a `select` with several ready cases may take any of them.
- The cleaner's list shows the store as it was at one moment, which is when the cycle counts as begun; a
  lagging cache makes that moment earlier.
- `retry.DefaultRetry` makes five attempts. Time is an integer that never goes back.
- Regular expressions are arbitrary predicates, lowercasing any per-character map that fixes `[a-z0-9-]`.

## Where the code differs from what it says

- The README calls the limiter a leaky bucket. It counts a burst and starts over only after a pause
  longer than the period. The sliding-window bound its API comment promises (at most `limit` alerts in a
  `period`) does hold.
- The multi-line flush timer never fires while the stream is quiet: the loop looks at it only between a
  read and the next, and each read arms it afresh. The last event of a quiet log waits for the next line.
- `ReadyAlerts` is documented as the number of ready members. The code stops counting at the first one
  that is not ready.
- An alert that was sent is not always counted: after five conflicts in a row, a failing Get or any other
  error the increment is given up.
- `sanitizeForKubernetes` trims before it truncates, so a long name can come out ending in a hyphen.
- The cleaner deletes by name only, so it can hit a fresh record that took over an expired one's name.
- A watch mapping whose List call fails enqueues nobody, and the change is forgotten until the next one.
- A failed Get (other than absence) is stored as a verdict; it is tried again only because storing it
  makes an event, and so not when it was stored already: a valid Alert can stay not Ready until
  it or its Secret changes.
- An entry of `activePodMonitors` outlives a stream that ends by itself: being in the map means having a
  live context, not a running stream.
- Counting an alert writes to the MonitorPod, the write triggers its reconcile, and every reconcile restarts
  the monitor, whose streams read their logs from the start: one line is alerted again and again, at the
  pace of the ticks and of the rate limit.
- `ExcludeRegex` and `ContainerNames` are never read.

## Model

| member | source | states |
|---|---|---|
| `RateLimiter.SlidingWindowBound` | internal/controller/monitorpod_controller.go:106-125 | for every call history with a monotone clock whose calls on a key ask for at most L per at least P: no window of length at most P holds more than L allowed calls, though only a count and a stamp are stored |
| `RateLimiter.LongRunBound` | internal/controller/monitorpod_controller.go:106-125 | over any stretch of length T at most L * (T div P + 1) calls on a key are allowed |
| `RateLimiter.EntryIsLastAllowed` | internal/controller/monitorpod_controller.go:72-75 | a key has an entry exactly if it was ever served, and the entry's time is that of its last allowed call |
| `RateLimiter.IdleKeyIsServed` | internal/controller/monitorpod_controller.go:110-117 | no starvation: a call more than its period after all allowed calls on the key is allowed, whatever was denied in between |
| `RateLimiter.DenialIsJustified` | internal/controller/monitorpod_controller.go:118-120 | a call is denied exactly if a burst of at least `limit` allowed calls on its key, each made within its own period of the one before, ends within the call's period |
| `RateLimiter.DeniedCallsAreInvisible` | internal/controller/monitorpod_controller.go:118-120 | striking any denied calls out of a history changes no other decision and not the final table |
| `RateLimiter.KeysAreIndependent` | internal/controller/monitorpod_controller.go:109-124 | the shared limiter is a product of one limiter per key: projecting an interleaved history on a key keeps its decisions and its entry |
| `RateLimiter.RateKeyIsInjective` | internal/controller/monitorpod_controller.go:624-624 | two dispatches share a key exactly if namespace, monitor and rule agree, given no slash in the first two |
| `RateLimiter.InMemoryRateLimiter.Allow` | internal/controller/monitorpod_controller.go:106-125 | the call decides as the whole history of calls says, records itself in it and leaves other keys alone |
| `EventBatch.RenderGrows` | internal/controller/monitorpod_controller.go:361-364 | joining a segment without its leading empty lines is what appending to the buffer computes |
| `EventBatch.EventsConserveLines` | internal/controller/monitorpod_controller.go:315-328 | cutting the events at newlines gives back the lines less only empty ones at the head of a segment; every nonempty line is there once, in order |
| `LogStream.AssemblerRefinesBatch` | internal/controller/monitorpod_controller.go:329-367 | under every schedule a stream that has ended has flushed exactly the batch's events of the prefix it read (all lines, if neither cancelled nor failed), cut before every line that matches the pattern (with negate: that does not), where the timer ran out, and nowhere else; in single-line mode before every line, so that the events are the nonempty lines |
| `LogStream.OnlyTimeoutsAddCuts` | internal/controller/monitorpod_controller.go:335-357 | under every schedule a line after the first is a boundary exactly if matching the pattern differs from negate, or a pass found the timer run out when just the lines before it had been read |
| `LogStream.StreamConservesLines` | internal/controller/monitorpod_controller.go:315-367 | whatever the timer does, the flushed events split back into the lines read but for empty ones, and no nonempty line is lost, doubled or moved |
| `LogStream.CancelledStreamStops` | internal/controller/monitorpod_controller.go:329-348 | a stream whose context is cancelled, at any point of its loop, reads at most one more line, flushes at most two more events and has ended two passes later, its buffer empty |
| `LogStream.PassOutcome` | internal/controller/monitorpod_controller.go:329-348 | a pass ends the stream exactly if the context is done, unless an overdue flush is preferred, or if nothing is ready and the scanner fails or is at the end; it reads one line exactly if nothing is ready and there is one; otherwise it flushes what is overdue |
| `LogStream.ExpiryDuringReadIsInvisible` | internal/controller/monitorpod_controller.go:335-365 | two schedules that differ only in timers running out while the scanner blocks flush the same: the timeout cannot reach an event held back by a quiet stream |
| `LogStream.FirstMatchIsLowest` | internal/controller/monitorpod_controller.go:318-325 | an event is dispatched under the lowest-numbered matching rule, and not at all if none matches |
| `LogStream.PodLogStream.ProcessBuffer` | internal/controller/monitorpod_controller.go:315-328 | flushes the buffer as one event and launches at most one dispatch, for the first matching rule |
| `LogStream.PodLogStream.Run` | internal/controller/monitorpod_controller.go:329-367 | the loop with its mutable buffer and timer: its lines are cut exactly there, and on ending the dispatches are those of the batch's events of the lines read |
| `MonitorLifecycle.AtMostOneLiveStream` | internal/controller/monitorpod_controller.go:208-286 | over all interleavings of starts, stops, ticks broken up into single context operations, exits and shutdown, a monitor and pod never have two streams with live contexts |
| `MonitorLifecycle.CancelledLoopSpawnsCancelled` | internal/controller/monitorpod_controller.go:239-281 | a tick taken by an already cancelled loop opens only cancelled contexts |
| `MonitorLifecycle.RestartCancelsOldStreams` | internal/controller/monitorpod_controller.go:208-228 | starting again or stopping a monitor cancels every stream it had |
| `MonitorLifecycle.StepKeepsCancelled` | internal/controller/monitorpod_controller.go:208-288 | no action revives a cancelled context |
| `MonitorLifecycle.TickReconciles` | internal/controller/monitorpod_controller.go:258-285 | a tick is over only when its list has been gone through; then the map's pods are exactly the Running pods listed, pods there before and after keep the identical context, and every context ever opened for another pod is cancelled |
| `MonitorLifecycle.StepCancelsStream` | internal/controller/monitorpod_controller.go:208-286 | the frame of every action: a stream is cancelled after it exactly if it was before, or its monitor is restarted or stopped, or the manager shuts down, or its loop's tick sweeps its pod, which is in the map and not listed |
| `MonitorLifecycle.StepCancelsLoop` | internal/controller/monitorpod_controller.go:208-246 | likewise a loop: only by a restart or stop of its monitor and the shutdown |
| `MonitorLifecycle.StepOpensStream` | internal/controller/monitorpod_controller.go:274-284 | only a tick's spawning opens a stream, for a listed pod without one, and it is live exactly if its loop is |
| `MonitorLifecycle.NothingElseCancels` | internal/controller/monitorpod_controller.go:208-286 | in every run a stream that has been cancelled was restarted, stopped, shut down, or swept because a list left its pod out |
| `MonitorLifecycle.TickSparesListed` | internal/controller/monitorpod_controller.go:258-285 | in every interleaving between a tick's list and the next, a stream for a listed pod is as live as before unless its monitor is restarted or stopped or the manager shuts down |
| `MonitorLifecycle.StartRegistersFresh` | internal/controller/monitorpod_controller.go:208-218 | a start registers a new loop without streams, live exactly if the manager is, and touches no other registration, loop or stream |
| `MonitorLifecycle.MonitorManager.StartOrUpdateMonitor` | internal/controller/monitorpod_controller.go:208-218 | registers a fresh loop, live if the manager is, and cancels exactly the streams of the monitor's key |
| `MonitorLifecycle.MonitorManager.StopMonitor` | internal/controller/monitorpod_controller.go:220-228 | forgets the registered loop and no other, and cancels exactly the streams of the monitor's key |
| `MonitorLifecycle.MonitorManager.ExitLoop` | internal/controller/monitorpod_controller.go:240-246 | a done loop stops every context in its map, and no stream is live or dead that was not before |
| `MonitorLifecycle.MonitorManager.Tick` | internal/controller/monitorpod_controller.go:247-285 | the loops of a tick are one run of the atomic actions; afterwards the map holds exactly the Running pods of the list, duplicates included, the streams cancelled are those before and the loop's own for other pods, every loop is as before, and new streams are live exactly if the loop is |
| `FanOut.ClosedMeansAllDone` | internal/controller/monitorpod_controller.go:715-719 | in a state of the invariant with the channel closed all senders are done and its length is the number that succeeded |
| `FanOut.FanOutIsSafe` | internal/controller/monitorpod_controller.go:695-719 | over every sequence of launches, sends, failures, exits and the close from n unborn senders: no send meets a full or closed channel, and after the close every sender is done and the channel's length is the number that succeeded |
| `FanOut.FanOutEnds` | internal/controller/monitorpod_controller.go:698-716 | no run has more than 3n + 1 effective actions, and a run can go no further exactly if the channel is closed: the waiter always gets through |
| `FanOut.FanActionProgresses` | internal/controller/monitorpod_controller.go:698-716 | every effective action lowers a measure, so the fan-out ends |
| `FanOut.FanNeverStuck` | internal/controller/monitorpod_controller.go:698-716 | until the channel is closed some action is possible: the waiter always gets through |
| `Dispatch.NoLostCounts` | internal/controller/monitorpod_controller.go:756-767 | over all interleavings of dispatches, reconciles and edits with stale reads: the stored count is the initial one plus the increment writes that succeeded, and the trigger time never goes back from version to version |
| `Dispatch.ReconcileKeepsInv` | internal/controller/monitorpod_controller.go:167-175 | a reconciler's whole-status write from a possibly stale read keeps count and trigger time intact |
| `Dispatch.ReconcileWrites` | internal/controller/monitorpod_controller.go:167-175 | the write goes in exactly if the version read is still the latest and something has changed, and then keeps count and trigger time of that version |
| `Dispatch.CountWrites` | internal/controller/monitorpod_controller.go:763-766 | a count goes in exactly if the version read is still the latest when it arrives, whatever others did since, and writes that version with one alert more, the clock as the attempt read it, and nothing else changed |
| `Dispatch.CountsEveryAlertIff` | internal/controller/monitorpod_controller.go:757-772 | when all dispatches are over, the count has grown by the number of alerts that got through exactly if each had an attempt that no other write overtook, before any attempt with a failing Get or another error than a conflict |
| `Dispatch.CountedIffSomeTryWins` | internal/controller/monitorpod_controller.go:757-767 | the same for one alert in any interleaving; a loop makes at most five attempts and gives up without an error only after five were overtaken |
| `Dispatch.SentAlertMayGoUncounted` | internal/controller/monitorpod_controller.go:757-769 | for every spec a run exists in which an alert is sent and never counted: edits outrun the five attempts |
| `Dispatch.EndToEndRate` | internal/controller/monitorpod_controller.go:622-633 | for any number of streams and restarts, the counted alerts of one rule in a run of length T are at most L * (T div P + 1) |
| `Dispatch.UnlimitedIsNeverSuppressed` | internal/controller/monitorpod_controller.go:623-633 | over all runs, without a positive limit no alert is suppressed and the limiter is never asked with an own key |
| `Dispatch.SuppressedIffDenied` | internal/controller/monitorpod_controller.go:623-633 | over all runs, with a positive limit every dispatch makes one call, for namespace/name/rule at the spec's limit and period, and is suppressed exactly if that call is denied |
| `Dispatch.TargetsAreNotified` | internal/controller/monitorpod_controller.go:636-716 | over all runs, a dispatch that finds n targets ends there exactly if n is 0, and otherwise has one sender for each and at most n deliveries |
| `Dispatch.FollowUpIffDelivered` | internal/controller/monitorpod_controller.go:718-767 | in a finished dispatch the update loop was begun exactly once if a channel succeeded and never otherwise; likewise the record, where records are on |
| `Dispatch.ConclusionCountsSuccesses` | internal/controller/monitorpod_controller.go:715-719 | a dispatch concludes nothing before the channel is closed; then all senders are done, and the number it acts on is the number that succeeded |
| `Dispatch.StatusStore.CountAlert` | internal/controller/monitorpod_controller.go:757-767 | the retry loop, with failing Gets, stale reads, other errors and writers that may count too: the alert is counted, once, exactly if some attempt is not overtaken and none before it failed; the rest of the growth is the others', and no attempt follows the one that ends the loop |
| `Dispatch.AttemptWinsIff` | internal/controller/monitorpod_controller.go:758-766 | an attempt wins exactly if it reads the latest version, nobody writes before it does, and neither call fails; it is overtaken exactly if neither call fails and it does not win |
| `Feedback.EveryCountRestarts` | internal/controller/monitorpod_controller.go:1080-1087 | in every interleaving of dispatches, reconciles, streams, ticks and the watch: when the write that counted an alert has been delivered and no request is left, every stream the monitor had at the time of the write is cancelled, and any live one was opened since |
| `Feedback.EveryCountRestartsEventually` | internal/controller/monitorpod_controller.go:203-203 | in every endless run in which versions are delivered some time and requests reconciled some time with their pods listed, from some point after each count every stream the monitor had at its write is cancelled |
| `Feedback.LineAgainMeansReplaced` | internal/controller/monitorpod_controller.go:305-305 | in every run a line dispatched twice is so by two streams, one of which has been cancelled by the second time: as long as no stream of a pod is cancelled, each of its lines is alerted at most once |
| `Feedback.ReadsAreDispatches` | internal/controller/monitorpod_controller.go:316-328 | in every run there is one dispatch for each line read that is not empty and matches, and none besides |
| `Feedback.CancelledReadsOnceMore` | internal/controller/monitorpod_controller.go:331-349 | a cancelled stream reads at most one more line in any run |
| `Feedback.OneLineAlertsWithoutEnd` | internal/controller/monitorpod_controller.go:305-305 | whatever the rate limit, a single matching line (not empty) in one pod's log is alerted and counted n times in some run, for every n, though nobody edits anything and no pod comes or goes: each count restarts the monitor, and the next tick has the log read again from the start |
| `Feedback.RestartsStayInRate` | internal/controller/monitorpod_controller.go:203-203 | with all those restarts, in every run the counted alerts of a rule stay within L * (T div P + 1) |
| `Readiness.JudgeIsValidate` | internal/controller/alert_controller.go:98-141 | checking an ordered dependency list gives the verdict, and the message, of the branching validation, for alerts and providers |
| `Readiness.SecretRefIsValidIff` | internal/controller/alert_controller.go:124-141 | a reference is accepted exactly if the Secret exists in the namespace and holds the key, and the refusal says which of the two is missing |
| `Readiness.AlertIsValidIff` | internal/controller/alert_controller.go:98-122 | a Webhook Alert is valid exactly if its spec is there and its reference resolves, a Feishu Alert if its url does and its signing secret, where set; no other type; with the reason otherwise |
| `Readiness.ProviderIsValidIff` | internal/controller/aiprovider_controller.go:120-156 | a Gemini or OpenAI provider is valid exactly if its spec is there and its reference resolves; no other type; with the reason otherwise |
| `Readiness.SecretIndexIsComplete` | internal/controller/alert_controller.go:153-179 | an object the Secret mappings leave out depends on nothing a change of that Secret touches |
| `Readiness.AlertIndexIsComplete` | internal/controller/alertgroup_controller.go:134-160 | likewise for groups and Alerts |
| `Readiness.FindAlertsForSecret` | internal/controller/alert_controller.go:153-179 | returns, in list order, exactly the alerts whose webhook, url or signing reference names the Secret |
| `Readiness.FindAIProvidersForSecret` | internal/controller/aiprovider_controller.go:158-190 | returns, in list order, exactly the providers whose spec of their own type names the Secret |
| `Readiness.FindAlertGroupsForAlert` | internal/controller/alertgroup_controller.go:134-160 | returns, in list order and once each, exactly the groups that name the Alert |
| `Cascade.RequestsAreAffected` | internal/controller/alert_controller.go:153-179 | over a complete list the three mappings return exactly the affected objects of the cache |
| `Readiness.ValidateAlertGroupMembers` | internal/controller/alertgroup_controller.go:93-122 | the loop stops at the first member that cannot be read, is missing or is not ready, with the number of ready members before it and that reason; without an unreadable member it is the verdict |
| `Readiness.GetAlertsFromTarget` | internal/controller/monitorpod_controller.go:835-868 | the targets are the ready Alert, or the ready members of the group in order; otherwise an error |
| `Readiness.GroupStatusBoundsDelivery` | internal/controller/alertgroup_controller.go:60-80 | on one snapshot ReadyAlerts <= targets delivered to <= TotalAlerts, and the group is valid exactly when all three agree |
| `Readiness.ReadyAlertsCountsReadyIff` | api/v1alpha1/alertgroup_types.go:37-39 | the counter is the documented number of ready members exactly if no ready member follows one that is not |
| `Readiness.ReadyAlertsMayUndercount` | internal/controller/alertgroup_controller.go:104-119 | a group with a ready member and a counter of zero |
| `Controller.StepKeepsInv` | internal/controller/alert_controller.go:49-96 | every step of a reconcile, delivery or write keeps it: an object without pending request carries the verdict its dependencies have now, or a recorded read failure |
| `Controller.FinishOutcome` | internal/controller/alert_controller.go:82-96 | an Alert or AIProvider that carries the verdict is left alone; a conflict is tried again, in place or through the queue, and for a group always through the queue; otherwise the verdict is stored and no other object touched |
| `Controller.Reconciler.Reconcile` | internal/controller/alert_controller.go:49-96 | an uninterrupted pass is a run of the controller's steps and, from an up-to-date cache, leaves the right verdict stored and all other objects alone |
| `Cascade.CascadeStaysConsistent` | internal/controller/alert_controller.go:143-179 | over every interleaving of Secret, Alert, AIProvider and AlertGroup edits, deliveries and reconciles (List calls succeeding, Gets failing or not) an object without a pending request carries the verdict its dependencies have now, or one that records a failed read |
| `Cascade.QuietAlertsAgree` | internal/controller/alert_controller.go:98-141 | with nothing pending an Alert is Ready exactly if its spec is complete, every reference it needs names an existing Secret and key, and its status records no failed read |
| `Cascade.QuietProvidersAgree` | internal/controller/aiprovider_controller.go:120-156 | with nothing pending an AIProvider is Ready exactly if the spec of its type is there, its reference names an existing Secret and key, and its status records no failed read |
| `Cascade.QuietGroupsAgree` | internal/controller/alertgroup_controller.go:47-122 | with nothing pending a group is Ready exactly if every named member exists and is complete, its references name existing Secrets and keys, and neither the members nor the group record a failed read; where the group records none, its status is that of the members' conditions, counters included |
| `Agreement.StaleVerdictsArePending` | internal/controller/alert_controller.go:143-179 | over every interleaving in which no List and no Get fails, in every state reached, every Alert, AlertGroup and AIProvider whose stored verdict is not today's has a request pending, without exemption; one without a request is cached as it is stored |
| `Agreement.QuietRunsAgree` | internal/controller/alertgroup_controller.go:47-122 | after every such interleaving, with nothing pending, Alerts and AIProviders are Ready exactly if complete and their references name existing Secrets and keys, a group exactly if all its members are; TotalAlerts is the number of names, ReadyAlerts that of the valid members before the first that is not |
| `Agreement.FairRunsAgree` | internal/controller/alertgroup_controller.go:47-122 | after any such edits, every fair endless run of the controllers, conflicts at will, comes to a point from which on nothing is pending and all of that holds |
| `Agreement.FailedReadsMayOutlast` | internal/controller/alert_controller.go:129-134 | a run in which two Gets of a Secret fail in a row and that ends with everything quiet, the Secret there, the Alert valid, and the Alert not Ready |
| `Cascade.UnlistedChangeIsLost` | internal/controller/alert_controller.go:155-157 | a mapping whose List call fails loses the change: all quiet, the Secret gone, the Alert still Ready |
| `Cascade.UnlistedChangeHarmlessIff` | internal/controller/alert_controller.go:155-157 | in any state, a Secret's change whose List calls fail keeps the cascade invariant exactly if it alters the verdict of no Alert and no AIProvider that nobody is going to look at again, and belies nothing that a pass under way has found |
| `Cascade.UnlistedDeliveryHarmlessIff` | internal/controller/alertgroup_controller.go:141-143 | the same for an Alert's change and the AlertGroups |
| `Cascade.LostChangeHarmlessIff` | internal/controller/aiprovider_controller.go:160-162 | the condition once for any controller and any change of what it sees, of which the two are instances |
| `Convergence.FailedReadIsRetriedIff` | internal/controller/alert_controller.go:129-134 | a pass that could not read a Secret leaves its object without pending request exactly if the same failure was on record |
| `Convergence.ControllersConverge` | internal/controller/alert_controller.go:49-96 | without edits and failed reads every controller step changes nothing, or lowers a lexicographic measure, or is a conflict on an object of which an event is still to be delivered |
| `FairRuns.EveryRunPauses` | internal/controller/alert_controller.go:49-96 | no endless run has effective steps only: from any point on, some step changes nothing or is a conflict on an object of which an event is still to be delivered |
| `FairRuns.FairRunsSettle` | internal/controller/alertgroup_controller.go:47-91 | every endless run after the last edit, conflicts at will, in which events are delivered some time and no controller rests for ever on work it has, reaches a point from which on nothing is queued, in progress or undelivered and nothing changes |
| `FairRuns.FairRunsExist` | internal/controller/alertgroup_controller.go:47-91 | from every consistent state there is such a run |
| `FairRuns.RunsToQuiet` | internal/controller/alertgroup_controller.go:47-91 | from every state edits can lead to, some finite sequence of controller steps leads to quiet |
| `Convergence.UnchangedObjectIsNotWritten` | internal/controller/alert_controller.go:82-87 | a reconcile of an object that already carries the right verdict writes nothing |
| `RecordCleaner.AlertRecordCleaner.Cleanup` | internal/controller/alertrecord_cleaner.go:54-83 | with others writing before each record is handled, a cycle removes precisely what stands under the names of listed records whose creation + TTL is past by the clock at their turn |
| `RecordCleaner.AlertRecordCleaner.Start` | internal/controller/alertrecord_cleaner.go:36-52 | the removals are those of the cycles up to the end of the context, each after a listed record's creation + TTL |
| `RecordCleaner.RemovesOnlyExpired` | internal/controller/alertrecord_cleaner.go:63-80 | a removal comes later than the listed record's creation + TTL and never without a TTL; and all removed records are past theirs exactly if no name was reused by a living one |
| `RecordCleaner.RemovesEveryExpired` | internal/controller/alertrecord_cleaner.go:63-80 | a listed record past its creation + TTL at its turn is removed, if its delete goes through and finds something |
| `RecordCleaner.ReusedNameLosesFreshRecord` | internal/controller/alertrecord_cleaner.go:77-77 | a fresh record under a reused name is deleted in place of the expired one |
| `RecordCleaner.UndisturbedCycle` | internal/controller/alertrecord_cleaner.go:54-83 | left alone, a cycle leaves only records whose creation + TTL was not past when it started, and all whose creation + TTL is not past when it ends; so exactly the unexpired ones if it takes no time |
| `RecordCleaner.NoRecordOverstays` | internal/controller/alertrecord_cleaner.go:36-80 | with lists, clock readings and deletes interleaved with other writers, cycles at most Interval apart and deletes succeeding: a record is removed by a cycle that begins no later than creation + TTL + Interval (or arrival + Interval, if later), and is never there longer than that and the length of a cycle |
| `RecordCleaner.CyclesSpareTheLiving` | internal/controller/alertrecord_cleaner.go:63-80 | over every interleaving: a record that was there when the cycle began is taken at its turn exactly if it has a TTL and the clock is past creation + TTL; one taken before its time came in during the cycle under the name of an expired listed record |
| `RecordCleaner.CompletedCycleLeavesNothingDue` | internal/controller/alertrecord_cleaner.go:54-83 | when a cycle is over, however long it took and whoever else wrote, no record is left that was due before it began |
| `Sanitizer.SanitizedShape` | internal/controller/monitorpod_controller.go:370-383 | for every string: the first 63 characters of the trimmed text, all of [a-z0-9-], no leading hyphen, empty exactly if lowercasing leaves nothing of [a-z0-9], and a valid label exactly if nonempty and not cut behind a hyphen |
| `Sanitizer.RunsAreReplaced` | internal/controller/monitorpod_controller.go:373-375 | every maximal run of characters that are not permitted, wherever it stands, becomes one hyphen |
| `Sanitizer.TrimmingTakesHyphens` | internal/controller/monitorpod_controller.go:376-377 | trimming takes hyphens off the two ends and nothing else |
| `Sanitizer.SanitizingTwiceSettles` | internal/controller/monitorpod_controller.go:370-383 | applying it twice reaches a fixed point that is empty or a valid label |
| `Sanitizer.TruncationMayLeaveHyphen` | internal/controller/monitorpod_controller.go:379-381 | a name whose sanitized form ends in a hyphen |

## Left out

- Delivery itself (webhook and Feishu requests, signing, cards, templates) and the AI calls: a sender is a nondeterministic success or failure, and an enrichment only takes time.
- The record's content and the API server's verdict on it: a record attempt is a step that may fail unseen.
- Deletion of a MonitorPod while its alerts are being counted: a failing read ends the loop uncounted, and no recreated object is modelled.
- `findMonitorPodsForPod` and the selector matching of MonitorPods: the pod list of a tick is arbitrary.
- Ticks whose selector or List fails: they change nothing.
- The scanner's line splitting and its length limit: lines are given, without newlines, and a scan may fail at any point.
- 64-bit durations: `time.Since` saturates and `int64` nanoseconds overflow after 292 years, the model's integers do not.
- Second granularity of stored timestamps: trigger times are compared as read from the clock.
- The fallback of an unparsable rate limit period to five minutes: a spec's period is the one in effect.
- The number of in-place retries of the Alert and AIProvider reconcilers: after a conflict a pass starts over or is queued again, any number of times.
- The MonitorPod reconciler's own branches (selector errors, list errors): a pass that cannot list the pods is queued again, an invalid selector is not modelled, and what it writes besides count and trigger time is one opaque value.
- Wiring in `cmd/main.go`, the API types, manifests and generated code.
