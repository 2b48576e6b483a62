# Verified models of the OBS bot

This project models the parts of the bot whose correctness depends on state that outlives one
call: a crash-recovery journal, a scheduler that drives an unreliable OBS, an evidence trace that
one program writes and another judges, a concurrent log handler, the liveness protocol, and a few
algorithms with real arithmetic or visible intermediate states. `dafny verify dfyconfig.toml`
checks everything.

## What is modelled

**Telegram update journal** (`Ordering`, `Journal`, `JournalLaws`, `JournalSafety`, `Maintenance`, `Retention`). `UpdateJournal`
holds the checkpoint and the attempts table as fields and updates them the way the SQL statements
do. Every method equals a function of the old tables, the arguments, the clock and a storage fault:
a transaction may be rolled back, or commit and still report an error. `finished_at` is compared as
text, so the clock maps an instant to an ordered key (`text`) and, separately, to the number SQLite's
`julianday` yields (`julian`); no relation between the two is assumed. `ORDER BY … LIMIT` is
`Ordering.Leading`, whose ties are broken as the statements break them, by update id. The results
are for-all statements over every sequence of calls by any number of owners. `JournalLaws` and `Retention`
say what each call means on the rows before and after it, without referring to those functions.

**Poll loop** (`PollLoop`, `Verdicts`, `Poller`). A server that keeps unacknowledged updates, the durable
journal, and one volatile generation form a state machine whose events are the atomic actions of
the loop, plus arrivals, expiry of old updates at the server, crashes, restarts, other maintenance
calls and storage faults. `Poller.Generation` holds the loop body as methods over a journal object; a
lemma shows that one pass is exactly a stretch of that state machine. `Verdicts` says which end of a handler
leads to which end of its update.

**Evidence** (`Evidence`, `Verifier`, `Monitor`, `Capture`). A trace is a sequence of lines that
either decode to a record with certain keys or do not. The verifier's structural pass is proved
equal to a declarative definition of a valid trace, and its five nested searches to a declarative
pattern. The writer, the event loop and the orderly or failed end of a capture are classes and
methods; what they leave on disk is compared with what the verifier accepts, in both directions, and with
everything OBS reported during the capture.

**Library playback** (`Periods`, `LibraryState`, `Selection`, `Obs`, `Playback`). Time is civil:
seconds counted from some midnight. A database call may fail with or without having been applied.
An OBS request may fail with or without having been applied. Random choice is any index in range.
Files do not change during one call. An error is the set of sentinel errors that `errors.Is` finds in it.
What OBS was asked to play, and which assets were refused as unfit, is kept in two ghost logs, so the bounds
on a rotation speak of requests really sent.

**Asynchronous log handler** (`Asynclog`, `AsynclogCore`). Producers, lifecycle calls and the writer are
steps of one state machine; every lock-protected or atomic action is a step of its own, so the moments at
which counters disagree are visible. `AsynclogCore.Core` is the handler as an object with its loops and
methods; each method, left undisturbed, is proved to take exactly steps of that machine, and the
compare-and-swap loop is proved with calls of other goroutines in between.

**Liveness** (`Liveness`, `Workers`, `Frames`). The packed word and the scope array are fields updated
in place and proved against a stack of tokens; that stack is in turn proved against a definition that
looks only at the history of operations. Frames are encoded, decoded and bounded.

**Small algorithms** (`Retry`, `Storage`, `Stall`). Backoff in 64-bit arithmetic, the no-replace atomic
import with every intermediate directory state kept, and the stall detector against its history.

## Findings

- A capture stopped by a signal is not always accepted by the verifier. It is accepted exactly when the
  build was clean and every snapshot was answered with code 100, to a request sent after the capture clock
  had moved, and stamped no earlier than that request (`Monitor.CaptureAgreesWithVerifier`). A request sent
  at elapsed time zero loses its `request_sent_elapsed_ns` key on encoding, and a success code other than
  100 is recorded but refused (internal/obsevidence/monitor.go:750-792, internal/obsevidence/verify.go:286-317).
- The stall detector compares neighbouring observations only (internal/app/app.go:811-866).
  `Stall.CreepingCounts` and `Stall.BlinkingIsNeverStalled` state the two consequences exactly: a cursor that
  creeps by less than a millisecond per observation counts as standing still, and one that keeps vanishing
  and coming back at the same place is never called stalled.
- One of the two watched files may itself be called "other" (internal/obsevidence/trace.go:302-325). Its name in a
  record then also stands for every unwatched file; `Capture.NamesTell` gives the exact condition, and
  `Capture.VerdictWasHeard` shows that for any other pair of names a reported correlation is what OBS said.
- After an abort of the log handler one more record may still reach the sink, never two
  (internal/asynclog/asynclog.go:254-310). One more can be emitted if and only if the writer, at the abort, is past
  its last look at the phase with a record at hand or next in the queue it drains
  (`Asynclog.AtMostOneAfterAbort`); `Asynclog.LateEmissionOccurs` is a run in which it happens.

## Model

| member | source | states |
|---|---|---|
| Ordering.LeadingSelects | internal/journalstore/journal.go:216-297 | an ordered selection with a limit returns the smaller of limit and candidates many rows, and no row left out comes before one selected |
| Journal.UpdateJournal.BeginUpdateAttempt | internal/journalstore/journal.go:299-505 | the answer and the whole new journal for every argument, row status, lease and storage fault, as the laws below describe them row by row |
| Journal.UpdateJournal.CompleteUpdateAttempt | internal/journalstore/journal.go:507-543 | only the owner of a running row completes it; status, finish time and next offset move together or not at all |
| Journal.UpdateJournal.AbortUpdateAttempt | internal/journalstore/journal.go:545-562 | only the owner gives a running row back to pending, and nothing else changes |
| Journal.UpdateJournal.FailUpdateAttempt | internal/journalstore/journal.go:564-672 | a failure leaves the row failed, stuck under a new lease, or dead once the threshold is reached, with the next offset moved only then |
| Journal.UpdateJournal.ConfirmUpdateOffset | internal/journalstore/journal.go:105-167 | the confirmed offset never passes the next offset or moves back, and raising it runs maintenance in the same transaction |
| Journal.UpdateJournal.PruneTelegramUpdateJournal | internal/journalstore/journal.go:169-214 | one maintenance pass and the numbers of done and dead rows it deleted |
| Journal.UpdateJournal.ReconcileAbandonedAttempts | internal/journalstore/journal.go:216-262 | the first 256 abandonable rows below the confirmed offset become dead; no row goes and no terminal row changes |
| Journal.UpdateJournal.PruneTerminalAttempts | internal/journalstore/journal.go:264-297 | at most 256 outdated or surplus rows of one kind below the confirmed offset are deleted and counted; which ones is told row by row in Retention.DeletionLaw |
| JournalLaws.FaultsAreAllOrNothing | internal/journalstore/journal.go:105-672 | a storage fault hides the answer and undoes the whole call or nothing of it; a refused call changes nothing |
| JournalLaws.ClaimsAnswer | internal/journalstore/journal.go:299-505 | a claim is to be executed exactly if the row is absent, pending, failed, stuck with its lease over, or running with its lease over and fewer than threshold minus one failures; busy exactly while a lease runs; closed exactly for done rows, dead rows and exhausted ones |
| JournalLaws.ClaimsLeave | internal/journalstore/journal.go:299-505 | a claim to execute adds one attempt, and one failure if an owner vanished; an exhausted row is dead with its failures counted; no other row changes |
| JournalLaws.CompletionLaw | internal/journalstore/journal.go:507-543 | exactly the holder of a running row makes it done, with its counts kept and the next offset past it |
| JournalLaws.AbortLaw | internal/journalstore/journal.go:545-562 | exactly the holder gives a running row back, at no cost |
| JournalLaws.FailureLaw | internal/journalstore/journal.go:564-672 | exactly the holder adds one failure; the row is dead exactly if that reaches the threshold, else stuck under the new lease or failed |
| JournalSafety.RunKeepsShape | internal/journalstore/journal.go:299-798 | over every run owner and lease are set exactly for running and stuck rows, a finish time exactly for terminal ones, and 0 <= confirmed <= next |
| JournalSafety.StepKeepsShape | internal/journalstore/journal.go:105-798 | one call keeps that shape, never lowers an offset or a count, never changes a terminal row, and removes only rows below the confirmed offset |
| JournalSafety.MaintainSweeps | internal/journalstore/journal.go:216-297 | a pass touches only rows below the confirmed offset: abandonable ones become dead, and only terminal or just abandoned ones are deleted |
| JournalSafety.OffsetsNeverMoveBack | internal/journalstore/journal.go:784-798 | between any two moments of a run both offsets are monotone |
| JournalSafety.TerminalRowsNeverChange | internal/journalstore/journal.go:299-505 | a done or dead row stays as it is until it is deleted |
| JournalSafety.OnlyTheOwnerSettles | internal/journalstore/journal.go:507-672 | complete, abort or fail by anyone but the current owner changes nothing |
| JournalSafety.ClaimsAreExclusive | internal/journalstore/journal.go:405-505 | two execute answers for one unpruned row are separated by a committed abort or failure, or by a committed claim that changed the row after the first lease ran out |
| JournalSafety.AttemptsAreAccounted | internal/journalstore/journal.go:405-672 | attempts equal failures plus aborts plus one if running, done or abandoned while running; a dead row that maintenance did not close has failed exactly as often as the threshold says, every other row less often |
| JournalSafety.PoisonBound | internal/journalstore/journal.go:564-672 | executions that neither complete nor abort number at most the threshold |
| Maintenance.PassShrinksBacklog | internal/journalstore/journal.go:169-297 | every pass that changes anything shrinks a measure |
| Maintenance.PassIsBounded | internal/journalstore/journal.go:216-297 | no statement handles more than 256 rows |
| Maintenance.FixpointIsQuiescent | internal/journalstore/journal.go:169-297 | a pass changes nothing if and only if nothing is abandonable or prunable |
| Maintenance.QuiescentMeetsRetention | internal/journalstore/journal.go:169-297 | at the fixpoint no row below confirmed is abandonable and both retention limits, by count and by age, are met |
| Maintenance.MaintenanceTerminates | internal/journalstore/journal.go:169-214 | repeated passes reach the fixpoint within the measure |
| Maintenance.MaintenanceIsConfluent | internal/journalstore/journal.go:169-297 | that fixpoint is what one unbatched application of the retention rules leaves |
| Retention.ClosingLaw | internal/journalstore/journal.go:216-262 | one statement closes rows below the confirmed offset that are pending, failed, or held under a lease that is over, and no others; all of them, or the 256 with the smallest ids |
| Retention.DeletionLaw | internal/journalstore/journal.go:264-297 | one statement deletes rows of one kind below the confirmed offset that finished before the cutoff or are followed by a full quota of later ones, and no others; all of them, or the 256 that finished first |
| Retention.MaintenanceKeepsExactly | internal/journalstore/journal.go:169-297 | where repeated maintenance ends, a finished row below the confirmed offset survives exactly if it is no older than 30 (90) days and fewer than 10,000 (1,000) rows of its kind finished later |
| Retention.PassKeepsAtLeast | internal/journalstore/journal.go:169-297 | no single pass deletes a row that would survive to the end, or changes one that need not be closed |
| Retention.CountsAreDeletions | internal/journalstore/journal.go:169-214 | the numbers reported are the done rows and the other rows that are gone |
| Retention.ConfirmationLaw | internal/journalstore/journal.go:105-167 | confirming is accepted exactly between zero and the next offset, and maintains the journal exactly when it moves on |
| PollLoop.ValidateActionableUpdates | internal/telegram/service.go:427-446 | the reply is refused exactly if some id is not representable; otherwise what is kept are the updates at or above the offset, each at its place in the order |
| PollLoop.RunKeepsInv | internal/telegram/service.go:283-424 | every event of every run, crashes included, keeps the protocol invariant |
| PollLoop.NoUpdateIsLost | internal/telegram/service.go:283-424 | the polled offset never exceeds the durable next offset; every update ever issued is still pending at the server, or has a done or dead row, or had one that was pruned, or was given up by the server itself; below the next offset none is merely pending |
| PollLoop.CompletedAtMostOnce | internal/telegram/service.go:502-526 | an update becomes done at most once over a whole run, even after its row was pruned and when completion commits but reports an error |
| PollLoop.ExecutesOnlyOpenUpdates | internal/telegram/service.go:305-340 | a handler only ever runs for an update at or above the polled offset whose row was never pruned, with every smaller update accounted for |
| Verdicts.CompletedUpdatesFinished | internal/telegram/service.go:305-424 | over every run an update becomes done only if a handler finished it, and a done row belongs to the very attempt that handler executed |
| Verdicts.ReturnsAreEvents | internal/telegram/service.go:305-424 | every recorded return is an event of the run, of the execution it names |
| Verdicts.DecisionDecides | internal/telegram/service.go:352-424 | a decision is written exactly if the claim stands and its arguments are in order; an error, panic or stuck handler adds one failure and leaves the row failed, stuck or, at the third, dead; a cancelled one leaves it pending; the loop goes on only past a completed update or one whose ordinary error exhausted it |
| Verdicts.EveryDecisionDecides | internal/telegram/service.go:352-424 | the same for every decision of every run, for the attempt that really returned |
| Verdicts.ClaimDecides | internal/telegram/service.go:305-351 | the generation executes, goes on past a closed update, or ends, exactly by the state of the row |
| Verdicts.ReleaseGivesBack | internal/telegram/service.go:495-526 | after a completion that reported an error the claim is given back at no cost, unless it was committed after all |
| Verdicts.PollIsConfirmed | internal/telegram/service.go:296-304 | the offset a batch was polled with is confirmed before the batch is looked at, or the generation ends |
| Poller.Generation.CompleteUpdateAttempt | internal/telegram/service.go:502-526 | completion, and the release of the claim if completion reports an error |
| Poller.Generation.RecordUpdateFailure | internal/telegram/service.go:528-550 | a failure is recorded with or without a stuck lease, and the answer says whether the update is dead |
| Poller.Generation.Process | internal/telegram/service.go:305-424 | one pass through the loop body: journal and offset afterwards for every claim answer, handler outcome and fault, which is the stretch of the protocol that Verdicts speaks of |
| Poller.LoopBodyFollowsProtocol | internal/telegram/service.go:305-424 | that pass is a stretch of the crash-recovery protocol |
| Verifier.RestartSnapshots | internal/obsevidence/verify.go:361-378 | the map holds the last successful snapshot of every restart |
| Verifier.PrecedingConfirmedARestart | internal/obsevidence/verify.go:462-475 | the nearest earlier restart of A that a snapshot confirmed before B restarted, and nothing only if there is none |
| Verifier.CleanAToBTransition | internal/obsevidence/verify.go:477-505 | true exactly when one settings change lies between the restarts, it is to B, no media action intervenes, and restart snapshots show A |
| Verifier.EndedSnapshots | internal/obsevidence/verify.go:507-543 | the first immediate and settled snapshots of an end event that show B |
| Verifier.SwitchedAway | internal/obsevidence/verify.go:545-577 | true exactly when something between the restart and the settled snapshot leaves B |
| Verifier.FindCorrelation | internal/obsevidence/verify.go:361-444 | a verdict is returned if and only if the declarative pattern occurs, and it is for the earliest B restart and end event |
| Verifier.VerdictMeaning | internal/obsevidence/verify.go:361-444 | the five sequence numbers are those of the pattern and strictly increase, the delay is in [0, 2 s), the A restart is the last media action before B, and the end event is the only one up to the settled snapshot |
| Verifier.OnceMakesItSimple | internal/obsevidence/verify.go:446-460 | on traces that answer each request once the searched pattern is the plain one: A restarted and seen, one switch to B, B restarted and seen, its end within two seconds, B seen at once and two to three seconds later, and nothing else in between |
| Verifier.CheckStructure | internal/obsevidence/verify.go:31-101 | one scan with three running values accepts exactly the valid traces |
| Verifier.ValidTraceIsOrdered | internal/obsevidence/verify.go:31-101 | records of a valid trace are numbered from one and in time order |
| Verifier.VerifyTrace | internal/obsevidence/verify.go:31-101 | invalid if and only if the file is not a valid trace; no correlation only if none exists; a verdict describes one that does |
| Monitor.BodyVerdict | internal/obsevidence/verify.go:186-349 | a captured record passes the field and value rules unless it is a snapshot sent at time zero, answered with an odd code, or answered before it was sent |
| Monitor.HeaderVerdict | internal/obsevidence/verify.go:252-277 | the header written by a capture passes if and only if the build is clean and the file is within its limit |
| Monitor.CaptureAgreesWithVerifier | internal/obsevidence/verify.go:31-101 | a trace stopped by signal is valid if and only if the build is clean and every snapshot is usable |
| Monitor.AcceptedIsCaptured | internal/obsevidence/verify.go:142-349 | conversely every accepted trace has the form of a capture: the header of an acceptable configuration and a clean build, then only records such a capture writes, each snapshot answered with code 100 and in time, then the count of the rest |
| Capture.TraceWriter.Write | internal/obsevidence/trace.go:161-189 | a whole numbered line is appended and counted, or the counts stay and at most a torn line is left |
| Capture.TraceWriter.WriteIntegrityFailure | internal/obsevidence/trace.go:191-196 | at most one line more, torn or an integrity failure |
| Capture.TraceWriter.Close | internal/obsevidence/trace.go:198-224 | the final record holds the record and byte counts before it; an error without a final record is never a flush error; closing again does nothing |
| Capture.Runtime.SendSnapshot | internal/obsevidence/monitor.go:714-748 | a request is added under a new id, or refused exactly at eight pending ones, or withdrawn if sending fails |
| Capture.Runtime.HandleSettings | internal/obsevidence/monitor.go:596-617 | a settings change becomes the current file, under its own name exactly if it is one of the two watched and as "other" otherwise, one record and one snapshot request |
| Capture.Runtime.HandleAction | internal/obsevidence/monitor.go:619-646 | an action becomes one record; a restart is remembered and requested |
| Capture.Runtime.HandleEnded | internal/obsevidence/monitor.go:648-674 | an end refers to the remembered restart and promises two snapshots |
| Capture.Runtime.ScheduleSettle | internal/obsevidence/monitor.go:681-693 | a timer is added, or refused exactly at eight timers |
| Capture.Runtime.FireSettle | internal/obsevidence/monitor.go:522-528 | a fired timer is used up and its request sent |
| Capture.Runtime.HandleResponse | internal/obsevidence/monitor.go:750-792 | an answer uses up its request and becomes a snapshot record with the request's reason and times, whatever its own time, and the file it named or "other"; an answer nobody waits for is an error |
| Capture.Runtime.Run | internal/obsevidence/monitor.go:496-543 | whatever the order of frames, timers and timeouts, the file stays a capture in progress with every request answered at most once, and a faithful record of everything OBS reported about the input |
| Capture.NamesTell | internal/obsevidence/trace.go:315-325 | a record names B exactly if B is the file OBS named last, or if B is called "other" and that file is not A |
| Capture.VerdictWasHeard | internal/obsevidence/verify.go:361-444 | a correlation found in a capture's file was reported by OBS: restarts with A and then B named last, and the end of B within two seconds |
| Capture.Capture | internal/obsevidence/monitor.go:81-181 | an orderly end leaves a file that is valid under exactly that condition, answers each request once, and tells report by report what OBS said: files, actions, and which restart an end belongs to and how long ago it was; any other end leaves one the verifier rejects |
| Periods.EndStartsTheNext | internal/library/period.go:73-116 | a period ends after each of its instants, within nine hours, where the next period begins |
| Periods.PeriodsOfTheDay | internal/library/period.go:73-87 | the four periods by the second of the day, and the date a plan belongs to |
| Periods.KeyNamesOccurrence | internal/app/library.go:1348-1353 | two instants share a plan key if and only if no period boundary lies between them |
| LibraryState.StateStore.OverrideFor | internal/library/state.go:86-95 | a missing override reads as blank |
| LibraryState.StateStore.PeriodPlan | internal/library/state.go:147-165 | the stored plan of a date and period, if any |
| LibraryState.StateStore.ClearDirectLoopOverride | internal/library/state.go:127-135 | only the direct loop of one date is blanked |
| LibraryState.StateStore.SavePeriodPlan | internal/library/state.go:167-175 | one plan is stored under its key |
| LibraryState.StateStore.ClearPeriodPlan | internal/library/state.go:177-182 | one plan is removed |
| LibraryState.StateStore.ClearOverrideAndPeriodPlan | internal/library/state.go:184-202 | an override and a plan are removed together or not at all |
| LibraryState.StateStore.RestorePlaybackSelection | internal/library/state.go:208-263 | an override and a plan are put back, or removed where they were blank, together or not at all |
| LibraryState.StateStore.SetLastMusicID | internal/library/state.go:332-339 | the last music is stored |
| Selection.AvailableThemes | internal/library/select.go:10-23 | exactly the themes the period offers, each once |
| Selection.ChooseTheme | internal/library/select.go:35-44 | a theme the period offers, and none only if it offers none |
| Selection.ChooseLoop | internal/library/select.go:46-63 | a loop of the period and theme, and none only if there is none |
| Selection.ChooseMusic | internal/library/select.go:65-89 | a track other than the previous one whenever there is another |
| Selection.ChooseForPeriod | internal/app/library.go:1302-1321 | the preferred theme if the period has it, otherwise any loop of the period |
| Selection.PickObeysOrders | internal/app/library.go:1229-1295 | a healthy direct override wins; else the plan as long as nothing new was demanded, its loop is healthy and it has the theme asked for unless no healthy loop of the period has that theme; else the random choice, which becomes the plan; and what becomes of every override and plan |
| Selection.PickFitsPeriod | internal/app/library.go:1229-1283 | a loop of another period is never picked unless it was ordered directly, and plans keep fitting their period |
| Selection.SecondPickExactly | internal/app/library.go:1229-1283 | in any library the second unforced pick writes nothing and gives the loop the first one's identifier leads to, so it repeats the first if and only if that leads back to it |
| Selection.SecondPickIsTheFirst | internal/app/library.go:1229-1283 | in a library with unique identifiers, with health and overrides unchanged, a second unforced pick gives the same loop and leaves the database alone |
| Selection.OnePickPerOccurrence | internal/app/library.go:1229-1283 | without overrides all instants of one occurrence get the loop picked first, midnight included |
| Selection.PreviewIsPlayed | internal/app/library.go:1297-1300 | the loop previewed for the next period is the one picked at every instant of it |
| Selection.OverrideEndsAtMidnight | internal/app/library.go:1238-1249 | after midnight the override of the day before is gone and the night is picked afresh |
| Obs.Client.PlaySourceFile | internal/obs/client.go:299-356 | success exactly if every request was answered, and then the source holds the file; a failure after the first request may leave the old or the new file |
| Obs.Client.StopSource | internal/obs/client.go:405-418 | success exactly if the request was answered, and then the source does not run |
| Playback.Service.QuarantineReason | internal/app/library_health.go:245-260 | a path is blocked exactly while its entry matches the file; looking it up changes no verdict |
| Playback.Service.EnsurePlayable | internal/app/library_health.go:210-228 | an unfit asset is quarantined, a cancelled probe quarantines nothing |
| Playback.Service.PlayableLibrary | internal/app/library_health.go:262-278 | exactly the assets that are not blocked |
| Playback.Service.FindLoopByID | internal/app/library.go:1330-1337 | the first healthy loop with the identifier |
| Playback.Service.FindMusicByID | internal/app/library.go:1339-1346 | a healthy track with the identifier, and none only if there is none |
| Playback.Service.CanReusePeriodPlan | internal/app/library.go:1285-1295 | a plan is kept unless another theme was asked for and is available |
| Playback.Service.LoopForTime | internal/app/library.go:1229-1283 | without storage errors exactly the specified pick; with them, still no change outside the selection of that instant, and no loop of another period unless ordered directly |
| Playback.Service.CaptureSelection | internal/app/library.go:631-680 | the theme is kept; the direct loop exactly if it is healthy; the plan exactly if it leads to a healthy loop of the period and no order of the day before is about to lapse |
| Playback.RestoreRollsBack | internal/library/state.go:208-263 | restoring the captured selection after whatever a pick changed puts the override and the plan back and leaves every other key as it was before |
| Playback.Service.PlayOBSFile | internal/app/library.go:713-756 | a possibly applied failure stops the source and clears what was active, or says that stopping failed |
| Playback.Service.PlayLibraryLoop | internal/app/library.go:813-834 | the active loop is recorded only when its source holds it |
| Playback.Service.TryCandidates | internal/app/library.go:574-629 | files handed to OBS and assets refused as unfit number at most eight together, no file is handed over twice, and the quarantine afterwards is the old one plus the refused assets plus, tentatively, the files tried in vain; without an interruption it ends in vain only if no healthy loop is left or the limit is reached |
| Playback.Service.ActivateScheduledLoop | internal/app/library.go:527-629 | success means a loop of the library that belongs to the period or was ordered directly plays, just handed over or untouched because it played already; at most eight files are handed to OBS and assets refused, no file twice; failure after a file was handed over keeps the theme, a healthy direct override and a plan that still fits, touches no other key but the expired override, and leaves exactly the refused assets newly quarantined; without interruption or storage error it fails only if no healthy loop is left untried or after eight |
| Playback.Service.FailClosedExpiredLoop | internal/app/library.go:1054-1090 | a healthy loop of the current period stays untouched, any other source is stopped, or the error says it could not be |
| Playback.Service.EnsureLibraryPlayback | internal/app/library.go:1002-1048 | on return the current period plays, or the loop source is stopped and cleared, or the error reports a failed stop; without an error the loop belongs to the period or was ordered directly and music of the library plays too, if there is any; OBS is handed sixteen files at most |
| Playback.Service.PersistLastMusic | internal/app/library.go:1218-1227 | a track not yet stored stays pending until storing succeeds |
| Playback.Service.PlayMusicAsset | internal/app/library.go:1198-1216 | the active track is recorded only when its source holds it |
| Playback.Service.PlayNextMusic | internal/app/library.go:1101-1179 | the track started last is repeated only if no other healthy one is left, across failed stores; an empty library stops the music; at most eight tracks are handed to OBS or refused, none twice; after a failure exactly the refused ones are newly quarantined, and without interruption or storage error none healthy is left untried or there were eight |
| Playback.Service.ReplayActiveMusic | internal/app/library.go:1181-1196 | a known track is handed to OBS again and plays, or was refused as unfit, or the record is cleared and the error reported; the loop source is untouched |
| Playback.Service.FailoverStalledLoop | internal/app/library.go:969-988 | after success a different file of the current period, or one ordered directly, was just handed over and plays |
| Asynclog.RunKeepsInv | internal/asynclog/asynclog.go:135-402 | every interleaving keeps conservation of records, the balance of drops, the exact depth and the lifecycle rules |
| Asynclog.EmissionsKeepOrder | internal/asynclog/asynclog.go:254-335 | emissions are a prefix of what was accepted, in order |
| Asynclog.DropsAreAccounted | internal/asynclog/asynclog.go:319-392 | total drops equal pending ones plus those reported by successful emissions, up to the updates in progress |
| Asynclog.DepthStaysInBounds | internal/asynclog/asynclog.go:373-402 | the depth is never negative and at most one above the capacity |
| Asynclog.EveryRecordIsAnswered | internal/asynclog/asynclog.go:135-161 | every record brought to the handler is accepted or refused, once, and at rest accepted and counted drops add up to those brought |
| Asynclog.HighWaterWasReached | internal/asynclog/asynclog.go:394-402 | the high-water mark is a depth that was really reached |
| Asynclog.HighWaterIsPeak | internal/asynclog/asynclog.go:394-402 | no depth of the run was higher, apart from one just being recorded |
| Asynclog.CleanShutdownEmitsEverything | internal/asynclog/asynclog.go:199-217 | stopped or done without an abort means every accepted record was emitted exactly once |
| Asynclog.PhaseOnlyAdvances | internal/asynclog/asynclog.go:219-252 | open, draining, stopped is never left backwards, and nothing is accepted after open |
| Asynclog.AtMostOneAfterAbort | internal/asynclog/asynclog.go:254-310 | after an abort no continuation emits more than one further record, and some continuation emits one if and only if the writer is past its last look with a record at hand |
| Asynclog.LateEmissionOccurs | internal/asynclog/asynclog.go:254-335 | a record can be accepted, taken, and its handler aborted before anything was emitted, in a position from which it is still emitted |
| Asynclog.ChannelsCloseOnce | internal/asynclog/asynclog.go:219-252 | the drain and abort channels are never closed twice |
| Asynclog.DrainCompletes | internal/asynclog/asynclog.go:254-317 | once not open, the lock holder and the writer alone can always bring the handler to done |
| AsynclogCore.Core.Handle | internal/asynclog/asynclog.go:135-161 | an undisturbed call takes steps of the protocol; it enqueues exactly if open and not full, and counts one drop otherwise |
| AsynclogCore.Core.BeginDrain | internal/asynclog/asynclog.go:245-252 | only an open handler starts draining |
| AsynclogCore.Core.Abort | internal/asynclog/asynclog.go:219-230 | the handler is stopped and both channels are closed, once |
| AsynclogCore.Core.Emit | internal/asynclog/asynclog.go:319-335 | one record with the drops pending then; they leave the count exactly if the sink took it |
| AsynclogCore.Core.ClearReportedDrops | internal/asynclog/asynclog.go:382-392 | with any calls of other goroutines between loads and swaps, drops counted meanwhile survive and exactly the reported number is taken off; a count below the report is left alone |
| AsynclogCore.Core.DiscardQueued | internal/asynclog/asynclog.go:301-310 | the queue is emptied into nothing and the depth follows |
| AsynclogCore.Core.DrainQueue | internal/asynclog/asynclog.go:282-299 | without an abort the whole queue is emitted in order; once stopped nothing is |
| AsynclogCore.Core.Finish | internal/asynclog/asynclog.go:312-317 | the handler is stopped and done is closed |
| Liveness.RunKeepsInv | internal/liveness/liveness.go:336-472 | tokens ascend, scopes are bounded and special, and the published phase is that of the top scope |
| Liveness.TokensAreUnique | internal/liveness/liveness.go:378-389 | no two scopes ever share a token |
| Liveness.StackHoldsOpenScopes | internal/liveness/liveness.go:361-472 | the array holds exactly the scopes opened and neither closed nor overridden since |
| Liveness.PublishedPhaseIsNewestOpen | internal/liveness/liveness.go:336-472 | the published phase is that of the newest open scope, or the base phase if there is none |
| Liveness.AdvancedPhaseReturns | internal/liveness/liveness.go:336-472 | once no long operation is open the phase of the last valid advance is published again, or plain operation if that was itself the phase of a long operation |
| Liveness.EndedHandlesChangeNothing | internal/liveness/liveness.go:398-427 | a closed or overridden handle never changes the state again |
| Liveness.SequenceCountsPublications | internal/liveness/liveness.go:429-437 | the sequence is the number of publications, capped at its largest value |
| Liveness.SequenceNeverDecreases | internal/liveness/liveness.go:429-437 | the sequence is monotone |
| Workers.PackedIsUnpacked | internal/liveness/liveness.go:322-330 | phase and sequence survive packing into one word |
| Workers.WorkerState.Advance | internal/liveness/liveness.go:336-347 | all scopes go and the phase is published; an invalid phase changes nothing |
| Workers.WorkerState.Scope | internal/liveness/liveness.go:361-394 | a scope is pushed under the next token, or refused at the bound or for an ordinary phase |
| Workers.WorkerState.Close | internal/liveness/liveness.go:398-472 | the scope is taken out of the middle of the array and the newest one left takes over |
| Workers.WorkerState.Checkpoint | internal/liveness/liveness.go:409-427 | only the handle of the effective scope publishes |
| Workers.Registry.Bind | internal/liveness/liveness.go:238-254 | each error for exactly its reason, and one fresh worker in a free slot otherwise |
| Workers.Registry.Seal | internal/liveness/liveness.go:257-282 | sealing succeeds exactly when all five slots are bound and it was not sealed before |
| Workers.Registry.Snapshots | internal/liveness/liveness.go:302-320 | five entries in wire order, sealed or not; a bound slot shows its own owner and values in range, a free one the blank entry |
| Frames.EncodeFrame | internal/liveness/reporter.go:197-243 | invalid exactly for frame zero, a wrong worker, owner or phase; otherwise the line in wire order |
| Frames.FrameLayout | internal/liveness/reporter.go:197-272 | the line letter by letter: prefix, number, and for t, r, e, m and p the sequence and two digits of phase |
| Frames.FramesFit | internal/liveness/reporter.go:197-243 | no reachable frame is longer than 143 bytes |
| Frames.FrameReadsBack | internal/liveness/reporter.go:197-272 | decoding gives back number, sequences and phase codes |
| Frames.EncodingIsInjective | internal/liveness/reporter.go:197-272 | two frames have the same bytes only if number and observations are equal |
| Frames.Reporter.Encode | internal/liveness/reporter.go:352-359 | a frame is encoded without error if and only if all five slots are bound |
| Frames.Reporter.Report | internal/liveness/reporter.go:352-390 | frames are numbered one by one, tell what the workers show, and a full pipe only counts a drop; an unbound slot is an invalid frame |
| Retry.Normalize | internal/retry/retry.go:51-69 | any policy becomes a consistent one, a consistent one is kept, and each value stays unless it has to move |
| Retry.ScaleIsSaturatedFloor | internal/retry/retry.go:262-275 | the double-width computation is the exact floor, capped at the largest duration |
| Retry.JitterStaysInBand | internal/retry/retry.go:238-260 | the delay lies between base minus span and the smaller of maximum and base plus span |
| Retry.JitterReachesBand | internal/retry/retry.go:238-260 | every delay of that band can come up |
| Retry.Backoff.Base | internal/retry/retry.go:72-84 | the loop computes the smaller of initial times two to the failures and the maximum, in at most 63 rounds |
| Retry.DelayDoubles | internal/retry/retry.go:72-84 | the delay starts at the initial one and doubles with every failure up to the maximum |
| Retry.Backoff.Failure | internal/retry/retry.go:72-94 | the delay is the jittered base or a stronger hint, never above the hint cap |
| Retry.DelaysNeverShrink | internal/retry/retry.go:72-84 | without jitter delays grow to the maximum and are there after 63 failures |
| Retry.Sampler.Failure | internal/retry/retry.go:143-160 | the first and every n-th failure are logged and account for those suppressed between |
| Retry.Sampler.Recovery | internal/retry/retry.go:162-174 | logged, reported and suppressed failures add up to the streak |
| Storage.CopyData | internal/app/storage.go:345-383 | short writes included, what was written is a prefix of the source, and all of it on success |
| Storage.PublishFileNoReplace | internal/app/storage.go:294-309 | publication moves the staged bytes to a free name or undoes itself |
| Storage.CopyOpenedFileAtomic | internal/app/storage.go:147-288 | in every intermediate state, failing runs included, an existing destination keeps its bytes and a new one is absent or holds exactly the bytes of the source, which were flushed and approved before; success leaves no staging name, failure no destination unless a failed rollback is reported, and then it holds the source's bytes |
| Stall.Detector.MediaInputStalled | internal/app/app.go:811-866 | what is remembered and answered for every observation |
| Stall.Detector.ResetMediaProgress | internal/app/app.go:868-881 | starting a file restarts both clocks |
| Stall.StoredTimesAreHistory | internal/app/app.go:811-866 | the stored times are those of the last change and of the last definitive progress |
| Stall.StalledIffNothingRecent | internal/app/app.go:811-866 | stalled if and only if nothing changed for two minutes or nothing definitive for four |
| Stall.FlappingCannotHide | internal/app/app.go:811-866 | once the cursor stands still, state changes delay the answer by four minutes at most |
| Stall.ProgressIsNeverStalled | internal/app/app.go:811-866 | an observation with definitive progress is never stalled |
| Stall.CreepingCounts | internal/app/app.go:831-841 | the exact answer for a cursor that moves less than the epsilon each time |
| Stall.BlinkingIsNeverStalled | internal/app/app.go:824-830 | a cursor that keeps vanishing and returning is never called stalled |
| Stall.StartIsAnObservation | internal/app/app.go:868-881 | starting a file counts like a first observation without state or cursor |
| Stall.NewFileStartsOver | internal/app/app.go:811-866 | after a change of file nothing seen before it matters |
| Stall.OnlyTheCurrentFileCounts | internal/app/app.go:811-866 | for any history of files the state is that of the observations since the current file was first seen |
| Stall.ClockSetBackStartsOver | internal/app/app.go:811-866 | a clock set back behind the last progress starts both periods of grace anew |
| Stall.TimesAreNested | internal/app/app.go:811-866 | whatever files and clock do, definitive progress is progress and neither lies after the last observation |
| Stall.ConfirmationMissesThePhase | internal/app/app.go:760-797 | the second look is never a whole number of loop rounds after the first |

## Left out

- SQL text, migrations, file permissions and the wall-clock budget of maintenance: the tables are maps and each transaction one step.
- Chat metadata, labels and stored error texts of the journal: only lengths that decide an answer are kept.
- Telegram HTTP, command routing, keyboards and message texts: a handler is one of its outcomes.
- Overlapping poll loops: one generation runs at a time, as the process lock arranges; the journal lemmas hold without that.
- Evidence: JSON decoding, UTC strings and version parsing; a line decodes or does not, a version is three numbers.
- Capture.Runtime.Run: assumes that the times of frames and timers do not go back, because the clock is monotonic.
- Connection, handshake and authentication of the monitor and of the OBS client, and scene centering beyond success or failure.
- The order in which candidates are sorted before a random choice: any of them can be chosen anyway.
- The media probe and its cache: a probe answers sound, unfit or cancelled.
- Directory scanning and publishing a new library snapshot: the snapshot is given, with unique identifiers and paths (`Selection.LibraryOk`), since a scan derives an identifier by hashing a relative path (internal/library/assets.go:104-115). Without that assumption `Selection.SecondPickExactly` says when a second pick differs.
- Reconciliation with the state OBS reports, OBS events and recovery after a reconnect: they call the modelled operations.
- Time zones and daylight saving: a day has 24 hours; fractions of a second are left out.
- AsynclogCore.Core: the main loop of the writer is part of the state machine only; its final drain and its emission are methods.
- `slog` attributes, derived handlers and levels: a record is an opaque item.
- The FIFO behind the supervisor frames: a write succeeds, is dropped, or fails.
- Random generators: any value in range. Timers, contexts and deadlines: a call may fail at any point where the source looks.
- Storage.CopyOpenedFileAtomic: a link or removal that reports an error is taken to have had no effect, and durability after power loss is not modelled.
- Floating-point rounding: cursors and confirmation delays are reals.
- Configuration, secret redaction, status texts, paging and UTF-8 truncation: they give only easy claims.
