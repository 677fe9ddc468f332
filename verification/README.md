# WACP platform: a verified model of the console and coordinator cores

This project models the parts of the WACP platform whose behaviour spans many
steps, and proves what holds of them over every run. It is pure Dafny; the
whole of it is covered by `dafny verify dfyconfig.toml`.

**The console's session protocol.** One session is one database row plus its
assignment rows. Launch requests (a saga of SubmitGoal, Decompose, one Dispatch
per assignment and a finalize transaction), cancel requests, monitors, startup
recoveries, workspaces ending on the runtime and console crashes all act on it
through updates guarded by the row's current state. `SessionStore` holds the
guarded updates, `LaunchSaga` the saga both as an automaton over awaited
operations and as the imperative procedure, whose own effects are proved to be
the automaton's, `SessionWorld` the interleaved state machine with any number
of each actor, `SessionInvariant` and `SessionSteps` the invariant and its
preservation, `SessionTheorems` the results over all runs, `ConcurrentLaunches`
what several requests for one session do to each other, `LaunchFailure`,
`CancelledLaunch` and `WorkspaceLedger` what failed and cancelled launches leave
behind, `LeakingRuns` and `RivalLaunches` concrete runs, `MonitorSteps` the
monitor's event loop against the state machine, and `StartupRecovery` recovery
over a whole table of sessions.

**The hybrid logical clock.** `Timestamps` is the 10-byte big-endian
timestamp, `HybridClock` the clock with its saturating 16-bit counter, and
`ClockNetwork` any number of clocks exchanging messages that may be lost,
delayed, reordered or duplicated.

**The session monitor.** `MonitorEvents` proves the monitor's lists, map and
broadcasts against functions of the whole event history; `MonitorShape` proves
the shape of what is broadcast; `Reconnect` is the stream driver's reconnect
loop in closed form.

**Algorithmic kernels.** `CivilDate` (the calendar, over the proleptic
Gregorian calendar of ISO 8601), `Fingerprint` (the FNV-1a fold), `Cursors`
(base64url without padding, section 5 of RFC 4648, and UTF-8, section 4 of
RFC 3629), `Pagination` (walks over changing lists), `TaskGraph` and
`TaskGraphLaws` (dependency counters and the breadth-first snapshot).

**Coordinator and taxonomy state.** `GateController` (approval gates, proved
against a specification that only looks at the calls made so far),
`TaxonomyIndex` and `TaxonomyLaws` (the index builder), with `NameOrder` and
`Lexicographic` for string order; `Words` holds machine words and `Options`
optional values.

## What the proofs show about the code

Most documented guarantees hold as stated. The following hold only under a
condition, or not at all; where code and documentation disagree the model
follows the code.

- The cancel route says a partial launch leaked by a cancel is reconciled by
  the next recovery. It is not: a cancel that reads LAUNCHING has no workspace
  id to abort, recovery only lists ACTIVE sessions, and a launch that finalizes
  between the cancel's read and its write leaves a CANCELLED session whose
  workspaces nobody asks to abort (`LeakingRuns.CancelCanLeakALaunch`). A
  cancelled session's committed launch is left like that if and only if no
  cancel that had read it as ACTIVE got a channel
  (`CancelledLaunch.CancelledLaunchLeaksIff`), and once no live cancel is about
  to ask, nothing that follows ever does (`CancelledLaunch.LeakIsForGood`).
- The launch route says that a failed launch has already marked the session
  FAILED and rolled back its workspaces. A directive lookup that fails after
  SubmitGoal does neither (`LeakingRuns.FailedLookupLeaksTheRoot`), and a
  rollback without a channel aborts nothing
  (`LeakingRuns.RollbackWithoutChannelLeaks`). A returning launch leaves a
  LAUNCHING session LAUNCHING exactly when the database failed its last
  operation or that operation asked the pool for a channel
  (`LaunchFailure.ReturnLeavesLaunchingIff`). Of the workspaces a launch was told
  of, those a losing launch returns without aborting are of the two kinds shown
  (`WorkspaceLedger.EveryWorkspaceIsAccountedFor`). One whose reply was lost
  after the runtime created it belongs to nobody and is never aborted
  (`WorkspaceLedger.LostWorkspaceIsNobodys`).
- Recovery documents a branch for sessions stuck in the middle of a launch. It
  is unreachable, because such a session is LAUNCHING and not ACTIVE
  (`SessionTheorems.RecoveryNeverFindsStuck`); only a cancel can ever move it
  (`SessionTheorems.CrashMidLaunchIsStuck`).
- The API specification says that concurrent launches of one session are
  serialized, with a conflict for the loser, and the launch route calls itself
  state-guarded. It ignores the result of its own guarded updates, so several
  requests can enter the saga. There is at most one winner
  (`SessionTheorems.LaunchHasOneWinner`), but there may be none: the failure of
  one request can end the session under another that has every workspace it
  needs, and neither is refused with a conflict
  (`RivalLaunches.RivalsCanBothLose`). Once the session is past validation a
  request can still enter the saga if and only if it is alive, has read
  CONFIGURING without being refused, and the session is LAUNCHING
  (`ConcurrentLaunches.CanEnterIff`); its commit is then refused, unless the
  database fails it, if and only if a cancel or another request has written the
  session out of LAUNCHING (`ConcurrentLaunches.CommitIsRefusedIff`).
- `recv` promises a timestamp strictly greater than both inputs. It returns one
  exactly when no counter saturates (`HybridClock.TickIsAfterWhatItSaw`,
  `HybridClock.SaturatedReceiveRepeats`); over runs, causality is strict unless
  the cause carries the greatest counter and its effect knows of no later time
  (`ClockNetwork.CausalityIsStrictIff`).
- `succ` has no successor for the greatest timestamp: the addition overflows.
- The reconnect loop panics if and only if one of the backoffs it doubles
  exceeds half the greatest duration (`Reconnect.RunStreamDriver`), as with
  `Reconnect.HugeBackoffPanics`.
- `add_task` that fails on a missing dependency leaves the edges of the
  dependencies before it. A later task of that id can then be released twice by
  one dependency and become dispatchable too early
  (`TaskGraphLaws.LeftoverEdgesReleaseEarly`); the exact conditions are
  `TaskGraphLaws.AddKeepsExact` and `TaskGraphLaws.FinishKeepsCounted`.
- The readiness counter is documented as the number of dependencies that are
  not yet terminal. It is what `mark_completed` is told: after any calls it is
  the number open at addition less the edges from every task reported since
  (`TaskGraphLaws.CounterAfterAnyCalls`). It is the documented number for a
  client that adds cleanly and reports each task as it ends
  (`TaskGraphLaws.CarefulRunsCountRight`), but the coordinator service is not
  one: it cancels tasks without reporting them and nothing in the repository
  calls `mark_completed` outside its tests, so there a task added with an open
  dependency never becomes dispatchable (`TaskGraphLaws.UnreportedEndingsStall`).
- `GetTaskGraph` is documented as a snapshot of all tasks. It starts from the
  tasks without a parent, so a subtask without dependencies is missing
  (`TaskGraphLaws.SubtaskIsNotListed`); the snapshot is complete if and only if
  every task no edge leads to has no parent (`TaskGraphLaws.SnapshotIsComplete`).

## Model

| member | source | states |
|---|---|---|
| `SessionStore.Store.TransitionState` | wacp-console/crates/console-db/src/queries/sessions.rs:113-149 | A compare-and-set on the state column: it reports whether the state matched and changes nothing otherwise. |
| `SessionStore.Store.CancelOpen` | wacp-console/crates/console-db/src/queries/sessions.rs:152-177 | The guarded cancel takes effect exactly on non-terminal rows. |
| `SessionStore.Store.Finalize` | wacp-console/crates/console-core/src/session_launcher.rs:419-458 | The transaction commits all of root id, ACTIVE and the assignment ids, or nothing, whichever statement fails; it commits only from LAUNCHING. |
| `SessionStore.PlaceSetsExactly` | wacp-console/crates/console-core/src/session_launcher.rs:448-456 | The assignment updates set the cells of the launched assignments to their workspaces and no other cell. |
| `LaunchSaga.Fail` | wacp-console/crates/console-core/src/session_launcher.rs:350-415 | The calls this procedure makes are the automaton's: one abort request per workspace in order, or none when no channel is available, and then the guarded update to FAILED. |
| `LaunchSaga.LaunchTasks` | wacp-console/crates/console-core/src/session_launcher.rs:228-347 | The procedure's own effects from Decompose on are the automaton's, operation by operation, whatever the environment answers, and its outcome is where the automaton ends. |
| `LaunchSaga.DispatchAll` | wacp-console/crates/console-core/src/session_launcher.rs:283-347 | The same for the dispatch loop, which records each workspace it receives with its assignment, and the finalize transaction it ends in. |
| `LaunchSaga.Launch` | wacp-console/crates/console-core/src/session_launcher.rs:154-347 | For every environment the effects of the procedure's own statements (ids received, aborts, commit, guarded updates) are exactly the automaton's; on success it committed the ids it received, each with its own assignment, as its last effect; on a step error it aborted exactly the ids it received, unless it had no channel, and ended with the update to FAILED. |
| `LaunchSaga.LedgerOf` | wacp-console/crates/console-core/src/session_launcher.rs:284-319 | The ids received and the aborts requested by the effects are the automaton's lists. |
| `LaunchSaga.AdvanceKeepsLauncherOk` | wacp-console/crates/console-core/src/session_launcher.rs:154-396 | Every operation keeps created ids, placements and aborts paired and counted. |
| `SessionSteps.StepKeepsInv` | wacp-console/crates/console-core/src/session_launcher.rs:154-458 | Every step of every actor, crashes included, keeps the invariant tying row, history, workspaces and actors together. |
| `SessionTheorems.LaunchHasOneWinner` | wacp-console/crates/console-core/src/session_launcher.rs:419-458 | In every run at most one launch request returns Active, and from then on the row and all assignments hold exactly its ids. |
| `SessionTheorems.RollbackAbortsOnlyItsOwn` | wacp-console/crates/console-core/src/session_launcher.rs:375-396 | A launcher's abort names a workspace given to that same launcher, which did not win; a winner's workspaces are never aborted by a rollback, and a cancel aborts at most its root. |
| `SessionTheorems.StepErrorRollsBackExactly` | wacp-console/crates/console-core/src/session_launcher.rs:350-396 | A launcher that returned a step error requested exactly one abort for each workspace id it was given, or none if it found no channel at rollback. |
| `SessionTheorems.LaunchNeverWritesPastLaunching` | wacp-console/crates/console-core/src/session_launcher.rs:400-415 | No launch request ever moves an ACTIVE or terminal row; its FAILED comes only from LAUNCHING. |
| `SessionTheorems.EveryWriteIsAnEdge` | wacp-console/crates/console-core/src/session_state.rs:22-45 | In every interleaving the effective writes form one path of edges of `validate_transition`, and an ACTIVE row has a coordinator workspace id. |
| `SessionTheorems.TerminalStatesAbsorb` | wacp-console/crates/console-core/src/session_state.rs:17-45 | Terminal states absorb, and once LAUNCHING at most two further writes take effect, whatever follows. |
| `SessionTheorems.WritesUseUpRank` | wacp-console/crates/console-core/src/session_state.rs:22-45 | Past validation every effective write uses up rank: two are left from LAUNCHING, one from ACTIVE, none from a terminal state. |
| `SessionTheorems.ActiveEndsAsItsRootDoes` | wacp-console/crates/console-core/src/recovery.rs:172-184 | Wherever the console crashes, the write out of ACTIVE is the state the root workspace ended in, by monitor or recovery alike, or it comes from a cancel, a stream Fatal, a missing workspace or an unexpected code. |
| `SessionTheorems.LeftActiveForGood` | wacp-console/crates/console-core/src/recovery.rs:124-184 | The write out of ACTIVE is the last one, and an unforced one matches how the root ended. |
| `SessionTheorems.CrashPlacementDoesNotMatter` | wacp-console/crates/console-core/src/recovery.rs:65-184 | Any two runs, crashed anywhere, whose roots ended alike and were seen to, end in the same state. |
| `SessionTheorems.CancelAbortsIffItSawActive` | wacp-console/crates/console-api/src/routes/sessions.rs:592-668 | A successful cancel requested an abort, of the root and once, if and only if it had read the session as ACTIVE. |
| `SessionTheorems.OnlyCancelFreesStuck` | wacp-console/crates/console-core/src/recovery.rs:75-81 | A LAUNCHING row no live launch can move stays so through any steps until a cancel writes it. |
| `SessionTheorems.CrashMidLaunchIsStuck` | wacp-console/crates/console-core/src/recovery.rs:133-138 | A crash while LAUNCHING leaves the session LAUNCHING for ever or until a cancel. |
| `SessionTheorems.RecoveryNeverFindsStuck` | wacp-console/crates/console-core/src/recovery.rs:133-138 | No recovery ever takes the branch for an ACTIVE session without a workspace id. |
| `WorkspaceLedger.EveryWorkspaceIsAccountedFor` | wacp-console/crates/console-core/src/session_launcher.rs:154-458 | In every run each workspace id the runtime returned to a launch is in the row at its place if and only if its request won, and then no rollback aborts it; its request aborted it if and only if its rollback got that far, crashed or not; of a losing request that returned, it is aborted if and only if the request had a step error and a channel, and the other losses are named exactly. |
| `WorkspaceLedger.LostWorkspaceIsNobodys` | wacp-console/crates/console-core/src/session_launcher.rs:209-218 | A workspace the runtime created for a call whose reply was lost is in no row and on no list, and nobody ever asks to abort it. |
| `WorkspaceLedger.RunKeepsRecorded` | wacp-console/crates/console-core/src/session_launcher.rs:192-330 | No request ever forgets a workspace id it received. |
| `WorkspaceLedger.DeadRequestIsFinal` | wacp-console/crates/console-core/src/session_launcher.rs:375-396 | A request killed by a crash never moves or aborts again: what its rollback had aborted is all it will. |
| `LaunchFailure.MarkedIsPastLaunching` | wacp-console/crates/console-core/src/session_launcher.rs:398-415 | In every run, once the update of a request's `mark_failed` has reached the database the session is past LAUNCHING, and stays so whatever follows. |
| `LaunchFailure.ReturnLeavesLaunchingIff` | wacp-console/crates/console-core/src/session_launcher.rs:154-347 | The operation with which a launch returns leaves a LAUNCHING session LAUNCHING exactly when the database failed it or it was the request for a channel; otherwise the session is FAILED. |
| `ConcurrentLaunches.CanEnterIff` | wacp-console/crates/console-api/src/routes/sessions.rs:387-462 | In every run, once the session is past validation, a request not in the saga can still enter it if and only if it is alive, has read CONFIGURING without being refused since, and the session is LAUNCHING. |
| `ConcurrentLaunches.CommitIsRefusedIff` | wacp-console/crates/console-core/src/session_launcher.rs:428-446 | In every run a finalize that the database does not fail is refused if and only if a cancel or another request has written the session out of LAUNCHING. |
| `RivalLaunches.RivalsCanBothLose` | wacp-console/crates/console-api/src/routes/sessions.rs:395-470 | A concrete legal run of two launches of one session that both enter the saga and both return step errors, with no cancel and no winner. |
| `CancelledLaunch.CommittedRootIsAbortedIff` | wacp-console/crates/console-api/src/routes/sessions.rs:610-668 | In every run the root of the committed launch was asked to be aborted if and only if some step of the run gave a channel to a cancel that had read the session as ACTIVE. |
| `CancelledLaunch.CancelledLaunchLeaksIff` | wacp-console/crates/console-api/src/routes/sessions.rs:618-668 | A session is CANCELLED with its committed launch aborted by nobody if and only if no cancel that read ACTIVE got a channel; the cancel that ended it had then read it before the commit. |
| `CancelledLaunch.LeakIsForGood` | wacp-console/crates/console-api/src/routes/sessions.rs:653-656 | From there, unless a live cancel is about to ask, no continuation of recoveries, restarts, launches and cancels ever asks for the abort. |
| `LeakingRuns.CancelCanLeakALaunch` | wacp-console/crates/console-api/src/routes/sessions.rs:653-668 | A concrete legal run that ends CANCELLED with launched workspaces for which no abort was ever requested. |
| `LeakingRuns.FailedLookupLeaksTheRoot` | wacp-console/crates/console-api/src/routes/sessions.rs:458-460 | A concrete legal run in which a launch returns an error, its session stays LAUNCHING and its root is aborted by nobody. |
| `LeakingRuns.RollbackWithoutChannelLeaks` | wacp-console/crates/console-core/src/session_launcher.rs:375-382 | A concrete legal run in which a step error leaves its session FAILED and its root aborted by nobody. |
| `StartupRecovery.Console.RecoverOne` | wacp-console/crates/console-core/src/recovery.rs:124-240 | One ACTIVE session: the outcome, the guarded write and the respawned monitor for every answer of runtime and database. |
| `StartupRecovery.Console.ListActive` | wacp-console/crates/console-db/src/queries/sessions.rs:203-207 | Exactly the ACTIVE sessions, each once, in any order. |
| `StartupRecovery.Console.Run` | wacp-console/crates/console-core/src/recovery.rs:65-115 | Every session that was ACTIVE is reported once and on the list its verdict names, moves as the verdict says, nothing else changes, and exactly the resumed ones get a monitor on their root. |
| `StartupRecovery.OutageChangesNothing` | wacp-console/crates/console-core/src/recovery.rs:61-64 | If no ACTIVE session can be probed, recovery changes no row, starts no monitor and reports every one of them as skipped and nothing else. |
| `StartupRecovery.RecoveryRefinesItsSteps` | wacp-console/crates/console-core/src/recovery.rs:124-223 | The procedure leaves the row and spawns the monitor that the recovery steps of the state machine do, for truthful probes. |
| `Timestamps.CmpIsNumeric` | wacp/crates/wacp-clock/src/timestamp.rs:74-80 | The comparison is the order of the 80-bit numbers. |
| `Timestamps.ToBytes` | wacp/crates/wacp-clock/src/timestamp.rs:41-46 | The buffer filled in place is the big-endian encoding of both parts. |
| `Timestamps.EncodeThenDecode` | wacp/crates/wacp-clock/src/timestamp.rs:41-56 | Decoding undoes encoding. |
| `Timestamps.DecodeThenEncode` | wacp/crates/wacp-clock/src/timestamp.rs:41-56 | Encoding undoes decoding, for every 10 bytes. |
| `Timestamps.LexIsNumeric` | wacp/crates/wacp-clock/src/timestamp.rs:40-46 | Lexicographic order of equally long byte strings is the order of the numbers they spell. |
| `Timestamps.EncodingKeepsOrder` | wacp/crates/wacp-clock/src/timestamp.rs:40-80 | Byte order and timestamp order coincide for all pairs. |
| `Timestamps.SuccIsNext` | wacp/crates/wacp-clock/src/timestamp.rs:59-71 | `succ` adds one to the 80-bit number, so nothing lies between, for all but the greatest timestamp, which has none. |
| `HybridClock.Clock.constructor` | wacp/crates/wacp-clock/src/lib.rs:30-43 | The clock starts at the given timestamp. |
| `HybridClock.Clock.Now` | wacp/crates/wacp-clock/src/lib.rs:49-68 | A local event or send ticks past the clock's own timestamp: latest physical time, counter one past the greatest used at it, saturating. |
| `HybridClock.Clock.Recv` | wacp/crates/wacp-clock/src/lib.rs:74-98 | The four-way rule of a receive is the same tick past both the local and the remote timestamp. |
| `HybridClock.TickIsAfterWhatItSaw` | wacp/crates/wacp-clock/src/lib.rs:70-98 | A tick is never before what it saw, and strictly after both exactly when no counter saturates. |
| `HybridClock.SaturatedReceiveRepeats` | wacp/crates/wacp-clock/src/lib.rs:70-98 | A concrete receive that returns the clock's own last timestamp again. |
| `ClockNetwork.Replay` | wacp/crates/wacp-clock/src/lib.rs:49-98 | The clock objects, driven through any history of events, produce the timestamps of the specification. |
| `ClockNetwork.ProcessOrderIsCausal` | wacp/crates/wacp-clock/src/lib.rs:49-68 | Earlier events of a process happen before its later ones. |
| `ClockNetwork.HappensBeforeIsTransitive` | wacp/crates/wacp-clock/src/lib.rs:49-98 | Happens-before is transitive. |
| `ClockNetwork.Causality` | wacp/crates/wacp-clock/src/lib.rs:49-98 | In every run, for any initial clocks, a cause is stamped no later than its effect, and strictly earlier if the effect did not saturate. |
| `ClockNetwork.CausalityIsStrictIff` | wacp/crates/wacp-clock/src/lib.rs:70-98 | A cause is stamped strictly before its effect unless it carries the greatest counter and the effect, when it ticks, knows of no later time from its reading, its clock or its message. |
| `ClockNetwork.CounterBound` | wacp/crates/wacp-clock/src/lib.rs:49-98 | From ZERO, a counter is at most the number of events so far that share its physical time; saturation takes more than 65535 of them. |
| `ClockNetwork.StrictCausality` | wacp/crates/wacp-clock/src/lib.rs:49-98 | If no physical time is shared by more than 65535 events, causality is strict. |
| `ClockNetwork.PhysicalIsLatestReading` | wacp/crates/wacp-clock/src/lib.rs:49-98 | From ZERO, the physical part is the greatest local reading in the event's causal past, its own included. |
| `MonitorEvents.Monitor.constructor` | wacp-console/crates/console-core/src/session_monitor.rs:110-125 | The member set is the assignments and the root; the lists start empty. |
| `MonitorEvents.Monitor.HandleEvent` | wacp-console/crates/console-core/src/session_monitor.rs:425-563 | After each event all lists, states and frames are those of the extended history, and the result says whether it ends the session and how. |
| `MonitorEvents.Monitor.Run` | wacp-console/crates/console-core/src/session_monitor.rs:280-344 | Over any inputs, exactly the events up to the first ending one are handled, its state is what is recorded, and each snapshot shows the history at its moment. |
| `MonitorSteps.MonitorRefinesItsSteps` | wacp-console/crates/console-core/src/session_monitor.rs:280-344 | After any inputs of a truthful runtime the event loop is watching, stopped or about to record a state exactly when the monitor of the session state machine is, with the same state. |
| `MonitorSteps.RecordedIsWritten` | wacp-console/crates/console-core/src/session_monitor.rs:565-579 | What the loop hands over to be recorded is what the state machine's monitor writes over ACTIVE. |
| `MonitorEvents.PendingGatesGrow` | wacp-console/crates/console-core/src/session_monitor.rs:440-472 | The pending gates, defined as the member gates with no later member resolution of their id, in order and with multiplicity, are what pruning and pushing maintain. |
| `MonitorShape.TerminalComesLast` | wacp-console/crates/console-core/src/session_monitor.rs:293-337 | Only the last handled event of a run can end the session, and it stops the monitor. |
| `MonitorShape.FinalFrameIsLast` | wacp-console/crates/console-core/src/session_monitor.rs:522-561 | At most one session-lifecycle or fatal monitor-error frame is ever sent, as the last frame. |
| `MonitorShape.EveryTrailIsBroadcastOnce` | wacp-console/crates/console-core/src/session_monitor.rs:427-458 | The trail frames are the member trail entries, each once, in event order. |
| `MonitorShape.RefusalsPrecedeTheirTrail` | wacp-console/crates/console-core/src/session_monitor.rs:431-456 | A trail frame is directly preceded by a refusal frame if and only if its entry is a refusal, and refusal frames occur nowhere else. |
| `MonitorShape.OthersChangeNoPendingList` | wacp-console/crates/console-core/src/session_monitor.rs:427-494 | Events of other sessions' workspaces change no pending list. |
| `MonitorShape.OthersSendNoFrame` | wacp-console/crates/console-core/src/session_monitor.rs:427-494 | Events of other sessions' workspaces produce no frame. |
| `Reconnect.RunStreamDriver` | wacp-console/crates/console-core/src/session_monitor.rs:635-681 | max(1, cap) driver calls, one Lag per error with its index, one Fatal at the end, the k-th sleep in closed form, and a panic if and only if some backoff before the last call cannot be doubled, exactly at the first such. |
| `Reconnect.DoublingClamps` | wacp-console/crates/console-core/src/session_monitor.rs:678-679 | Doubling and clamping step by step gives min(initial * 2^k, max). |
| `Reconnect.HugeBackoffPanics` | wacp-console/crates/console-core/src/session_monitor.rs:679 | A configuration whose first doubling exceeds the greatest duration. |
| `Reconnect.SaneConfigNeverPanics` | wacp-console/crates/console-core/src/session_monitor.rs:183-199 | With initial <= max <= half the greatest duration no doubling panics. |
| `Reconnect.TotalWait` | wacp-console/crates/console-core/src/session_monitor.rs:660-681 | The total wait lies between n times initial and n times max. |
| `Reconnect.TotalWaitDoubling` | wacp-console/crates/console-core/src/session_monitor.rs:660-681 | The total wait is below the unclamped geometric sum. |
| `CivilDate.YearOfEraIsRight` | wacp/crates/wacp-runtime/build.rs:37 | The division chain finds the one March-based year of the 400-year era that contains the day. |
| `CivilDate.NextIsSuccessor` | wacp/crates/wacp-runtime/build.rs:32-45 | Day n+1 is the calendar successor of the date of day n, and every date is valid. |
| `CivilDate.EpochDaysIsCounting` | wacp/crates/wacp-runtime/build.rs:32-45 | For every day number the algorithm gives the date that counting days from 1970-01-01 gives. |
| `CivilDate.EpochDaysInvertsDayNumber` | wacp/crates/wacp-runtime/build.rs:32-45 | Every Gregorian date from 1970 on is the algorithm's date of its day number. |
| `CivilDate.DayNumberInvertsEpochDays` | wacp/crates/wacp-runtime/build.rs:32-45 | The day number of the algorithm's date is the one it was given. |
| `Fingerprint.Hash` | wacp/crates/wacp-coordinator/src/handler.rs:337-344 | The loop computes the fold of xor and multiplication modulo 2^64 from the offset. |
| `Fingerprint.StepInjective` | wacp/crates/wacp-coordinator/src/handler.rs:340-341 | A byte step is injective in the accumulator and in the byte. |
| `Fingerprint.FoldInjective` | wacp/crates/wacp-coordinator/src/handler.rs:337-344 | Different accumulators stay different whatever bytes follow. |
| `Fingerprint.OneByteApart` | wacp/crates/wacp-coordinator/src/handler.rs:337-344 | Payloads that differ in exactly one byte, at any position and length, have different hashes. |
| `Fingerprint.CollisionsComeFromTheMiddle` | wacp/crates/wacp-coordinator/src/handler.rs:337-344 | Payloads with a common prefix and suffix collide exactly if their middles do. |
| `Cursors.DecodeEncode` | wacp-console/crates/console-api/src/pagination.rs:26-47 | Unpadded base64url decoding undoes encoding, for all bytes. |
| `Cursors.EncodeDecode` | wacp-console/crates/console-api/src/pagination.rs:26-32 | Every accepted cursor is the encoding of what it decodes to: a lone last symbol, an unknown symbol or non-zero spare bits are refused. |
| `Cursors.CursorRoundTrip` | wacp-console/crates/console-api/src/pagination.rs:26-47 | A cursor made from a sort key is itself text and decodes to that key. |
| `Pagination.PageSize` | wacp-console/crates/console-api/src/pagination.rs:21-23 | A page is a prefix of what lies past the cursor, as long as asked but at least 1 and at most 200, and 50 by default, unless the list ends first; a cursor is given exactly when more follows. |
| `Pagination.PageHolds` | wacp-console/crates/console-api/src/pagination.rs:53-85 | On a sorted list a page ascends, lies past its cursor, and misses nothing between its cursor and the next. |
| `Pagination.WalkAscends` | wacp-console/crates/console-api/src/pagination.rs:53-85 | Following cursors through lists that change between requests yields strictly ascending keys. |
| `Pagination.EndedWalkIsComplete` | wacp-console/crates/console-api/src/pagination.rs:53-85 | A walk that ended has returned every item present throughout exactly once. |
| `Pagination.SteadyWalk` | wacp-console/crates/console-api/src/pagination.rs:53-85 | On an unchanged list the pages are consecutive slices, and the whole list has been returned exactly when a page announces no more. |
| `Pagination.SteadyWalkEnds` | wacp-console/crates/console-api/src/pagination.rs:66-78 | A walk over an unchanged list ends within one request per item and one more. |
| `TaskGraph.Tasks.AddTask` | wacp/crates/wacp-coordinator/src/task_graph.rs:55-87 | Accepted exactly if the id is new and all dependencies are present; the counter is the number of non-terminal ones; a missing dependency is named and leaves exactly the edges of those before it. |
| `TaskGraph.Tasks.Transition` | wacp/crates/wacp-coordinator/src/task_graph.rs:98-111 | A task moves by its lifecycle or not at all, and nothing else changes. |
| `TaskGraph.Tasks.MarkCompleted` | wacp/crates/wacp-coordinator/src/task_graph.rs:116-131 | Each counter drops by its number of edges, saturating at zero, and the report names a task once per time its counter is seen at zero. |
| `TaskGraph.Tasks.Roots` | wacp/crates/wacp-coordinator/src/task_graph.rs:217-223 | Exactly the parentless tasks, in any order. |
| `TaskGraph.Tasks.Snapshot` | wacp/crates/wacp-coordinator/src/handler.rs:267-299 | The breadth-first walk terminates although its queue may hold duplicates, and lists exactly the present tasks reachable from the roots, each once. |
| `TaskGraphLaws.HistoryIsOrdered` | wacp/crates/wacp-coordinator/src/task_graph.rs:55-87 | After any calls every edge leads from a present task to one added later or never: the graph is acyclic. |
| `TaskGraphLaws.HistoryIsClosed` | wacp/crates/wacp-coordinator/src/task_graph.rs:55-131 | After any calls every dependency is present and has an edge to its dependent, and every task has a counter. |
| `TaskGraphLaws.SnapshotIsComplete` | wacp/crates/wacp-coordinator/src/handler.rs:266-299 | After any calls the snapshot lists every task if and only if every task no edge leads to has no parent. |
| `TaskGraphLaws.SourcelessIsDependencyFree` | wacp/crates/wacp-coordinator/src/handler.rs:266-299 | On exact edges the tasks no edge leads to are those without dependencies. |
| `TaskGraphLaws.SubtaskIsNotListed` | wacp/crates/wacp-coordinator/src/handler.rs:266-299 | A concrete history of a task and its subtask whose snapshot misses the subtask. |
| `TaskGraphLaws.AddKeepsExact` | wacp/crates/wacp-coordinator/src/task_graph.rs:63-82 | Adding keeps edges and dependencies in exact correspondence, with multiplicity, unless it fails after its first dependency was found. |
| `TaskGraphLaws.FinishKeepsCounted` | wacp/crates/wacp-coordinator/src/task_graph.rs:113-131 | A task that ends and is reported leaves every counter right if and only if no dependent has surplus edges that still find something to take away. |
| `TaskGraphLaws.NewlyReadyIsRight` | wacp/crates/wacp-coordinator/src/task_graph.rs:113-131 | The report then names, each once, exactly the waiting tasks whose dependencies are now all terminal. |
| `TaskGraphLaws.CounterAfterAnyCalls` | wacp/crates/wacp-coordinator/src/task_graph.rs:55-131 | After any calls whatever a counter is the number of dependencies open when its task was added, less the edges to it from every task reported since, and not below zero. |
| `TaskGraphLaws.DispatchableAfterAnyCalls` | wacp/crates/wacp-coordinator/src/task_graph.rs:184-199 | After any calls whatever a task is dispatchable if and only if it is pending and the edges from the tasks reported since its addition are at least as many as its dependencies then open. |
| `TaskGraphLaws.UnreportedEndingsStall` | wacp/crates/wacp-runtime/src/coordinator_service.rs:286-306 | Where no ending is reported, a task added with an open dependency is never dispatchable. |
| `TaskGraphLaws.CarefulRunsCountRight` | wacp/crates/wacp-coordinator/src/task_graph.rs:24-28 | For a client that adds cleanly and reports each task as it ends, every counter is the number of non-terminal dependencies, always. |
| `TaskGraphLaws.DispatchableIffDepsEnded` | wacp/crates/wacp-coordinator/src/task_graph.rs:184-199 | For such a client a task is dispatchable exactly when it is pending and all its dependencies are terminal. |
| `TaskGraphLaws.LeftoverEdgesReleaseEarly` | wacp/crates/wacp-coordinator/src/task_graph.rs:63-73 | A concrete history after which a task is dispatchable although a dependency has not ended. |
| `GateController.NameInjective` | wacp/crates/wacp-coordinator/src/gate.rs:83 | Different numbers give different gate ids. |
| `GateController.Controller.OpenGate` | wacp/crates/wacp-coordinator/src/gate.rs:75-113 | The new state and the event of opening a task gate, defaults filled in. |
| `GateController.Controller.Resolve` | wacp/crates/wacp-coordinator/src/gate.rs:116-126 | A response settles a pending task gate by its decision and does nothing otherwise. |
| `GateController.Controller.TimeOut` | wacp/crates/wacp-coordinator/src/gate.rs:130-139 | A timeout settles a pending task gate by its own fallback and does nothing otherwise. |
| `GateController.Controller.OpenCheckpointGate` | wacp/crates/wacp-coordinator/src/gate.rs:164-204 | The new state and the event of opening a checkpoint gate from the same counter. |
| `GateController.Controller.ResolveCheckpoint` | wacp/crates/wacp-coordinator/src/gate.rs:212-214 | A pending checkpoint gate is handed out and removed; anything else yields nothing. |
| `GateController.StateMatchesCalls` | wacp/crates/wacp-coordinator/src/gate.rs:55-214 | After any calls the two maps hold exactly the gates opened and not settled since, described as their opening call did. |
| `GateController.Run` | wacp/crates/wacp-coordinator/src/gate.rs:63-214 | Over any calls in any order each reply is what the calls before it determine, and opened equals pending plus settled. |
| `GateController.GatesAreConserved` | wacp/crates/wacp-coordinator/src/gate.rs:63-214 | Opened equals pending of both kinds plus settled, after any calls. |
| `GateController.IssuedIdsDiffer` | wacp/crates/wacp-coordinator/src/gate.rs:47-54 | No two openings, of either kind, give out the same id. |
| `GateController.KindsAreDisjoint` | wacp/crates/wacp-coordinator/src/gate.rs:47-61 | No id is pending in both maps. |
| `GateController.SettledAtMostOnce` | wacp/crates/wacp-coordinator/src/gate.rs:115-139 | A gate is settled at most once, across responses, timeouts and checkpoint resolutions in any order. |
| `TaxonomyIndex.Builder.constructor` | wacp-console/crates/console-core/src/taxonomy_builder.rs:63-107 | The index starts with the three base roles. |
| `TaxonomyIndex.Builder.InsertTaxonomy` | wacp-console/crates/console-core/src/taxonomy_builder.rs:165-189 | Every derived role of the protocol taxonomy overrides or joins the roles. |
| `TaxonomyIndex.Builder.InsertTools` | wacp-console/crates/console-core/src/taxonomy_builder.rs:270-282 | Each tool name maps to its last listed description, its policy and all roles of the vertical. |
| `TaxonomyIndex.Builder.CrossLink` | wacp-console/crates/console-core/src/taxonomy_builder.rs:284-316 | Whatever the hash order, each checkpoint type lists exactly the tools that need it in ascending order, and each tool with an undeclared type gives one warning. |
| `TaxonomyIndex.Builder.InsertVertical` | wacp-console/crates/console-core/src/taxonomy_builder.rs:231-345 | One manifest's roles, tools, entry and warnings, relative to the index before it. |
| `TaxonomyIndex.Builder.InsertFailed` | wacp-console/crates/console-core/src/taxonomy_builder.rs:347-372 | A failed vertical becomes an empty stub carrying its error, over any earlier entry. |
| `TaxonomyLaws.BuildIndex` | wacp-console/crates/console-core/src/taxonomy_builder.rs:24-61 | The returned index has no dangling name and is the result of the insertions in order, stubs last; the warnings are those of the manifests in turn. |
| `TaxonomyLaws.BuiltIndexIsLinked` | wacp-console/crates/console-core/src/taxonomy_builder.rs:24-345 | For all inputs, duplicates included, every role named by a tool or vertical and every tool named by a role is in the index. |
| `TaxonomyLaws.VerticalKeepsSymmetric` | wacp-console/crates/console-core/src/taxonomy_builder.rs:247-282 | Inserting a vertical keeps roles and tools naming each other exactly when no role or tool it leaves in place names one of its own. |
| `TaxonomyLaws.BuiltIndexIsSymmetricIff` | wacp-console/crates/console-core/src/taxonomy_builder.rs:41-43 | Over a whole list of manifests, roles and tools name each other if and only if every manifest that has a role and a tool is the last with the one exactly when it is the last with the other. |
| `TaxonomyLaws.PolicyLandsOnce` | wacp-console/crates/console-core/src/taxonomy_builder.rs:297-311 | A tool that needs a checkpoint is listed once by that type and by no other, or is the subject of one warning. |
| `TaxonomyLaws.OthersDoNotLand` | wacp-console/crates/console-core/src/taxonomy_builder.rs:297-311 | A tool whose policy needs no checkpoint type is neither listed nor warned about. |
| `TaxonomyLaws.IndexIsDetermined` | wacp-console/crates/console-core/src/taxonomy_builder.rs:313-316 | Two builds from the same inputs return the same roles, tools and verticals, whatever order the maps are read in; capabilities are compared as sets. |
| `TaxonomyLaws.WarningsAreDetermined` | wacp-console/crates/console-core/src/taxonomy_builder.rs:297-311 | Two builds give the same warnings up to order. |
| `NameOrder.Sort` | wacp-console/crates/console-core/src/taxonomy_builder.rs:244 | The result is sorted and a permutation of the list. |
| `NameOrder.Dedup` | wacp-console/crates/console-core/src/taxonomy_builder.rs:245 | On a sorted list the result ascends strictly and has the same elements. |
| `NameOrder.AscendingIsUnique` | wacp-console/crates/console-core/src/taxonomy_builder.rs:313-316 | A strictly ascending list is determined by its elements. |

## Left out

- gRPC, REST, WebSocket and SQLite plumbing: remote calls and queries are arbitrary outcomes, the database is one atomic table, and time stamps written to rows are not modelled.
- Authentication, authorization, audit, rate limiting, settings, profile and session validation: finite tables or per-field checks; validation is an arbitrary verdict of the launch route.
- The user interface, generated types, JSON and YAML text: parsed bodies are abstract values.
- Liveness: nothing is claimed about when streams deliver, nor about the exact contents of the active-sessions map between a monitor's exit and its watchdog.
- TaskGraphLaws.CarefulRunsCountRight: stated for clients that add cleanly and report each ending; for all calls `TaskGraphLaws.CounterAfterAnyCalls` says what the counter is.
- TaskGraphLaws.DispatchableIffDepsEnded: stated for the same clients, because for others the documented equivalence is false; for all calls `TaskGraphLaws.DispatchableAfterAnyCalls` gives the exact condition.
- `LaunchSaga`: goal text, directives, capabilities and reason codes carried by the calls are not modelled; identifiers are opaque numbers.
- `StartupRecovery.Console.Run`: no other task acts on the table between its steps; interleavings are the subject of `SessionWorld`.
- `HybridClock`: the time source is a parameter of each call, so backward jumps are covered; reading the operating system clock is not modelled.
- `CivilDate`: day numbers are unbounded; the source's 64-bit addition overflows only for day numbers within 719468 of 2^64.
- `TaskGraph`: the readiness counter is unbounded where the source has 32 bits; workspace bindings, names and `mark_failed` would only add easy members.
- `GateController`: the id counter is unbounded where the source has 64 bits; strings stand for the bytes of a subject; lookups that only read are left out.
- `TaxonomyIndex`: envelope types, protocol checkpoint types and pass-through manifest fields are left out; capabilities are a set, because the source lists a hash set in an unspecified order.
- `Fingerprint`: the hexadecimal rendering of the hash is left out.
- The task lifecycle appears as it affects the graph; the workspace and envelope lifecycles, the workspace tree, topologies and dispatch are left out.
