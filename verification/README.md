# zwrt-datad in Dafny

This project models the parts of the router daemon zwrt-datad whose correctness
is a claim about every run or about every byte string, and proves those claims.
`dafny verify dfyconfig.toml` checks all of it.

| file | what it models |
|---|---|
| `NetworkRecovery.dfy` | the persistent, rate-limited recovery controller: its saved state, its load filter, and every operation, as functions on a value and as the class `Recovery` |
| `RecoveryRuns.dfy`, `RecoveryAccounts.dfy`, `RestartWitness.dfy` | runs of the controller measured in elapsed time, with failed saves, restarts and clock changes; what an onlooker counts beside them |
| `NetworkGate.dfy`, `GatePause.dfy`, `GateOrder.dfy`, `GateWitness.dfy` | the gate between manual network actions and automatic recovery, the pause, and when a manual action can run between a plan's issue and its execution |
| `NatDetection.dfy`, `NatTruth.dfy`, `NatWatcher.dfy` | RFC 5780 NAT discovery, the NAT it talks through, and the pacing of automatic detections |
| `QosLog.dfy`, `QosCache.dfy`, `QosLines.dfy` | the incremental reader of one log file, the two-file cache with rotation, truncation and clearing, and which lines are kept |
| `Fcs16.dfy`, `DiagFramer.dfy` | the frame check of RFC 1662 and the streaming deframer |
| `NeighborCells.dfy`, `NeighborOrder.dfy`, `NeighborTable.dfy` | the rings, the frequency join, the cell table and its order, and what a reported cell says of its records |
| `Hosts.dfy` | compare-and-swap on the hosts file, with other writers and an editor interleaved |
| `Journal.dfy`, `JournalPages.dfy` | the activity journal, its file, and paging through it |
| `Bridge.dfy` | admission of remote sessions |
| `CoolingCurve.dfy`, `CoolingConfig.dfy` | the fan curve, and the cooling configuration as text |
| `Lan.dfy` | LAN and DHCP validation |
| `Common.dfy` | `Option`, byte and 64-bit types, digit counts, a few facts of arithmetic |

Where the source changes things in place the model does too: the classes
`Recovery`, `Executor`, `Watcher`, `LogCache`, `Cache`, `LogFiles`, `Framer`,
`Rings`, `Store`, `ActivityJournal`, `Manager` and `Controller` carry the source's fields, and each method is
proved equal to a function of the old value. The theorems are then about those
functions, over all runs.

## What the environment decides

- Whether a write succeeds (`saved`, `synced`), whether an existing hosts backup
  passes its checks (`valid`), what the clocks read, what a
  probe or a server answered, and which step comes next are parameters.
- A wall-clock reading is positive and below 2^63. Outside announced changes it
  may lag behind elapsed time or step back, but never gains on it. A restart
  happens only when no announced change is waiting to be absorbed;
  `UnabsorbedRestartBreaksSpacing` shows that this is needed.
- The verdict of the URL library on a probe address is a flag of the address.
- The NAT allocates external addresses injectively; a reply reaches the wire only
  if the NAT's filter admits its source, and the socket only if the device
  firewall does too. Anything may be lost.
- Each write to a log leaves a modification time of its own, and a file does not
  change during one refresh.
- A write that reported success survives a crash. The source syncs the new file
  but not the directory after the rename, so the durability of that rename is
  assumed.
- The SHA-256 revision of a hosts file determines its content.
- What `process` makes of a frame is left to its consumer: the framer records
  each payload it hands over.
- Signals and medians are reals; addresses in `Lan` are numbers below 2^32 with
  bit operations defined bit by bit.

## Where the code falls short of its promise

- Recovery: a restart before an announced clock change is absorbed skips the fresh
  cooldown, and plans can then be closer than 180 seconds
  (`UnabsorbedRestartBreaksSpacing` is a run with 120). `SpacingSurvivesExactly`:
  while the connection stays down and nobody intervenes, no plan follows within 180
  seconds of the last one exactly when every reading of the new clock, from the end
  of the start-up wait to the end of those seconds, is behind the recorded times or
  refused by the budgets. `UnabsorbedRestartPlansExactly` says the same for each
  single waiting time.
- Gate: a plan issued while a manual action is at work is not cancelled when that
  action ends. `OvertakenExactly`: a manual action ends between a plan's issue and
  its execution exactly when one with a recorded intent held the gate at the issue
  and was not given up. `BriefSufficesExactly`: this cannot happen to actions
  shorter than a limit exactly when the limit is at most 120 seconds. The witness
  is `apn.enable`, whose confirmation reads the device back in a loop.
- QoS cache: a log cut back and refilled past the read offset with both guards
  intact is taken for an append. `RefreshAgrees`: all refreshes of a run agree with
  the files exactly when none of them meets such a log whose octets as read, with
  the line left open at their end completed from the file, hold other tagged lines
  than the file does up to there. `DeceivedByLines` gives the condition on the
  overwritten octets alone, and `DisguisedRunDisagrees` a run.
- Hosts: an edit between the second check and the rename is overwritten.
  `ReplacementsLoseNothingExactly`: in every run a replacement loses nothing exactly
  when there was no such edit, or the last one left the named revision and, for a
  save, the attributes first read.
- Journal: `push` cuts the task to 80 characters, `load` rejects more than 80
  bytes, and one such entry loses the whole journal (`LongTaskLosesJournal`).
  `AppendReloads` gives the exact condition on an event, and `RunsSurviveWithinSizes`
  the same for whole runs.
- Remote sessions: an id is remembered for 43200 seconds of boot time. The longest
  lifetime a request may ask for is the same 43200 seconds, and its timer starts
  after the id was remembered, so such a session outlasts the memory of its id; and
  since boot time includes suspend while the timer may not, a suspend can do the
  same to a shorter one. The id can then be opened again, and when the first of the
  two ends the second is no longer counted. `FourSufficeExactly`: four sessions are
  the bound exactly when every session ends, in boot time, before the memory of its
  id does.

## Model

| member | source | states |
|---|---|---|
| `NetworkRecovery.DefaultIsValid` | rust/src/network_recovery.rs:63-90 | the built-in configuration, with its three addresses, passes its own validation |
| `NetworkRecovery.ValidExactly` | rust/src/network_recovery.rs:76-90 | which configurations are accepted: the bounds, 1 to 4 acceptable addresses, and no two alike |
| `NetworkRecovery.LowerExactly` | rust/src/network_recovery.rs:76-90 | addresses count as alike exactly when they differ in the case of ASCII letters only |
| `NetworkRecovery.AbsorbedExactly` | rust/src/network_recovery.rs:264-292 | absorbing a clock change moves every recorded time to the present, restarts cooldown, start-up wait and counts and cancels plans; if it cannot be saved, it only blocks |
| `NetworkRecovery.InBoundsFits` | rust/src/network_recovery.rs:178-206 | every state within the bounds of the load filter also fits the 4096-byte limit of the file, whatever its addresses and times |
| `NetworkRecovery.PlansAreBookedFirst` | rust/src/network_recovery.rs:309-369 | when `observe` returns a plan, the file already holds a state that will load, with this action's time, cooldown and counter in it, and the plan is allowed |
| `NetworkRecovery.Recovery.Load` | rust/src/network_recovery.rs:178-196 | the state after start-up for a missing, unreadable, rejected or accepted file |
| `NetworkRecovery.Recovery.Store` | rust/src/network_recovery.rs:197-206 | a failed write changes neither file nor state but blocks plans; a successful one installs both |
| `NetworkRecovery.Recovery.SetConfig` | rust/src/network_recovery.rs:223-235 | an invalid configuration changes nothing; a saved one cancels plans and waits 120 seconds; the state stays in bounds |
| `NetworkRecovery.Recovery.Resume` | rust/src/network_recovery.rs:236-246 | a saved resume lifts the pause, resets the redial counter and cancels plans |
| `NetworkRecovery.Recovery.RecordIntent` | rust/src/control.rs:180-190 | the generation advances whether or not the pause could be saved; only a saved pause is kept |
| `NetworkRecovery.Recovery.MayProbe` | rust/src/network_recovery.rs:264-303 | the whole new state and verdict, including absorption of an announced clock change and its failure |
| `NetworkRecovery.Recovery.Hold` | rust/src/network_recovery.rs:304-308 | both counters are reset and nothing else but the status changes |
| `NetworkRecovery.Recovery.ObserveOffline` | rust/src/network_recovery.rs:324-369 | threshold, cooldown, hourly budget, reboot spacing, booking and saving of an offline verdict |
| `NetworkRecovery.Recovery.Observe` | rust/src/network_recovery.rs:309-369 | one observation, from `may_probe` to the plan, as a function of the old state |
| `NetworkRecovery.Recovery.Permits` | rust/src/network_recovery.rs:370-375 | a plan is allowed exactly when storage works, recovery is enabled and unpaused, and the generation is current |
| `RecoveryRuns.QuietStep` | rust/src/network_recovery.rs:223-235 | an operation that keeps the budgets and at most postpones the next plan keeps the invariant |
| `RecoveryRuns.AbsorbStep` | rust/src/network_recovery.rs:264-292 | absorbing a clock change, saved or not, keeps every recorded time no older than the plan it stands for |
| `RecoveryRuns.LedgerAfterRecent` | rust/src/network_recovery.rs:331-343 | dropping times older than an hour never drops a plan of the last elapsed hour |
| `RecoveryRuns.HistoryGrows` | rust/src/network_recovery.rs:331-360 | a plan that passes the checks of `observe` keeps all distances promised to all earlier plans |
| `RecoveryRuns.IssueStep` | rust/src/network_recovery.rs:331-369 | issuing a plan keeps the invariant that ties recorded times to elapsed ones |
| `RecoveryRuns.ObserveStep` | rust/src/network_recovery.rs:309-369 | every observation, online or not, probed or refused, saved or not, keeps the invariant |
| `RecoveryRuns.SavedReloads` | rust/src/network_recovery.rs:178-196 | a file written by any operation is accepted and restores the state in memory |
| `RecoveryRuns.RestartStep` | rust/src/network_recovery.rs:178-196 | a crash followed by `load` keeps the invariant |
| `RecoveryRuns.StepKeepsInv` | rust/src/network_recovery.rs:178-369 | every step of a run keeps the invariant |
| `RecoveryRuns.RunKeepsInv` | rust/src/network_recovery.rs:178-369 | every legal run keeps the invariant |
| `RecoveryRuns.SavedStatesReload` | rust/src/network_recovery.rs:178-206 | after any run, reloading gives exactly the state in memory, and the saved state passes the load filter |
| `RecoveryRuns.AtMostFivePlansAnHour` | rust/src/network_recovery.rs:309-369 | in every run any window of 3600 elapsed seconds holds at most five plans |
| `RecoveryRuns.PlansAreSpaced` | rust/src/network_recovery.rs:264-369 | in every run any two plans are 180 elapsed seconds apart, or the cooldown in force when no clock change lies between them; any two reboots 21600 seconds |
| `RecoveryRuns.RebootsAreEarned` | rust/src/network_recovery.rs:236-369 | in every run a reboot is planned only after the configured number of redials since the last reset of the counter |
| `RecoveryAccounts.PermittedExactly` | rust/src/network_recovery.rs:264-303 | when a probe is permitted, field by field |
| `RecoveryAccounts.BudgetsAllowExactly` | rust/src/network_recovery.rs:331-352 | when the budgets allow a plan: the cooldown over, fewer than five recorded times in the last hour, and a redial left or a reboot due |
| `RecoveryAccounts.PlansExactlyAfterFailures` | rust/src/network_recovery.rs:309-369 | after any run a step plans exactly when it is the offline verdict that fills the configured number since the last online verdict, hold, intent, resume, configuration, absorbed clock change, restart or plan, the budgets allow it and it is saved; verdicts are counted from the steps |
| `RecoveryAccounts.PlansWaitAfterActs` | rust/src/network_recovery.rs:178-303 | in every run 120 elapsed seconds or more lie between a plan and the last start, intent, saved resume or configuration, or absorbed clock change |
| `RecoveryAccounts.RedialsComeBackExactly` | rust/src/network_recovery.rs:314-323 | in every run an observation gives the redials back exactly from the second online verdict in a row on, and takes one exactly when it plans a redial |
| `RestartWitness.FailuresPlanExactly` | rust/src/network_recovery.rs:309-369 | a controller that may probe and sees only failures plans, at the threshold, exactly when the clock is not behind its records and no budget refuses |
| `RestartWitness.UnabsorbedRestartPlansExactly` | rust/src/network_recovery.rs:178-196 | for every reachable world, every new clock and every wait of 120 seconds or more: after a restart before the change is absorbed, failures lead to a plan at the end of the wait exactly when the recorded times, read by that clock, allow it |
| `RestartWitness.RestartPlansNothingExactly` | rust/src/network_recovery.rs:178-369 | over all runs of time, offline verdicts, failed saves and refused probes after such a restart: nothing is planned within a given time exactly when no reading of the new clock in that time lets the recorded times plan |
| `RestartWitness.SpacingSurvivesExactly` | rust/src/network_recovery.rs:178-369 | the spacing of 180 seconds from the last plan survives such a restart exactly then |
| `RestartWitness.UnabsorbedRestartBreaksSpacing` | rust/src/network_recovery.rs:178-196 | a concrete reachable run: with such a restart two plans are 120 seconds apart |
| `NetworkGate.Executor.Lock` | rust/src/control.rs:173-179 | a network action takes the gate, which must be free |
| `NetworkGate.Executor.RecordIntent` | rust/src/control.rs:180-190 | the intent of the action that holds the gate, with what its caller does when it cannot be saved |
| `NetworkGate.Executor.Finish` | rust/src/control.rs:191-191 | the manual action runs and gives the gate back |
| `NetworkGate.Executor.Execute` | rust/src/control.rs:173-191 | a manual action that nobody interrupts: the controller's new state, the gate free again, and the two events it leaves |
| `NetworkGate.Executor.ExecuteRecovery` | rust/src/control.rs:193-202 | a plan runs under the gate exactly when it is still allowed; otherwise only the gate is given back |
| `NetworkGate.RecoveryEffect` | rust/src/network_recovery.rs:223-369 | no recovery step turns the generation back, and only a saved resume touches the pause |
| `NetworkGate.StaysBlocked` | rust/src/network_recovery.rs:247-369 | once an intent is recorded, no later step lets recovery plan within 120 elapsed seconds |
| `NetworkGate.RecordAct` | rust/src/control.rs:173-191 | recording an intent makes every plan in flight stale, also when the pause cannot be saved |
| `NetworkGate.RunningIsJustified` | rust/src/control.rs:193-202 | a plan that passed the check under the gate is uncancelled when it runs |
| `NetworkGate.ActKeepsInv` | rust/src/control.rs:173-202 | every act of the gate and of recovery keeps the invariant |
| `NetworkGate.AutomaticActionsAreJustified` | rust/src/control.rs:173-202 | in every interleaving an automatic action runs only with no intent recorded since its plan was issued and no saved pause in force, restarts included; any manual action that ended since had announced itself 120 seconds or more before the plan |
| `NetworkGate.NetworkActionsExactly` | rust/src/network_recovery.rs:25-45 | which actions take the gate |
| `GatePause.IntentsPauseExactly` | rust/src/network_recovery.rs:247-263 | a saved "cellular.disconnect" or "device.poweroff" pauses, a saved "cellular.connect" lifts the pause, no other action touches it |
| `GatePause.StepsPauseExactly` | rust/src/network_recovery.rs:178-375 | nothing else but a saved resume changes the pause, restarts included |
| `GatePause.NothingRunsWhileCutOff` | rust/src/control.rs:173-202 | in every interleaving no automatic action runs between a saved "cellular.disconnect" or "device.poweroff" and the next saved "cellular.connect" or resume |
| `GateOrder.ActKeepsBook` | rust/src/control.rs:173-202 | for every plan not cancelled, the action that held the gate at its issue is at work, has ended or was given up, and no other ran |
| `GateOrder.OvertakenExactly` | rust/src/control.rs:173-202 | in every interleaving a manual action ends between the issue of a plan and its execution exactly when one with a recorded intent held the gate at the issue and was not given up |
| `GateOrder.BriefActionsCancel` | rust/src/control.rs:173-202 | if every manual action ends less than 120 seconds after its intent, none ends between a plan's issue and its execution |
| `GateWitness.SlowManualActionDoesNotCancel` | rust/src/control.rs:173-202 | a concrete interleaving in which a plan issued during a manual action of 120 seconds is executed after it |
| `GateWitness.BriefSufficesExactly` | rust/src/control.rs:173-202 | actions shorter than a limit are never overtaken exactly when the limit is at most 120 seconds |
| `NatDetection.Evaluate` | rust/src/nat.rs:478-501 | the loop over the port tests gives the verdict: a changed address wins, then one changed port, then silence |
| `NatDetection.VerdictExactly` | rust/src/nat.rs:466-501 | the verdict in terms of who answered from where: answers that ignore the request count for nothing, and when all do the verdict is unknown |
| `NatDetection.PublicExactly` | rust/src/nat.rs:113-132 | public addresses as numbers outside the reserved blocks |
| `NatDetection.AlternateExactly` | rust/src/nat.rs:420-426 | when a server serves for RFC 5780 tests |
| `NatDetection.MainExactly` | rust/src/nat.rs:594-598 | the main server is the first that does, or else the first |
| `NatDetection.FallbackDecides` | rust/src/nat.rs:632-648 | without an alternate address any answering server elsewhere still decides whether the mapping depends on the target |
| `NatDetection.EarlyStopIsExact` | rust/src/nat.rs:503-553 | stopping early gives both verdicts that testing every remaining server would give, whatever it would answer |
| `NatDetection.CarrierNotStricter` | rust/src/nat.rs:336-382 | when both verdicts are known the carrier's is never stricter than the device's |
| `NatDetection.Filtering` | rust/src/nat.rs:514-553 | the probing loop returns the verdicts of all tests and the log of the requests really sent |
| `NatDetection.Detect` | rust/src/nat.rs:594-676 | choice of the main server, filtering first, the mapping tests with their fallback, and the classes reported |
| `NatTruth.SocketsStayApart` | rust/src/nat.rs:594-598 | choosing the main probe with `swap_remove` leaves every probe a socket of its own, as the theorems below require |
| `NatTruth.WhatSilenceCannotHide` | rust/src/nat.rs:466-501 | a reply from a changed address or port proves how open the filter is |
| `NatTruth.VerdictIsCautious` | rust/src/nat.rs:466-553 | no filtering verdict is more open than the filter, under any loss and any server behaviour |
| `NatTruth.MappingIsTrue` | rust/src/nat.rs:615-648 | every definite mapping verdict is the NAT's mapping |
| `NatTruth.DetectionIsSound` | rust/src/nat.rs:594-652 | both together for a whole detection, and the carrier verdict is not stricter than the device verdict |
| `NatTruth.ClassesAreSound` | rust/src/nat.rs:93-109 | under any loss and any servers, both reported classes and levels follow from the verdicts as named, and a class that promises something is true of the path: no openness without an open filter, no cone without an independent mapping |
| `NatTruth.DetectionIsExact` | rust/src/nat.rs:93-109 | without loss and with an obedient main server the reported class is exactly the NAT's class |
| `NatTruth.MappingFirstWouldMislead` | rust/src/nat.rs:605-614 | with the mapping tests first, the strictest filter would look open |
| `NatWatcher.Watcher.Check` | rust/src/nat.rs:759-790 | when a detection is due, and what a change of addresses resets |
| `NatWatcher.Watcher.Record` | rust/src/nat.rs:791-797 | the next retry after each failure |
| `NatWatcher.EveryPeriodIsPaced` | rust/src/nat.rs:44-51 | in every run of ticks each period of unchanged addresses has at most four detections, none within 30 seconds of the change, and the waits of 60, 300 and 900 seconds after failures |
| `NatWatcher.DetectionsComeExactly` | rust/src/nat.rs:759-797 | in every run an unhindered tick detects exactly from 30 seconds on, and after a failure exactly from 60, 300 and 900 seconds on |
| `QosLog.ParseAppend` | rust/src/qos.rs:139-156 | reading on needs only the lines and the partial line kept so far |
| `QosLog.GuardsGrow` | rust/src/qos.rs:48-65 | updating both guards with new bytes gives the first and the last 64 bytes of the whole |
| `QosLog.ReadLines` | rust/src/qos.rs:159-193 | the line loop of `load` gives guards, tagged lines and partial line of the content |
| `QosLog.SplitComplete` | rust/src/qos.rs:139-156 | splitting at the last newline gives the tagged lines and the rest |
| `QosLog.LogCache.Load` | rust/src/qos.rs:159-193 | what a fresh load holds, for a missing file too |
| `QosLines.HasTagExactly` | rust/src/qos.rs:147-153 | a line counts as data exactly when `[DATA]` stands somewhere in it |
| `QosLines.SplitsOnce` | rust/src/qos.rs:159-193 | a text splits into lines and a rest in one way only |
| `QosLines.LoadKeepsTaggedLines` | rust/src/qos.rs:159-193 | a fresh load keeps, in order, exactly the lines of the file with `[DATA]` in them, what stands behind the last newline, and the first and last 64 octets |
| `QosLines.RefreshKeepsTaggedLines` | rust/src/qos.rs:254-280 | so does every refresh that is not deceived |
| `QosLog.LogCache.PushCompleteLines` | rust/src/qos.rs:139-156 | lines and partial line after more bytes, nothing else changed |
| `QosLog.LogCache.GuardsStand` | rust/src/qos.rs:207-229 | whether both guards still stand where they were read |
| `QosLog.LogCache.Append` | rust/src/qos.rs:195-244 | when an append is accepted, and the whole new state; a refusal changes nothing |
| `QosLog.ExtendingIsLoading` | rust/src/qos.rs:195-244 | appending to what was read from a prefix gives what loading the whole file gives, guards and offset included |
| `QosLog.PrefixKeepsGuards` | rust/src/qos.rs:195-244 | a log that only grew is never refused for its guards |
| `QosLog.ReadingOnExactly` | rust/src/qos.rs:139-156 | reading on from any octets gives what the whole file gives exactly when those octets, with the line left open at their end completed from the file, parse as the file does up to there |
| `QosLog.ExtendingExactly` | rust/src/qos.rs:195-244 | an accepted append gives what a fresh load gives, guards and offset included, exactly then |
| `QosCache.Cache.Reload` | rust/src/qos.rs:248-253 | both files loaded afresh |
| `QosCache.Cache.Refresh` | rust/src/qos.rs:254-280 | which of reload, append and nothing happens, and the new state |
| `QosCache.Cache.Invalidate` | rust/src/qos.rs:98-104 | the cache is as new |
| `QosCache.RefreshIsReload` | rust/src/qos.rs:254-280 | in every state reached by agreeing refreshes, the next refresh leaves lines, partial line, offset, guards and stamps as a fresh load of both files would, exactly when it does not meet a disguised log whose overwritten octets read differently |
| `QosCache.RefreshAgrees` | rust/src/qos.rs:247-280 | in every run of appends, rotations, truncations, invalidations and refreshes, all refreshes agree with the files exactly when none meets such a log |
| `QosCache.DeceivedByLines` | rust/src/qos.rs:195-280 | with a newline in the tail guard a disguised log deceives exactly when the tagged lines below the offset differ; with no newline appended, exactly when the overwritten octets parse differently |
| `QosCache.LogFiles.Clear` | rust/src/control.rs:2612-2631 | both logs that exist are cut to nothing and the cache is dropped; after a failure the earlier cut stands and the cache is left alone |
| `QosCache.ClearedMeansEmpty` | rust/src/control.rs:2612-2631 | after a clear the next refresh finds nothing, whatever happened before |
| `QosCache.DisguisedRunDisagrees` | rust/src/qos.rs:195-280 | a run of the cache (read, cut back, refilled with both guards intact) after which a refresh does not agree with the files |
| `Fcs16.CheckFcs` | rust/src/neighbor.rs:499-508 | the bit loop computes the check sequence and compares it with 0xf0b8 |
| `Fcs16.TrailedFrameIsValid` | rust/src/neighbor.rs:499-508 | data followed by its complemented check sequence, low octet first, is accepted |
| `Fcs16.ValidMeansTrailed` | rust/src/neighbor.rs:499-508 | only such frames are accepted |
| `Fcs16.AlteredOctetIsCaught` | rust/src/neighbor.rs:499-508 | changing any single octet of an accepted frame makes it rejected |
| `DiagFramer.Framer.EndFile` | rust/src/neighbor.rs:107-119 | an unfinished frame counts as malformed, another capture's end changes nothing |
| `DiagFramer.Framer.Accept` | rust/src/neighbor.rs:129-164 | what one octet does in each state |
| `DiagFramer.Framer.Feed` | rust/src/neighbor.rs:120-165 | one read, with the switch from another capture |
| `DiagFramer.ChunkingIsIrrelevant` | rust/src/neighbor.rs:120-165 | any division of a stream into reads ends in the same state |
| `DiagFramer.FlagResynchronises` | rust/src/neighbor.rs:130-147 | one flag returns the framer to idle from any state |
| `DiagFramer.FrameExactly` | rust/src/neighbor.rs:129-164 | what stands between two flags is delivered exactly when it has 3 to 65536 octets and ends in its own check sequence, and otherwise counted as malformed once; two flags in a row are nothing |
| `DiagFramer.AbortedFrameIsDropped` | rust/src/neighbor.rs:129-147 | an escape right before the flag aborts the frame |
| `DiagFramer.CaptureStartsClean` | rust/src/neighbor.rs:107-165 | a read from another capture delivers exactly its fitting frames, numbered on, with one more malformed count exactly when something stood unfinished |
| `DiagFramer.FrameIsDelivered` | rust/src/neighbor.rs:120-165 | an encoded frame fed to an idle framer delivers exactly its payload, once, if it has 1 to 65534 octets, and otherwise adds one malformed count; every admissible choice of extra escapes |
| `DiagFramer.FramesAreDelivered` | rust/src/neighbor.rs:120-165 | the same for any sequence of frames |
| `DiagFramer.GarbageIsContained` | rust/src/neighbor.rs:120-165 | flag-free garbage costs at most the frame between two flags; all frames before and after are delivered |
| `NeighborCells.Rings.PushDirect` | rust/src/neighbor.rs:87-96 | the ring holds the newest 4096 anchors pushed; the count of recent ones lost |
| `NeighborCells.Rings.PushSample` | rust/src/neighbor.rs:97-106 | the same for samples |
| `NeighborCells.Scan` | rust/src/neighbor.rs:312-333 | the loop over anchors, with its stop at the 513th, detects disagreement and keeps the common frequency |
| `NeighborCells.Resolve` | rust/src/neighbor.rs:308-360 | both searches of one sample: it gets a frequency exactly when 1 to 512 anchors were considered and all name it; its ambiguity, and whether it is left out |
| `NeighborCells.Tabulate` | rust/src/neighbor.rs:302-400 | the two accumulating loops compute the table, the overflow and the ambiguities |
| `NeighborCells.SamplesAreConserved` | rust/src/neighbor.rs:304-382 | at most 128 groups of at most 64 signals; their sample counts are the recent samples less those without anchor and those turned away |
| `NeighborCells.DirectsAreConserved` | rust/src/neighbor.rs:383-400 | their hits are the recent anchors less those turned away, and no sample count changes |
| `NeighborOrder.SortSorts` | rust/src/neighbor.rs:406-414 | the signals are sorted and the same, before the median is taken |
| `NeighborOrder.Cells` | rust/src/neighbor.rs:401-436 | however the map is drained, the cells come out complete and in order |
| `NeighborOrder.OrderIsUnique` | rust/src/neighbor.rs:425-436 | a set of cells has one ordered list |
| `NeighborOrder.ResultIsDetermined` | rust/src/neighbor.rs:401-436 | the result does not depend on the order of the hash map |
| `NeighborOrder.Report` | rust/src/neighbor.rs:292-446 | the whole result: at most 128 cells, ordered, complete, and sample counts that add up |
| `NeighborTable.FrequencyExactly` | rust/src/neighbor.rs:308-357 | the frequency of a sample in terms of positions of anchors within 256 frames and 5 seconds, or anywhere in the capture |
| `NeighborTable.CellsTellTheRecords` | rust/src/neighbor.rs:302-424 | a cell reports the numbers of its recent samples and anchors, the median of its 64 newest signals, and a band exactly when all that were named agree; a cell with records is missing only from a full table |
| `NeighborTable.MedianIsMiddle` | rust/src/neighbor.rs:404-415 | the median is the middle value, or the mean of the two middle ones to the nearest hundredth |
| `NeighborTable.OrderExactly` | rust/src/neighbor.rs:425-436 | what standing earlier in the list means: signal, technology, frequency, identity |
| `Hosts.Store.ReadAndCompare` | rust/src/hosts.rs:449-456 | only a client that names the current revision goes on |
| `Hosts.Store.TryLock` | rust/src/hosts.rs:297-306 | one writer at a time past the lock, others are refused |
| `Hosts.Store.SecureBackup` | rust/src/hosts.rs:307-370 | an existing backup is kept, or the writer is refused when it fails its checks; a new one holds the file as read and is withdrawn when its publication cannot be made durable; a restore needs one |
| `Hosts.Store.CheckAgain` | rust/src/hosts.rs:399-414 | revision, identity and attributes are compared again |
| `Hosts.Store.Replace` | rust/src/hosts.rs:415-421 | the rename installs content and attributes and nothing else |
| `Hosts.Prepare` | rust/src/hosts.rs:449-478 | the uninterrupted first half of an action: exactly when it gets as far as its replacement, and what it leaves when it does not |
| `Hosts.Act` | rust/src/hosts.rs:422-480 | a whole uninterrupted action succeeds exactly when the revision is current, the lock free and the backup valid or possible to make; then the file holds what was asked for, and otherwise it is untouched |
| `Hosts.StepKeepsInv` | rust/src/hosts.rs:297-489 | every step of every writer and of the editor keeps the invariant |
| `Hosts.CleanReplacementsLoseNothing` | rust/src/hosts.rs:371-489 | in every interleaving a replacement with no edit between second check and rename overwrote exactly the content the client named, and a save kept owner and mode |
| `Hosts.SettledStays` | rust/src/hosts.rs:307-370 | no step changes a backup whose publication is settled |
| `Hosts.PreparedMeansSettled` | rust/src/hosts.rs:307-370 | once `ensure_backup` succeeded the backup is settled |
| `Hosts.BackupIsWrittenOnce` | rust/src/hosts.rs:307-370 | from then on it is the same for ever |
| `Hosts.RestoreWritesBackup` | rust/src/hosts.rs:470-478 | a restore puts the bytes and attributes of the backup in place |
| `Hosts.RestoresWriteTheBackup` | rust/src/hosts.rs:470-478 | in every run all restores ever made wrote the backup that is still there |
| `Hosts.RenameLosesNothingExactly` | rust/src/hosts.rs:399-415 | a replacement loses nothing exactly when the file it finds has the named revision and, for a save, the attributes first read |
| `Hosts.LateEditIsLost` | rust/src/hosts.rs:399-415 | an edit after the second check is overwritten, and harmless exactly when it left that revision and those attributes |
| `Hosts.ReplacementsLoseNothingExactly` | rust/src/hosts.rs:297-489 | in every interleaving a replacement loses nothing exactly when no edit fell between second check and rename, or the last one left the named revision and, for a save, the attributes first read |
| `Journal.ActivityJournal.Load` | rust/src/activity.rs:142-162 | the state after start-up for every kind of file |
| `Journal.ActivityJournal.SetLevel` | rust/src/activity.rs:167-177 | a failed write changes nothing, a successful one also saves what was buffered |
| `Journal.ActivityJournal.Flush` | rust/src/activity.rs:178-183 | a dirty journal is written, and stays dirty if that fails |
| `Journal.ActivityJournal.Push` | rust/src/activity.rs:184-224 | level, repetition, new id, truncation of the task, bound of 300, and the immediate write at the detailed level |
| `Journal.ActivityJournal.Clear` | rust/src/activity.rs:244-255 | entries go, ids and level stay; a failed write changes nothing |
| `Journal.RecordsExactly` | rust/src/activity.rs:50-58 | which events each level records, and which are repetitions |
| `Journal.RecordedEntry` | rust/src/activity.rs:205-224 | the entry made of an event, its id, and which earlier entries stay |
| `Journal.RepeatsAreSpaced` | rust/src/activity.rs:184-204 | in every run neighbouring entries of the same failure are 300 seconds apart, unless their task was cut |
| `Journal.AppendReloads` | rust/src/activity.rs:142-224 | a readable journal with one more event is readable again exactly when action, reason and cut task are at most 80 bytes each, an id is left and the file stays within its limit |
| `Journal.PushSurvives` | rust/src/activity.rs:178-224 | after `push` and the next successful write, a restart brings back the state in memory exactly then, at every level |
| `Journal.AppendKeeps` | rust/src/activity.rs:205-224 | a new entry keeps ids increasing and the state loadable |
| `Journal.StepKeepsInv` | rust/src/activity.rs:142-255 | every step, restarts and failed writes included, keeps the invariant |
| `Journal.RestartRestoresLastWrite` | rust/src/activity.rs:142-255 | in every run a restart brings back the last state written, which is the state in memory unless the journal is dirty; ids increase below the next one; at most 300 entries |
| `Journal.RunsSurviveWithinSizes` | rust/src/activity.rs:142-255 | a run never reaches a state that its own file would not bring back, exactly when every recorded event and every change of level kept the sizes |
| `Journal.LongTaskLosesJournal` | rust/src/activity.rs:215-215 | any recorded event whose task, cut to 80 characters, exceeds 80 bytes makes the whole journal unreadable after the next successful write, at every level |
| `Journal.WideTaskLosesJournal` | rust/src/activity.rs:215-215 | an instance: 27 characters of three bytes |
| `JournalPages.CursorContinues` | rust/src/activity.rs:225-243 | continuing below an entry selects exactly what follows it |
| `JournalPages.PageAndRest` | rust/src/activity.rs:225-243 | a page and what its cursor leads to are together everything asked for |
| `JournalPages.WalkSeesEverything` | rust/src/activity.rs:225-243 | following the cursor ends, and the pages joined are all matching entries |
| `JournalPages.SelectedIsComplete` | rust/src/activity.rs:225-243 | every matching entry, newest first, each once |
| `JournalPages.PageExactly` | rust/src/activity.rs:225-243 | a page holds the newest 100 matching entries below the cursor, and has a cursor exactly when there are more |
| `Bridge.Manager.AlreadySeen` | rust/src/cloud.rs:1319-1323 | expired ids are dropped before the question is answered |
| `Bridge.Manager.Remember` | rust/src/cloud.rs:1325-1330 | the id is remembered for twelve hours |
| `Bridge.Manager.Receive` | rust/src/cloud.rs:1400-1433 | which requests are rejected, ignored or accepted, and the new state |
| `Bridge.Manager.Close` | rust/src/cloud.rs:1374-1398 | an id that is not running is blocked if there is room |
| `Bridge.Manager.Release` | rust/src/cloud.rs:1582-1582 | the end of a session frees its place |
| `Bridge.AnsweredExactly` | rust/src/cloud.rs:1400-1433 | when an open is accepted or ignored, with the limits of 4 and 128 |
| `Bridge.ClosedStaysBlocked` | rust/src/cloud.rs:1374-1398 | after a close of an unknown id, with room for it, every valid open of that id is ignored for twelve hours in every run |
| `Bridge.AcceptIsTracked` | rust/src/cloud.rs:1400-1433 | a newly accepted id belongs to no running session |
| `Bridge.StepKeepsInv` | rust/src/cloud.rs:1313-1584 | every open, close, end and lapse of time keeps the invariant |
| `Bridge.AdmissionIsBounded` | rust/src/cloud.rs:1374-1447 | in every run at most 4 ids are active and 128 remembered, and an id is accepted only twelve hours after it was last accepted or blocked |
| `Bridge.FourSufficeExactly` | rust/src/cloud.rs:1313-1584 | every run whose sessions end within a lifetime has at most four sessions at a time, exactly when that lifetime is at most the twelve hours an id is remembered |
| `Bridge.ReleaseUncovers` | rust/src/cloud.rs:1582-1582 | when one of two sessions of the same id ends, the other runs on without being counted |
| `Bridge.FiveSessions` | rust/src/cloud.rs:1400-1584 | a run from the start with five sessions at a time, for every lifetime beyond the twelve hours |
| `CoolingCurve.CheckCurve` | rust/src/cooling.rs:512-547 | the checks accept exactly the curves of 2 to 8 points in range, with rising temperatures and duties that do not fall |
| `CoolingCurve.HotterIsNotSlower` | rust/src/cooling.rs:323-340 | for a valid curve the duty is defined for every positive temperature, within 0 to 255, and monotone across segments and the 80-degree guard |
| `CoolingCurve.CurveHitsItsPoints` | rust/src/cooling.rs:323-340 | the curve passes exactly through each of its points below 80 degrees |
| `CoolingCurve.CurveExactly` | rust/src/cooling.rs:323-340 | full speed from 80 degrees on, nothing without a reading, the end duties beyond the ends, and between two points the straight line to the nearest integer |
| `CoolingConfig.ReadShown` | rust/src/cooling.rs:76-90 | an integer printed and parsed is itself |
| `CoolingConfig.ReadFields` | rust/src/cooling.rs:81-88 | the line loop of `load` gives the fields of the text, later lines overriding earlier ones |
| `CoolingConfig.LoadConfig` | rust/src/cooling.rs:76-134 | the loaded configuration for a missing file and for any text, with its defaults and clamps |
| `CoolingConfig.SaveConfig` | rust/src/cooling.rs:147-187 | the saved text, with its loop over the curve |
| `CoolingConfig.Apply` | rust/src/cooling.rs:474-600 | which actions are accepted, and what each changes |
| `CoolingConfig.ActionsExactly` | rust/src/cooling.rs:474-600 | what each action changes and nothing else, and which modes are refused |
| `CoolingConfig.Controller.Execute` | rust/src/cooling.rs:463-607 | the file changes exactly when the action is accepted and everything behind it succeeded |
| `CoolingConfig.TextReads` | rust/src/cooling.rs:147-187 | reading the lines of a saved text gives the saved fields |
| `CoolingConfig.ReturnTextReads` | rust/src/cooling.rs:81-88 | carriage returns before the ends of lines are read over |
| `CoolingConfig.SavedFanExactly` | rust/src/cooling.rs:155-172 | names and values of the fan entries of the saved file |
| `CoolingConfig.SavedLiquidExactly` | rust/src/cooling.rs:155-172 | those of the liquid cooling |
| `CoolingConfig.SavedTablesExactly` | rust/src/cooling.rs:155-172 | those of the tables and the number of points |
| `CoolingConfig.SavedCurveExactly` | rust/src/cooling.rs:173-181 | those of each point of the curve |
| `CoolingConfig.BuildExactly` | rust/src/cooling.rs:89-120 | what loaded values become, with both clamps and the older entries |
| `CoolingConfig.BuiltPointExactly` | rust/src/cooling.rs:121-133 | each point of a loaded curve with its default |
| `CoolingConfig.MissingExactly` | rust/src/cooling.rs:76-134 | a file without entries is as no file, and what that means |
| `CoolingConfig.SaveThenLoad` | rust/src/cooling.rs:76-187 | saving a sound configuration and loading it changes nothing |
| `CoolingConfig.ReachableConfigsReload` | rust/src/cooling.rs:463-607 | every configuration reachable through saved actions has a valid curve and survives save and load |
| `Lan.MasksArePrefixes` | rust/src/lan.rs:10-14 | the accepted netmasks are exactly the prefixes /1 to /30 |
| `Lan.SubnetIsInterval` | rust/src/lan.rs:66-100 | under an accepted mask two addresses share a subnet exactly when one lies between the other's network and broadcast addresses |
| `Lan.PoolIsLeasable` | rust/src/lan.rs:96-112 | the range check passes exactly the non-empty pools whose every address is in the gateway's subnet and is neither network, broadcast nor gateway address |
| `Lan.AcceptedUpdatesAreSafe` | rust/src/lan.rs:66-120 | every accepted update has a prefix mask, a gateway that is a host, a pool of leasable addresses, and leaves a read-only address alone |
| `Lan.AcceptedExactly` | rust/src/lan.rs:66-120 | an update is accepted exactly when every part of it is good, leases of whole hours included, and then carries the merged values |

## Left out

- RecoveryRuns.RestartStep: a restart while an announced clock change is still unabsorbed is outside the run invariant, because the invariant fails there; `RestartWitness.SpacingSurvivesExactly` says what holds then.
- RestartWitness.SpacingSurvivesExactly: manual actions, configuration changes and online verdicts after the restart are not among its steps; they can change the budgets that refuse a plan.
- `reserve_check`, `view`, `eligible`, `probe`: reading the radio state and issuing HTTP requests, not part of the planning.
- The inside of the clock module: only its generation and whether a change is open are visible here.
- Wrap-around of 64-bit generation counters and of the 32-bit success counter: they are unbounded here; only the saturation of the failure counter is modelled.
- Sockets, DNS, packet capture, retransmission and the loop that opens the NAT probes: they appear as the set of probes and the answers.
- IPv6 addresses, the JSON report of a detection and its telemetry.
- Errors of the file system in the middle of a QoS refresh, and reading a log while it is written.
- Parsing QoS values out of the tagged lines.
- The vendor layouts of DIAG records in `process` and `direct`, and the `partial` flag of the result; the ambiguity count is that of one call.
- Rounding of floating-point signals beyond the two decimals of the median.
- What the checks on directories, links and the format of the hosts backup look at (their verdict on the backup is a flag), the DNS service reload and the final read-back.
- The rendering of journal entries and the timer that flushes them.
- Remote sessions themselves: transports, tokens, node lists; the request checks are one flag. When a session ends is chosen by the environment.
- Fan and liquid-cooling hardware, temperature reading and vendor switches.
- LAN text fields come with the result of parsing them; units of lease times and the comparison with the device's answer are not modelled.
- Other files of the repository (cloud nodes and routes, panel, shell and file tunnels, authentication, Wi-Fi, modem, USB, charging, ambient light): effects on foreign services with simple parameter checks.
