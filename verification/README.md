# FleetDeck: models and proofs

A Dafny project that models the parts of FleetDeck whose correctness depends on
order, crashes and interleaving, and proves what they promise. `dafny verify
dfyconfig.toml` checks the whole project.

- **Release jobs** (`ReleaseContract`, `ReleaseStore`, `ReleaseExecutor`,
  `ReleaseSystem`, `ReleaseOutcome`, `ReleaseRun`). Any number of executors reserve, run and complete
  jobs against one store. Runtime answers, store faults before or after a commit, and
  crashes between or inside calls are free. Main results: the succeeded jobs of a
  target form a chain, Apply happens at most once for a key and a job, terminal rows
  are final and replayed, a production outcome after Apply has one of three shapes, and
  an executor succeeds exactly when every answer it gets is as its request asks.
- **Alert relay** (`NotifyEvents`, `AlertRelay`, `RelayWatch`, `RelayProgress`). A cursor over a growing
  journal, a durable pending batch and marks for each provider. Main results: no event
  is skipped, the batches tile the journal, duplicates are accounted for, and with working
  commands the relay catches up from any state.
- **Bridge policy** (`BridgeGuard`). A small interpreter for rule chains, and the proof
  that the compiled program gives every packet the verdict of the intended policy.
- **Reversible rollout** (`NamespaceGuard`, `NamespaceReconcile`, `NamespaceApply`,
  `Rollout`, `RolloutInstaller`, `RolloutNamespaces`). A snapshot before every change, a trial that
  races a timer, and what exactly a successful rollback leaves behind.
- **Alert thresholds** (`MonitorAlerts`). Saturating counters against the full history.
- **Backups** (`BackupRecords`, `Retention`, `FileTree`, `BindRestore`,
  `BackupLifecycle`, `BackupStore`). Retention, the swap by renames, and exactly when
  records go on pointing to complete and intact backups.
- **Smaller pieces** (`ShellQuote`, `AuditRotation`, `DatabaseCopies`, `Texts`,
  `FleetProtocol`, `MonitorSummary`, `FleetExport`, `Placeholders`). `Runs` holds what
  is common to all step machines, and `Wrappers` the optional values.

Two forms stand side by side where the program changes state step by step: a machine
whose step function takes one outcome at a time, over which the laws of all runs are
proved, and a class whose methods follow the program statement by statement and are
shown to make exactly such runs. Commands, providers, renames, clocks and random names
appear as outcomes or parameters.

Where the code and its promise part, the code is followed, a run shows the difference,
and a theorem says exactly when it happens:

- A namespace's original is lost when the recorded containers leave a shared namespace
  before the next apply: `NamespaceGuard.HandoverLosesOriginal`, and for all runs
  `NamespaceGuard.OverwriteExactly` and `NamespaceGuard.SnapshotBeforeChange`. While a
  container of the first snapshot stays, the original is safe
  (`NamespaceGuard.FirstSnapshotIsRestored`). An old record misleads when an inode is used
  again (`NamespaceGuard.RecycledInodeMisleads`).
- A rollback succeeds although it skips a namespace without a matching record
  (`NamespaceGuard.RollbackLeavesHandover`); `NamespaceGuard.RollbackLeavesExactly` says
  which namespaces it leaves changed. The rollout is then saved as rolled back and its
  timer stopped (`Rollout.RolledBackWithChange`, `RolloutNamespaces.RolledBackExactly`).
- An apply succeeds without loading the rules when nothing could be listed after an earlier
  load and nothing is listed now, for example after a rollback
  (`NamespaceApply.ApplyLeavesUnguarded`, `NamespaceApply.ApplyGuardsExactly`); such a
  namespace does not verify.
- A reboot after the service is enabled and before the confirmation is saved leaves a
  policy applied, the rollout on trial, and no timer (`Rollout.RebootBeforeConfirmed`,
  `Rollout.UncoveredExactly`).
- When the insert of a backup record reports an error after committing, the cleanup takes
  the files from under the record (`BackupLifecycle.DoubtBreaksRecord`,
  `BackupLifecycle.RecordsStayGood`).
- Two overlapping extensions of one backup can tear a file already listed
  (`BackupLifecycle.OverlapTearsListedFile`, `BackupLifecycle.RecordsStayIntact`). The only
  caller extends the record it has just created (internal/sourcedeploy/engine.go:403-407),
  so no two extensions overlap in the program as it is.
- A job whose executor died blocks its target for good (`ReleaseSystem.OrphanBlocksTarget`,
  `ReleaseSystem.OrphanIsReachable`); `ReleaseSystem.RunningCanEnd` is the converse.
- The string order of database copies fails across nines, from a limit of ten on
  (`DatabaseCopies.CarryLosesBoth`); the only caller passes three (internal/db/db.go:146).
  At every limit above zero a copy numbered zero gives way to the newest
  (`DatabaseCopies.ZeroIsOverwritten`). `DatabaseCopies.RotationShifts` has the exact
  condition.

## Model

| member | source | states |
|---|---|---|
| ReleaseContract.Validate | internal/releasejob/contract.go:91-161 | A request is accepted exactly when its identifiers, digests, policies and images all satisfy the contract; components differ and images are pinned by digest. |
| ReleaseExecutor.ValidIsGoverned | internal/releasejob/contract.go:117-142 | What the executor proof needs of a valid request: production has a backup and runtime-only recovery, staging recovers by hand. |
| ReleaseStore.Database.Reserve | internal/db/release_jobs.go:26-95 | One transaction: a known key is replayed, refused or in progress, a busy target or a taken job id is refused, otherwise exactly one running row is added; an error answer may hide a commit. |
| ReleaseStore.Database.CurrentRelease | internal/db/release_jobs.go:97-110 | The stored release of a target, or none. |
| ReleaseStore.Database.CompleteSuccess | internal/db/release_jobs.go:112-157 | Compare-and-set of a running row of this key and job, together with the target's new current release; refused without effect otherwise. |
| ReleaseStore.Database.CompleteFailure | internal/db/release_jobs.go:159-187 | Compare-and-set of a running row to failed; targets stay as they are. |
| ReleaseExecutor.AdvanceKeepsLocal | internal/releasejob/executor.go:145-228 | Whatever the runtime answers, each step keeps the evidence in the result in line with the step reached, and a final result is a lawful one. |
| ReleaseExecutor.ProductionOutcomes | internal/releasejob/executor.go:169-216 | A terminal production result after Apply is complete success, failure with the same backup verifiably restored, or failure at the rollback step; staging never restores and a restore needs an Apply and a backup. |
| ReleaseSystem.NeverLosesRace | internal/db/release_jobs.go:133-143 | In every reachable state an executor that finishes still owns its running row, so its compare-and-set cannot miss. |
| ReleaseSystem.NextKeeps | internal/releasejob/executor.go:112-200 | Every launch, turn and crash of any executor keeps the system invariant. |
| ReleaseSystem.RunKeeps | internal/releasejob/executor.go:112-200 | So every run keeps it. |
| ReleaseSystem.ReleaseChain | internal/db/release_jobs.go:61-94 | In every run: at most one running job a target, each promoted job expected the release promoted before it on its target, the stored current release is the last one, and the promoted jobs are exactly the succeeded rows. |
| ReleaseSystem.AtMostOnce | internal/releasejob/executor.go:121-133 | In every run Apply, and Restore, is called at most once for a key and at most once for a job id, and Restore only after the Apply of its own job. |
| ReleaseSystem.StoredOutcomes | internal/releasejob/executor.go:153-216 | Every stored outcome of a job whose Apply was called has one of the three shapes, and no staging job ever causes a restore. |
| ReleaseSystem.TerminalIsFinal | internal/db/release_jobs.go:133-143 | A terminal row never changes again in any later run. |
| ReleaseSystem.TerminalIsQuiet | internal/releasejob/executor.go:121-133 | Once its row is terminal a key causes no further runtime call. |
| ReleaseSystem.ReplayReturnsStored | internal/releasejob/executor.go:125-130 | In every run, every later Execute of the same request returns exactly the stored result, without a runtime call and without a change to the store. |
| ReleaseSystem.OneResultPerKey | internal/db/release_jobs.go:36-56 | All results ever returned for one key, by any executors, are equal. |
| ReleaseSystem.OrphanBlocksTarget | internal/db/release_jobs.go:61-71 | The price: once in some run an executor has died, its row stays running in every continuation, and every other key on that target is refused. |
| ReleaseSystem.OrphanIsReachable | internal/releasejob/executor.go:121-133 | Every valid request can come to that: a launch, one turn and a crash of its executor. |
| ReleaseSystem.WorkerEnds | internal/releasejob/executor.go:145-228 | An executor that holds a row and gets its turns ends it, whatever the runtime answers, when the store takes the result. |
| ReleaseSystem.RunningCanEnd | internal/releasejob/executor.go:112-228 | In every run a running row can still end in some continuation exactly when it is not orphaned. |
| ReleaseOutcome.FirstFlaw | internal/releasejob/executor.go:145-191 | The first answer that is not as the request asks, with the step and the code that report it; there is none exactly when every field of every answer is as asked. |
| ReleaseOutcome.FromReading | internal/releasejob/executor.go:145-228 | An executor on its own ends after at most seven turns with the result read off its answers: status, evidence, step, code and restore. |
| ReleaseOutcome.ExecutorAnswersRightly | internal/releasejob/executor.go:112-228 | In every run, whatever the others do: an executor that has acquired its row and had seven turns has ended. It has succeeded and promoted its release exactly when every answer was as asked; otherwise it reports the first that was not, and Apply and Restore have been called exactly when that calls for them. |
| ReleaseOutcome.SuccessExactly | internal/releasejob/executor.go:184-228 | With a store that takes the result the answer is success exactly when all answers are as asked, and a failure names the first flaw, or the rollback when its restore does not verify. |
| ReleaseOutcome.AcquiresExactly | internal/db/release_jobs.go:26-95 | With a store that works an executor acquires its row exactly when no row has its key or its job id and none is running on its target. |
| ReleaseRun.Plane.Execute | internal/releasejob/executor.go:112-200 | The executor as it is written, with other executors acting between its calls, is a run of the system in which it takes only its own turns; once it has acquired its row its answer is the one that its answers from outside call for. |
| ReleaseRun.Plane.Prepare | internal/releasejob/executor.go:145-167 | The expected-release check, as turns of that run. |
| ReleaseRun.Plane.RunPreflight | internal/releasejob/executor.go:153-167 | The preflight and the choice of a backup, as turns of that run. |
| ReleaseRun.Plane.BackUp | internal/releasejob/executor.go:160-167 | The verified backup, as turns of that run. |
| ReleaseRun.Plane.ApplyAndVerify | internal/releasejob/executor.go:169-182 | Apply with its two failure branches, as turns of that run. |
| ReleaseRun.Plane.VerifyAndComplete | internal/releasejob/executor.go:184-199 | The health check and its recovery, as turns of that run. |
| ReleaseRun.Plane.Complete | internal/releasejob/executor.go:193-199 | Persisting a success, as a turn of that run. |
| ReleaseRun.Plane.RecoverAndFail | internal/releasejob/executor.go:202-216 | Restore this job's backup, then fail at the original step or at the rollback step. |
| ReleaseRun.Plane.Fail | internal/releasejob/executor.go:218-228 | Mark, persist and report a failure. |
| NotifyEvents.CountKinds | internal/notify/events.go:55-61 | The loop counts each kind of classified entry and nothing else. |
| NotifyEvents.LevelOf | internal/notify/events.go:66-72 | Whatever the order of the keys, the level is warning exactly when some kind failed or was rejected. |
| NotifyEvents.Summarize | internal/notify/events.go:55-81 | An alert exactly when some entry is an event; its counts are the numbers of accepted logins, of rejected ones, and of well-formed audit entries for each action and outcome, with no other key; it warns exactly when something was rejected or failed. |
| NotifyEvents.SummaryTells | internal/notify/events.go:27-81 | The same of the alert as a function of the batch, which the relay sends. |
| NotifyEvents.SummaryIffEvent | internal/notify/events.go:55-64 | A batch gives an alert exactly when it holds an accepted or rejected login or a well-formed audit entry. |
| AlertRelay.NextKeeps | internal/notify/relay.go:61-201 | Every effect of the relay, a crash at any point, and growth of the journal keep the invariant of cursor, pending batch and marks. |
| AlertRelay.NoEventSkipped | internal/notify/relay.go:136-201 | In every run, with crashes and failing saves anywhere, every event entry before the persisted cursor lies in a stretch whose alert every provider accepted. |
| AlertRelay.StretchesTile | internal/notify/relay.go:170-194 | In every run the stretches taken tile the journal: no gap, no overlap, none empty, up to the point reached. |
| AlertRelay.PendingHolds | internal/notify/relay.go:66-84 | While a batch is pending the cursor stays and nothing new is taken; it goes only when every provider carries a mark. |
| AlertRelay.DuplicatesAreAccountedFor | internal/notify/relay.go:66-84 | One provider accepts one batch at most once more often than a crash or failed save fell between such a send and its mark. |
| RelayWatch.Relay.SaveState | internal/notify/relay.go:30-59 | Saving fails before the rename, after it, or not at all, and the disk holds the old or the new state accordingly. |
| RelayWatch.Relay.Deliver | internal/notify/relay.go:61-85 | The delivery loop, effect by effect, is a run of the relay machine. |
| RelayWatch.Relay.Gather | internal/notify/relay.go:181-187 | The stretch just read becomes a pending batch, or moves the cursor when nothing in it is classified. |
| RelayWatch.Relay.Watch | internal/notify/relay.go:152-201 | Watch as it is written, from loading its state on, is a run of the relay machine. |
| RelayWatch.Relay.Rounds | internal/notify/relay.go:170-200 | So is each round of deliver, read and deliver. |
| RelayWatch.WatchSkipsNothing | internal/notify/relay.go:133-135 | With the summary that Watch really uses: no event before the cursor was skipped, however often the relay was stopped and restarted. |
| RelayProgress.WatchCatchesUp | internal/notify/relay.go:133-201 | From every run, with whatever crashes and refusals behind it, a number of working commands leads to a durable cursor at the end of the journal with nothing pending, and by then every provider has accepted an alert for every event. |
| RelayProgress.TakesWhatIsRead | internal/notify/relay.go:181-187 | Whatever a read returns is taken, however little it is. |
| RelayProgress.RefusalsKeepNobodyOut | internal/notify/relay.go:66-84 | In every run a delivery whose saves work gives the alert and a durable mark to every provider that accepts, whichever of the others refuse, and fails exactly when one that has not had it does. |
| RelayProgress.DeliveryIsRun | internal/notify/relay.go:61-85 | Such a delivery is a run of the relay machine. |
| BridgeGuard.PortChainMeans | deploy/isolation/bridge_guard.py:57-63 | The chain of one port accepts exactly the frames with its own MAC, IP and ARP fields, and only IP or ARP. |
| BridgeGuard.SplitDotsSplits | deploy/isolation/bridge_guard.py:36-46 | The parts of an address hold no dot and joined by dots are the address. |
| BridgeGuard.JumpsMean | deploy/isolation/bridge_guard.py:54-56 | The jumps lead every packet of a known port to its own chain, and drop the others. |
| BridgeGuard.IngressMeans | deploy/isolation/bridge_guard.py:51-63 | For every packet the ingress program accepts exactly what may enter; traffic off the bridge is untouched. |
| BridgeGuard.GroupsMean | deploy/isolation/bridge_guard.py:69-71 | The group rules accept exactly what two members of one group exchange. |
| BridgeGuard.ForwardMeans | deploy/isolation/bridge_guard.py:64-71 | For every packet the forward program accepts exactly: both ports known and one a proxy or both in one group; off the bridge it is not affected. |
| BridgeGuard.Inventory | deploy/isolation/bridge_guard.py:36-46 | The loop accepts exactly the valid ports with names of their own, and collects names and groups. |
| BridgeGuard.IngressRules | deploy/isolation/bridge_guard.py:51-56 | The loop that writes the ingress chain: return off the bridge, one jump for each port, drop the rest. |
| BridgeGuard.PortChains | deploy/isolation/bridge_guard.py:57-63 | The loop that writes one chain for each port. |
| BridgeGuard.ForwardRules | deploy/isolation/bridge_guard.py:64-71 | The loop that writes the forward chain: one rule for each group after the rules of the proxies. |
| BridgeGuard.Render | deploy/isolation/bridge_guard.py:31-71 | Refused exactly for an invalid table; otherwise a program that gives every packet the verdict of the intended policy on both hooks. |
| BridgeGuard.TenantsAreIsolated | deploy/isolation/bridge_guard.py:64-71 | Between ports of different groups nothing passes in either direction unless one is a proxy, and the policy is symmetric. |
| NamespaceGuard.NextKeeps | deploy/transport/namespace_guard.py:162-197 | Every command, crash, reboot and move of a container keeps the invariant of records and namespaces. |
| NamespaceGuard.SnapshotBeforeChange | deploy/transport/namespace_guard.py:165-180 | In every run, while recorded containers stay or after they have gone: a changed namespace has had a durable record used for it first, and its record holds the original exactly when no snapshot of the changed namespace has replaced it and its first record was right. |
| NamespaceGuard.OverwriteExactly | deploy/transport/namespace_guard.py:165-170 | In every run, when apply comes to a changed namespace whose original is on disk, the next two commands leave it there exactly when a recorded container is among those the scan found. |
| NamespaceGuard.OccupiedIsRestored | deploy/transport/namespace_guard.py:162-197 | In every run, from where a recorded container has occupied its namespace on until it stops or the host reboots: the record goes on saying the same of the original, and a completed rollback leaves the namespace as it was exactly when the record says so. |
| NamespaceGuard.FirstSnapshotIsRestored | deploy/transport/namespace_guard.py:165-170 | So a completed rollback restores exactly the original of every namespace that a container of its first snapshot has occupied ever since that was written. |
| NamespaceGuard.RollbackRestores | deploy/transport/namespace_guard.py:187-197 | In every run a completed rollback leaves a matched namespace as it was exactly when its record says so, and one that a recorded container has occupied since is matched. |
| NamespaceGuard.RollbackLeavesExactly | deploy/transport/namespace_guard.py:187-197 | A whole rollback begun in any run leaves a namespace changed exactly when, at its beginning, a recorded container was there and the record did not say what the original was, or none was and it was changed already. |
| NamespaceGuard.RollbackLeavesSome | deploy/transport/namespace_guard.py:187-197 | So it leaves some change exactly when some namespace is of one of those two kinds. |
| NamespaceGuard.RollbackStep | deploy/transport/namespace_guard.py:189-193 | A step of a rollback changes only the namespace at the head of its list, and only with a usable record. |
| NamespaceGuard.RollbackLeavesHandover | deploy/transport/namespace_guard.py:192-193 | A run in which a rollback succeeds after a handover, skips the namespace and leaves it changed. |
| NamespaceGuard.HandoverLosesOriginal | deploy/transport/namespace_guard.py:166-170 | A run in which the original is lost: the recorded container leaves a shared namespace and the next apply overwrites the record with the guard's own rules. |
| NamespaceGuard.RecycledInodeMisleads | deploy/transport/namespace_guard.py:163-166 | A run in which an old record, which holds an earlier table, is used for a new namespace of the same container with the same inode and no table. |
| NamespaceGuard.VerifiedIsGuarded | deploy/transport/namespace_guard.py:198-209 | In every run a namespace that verifies has the guard's rules, and MPTCP off where its record knows the setting. |
| NamespaceApply.ApplyGuardsExactly | deploy/transport/namespace_guard.py:162-180 | A completed apply, begun in any run, leaves the guard's rules in every namespace of its scan that is still there, unless its record says that nothing could be listed after an earlier load and nothing is listed now; MPTCP is off exactly where the record knows the setting; it verifies exactly when its rules could be listed after the load. |
| NamespaceApply.ApplyLeavesUnguarded | deploy/transport/namespace_guard.py:142-145 | A run in which that happens: the listing after a load fails, a rollback takes the rules away, and the next apply succeeds without loading them. |
| NamespaceApply.GetsThrough | deploy/transport/namespace_guard.py:183-213 | From every state of an apply or a rollback a number of working commands gets through the rest of it, unless a namespace has lost a setting that its record knows. |
| NamespaceReconcile.Host.FindRecord | deploy/transport/namespace_guard.py:163-170 | Use the matching record or write a new snapshot first, as a run of the machine. |
| NamespaceReconcile.Host.LoadRules | deploy/transport/namespace_guard.py:171-178 | Load the rules unless they are current, and write down what was loaded, as a run of the machine. |
| NamespaceReconcile.Host.SetMptcp | deploy/transport/namespace_guard.py:179-180 | Turn MPTCP off, or back, where the snapshot knows it. |
| NamespaceReconcile.Host.Apply | deploy/transport/namespace_guard.py:162-180 | apply for one namespace, command by command, is a run of the machine. |
| NamespaceReconcile.Host.Restore | deploy/transport/namespace_guard.py:189-197 | So is the rollback of one namespace. |
| NamespaceReconcile.Host.Reconcile | deploy/transport/namespace_guard.py:183-213 | So is reconcile over the whole scan; when it succeeds no namespace of the scan is left. |
| NamespaceReconcile.Host.Verify | deploy/transport/namespace_guard.py:198-209 | Verify mode changes nothing and succeeds exactly when every occupied namespace verifies. |
| Rollout.NextKeeps | deploy/transport/install.py:58-174 | Every command, crash and timer of apply, confirm and rollback under the lock keeps the invariant of phases, timers and service. |
| Rollout.ChangeIsCovered | deploy/transport/install.py:92-138 | In every run a rollout with a changed policy, or whose service runs, is durably confirmed or rolled back, or its automatic rollback is armed or has fired, unless a reboot started its service before it was confirmed. |
| Rollout.UncoveredExactly | deploy/transport/install.py:166-174 | In every run a move leaves a change without protection exactly when it is a reboot while the service of the unfinished rollout is enabled. |
| Rollout.RebootBeforeConfirmed | deploy/transport/install.py:170-171 | A run in which that happens: the reboot comes after enabling the service and before saving the confirmation. |
| Rollout.RolledBackLeaves | deploy/transport/install.py:58-71 | In every run a rollout past its restore has a change in place exactly when the latest restore succeeded without undoing it. |
| Rollout.RolledBackWithChange | deploy/transport/install.py:61-71 | A run in which a manual rollback leaves a change, is saved as rolled back and stops the timer. |
| RolloutNamespaces.RolledBackExactly | deploy/transport/install.py:58-71 | Both machines together: a rollback whose commands work is saved as rolled back, and has left a change exactly when some namespace was, as its restore began, of one of the two kinds that the guard leaves changed. |
| Rollout.AutomaticSparesConfirmed | deploy/transport/install.py:162-165 | No step of an automatic rollback takes anything from a confirmed rollout, not even one already waiting for the lock. |
| Rollout.ConfirmedWasATrial | deploy/transport/install.py:166-173 | Only a trial whose own service runs is ever saved as confirmed. |
| Rollout.PhasesOnlyAdvance | deploy/transport/install.py:58-69 | Durable phases only advance, and rolled back is the last. |
| Rollout.ApplyCompletes | deploy/transport/install.py:92-138 | An apply whose commands work leaves a trial with its service, its policy and an armed timer. |
| Rollout.FailedApplyRollsBack | deploy/transport/install.py:92-138 | An apply that fails once its timer is armed, with a rollback whose commands work, ends rolled back with no service left. |
| Rollout.ConfirmCompletes | deploy/transport/install.py:166-174 | A confirmation whose commands work saves the rollout as confirmed, enables the service and stops a timer that has not fired. |
| Rollout.ManualCompletes | deploy/transport/install.py:58-71 | A rollback by hand whose commands work ends with the rollout saved as rolled back whatever its phase was, a confirmed one included. |
| Rollout.AutomaticCompletes | deploy/transport/install.py:58-71 | The rollback of a fired timer, when its commands work, ends with the rollout saved as rolled back and no service left; its own change stays exactly when the restore did not undo it. |
| RolloutInstaller.Installer.Install | deploy/transport/install.py:74-138 | apply as it is written, with failures rolled back, is a run of the machine. |
| RolloutInstaller.Installer.Admit | deploy/transport/install.py:75-93 | The checks before anything is changed. |
| RolloutInstaller.Installer.Confirm | deploy/transport/install.py:166-174 | The confirm branch is a run of the machine. |
| RolloutInstaller.Installer.SaveAndStop | deploy/transport/install.py:171-174 | The confirmation is saved before the timer is stopped. |
| RolloutInstaller.Installer.Rollback | deploy/transport/install.py:58-71 | The rollback commands in their order are a run of the machine. |
| RolloutInstaller.Installer.Undo | deploy/transport/install.py:162-165 | The rollback branch, which an automatic one skips for a confirmed rollout. |
| MonitorAlerts.UpdatedTracks | internal/monitor/alerts.go:68-100 | The saturating counters remain the clipped lengths of the trailing failing run and of its trailing equal part, and the alerted status the diagnosis of the full history. |
| MonitorAlerts.SettlesByCounting | internal/monitor/alerts.go:96-99 | Counting decides exactly as the history does whether a result settles the diagnosis. |
| MonitorAlerts.AnnouncedIsReport | internal/monitor/alerts.go:67-128 | What the counters announce for any result is what the full history calls for. |
| MonitorAlerts.ReportsTheCheck | internal/monitor/alerts.go:68-128 | A report names what the check itself says: recovered for an answer as expected, blocked for a challenge, down otherwise, with the threshold and the cause. |
| MonitorAlerts.AlarmsCostFailures | internal/monitor/alerts.go:84-99 | Over every history, alarms times threshold is at most the number of results that were not healthy. |
| MonitorAlerts.AlarmsAreReports | internal/monitor/alerts.go:84-128 | The alarms so counted are exactly the reports that are not recoveries. |
| MonitorAlerts.RecoveryClosesIncident | internal/monitor/alerts.go:68-82 | A recovery is reported exactly when a healthy result ends an incident of at least the threshold. |
| MonitorAlerts.ReportsNeverRepeat | internal/monitor/alerts.go:61-100 | Over every history no report repeats the one before it and the first is no recovery, so alarms of one incident differ and a recovery follows an alarm. |
| MonitorAlerts.AlertManager.constructor | internal/monitor/alerts.go:45-54 | A threshold below one means one. |
| MonitorAlerts.AlertManager.Process | internal/monitor/alerts.go:57-129 | The report is the one the history of its target calls for, the counters go on tracking it, and no other target's state changes. |
| MonitorAlerts.AlertManager.ProcessFailure | internal/monitor/alerts.go:84-128 | The part for a result that is not healthy. |
| MonitorAlerts.AlertManager.Send | internal/monitor/alerts.go:132-139 | Every provider is tried once with the alert, in order, whatever the others do. |
| BackupRecords.Database.CreateBackupRecord | internal/db/backups.go:11-29 | A fresh row with the usual type and trigger when none is given; a taken id is refused and nothing changes. |
| BackupRecords.Database.DeleteBackupRecord | internal/db/backups.go:69-72 | Exactly one row goes, or none when the statement fails. |
| BackupRecords.Database.CountBackupsByType | internal/db/backups.go:74-81 | The number of rows of one project and type, zero when the query fails. |
| BackupRecords.Database.GetOldestBackups | internal/db/backups.go:83-103 | The oldest rows of one project and type, oldest first, no more than the limit. |
| BackupRecords.Database.GetExpiredBackups | internal/db/backups.go:105-126 | Every row of a project before the cutoff once, oldest first. |
| Retention.Keeper.EnforceRetention | internal/backup/retention.go:12-42 | With every statement succeeding and distinct creation times, exactly the declared backups are left; whatever fails, no type loses its last backup, other projects are untouched, and only files of deleted records go. |
| Retention.Keeper.EnforceMaxCount | internal/backup/retention.go:44-69 | Exactly the allowed number of newest backups of a type is left, or nothing is lost that must stay. |
| Retention.Keeper.DropExpired | internal/backup/retention.go:24-39 | Counting again before each deletion leaves the newest of each type and everything unexpired. |
| Retention.Keeper.DeleteBackup | internal/backup/retention.go:71-82 | Record first; the files stay when its deletion fails. |
| Retention.RankInListing | internal/db/backups.go:83-87 | In a listing oldest first, the rows that follow are exactly the newer ones. |
| Retention.CountWhenReached | internal/backup/retention.go:32-38 | When the loop reaches a backup, those of its type still present are it and the newer ones. |
| Retention.StepsRetain | internal/backup/retention.go:12-41 | The two maximum counts and the cutoff in turn leave the declared result. |
| Retention.RetainedMeans | internal/backup/retention.go:12-41 | For each type: the unexpired among the allowed newest, or its single newest when none is. |
| Retention.RetainedIsSafe | internal/backup/retention.go:31-37 | The newest of every type survives whatever the limits; other projects are untouched. |
| Retention.RetainedTwice | internal/backup/retention.go:12-42 | A second run with the same cutoff changes nothing. |
| FileTree.RenameMoves | internal/backup/bind_restore.go:65-84 | A rename moves a whole tree and changes nothing else. |
| FileTree.Disk.MkdirAll | internal/backup/bind_restore.go:43-45 | Only missing directories on the way are created, even when it fails part of the way. |
| FileTree.Disk.RemoveAll | internal/backup/bind_restore.go:50 | A removal, complete or not, touches nothing outside its tree. |
| BindRestore.ValidateBindArchive | internal/backup/bind_restore.go:88-122 | Accepted exactly when the archive is readable to its end, not empty, and every entry is a plain file or directory at or below the destination's name. |
| BindRestore.AcceptedStaysInside | internal/backup/bind_restore.go:109-117 | An accepted archive writes nothing beside the destination's name, and no link. |
| BindRestore.Restorer.CheckParents | internal/backup/bind_restore.go:31-39 | No link and no file on the way to the destination. |
| BindRestore.Restorer.Exchange | internal/backup/bind_restore.go:58-85 | For every combination of failing renames: the new tree is in place, the destination is as it was, the stage with the old tree lies under its recovery name, or activation, undo and that rename all failed; a stage with the destination's own name never succeeds. |
| BindRestore.Restorer.Activate | internal/backup/bind_restore.go:75-84 | The last renames: the new tree is in place unless a call fails, and then the old one comes back or its stage is kept. |
| BindRestore.Restorer.RestoreProjectBindMount | internal/backup/bind_restore.go:16-86 | The whole restore with its deferred removal, for every random name. It succeeds only on a fit input: a resolved relative destination with nothing but directories on its way, an acceptable archive that holds a directory of its name, and a tar that works; and always on one when no call fails and the two random names are free. Success is exactly the archived tree; on failure the old tree is in place or kept in full, and lost only when all three renames failed; if the stage takes the destination's own name, nothing was there and the restore fails; everything else is untouched. |
| BackupLifecycle.StepKeeps | internal/backup/backup.go:45-157 | Every step of creating, extending and deleting backups, and every failure and crash, keeps the invariant of records, directories and processes. |
| BackupLifecycle.RecordsAreGood | internal/backup/retention.go:71-82 | In every run a record points to a directory with a complete manifest that lists only files that are there, unless its own insert reported an error after committing. |
| BackupLifecycle.RecordsStayGood | internal/backup/backup.go:53-60 | In every run all records have been so throughout exactly when no removal took a listed file or the manifest from under a record, and no extension listed a missing file. |
| BackupLifecycle.OnlyDoubtfulBreak | internal/backup/backup.go:53-60 | And a record that is broken so is one whose insert reported an error. |
| BackupLifecycle.DoubtBreaksRecord | internal/backup/backup.go:147-157 | A run in which it happens: the insert commits, reports an error, and the cleanup takes the manifest. |
| BackupLifecycle.RecordsAreIntact | internal/backup/source.go:24-74 | When no two processes extend one backup at a time, every listed file with a digest of a surely recorded backup also has exactly its content. |
| BackupLifecycle.RecordsStayIntact | internal/backup/source.go:24-74 | In every run, with any overlap, every recorded file with a digest has had its content throughout exactly when no step opened, wrote or listed one against it and none broke a record. |
| BackupLifecycle.OpeningTears | internal/backup/source.go:46-50 | In every run, opening a file of a recorded backup that is being extended keeps all files intact exactly when the manifest on disk does not list that file with a digest. |
| BackupLifecycle.OverlapTearsListedFile | internal/backup/source.go:46-74 | A run of two overlapping extensions that truncates a file the manifest already lists. |
| BackupStore.Store.CreateBackup | internal/backup/backup.go:45-157 | Directory, files, manifest, record, with others working between, as a continuation of the run so far in which this process touches no other backup: it succeeds whenever its steps work, and then the backup holds exactly its items; on failure there is no record of it, unless its insert was committed all the same. |
| BackupStore.Store.CopyItems | internal/backup/backup.go:81-125 | Each item is copied once and in full; nothing else is in the directory. |
| BackupStore.Store.RemoveAll | internal/backup/backup.go:53-60 | Removing the files one by one, until done or until something fails, as a continuation of the run that touches no other backup: a complete removal leaves no directory, and a record that is gone does not come back. |
| BackupStore.Store.AddSourceFiles | internal/backup/source.go:14-75 | As a continuation of the run that touches no other backup: the new manifest is the one read on the way with what the sources add, put in place by one rename, and no refused file is missing from it; on failure this process has not changed the manifest, and when its steps work it fails only for a manifest that is missing or broken, or a refused source. |
| BackupStore.Store.CopySources | internal/backup/source.go:30-54 | Listed files, folders and missing paths are passed over; the rest is copied and listed. |
| BackupStore.ExtendedCovers | internal/backup/source.go:24-54 | What was listed stays listed first, every readable source is listed, once, and nothing else is. |
| BackupStore.Store.DeleteBackup | internal/backup/retention.go:71-82 | As a continuation of the run that touches no other backup: when the record cannot be deleted, this process does nothing to the backup; otherwise the record is gone before any file is, and a removal whose steps work leaves no directory. |
| BackupStore.OthersAsTheyWere | internal/backup/retention.go:71-82 | What that means: with nobody else at work, every other backup is as it was when the process began. |
| ShellQuote.QuoteAddsItself | internal/remote/transfer.go:171-176 | Wherever a quoted argument stands in a line, it adds exactly itself to the word being read. |
| ShellQuote.QuoteRoundTrip | internal/backup/database.go:202-208 | Reading back the quoted and joined arguments gives the same list, empty strings included. |
| ShellQuote.StrippedRoundTrip | internal/remote/transfer.go:171-176 | An argument with NUL bytes is read back without them. |
| ShellQuote.SudoPassesCommand | internal/bootstrap/admin.go:18-20 | The shell that sudo starts is given exactly the command. |
| ShellQuote.NestRoundTrip | internal/bootstrap/admin.go:12-20 | To any depth, the innermost shell is given the command itself. |
| ShellQuote.NestedListRoundTrip | internal/remote/ssh.go:180-185 | A quoted list wrapped any number of times reaches its program unchanged. |
| ShellQuote.ShellQuoteList | internal/backup/database.go:202-208 | The loop and the join give a line that reads back as the arguments. |
| ShellQuote.Client.Command | internal/remote/ssh.go:180-185 | With sudo the line reads as a shell given the command without its NUL bytes; without it the command itself is sent. |
| ShellQuote.Client.EnableSudo | internal/remote/ssh.go:168-178 | sudo is used from now on exactly after a successful probe, and a failed one changes nothing; Unicode white space around the answer is ignored. |
| ShellQuote.TrimSpaceTrims | internal/remote/ssh.go:168-178 | What trimming leaves out at both ends is white space, and what it leaves neither begins nor ends with it. |
| AuditRotation.RenameKeeps | internal/audit/audit.go:150-158 | Moving one file up keeps the order of what is kept; only what the highest one replaces is lost. |
| AuditRotation.Log.Append | internal/audit/audit.go:110-122 | What is kept is always the end of everything written; once something has been dropped, at least five full files are kept, less one for each process that died inside a rotation, and never fewer than two. |
| AuditRotation.Log.Rotate | internal/audit/audit.go:142-168 | Every rotated file becomes the next one, the live file the first, with or without empty places from earlier deaths; a death after any number of renames leaves at most one more empty place. |
| AuditRotation.FullSize | internal/audit/audit.go:150-158 | The size of a log that has dropped something, from the empty places below its highest file. |
| AuditRotation.Log.Init | internal/audit/audit.go:55-84 | Opening the live file loses nothing. |
| DatabaseCopies.NextDecimal | internal/db/db.go:235 | The next number sorts after a number as a string, except after all nines. |
| DatabaseCopies.NextSorts | internal/db/db.go:235 | Consecutive copies sort in their order exactly when no carry adds a digit. |
| DatabaseCopies.SmallLimitsAreCarryFree | internal/db/db.go:237-257 | Limits up to nine are safe whatever copies there are. |
| DatabaseCopies.RotationShifts | internal/db/db.go:223-257 | For every set of copies: each copy within the limit is found one place up with its content and nothing else is left, exactly when no number of nines below the limit is present together with the next one and no copy numbered zero has to give way to the newest. |
| DatabaseCopies.CarryLosesBoth | internal/db/db.go:237-257 | At a limit of ten, copies nine and ten are both lost. |
| DatabaseCopies.ZeroIsOverwritten | internal/db/db.go:240-255 | At the limit of three that the only caller passes, a copy numbered zero is overwritten by the newest. |
| DatabaseCopies.Directory.Rotate | internal/db/db.go:223-257 | The loop does to the directory what the rotation of the listing says, with the same exact condition. |
| DatabaseCopies.Directory.BackupAndRotate | internal/db/db.go:214-267 | Then the database becomes the newest copy; when that copy cannot be created the rotation has still happened. |
| FleetProtocol.Validate | internal/fleet/protocol.go:56-97 | A snapshot is accepted exactly when identity, projects and both observation sections are valid. |
| FleetProtocol.ValidateObservations | internal/fleet/protocol.go:70-95 | The two observation sections are valid exactly when statuses, counts, ages and claims fit. |
| MonitorSummary.Summarize | internal/monitor/summary.go:20-78 | Refused exactly for too many targets, bad or repeated names or absurd timings; otherwise one line a target, in the order of the names. |
| MonitorSummary.Collect | internal/monitor/summary.go:24-75 | The loop gives each target its line. |
| MonitorSummary.Observe | internal/monitor/summary.go:37-73 | The line of a target that has a result: future, stale, or the health of its check. |
| MonitorSummary.SortByName | internal/monitor/summary.go:76 | A permutation in strictly increasing order of names. |
| MonitorSummary.Line | internal/monitor/summary.go:31-73 | A line says healthy, or unhealthy, exactly when the recorded check says so and is neither stale nor from the future. |
| FleetExport.ExportMonitoring | internal/fleetexport/export.go:37-61 | The monitoring section is valid at once, says ok exactly when every target of an accepted state is healthy and the state is current, asks for attention exactly when some target is unhealthy and the state is current, and counts every target. |
| FleetExport.Tally | internal/fleetexport/export.go:39-49 | The counters are the numbers of healthy, unhealthy and other lines. |
| FleetExport.LinesAllHealthy | internal/fleetexport/export.go:38-55 | All lines are healthy exactly when all targets are. |
| FleetExport.FindingsMean | internal/fleetexport/export.go:82-96 | The counters are zero exactly when no image has a finding and every image was scanned. |
| FleetExport.ExportSecurity | internal/fleetexport/export.go:62-110 | The security section says ok exactly when a current report is clean, asks for attention exactly when one has something to act on, and is valid exactly when its counts are within the limit. |
| FleetExport.TallyReport | internal/fleetexport/export.go:69-99 | The counts and the provisional status of a report. |
| FleetExport.Export | internal/fleetexport/export.go:19-112 | What is exported passes validation at the same instant exactly when identity, projects and the number of findings allow it. |
| Placeholders.FewerCapitals | internal/project/scaffold_profile.go:116-125 | A step may make the text longer but takes capital letters out of it, so the loop ends. |
| Placeholders.FindShift | internal/project/scaffold_profile.go:109 | Text already filled never takes part in a later placeholder. |
| Placeholders.Hex | internal/project/secrets.go:31-37 | A secret has two digits a byte and no capital letter. |
| Placeholders.HexRoundTrip | internal/project/secrets.go:31-37 | The bytes of a secret are read back from its text, so different secrets have different texts. |
| Placeholders.ReplacePasswordPlaceholders | internal/project/scaffold_profile.go:106-128 | The loop ends on every text, fills each placeholder with a secret of its own, keeps everything else, and leaves none. |

## Left out

- Docker, Compose, SSH, nft, systemd, tar and journalctl: their effects are outcomes with the contract the callers rely on, for example a journal read that returns a contiguous stretch after the cursor.
- SQL, JSON, TOML and YAML texts, and the comparison of stored times as text: tables are maps and a query is what it asks for; a stored status is one of three values.
- SHA-256: a digest determines its content, and the request digest is the request itself.
- Durations and timers beyond their order and the bounds named in the code; `time.Duration` saturation, which no bound here reaches.
- Containers in the host's network namespace, and privileged ones: they end the scan with an error before any namespace is considered.
- More than one namespace guard at a time: the installer's lock and the service's own lock keep them apart.
- File modes, ownership, symbolic links in state directories, and credentials.
- The wording of alerts and errors, and the sorted text of the relay's alert, beyond level, target and counts.
- The maximum size of the relay's state file and the checks of its directory.
- A deletion of a backup record that reports an error after committing: an error there means no change. It would leave files without a record, never a record without files.
- Renames of audit log files that fail although the file is there, and entries written in part.
- Foreign file names beside the database copies, database names that contain `.bak`, and renames or removals of copies that fail.
- Config globbing, database dumps and volume archives inside CreateBackup: they are the items it copies.
- Reserved words, aliases and variable assignments of the shell: its reader covers words, quotes, blanks, escapes and active characters.
- Letter case of severities in security reports, and their scanner.
- Listing and looking up backup records, deleting all records of a project, formatting sizes, sensitive file modes and other single expressions, which would add only easy members.
- Release job decoding, CLI commands, profile templates, framework detection, DNS, Telegram and SMTP clients, deploy strategies, encryption, and the scripts embedded in the bootstrap and onboarding packages.
