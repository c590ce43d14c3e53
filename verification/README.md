# Hatchery, modelled and proved

Hatchery runs game servers on Kubernetes: an operator with one controller per kind of object, and a
Panel in front of it. The operator's controllers form a small distributed system. Each reconcile reads
objects that may be stale, does things that cannot be undone (console commands, Pod deletions, new
backups), then writes a status that may be lost, and the operator may die between any two API calls.
This project models the parts where that matters, and the algorithms with a loop worth a proof, in
Dafny 4.11. `dafny verify dfyconfig.toml` checks all of it.

Two shapes recur. A *protocol* module (`BackupProtocol`, `GameServerProtocol`, `PublicPorts`,
`ScheduleProtocol`, `TwoFactorProtocol`) holds a state, a step relation and lemmas about every run. Its
*controller* module (`BackupController`, `GameServerController`, `GatewayController`,
`ScheduleController`, `TwoFactorLogin`) holds classes whose methods follow the code branch by branch. Every
API call lets others act first, may fail, and may take effect although its answer is lost. The methods
state the new state they leave, and are shown to take only steps of the protocol, so the lemmas about
runs apply to them. What a reconcile gets to see besides the objects of the protocol (other reads, the
clock, what a console or a task does) is a parameter, its answers, so that its contract says what it makes
of them. A store that is `quiet` has nobody else acting on it and no failing call, and there the contracts
say that the work is done. `BackupLimits` and `Notifier` hold both in one module. Loops of the other files are
proved against a specification function or predicate, and the lemmas are about that.

- **World-save pause around a backup** (`BackupProtocol`, `BackupController`): Before is recorded, then
  sent, at most once; After goes to the same Pod; no backup goes away with its After step open.
- **Crash loop and Pod lifecycle** (`Crash`, `GameServerProtocol`, `GameServerController`): the crash
  window equals the history, and automatic restarts are bounded over every run.
- **Ports** (`EffectivePorts`, `PublicPorts`, `GatewayController`): unique public ports, cluster-wide, and
  a Gateway that serves them.
- **Schedules** (`ScheduleProtocol`, `ScheduleController`): catching up, runs that resume, fires handled
  once. **Backup limits** (`BackupLimits`): rotation, the planner's limits and the Panel's keepLast rule fit
  together.
- **Mods** (`ResolveInstall`, `JarDependencies`): the breadth-first closure and the rounds over jar metadata.
- **The Panel's stores** (`FixedWindow`, `Limiters`, `TwoFactorProtocol`, `TwoFactorLogin`, `Notifier`):
  limiters, two-factor login, alerts announced once.
- **Algorithms** (`VarInt`, `Slug`, `FileHashes`).

`Wrappers`, `Clock`, `Sets` and `BackupPhases` hold what several of these share.

## What turned out false, and exactly when

- A half-open span of one window holds fewer than Limit automatic restarts (`Crash.RestartsAreBounded`). One
  with both ends can hold Limit (`Crash.ClosedSpanCanReachTheLimit`), but no more, and only if the crash at its
  first instant was restarted (`Crash.ClosedSpansHoldTheLimit`).
- Listener names leave the namespace out. A wanted public port is served if and only if no later one of
  another number has its route name (`PublicPorts.ServedExactlyWithoutACollision`), and there are runs in
  which one is not (`PublicPorts.AWantedPortIsNotServed`).
- The login limiter's Retry-After is exact unless both counters are full and the user's outlives the
  address's (`Limiters.RetryAfterIsExact`); logins lead there if and only if a user may fail less often than
  an address (`Limiters.TheExceptionNeedsASmallerUserLimit`).
- Logins from one address that overlap may pass the check together. With c at once, a window counts up to
  PerIP + c - 1 failures (`Limiters.TheOvershootIsExact`).
- `AcceptTOTPStep` says that two logins with one code cannot both pass. They can when two-factor
  authentication is turned off in between, since that forgets the last step
  (`TwoFactorProtocol.AResetLetsACodePassAgain`), and only then or when it is turned on
  (`TwoFactorProtocol.RepeatedCodesCrossAReset`).
- `ResolveInstall` looks no id up twice, but two ids may name one project; exactly then it is installed
  twice (`ResolveInstall.ProjectsRepeatExactlyForAliases`), and never with a catalog that names every project
  once (`ResolveInstall.NothingIsInstalledTwice`).
- A schedule's run, and its due tasks, happen before the status is written. While the cron is left alone, a
  fire can be handled again exactly as long as no written status has reached it and no later fire has passed,
  if no active run waits beyond that one (`ScheduleProtocol.FiresCanBeHandledUntilSaved`). Its tasks are then
  done again, by a run with another ID unless it starts in the same second
  (`ScheduleProtocol.ALostWriteRepeatsTheFire`). An edit of the cron can bring a fire back exactly as long as no
  written status has reached it (`ScheduleProtocol.AnEditBringsFiresBack`).
- Pods are deleted by name. A restart-at value deletes a second Pod only by missing the Pod that was read, and
  hits one that already carries the value (`GameServerProtocol.RepeatedRestartsMiss`): a UID precondition on
  the deletion would rule it out (`GameServerProtocol.OneDeletionPerRestartValue`). It takes somebody else's
  deletions to miss (`GameServerProtocol.CalmRunsHit`), and a view that lags behind them does it
  (`GameServerProtocol.EvictionsRepeatARestart`).
- The keepLast rule makes the next backup fit only once the last one is over
  (`BackupLimits.NextPlanFitsPerServer`, `BackupLimits.AnUnfinishedBackupFillsTheLimit`), and a run makes one
  backup as long as the list of backups is not stale (`BackupLimits.StaleListsMakeSecondBackups`).
- "The same occurrence is never announced twice" (`internal/panelcache/notified.go`): a second alert can go
  out if and only if its claim comes 23 hours and 44 minutes or more after its round has read the clock
  (`Notifier.SecondAlertsNeedALongDelay`).

## What is assumed

- Versioned writes succeed only on the current version. Backups are read at any version; GameServers and
  Pods are read from caches that lag but do not go back; allocations are listed fresh, by one worker; a
  schedule's status is read fresh, because it is patched without a version check.
- An operator that has recorded a pause keeps its Exec configuration.
- Reading a Pod and sending a command to it is one step. What a console command, a task, the crash log, the
  restic Job or a download does is a parameter, and what other programs do is a free choice of the model.
- Restart-at values are not reused, and the exits of one server are at least a second apart.
- A cron is a function to the least fire time strictly after its argument, always a whole second, that
  never runs out, which is what a validated one is. A reconcile reads the clock once, and clocks do not go
  back; an edit of the cron is seen by the next reconcile.
- The rotation theorem takes a schedule's new backup to sort first; a name with a random suffix, made when
  two backups of a server fall into one second, need not. A list of backups, what is decided on it and the
  deletions or the creation that follow are one step; planners do not overlap.
- The class of the login limiter takes logins from one address one at a time; how far overlapping ones go is
  the protocol beside it. Clocks do not go back where limits or claims are concerned.
- The digits that a secret makes of a time step are an uninterpreted function.
- Regular expressions, SHA-1 and SHA-512, downloads, NFD and lower-casing are parameters
  or already done.

## Model

| member | source | states |
|---|---|---|
| `BackupProtocol.BeforeAtMostOnce` | internal/controller/gameserverbackup_quiesce.go:85-117 | over every run with stale reads, conflicts and deaths between calls, the Before commands are started at most once |
| `BackupProtocol.SendsGoToTheRecordedPod` | internal/controller/gameserverbackup_quiesce.go:85-179 | whichever Pods the Before and After commands of a backup are sent to, they have the UID on record with beforeSentAt |
| `BackupProtocol.RecordedBeforeSent` | internal/controller/gameserverbackup_quiesce.go:100-110 | the version that carries the Pod UID and beforeSentAt is persisted before the send |
| `BackupProtocol.NoPauseAfterTheResume` | internal/controller/gameserverbackup_quiesce.go:85-179 | over every run, Before never starts once resumedAt is persisted |
| `BackupProtocol.NoLeakedPause` | internal/controller/gameserverbackup_controller.go:210-253 | wherever the finalizer is off or the object gone, nothing was recorded or resumedAt is persisted |
| `BackupProtocol.AttemptsAreBounded` | internal/controller/gameserverbackup_quiesce.go:161-172 | no persisted version counts more than 5 resume attempts |
| `BackupProtocol.JobsWaitForTheDecision` | internal/controller/gameserverbackup_controller.go:132-152 | a Job made from a version with a recorded pause was made only after the wait was decided |
| `BackupProtocol.StepKeepsInv` | internal/controller/gameserverbackup_quiesce.go:85-179 | every step of the protocol, of the controller or of others, keeps the invariant behind these results |
| `BackupController.WaitEndsExactlyAtTheDeadline` | internal/controller/backup_quiesce.go:22-40 | the wait goes on exactly while the deadline is ahead and no save was seen; naps are positive and never pass the deadline; what each reason means |
| `BackupController.PollsAreBounded` | internal/controller/backup_quiesce.go:22-40 | a save that never shows up is looked for once per poll interval begun, and the last look is at the deadline |
| `BackupController.TheAfterStepIsOnRecord` | internal/controller/gameserverbackup_quiesce.go:137-179 | from the pause to the end over any retries: the Resumed condition tells if and only if the paused Pod got After, was replaced, had nothing to get, or failed five times |
| `BackupController.RetriesEnd` | internal/controller/gameserverbackup_quiesce.go:161-178 | resumes that stay pending all found the paused Pod, wait 10 seconds longer each time, and are fewer than the attempts left |
| `BackupController.FinishedBackupsTryToResume` | internal/controller/gameserverbackup_controller.go:73-106 | a reconcile of a finished backup with an open pause resolves it or records one more attempt and comes back; it sends exactly the After commands to the paused Pod if that is there, and otherwise nothing |
| `BackupController.FinishedBackupsAreResumed` | internal/controller/gameserverbackup_controller.go:73-106 | over any number of such reconciles: after as many as attempts are left, the pause is resolved |
| `BackupController.BackupReconciler.GameTarget` | internal/controller/gameserverbackup_quiesce.go:30-66 | the hooks and the running Pod that the reads brought back, and exactly when it fails |
| `BackupController.BackupReconciler.SendCommands` | internal/controller/gameserverbackup_quiesce.go:68-75 | one send to the recorded Pod; its console gets the commands in order, up to the first that fails, and success means all of them |
| `BackupController.BackupReconciler.RecordAndSend` | internal/controller/gameserverbackup_quiesce.go:98-110 | the pause is recorded with the Pod and the time, and only then is Before sent, once |
| `BackupController.BackupReconciler.LookForTheSave` | internal/controller/gameserverbackup_quiesce.go:113-132 | the outcome of the wait: requeue for the rest, or the Quiesced condition with its reason |
| `BackupController.BackupReconciler.Quiesce` | internal/controller/gameserverbackup_quiesce.go:85-133 | what it makes of the backup and of the sends in every case, and that it takes only protocol steps |
| `BackupController.BackupReconciler.SendAfter` | internal/controller/gameserverbackup_quiesce.go:161-178 | After is sent once to the Pod that was found; attempts are counted, retried with growing waits, and given up at the fifth |
| `BackupController.BackupReconciler.Close` | internal/controller/gameserverbackup_quiesce.go:154-160 | the After step is over without a send, and that is on record |
| `BackupController.BackupReconciler.Resume` | internal/controller/gameserverbackup_quiesce.go:137-179 | what it makes of the backup and of the sends in every case; when it is over, resumedAt is on record |
| `BackupController.BackupReconciler.StartJob` | internal/controller/gameserverbackup_controller.go:132-162 | waits for the pause, fails without a volume, or ends with exactly one Job creation and phase Running |
| `BackupController.BackupReconciler.MakeJob` | internal/controller/gameserverbackup_controller.go:135-162 | once the pause is decided: one Job and phase Running, or Failed without a volume and no Job |
| `BackupController.BackupReconciler.PollJob` | internal/controller/gameserverbackup_controller.go:166-184 | Completed, Failed or another look, as the Job is; a vanished Job is a failure |
| `BackupController.BackupReconciler.CompleteJob` | internal/controller/gameserverbackup_controller.go:197-205 | only the phase changes, and the write is checked |
| `BackupController.BackupReconciler.ReconcileDelete` | internal/controller/gameserverbackup_controller.go:210-253 | After first; what is left of the backup, what is sent, and exactly which reads make it fail |
| `BackupController.BackupReconciler.Prune` | internal/controller/gameserverbackup_controller.go:218-252 | the finalizer goes only once the clean-up Job is over or not needed, which is made when there is none |
| `BackupController.BackupReconciler.AfterTheEnd` | internal/controller/gameserverbackup_controller.go:96-105 | a finished backup gets its After step before its retention is looked at |
| `BackupController.BackupReconciler.EnforceRetention` | internal/controller/gameserverbackup_controller.go:113-128 | deleted once it has expired; until then it comes back a second after that, or within the hour |
| `BackupController.BackupReconciler.Reconcile` | internal/controller/gameserverbackup_controller.go:73-106 | from any state, dying anywhere, it extends a run of the protocol; without an error, what it leaves of the version it read is persisted and is what its phase calls for, with exactly those commands and Jobs; left alone, it reads the last version and fails only for reads that fail |
| `Crash.DecideCrash` | internal/controller/crash.go:101-134 | the loop decides as the specification does; the lemmas below are about that specification |
| `Crash.DecidingTwiceIsDecidingOnce` | internal/controller/crash.go:101-134 | deciding the same crash again changes neither the window nor the action nor the restart time |
| `Crash.RestartMeansRoom` | internal/controller/crash.go:101-134 | a restart is decided only below the limit, with the switch on, 10 seconds after the first crash of a window and 30 after later ones |
| `Crash.StoredIsTheHistoryInTheWindow` | internal/controller/crash.go:101-119 | the window kept incrementally equals the whole crash history cut to the window |
| `Crash.DecisionFollowsTheHistory` | internal/controller/crash.go:101-134 | the decision from the stored window is the one the whole history calls for |
| `Crash.RestartsAreBounded` | internal/controller/crash.go:119-134 | any half-open span of one window holds fewer than Limit automatic restarts |
| `Crash.ClosedSpansHoldTheLimit` | internal/controller/crash.go:101-134 | a span of one window with both ends holds at most Limit restarts, and that many only if the crash at its first instant was restarted |
| `Crash.ClosedSpanCanReachTheLimit` | internal/controller/crash.go:106-119 | for every limit of two or more and every window with room, crashes at which it holds that many |
| `GameServerProtocol.PodsAreMadeForRunningServers` | internal/controller/gameserver_controller.go:312-350 | over every run, evictions included, each Pod was made from a version that is Running and not suspended and carries its restart-at value |
| `GameServerProtocol.RepeatedRestartsMiss` | internal/controller/gameserver_controller.go:312-350 | over every run no Pod is deleted twice; a restart-at value that deletes a second Pod misses the Pod that was read, and the Pod it hits was made with the value |
| `GameServerProtocol.OneDeletionPerRestartValue` | internal/controller/gameserver_controller.go:337-361 | over every run, of the deletions that hit the Pod they were decided on, no two are for one restart-at value |
| `GameServerProtocol.CalmRunsHit` | internal/controller/gameserver_controller.go:312-350 | while nobody else deletes Pods, every deletion hits the Pod it was decided on |
| `GameServerProtocol.CrashIsPersistedBeforeThePodGoes` | internal/controller/gameserver_crash.go:84-117 | over every run, evictions included, a Pod deleted for a crash has it persisted, as last crash and in the history, and the delay has passed |
| `GameServerProtocol.StoredWindowIsTheHistory` | internal/controller/gameserver_crash.go:84-97 | over every run, evictions included, each persisted version's recentCrashes is the history since the last stop cut to the window |
| `GameServerProtocol.AutomaticRestartsAreBounded` | internal/controller/gameserver_crash.go:58-117 | over every run, whatever Pods others delete, until the user stops the server, fewer than Limit crashes of any window are restarted |
| `GameServerProtocol.EvictionsRepeatARestart` | internal/controller/gameserver_controller.go:312-350 | evictions behind a view that lags lead to two deletions for one restart-at value, each of a Pod made with it in sight |
| `GameServerProtocol.StepKeepsInv` | internal/controller/gameserver_controller.go:312-428 | edits, game exits, evictions, deletions, creations and status writes all keep the invariant |
| `GameServerController.GameServerReconciler.ReconcilePod` | internal/controller/gameserver_controller.go:312-350 | a Pod is made exactly when there is none and one is wanted, and deleted exactly for a stop or a new restart-at value |
| `GameServerController.CrashedPod` | internal/controller/gameserver_crash.go:48-54 | an exit counts as a crash exactly when nobody stops, suspends, deletes or restarts the Pod |
| `GameServerController.GameServerReconciler.StopAfterExit` | internal/controller/gameserver_crash.go:121-130 | the server is left stopped and the Pod on its way out |
| `GameServerController.GameServerReconciler.RecordCrash` | internal/controller/gameserver_crash.go:76-97 | the crash and the new window are persisted unless they are already |
| `GameServerController.GameServerReconciler.CarryOut` | internal/controller/gameserver_crash.go:76-117 | the crash on record, then give up, wait until the restart time, or delete the Pod |
| `GameServerController.GameServerReconciler.ReconcileCrash` | internal/controller/gameserver_crash.go:58-117 | what becomes of the server, of the Pod and of the wait for each decision, and exactly when it cannot go on |
| `GameServerController.EndedGamesAreHandled` | internal/controller/gameserver_crash.go:58-130 | after a reconcile: left stopped with the Pod going after a clean exit or a give-up; otherwise the crash is on record, and the Pod is going or the next reconcile comes by the time of the restart |
| `GameServerController.RecordedCrashHasHistory` | internal/controller/gameserver_crash.go:84-97 | a version has the crash as its last one, with the window that the history of crashes calls for |
| `GameServerController.GameServerReconciler.UpdateStatus` | internal/controller/gameserver_controller.go:400-428 | the window is cleared exactly when the server is not meant to run |
| `GameServerController.GameServerReconciler.Reconcile` | internal/controller/gameserver_controller.go:88-165 | from any state, dying anywhere, it extends a run of the protocol; without an error, a Pod is made or goes as the server and Pod it read call for, the end of a game is handled and on record, and it comes back in time; left alone, it fails only when a Pod cannot be built or a crash log not be saved |
| `EffectivePorts.ComputeEffectivePorts` | api/v1alpha1/extraports.go:34-54 | the loop computes the specified list; the lemmas below are about it |
| `EffectivePorts.ExtrasNeverClash` | api/v1alpha1/extraports.go:44-52 | the Egg's ports stay in front and no extra shares a name, or a number and protocol, with one before it |
| `EffectivePorts.NothingIsLostWithoutAClash` | api/v1alpha1/extraports.go:44-52 | nothing else is in the list, and an extra is missing only for a clash |
| `EffectivePorts.NamesAreDistinct` | api/v1alpha1/extraports.go:34-54 | distinct Egg names make distinct names in the list |
| `EffectivePorts.AllListedExactlyWithoutAClash` | api/v1alpha1/extraports.go:44-52 | all extras are listed, in order, if and only if none clashes |
| `EffectivePorts.CheckExtraPort` | api/v1alpha1/extraports.go:69-86 | the problems of one extra port are found exactly, and none is reported for a good one |
| `EffectivePorts.ValidateExtraPorts` | api/v1alpha1/extraports.go:58-90 | every problem is found and nothing else is reported |
| `EffectivePorts.AcceptedExtrasAreAllListed` | api/v1alpha1/extraports.go:58-90 | whatever the validator accepts is in the effective list, after the Egg's ports |
| `PublicPorts.AllocatePublicPort` | internal/controller/publicexposure.go:16-23 | the lowest free port of the range; none if and only if all are taken |
| `PublicPorts.UsedPublicPorts` | internal/controller/publicexposure.go:27-39 | exactly the ports of all servers' allocations |
| `PublicPorts.AllocateKeepsUnique` | internal/controller/gatewayexposure_controller.go:120-180 | an allocation for one server keeps all allocations of the cluster distinct |
| `PublicPorts.NoPortIsSharedInAnyRun` | internal/controller/gatewayexposure_controller.go:120-203 | in no state of any run do two allocations, or two listeners, share a public port |
| `PublicPorts.PortIsStable` | internal/controller/gatewayexposure_controller.go:136-146 | a port stays with its name while the name is effective and the server exposed |
| `PublicPorts.RebuildListeners` | internal/controller/gatewayexposure_controller.go:285-325 | the listeners by route name, for exposed servers with allocations and a readable Egg |
| `PublicPorts.RebuiltPortsAreDistinct` | internal/controller/gatewayexposure_controller.go:285-350 | the rebuilt listeners have distinct public ports |
| `PublicPorts.WantedPortsAreDistinct` | internal/controller/gatewayexposure_controller.go:291-325 | one public port is wanted by one server for one name |
| `PublicPorts.WantedExactly` | internal/controller/gatewayexposure_controller.go:291-325 | a listener is wanted if and only if it is for an allocated effective port of an exposed server with a readable Egg, with that port and protocol |
| `PublicPorts.TheLastOnesServe` | internal/controller/gatewayexposure_controller.go:285-325 | the rebuilt listeners serve every wanted one that no later one overwrites, and none that is not wanted |
| `PublicPorts.ServedExactlyWithoutACollision` | internal/controller/gatewayexposure_controller.go:205-209 | a wanted port is served if and only if no later one of another number has its route name |
| `PublicPorts.AWantedPortIsNotServed` | internal/controller/gatewayexposure_controller.go:285-325 | two servers of one name in two namespaces with the two lowest free ports of one range, of which the first has no listener |
| `PublicPorts.RouteNamesCollide` | internal/controller/gatewayexposure_controller.go:205-209 | two servers get one route name across namespaces, and wherever the dash falls |
| `GatewayController.GatewayReconciler.KeepEffective` | internal/controller/gatewayexposure_controller.go:138-146 | the kept allocations are exactly those whose name is effective |
| `GatewayController.GatewayReconciler.Missing` | internal/controller/gatewayexposure_controller.go:148-157 | the missing ports are exactly the effective ones without an allocation |
| `GatewayController.GatewayReconciler.Assign` | internal/controller/gatewayexposure_controller.go:164-177 | new ports are distinct, free and in range, one per missing name, until the range is used up |
| `GatewayController.GatewayReconciler.ReconcileOne` | internal/controller/gatewayexposure_controller.go:120-203 | a lawful reallocation; every name has a port unless it reports PoolExhausted, which it does only with every port of the range in use |
| `GatewayController.GatewayReconciler.ReconcilePorts` | internal/controller/gatewayexposure_controller.go:101-111 | on success every effective name of the server has a port or the range was used up, and what was made of the server is written |
| `GatewayController.GatewayReconciler.RebuildGateway` | internal/controller/gatewayexposure_controller.go:285-350 | on success the Gateway has a listener, with its port, for every port wanted by the servers of a list taken meanwhile that is not overwritten, and no other listener |
| `GatewayController.GatewayReconciler.Reconcile` | internal/controller/gatewayexposure_controller.go:75-118 | from any state, dying anywhere, it extends a run of the protocol; without an error the server has its ports, on record, and the Gateway serves a list from then or later; left alone, it fails only for an Egg that cannot be read or Routes |
| `ScheduleProtocol.TasksGoInOrder` | internal/controller/gameserverschedule_controller.go:194-216 | a task begins only after the one before it succeeded in the same run and its delay passed, down to the second; nothing follows a failed task |
| `ScheduleProtocol.NothingIsRepeatedOnceSaved` | internal/controller/gameserverschedule_controller.go:194-216 | after a status write, tasks go on from the index that was written, and a run written as over does nothing more |
| `ScheduleProtocol.SucceededMeansAllTasksDid` | internal/controller/gameserverschedule_controller.go:194-215 | a written Succeeded goes back to a reconcile whose whole task list had succeeded in that run |
| `ScheduleProtocol.FiresAreHandledOnceAndInOrder` | internal/controller/gameserverschedule_controller.go:136-159 | once a fire's handling is written, only later fires are handled |
| `ScheduleProtocol.LastScheduleTimeGrows` | internal/controller/gameserverschedule_controller.go:154-154 | lastScheduleTime never goes back and grows with every fire that is written |
| `ScheduleProtocol.LateFiresStartNothing` | internal/controller/gameserverschedule_controller.go:155-158 | a fire more than five minutes old starts nothing |
| `ScheduleProtocol.FiresCanBeHandledUntilSaved` | internal/controller/gameserverschedule_controller.go:96-159 | from any reachable state, while the cron is left alone, a fire can be handled later on if and only if no written status has reached it, no later fire has passed and no active run waits past the next one |
| `ScheduleProtocol.AnEditBringsFiresBack` | internal/controller/gameserverschedule_controller.go:96-159 | when the cron may be edited: if and only if it is a whole second after the creation that no written status has reached |
| `ScheduleProtocol.ALostWriteRepeatsTheFire` | internal/controller/gameserverschedule_controller.go:96-181 | from any such state with no active run its task can be done twice before the next fire, by runs with one ID if and only if they start in one second |
| `ScheduleProtocol.StepKeepsInv` | internal/controller/gameserverschedule_controller.go:96-216 | cron edits, reads, lost and successful writes, fires and tasks keep the invariant |
| `ScheduleProtocol.NextIsTheFirstFire` | api/v1alpha1/schedule.go:50-60 | NextRun is a fire time, and there is none between its argument and it |
| `ScheduleController.LatestFire` | internal/controller/gameserverschedule_controller.go:136-153 | catching up over any number of missed fires ends at the greatest one that is not ahead, and finds none only when there is none |
| `ScheduleController.ScheduleReconciler.TakeFire` | internal/controller/gameserverschedule_controller.go:154-159 | a fire is recorded and starts a run unless it is too old or the server cannot take it |
| `ScheduleController.ScheduleReconciler.MaybeStart` | internal/controller/gameserverschedule_controller.go:129-160 | a new manual request first and once, else the latest passed fire, else nothing: the whole new status and the record of it |
| `ScheduleController.ScheduleReconciler.Start` | internal/controller/gameserverschedule_controller.go:163-181 | the run's ID, index and first due time, or a run recorded as Skipped |
| `ScheduleController.ScheduleReconciler.Finish` | internal/controller/gameserverschedule_controller.go:183-189 | the active run is over and the last run has its times and result |
| `ScheduleController.RoundAdvances` | internal/controller/gameserverschedule_controller.go:195-215 | one round of the loop over due tasks keeps, or completes, what the whole loop does |
| `ScheduleController.DueRunsAreHandled` | internal/controller/gameserverschedule_controller.go:129-181 | without an active run, a new manual request or else the latest fire is handled, once, and nothing else is; exactly when a run is skipped |
| `ScheduleController.StartedRunsBegin` | internal/controller/gameserverschedule_controller.go:101-106 | a started run has its first task done in the same reconcile, unless that has a delay |
| `ScheduleController.ScheduleReconciler.Advance` | internal/controller/gameserverschedule_controller.go:194-216 | the due tasks are done in a row; it ends waiting for a later one, Failed at the first failure, or Succeeded with none left |
| `ScheduleController.ScheduleReconciler.Wake` | internal/controller/gameserverschedule_controller.go:112-122 | the earlier of the next fire and the next task, but not within a second |
| `ScheduleController.ScheduleReconciler.Reconcile` | internal/controller/gameserverschedule_controller.go:66-122 | a due request or fire is handled and the due tasks are done, whatever becomes of the write; without an error what is left is written, no due task is left over, and it comes back in time; without failing calls it works on every valid schedule |
| `BackupLimits.Store.RotateBackups` | internal/controller/gameserverschedule_controller.go:307-348 | exactly the backups that should go are deleted, or some of them when a call fails |
| `BackupLimits.Store.DeleteBeyond` | internal/controller/gameserverschedule_controller.go:334-346 | the counting loop, newest first, deletes exactly those behind the newest keepLast |
| `BackupLimits.KeepOf` | internal/controller/gameserverschedule_controller.go:308-313 | the largest keepLast of the Backup tasks |
| `BackupLimits.FirstDecides` | internal/controller/gameserverschedule_controller.go:325-333 | the head of the sorted list tells whether the newest backup is completed |
| `BackupLimits.RotationLeaves` | internal/controller/gameserverschedule_controller.go:334-346 | the newest keepLast live completed backups stay, and everything else is untouched; nothing goes while the newest is not completed |
| `BackupLimits.RotatingTwiceIsRotatingOnce` | internal/controller/gameserverschedule_controller.go:307-348 | rotation is idempotent |
| `BackupLimits.Store.RunBackup` | internal/controller/gameserverschedule_controller.go:272-302 | a new backup exactly when the run has none and there is room under both limits, else which limit; or an error, which only a failing call or a taken name makes |
| `BackupLimits.OneBackupMore` | internal/backupplan/plan.go:151-160 | a backup takes a place under the organization's limit exactly as a live one, not failed, on the platform |
| `BackupLimits.Store.DoBackup` | internal/controller/gameserverschedule_controller.go:272-302 | the same as a step of the run; an accepted schedule is not refused per server |
| `BackupLimits.Store.Reconcile` | internal/controller/gameserverschedule_controller.go:97-106 | the rotation comes first and gets through unless it is reported, so keepLast live completed backups are left; then the due Backup tasks, with others acting in between: it extends the run by steps only, one backup per run ID |
| `BackupLimits.Store.Plan` | internal/backupplan/plan.go:151-170 | refused per server and then per organization exactly by the counts of live platform backups; without failing calls never an error |
| `BackupLimits.ScheduleBackupHeadroom` | internal/panelapi/schedules.go:140-170 | refused exactly when a Backup task keeps nothing in check or leaves no room |
| `BackupLimits.HeadroomBoundsKeep` | internal/panelapi/schedules.go:140-170 | an accepted schedule keeps at least one and fewer than the limit |
| `BackupLimits.CountAfterRotation` | internal/backupplan/plan.go:151-160 | what the next Plan counts: the completed backups rotation leaves plus the unfinished ones |
| `BackupLimits.NextPlanFitsPerServer` | internal/backupplan/plan.go:161-163 | over every run of an accepted schedule whose last backup is over, the next Plan is not refused per server |
| `BackupLimits.ReadyPlansFit` | internal/backupplan/plan.go:161-163 | nor is any Plan after a rotation that found every backup over, whatever happened since, until one is made |
| `BackupLimits.AnUnfinishedBackupFillsTheLimit` | internal/backupplan/plan.go:161-163 | with an unfinished backup it is refused |
| `BackupLimits.OneBackupPerRun` | internal/controller/gameserverschedule_controller.go:276-284 | over every run, however often a Backup task is done again, one backup carries its run ID |
| `BackupLimits.StaleListsMakeSecondBackups` | internal/controller/gameserverschedule_controller.go:276-284 | with an older list a second one is made if and only if the list does not show the first |
| `ResolveInstall.PickVersion` | internal/modsource/resolve.go:82-93 | the first wanted version, or which error |
| `ResolveInstall.PickTakesTheFirst` | internal/modsource/resolve.go:87-92 | a version is picked if and only if one fits, and it is the first |
| `ResolveInstall.QueueDependencies` | internal/modsource/resolve.go:72-77 | every dependency ends up queued at most one step further away, nobody twice |
| `ResolveInstall.LookUp` | internal/modsource/resolve.go:64-78 | one lookup: the version and its unseen dependencies, or which error, and never more than twenty versions |
| `ResolveInstall.Resolve` | internal/modsource/resolve.go:47-80 | ends on every catalog, with an outcome that an ordered trace of lookups accounts for, errors included |
| `ResolveInstall.OutcomeIsUnique` | internal/modsource/resolve.go:47-80 | a request has one such outcome, so lookups, order, result and error are those of the specification |
| `ResolveInstall.TheRequestComesFirst` | internal/modsource/resolve.go:52-71 | the request is first and never skipped, and there are at most twenty versions |
| `ResolveInstall.EveryDependencyIsMet` | internal/modsource/resolve.go:57-77 | every dependency of a version less than five steps away is installed or reported as skipped |
| `ResolveInstall.TheFirstNeedPins` | internal/modsource/resolve.go:57-77 | an installed dependency has the version that the first need of it pins, if that one pins one |
| `ResolveInstall.DepthIsDistance` | internal/modsource/resolve.go:69-77 | a lookup's depth is its distance from the request, and chains of up to five needs miss nobody |
| `ResolveInstall.ProjectsRepeatExactlyForAliases` | internal/modsource/resolve.go:53-77 | a project is installed twice if and only if two looked-up ids answer with it |
| `ResolveInstall.NothingIsInstalledTwice` | internal/modsource/resolve.go:53-77 | with a catalog that answers no two ids with versions of one project, nothing is installed twice |
| `ResolveInstall.ASlugIsInstalledTwice` | internal/modsource/resolve.go:53-77 | asked for by slug and needed by id, a project is installed twice |
| `JarDependencies.FetchJarDependency` | internal/panelapi/modsinstall.go:438-467 | the first candidate project that fits, and none only if none fits |
| `JarDependencies.CollectNeeds` | internal/panelapi/modsinstall.go:395-404 | every requirement of the plan that is not provided and not tried is taken up |
| `JarDependencies.Fill` | internal/panelapi/modsinstall.go:408-430 | a need is filled by one new file, already filled, or warned about |
| `JarDependencies.ResolveJarDependencies` | internal/panelapi/modsinstall.go:374-432 | every requirement is provided or warned about, unless the file ends a chain of five needs; always when a round finds nothing to do |
| `JarDependencies.AddedFilesRepeatNoProject` | internal/panelapi/modsinstall.go:388-426 | the original plan stays in front, no added file repeats a project, twenty files at most |
| `JarDependencies.AddedFilesAreNeeded` | internal/panelapi/modsinstall.go:408-430 | each added file provides what an earlier one requires and nobody before it provided |
| `FixedWindow.EachWindowAllowsTheLimit` | internal/panelcache/requests.go:67-81 | of the calls of one window the first ones are allowed, as many as the limit |
| `FixedWindow.SpansAreLimited` | internal/panelcache/requests.go:67-81 | at most twice the limit in any span of one window, one less in any shorter span |
| `FixedWindow.TheBoundIsReached` | internal/panelcache/requests.go:67-81 | the bound of twice the limit is reached |
| `FixedWindow.WaitIsExact` | internal/panelcache/requests.go:77-80 | a refused call is refused until exactly the time it was told, and the first one after is allowed |
| `Limiters.RequestLimiter.Allow` | internal/panelcache/requests.go:67-81 | the counter is that of all calls for the key, other keys are untouched, and the answer and the wait follow |
| `Limiters.RetryAfterIsExact` | internal/panelcache/memory.go:91-103 | the block lifts when told if and only if not both counters are full with the user's outliving the address's |
| `Limiters.TheExceptionNeedsASmallerUserLimit` | internal/panelcache/memory.go:91-124 | logins lead to that exception if and only if PerUserIP is below PerIP, which is at least 2 |
| `Limiters.LoginLimiter.LiveCounter` | internal/panelcache/memory.go:82-89 | an expired counter is dropped, a live one kept |
| `Limiters.LoginLimiter.Blocked` | internal/panelcache/memory.go:91-103 | blocked exactly by a full live counter, the address first |
| `Limiters.LoginLimiter.RecordFailure` | internal/panelcache/memory.go:105-117 | both counters count one more, in a new window when the old one is over |
| `Limiters.LoginLimiter.RecordSuccess` | internal/panelcache/memory.go:119-124 | only the user's counter is forgotten |
| `Limiters.LoginLimiter.Login` | internal/panelapi/authhandlers.go:113-138 | check, password, record: failures from one address stay within its limit, whatever succeeds in between |
| `Limiters.LoginLimiter.SecondStep` | internal/panelapi/twofactor.go:136-168 | the second step counts its failures with those of the first, and forgets the user's counter once the ticket is consumed |
| `Limiters.FailuresPerAddressAreLimited` | internal/panelcache/memory.go:91-124 | at most twice PerIP failures from one address, of either step, in any span of one window |
| `Limiters.TheOvershootIsExact` | internal/panelapi/authhandlers.go:113-138 | with c logins from an address at once, one window counts up to PerIP + c - 1 failures, and no more |
| `TwoFactorProtocol.OneSessionPerTicket` | internal/panelapi/twofactor.go:162-174 | over all interleavings a ticket yields at most one session |
| `TwoFactorProtocol.Verify` | internal/twofactor/totp.go:45-58 | a step within one of the clock's for which the secret makes these digits, and none only if there is none |
| `TwoFactorProtocol.SessionsHavePassed` | internal/panelapi/twofactor.go:77-174 | a session rests on digits of its own request that are right for a secret that was in force and a step at most one off the clock, or on a recovery code of its batch |
| `TwoFactorProtocol.WrongCodesGetNoSession` | internal/panelapi/twofactor.go:77-174 | a request whose digits no secret ever in force makes, or whose recovery code is of no batch, gets no session |
| `TwoFactorProtocol.RightCodesCanLogIn` | internal/panelapi/twofactor.go:77-174 | from any reachable state a live ticket and a right code can get a session |
| `TwoFactorProtocol.AcceptedStepsIncrease` | internal/paneldb/twofactor.go:56-67 | within an enrolment accepted steps strictly increase, from the confirming one (section 5.2 of RFC 6238) |
| `TwoFactorProtocol.RepeatedCodesCrossAReset` | internal/paneldb/twofactor.go:40-67 | a code is accepted twice only if two-factor authentication was turned off or on while a request was under way |
| `TwoFactorProtocol.AResetLetsACodePassAgain` | internal/paneldb/twofactor.go:40-67 | it does happen, for every secret and every pair of a confirming and a later step |
| `TwoFactorProtocol.RecoveryCodesWorkOnce` | internal/paneldb/twofactor.go:95-104 | a recovery code of a batch is used once |
| `TwoFactorProtocol.FiveFailuresAreTheEnd` | internal/panelcache/twofactor.go:194-207 | a ticket with five counted failures has no session |
| `TwoFactorProtocol.StepKeepsInv` | internal/panelapi/twofactor.go:77-187 | every step of a request, of the user and of time keeps the invariant |
| `TwoFactorLogin.ChallengeStore.Live` | internal/panelcache/twofactor.go:165-172 | an expired challenge is forgotten |
| `TwoFactorLogin.ChallengeStore.Fail` | internal/panelcache/twofactor.go:194-207 | one more failure, and at the maximum the challenge is gone: the protocol's failure of a ticket |
| `TwoFactorLogin.ChallengeStore.Consume` | internal/panelcache/twofactor.go:209-218 | the user once, and the challenge is gone: the protocol's consumption of a ticket |
| `TwoFactorLogin.Server.CheckSecondFactor` | internal/panelapi/twofactor.go:77-96 | only right codes pass, and when no call fails and nobody interferes, exactly those |
| `TwoFactorLogin.Server.HandleLogin2FA` | internal/panelapi/twofactor.go:108-187 | a session only for a live ticket and a right code, exactly then when nothing interferes; otherwise a failure is counted |
| `TwoFactorLogin.Server.ConfirmIdentity` | internal/panelapi/twofactor.go:272-297 | only the password with a right code that came with this very request confirms, and when nothing interferes exactly those |
| `TwoFactorLogin.Server.Handle2FAEnable` | internal/panelapi/twofactor.go:221-266 | whoever interferes, on only with a code of the new secret, and that code cannot log in |
| `TwoFactorLogin.Server.Handle2FADisable` | internal/panelapi/twofactor.go:299-310 | whoever interferes, off only with password and a right code of this request; exactly then when nothing interferes |
| `VarInt.WriteVarInt` | internal/gamequery/minecraft.go:107-117 | the loop writes unsigned LEB128 of the bit pattern |
| `VarInt.EncodingIsTerminated` | internal/gamequery/minecraft.go:107-117 | only the last byte ends the encoding, and its payload is the number |
| `VarInt.BytesAreDigits` | internal/gamequery/minecraft.go:107-117 | byte i modulo 128 is the number divided by 128 to the i, modulo 128 |
| `VarInt.EncodingLength` | internal/gamequery/minecraft.go:107-117 | one byte for every seven bits, five at most |
| `VarInt.EncodingIsShortest` | internal/gamequery/minecraft.go:107-117 | no bytes with the same value are shorter |
| `VarInt.EncodingIsPrefixFree` | internal/gamequery/minecraft.go:107-117 | no encoding is a prefix of another |
| `VarInt.ReadVarInt` | internal/gamequery/minecraft.go:119-132 | the value up to the first ending byte among five, or which error |
| `VarInt.ReadingIsUnique` | internal/gamequery/minecraft.go:119-132 | an input has one reading |
| `VarInt.RoundTrip` | internal/gamequery/minecraft.go:107-132 | reading what was written, whatever follows, gives the number and consumes exactly that |
| `Notifier.DetectOccurrences` | internal/panelapi/notifyevents.go:49-107 | the loops find the specified occurrences, in order |
| `Notifier.OccurrencesAreExact` | internal/panelapi/notifyevents.go:49-107 | exactly the servers given up on, failed backups, failed resumes and failed runs of the listing, each at its time |
| `Notifier.IdentitiesAreDistinct` | internal/panelapi/notifyevents.go:49-107 | one listing yields no identity twice |
| `Notifier.NotifiedStore.Claim` | internal/panelcache/notified.go:54-56 | claimed exactly when no live claim is there, for 24 hours |
| `Notifier.Panel.Notify` | internal/panelapi/notifier.go:134-153 | an alert only for an unmuted event and a successful claim; when no call fails, exactly for an unmuted one that is not claimed |
| `Notifier.Panel.NotifyOnce` | internal/panelapi/notifier.go:72-113 | only eligible occurrences of the listing are announced, while other replicas go on; when left alone, all that are unmuted and unclaimed are |
| `Notifier.TwoAlertsAreADayApart` | internal/panelapi/notifier.go:72-153 | two alerts for one identity go out in some run of all replicas if and only if each was due when its round read the clock and the claims are a day apart |
| `Notifier.SecondAlertsNeedALongDelay` | internal/panelapi/notifier.go:72-153 | an occurrence is announced twice in some run, the second claim this long after its clock was read, if and only if that is 23 hours 44 minutes or more |
| `Notifier.OneAlertPerOccurrence` | internal/panelapi/notifier.go:72-153 | so it is with what the replicas' own methods leave in the store |
| `Slug.Slugify` | internal/panelapi/slug.go:16-42 | the loop and the trimming compute the specified slug |
| `Slug.SlugsAreLabels` | internal/panelapi/slug.go:16-42 | a label (section 2.3.1 of RFC 1035) of at most 50 characters, without two dashes in a row |
| `Slug.LabelsAreTheirOwnSlugs` | internal/panelapi/slug.go:16-42 | labels are fixed points, and so are slugs |
| `Slug.SlugsKeepTheWords` | internal/panelapi/slug.go:16-42 | the name's letters and digits in order, all of them if and only if the trimmed name with its prefix has at most 50 characters |
| `Slug.UniqueSlug` | internal/panelapi/slug.go:47-56 | the first free candidate, among the first |taken| + 1 |
| `Slug.NumberedSlugsAreLabels` | internal/panelapi/slug.go:51-55 | numbered slugs stay labels of at most 63 characters |
| `FileHashes.MixWords` | internal/modsource/hash.go:74-82 | the loop that shortens the data from the front mixes the words by index |
| `FileHashes.MixTail` | internal/modsource/hash.go:83-91 | the bytes mixed in one by one are one little-endian number |
| `FileHashes.Murmur2` | internal/modsource/hash.go:72-99 | the whole hash equals the specification over the byte sequence |
| `FileHashes.HashOfNothing` | internal/modsource/hash_test.go:36-40 | the reference value for no data |
| `FileHashes.HashOfOneWord` | internal/modsource/hash.go:72-99 | the value for "abcd", by every constant and shift of a word |
| `FileHashes.OnlyWhiteSpaceGoes` | internal/modsource/hash.go:53-57 | exactly the places of bytes other than tab, line feed, carriage return and space count |
| `FileHashes.KeptFromPlaces` | internal/modsource/hash.go:53-57 | the bytes that are kept are those at these places |
| `FileHashes.PlacesAreInOrder` | internal/modsource/hash.go:53-57 | they are kept in order |
| `FileHashes.HashReads` | internal/modsource/hash.go:38-68 | hashes and size depend on the content alone, however it is cut into reads |
| `FileHashes.WhiteSpaceDoesNotMatter` | internal/modsource/hash.go:53-57 | white space put in or taken out anywhere leaves the fingerprint |

## Left out

- GameServerController.GameServerReconciler.Reconcile: the finalizer, volume, Secret, Service and
  NetworkPolicy are one answer, and conditions, phases and metrics are not modelled.
- GatewayController.GatewayReconciler.ReconcileOne: hosts, conditions and the routes are not modelled, nor
  the order of allocations and listeners, which are sorted by name.
- JarDependencies.ResolveJarDependencies: says nothing about two planned files with one file name; the code
  compares names with the mods directory only.
- ScheduleController.ScheduleReconciler.Advance: what Command, Restart, Start and Stop do to the server is
  not modelled, only whether the task succeeded.
- BackupLimits.Store.RunBackup: the destination and the Secret of a backup are not modelled, and its ID is
  the caller's choice.
- Limiters.LoginLimiter.Login: takes no overlapping logins from one address; `Limiters.TheOvershootIsExact` is
  about those, for the address's counter alone.
- VarInt.RoundTrip: is about the bit pattern; the conversion between int32 and its bit pattern, the identity on
  bits, is left out.
- The Redis-backed stores, whose scripts do the same in one step each.
- The restore controller and its lock annotation.
- Cron parsing, time zones and the sampled minimum gap of `ValidateSchedule`.
- Parsing of a backup's expiry, and the clean-up Job's content.
- Rendering of Pods, policies, routes and Secrets, the transports, mail and Discord, HTTP handlers and the UI.
- Console tickets (`MemoryTicketStore`) and pending secrets, which would only add easy members.
