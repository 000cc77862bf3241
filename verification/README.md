# hermes-cluster: the session protocol of the lifecycle-manager, verified

The lifecycle-manager keeps chat-agent sessions alive and cheap. A session is a SandboxClaim
and the sandbox it is bound to, plus, when it talks to chats, a gateway row and chat routes in
the relay connector. A sweeper walks the claim list over and over: it resumes sessions whose
scheduled wake is due, destroys those past their TTL, and suspends those that have been idle.
HTTP callers create, wake, restart and destroy sessions beside it. Nothing is stored but the
Kubernetes objects and the connector's rows; every call may fail, and a call that reports an
error may have taken effect.

This project models that protocol and proves what it keeps.

Two layers carry the sweeper and the manager:

* Classes `Cluster`, `Hub`, `SessionManager` and `Runner` follow the program statement by
  statement. Every remote call takes an outcome (`Delivered`, `Refused`, or `Lost`: applied, but
  the caller sees an error), and every method is proved equal to a function of the old state.
* `Interleaving` makes each call one atomic step, with any number of operations in flight
  beside the sweeper.

`Refinement` proves that the first layer's operations and turns are runs of the second layer's
steps with nothing in between.

The theorems are about those functions and steps: over every run (`History`, `ColdStart`), every
pair of runs that lose memory at different times (`MemoryLoss`, `LostOrder`), every sweep
(`SweepLaws`, `NormalForm`), every sequence of paced sweeps (`Lateness`, `Promptness`), every failure
pattern (`CreateLaws`, `DecommissionLaws`), every requested knob (`KnobLaws`) and every interleaving
(`Interleaving`, and `CacheRaces` for the instance cache). `Throttle`, `CronJobs`, `Knobs`, `Config`,
`Selector`, `Reconcile`, `EnvLines`, `EnvFile` and `Bootstrap` are the connector client's 429 gate,
the cron minimum, the duration knobs, the configuration checks, the selector parser, the reconcile
report, and the boot script of a session pod.

Times are integer nanoseconds. Durations are 64-bit: products wrap, differences saturate.

Where the code does something other than its comments say, the model follows the code:

* The pause between sweeps is said to be jittered by 10 percent; it is within 5 percent
  (`Lateness.PauseWithinFivePercent`).
* "No half-session survives" a failed create (lifecycle-manager/internal/lifecycle/manager.go:83-85)
  has exceptions: `CreateLaws.RollbackOrphansIff` says exactly when a gateway row is left behind,
  `CreateLaws.FailedCreateRestoresIff` when anything is.
* The configuration check on horizon and boot margin is meant to exclude a wake that is due at
  once; `Config.AcceptedWakesLieAheadIff` says what it excludes. Nothing checks the margin's sign.
* Losing the quiet clocks "only delays suspends" (lifecycle-manager/internal/sweeper/runner.go:42-46)
  with the exception that `LostOrder.OrderKeptIff` decides.
* The boot script promises to leave other .env content untouched; it turns '\r' and "\r\n" into
  '\n' (`EnvFile.ReadTextIs`), and its retry loop has no deadline for a reply of `null`
  (`Bootstrap.HangsIff`).

## Model

| member | source | states |
|---|---|---|
| Kube.Cluster.CreateClaim | lifecycle-manager/internal/k8s/fake.go:63-84 | The claim and, with a settled controller, its Ready sandbox appear unless the id is taken; a lost call applies and still reports an error |
| Kube.Cluster.GetClaim | lifecycle-manager/internal/k8s/fake.go:86-99 | Reads one claim; which of not-found and unreachable it reports |
| Kube.Cluster.ListClaims | lifecycle-manager/internal/k8s/fake.go:101-118 | Lists exactly the claims there are, each once |
| Kube.Cluster.DeleteClaim | lifecycle-manager/internal/k8s/fake.go:120-136 | Removes the claim and the sandbox it is bound to, and no other |
| Kube.Cluster.PatchWakeAt | lifecycle-manager/internal/k8s/fake.go:138-160 | Changes the wake-at of one existing claim and nothing else |
| Kube.Cluster.GetSandbox | lifecycle-manager/internal/k8s/fake.go:162-175 | Reads one sandbox; which of not-found and unreachable it reports |
| Kube.Cluster.PatchOperatingMode | lifecycle-manager/internal/k8s/fake.go:177-194 | Sets one existing sandbox's mode with the conditions that follow from it, and nothing else |
| Kube.StateIs | lifecycle-manager/internal/session/state.go:39-54 | Which of the six states is derived, each with its exact condition |
| Relay.IndexHoldsTheLastRow | lifecycle-manager/internal/lifecycle/manager.go:316-319 | The by-id index has exactly the ids listed, each with the last row that bears it |
| Relay.ProvisionNeverClears | charts/hermes-cluster/files/bootstrap.py:31-32 | Wake URL, display name and route keys each survive a request that leaves them out, and a repeated request changes nothing |
| Relay.Hub.Provision | lifecycle-manager/internal/connector/client.go:65-91 | Provisioning adds or updates one row and never clears a stored value |
| Relay.Hub.SetRoute | lifecycle-manager/internal/connector/client.go:93-113 | Binds one chat to one gateway |
| Relay.Hub.DeleteInstance | lifecycle-manager/internal/connector/client.go:110-112 | Purges the gateway row with every route bound to it, and no others |
| Decimal.ParseUndoesFormat | lifecycle-manager/internal/lifecycle/manager.go:99-104 | Every 64-bit integer written into an annotation parses back to itself |
| Decimal.ParseRejectsOutOfRange | lifecycle-manager/internal/lifecycle/manager.go:272-275 | The text of an integer outside 64 bits is an error, so the default applies |
| Decimal.FormatIsShortest | lifecycle-manager/internal/lifecycle/manager.go:99-104 | What is written is the shortest text that spells the number |
| Decimal.ParseIntIff | lifecycle-manager/internal/lifecycle/manager.go:272-275 | Parsing accepts exactly the texts that spell a 64-bit integer (a sign if any, leading zeros if any, digits), and reads that integer |
| Knobs.KnobRoundTrip | lifecycle-manager/internal/lifecycle/manager.go:268-277 | Requested seconds come back unchanged through annotation, duration and view if and only if they are at most 9223372036; negatives give the default; beyond the bound the product wraps |
| Knobs.KnobReads | lifecycle-manager/internal/lifecycle/manager.go:268-277 | Any annotation text gives the seconds it spells, in 64 bits, and the default if it spells none or a negative number |
| Knobs.HugeTtlBecomesSubSecond | lifecycle-manager/internal/lifecycle/manager.go:276 | A TTL of about 585 years is stored as a positive one below a second |
| Knobs.JustPastTheBoundDisables | lifecycle-manager/internal/lifecycle/manager.go:276 | One second past the bound the knob turns negative, which both sweepers read as disabled |
| Idle.IsQuiet | lifecycle-manager/internal/agent/client.go:36-38 | A poll is quiet if and only if it was answered and shows no active agent and no active session |
| Idle.DecideIdleIffJustified | lifecycle-manager/internal/sweeper/idle.go:52-96 | The eleven guards, on clamped differences and the newer timestamp only, let a session through if and only if every fact of an unordered, exact justification holds |
| Idle.StoredWakeIsInTime | lifecycle-manager/internal/sweeper/idle.go:107-116 | An allowed suspend has its fire beyond the horizon; the stored wake lies in the second before the boot margin starts, and is no more than a second old under horizon >= margin |
| Idle.SpelledIff | lifecycle-manager/internal/sweeper/runner.go:210 | A wake can be stored if and only if its instant lies in the years 0000 to 9999, and is then its second |
| Idle.WakesLieAheadIff | lifecycle-manager/internal/sweeper/runner.go:210 | No stamped wake is due already if and only if the horizon exceeds the margin by a second less a nanosecond (or is the largest duration) |
| CronJobs.NextCronFire | lifecycle-manager/internal/agent/http.go:109-127 | The minimum over the jobs that are not disabled and have a next run, nothing if and only if there is none, an error if and only if one that is not disabled is malformed |
| CronJobs.EarliestIsUnique | lifecycle-manager/internal/agent/http.go:94-128 | That contract has one answer per job list, with the exact conditions for an error and for no fire at all |
| CronJobs.EnabledJobsDecide | lifecycle-manager/internal/agent/http.go:110-112 | Leaving a disabled job out changes no answer, and a job that does not say counts as enabled |
| CronJobs.GateKeepsEveryFire | lifecycle-manager/internal/sweeper/runner.go:194-206 | A suspend the gate lets through has every enabled fire beyond the horizon and a wake that, if RFC 3339 can spell it, precedes each by the margin once stored |
| CronJobs.GateBlocksOnlyForANearFire | lifecycle-manager/internal/sweeper/idle.go:111-113 | A suspend the gate blocks has an enabled fire within the horizon |
| CronJobs.SuspendsKeepEveryFire | lifecycle-manager/internal/sweeper/runner.go:190-220 | From job list to cluster: a turn that sends a suspend has read a well-formed schedule, every enabled fire lies beyond the horizon, and the wake stored on the claim, if RFC 3339 can spell it, precedes each by the margin |
| Manager.SessionManager.Create | lifecycle-manager/internal/lifecycle/manager.go:86-161 | The whole new state of cluster, connector and cache, and the reply, for every outcome of every call, the final read included |
| Manager.SessionManager.ProvisionOrRollBack | lifecycle-manager/internal/lifecycle/manager.go:118-158 | Provision and route bindings, or their rollback together with the claim |
| Manager.SessionManager.BindRoutes | lifecycle-manager/internal/lifecycle/manager.go:134-145 | Binds chat by chat, default platform filled in, until a call fails |
| Manager.SessionManager.Get | lifecycle-manager/internal/lifecycle/manager.go:164-170 | The session view from claim and sandbox, and what the read does to the instance cache |
| Manager.SessionManager.SandboxOf | lifecycle-manager/internal/lifecycle/manager.go:280-293 | The sandbox under the bound name, or under the claim's while unbound; any failure reads as none |
| Manager.SessionManager.InstancesNow | lifecycle-manager/internal/lifecycle/manager.go:298-324 | A cached map under five seconds old, else the index of a new reply; an error gives no map, never an expired one |
| Manager.SessionManager.Invalidate | lifecycle-manager/internal/lifecycle/manager.go:326-330 | Empties the cache |
| Manager.SessionManager.Wake | lifecycle-manager/internal/lifecycle/manager.go:187-208 | Sets the sandbox Running and only then clears the wake-at the claim was read with; the clear's failure is not reported |
| Manager.SessionManager.Restart | lifecycle-manager/internal/lifecycle/manager.go:217-228 | Suspends and resumes; only the second half's error is reported |
| Manager.SessionManager.Decommission | lifecycle-manager/internal/lifecycle/manager.go:234-256 | Success is reported if and only if the read, the purge where the session is flagged and the connector enabled, and the delete were answered, and then claim and row are gone; deprovisioned if and only if the purge was due, answered and found a row; a purge not known done keeps the claim |
| Manager.BindAllStopped | lifecycle-manager/internal/lifecycle/manager.go:141-143 | After a failed route call no further chat is bound |
| Manager.WakeWrites | lifecycle-manager/internal/lifecycle/manager.go:187-208 | Field by field: the sandbox patched Running, the wake-at cleared only behind an answered patch, nothing else changed |
| Manager.RestartWrites | lifecycle-manager/internal/lifecycle/manager.go:217-228 | Field by field: the sandbox patched twice whatever became of the first patch, nothing else changed |
| Manager.DecommissionWrites | lifecycle-manager/internal/lifecycle/manager.go:239-253 | On the session's own part of the world, a decommission is its purge followed by its delete |
| CreateLaws.FailedCreateRestoresIff | lifecycle-manager/internal/lifecycle/manager.go:86-161 | For an id that is fresh or taken, a create that reports failure leaves claims, sandboxes, instances and routes as they were if and only if it did not lose its claim's answer, its rollback, if it came to one, got through without a chat having been taken over, and it was not just the final read that failed: then the whole session stays. A taken id is refused and nothing is touched |
| CreateLaws.RollbackRestoresIff | lifecycle-manager/internal/lifecycle/manager.go:147-156 | Whatever step failed and whatever chats were asked for, the rollback restores the connector if and only if nothing was provisioned, or its purge applied and no bind that took effect had taken a chat over |
| CreateLaws.RollbackOrphansIff | lifecycle-manager/internal/lifecycle/manager.go:149-154 | A rolled-back create leaves a gateway row without a claim if and only if the purge failed while the delete applied |
| CreateLaws.PurgeUndoesBindingIff | lifecycle-manager/internal/lifecycle/manager.go:134-149 | Purging gives back the routes there were before the binds if and only if none that took effect took a chat over |
| CreateLaws.BindAllBinds | lifecycle-manager/internal/lifecycle/manager.go:134-145 | The routes after binding differ in exactly the chats of the binds that took effect, and it goes through if and only if every call is answered |
| CreateLaws.CreateLeavesTheSession | lifecycle-manager/internal/lifecycle/manager.go:86-161 | Success leaves the claim as requested, its sandbox if one is bound at once, the gateway row with each of its fields as requested (of a row already there a display name and route keys survive a request without them), every requested chat bound, and every other claim, sandbox, row and chat as it was |
| CreateLaws.CreateEndsAs | lifecycle-manager/internal/lifecycle/manager.go:86-161 | Which of its six ends a create comes to, each with its exact condition on the request, the ids taken and the calls answered |
| CreateLaws.ValidIdIff | lifecycle-manager/internal/session/session.go:37 | The ids accepted are exactly those the pattern matches |
| KnobLaws.KnobsAreTheirOwn | lifecycle-manager/internal/lifecycle/manager.go:258-266 | TTL and idle timeout are each read from their own annotation, whatever the other says: the default for no text or an unusable one, the seconds spelled otherwise |
| KnobLaws.DestroyedOnTime | lifecycle-manager/internal/sweeper/runner.go:139-152 | However long after a create, a fault-free sweep destroys its session if and only if the TTL that was asked for, or else the default, is positive and its age has reached it |
| KnobLaws.SuspendedNoEarlier | lifecycle-manager/internal/sweeper/idle.go:52-83 | No turn suspends a session before the idle timeout that was asked for at its creation, or else the default, has run since its last message and since it became ready |
| KnobLaws.GetShows | lifecycle-manager/internal/lifecycle/manager.go:333-357 | A read shows each knob from its own annotation, and the state by deletion, mode and conditions |
| KnobLaws.CreateShows | lifecycle-manager/internal/lifecycle/manager.go:160 | The caller of a create that worked is shown the id, name and seconds that were asked for |
| CreateLaws.RollbackKeepsTheRoutesIff | lifecycle-manager/internal/lifecycle/manager.go:139-149 | After a rollback the routes are what they were if and only if every bind that took effect hit a free chat and the purge applied, or none took effect |
| Sweeper.Runner.ClearWakeAt | lifecycle-manager/internal/sweeper/runner.go:133-137 | Drops one claim's wake-at and nothing else |
| Sweeper.Runner.SweepWake | lifecycle-manager/internal/sweeper/runner.go:102-131 | Clears malformed and stale schedules, resumes what is due, leaves the rest |
| Sweeper.Runner.SweepTtl | lifecycle-manager/internal/sweeper/runner.go:139-152 | Decommissions when the claim's age has reached a positive TTL |
| Sweeper.Runner.TrackQuietClock | lifecycle-manager/internal/sweeper/runner.go:235-248 | A quiet poll starts or keeps the clock, anything else removes it |
| Sweeper.Runner.Observe | lifecycle-manager/internal/sweeper/runner.go:159-184 | Polls running sessions only and gathers the facts of one idle evaluation |
| Sweeper.Runner.SweepIdle | lifecycle-manager/internal/sweeper/runner.go:154-221 | Without instance data or connector flag nothing happens, not even to the clock; otherwise the guards, the cron gate and the two writes decide |
| Sweeper.Runner.Suspend | lifecycle-manager/internal/sweeper/runner.go:207-220 | Stamps first, and sends the suspend only once the stamp is stored |
| Sweeper.Runner.SweepOne | lifecycle-manager/internal/sweeper/runner.go:81-87 | One claim's turn equals its session's step on its own part of the world |
| Sweeper.Runner.PruneQuietClocks | lifecycle-manager/internal/sweeper/runner.go:251-264 | Keeps the clocks of listed claims and no others |
| Sweeper.Runner.Sweep | lifecycle-manager/internal/sweeper/runner.go:66-92 | A sweep is the fold of the sessions' steps over the list; without the list it does nothing |
| Sweeper.Runner.SweepKeepingHistory | lifecycle-manager/internal/sweeper/runner.go:66-92 | The running object keeps its memory in step with its history, which is what the whole-run theorems assume |
| Sweeper.Runner.CreateKeepingHistory | lifecycle-manager/internal/lifecycle/manager.go:86-161 | So does a create between the sweeps, which may drop and refill the instance cache |
| Sweeper.Runner.DecommissionKeepingHistory | lifecycle-manager/internal/lifecycle/manager.go:234-256 | So does a decommission, which may drop the cache |
| Sweeper.Runner.GetKeepingHistory | lifecycle-manager/internal/lifecycle/manager.go:164-170 | So does a read, which may refill it |
| Sweeper.Runner.WakeKeepingHistory | lifecycle-manager/internal/lifecycle/manager.go:187-208 | So does a wake |
| Fleet.GetPutApart | lifecycle-manager/internal/sweeper/runner.go:80-92 | Writing one session's part leaves every other session's part alone |
| Fleet.GetPut | lifecycle-manager/internal/sweeper/runner.go:80-92 | Reading a session's part back gives what was written |
| SweepLaws.SweepFrame | lifecycle-manager/internal/sweeper/runner.go:80-92 | Keys no listed session owns keep their values |
| SweepLaws.SweepProjects | lifecycle-manager/internal/sweeper/runner.go:80-92 | After a sweep each session's part is what its own step alone makes of what was there before |
| SweepLaws.SweepCache | lifecycle-manager/internal/lifecycle/manager.go:242-244 | The instance cache survives a sweep if and only if no session's step purged |
| SweepLaws.SweepOrderIsIrrelevant | lifecycle-manager/internal/sweeper/runner.go:80-92 | Every order of the claim list gives the same cluster, connector, quiet clocks and cache, for distinct names and sandboxes |
| NormalForm.OnlyWakeAtChanges | lifecycle-manager/internal/sweeper/runner.go:80-92 | Whatever fails, a sweep changes nothing of a claim but its wake-at, and makes no claim |
| NormalForm.SessionReachesNormalForm | lifecycle-manager/internal/sweeper/runner.go:102-221 | A fault-free turn leaves a session that still carries a wake-at suspended with the wake ahead, and a second turn changes nothing |
| NormalForm.SweepReachesNormalForm | lifecycle-manager/internal/sweeper/runner.go:66-131 | After a fault-free sweep every listed session is in that normal form |
| NormalForm.SecondSweepChangesNothing | lifecycle-manager/internal/sweeper/runner.go:66-131 | A second sweep of what is left, at the same instant and on the same readings, changes neither cluster nor connector |
| History.RunRemembers | lifecycle-manager/internal/sweeper/runner.go:42-46 | After any run, in which cache uses, invalidations, changes to cluster and connector and restarts may come between any two steps of a sweep, memory and history agree and every entry is justified by those before it |
| History.SweepIsARun | lifecycle-manager/internal/sweeper/runner.go:66-92 | A sweep as one function is the run of its steps: begin, one turn per listed claim, prune |
| History.EverySuspendIsJustified | lifecycle-manager/internal/sweeper/runner.go:154-221 | In any run every suspend has its witness: a sandbox Ready for the timeout, the instance data of a log entry that was a fresh readout under five seconds old, and with polling on a poll at least a timeout ago since which every idle evaluation was quiet |
| History.EveryReadIsFresh | lifecycle-manager/internal/sweeper/runner.go:76-77 | In any run the non-nil map a sweep begins with is the by-id index of one reply under five seconds old with no newer reply and no invalidation since |
| History.EveryConsultIsFresh | lifecycle-manager/internal/lifecycle/manager.go:298-330 | At any point of any run, within a sweep too, the same holds of what any other use of the cache is told |
| History.ConsultsAreServed | lifecycle-manager/internal/lifecycle/manager.go:298-324 | At any point of any run a current reply under five seconds old is handed out without asking the connector, and otherwise the answer to a new request, or nothing |
| History.EverySuspendHasItsTurn | lifecycle-manager/internal/sweeper/runner.go:159-184 | In any run the facts of every suspend are those of one turn of that listed session: its sandbox as read in the turn, its own timeout, its row of the sweep's instance data |
| History.QuietClockRefinesHistory | lifecycle-manager/internal/sweeper/runner.go:235-264 | In any run a clock exists with value t if and only if t is the time of the first poll of the current unbroken streak of quiet polls |
| History.QuietClockIsAStreak | lifecycle-manager/internal/sweeper/runner.go:235-248 | The clock read off the history starts at the streak's first poll, and there is none without a streak |
| History.CacheOfIsAReply | lifecycle-manager/internal/lifecycle/manager.go:320-330 | The cache read off the history is its latest reply with nothing since that drops it |
| CacheRaces.InvalidationIsOutlivedIff | lifecycle-manager/internal/lifecycle/manager.go:302-330 | From any state concurrent callers can reach, some run makes the cache serve a map from before an invalidation if and only if, when it comes, the connector has answered some list whose map is not stored yet, the answers on the wire included |
| History.SweepRemembers | lifecycle-manager/internal/sweeper/runner.go:66-92 | One sweep keeps memory and history in agreement |
| History.OnlyRecordedSuspendsSuspend | lifecycle-manager/internal/sweeper/runner.go:218-220 | No turn puts a running sandbox to sleep without a suspend in the history |
| MemoryLoss.FactsBehind | lifecycle-manager/internal/sweeper/idle.go:87-94 | With a clock that is absent or later, or a sandbox still asleep, the guards let through no more |
| MemoryLoss.TurnBehind | lifecycle-manager/internal/sweeper/runner.go:80-92 | One turn on both lives, each on its own list, keeps the forgetful one behind and sends it no suspend the other is not sent |
| MemoryLoss.LosingMemoryOnlyDelays | lifecycle-manager/internal/sweeper/runner.go:42-46 | With lists, turns, wakes, restarts, decommissions and outside changes acting on each life's own objects, a manager that loses its clocks more often never suspends a session before the other has, in every run in which nothing but a turn leaves the session asleep while the forgetful life has a wake stored that the other does not share, or one listed that comes first |
| LostOrder.OrderKeptIff | lifecycle-manager/internal/sweeper/runner.go:102-131 | That condition is exact: from a state in which the forgetful life is behind and may be suspended at all, the order is kept however sweeper and pod go on if and only if the lives are not apart in that sense |
| LostOrder.RestartCanLoseTheOrder | lifecycle-manager/internal/lifecycle/manager.go:226-227 | A run from one start with one loss of memory, two lost stamps and a restart whose second half fails, after which only the forgetful life is suspended |
| ColdStart.RestartsCostTheWholeTimeout | lifecycle-manager/internal/sweeper/idle.go:48-51 | With polling on, in any run, restarts in the middle of a sweep included, every suspend comes at least its idle timeout after every start or restart before it |
| Lateness.PauseWithinFivePercent | lifecycle-manager/internal/sweeper/runner.go:57-61 | In integer arithmetic the pause lies in [0.95, 1.05) of the interval |
| Lateness.PausesFillTheBand | lifecycle-manager/internal/sweeper/runner.go:57-61 | The pauses are exactly the whole nanoseconds of a band a tenth of the interval wide |
| Lateness.SuspendLeavesItWaiting | lifecycle-manager/internal/sweeper/runner.go:190-220 | A suspend ahead of a fire leaves the session asleep with a wake ahead of now and at most fire minus margin |
| Lateness.WaitsUntilDue | lifecycle-manager/internal/sweeper/runner.go:124-126 | Sweeps before the wake leave the session waiting, unless its TTL ends it |
| Lateness.ResumesWhenDue | lifecycle-manager/internal/sweeper/runner.go:124-130 | The first sweep at or after the wake resumes it, and does not suspend it again |
| Lateness.ResumedInTime | lifecycle-manager/internal/sweeper/runner.go:52-64 | Over any paced sweeps the resume lands strictly before fire - margin + 1.05 intervals + two cycle timeouts |
| Lateness.RoundsAdvance | lifecycle-manager/internal/sweeper/runner.go:52-64 | Paced sweeps get past any instant: each starts at least 0.95 intervals after the one before |
| Promptness.SuspendedInTime | lifecycle-manager/internal/sweeper/runner.go:154-221 | A session that paced, fault-free sweeps keep finding idle is sent a suspend less than 1.05 intervals and two cycle timeouts after its idle timeout has run from the last of its becoming ready, its last activity and the first sweep to find it quiet |
| Interleaving.FailedReadsLeadNowhere | lifecycle-manager/internal/sweeper/runner.go:115-118 | Whoever makes it, a read that fails or finds nothing changes nothing and no call that rests on it follows |
| Interleaving.WakesClearWhatTheyRead | lifecycle-manager/internal/lifecycle/manager.go:202 | A wake that has read a claim without a wake-at clears none, whatever is stored by then |
| Interleaving.OwedFromSuspendToResume | lifecycle-manager/internal/sweeper/runner.go:190-220 | What a fire being owed means: from a suspend that takes effect until the session runs again, its claim is gone, or a later suspend knows of another |
| Interleaving.NoCronIsLost | lifecycle-manager/internal/sweeper/runner.go:190-220 | In any interleaving with any failures, if every suspend is sent from a clean state, a session suspended ahead of a fire keeps a wake at most fire minus margin until it runs again or is gone |
| Interleaving.UncleanSuspendsLoseTheCron | lifecycle-manager/internal/lifecycle/manager.go:188-204 | From every unclean state at most two further steps lose the fire, so the condition is exact |
| Interleaving.NoOverlapNoLoss | lifecycle-manager/internal/sweeper/runner.go:207-220 | No fire is lost in any run in which no wake overlaps a stamp-to-suspend window |
| Interleaving.WakeCanEraseAFreshStamp | lifecycle-manager/internal/lifecycle/manager.go:202-203 | A reachable run in which an overlapping wake erases the fresh stamp and the fire stays unserved |
| Interleaving.NoInstanceIsOrphaned | lifecycle-manager/internal/lifecycle/manager.go:234-256 | With any number of decommissions interleaved, over HTTP and by TTL, "claim gone implies row gone" holds after every step |
| Interleaving.LateProvisionsOrphan | lifecycle-manager/internal/lifecycle/manager.go:240-251 | The condition is exact: from every state in which the claim is gone, or any decommission has purged, over HTTP or by TTL, a provision followed by at most one step leaves a row without a claim |
| Interleaving.DeprovisionedOnce | lifecycle-manager/internal/lifecycle/manager.go:240-246 | With any number of decommissions in flight at most one reports a deprovisioning, unless a pod provisions again |
| Interleaving.RestartStrandsIff | lifecycle-manager/internal/lifecycle/manager.go:226-227 | The two calls of a restart leave a running session down if and only if the first takes effect and the second does not; with no wake stored and the sweeper at rest, exactly then no run of the sweeper brings it up again |
| Interleaving.SweeperResumesIff | lifecycle-manager/internal/sweeper/runner.go:102-131 | With the sweeper at rest, some run of its steps brings a suspended session up if and only if its claim carries a wake |
| Interleaving.SweepsLeaveItStranded | lifecycle-manager/internal/sweeper/runner.go:102-131 | No run of the sweeper's steps ever brings up a session that is down without a wake, nor stores a wake for it |
| Refinement.WakeIsARun | lifecycle-manager/internal/lifecycle/manager.go:187-208 | A wake as one function of the session's part is the run of its calls with nothing in between |
| Refinement.RestartIsARun | lifecycle-manager/internal/lifecycle/manager.go:217-228 | So is a restart |
| Refinement.RestartEndsAsleepIff | lifecycle-manager/internal/lifecycle/manager.go:217-228 | A restart ends with a running session suspended if and only if its read found the claim, its suspend took effect and its resume did not |
| Refinement.DecommissionIsARun | lifecycle-manager/internal/lifecycle/manager.go:234-256 | So is a decommission, with and without the connector |
| Refinement.TurnIsARun | lifecycle-manager/internal/sweeper/runner.go:80-87 | So is a whole turn of the sweeper on a freshly listed claim, whatever fails |
| Refinement.AtomicTurnKeepsTheCron | lifecycle-manager/internal/sweeper/runner.go:190-220 | A turn with nothing in between keeps every owed fire's wake stored in every state on the way, whichever calls fail, provided the stamp can be spelled |
| Refinement.AtomicOperationKeepsTheCron | lifecycle-manager/internal/lifecycle/manager.go:187-256 | So does every wake, restart and decommission with nothing in between |
| DecommissionLaws.DecommissionIs | lifecycle-manager/internal/lifecycle/manager.go:234-256 | Exactly which calls purge the row, delete the claim, and make it a success or a deprovisioning |
| DecommissionLaws.AttemptsKeep | lifecycle-manager/internal/lifecycle/manager.go:230-256 | Through any attempts with any failures the claim outlives its row and deprovisioning is reported at most once |
| DecommissionLaws.RetriesConverge | lifecycle-manager/internal/lifecycle/manager.go:230-256 | After any failed attempts one attempt whose calls get through leaves neither claim nor row nor routes |
| DecommissionLaws.SweepDestroysOnlyExpired | lifecycle-manager/internal/sweeper/runner.go:139-152 | A sweep destroys a claim only at an age of at least its positive TTL, and only behind a purge |
| DecommissionLaws.FaultFreeSweepDestroysIffExpired | lifecycle-manager/internal/sweeper/runner.go:139-152 | Without failures a turn destroys a session if and only if its TTL is positive and its exact age has reached it |
| Throttle.Client.Ask | lifecycle-manager/internal/connector/http.go:74-80 | A request leaves if and only if no window is open |
| Throttle.Client.Receive | lifecycle-manager/internal/connector/http.go:99-122 | What each answer is reported as, an API error with the answer's own code, and that exactly a 429 opens a window of 65 seconds |
| Throttle.Client.Do | lifecycle-manager/internal/connector/http.go:74-123 | One undisturbed call short-circuits if and only if the window is open |
| Throttle.Client.ThrottledUntil | lifecycle-manager/internal/connector/http.go:64-71 | Shows a deadline exactly while a call would short-circuit |
| Throttle.DeadlineNeverDecreases | lifecycle-manager/internal/connector/http.go:105-108 | Over any history with any number of callers the deadline never moves back |
| Throttle.OpensAfterTheWindow | lifecycle-manager/internal/connector/http.go:75-80 | One 429 shuts the gate for 65 seconds, no less and no more |
| Throttle.NothingLeavesDuringTheWindow | lifecycle-manager/internal/connector/http.go:75-80 | For a whole window after a 429 no request is admitted, whatever those already past the gate bring in |
| Throttle.OnlyThoseInFlight | lifecycle-manager/internal/connector/http.go:74-109 | Further 429s within the window come only from requests already in flight |
| Throttle.ThrottleBound | lifecycle-manager/internal/connector/http.go:74-109 | n concurrent callers provoke at most n 429s per window begun: one for sequential callers, T/65s + 1 in any stretch T |
| Config.AcceptedIff | lifecycle-manager/internal/config/config.go:141-194 | A configuration is accepted if and only if every setting in use is usable |
| Config.DurationReads | lifecycle-manager/internal/config/config.go:232-246 | The default for no text, the seconds it spells in 64 bits, and otherwise what the standard library makes of it |
| Config.BareSecondsIff | lifecycle-manager/internal/config/config.go:237-239 | A bare number of seconds means what it says if and only if its nanoseconds fit 64 bits |
| Config.AcceptedWakesAreFresh | lifecycle-manager/internal/config/config.go:174-176 | Under an accepted polling configuration no stamped wake has been due for a second |
| Config.AcceptedWakesLieAheadIff | lifecycle-manager/internal/config/config.go:174-176 | An accepted polling configuration never stamps a wake that is due at once if and only if it has a second (less a nanosecond) to spare |
| Config.WakesPrecedeFiresIff | lifecycle-manager/internal/config/config.go:121-123 | Stamped wakes precede their fires if and only if the margin is not negative |
| Config.NegativeMarginIsAccepted | lifecycle-manager/internal/config/config.go:164-177 | A configuration whose sessions wake ten minutes after their crons passes the checks |
| Config.AcceptedIntervalKeepsPaceIff | lifecycle-manager/internal/config/config.go:144-146 | An accepted interval has a non-empty jitter range, and keeps the pace if and only if the longest pause fits 64 bits |
| Selector.IsSpaceIff | lifecycle-manager/internal/k8s/exposure.go:37 | The space that is trimmed is that of Unicode, code point by code point |
| Selector.TrimSpaceTrims | lifecycle-manager/internal/k8s/exposure.go:37 | Trimming takes the space off both ends and nothing else |
| Selector.ParseSelector | lifecycle-manager/internal/k8s/exposure.go:34-43 | On any text each key has the value of the last piece that is a pair for it, and only pieces without '=' or key are dropped |
| Selector.LabelsAreUnique | lifecycle-manager/internal/k8s/exposure.go:34-43 | That contract has one answer per text |
| Selector.ParsedLabelsAreCarried | lifecycle-manager/internal/k8s/exposure.go:37-40 | Whatever the text, only labels the notation can carry come back |
| Selector.ParsingUndoesRenderingIff | lifecycle-manager/internal/k8s/exposure.go:32-43 | Parsing undoes rendering in any order if and only if every key is non-empty without '=', nothing has a ',', and no pair has surrounding space |
| Reconcile.Store.Update | lifecycle-manager/internal/reconcile/reconcile.go:35-62 | Both differences exactly, the first in list order, the second each id once; no instance data keeps the last report |
| Reconcile.UnprovisionedInOrder | lifecycle-manager/internal/reconcile/reconcile.go:44-52 | The first difference is the flagged claims without a row, all of them, once per claim, in list order |
| Reconcile.EmptyReportIff | lifecycle-manager/internal/reconcile/reconcile.go:16-25 | An empty report means every flagged claim has its row and every row its claim, and conversely |
| Bootstrap.Provision | charts/hermes-cluster/files/bootstrap.py:39-67 | The retry loop's outcome and the number of requests it sent: none after it has ended |
| Bootstrap.TryingIsBounded | charts/hermes-cluster/files/bootstrap.py:53-67 | While it is trying, the time spent is that of the requests and three seconds per failure, none was a refusal, and there are at most 41 failures |
| Bootstrap.EndsWithoutNulls | charts/hermes-cluster/files/bootstrap.py:40-67 | 42 requests that are not answered `null` always end the loop |
| Bootstrap.HangsIff | charts/hermes-cluster/files/bootstrap.py:41-52 | The loop runs for ever if and only if from some request on, with the loop still going, every reply is `null` |
| Bootstrap.RefusalIsFinal | charts/hermes-cluster/files/bootstrap.py:54-58 | The loop exits if and only if a request is refused with 401, 403 or 409, and that request is its last |
| Bootstrap.ProvisionedIff | charts/hermes-cluster/files/bootstrap.py:51-52 | The loop ends with credentials if and only if they came in while it was trying |
| Bootstrap.RaisedIff | charts/hermes-cluster/files/bootstrap.py:59-65 | It gives up if and only if, while trying, a retryable failure came back more than 120 seconds after the start |
| Bootstrap.Run | charts/hermes-cluster/files/bootstrap.py:39-85 | The .env file is rewritten if and only if credentials were obtained |
| Bootstrap.BootWritesFiveLines | charts/hermes-cluster/files/bootstrap.py:71-77 | After a boot each of the five keys has its own value on its one kind of line |
| Bootstrap.RebootRotates | charts/hermes-cluster/files/bootstrap.py:3-7 | A reboot leaves the five lines of its own credentials and no trace of the previous ones |
| EnvLines.UpsertsAreRewritten | charts/hermes-cluster/files/bootstrap.py:71-84 | Upserting key by key equals one description of the result: every old line settled, then the missing keys' lines in key order |
| EnvLines.UpsertsAbsorb | charts/hermes-cluster/files/bootstrap.py:71-84 | On lines, a later rewrite leaves no trace of an earlier one |
| EnvFile.RewriteFile | charts/hermes-cluster/files/bootstrap.py:69-85 | The loop over the keys computes the rewrite of the file as read |
| EnvFile.RewriteIsUpserts | charts/hermes-cluster/files/bootstrap.py:78-84 | Search, substitution and append on the text are the upsert on its lines |
| EnvFile.RewriteSetsTheKeysOnly | charts/hermes-cluster/files/bootstrap.py:69-85 | Every key has its value on every line it has, and has a line; all other lines survive unchanged and in order |
| EnvFile.RewriteAbsorbs | charts/hermes-cluster/files/bootstrap.py:69-85 | rewrite(rewrite(e, c1), c2) = rewrite(e, c2) for any text and credentials without line breaks |
| EnvFile.ForgottenIff | charts/hermes-cluster/files/bootstrap.py:78-84 | Credentials are forgotten by the next rewrite of every text if and only if none of them has a line break |
| EnvFile.ReadTextIs | charts/hermes-cluster/files/bootstrap.py:70 | Reading the file as text changes it if and only if it has a carriage return |
| EnvFile.EveryEndingIsOne | charts/hermes-cluster/files/bootstrap.py:70 | Each line ending read, of one character or two, is one '\n' |
| EnvFile.BootsAbsorb | charts/hermes-cluster/files/bootstrap.py:3-7 | After any number of boots the file depends on the original file and the last credentials only |

## Left out

- HTTP routing, handlers, JSON bodies, status codes and bearer checks of the lifecycle-manager's API: plumbing over the operations modelled here.
- The Kubernetes dynamic client, object construction and kubeconfig search: library wrappers. The in-memory client's semantics stand for the API server.
- Exposure objects, Ingresses, dashboard hostnames and the sweep's exposure step: create-only.
- The insides of connector and agent, the dashboard login and its retry on 401: only their replies appear, as choices of the environment.
- Reading environment variables and secret files, logging, signals, `main`, Helm templates.
- RFC 3339 (section 5.6) and JSON text: a wake-at is its instant in whole seconds, or `Malformed` where the year does not fit four digits; a cron time is its instant, or `Garbled`. Go's duration strings are a parameter of `Config.GetDuration`.
- A boot margin of exactly -2^63 nanoseconds, whose negation wraps.
- Instants are unbounded integers, so overflow of `time.Time` itself is not modelled; clocks are taken not to run backwards where a theorem says so (`MemoryLoss`, `ColdStart`, `Lateness`, `Throttle`).
- `Runner.Run`'s endless loop: its pause is modelled and sequences of its sweeps are, but not its select on cancellation, nor the reconcile report every tenth cycle.
- Mutexes: each critical section of the 429 gate and of the instance cache (`CacheRaces`) is one step; the whole-run theorems about the cache (`History`) are for callers one after the other.
- Other errors than not-found and already-exists are one value, `Unreachable`, a throttled connector included.
- The warm pool of a claim, and the connector's part of the session view: neither feeds back into any decision.
- NormalForm.SecondSweepChangesNothing: assumes the controller has caught up with the operating mode, as the in-memory client does; a condition that lags may make a later sweep act again.
- Sweeper.Runner.Sweep: the list comes in no promised order, where the in-memory client sorts it; order does not matter by `SweepLaws.SweepOrderIsIrrelevant` where names and sandboxes are distinct.
- MemoryLoss.LosingMemoryOnlyDelays: operations on the session are taken whole, between a sweep's list and its turn or around them; nobody but the program writes a wake-at.
- History.RunRemembers: one session's turn is one step; what may come between its calls is in `Interleaving`.
- Interleaving.NoCronIsLost: follows one session; what the sweeper decides on the agent's and the connector's replies is a free choice there.
- Throttle.Client.Receive: a reply that is accepted but does not decode is still `Accepted`.
- Bootstrap.Provision: the time a request takes is any non-negative amount, and the wall clock does not run backwards; whether a successful reply has all three credentials is not modelled.
- Kube.Cluster.PatchWakeAt: patches the one annotation the program ever patches.
