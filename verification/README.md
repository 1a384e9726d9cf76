# Uran control plane: verified model

Uran is a small platform-as-a-service. An API writes deploy and build rows and publishes
notifications; builder processes race to claim queued deploys and build them; a controller
applies the result to a Kubernetes namespace; a database autoscaler moves instance counts;
build logs are streamed to a command-line client. This project states what that control
plane promises and proves it in Dafny.

Check everything with `dafny verify dfyconfig.toml`.

## How the system is modelled

**Deploy pipeline** (`rows`, `pipeline`, `ownership`, `calls`, `steps`, `invariant`, `runs`,
`provenance`, `requests`, `outcomes`, `complete_log`, `dispatch`, `handoff`, `solo`,
`two_controllers`). Each SQL call is one atomic
function on the tables. A goroutine is a task with a program point, and one step of the
system runs one call of one task, or starts or stops a task or process, delivers a
notification, or deletes services. `UpdateDeployStatus` is two steps with whatever other
tasks do in between. Every call may succeed, fail, or take effect and still report an error.
A *run* is any sequence of actions, so the theorems over runs cover every interleaving, any
number of builders, sweeps, requests and log streams, every failure and every crash. They
assume one controller process, as `deploy/uran-controller.service` sets up; `two_controllers`
shows that the assumption is needed. The heart of the proof is an ownership invariant: at
most one task, or one undelivered notification, may write a deploy's row, and the right
passes from the winning claim through the hand-off to one reconcile.

**The code itself** (`store`, `processors`, `refinement`). The store's calls, the builder's
`process`, the controller's `reconcile` and the API's deploy requests are methods in the
source's imperative form. Each is proved to leave, call by call, exactly the effects of its
program points in the state machine, whatever rows it finds at each call and wherever it
stops; `refinement` shows that every task of every run is such a trace, and `solo` what the
code leaves when nothing interferes. The store's plain
reads and `Notify` are helpers of that refinement and have no rows below.

**Kubernetes reconciler** (`cluster`, `convergence`, `objects`, `reconciler`, `settings`). The cluster is a
map from (kind, namespace, name) to objects. `Apply` and `Delete` are imperative methods over
it that stop at the first error; their specification is a list of operations cut at any
point. The theorems are about histories of such cut-off runs, compared with a table of the
objects one workload should have; `objects` states those objects field by field from the
specification, without the table.

**Database autoscaler** (`autoscaler`, `databases`). Integer arithmetic with the code's two
roundings, a cooldown map and an integer clock; the loop over database rows is imperative.

**Build-log stream** (`sse`, `event_source`, `logstream`). The handler's polling loop and
printer, the client's scanner loop, and a parser for section 9.2 of the HTML Living Standard.
A character stands for one byte. The end-to-end theorem joins these to the pipeline's runs.

**Names, payloads, members** (`slug`, `decimal`, `naming`, `payloads`, `previews`, `fanout`,
`members`). The slug loop against its specification, the printed and parsed notifications,
what a closed pull request's teardown removes, and organisation membership as a class with
its handlers; `lifecycle` and `basics` hold what everything shares.

## Where the code and its description differ

- The `db-` prefix is said to keep database names apart from service names
  (internal/naming/naming.go:26-27). It does not: a service may itself be called `db-x`
  (`Naming.DatabasePrefixCollides`).
- A preview name is said not to collide with production (internal/naming/naming.go:17-18).
  That holds for the preview's own service; another service may have the preview's name
  (`Naming.PreviewNameIsASlug`).
- The database teardown payload is described with two fields
  (internal/store/events.go:32-34); the code sends and expects three.
- A deploy waiting to be applied is not swept up like a queued one. If its notification fails
  or is not heard, or its reconcile ends early, it stays deploying for good
  (`Handoff.WayLostIffStrays`, `Handoff.StuckForGood`).
- A service named like another one followed by `-http` shares an IngressRoute with it, so
  deleting one takes the other's route (`Convergence.ClashingDeleteTakesRoute`), and applying
  one gives the other a route without its certificate (`Convergence.SoundIffNoClashingRoute`).
- A service whose type changes to or from cron keeps the objects of its old type
  (`Convergence.TypeChangeLeavesCronJob`).
- `guardLastOwner` takes a failed read for "nothing to guard", and checks and writes in
  separate calls (`Members.LastOwnerLostIff`, `Members.FailedReadLosesLastOwner`,
  `Members.ConcurrentRemovalsTakeBothOwners`);
  a failed read of the current role skips the check that only owners modify owners
  (`Members.NonOwnerDemotesIff`, `Members.FailedReadDemotesOwner`).
- A scaling change whose call reports an error after it took effect starts no cooldown
  (`Autoscaler.LostRepliesEvadeCooldown`, `Autoscaler.RateHoldsIff`).
- The client prints the status of the final event as if it were a log line, drops a carriage
  return at the end of a line, and stops at a line of a mebibyte (`Sse.StreamRoundTrip`).

## Model

| member | source | states |
|---|---|---|
| Lifecycle.PathsOnlyMoveForward | internal/deploy/state.go:29-50 | along any path of the transition table a terminal status is final and no status that was left comes back |
| Lifecycle.TheTable | internal/deploy/state.go:29-50 | the six allowed moves, and live and failed as the terminal statuses |
| Steps.BuilderStepOk | internal/builder/processor.go:61-130 | every call of a builder task keeps the tables consistent, changes at most the row it owns, and leaves the task at a program point whose claims about the rows hold |
| Steps.ReconcileStepOk | internal/controller/processor.go:122-189 | the same for every call of a reconcile, including the check and the write of a status update made apart |
| Steps.ApiStepOk | internal/api/deploy_handlers.go:60-152 | the same for the API's deploy, preview, image, rollback and redeploy requests |
| Steps.StreamStepOk | internal/api/logstream_handlers.go:36-57 | one poll keeps what was sent equal to the log read, and an end event means the build is terminal and all of its log was sent |
| Invariant.StepInv | internal/store/deploys.go:144-190 | every action of the system keeps the ownership invariant: consistent rows, at most one task or undelivered notification that may write a deploy's row, well-placed tasks; and no row moves except along the transition table |
| Invariant.ExecInv | internal/builder/processor.go:34-56 | the ownership invariant holds in every state any run reaches, with any number of builders and one controller |
| Runs.HistoryIsPath | internal/store/deploys.go:144-156 | in every run the sequence of statuses a deploy goes through is a path of the transition table starting at queued or deploying |
| Runs.TerminalIsFinal | internal/deploy/state.go:29-35 | a deploy seen live or failed has that status in every later state in which it exists, and its id is never given out again |
| Runs.CallsAreBuildCalls | internal/builder/processor.go:92-104 | the recorded list of builds counts exactly the steps of a run that hand the deploy to the build backend |
| Runs.BuiltAtMostOnce | internal/store/deploys.go:182-190 | however many builders, sweeps and notifications race, a run hands a deploy to the build backend at most once |
| Runs.DeployBuildAgreement | internal/store/deploys.go:41-108 | in every reachable state a deploy has exactly one build, is a preview iff it has a pull request, has an image when deploying or live, and its build's status agrees with its own |
| Runs.ReconcileFindsImage | internal/controller/processor.go:130-134 | whenever a reconcile runs, its deploy, if it exists, is deploying and has an image, so the no-image branch is dead |
| Runs.WriteFindsWhatCheckSaw | internal/store/deploys.go:144-156 | in every reachable state in which a status update is about to write, the row still has the status the update's check saw |
| Runs.OneWriter | internal/store/deploys.go:144-156 | two tasks that may write the same deploy's row are the same task, and meanwhile no notification for it waits |
| Outcomes.EveryMoveHasGrounds | internal/controller/processor.go:178-188 | in every run a deploy becomes live only after an Apply of it returned no error, goes from deploying to failed only after one of its reconcile's calls failed or its service was gone, from building to deploying only after its image was stored, and from building to failed only after its build broke |
| Outcomes.EndHasCause | internal/builder/processor.go:106-130 | in every reachable state a live deploy was applied successfully and a failed one had a build or a reconcile that broke |
| Handoff.PublishedIsWaiting | internal/builder/processor.go:126-128 | a hand-off or an API notification whose publication does not fail puts the deploy into every running controller's inbox |
| Handoff.DeployingIsOnItsWay | internal/store/events.go:50-68 | in every run a deploying deploy is in the controller's inbox or in the hands of a task that publishes or reconciles it, unless one of five named events happened to it |
| Handoff.WayLostIffStrays | internal/controller/processor.go:46-58 | a step takes a deploying deploy off its way exactly when it is one of those events |
| Handoff.StuckForGood | internal/controller/processor.go:46-58 | a deploying deploy off its way stays deploying for as long as it exists: the controllers' channel has no sweep |
| Requests.EveryRowWasAskedFor | internal/store/deploys.go:30-108 | in every reachable state a row has the service, commit, kind, pull request and, if any, image that the request which created it asked for |
| Requests.RedeployTakesNewest | internal/store/settings.go:41-51 | a settings change reuses image and commit of the deploy after which no deploy of the service has an image, and nothing else |
| Requests.NewestIsUnique | internal/store/settings.go:41-51 | there is at most one such deploy, so the query has no choice |
| Requests.RollbackTakesTarget | internal/api/env_handlers.go:71-84 | a rollback reuses its target's image and commit for the target's service, and is refused exactly when the target cannot be read or has no image |
| Requests.ReuseWasChosen | internal/api/settings_handlers.go:144-160 | in every run an image about to be reused was chosen by a rollback to that deploy or by a settings change that found it newest |
| Solo.BuildSucceeds | internal/builder/processor.go:61-130 | an undisturbed build that succeeds leaves the deploy deploying with the image, its build succeeded with all output logged, and exactly one notification to the controllers |
| Solo.BuildBreaks | internal/builder/processor.go:106-111 | an undisturbed build that breaks leaves deploy and build failed, the error at the end of the log, and no notification |
| Solo.LateBuilderStops | internal/builder/processor.go:84-91 | a builder whose claim finds the deploy no longer queued changes nothing |
| Solo.ReconcileSucceeds | internal/controller/processor.go:122-189 | an undisturbed reconcile whose calls succeed leaves the deploy live and nothing else changed |
| Solo.ReconcileFails | internal/controller/processor.go:135-182 | an undisturbed reconcile one of whose calls fails leaves the deploy failed and nothing else changed |
| Solo.EnqueueSucceeds | internal/api/deploy_handlers.go:130-152 | a deploy or preview request leaves a queued row with a queued build and one notification to the builders |
| Solo.ImageDeploySucceeds | internal/api/deploy_handlers.go:60-79 | an image request leaves a deploying row with the image and one notification to the controllers |
| Solo.RollbackSucceeds | internal/api/env_handlers.go:71-89 | a rollback leaves a deploying row with the target's image and commit and one notification to the controllers |
| Solo.RedeploySucceeds | internal/api/settings_handlers.go:144-160 | a settings change leaves a deploying row with the newest image and its commit and one notification to the controllers |
| Solo.BuilderErrors | internal/builder/processor.go:64-128 | which errors end a builder silently and after which it goes on, call by call |
| Solo.ReconcileErrors | internal/controller/processor.go:125-187 | which errors of a reconcile record a failure and which end it |
| Solo.RequestErrors | internal/api/deploy_handlers.go:130-152 | an error ends a request, and nothing is published for a row it did not learn of |
| Solo.CodeAlone | internal/builder/processor.go:61-130 | these are the rows and notifications that the code itself leaves when nothing interferes |
| TwoControllers.LiveBecomesFailed | internal/controller/processor.go:184-188 | with two controllers there is a run in which a live deploy becomes failed: the single-controller assumption is necessary |
| Provenance.EveryImageTraces | internal/api/env_handlers.go:71-89 | every image on a deploy row traces, through reuses of strictly older deploys of the same service, to an image the backend returned for that deploy or a request to deploy that image to that service |
| Provenance.MadeWereReturned | internal/builder/processor.go:97-113 | an image recorded as built was returned by the backend for that very deploy at some step of the run |
| Provenance.ReusedWereRequested | internal/api/settings_handlers.go:144-160 | an image recorded as reused was put there by a rollback or redeploy step from that deploy |
| CompleteLog.LogsOnlyGrow | internal/store/builds.go:25-49 | over any continuation of a run a build's log is extended only at its end, and the row is frozen once the build is terminal |
| CompleteLog.CompleteLogAtEnd | internal/api/logstream_handlers.go:35-57 | once a stream has emitted its end event, what it sent equals the build's log in every later state, and the status it announced is the build's |
| Dispatch.QueuedIsReachedOrMissed | internal/builder/processor.go:34-56 | in every run a queued deploy has a pending notification, swept id, or live task at every builder past its sweep, unless that sweep failed or one of three named events happened to it since |
| Dispatch.RouteLostIffMissed | internal/api/deploy_handlers.go:126-139 | when one way to a builder is left, a step of the system removes it exactly when it is one of those events |
| Dispatch.StrandedForever | internal/store/events.go:50-68 | a deploy out of a running builder's reach stays out of it for as long as it is queued and the builder runs |
| Dispatch.LateSweepReaches | internal/store/deploys.go:161-177 | a builder that starts at any point and sweeps successfully reaches every deploy queued at any later point, unless one of those events happened since its sweep |
| Dispatch.SweepIsOldestFirst | internal/store/deploys.go:158-177 | a sweep lists each queued deploy once, an older one before a newer one |
| StoreCalls.Store.ClaimQueuedDeploy | internal/store/deploys.go:182-190 | one guarded update: reports success exactly when the row it found was queued, and only then changes it |
| StoreCalls.Store.UpdateDeployStatus | internal/store/deploys.go:144-156 | two calls: the first checks the transition on the rows it finds, the second writes unconditionally on the rows it then finds |
| StoreCalls.Store.SetBuildStatus | internal/store/builds.go:25-40 | writes the status of that build only, whatever it was |
| StoreCalls.Store.AppendBuildLog | internal/store/builds.go:43-49 | the log of that build is extended by the chunk and nothing else changes |
| StoreCalls.Store.SetDeployImage | internal/store/deploys.go:193-199 | writes the image of that deploy only |
| StoreCalls.Store.CreateBuildable | internal/store/deploys.go:41-65 | a queued deploy and its queued build appear together under fresh ids, or neither |
| StoreCalls.Store.CreateImaged | internal/store/deploys.go:83-108 | a deploying deploy with an image and its succeeded build appear together under fresh ids, or neither |
| Processors.Process | internal/builder/processor.go:61-130 | the goroutine leaves call by call exactly the effects of its program points, whatever rows it finds at each call and wherever it stops |
| Processors.Build | internal/builder/processor.go:97-104 | the backend's run appends exactly what it prints and ends in an error or a non-empty image |
| Processors.BuildClaimed | internal/builder/processor.go:92-130 | the part of the goroutine behind a won claim: start, build, failure report or conclusion |
| Processors.Conclude | internal/builder/processor.go:113-129 | image, build status, deploy status and hand-off in this order, each step only after the ones it depends on |
| Processors.FailBuild | internal/builder/processor.go:149-156 | a failed build and deploy, the second attempted whether or not the first call succeeded |
| Processors.ReconcileDeploy | internal/controller/processor.go:122-189 | the goroutine leaves call by call exactly the effects of its program points, every failure recorded as failed |
| Processors.RecordOutcome | internal/controller/processor.go:345-349 | the final status update is the state machine's check and write |
| Processors.EnqueueService | internal/api/deploy_handlers.go:130-139 | the row is created before its notification, and no notification follows a failed creation |
| Processors.EnqueuePullRequest | internal/api/deploy_handlers.go:143-152 | the same for a preview, with its pull request number |
| Processors.HandleImageDeploy | internal/api/deploy_handlers.go:60-79 | an imaged deploy is created and the controller, not the builder, is notified |
| Processors.HandleRollback | internal/api/env_handlers.go:71-89 | reuses image and commit of a target that has an image, for the target's own service |
| Processors.ApplyServiceChange | internal/api/settings_handlers.go:144-160 | reuses the service's latest imaged deploy, and does nothing when there is none |
| Refinement.RunsFollowTheCode | internal/builder/processor.go:61-130 | in every run of the state machine the effects of a task are the trace of the code on the rows it found |
| LogStream.HandleDeployLogs | internal/api/logstream_handlers.go:17-58 | the polling loop writes one chunk for each read that found more log, then the end event on a terminal status, and stops at an error |
| LogStream.SentIsLastRead | internal/api/logstream_handlers.go:35-57 | of a growing log the stream has sent exactly what it last read, nothing twice and nothing left out |
| LogStream.ClientShowsWholeLog | cmd/uran/logs.go:49-57 | for every run: of an ended stream the client prints all of the build's final log except newlines, then its final status, when the log has no carriage return and fits the scanner |
| Sse.WriteSse | internal/api/logstream_handlers.go:65-70 | one data line for each line of the chunk without its trailing newlines, then a blank line |
| Sse.StreamBuildLogs | cmd/uran/logs.go:49-57 | the scanner loop prints the payloads of the data lines in order, up to a line that does not fit |
| Sse.ChunkRoundTrip | cmd/uran/logs.go:49-57 | the lines printed for a chunk, joined by newlines, are the chunk without trailing newlines if and only if no line ends in a carriage return or is too long |
| Sse.StreamRoundTrip | internal/api/logstream_handlers.go:65-75 | a whole stream is shown in full, every byte but newlines once and in order and then the status, if and only if every line of every chunk survives |
| Sse.ShownInFullWhateverTheCut | internal/api/logstream_handlers.go:35-57 | a log is shown in full for every way polls may cut it if and only if it has no carriage return and no newline-free stretch too long for the scanner |
| Sse.PrintedEvent | internal/api/logstream_handlers.go:73-75 | of a named event the client prints the data and not the name |
| Sse.LongestLine | cmd/uran/logs.go:50 | a line of up to 1048569 bytes is printed and a longer one ends the output |
| EventSource.StreamEvents | internal/api/logstream_handlers.go:65-75 | a client that follows section 9.2 of the HTML Living Standard receives one message a chunk and then the end event if and only if the log has no carriage return |
| EventSource.ChunkEvent | internal/api/logstream_handlers.go:65-70 | one chunk is one message whose data is the chunk without trailing newlines, even when that is empty |
| Convergence.ApplyMeetsDesired | internal/k8s/reconcile.go:85-129 | a complete Apply leaves at every key it governs exactly the object of the table of desired objects, whatever was there |
| Convergence.ApplyFrame | internal/k8s/reconcile.go:85-129 | an Apply cut off anywhere changes no key outside its own |
| Convergence.InterruptedRunsLeaveNoTrace | internal/k8s/reconcile.go:85-129 | after any runs of one workload with any specifications, each cut off anywhere, one complete Apply leaves what it leaves without them |
| Convergence.ConvergesIffNoStrays | internal/k8s/reconcile.go:99-127 | a complete Apply yields the objects it yields on an empty cluster if and only if no object of another service type was there |
| Convergence.ConvergesAfterAnyHistory | internal/k8s/reconcile.go:85-129 | the same after any history of cut-off applies and deletes of any workloads, for a workload whose type did not change |
| Convergence.TypeChangeLeavesCronJob | internal/k8s/reconcile.go:99-102 | a service that was cron keeps its CronJob when it is applied as another type |
| Convergence.FinalShape | internal/k8s/reconcile.go:192-209 | claim iff disk iff mounted, autoscaler iff autoscaled iff replicas unset, no replica when suspended, one with a disk |
| AppliedObjects.DeploymentRuns | internal/k8s/reconcile.go:154-165 | after a complete Apply the Deployment has the specified image, port and size |
| AppliedObjects.DeploymentEnvironment | internal/k8s/reconcile.go:143-165 | it takes its environment from the Secret that is there and holds the specified variables |
| AppliedObjects.DeploymentProbe | internal/k8s/reconcile.go:169-229 | it is probed exactly when routable, by the health path when there is one and else by a connection, on the specified port |
| AppliedObjects.DeploymentDisk | internal/k8s/reconcile.go:175-205 | exactly with a disk it mounts the claim that is there, of the specified size, at the specified path, and rolls one copy at a time |
| AppliedObjects.PullsWithSecret | internal/k8s/reconcile.go:184-186 | Deployment and CronJob name the pull secret exactly when it is there, which is exactly when there are credentials |
| AppliedObjects.LastCredentialCounts | internal/k8s/pullsecret.go:49-64 | of several credentials for one registry the last is in the pull secret |
| AppliedObjects.CronJobRuns | internal/k8s/cronjob.go:15-47 | the CronJob has the specified image, schedule and size and the environment Secret that is there |
| AppliedObjects.AutoscalerTargets | internal/k8s/hpa.go:18-45 | the autoscaler moves the Deployment that is there between the specified bounds |
| AppliedObjects.RuleMatchesHosts | internal/k8s/reconcile.go:330-336 | read back clause by clause, a route's rule matches exactly the given hosts |
| AppliedObjects.CertificateCoversHosts | internal/k8s/reconcile.go:79-81 | the certificate covers the default name and every custom domain, and the Service leads to the specified port |
| AppliedObjects.RoutesCoverHosts | internal/k8s/reconcile.go:283-327 | both routes match exactly these hosts and lead to the Service, the secure one with the certificate's secret |
| Convergence.EveryObjectHasAnOwner | internal/k8s/reconcile.go:85-129 | every object in the cluster was put there by an apply that owns its key |
| Convergence.DeleteRemovesAll | internal/k8s/reconcile.go:348-382 | after any history a complete Delete leaves no object of the workload |
| Convergence.DeleteCompletesItself | internal/k8s/reconcile.go:348-382 | Delete is idempotent, and after a Delete cut off anywhere a complete one leaves what a single complete one leaves |
| Convergence.DisjointIffUnrelated | internal/k8s/reconcile.go:52-55 | two workloads share an object key if and only if they are in one namespace and equal or one is the other followed by -http |
| Convergence.OtherWorkloadsKept | internal/k8s/reconcile.go:348-382 | an apply or delete of an unrelated workload, cut off anywhere, changes no object of this one |
| Convergence.AlwaysSound | internal/k8s/reconcile.go:95-127 | at every intermediate state of serial runs a Deployment or CronJob has its env Secret and a route has its Certificate, as long as no routable workload whose name clashes by -http is applied; any other clash is harmless |
| Convergence.SoundIffNoClashingRoute | internal/k8s/reconcile.go:277-297 | of every other workload: applied alone it keeps this one sound if and only if it is not routable under a clashing name |
| Convergence.ClashingDeleteTakesRoute | internal/k8s/reconcile.go:277-297 | deleting the workload named like another followed by -http removes the other's plain route |
| Reconciler.KubeApi.Apply | internal/k8s/reconcile.go:131-138 | one object is written or the call fails and everything stays |
| Reconciler.KubeApi.Delete | internal/k8s/reconcile.go:391-396 | one object is removed, a missing one counts as removed, or the call fails and everything stays |
| Reconciler.Reconciler.Apply | internal/k8s/reconcile.go:85-129 | the method leaves exactly the objects of the specified program cut at the failing call, and succeeds exactly when all calls did and, unless cron, a poll showed the rollout complete |
| Reconciler.WaitForRollout | internal/k8s/reconcile.go:400-429 | succeeds exactly when some poll shows every wanted copy updated and available at the current generation |
| Reconciler.Reconciler.Delete | internal/k8s/reconcile.go:348-382 | the method leaves exactly the objects of the specified deletion cut at the failing call |
| Reconciler.Reconciler.ReconcileDisk | internal/k8s/volume.go:21-47 | the claim is put when a disk is attached and removed otherwise |
| Reconciler.Reconciler.ApplyDeployment | internal/k8s/reconcile.go:154-216 | the Deployment built step by step is the desired one: image, probe, mount, pull secret, replica choice, strategy |
| Reconciler.Reconciler.ReconcileAutoscaler | internal/k8s/hpa.go:18-53 | the autoscaler is put when the service is autoscaled and removed otherwise |
| Reconciler.Reconciler.ReconcilePullSecret | internal/k8s/pullsecret.go:27-46 | the pull secret holds the organisation's credentials or is removed when there are none |
| Reconciler.Reconciler.ApplyCronJob | internal/k8s/cronjob.go:15-47 | the CronJob is put with image, schedule, env and pull secret |
| Reconciler.Reconciler.ApplyEnvSecret | internal/k8s/reconcile.go:143-152 | the env Secret is always put, empty or not |
| Reconciler.Reconciler.ApplyNetworking | internal/k8s/reconcile.go:117-127 | certificate, service and the two routes in this order |
| Reconciler.BuildHostMatch | internal/k8s/reconcile.go:330-336 | the rule joins one Host clause for each host, in order |
| Reconciler.BuildAuths | internal/k8s/pullsecret.go:49-64 | of several credentials for one registry the last one wins |
| Settings.Services.HandleScale | internal/api/settings_handlers.go:20-56 | a request is refused exactly for an unknown size or a ceiling below its floor; accepted counts are stored in order, and disk and suspension stay |
| Settings.Services.HandleDisk | internal/api/settings_handlers.go:87-118 | a disk is stored with both size and path or not at all, and detaching clears both |
| Settings.Services.SetSuspended | internal/api/settings_handlers.go:128-139 | changes the suspension only |
| Settings.SizesOfTable | internal/instance/instance.go:24-36 | the five sizes a service may have |
| Settings.ReconciledSettings | internal/k8s/reconcile.go:192-209 | whatever settings were accepted, a reconciled service runs none when suspended, one with a disk, within valid bounds when autoscaled, and otherwise its fixed positive count |
| Autoscaler.TickInNumbers | internal/controller/dbautoscaler.go:15-82 | with metrics and successful calls a tick adds an instance above 70% of the request and below the maximum, takes one below 30% and above the minimum, unless the last known change is less than 60 s old, and else changes nothing |
| Autoscaler.TickThatFails | internal/controller/dbautoscaler.go:53-80 | what a tick without metrics or with a failing call leaves |
| Autoscaler.RequestTable | internal/instance/instance.go:24-44 | the CPU requests of the five sizes, and of any other name |
| Autoscaler.SumOfParts | internal/controller/dbautoscaler.go:96-99 | the total adds up all instances |
| Databases.RowInNumbers | internal/controller/dbautoscaler.go:15-82 | the same tick in terms of a database's row |
| Autoscaler.OneStepKeepsBetween | internal/controller/dbautoscaler.go:58-64 | despite both roundings one more instance never turns a load above 70% into one below 30%, nor one fewer the reverse |
| Autoscaler.NoFlapping | internal/controller/dbautoscaler.go:49-82 | under constant total CPU no tick of a run tries to scale down if any tries to scale up, whatever calls fail |
| Autoscaler.ChangesAreDistance | internal/controller/dbautoscaler.go:49-82 | under constant load every change of the persisted count is part of the distance travelled |
| Autoscaler.BoundedChanges | internal/controller/dbautoscaler.go:58-64 | from inside its bounds a database changes at most max - min times under constant load |
| Autoscaler.SettlesWithin | internal/controller/dbautoscaler.go:49-82 | under constant load a database inside its bounds has reached a fixed point once max - min ticks had metrics, an elapsed cooldown and successful calls, whatever other ticks lie between them |
| Autoscaler.SettlesInTime | internal/controller/dbautoscaler.go:15-36 | with the 20 s ticker and the 60 s cooldown, metrics and calls that do not fail, the fixed point is reached within 4 * (max - min) ticks |
| Autoscaler.RestIsForGood | internal/controller/dbautoscaler.go:49-82 | from the fixed point no run under that load changes anything |
| Autoscaler.RunsApproachBounds | internal/controller/dbautoscaler.go:58-64 | whatever the load and the failures, the count stays inside its bounds once there and never gets further away from them |
| Autoscaler.WritesAreSpaced | internal/controller/dbautoscaler.go:104-115 | two acknowledged changes of a database are at least the cooldown apart, whatever else happens between them |
| Autoscaler.ChangesPerWindow | internal/controller/dbautoscaler.go:104-115 | a window of length L holds at most L / 60 s, rounded down, plus one acknowledged changes |
| Autoscaler.PersistedPerWindow | internal/controller/dbautoscaler.go:65-80 | the persisted changes of a window are its acknowledged ones and those with a lost reply, so a window without a lost reply meets the rate and any other exceeds it by no more than their number |
| Autoscaler.RateHoldsIff | internal/controller/dbautoscaler.go:65-80 | every window of a run meets the rate if and only if whatever follows a change with a lost reply comes at least a cooldown after it |
| Autoscaler.ChangesAreWritesAndLost | internal/controller/dbautoscaler.go:76-80 | the persisted count changes once for each acknowledged change and once for each whose reply was lost, and for nothing else |
| Autoscaler.LostRepliesEvadeCooldown | internal/controller/dbautoscaler.go:76-80 | two ticks 20 s apart that both change the persisted count because the first reply is lost: the rate is exceeded |
| Databases.NormalizeCreate | internal/api/database_handlers.go:54-85 | a created database starts inside valid bounds at its floor, and exactly the contradictory requests are refused |
| Databases.Store.CreateDatabase | internal/store/databases.go:50-57 | a row appears under a fresh id and no other changes |
| Databases.ClusterCPUUtilization | internal/controller/dbautoscaler.go:86-102 | the loop's average in percent of the request, with no value when no metrics came |
| Databases.Processor.AutoscaleOne | internal/controller/dbautoscaler.go:49-82 | one tick takes the specified step for its database and leaves other columns and databases alone |
| Databases.Processor.AutoscaleDatabases | internal/controller/dbautoscaler.go:38-47 | one pass takes the specified step once for each listed database, takes none out of its bounds and leaves the rest alone |
| Databases.Processor.Rescale | internal/controller/dbautoscaler.go:70-80 | provision, persist and mark happen in order, each only after the one before reported success |
| Databases.Processor.CooldownElapsed | internal/controller/dbautoscaler.go:104-109 | true without a mark, or at least the cooldown after it |
| Databases.Processor.MarkScaled | internal/controller/dbautoscaler.go:111-115 | records the time for that database only |
| Slug.Slugify | internal/api/resource_handlers.go:19-36 | the one-pass loop and trims compute: lower-case, cut into maximal runs of letters and digits, join with single dashes |
| Slug.FixedPointsAreSlugs | internal/api/resource_handlers.go:19-36 | every result has no leading, trailing or doubled dash, a second pass changes nothing, and the unchanged names are exactly the slugs |
| Slug.TrimmedEnds | internal/api/resource_handlers.go:20-35 | a trim takes off all it should at both ends and nothing else |
| Slug.SlugKeepsLettersAndDigits | internal/api/resource_handlers.go:19-36 | a slug has all letters, in lower case, and digits of the name, in order, and nothing else but dashes |
| Slug.CaseDoesNotMatter | internal/api/resource_handlers.go:20 | names that differ only in case have the same slug |
| Decimal.ParseOfFormat | internal/controller/processor.go:357-361 | a printed integer is parsed back exactly when it fits 64 bits |
| Naming.PreviewNames | internal/naming/naming.go:19-24 | preview names agree only for the same slug and pull request number, and none is its own service's production name |
| Naming.PreviewNameIsASlug | internal/naming/naming.go:16-24 | a preview name is itself a slug, which another service may carry, exactly when the service's slug is not empty and the pull request number not negative |
| Naming.DatabasePrefixCollides | internal/naming/naming.go:26-30 | a service has a database's cluster name exactly when its slug is db- and the database's slug, and slugify can produce that exactly when the latter is not empty |
| Naming.NamespacesDiffer | internal/naming/naming.go:12-14 | two organisations share a namespace only if they are one |
| Naming.NameForms | internal/naming/naming.go:12-30 | the forms of the names, by example |
| Payloads.TeardownRoundTrip | internal/controller/processor.go:352-366 | a printed preview teardown is parsed back exactly when both numbers fit 64 bits |
| Payloads.NamespaceRoundTrip | internal/controller/processor.go:219-231 | a printed namespace teardown is parsed back if and only if the namespace has no colon |
| Payloads.WorkloadRoundTrip | internal/controller/processor.go:232-241 | a printed workload teardown is parsed back if and only if the namespace has no colon, whatever the name |
| Payloads.DatabaseRoundTrip | internal/controller/processor.go:319-325 | a printed database teardown is parsed back if and only if no field has a colon |
| Payloads.PrintedTeardownsAreUnderstood | internal/api/resource_handlers.go:259-270 | for every organisation and every name a resource can be given the printed payloads are parsed back to the same fields |
| Payloads.TeardownDeletesItsPreviews | internal/controller/processor.go:192-212 | in every reachable state, of a service's deploys exactly those of the closed pull request apply the workload its teardown deletes |
| Previews.ClosedPreviewIsGone | internal/controller/processor.go:192-212 | after any cluster history, the parsed and completed teardown of a closed pull request leaves no object of that preview and changes none of production, of the other previews, or of any workload that does not share its names |
| Previews.PreviewClashesWith | internal/k8s/reconcile.go:277-297 | a preview shares objects only with a workload of its own name or of that name followed by -http |
| Previews.OwnWorkloadsAreApart | internal/naming/naming.go:16-24 | a preview shares no object with its service's production or another preview of it |
| Fanout.DeleteProject | internal/api/resource_handlers.go:259-270 | the loops publish one message for each service and then each database, a failed one stopping none of the others |
| Fanout.DeletedProjectIsUnderstood | internal/controller/processor.go:219-245 | the controller's reading of what was published is exactly the project's workloads and databases whose notification got through, in order |
| Fanout.DedupeServices | internal/api/webhook_handlers.go:141-160 | fails exactly when a lookup fails, and otherwise lists each service matched by any non-empty URL exactly once, in order of first match |
| Fanout.DedupKeepsOrder | internal/api/webhook_handlers.go:152-157 | more matches only add to the end of the list |
| Fanout.TearDownPreviews | internal/api/webhook_handlers.go:102-110 | one teardown for each service of the closed pull request's repository |
| Fanout.PreviewTeardownsAreUnderstood | internal/controller/processor.go:352-366 | each is parsed back to that service and that pull request |
| Fanout.PgQuoteIdent | internal/store/events.go:71-82 | the loop doubles every quote and encloses the result |
| Fanout.QuotedIsReadBack | internal/store/events.go:70-82 | a quoted identifier is read back whole and the text behind it untouched, for all characters |
| Members.RankOrder | internal/rbac/rbac.go:7-24 | the four roles in order, and every other word below them |
| Members.RoleSetIff | internal/api/member_handlers.go:71-112 | with all calls succeeding a role is set exactly when an admin or owner asks for a known role, an owner if the role or the target's is a high one, and the only owner stays one |
| Members.MemberAddedIff | internal/api/member_handlers.go:37-65 | a user is added under the same conditions, with member for no role, and with an unknown word as it is |
| Members.CreatorOwns | internal/store/resources.go:11-34 | a new organisation has its creator as its only member, an owner |
| Members.MemberRemovedIff | internal/api/member_handlers.go:114-136 | with all calls succeeding a member is removed exactly when an admin or owner asks and the member is not the only owner |
| Members.OnlyAdminsChangeMembers | internal/api/member_handlers.go:37-136 | memberships change only in requests of the organisation's admins and owners |
| Members.OnlyOwnersDelete | internal/api/resource_handlers.go:99-112 | an organisation disappears only in an owner's request to delete it |
| Members.LastOwnerLostIff | internal/api/member_handlers.go:164-180 | a request leaves an organisation without an owner if and only if it is about its only owner, passes every other guard, and one of the guard's two reads fails |
| Members.FailedReadLosesLastOwner | internal/api/member_handlers.go:164-168 | an only owner who leaves while the guard cannot read their role is removed |
| Members.EveryOrgHasAnOwner | internal/api/member_handlers.go:91-136 | over any run of serial requests whose guards could read, every organisation has an owner, whatever writes failed |
| Members.ConcurrentRemovalsTakeBothOwners | internal/api/member_handlers.go:122-126 | two removals that both passed the guard before either wrote leave no owner |
| Members.NonOwnersPromoteNobody | internal/api/member_handlers.go:154-160 | in a run of requests by non-owners nobody gains the rank of admin or more |
| Members.NonOwnersDemoteNoOwner | internal/api/member_handlers.go:98-102 | in a run of role changes by non-owners whose reads succeed every owner stays an owner |
| Members.NonOwnerDemotesIff | internal/api/member_handlers.go:98-106 | a non-owner's role change takes an owner's role if and only if it passes the guards on the role asked for and on the last owner and the read of the current role fails |
| Members.FailedReadDemotesOwner | internal/api/member_handlers.go:98-102 | an admin makes an owner a member while that owner's role cannot be read |
| Members.Server.ApplyRole | internal/api/member_handlers.go:94-112 | writes the role exactly when all three guards pass |
| Members.Server.GuardLastOwner | internal/api/member_handlers.go:164-180 | passes exactly when the target is no owner, stays one, is not the only one, or a read failed |
| Members.Server.CountOrgOwners | internal/store/members.go:75-81 | the number of owners of that organisation |
| Members.Server.RequireOrgRole | internal/api/rbac_access.go:38-50 | the caller's role when it has at least the required rank |
| Members.Server.HandleAddMember | internal/api/member_handlers.go:37-65 | the specified request; an empty role means member |
| Members.Server.HandleSetMemberRole | internal/api/member_handlers.go:71-89 | the specified request; an unknown role is refused |
| Members.Server.HandleRemoveMember | internal/api/member_handlers.go:114-136 | the specified request, guarded for the last owner only |
| Members.Server.HandleCreateOrg | internal/store/resources.go:11-34 | a new organisation has its creator as owner |
| Members.Server.HandleDeleteOrg | internal/api/resource_handlers.go:99-112 | only an owner deletes an organisation |

## Left out

- Runs with several controllers: apart from the counterexample, the pipeline's theorems are for one controller process.
- Two reconciles of one workload at the same time: the cluster theorems are about serial runs of Apply and Delete.
- HTTP routing, JSON, sign-in, tokens, audit log, billing, configuration, and the command-line client other than its log parser.
- The SQL text: each statement is one atomic call; gaps in the ids an identity column hands out do not matter to the proofs and are not modelled.
- Package internal/build: the backend is a call that may append output until it returns an error or a non-empty image.
- Real Kubernetes behaviour (field ownership, finalizers, the autoscaler's own writes, cert-manager, CloudNativePG); the reads of waitForRollout are free.
- Databases' own cluster objects (provisioning, pooler, backups), manual scaling of databases, and backups that an autoscaler provision does not repeat.
- Previews of a deleted project: their objects stay, because the API sends no teardown for them.
- Integer overflow of counts and CPU totals, and real time; the autoscaler has an integer clock that does not run backwards within a tick.
- Autoscaler.ChangesPerWindow: counts acknowledged changes only, because a change reported as an error starts no cooldown; Autoscaler.PersistedPerWindow and Autoscaler.RateHoldsIff state what holds of all changes.
- Members.EveryOrgHasAnOwner: serial requests whose guard reads succeed, because the code guarantees no more; the two lemmas beside it show both ways it fails.
- LogStream.ClientShowsWholeLog: newlines are not counted, because the client breaks a line wherever a poll did.
- Processors.Build: an empty image from the backend is skipped, because the backend is taken to return a non-empty one.
