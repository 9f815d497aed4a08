# A verified model of the runtime operator's reconcile loop

The operator drives one custom resource, ApplicationDefinition, towards its specification. This
project models the reconcile cycle (`internal/controller/app`), the object builders
(`pkg/builders`), the apply and health helpers (`internal/controller/common/kubeutil`) and the
webhook recorder's deduplication (`pkg/webrecorder`), and proves what holds over every run, under
any interleaving of user edits, deletions, conflicts and failed calls. `dafny verify
dfyconfig.toml` checks everything.

## How it is built

- **The server and everybody else** (`Api.dfy`). One stored object with a version, a generation,
  finalizers, specification and status. A write is admitted only on the version that was read; an
  ordinary write ignores the status, a status write ignores everything else. An `Environment`
  gives, for every call, the edits other clients make just before it, whether the call fails, and
  the answers of lookups, applies, health checks and map iteration. A `World` is the server, the
  deployed replica counts, the events handed to the recorder, and a log of accepted writes with
  the step that caused each one.
- **The cycle as functions** (`Cycle.dfy`, `Reconciler.dfy`): the meaning of one call.
  `Reconciler.Run` repeats it. All run theorems are about these functions.
- **The cycle as it is written** (`Controller.dfy`): a class whose methods update the fields of a
  cycle in place and loop over components, objects, status entries and retries as the source does.
  `Reconcile` ends in the same world with the same result as the function, in every environment.
- **Theorems over runs**: `Effects` and `Runs` (optimistic lock), `NoLostEdits`, `Readiness` and
  `AdmittedRuns` and `Underscores` (meaning of Running), `FastPathSoundness`, `NothingDropped`,
  `Outcomes`, `StoredExactly` and `RecordKept` (suppressed writes, no stuck cycle), `Reasons` and
  `Reports` (what phase, condition, entries and events say), `SuspendRuns` and `Waking`, `Restarts`,
  `Webhooks`, `Quiescence`, `Cleanup`, `ObjectIdentity`.
  `Counterexamples`, `LostRestarts` and `LostRecord` trace concrete runs in which a hypothesis is missing.
- **Builders and helpers**: `Names`, `ServicePorts`, `Volumes`, `Labels`, `Builder`,
  `BuildFacts`, `Apply`, `Health`, `PauseResume`, `Status`, `Messages`, `StatusCompare`,
  `StatusOrder`, `Recorder`.

## What does not hold, and exactly when it does

- *The fast path never skips an unprocessed specification.* It can: after a conflict the old
  cycle's status is put on the re-fetched object and stamped with that object's generation
  (line 955). It is right if and only if the last status write met no newer generation
  (`FastPathSoundness.FastPathExact`), and always right when no two generations share a change id
  (`FreshChangesSuffice`). Run: `Counterexamples.StaleStampSkipsSpecification`.
- *Running means every component entry is healthy.* True in every run whose specifications have
  components, which the resource's schema demands (`AdmittedRuns.RunningIsHealthy`). The code
  itself does not depend on the schema here: were the list emptied between the first read and the
  finalizer write, Running would be stored over unhealthy entries
  (`Readiness.RunningJustified`); the API does not admit such an update.
- *Suspended means no replicas.* The workloads of the suspending cycle have had none ever since if
  and only if each of them was reached and applied in that cycle or had none already, and no later
  cycle woke one, that is, worked on a specification that does not suspend and left it applied
  with replicas (`SuspendRuns.SuspendedAtZero`; one cycle at a time: `SuspendedToZeroIff`,
  `StaysAtZeroIff`). Told before the call, a cycle wakes a workload if and only if the apply loop
  reaches it and applies it and its recorded, or else specified, count is not zero
  (`Waking.WakesIff`). Both halves fail in concrete runs: an apply error keeps
  Suspended (`Counterexamples.SuspendedInNameOnly`), and a lost status write while resuming,
  followed by a new suspension, leaves replicas running (`Counterexamples.LostResumeLeavesReplicas`).
  Either way the object is then never touched again until an edit unparks it
  (`SuspendRuns.ParkedForGood`).
- *A quiet end of a cycle leaves Running or Suspended.* Exactly when component 0 names kind and
  apiVersion, which the API does not require (`Outcomes.StuckExactlyWithoutKind`,
  `Counterexamples.StuckWithoutKind`). A component-list change during the finalizer re-fetch ends
  in a panic or an error, so it needs no hypothesis.
- *A failed health check is told as HealthCheckFailed.* Only if the variable part of the error text,
  a name or a message of the server, has one of its two markers and none of the others: the fixed
  words of a failed lookup have none, so it is told as ReconcileFailed
  (`Reasons.HealthCheckFailedNeedsKeyword`).
- *A deleted application is released.* Not as long as its specification is empty or has an empty or
  repeated component name: each cycle ends with that before it comes to the finalizer, and
  no claim is ever deleted (`Cleanup.NeverReleased`).
- *A restart is stamped when the data differs from the previous cycle's.* It is, if and only if,
  when that cycle's data was not empty; after an empty one the older record decides, so a component
  that lost its files and got the same ones back is not restarted (`Restarts.RestartsOnChange`;
  run: `LostRestarts.FilesComeBack`). A cycle that records the data and then fails loses the
  restart (`Restarts.RestartLost`; run: `LostRestarts.RefusedFilesNeverRestart`).
- *A changed hash is stored.* A call that can store its status stores the hashes it has computed
  if and only if something that is compared has changed - generation, phase, conditions, entries
  or change mark - or they were on record already (`StoredExactly.HashesStoredIff`, from the
  meaning of the comparison in `SuppressedIff`). Nothing is lost over an honest status
  (`Outcomes.NoChangeDropped`); after one stamped with a newer generation the new hash can be
  computed in every cycle and stored in none (`Counterexamples.HashNeverRecorded`).
- *A changed replica record is stored.* Exactly when something compared has changed, or the cycle
  did not build, or it found no record of its components (`StoredExactly.RecordStoredIff`). Unlike
  the hashes the record needs no honest status: it is always stored if the cycle that wrote the
  status before lost no component between its read and its finalizer write
  (`RecordKept.RecordNeverDropped`). When components go and come back in between, a record can
  stay although its component was resumed (run: `LostRecord.RecordNotStored`).
- *A change is marked only after its success event.* Needs delivery to be configured; without it
  the change is marked and nothing is sent (`Webhooks.SendsIffConfigured`).
- *The second cycle writes nothing.* In whatever order the components are visited, if and only
  if the first cycle is skipped, or shows no failed check - it suspends, or fails to build or to
  apply, or component 0 cannot be looked up - or all failed checks give the same answer
  (`Quiescence.SecondCycleWritesNothing`). Otherwise another order reports another failure and
  the status is written again (`Counterexamples.OrderMakesItWrite`). Under the same condition no
  later cycle writes either, however the order changes (`Quiescence.ForeverQuiet`).
- *The recorder sends no event twice within its time-to-live.* As long as no two senders are in the
  middle of sending one key (`Recorder.NoDuplicateWithinTTL`); wherever two are, both can go on to
  send it (`Recorder.RivalsBothSend`).

Where code and its comments disagree, the code is modelled:

- An unset `create` flag of a service account counts as true where the object is built and as
  false where its name is derived, so the object is nameless and the build fails
  (`Names.NamelessServiceAccount`).
- `Reconcile` tests the error of the status write for a conflict and would retry after five
  seconds; the error never is one (`Effects.StatusEffect`).
- `NewWebhookEventRecorder` is called for every event, so its deduplication map is always empty;
  what keeps a processed change silent is the persisted change id (`Webhooks.SilentOnceMarked`).
- The health check uses component 0's kind and apiVersion for every component, and the raw
  component name, which is the name that was built only if it has no underscore
  (`Names.HealthCheckLooksUpBuiltName`). An application with an underscore in a component name
  therefore never runs, as long as lookups find only what was deployed
  (`Underscores.UnderscoreNeverRuns`).
- A claim without a configured name gets the template name `data`, but no container mounts it
  (`Volumes.ClaimMounted`).
- The rolling-update partition test of the StatefulSet check cannot fail on its own
  (`Health.AvailableIffRolledOut`).

## Model

| member | source | states |
|---|---|---|
| Controller.ApplicationDefinitionReconciler.Reconcile | internal/controller/app/applicationdefinition_controller.go:96-308 | In every environment and from every world, the imperative cycle ends in the world and with the result of `Reconciler.Reconcile`, so every run theorem below is about it |
| Controller.ApplicationDefinitionReconciler.InitializeComponentStatuses | internal/controller/app/applicationdefinition_controller.go:313-340 | The in-place loop yields the initial entries, or the first empty or duplicate name |
| Controller.ApplicationDefinitionReconciler.HandleEmptyApp | internal/controller/app/applicationdefinition_controller.go:343-387 | An application without components is stored as Running with no entries; the write's error is returned |
| Controller.ApplicationDefinitionReconciler.HandleFinalizer | internal/controller/app/applicationdefinition_controller.go:390-484 | Claiming, cleaning and releasing in order; which of continue, deleted and error comes out, and with which object |
| Controller.ApplicationDefinitionReconciler.AddFinalizer | internal/controller/app/applicationdefinition_controller.go:394-421 | The bounded retry loop equals the recursive retry |
| Controller.ApplicationDefinitionReconciler.CleanClaims | internal/controller/app/applicationdefinition_controller.go:427-451 | Deletes the listed claims in order up to the first failure |
| Controller.ApplicationDefinitionReconciler.RemoveFinalizer | internal/controller/app/applicationdefinition_controller.go:453-476 | The bounded retry loop; running out of attempts is not an error |
| Controller.ApplicationDefinitionReconciler.SetInitialPhase | internal/controller/app/applicationdefinition_controller.go:487-531 | Stores Creating and asks for a requeue exactly when the phase was unset or Pending |
| Controller.ApplicationDefinitionReconciler.BuildComponents | internal/controller/app/applicationdefinition_controller.go:534-628 | Objects, hashes, entries and events accumulated up to the first component that fails, or a panic on a missing entry |
| Controller.ApplicationDefinitionReconciler.BuildComponent | internal/controller/app/applicationdefinition_controller.go:540-620 | One component: unmarshal, build, label, collect up to the first nameless object |
| Controller.ApplicationDefinitionReconciler.HandlePauseResume | internal/controller/app/pause_resume.go:12-99 | In-place replica counts, record and phase equal the fold over the objects |
| Controller.ApplicationDefinitionReconciler.ApplyResources | internal/controller/app/applicationdefinition_controller.go:631-740 | Results, entries, events, deployed counts and the first error of the apply loop |
| Controller.ApplicationDefinitionReconciler.ApplyObject | internal/controller/app/applicationdefinition_controller.go:642-735 | One object: service lookup, owner reference, apply, event, entry |
| Controller.ApplicationDefinitionReconciler.UpdateComponentStatusesFromApplyResults | internal/controller/app/applicationdefinition_controller.go:1061-1094 | Exactly the components without a failed object are marked applied |
| Controller.ApplicationDefinitionReconciler.CheckHealthAndCalculateStatus | internal/controller/app/applicationdefinition_controller.go:743-836 | Entries, readiness, requeue and first error of the check loop in the given visiting order |
| Controller.ApplicationDefinitionReconciler.DetermineFinalPhase | internal/controller/app/applicationdefinition_controller.go:839-892 | The phase and Ready condition for every combination of phase, error and readiness |
| Controller.ApplicationDefinitionReconciler.HandleReconcileError | internal/controller/app/applicationdefinition_controller.go:895-919 | Stores Failed with marked entries; the first error is kept and the write's error dropped |
| Controller.ApplicationDefinitionReconciler.UpdateStatusIfNeeded | internal/controller/app/applicationdefinition_controller.go:922-966 | Suppresses equal statuses, otherwise stamps, writes and retries on re-fetched objects |
| Effects.ClaimEffect | internal/controller/app/applicationdefinition_controller.go:394-421 | At most three attempts; an error has written nothing; a success appends the finalizer to the list as stored, or leaves a list that has it as it is, and changes nothing else |
| Effects.ReleaseEffect | internal/controller/app/applicationdefinition_controller.go:453-476 | At most three attempts; a clean end removed the finalizer and nothing else, or met three conflicts |
| Effects.StartEffect | internal/controller/app/applicationdefinition_controller.go:497-528 | At most three attempts; a success changed only the status, and only then is the event sent |
| Effects.StatusEffect | internal/controller/app/applicationdefinition_controller.go:937-965 | At most three attempts; what lands is the desired status stamped with the generation of the object it lands on; the error is never a conflict and has written nothing |
| Effects.ThreeAttempts | internal/controller/app/applicationdefinition_controller.go:394-528 | Each retry loop sends at most three requests, and exactly three before it gives up |
| Runs.InvRun | internal/controller/app/applicationdefinition_controller.go:96-308 | In every run each accepted write landed on the object the controller had last read, changed only its own part, came from a step that was entitled to it, and stored exactly what that step had computed |
| Runs.CycleShape | internal/controller/app/applicationdefinition_controller.go:96-308 | Every cycle stores at most one status and, if it acted, deploys and emits exactly what it computed whether or not the status landed |
| NoLostEdits.UsersSeeTheirEdits | internal/controller/app/applicationdefinition_controller.go:394-476 | In every run specification, annotations, deletion mark, generation and everybody else's finalizers, in order, are what the users' edits alone would have made them: no edit is ever overwritten |
| NoLostEdits.FinalizersOfOthersStay | internal/controller/app/applicationdefinition_controller.go:398-471 | In every run each accepted write leaves everybody else's finalizers as they are: a claim appends the controller's own, a release takes out exactly the controller's own, a status write touches none |
| Readiness.ReadyExactlyWhenRunning | internal/controller/app/applicationdefinition_controller.go:839-919 | In every stored status the Ready condition is True if and only if the phase is Running |
| Readiness.PhasesFollow | internal/controller/app/applicationdefinition_controller.go:866-891 | Each stored phase may follow the one before: Degraded only readiness, Creating only the beginning, Updating neither |
| Readiness.NeverCreatingAgain | internal/controller/app/applicationdefinition_controller.go:487-531 | In every run an application that has left its beginning never returns to it |
| Readiness.RunningIff | internal/controller/app/applicationdefinition_controller.go:839-892 | A cycle ends in Running if and only if the specification is not suspended, builds, applies and is found healthy |
| Readiness.RunningJustified | internal/controller/app/applicationdefinition_controller.go:743-836 | Every stored Running was justified: no components, or everything built, applied and healthy, one healthy entry per component, StatefulSets rolled out |
| Readiness.RunningComponents | internal/controller/app/applicationdefinition_controller.go:751-835 | Each entry of a Running status was looked up under component 0's kind and version and the raw name, and an apps/v1 StatefulSet had observed its generation and reached the desired count, one if unset, with updated, ready and current replicas |
| Reasons.StatusSaysWhy | internal/controller/app/applicationdefinition_controller.go:839-919 | In every run each stored status says why it has its phase: phase, Ready condition and reason follow from suspend flag, error, readiness and the phase before, and no other condition changes |
| Reasons.ReasonFits | internal/controller/app/applicationdefinition_controller.go:849-862 | Told by the origin of the error: owner references and missing metadata are ApplyFailed whatever the text; for lookups, components without specification and the server's answers each reason has its exact condition on the variable part of the text |
| Reasons.HealthCheckFailedNeedsKeyword | internal/controller/app/applicationdefinition_controller.go:854-859 | HealthCheckFailed is stored if and only if the variable part of the error has one of its two markers and none of those tested before: the fixed words have none |
| Reports.UnbuiltTold | internal/controller/app/applicationdefinition_controller.go:534-628 | A cycle whose build fails reports the first component that does not build, why, and applies nothing; every entry says its own part or that one error |
| Reports.UnappliedTold | internal/controller/app/applicationdefinition_controller.go:631-740 | A cycle with a failing apply reports the first failure in order, or the failed lookup that ended the loop; each entry tells the first failed object of its own component, or else that error |
| Reports.CheckedTold | internal/controller/app/applicationdefinition_controller.go:751-833 | A cycle that applies everything has one entry per component, decided by its own lookup, is ready exactly when all are healthy, and comes back exactly when some component waits or cannot be looked up |
| Reports.EventsTold | internal/controller/app/applicationdefinition_controller.go:631-740 | The events of a cycle that builds: those of its objects in order - created, failed unless in conflict, owner reference not set - and one for how it ended |
| AdmittedRuns.RunningIsHealthy | internal/controller/app/applicationdefinition_controller.go:743-836 | If the object is created with components and every update has some, as the schema demands, every stored Running in every run has one healthy entry per component, without exception |
| FastPathSoundness.FastPathExact | internal/controller/app/applicationdefinition_controller.go:179-186 | After any run the fast path skips a generation the last write was computed from if and only if that write met no newer generation; then the skipped specification is the built, applied and healthy one |
| FastPathSoundness.FreshChangesSuffice | internal/controller/app/applicationdefinition_controller.go:179-186 | With one generation per change id the fast path is right whatever the conflicts |
| FastPathSoundness.OriginRun | internal/controller/app/applicationdefinition_controller.go:247-251 | A persisted change id was marked by a ready cycle that had read it, not younger than the last write |
| Counterexamples.StaleStampSkipsSpecification | internal/controller/app/applicationdefinition_controller.go:953-956 | A concrete run whose third call skips a specification that was never processed |
| NothingDropped.SuppressedChangesNothing | internal/controller/app/applicationdefinition_controller.go:922-935 | When the comparison suppresses the write, neither replica record nor hashes had changed, if the stored status is honest |
| NothingDropped.CarriedOver | internal/controller/app/pause_resume.go:22-96 | What a cycle makes of record and hashes: Suspended exactly when it builds and suspends; untouched record when the build fails; current workloads forgotten when resuming |
| NothingDropped.CarriedOverTwice | internal/controller/app/pause_resume.go:47-88 | The same specification a second time carries over nothing new |
| Outcomes.NoChangeDropped | internal/controller/app/applicationdefinition_controller.go:922-935 | A call that can store its status, whatever errors its applies and checks met, leaves every change to record and hashes stored, although the comparison looks at neither |
| StoredExactly.SuppressedIff | internal/controller/app/applicationdefinition_controller.go:922-935 | In every run the write is suppressed if and only if the generation is observed already and phase, change mark, the set of conditions and the set of entries are the stored ones |
| StoredExactly.HashesStoredIff | internal/controller/app/applicationdefinition_controller.go:928-932 | In every run the hashes a call has computed are stored, if it can store its status, if and only if something compared has changed or they were on record already |
| StoredExactly.RecordStoredIff | internal/controller/app/applicationdefinition_controller.go:928-932 | In every run the replica record a call has computed is stored, if it can store its status, if and only if something compared has changed, or it did not build, or none of its components was on record |
| RecordKept.RecordNeverDropped | internal/controller/app/pause_resume.go:67-88 | In every run a call that can store its status leaves the replica record it has computed stored, even over a status stamped with a generation it was not computed from, if the last status came from a cycle that lost no component between read and finalizer write |
| LostRecord.RecordNotStored | internal/controller/app/applicationdefinition_controller.go:394-421 | A concrete run: a component leaves before the finalizer write and is back before the status write; the next cycle resumes it and its record is not removed |
| RecordKept.FailuresDiffer | internal/controller/app/applicationdefinition_controller.go:895-919 | A cycle that builds and then fails never looks like a stored failure to build: another kind of error, or an entry that reports a failed apply |
| Outcomes.LostWriteIsReported | internal/controller/app/applicationdefinition_controller.go:253-268 | A call that cannot store its status has stored nothing and returns an error |
| Counterexamples.HashNeverRecorded | internal/controller/app/applicationdefinition_controller.go:953-956 | A concrete run: after a dishonest stamp the new hash is computed in every cycle and stored in none |
| Outcomes.NoStuckCycle | internal/controller/app/applicationdefinition_controller.go:295-302 | A call that ends without error and without asking to come back - a delay of zero asks for nothing - leaves the object gone, deleting, Running or Suspended, or went through an unidentified component 0; every other call that does not fail comes back at once or after thirty seconds |
| Outcomes.CallResult | internal/controller/app/applicationdefinition_controller.go:254-307 | In every environment: back at once exactly when the initial phase was stored; after thirty seconds exactly when the call worked, met no error, stored its status and found something unfinished; the first error of the work outranks that of the status write |
| Outcomes.WorksIff | internal/controller/app/applicationdefinition_controller.go:159-186 | A call that reads a claimed object works through its specification if and only if that has components with distinct non-empty names, the object is not deleted, begun, not parked in Suspended, and not running an observed generation under a marked change id; otherwise a begun object is left entirely alone |
| Outcomes.OnlyWatchedNamespace | internal/controller/app/applicationdefinition_controller.go:99-102 | A request for another namespace touches nothing |
| Outcomes.StuckExactlyWithoutKind | internal/controller/app/applicationdefinition_controller.go:779-798 | A quiet full cycle ends in Running or Suspended if and only if it suspends or component 0 names kind and apiVersion |
| Counterexamples.StuckWithoutKind | internal/controller/app/applicationdefinition_controller.go:779-798 | A concrete specification with an empty kind that gets stuck |
| SuspendRuns.RecordsExplained | internal/controller/app/pause_resume.go:47-66 | In every run each persisted count was stored by a suspending cycle that found none, is the count its specification asks for, never the zero, and was kept by every status written since |
| SuspendRuns.WrittenRecord | internal/controller/app/pause_resume.go:47-88 | A write keeps the record, adds specified counts, or removes exactly the current workloads |
| SuspendRuns.SuspendingCycle | internal/controller/app/pause_resume.go:47-66 | Known counts stay, every component gets one, all workloads go to zero, the phase is Suspended |
| SuspendRuns.ResumingCycle | internal/controller/app/pause_resume.go:67-88 | Recorded counts are restored, other workloads keep the specified count, exactly the current workloads are forgotten |
| SuspendRuns.SuspendedAtZero | internal/controller/app/applicationdefinition_controller.go:171-175 | In every run that is in phase Suspended: the suspended workloads have been at zero ever since if and only if each was reached and applied in the suspending cycle or had no replicas already, and no later cycle woke one |
| SuspendRuns.SuspendedToZeroIff | internal/controller/app/applicationdefinition_controller.go:842-845 | A suspending cycle leaves its workloads at zero if and only if each was reached and applied in it or had no replicas already; its other objects do not matter |
| SuspendRuns.StaysAtZeroIff | internal/controller/app/applicationdefinition_controller.go:171-175 | A cycle over a suspended application without replicas keeps it so if and only if it does not, with suspend unset, leave a workload applied with replicas |
| Waking.WakesIff | internal/controller/app/pause_resume.go:67-88 | When component names stay distinct after sanitising, a cycle wakes a workload if and only if suspend is unset, everything builds, the apply loop reaches and applies the workload, and its recorded, or else specified, count is not zero: all of it known before the call |
| Waking.KeptAsleepIff | internal/controller/app/applicationdefinition_controller.go:171-175 | A cycle over a suspended application without replicas leaves it so if and only if the answers, the record and the specification wake none of its workloads |
| SuspendRuns.AppliedOf | internal/controller/app/applicationdefinition_controller.go:642-735 | What a cycle deploys: exactly the desired objects the loop reaches and applies |
| SuspendRuns.ParkedForGood | internal/controller/app/applicationdefinition_controller.go:169-175 | From any state of any run on, while no edit unparks it, a suspended object in phase Suspended is never touched again: no apply, no write, no event, whatever is deployed |
| SuspendRuns.SuspendedDespiteErrors | internal/controller/app/applicationdefinition_controller.go:842-845 | A suspending cycle ends in Suspended even when applies failed |
| Counterexamples.SuspendedInNameOnly | internal/controller/app/applicationdefinition_controller.go:842-845 | A concrete run: apply error, Suspended, three replicas, skipped |
| Counterexamples.LostResumeLeavesReplicas | internal/controller/app/applicationdefinition_controller.go:171-175 | A concrete run: lost resume write, suspended again, three replicas, skipped |
| PauseResume.Suspending | internal/controller/app/pause_resume.go:22-66 | The loop: zeroed workloads, kept counts, new counts are built counts |
| PauseResume.Resuming | internal/controller/app/pause_resume.go:67-88 | The loop: restored counts, removed entries |
| PauseResume.SuspendResumeRoundTrip | internal/controller/app/pause_resume.go:12-99 | Suspending and then resuming gives back the built objects and the old record |
| Restarts.RestartIff | pkg/builders/runtime/builder.go:164-197 | A component's workload is stamped for restart if and only if it has data that differs from the record the cycle began with |
| Restarts.AppliedFilesAreRecorded | pkg/builders/runtime/builder.go:164-190 | In every cycle the hash recorded for a component with files is that of the data in the ConfigMap the cycle applies |
| Restarts.RecordIsLanded | pkg/builders/runtime/builder.go:172-190 | In every run the stored hash record is exactly what the landed cycles wrote, in order |
| Restarts.RestartsOnChange | pkg/builders/runtime/builder.go:164-197 | From a cycle that built everything and could store its status, also when an equal one was suppressed, to any later one with no status stored between: a component is restarted if and only if its data differs from that cycle's, or, if it had none there, from the record that cycle began with |
| Restarts.RestartsAtFirst | pkg/builders/runtime/builder.go:180-190 | Before anything has landed exactly the components with data are restarted |
| LostRestarts.FilesComeBack | pkg/builders/runtime/builder.go:164-197 | A concrete run: files, no files, the same files again, each cycle stored, and no restart stamped in the third |
| LostRestarts.RefusedFilesNeverRestart | pkg/builders/runtime/builder.go:164-197 | A concrete run: new files stamped on a StatefulSet that is refused and recorded all the same; the next cycle applies it without a stamp and ends in Running |
| Restarts.RestartLost | internal/controller/app/applicationdefinition_controller.go:895-919 | Data recorded by a cycle that then failed is not restarted for by any later cycle that finds it recorded |
| Quiescence.SecondCycleWritesNothing | internal/controller/app/applicationdefinition_controller.go:922-935 | With an undisturbed object and the same answers the second of two cycles writes nothing in whatever visiting order, if and only if the first is skipped, shows no failed check, or all failed checks give the same answer |
| Quiescence.SecondCycleQuiet | internal/controller/app/applicationdefinition_controller.go:922-935 | In particular in the environment's own order, and the stored object stays as it is |
| Quiescence.ForeverQuiet | internal/controller/app/applicationdefinition_controller.go:922-935 | Under the same condition no cycle after the first ever writes and the object never changes, however the visiting order changes from cycle to cycle |
| Quiescence.SecondPassSame | internal/controller/app/applicationdefinition_controller.go:839-892 | Processing a stored status again gives one that compares equal, whatever time and visiting order |
| Quiescence.JudgedTwice | internal/controller/app/applicationdefinition_controller.go:839-892 | The phase decision is a fixed point after one round |
| Quiescence.AnyFailureReported | internal/controller/app/applicationdefinition_controller.go:751-836 | For any number of components, each failing check is the one reported in some visiting order |
| Counterexamples.OrderMakesItWrite | internal/controller/app/applicationdefinition_controller.go:751-836 | A concrete run in which only the visiting order changes and the status is written again |
| Webhooks.SendThenMark | internal/controller/app/applicationdefinition_controller.go:233-253 | In every run with delivery configured a persisted change id was preceded by its success event |
| Webhooks.SendsIffConfigured | internal/controller/app/applicationdefinition_controller.go:233-251 | A ready cycle marks its change in any case and sends the success event if and only if delivery is configured |
| Webhooks.SilentOnceMarked | internal/controller/app/applicationdefinition_controller.go:1162-1183 | Once a change id is persisted and annotated, and while every update carries it, it stays persisted and not one more webhook event is emitted, whatever else is edited and whatever fails |
| Webhooks.SuccessNeverLost | internal/controller/app/applicationdefinition_controller.go:233-268 | The success event a cycle earned for a configured, unmarked change is with the recorder in every later state of the run, whether or not that cycle's status was ever stored |
| Webhooks.SuccessRepeated | internal/controller/app/applicationdefinition_controller.go:233-268 | After a lost status write the next cycle that is ready for the same change emits its success event once more |
| Cleanup.CleanedBeforeRelease | internal/controller/app/applicationdefinition_controller.go:422-480 | In every cycle of every run the finalizer goes only from a deleted object, after every claim listed for it was deleted or found absent in that very cycle |
| Runs.FinalizeShape | internal/controller/app/applicationdefinition_controller.go:422-480 | One finalizing cycle: a release follows a successful listing and the deletion of everything listed; a clean end without one found no finalizer or met three conflicts |
| Cleanup.FailureKeepsFinalizer | internal/controller/app/applicationdefinition_controller.go:434-476 | A failed listing or deletion leaves the finalizer; a clean end removed it or met three conflicts |
| Cleanup.CleanupErrors | internal/controller/app/applicationdefinition_controller.go:434-451 | The error of a finalizing cycle is that of the listing, or else that of the first claim that cannot be deleted; exactly the claims listed before it are gone |
| Cleanup.NeverReleased | internal/controller/app/applicationdefinition_controller.go:137-156 | While no edit mends an empty or rejected specification, no cycle deletes a claim or touches a finalizer: a deleted object stays |
| CycleFacts.CheckAllEntries | internal/controller/app/applicationdefinition_controller.go:751-833 | Every entry is decided by its own probe, in any visiting order |
| CycleFacts.CheckAllReady | internal/controller/app/applicationdefinition_controller.go:751-835 | Readiness and requeue are all-of and any-of over the entries, in any order |
| CycleFacts.ApplyNilIffAllEntriesClean | internal/controller/app/applicationdefinition_controller.go:631-740 | The apply step returns nil if and only if every object has an error-free entry, when keys are distinct |
| CycleFacts.MarkedAppliedIff | internal/controller/app/applicationdefinition_controller.go:1061-1094 | A component is marked applied if and only if none of its objects failed |
| ObjectIdentity.DistinctKeysIffCompatible | internal/controller/app/applicationdefinition_controller.go:596-607 | Desired objects have distinct keys if and only if the components are pairwise compatible, and each carries its own component's label |
| ObjectIdentity.ApplyNilIffClean | internal/controller/app/applicationdefinition_controller.go:631-740 | From compatible components to the meaning of the result map |
| ObjectIdentity.ComponentAppliedIff | internal/controller/app/applicationdefinition_controller.go:1061-1094 | From compatible components to the meaning of the applied mark |
| Builder.DistinctIffCompatible | pkg/builders/runtime/builder.go:123-310 | Identities of a specification's objects are distinct if and only if its components are pairwise compatible |
| Builder.SharedObjectIffIncompatible | pkg/builders/runtime/builder.go:123-310 | Two components share an object if and only if their names clash |
| Builder.ResultKeyInjective | internal/controller/common/kubeutil/apply.go:220-228 | Within a namespace the result key determines kind and name |
| Builder.BuildObjects | pkg/builders/runtime/builder.go:103-314 | The appending builder: builds exactly the verified configurations; which objects, in which order; the ConfigMap carries the configured data and the record its hash; the StatefulSet names the headless Service of the same list that carries the container ports; the client Service carries the service part's ports; all in the namespace and under the component's name |
| Builder.ConfigContents | pkg/builders/runtime/builder.go:164-190 | There is a ConfigMap exactly when there is data; it holds that data, and its hash is recorded under its name |
| Builder.WorkloadContents | pkg/builders/runtime/builder.go:200-260 | One StatefulSet with the configured replicas, claims and restart stamp, whose service name is that of the headless Service built beside it with the container ports |
| Builder.ClientContents | pkg/builders/runtime/builder.go:262-290 | A client Service exactly when the service part has ports and is not None, with those ports |
| Builder.AccountContents | pkg/builders/runtime/builder.go:292-310 | A service account exactly when it is to be created, under the derived name |
| Builder.ResultKeyText | internal/controller/common/kubeutil/apply.go:220-228 | The key's text for each kind |
| BuildFacts.BuildAllFacts | internal/controller/app/applicationdefinition_controller.go:534-628 | Which specifications build, and that what is recorded is independent of time and of earlier hashes |
| BuildFacts.BuildableIff | pkg/builders/runtime/builder.go:66-101 | A component builds if and only if its configuration is parsed and has replicas, an image, ports and a sized storage, and no built object is nameless |
| BuildFacts.BuildAllWorkloads | pkg/builders/runtime/builder.go:200-260 | A completed build has exactly one workload per component, with its specified count |
| BuildFacts.InitializeFacts | internal/controller/app/applicationdefinition_controller.go:313-340 | Accepted specifications have distinct non-empty names and one entry each |
| BuildFacts.InitializeTold | internal/controller/app/applicationdefinition_controller.go:313-340 | A specification is rejected exactly when some component has an empty or repeated name, and the first such component is the one reported |
| StatusCompare.MatchesIsEquality | internal/controller/app/applicationdefinition_controller.go:970-1011 | On distinct keys the one-directional comparison is equality of the denoted maps |
| StatusCompare.MatchesIsMembership | internal/controller/app/applicationdefinition_controller.go:970-1011 | ... that is, the two lists have the same members |
| StatusCompare.MatchesEquivalence | internal/controller/app/applicationdefinition_controller.go:970-1011 | ... hence an equivalence relation |
| StatusCompare.DuplicatesBreakSymmetry | internal/controller/app/applicationdefinition_controller.go:970-1011 | A duplicate key breaks symmetry |
| StatusCompare.ConditionsEqual | internal/controller/app/applicationdefinition_controller.go:970-990 | The loop computes that comparison |
| StatusCompare.ComponentStatusesEqual | internal/controller/app/applicationdefinition_controller.go:991-1011 | The loop computes that comparison |
| StatusOrder.CanonicalWhateverOrder | internal/controller/app/applicationdefinition_controller.go:1021-1031 | Every iteration order of a map sorts to the same list |
| StatusOrder.BeforeIff | internal/controller/app/applicationdefinition_controller.go:1027-1029 | The order of the entries: the smaller character at the first difference, a prefix before the whole |
| StatusOrder.MapToSlice | internal/controller/app/applicationdefinition_controller.go:1021-1031 | The loop over the map, in any order, ends in the canonical list |
| Status.SetReady | internal/controller/app/applicationdefinition_controller.go:1015-1019 | Setting the Ready condition decides it and keeps types distinct |
| Status.SetConditionInPlace | internal/controller/app/applicationdefinition_controller.go:1015-1019 | A condition of a type on the list is replaced where it stands, one of a new type is appended |
| Status.SetConditionKeeps | internal/controller/app/applicationdefinition_controller.go:1015-1019 | Conditions of other types stay as they are |
| Messages.MarkedByText | internal/controller/app/applicationdefinition_controller.go:781-788 | A structured message counts as an error exactly when the text it stands for has "Error:" or "Failed" in it, whatever names, numbers and error texts it carries |
| Apply.ApplyObjectV2 | internal/controller/common/kubeutil/apply.go:135-216 | The retry loop: the first answer that is no conflict, or the third, decides; at most three attempts |
| Apply.AppliedIff | internal/controller/common/kubeutil/apply.go:135-216 | An existing object is applied if and only if one of three attempts succeeds after nothing but conflicts |
| Apply.AnswersDecide | internal/controller/common/kubeutil/apply.go:135-216 | Conflict, conflict, success is applied, three conflicts fail; missing metadata and a failed or successful creation decide at once |
| Health.AvailableIffRolledOut | internal/controller/common/kubeutil/health.go:167-207 | Available means observed and enough updated, ready and current replicas; the partition test never decides |
| Health.StatefulSetHealthyIff | internal/controller/common/kubeutil/health.go:85-86 | An apps/v1 StatefulSet that is found is healthy if and only if its generation is observed and updated, ready and current replicas reach the desired count, one if unset |
| Health.UnreadyTold | internal/controller/common/kubeutil/health.go:167-207 | Otherwise the first demand it does not meet is told, with the numbers |
| Health.OtherAnswers | internal/controller/common/kubeutil/health.go:47-108 | A missing object is waited for, a failed lookup is an error, any other kind is as healthy as its own check says |
| ServicePorts.BuildServicePorts | pkg/builders/k8s/helpers.go:177-227 | Keeps length and order, names pairwise distinct, each the least free candidate, node ports 0 or in range |
| ServicePorts.FailedProbesBounded | pkg/builders/k8s/helpers.go:201-208 | Pigeonhole: no more failed probes than used names, so the loop ends |
| ServicePorts.ServicePortsUnique | pkg/builders/k8s/helpers.go:177-227 | The specification determines the ports |
| ServicePorts.UnnamedPort | pkg/builders/k8s/helpers.go:188-199 | A first port without a name is named after its number and protocol, TCP if unset |
| ServicePorts.NumberedName | pkg/builders/k8s/helpers.go:195-208 | A named port keeps its name, or gets the least number that makes it differ from every name before it |
| ServicePorts.LaterLiteralIsRenamed | pkg/builders/k8s/helpers.go:195-208 | A later literal that equals a generated name is itself renamed |
| Text.NaturalRoundTrip | pkg/builders/k8s/helpers.go:205-207 | Decimal printing is inverted by reading |
| Names.ResourceNameFixedPoints | pkg/builders/k8s/helpers.go:62-73 | The sanitiser's fixed points are exactly the names it can produce |
| Names.ResourceNameIdempotent | pkg/builders/k8s/helpers.go:62-73 | Idempotent and at most 63 characters |
| Names.ResourceNameCharacters | pkg/builders/k8s/helpers.go:62-73 | Character by character: lower case, hyphens for underscores, cut at 63 characters, then trailing hyphens dropped |
| Names.HealthCheckLooksUpBuiltName | internal/controller/app/applicationdefinition_controller.go:755-759 | For admitted names the looked-up name is the built one if and only if it has no underscore |
| Underscores.UnderscoreNeverRuns | internal/controller/app/applicationdefinition_controller.go:755-759 | In every run whose lookups find only what was deployed, no application with a component name that the builder changes, as it does every name with an underscore, is ever stored as Running |
| Names.ContainerNameShape | pkg/builders/k8s/helpers.go:76-102 | Alphanumeric ends, at most 63 characters, a host label for plain input |
| Names.ContainerNameIdempotent | pkg/builders/k8s/helpers.go:76-102 | Idempotent |
| Names.ContainerNameCharacters | pkg/builders/k8s/helpers.go:76-102 | Character by character: lower case, hyphens for blanks and underscores, and how the two ends are repaired |
| Names.NamelessServiceAccount | pkg/builders/k8s/helpers.go:264-281 | A built service account is nameless if and only if its create flag is unset |
| Volumes.MountClosure | pkg/builders/runtime/builder.go:354-463 | Every mount of main and init containers resolves to a pod volume or claim template |
| Volumes.EveryVolumeMounted | pkg/builders/k8s/volume.go:39-149 | Every ConfigMap or Secret volume is used by some mount |
| Volumes.ResolvesToFirstListed | pkg/builders/k8s/volume.go:39-69 | Same-named entries resolve to the first one listed |
| Volumes.UniqueResolution | pkg/builders/k8s/volume.go:152-189 | Resolution is unique if and only if config, secret and claim names are disjoint |
| Volumes.ConfigServed | pkg/builders/k8s/volume.go:39-94 | The volume that serves a ConfigMap mount is made from the ConfigMap of that very entry, unless an earlier entry has its name |
| Volumes.SecretServed | pkg/builders/k8s/volume.go:96-149 | The same for secrets |
| Volumes.ClaimMounted | pkg/builders/k8s/volume.go:152-189 | The claim is mounted writable at its path and at its data path below it, and only under a configured name |
| Volumes.BuildVolumesFromConfigMaps | pkg/builders/k8s/volume.go:39-69 | The loop with its seen-names map keeps the first entry of each name, in order |
| Volumes.BuildVolumesFromSecrets | pkg/builders/k8s/volume.go:96-126 | The same for secrets |
| Volumes.BuildRuntimeVolumeMounts | pkg/builders/runtime/builder.go:436-463 | The appended mounts, list by list |
| Volumes.BuildPodVolumes | pkg/builders/runtime/builder.go:404-463 | Volumes and mounts, built by separate loops, agree: every mount resolves to a built volume or a claim template, and every built volume is mounted |
| Labels.BuildAndStamp | internal/controller/app/applicationdefinition_controller.go:596-607 | Objects and claim template of a component share one label map; stamping through it leaves each of them with its own component's labels, and pod labels untouched |
| Labels.StampedLabels | internal/controller/app/applicationdefinition_controller.go:596-607 | Stamping in place keeps instance and name and replaces the component type |
| Labels.LabelTexts | pkg/builders/runtime/builder.go:466-485 | The label keys and values, written out |
| Labels.SelectorMatchesPods | pkg/builders/runtime/builder.go:162-163 | The selector matches the pods of its own component and of no other |
| Labels.MergeMaps | pkg/builders/k8s/helpers.go:329-341 | The overriding side wins |
| Recorder.NoDuplicateWithinTTL | pkg/webrecorder/recorder.go:151-188 | Any number of senders interleaved with the cleaner, as long as no two are in the middle of sending one key: equal keys are sent more than the time-to-live apart, and the first of each key is not held back |
| Recorder.RivalsBothSend | pkg/webrecorder/recorder.go:177-188 | The boundary is exact: in any state in which two senders are in the middle of sending one key, both can send it at the same time |
| Recorder.TwoSendersBothPass | pkg/webrecorder/recorder.go:177-188 | Two senders can both pass, because load and store are separate |
| Recorder.EventKeyInjective | pkg/webrecorder/recorder.go:170-174 | Keys determine their parts when the later parts have no colon |
| Recorder.KeyText | pkg/webrecorder/recorder.go:170-174 | The key's text |
| Recorder.ColonsCollide | pkg/webrecorder/recorder.go:170-174 | With a colon in a part two different events share a key |
| Recorder.AtomicSend | pkg/webrecorder/recorder.go:177-188 | Undisturbed, load and store together are what the recorder's method does |
| Recorder.WebhookEventRecorder.ShouldSendEvent | pkg/webrecorder/recorder.go:177-188 | Sends exactly when the key is not remembered, and then remembers it with the time |
| Recorder.WebhookEventRecorder.CleanupOldEvents | pkg/webrecorder/recorder.go:151-167 | Forgets exactly the expired keys |

## Left out

- One object's lifetime is modelled: deletion followed by re-creation under the same name is not.
- Only the controller writes the status; a foreign status writer is not part of the environment.
- A failed call has no effect on the server; a write that lands although its answer is lost is not modelled.
- Reads are up to date. A cache that lags behind other clients' edits is covered, since an edit between read and write has the same effect; one that lags behind the controller's own last write is not.
- SHA-256 is taken to be injective: the recorded hash is the data itself. Time is a number the environment supplies.
- Human-readable texts are the structured values they are printed from; the fixed parts the code searches for are kept. JSON, HTTP delivery and its retries, TLS and logging are left out.
- Nobody else changes the replica counts of deployed workloads.
- Replica counts are unbounded integers; the source's are 32 bits wide and only copied, compared and zeroed.
- Garbage collection of an application without components touches resources only and is not modelled on the cluster; its errors are ignored by the source.
- Volumes, probes, resources, affinity and security contexts are not part of a built object; a built Service carries the configured port specifications it is made from. Volumes, and the ports made from the specifications, are proved separately.
- The preserved cluster IP of an existing service is not modelled; its lookup and its failure are.
- The primary-resource match while building compares with an entry whose kind is still empty, never succeeds, and is left out.
- Objects of kinds other than StatefulSet, Service, ConfigMap and ServiceAccount, shared claims and Deployments: the builder cannot reach them.
- A nil replica count in pause and resume is unreachable, since verification demands one.
- The resource reconciler library and the Kubernetes client are reduced to the answers they give; server-side apply and owner references are answers too.
- Path cleaning of mount paths is not modelled; paths are compared as given.
- Health checks of kinds other than StatefulSet are one boolean and a text supplied by the environment.
- The pkg/reconcilers task runner is never called by the controller and would only add easy members.
