# The lab and project lifecycle, verified

The gateway rents cloud projects from a pool and runs student labs in them.
`CreateLab` admits a student, rents a free project and creates the lab in one
transaction; the deploy saga provisions the lab in resumable steps; users stop,
freeze, unfreeze and extend it; the cleanup saga tears it down and returns the
project. This project models that protocol and proves what every step of it
keeps, over all histories and with a provider, a database and a worker that may
fail or die at any external call.

How the model is built:

- `Types` holds identifiers and the failure oracle: each external call of a run
  works, returns an error without effect, or finds the worker dead.
- `LabDomain`, `PoolDomain`, `CloudDomain`: the lab and project aggregates and
  the in-memory cloud, each as a value with functions and as a class whose
  methods are proved to compute those functions. `Rendering` shows that the
  identifiers and names stand for distinct strings. `Wrap` runs the cloud until
  its addresses repeat.
- `DeployDomain` and `CleanupDomain` say what one saga run computes;
  `DeployProofs` and `CleanupProofs` prove what runs keep, `DeployOutcomes` and
  `CleanupOutcomes` what they leave behind, and with `DeployVerdicts` what they
  answer, told from the calls that fail; `DeployTermination`, `DeployBound` and `CleanupTermination`
  when a queue that redelivers only after an error or a death is done, `Resume`
  that interruptions do not matter.
- `Identity`, `Quota`, `LabService`: permissions, the capacity guard and the
  user-facing operations.
- `Lifecycle`: the whole system as a state machine. `OrderlyProofs`,
  `EquippedProofs`, `ExclusiveProofs`, `HousedProofs` and `TidyProofs` prove,
  claim by claim, what every step keeps or exactly which steps break it; `Histories` draws the
  conclusions over all histories and `Secrets` those about stored keys.
- `Counterexamples`: histories from an empty system in which the guarded steps do
  their harm.
- `Storage`, `Sagas`, `Operations`: the tables and the programs that change
  them in place (sagas, create, stop, freeze, unfreeze, extend), proved equal
  to the functions above.
- `Outbox`, `Sse`, `SseSteps`, `Nonce`: the outbox publisher, the event broker
  and the replay cache, each a class proved against a specification, and the
  specification's guarantees.

Without any condition, over every history: labs carry the data of their state,
a student has at most one active lab in a course, each deploying lab can be
resumed and each lab's handles name only its own resources.

Where the code does less than its documentation says, the code is kept, a lemma
gives an input, and the exact condition is proved:

- Projects are exclusive after a step if and only if the step does not rent a
  project from under a lab whose cleanup freed it and is still to be retried
  (`StepKeepsExclusiveIff`). Such a lab exists only after a worker died, or a
  save failed, between the save of the freed project and the end of the lab
  (`StepKeepsTiedIff`). Renting from under it does no harm yet: a lab loses its
  project if and only if the cleanup is then retried (`StepKeepsHousedIff`,
  `DoubleRentHappens`).
- A cleanup ends if and only if one of its teardowns meets no refused call, or
  its project counted the failures and was quarantined
  (`CleanupTerminatesIff`). There are two exceptions. A failed lab does not
  begin while the student's next lab is active: the unique index on active labs
  keeps it from being stopped or cleaned up (`RivalHoldsOff`,
  `FailedWaitsForRival`). And a failure is not counted once the project has been
  freed or quarantined (`internal/app/cleanup/saga.go:110-128`): after an
  abandoned cleanup nothing but a teardown let through ends the lab
  (`AbandonmentIsRepairedIff`), which otherwise stays active for ever and keeps
  its student from another one (`RefusedRetriesKeepSeat`, `StuckCleanupHappens`).
- A ready or frozen lab has its whole stand if and only if nobody unfroze it
  while it was deploying, which the transition table allows
  (`StepKeepsServedIff`, `ReadyWithNothingHappens`). This needs no exclusivity.
- A deploy that gives up keeps no provider handles on the lab
  (`internal/app/deploy/saga.go:179-187`), so compensation deletes nothing and
  still frees the project (`CompensationDeletesNothing`,
  `FreeButNotEmptyHappens`). A run gives up exactly when its first failing step
  is out of attempts and the saves around it work (`RunFailsIff`, `GivesUpIff`),
  and leaves the project empty exactly when the very first call failed and the
  project was empty (`GivingUpVacatesIff`); free projects stay empty exactly
  without such steps, early unfreezes of labs with something built, and cleanups
  that free a project in use for another lab with something in it
  (`StepKeepsTidyIff`).
- A run leaves a secret without an owner exactly when the key was stored and
  the save of the finished step did not work (`OrphansIff`). Such a secret, and
  the key of a failed deploy, are never deleted (`OrphanStays`,
  `FailedLabsKeyStays`). A cleanup deletes its lab's key exactly when it
  concludes and the call that does so works (`RunDeletesKeyIff`); the key of a
  lab that ended without is never deleted either (`EndedLabsKeyStays`).
- An outbox row goes out twice exactly through a tick that takes one already
  taken (`TickRepeatsIff`), which needs a failed mark (`MarksMakeItAtMostOnce`,
  `FailedMarkRepublishes`).
- A nonce is accepted exactly when each earlier acceptance was outlived by some
  claim since (`AcceptedIffOutlived`), which is the rule only if the clock does
  not go back (`AcceptedIffFresh`, `ClockSetBackForgets`).
- A new floating address takes one from a live server exactly when the next
  address is in use (`FreshAddressStealsOnlyOnWrap`, `LiveServerLosesItsAddress`).
- The quota guard is asked for less than a stand boots
  (`AdmittedLabCanExceedThreshold`); the stand fits exactly under the
  inequalities with its own footprint (`StandFitsIff`).
- Cleanup never reads the lab's timer, so extending does not postpone a task
  already scheduled (`RunIgnoresTimer`).

## Model

| member | source | states |
|---|---|---|
| LabDomain.LabInstance.Transition | internal/domain/lab/instance.go:67-77 | the new state, reason, time and one event, or an error and nothing changed |
| LabDomain.LabInstance.Freeze | internal/domain/lab/instance.go:80-90 | frozen with its freezer and end, without a cleanup time, or nothing changed |
| LabDomain.LabInstance.Unfreeze | internal/domain/lab/instance.go:92-102 | ready with a new cleanup time and no freeze data, or nothing changed |
| LabDomain.LabInstance.ExtendCleanup | internal/domain/lab/instance.go:104-116 | the value-level call, which CallStores and CallWorksIff spell out: a later cleanup time for a ready lab only, never an earlier one, stored and announced |
| LabDomain.LabInstance.AssignProject | internal/domain/lab/instance.go:127-135 | the project is set and announced before the lab moves to deploying |
| LabDomain.TransitionsIff | internal/domain/lab/state.go:30-61 | the edges of the state diagram |
| LabDomain.CallWorksIff | internal/domain/lab/instance.go:67-135 | when each call works, and the error of one that does not |
| LabDomain.CallStores | internal/domain/lab/instance.go:67-135 | what a call that works leaves, field by field, with its events: an extension is announced with the very time it sets |
| LabDomain.ClashesIff | migrations/0001_init.sql:133-136 | which states the unique index counts, and that the seat is the student and the course |
| LabDomain.EventLogReplays | internal/domain/lab/instance.go:51-147 | for any calls with the buffer pulled at any points, pulled plus pending events form a legal history from pending_quota that folds to the lab's owner, state and project |
| LabDomain.CallIsLogged | internal/domain/lab/instance.go:67-135 | a failing call adds no event and changes nothing; any other extends the legal log |
| LabDomain.AtMostOneProject | internal/domain/lab/instance.go:127-135 | over any calls a lab is assigned a project at most once, and exactly when it has one |
| LabDomain.PhasesOnlyAdvance | internal/domain/lab/state.go:30-61 | under any calls a lab never returns to an earlier phase, and a terminal lab never moves |
| PoolDomain.ProjectAggregate.Release | internal/domain/pool/project.go:54-63 | an allocated project becomes cleaning and keeps its lab; anything else is an error |
| PoolDomain.ProjectAggregate.RecordCleanupFailure | internal/domain/pool/project.go:79-91 | one more failure, quarantine and its event at the third |
| PoolDomain.OpStores | internal/domain/pool/project.go:41-112 | what an operation that works leaves, field by field, with its event |
| PoolDomain.OpWorksIff | internal/domain/pool/project.go:41-112 | when each operation works; one that does not changes nothing |
| PoolDomain.StoreAndLoad | internal/adapters/storage/pgxrepo/pool_mapping.go:13-31 | exactly failure counts of 31 bits are stored, and what is loaded again is the project without its events and, unless allocated or cleaning, its lab |
| PoolDomain.PersistenceIsInvisible | internal/adapters/storage/pgxrepo/pool.go:193-198 | saving and reloading between any operations changes no state, failure count, error or event, for every sequence of operations |
| PoolDomain.StepsAlike | internal/adapters/storage/pgxrepo/pool_mapping.go:13-31 | runs that differ only in a lab id dropped by storage stay indistinguishable under every operation |
| PoolDomain.LabIdIsForgotten | internal/adapters/storage/pgxrepo/pool.go:193-198 | what persistence does lose: the lab id of a quarantined project |
| Rendering.ResourceIdsAreDistinct | internal/adapters/cloud/inmem/provider.go:376-379 | ids padded to six digits stay distinct past six digits |
| Rendering.NamesAreDistinct | internal/app/deploy/topology.go:55-59 | distinct resource names of labs render as distinct strings, kind by kind |
| CloudDomain.Provider.BootServer | internal/adapters/cloud/inmem/provider.go:194-228 | the same id for a name already booted, an error and no change when it does not fit, otherwise one new server and exact counters, whatever the order of the search |
| CloudDomain.Provider.AllocateFloatingIp | internal/adapters/cloud/inmem/provider.go:258-277 | the address the server already has, or one made from the next number |
| CloudDomain.Provider.DeleteServer | internal/adapters/cloud/inmem/provider.go:280-300 | the server, its share of the counters and its addresses are gone; a missing server is no error |
| CloudDomain.Provider.CreateNetwork | internal/adapters/cloud/inmem/provider.go:303-317 | the network of that project and name, made once |
| CloudDomain.FlavorAmounts | internal/adapters/cloud/inmem/provider.go:381-405 | what each flavor takes |
| CloudDomain.NewCloudIsEmpty | internal/adapters/cloud/inmem/provider.go:104-117 | a new provider is empty, with the default capacity unless it is given one |
| CloudDomain.BootAnswers | internal/adapters/cloud/inmem/provider.go:194-228 | a boot fails exactly when a fault is injected or a new machine does not fit, and then changes nothing; otherwise it answers the machine of that name, or a new one with the next id, whose resources are added to the counters |
| CloudDomain.AddressAnswers | internal/adapters/cloud/inmem/provider.go:231-277 | a machine that is not there is never active and gets no address; otherwise its own, or the one of the next number modulo 253 |
| CloudDomain.NetworkAnswers | internal/adapters/cloud/inmem/provider.go:303-318 | the same for keypairs, and for networks the one of that name or a new one with the next id and the range asked for |
| CloudDomain.DeletesAnswer | internal/adapters/cloud/inmem/provider.go:280-330 | deletes fail exactly by injection, take away only what is named, and mind no absence |
| CloudDomain.CountersRefineSums | internal/adapters/cloud/inmem/provider.go:194-300 | after any calls each counter is the sum over the live servers and lies between zero and the capacity |
| CloudDomain.CallKeepsValid | internal/adapters/cloud/inmem/provider.go:145-328 | every call keeps counters exact, ids issued once, names unique per project, and addresses injective onto live servers |
| CloudDomain.IdsNeverComeBack | internal/adapters/cloud/inmem/provider.go:376-379 | an issued id no longer in use is never used again |
| CloudDomain.RecreateReturnsSame | internal/adapters/cloud/inmem/provider.go:200-207 | asking again for a live name returns the same id and changes nothing |
| CloudDomain.FreshAddressStealsOnlyOnWrap | internal/adapters/cloud/inmem/provider.go:258-277 | a new address takes one from another server exactly when it is in use, which needs 253 issued numbers |
| Wrap.LiveServerLosesItsAddress | internal/adapters/cloud/inmem/provider.go:258-277 | from a new provider: after 251 machines came and went, the next one takes the address of a server still running |
| DeployProofs.StepGrows | internal/app/deploy/steps.go:65-158 | wherever a step stops, the cloud only gained resources of this lab as specified; if it succeeded its state holds what it built |
| DeployProofs.ReplayRebuilds | internal/app/deploy/saga.go:71-96 | replaying the succeeded records rebuilds exactly the state held after the last of them |
| DeployProofs.PutKeepsRecords | internal/app/deploy/saga.go:98-127 | succeeded records stay a prefix of the steps when the next record is written |
| DeployProofs.RunKeeps | internal/app/deploy/saga.go:53-129 | any run leaves the lab resumable, failed, or ready with its network, keypair and one server per machine in order, each with its address; no succeeded record is rewritten and other projects are untouched |
| DeployProofs.SpecForIsMachine | internal/app/deploy/steps.go:108-118 | what the saga asks the provider for is the machine of the topology, field by field: name, image, flavor, role, fixed address, network and keypair |
| DeployProofs.HeldIsProvisioned | internal/app/deploy/saga.go:134-150 | the state after five steps names exactly the lab's own stand: network and machines as the topology says in every field |
| DeployOutcomes.RunDecides | internal/app/deploy/saga.go:53-187 | whatever fails, a run leaves the lab as it was, failed, or ready with exactly what the last step recorded, the key for checker and student and the configured life or two hours, and answers Ended exactly when it leaves or finds a lab that is not deploying |
| DeployVerdicts.RunVerdict | internal/app/deploy/saga.go:53-187 | whatever fails, a run answers Ended exactly when it leaves or finds a lab that is not deploying, Died exactly when a call it makes finds its worker dead, and an error otherwise |
| DeployVerdicts.StepDiesAtCall | internal/app/deploy/steps.go:65-158 | a step dies exactly at a call of its own |
| DeployVerdicts.KeyAndNetworkCalls | internal/app/deploy/steps.go:65-99 | two calls for the keypair, of provider and secret store, and one for the network decide those steps |
| DeployVerdicts.BootCalls | internal/app/deploy/steps.go:102-125 | one call a machine, up to the one that fails, which is counted, or that finds the worker dead, which is not |
| DeployVerdicts.AddressCalls | internal/app/deploy/steps.go:128-145 | two calls a machine, the wait and the allocation, up to the one that fails or finds the worker dead |
| DeployVerdicts.CheckIsRecorded | internal/app/deploy/steps.go:147-158 | the check calls nothing, never fails, and is recorded as passed or skipped |
| DeployOutcomes.RunFailsIff | internal/app/deploy/saga.go:95-116 | a run makes its lab failed exactly when its first failing step has no attempt left and the saves around it work |
| DeployOutcomes.GivesUpIff | internal/app/deploy/saga.go:70-116 | a run gives up exactly when the finished steps can be read and some later step is the first to fail, with no attempt left |
| DeployOutcomes.GivingUpVacatesIff | internal/app/deploy/saga.go:179-187 | a run that gives up leaves the project empty exactly when the very first call failed with nothing built before |
| DeployOutcomes.OrphansIff | internal/app/deploy/steps.go:65-83 | for every lab, budget and oracle a run leaves a new secret without an owner exactly when it stores a key and the save of the step does not work; otherwise the vault gains at most the secret recorded |
| DeployTermination.RunProgresses | internal/app/deploy/saga.go:86-116 | without crashes or storage errors a run decides the lab or spends one of the failures its budget allows |
| DeployTermination.DeployTerminates | internal/app/deploy/saga.go:53-129 | for a budget of m attempts, configured or three, any provider behaviour and a queue that redelivers only after an error, 4(m-1)+1 deliveries leave the lab ready or failed and the deploy task dropped, and no step is attempted more than m times |
| DeployTermination.DroppedIsDecided | internal/app/deploy/saga.go:53-129 | whatever fails, a deploy task is dropped only once the lab is not deploying any more |
| DeployBound.BoundIsReached | internal/app/deploy/saga.go:86-116 | for every budget some provider failures leave the lab undecided after 4(m-1) deliveries |
| DeployBound.StandThreeTakesNineRuns | internal/app/deploy/topology.go:39-53 | for the stand deployed, on a new provider with the default budget, eight deliveries may not decide the lab and nine always do |
| Resume.InterruptionsDoNotMatter | internal/app/deploy/saga.go:70-129 | a lab made ready by any failing and crashing runs has the handles, and leaves the cloud, of one uninterrupted run |
| Resume.StepKeepsBuilt | internal/app/deploy/steps.go:65-143 | wherever a step stops, the stand the remaining calls would build is unchanged |
| Resume.RetriesLead | internal/app/deploy/saga.go:53-129 | any number of runs lead to a resumable, failed or provisioned lab, and to the same stand |
| Resume.FaultlessRunBuilds | internal/app/deploy/saga.go:53-129 | one run without failures makes the lab ready with exactly the stand that the plain sequence of calls builds |
| Resume.CrashOrphansSecret | internal/app/deploy/steps.go:65-83 | one crash after the key is stored, with all provider calls working, leaves a secret no record or lab names |
| CleanupProofs.TeardownShrinks | internal/app/cleanup/saga.go:154-177 | wherever a teardown stops, only this project lost resources and the cloud stays valid |
| CleanupProofs.TeardownVacates | internal/app/cleanup/saga.go:154-177 | a complete teardown empties the project exactly when the lab's handles covered what was there |
| CleanupProofs.RunSettlesUnlessAbandoned | internal/app/cleanup/saga.go:65-150 | a run leaves the lab and its project row consistent if and only if it does not stop between freeing the project and ending the lab |
| CleanupProofs.RunIsConsistent | internal/app/cleanup/saga.go:65-150 | however a run ends, lab and project row agree, up to a project freed before its lab was finished |
| CleanupProofs.RunShrinks | internal/app/cleanup/saga.go:65-150 | whoever has the project, a run only removes resources of its own lab |
| CleanupProofs.RunEmpties | internal/app/cleanup/saga.go:100-140 | a project freed by a run holds nothing, if the lab knew what was in it |
| CleanupProofs.RunHandles | internal/app/cleanup/saga.go:65-150 | however a run ends and whoever has the project, row and lab are as they were or, field by field, as one of the saves leaves them; a row not in use is left alone, one in use stays with the lab it names, other rows are untouched |
| CleanupProofs.RunIgnoresTimer | internal/app/cleanup/saga.go:65-150 | verdict, projects, cloud, vault and lab do not depend on the lab's cleanup time, whatever fails |
| CleanupOutcomes.TeardownSucceedsIff | internal/app/cleanup/saga.go:154-177 | a teardown succeeds exactly when the provider refuses none of the calls its handles need, whatever is left in the cloud |
| CleanupOutcomes.SteadyRunTurns | internal/app/cleanup/saga.go:109-150 | with a working database a run ends the lab exactly when no delete is refused or a counted failure is the last one; a freed or quarantined project is not counted |
| CleanupOutcomes.RunFreesIff | internal/app/cleanup/saga.go:91-135 | whatever fails and whoever has the project, a run frees one in use exactly when its teardown meets no refusal and the saves before and after work |
| CleanupOutcomes.RunDeletesKeyIff | internal/app/cleanup/saga.go:143-147 | whatever fails, a run deletes the lab's stored key exactly when it gets past the freed project and the delete call works |
| CleanupOutcomes.RunVerdict | internal/app/cleanup/saga.go:65-150 | whatever fails, a run answers Ended exactly when it has loaded a lab that it leaves done or that no cleanup may begin for, Died exactly when a call it makes finds its worker dead, and an error otherwise |
| CleanupOutcomes.FreedGoesLast | internal/adapters/storage/sqlcgen/pool.sql.go:15-31 | a project a run frees is rented again only after those free for longer |
| CleanupTermination.CleanupTerminatesIff | internal/app/cleanup/saga.go:65-150 | for a queue that redelivers only after an error or a death, with a working database: a cleanup task is dropped exactly when the lab is done, which is exactly when a rival does not hold it off and one teardown met no refusal or 3-f counted ones in a row were refused; a counting project is then free with no failures, or quarantined exactly if worn out, and any other is untouched |
| CleanupTermination.QueueIsDeliver | internal/app/cleanup/saga.go:65-150 | whatever fails, what the queue drops would have changed nothing any more |
| CleanupOutcomes.RivalHoldsOff | migrations/0001_init.sql:133-136 | with another active lab of the student no run begins to clean up |
| CleanupOutcomes.LaterRunsChangeNothing | internal/app/cleanup/saga.go:72-74 | further runs on a lab that is done change nothing |
| Quota.AllowedIffAllWithin | internal/domain/quota/guard.go:24-42 | a request is admitted exactly when every resource with a known total stays within the configured percentage, or within 90 if none is configured |
| Identity.CanOnLabIff | internal/domain/identity/policy.go:87-112 | who may do what to a lab: an administrator everything, a teacher of its course everything but read its key, its owner everything but unfreeze and extend, nobody else anything |
| Identity.CanAdministerIff | internal/domain/identity/policy.go:66-85 | administration is for administrators, settings also for teachers |
| Identity.OutsiderCannot | internal/domain/identity/policy.go:87-112 | a learner of the course who is not the owner may do nothing |
| Quota.BatchIsSequence | internal/domain/shared/vo.go:13-64 | admitting two requests together is admitting the second after the first |
| LabService.PoolHasIffSomeFree | internal/adapters/storage/sqlcgen/pool.sql.go:15-31 | the allocation finds a row exactly when the domain has a free project |
| LabService.CreateSucceedsIff | internal/app/lab/create.go:41-151 | a create succeeds exactly with a snapshot of at most a minute and room for 2, 4096 and 20 within the configured percentage, a known course, no active lab of the student in it, a free project of the domain and statements that work |
| LabService.CreateRefusals | internal/app/lab/create.go:41-151 | what a refused create answers, in the order of its checks |
| LabService.FailedCreateRentsNothing | internal/app/lab/create.go:91-151 | a create that fails leaves every project and lab unchanged, but for an empty pool, which leaves exactly the rejected lab |
| LabService.SuccessfulCreateRentsOne | internal/app/lab/create.go:91-151 | a create that succeeds rents exactly one project, the longest free of the domain by change time and id, to exactly the new lab, both given field by field |
| LabService.CreateAnnounces | internal/app/lab/create.go:108-140 | the events a create puts in the outbox, in order |
| LabService.RentedIsAllocated | internal/adapters/storage/sqlcgen/pool.sql.go:15-31 | the allocation statement writes the row that the aggregate's own allocation would be saved as |
| LabService.StopSucceedsIff | internal/app/lab/ops.go:89-122 | a stop succeeds exactly for a ready, frozen or failed lab without a rival, by its owner, a course teacher or an administrator; what each refusal says, and that it changes nothing |
| LabService.FreezeSucceedsIff | internal/app/lab/ops.go:124-147 | the same for a freeze of a ready lab, of which a student may not choose the length |
| LabService.UnfreezeSucceedsIff | internal/app/lab/ops.go:149-165 | the same for an unfreeze, by a course teacher or an administrator only, and not only of frozen but also of deploying and checking labs |
| LabService.ExtendSucceedsIff | internal/app/lab/ops.go:167-183 | the same for an extension of a ready lab, which never shortens its life |
| LabService.StopStores | internal/app/lab/ops.go:89-122 | what a stop stores and answers, field by field |
| LabService.FreezeStores | internal/app/lab/ops.go:124-147 | what a freeze stores: its freezer, reason and end, a day from now unless chosen, and no cleanup time |
| LabService.UnfreezeStores | internal/app/lab/ops.go:149-165 | what an unfreeze stores: a cleanup time two hours from now and no freeze data |
| LabService.ExtendStores | internal/app/lab/ops.go:167-183 | what an extension stores: the cleanup time asked for, and nothing else changed |
| LabService.UnfreezeUndoesFreeze | internal/app/lab/ops.go:124-165 | a lab frozen and unfrozen is as before but for its timer and the record of the change |
| LabService.OutsiderChangesNothing | internal/app/lab/ops.go:89-183 | a learner of the course who does not own the lab is refused all four, and nothing changes |
| LabService.StandFitsIff | internal/app/lab/create.go:182-184 | for every snapshot and threshold the deployed stand stays within it exactly under three inequalities with 9, 16384 and 160, where the request is admitted under those with 2, 4096 and 20 |
| LabService.AdmittedLabCanExceedThreshold | internal/app/lab/create.go:182-184 | an admitted lab's stand can exceed the threshold |
| OrderlyProofs.StepKeepsOrderly | migrations/0001_init.sql:112-136 | every step, whatever fails, keeps the shape of every lab, the pool's rows and at most one active lab per student and course |
| OrderlyProofs.FailedWaitsForRival | migrations/0001_init.sql:133-136 | while the student's next lab is active no operation or run moves the failed one |
| EquippedProofs.StepKeepsServedIff | internal/app/lab/ops.go:149-165 | every step keeps deploying labs resumable and handles a lab's own, even where two labs share a project; exactly unfreezing a deploying lab leaves a usable lab without its stand |
| ExclusiveProofs.StepKeepsExclusiveIff | internal/app/lab/create.go:91-151 | a step keeps projects exclusive if and only if it does not rent one from under a lab whose cleanup is to be retried |
| ExclusiveProofs.StepKeepsTiedIff | internal/app/cleanup/saga.go:129-150 | cleaning labs stay tied to unfreed projects if and only if the step is not a cleanup stopped between freeing and finishing, and while they are no create rents from under anyone |
| HousedProofs.StepKeepsHousedIff | internal/app/cleanup/saga.go:91-107 | even where projects were rented from under abandoned cleanups, a step leaves each lab from deploying to failed in possession of its project if and only if it is no cleanup releasing a project another lab is using |
| TidyProofs.StepKeepsTidyIff | internal/app/deploy/saga.go:179-187 | free projects stay empty and labs aware of what is in the projects they own if and only if the step is not a deploy giving up with something built or found, an early unfreeze of a lab with something built, or a cleanup freeing a project in use for another lab with something in it |
| TidyProofs.DeployKeepsTidyIff | internal/app/deploy/saga.go:53-129 | the same for a deploy run, with the guard read from the records, the oracle and the cloud before it |
| Histories.StoredLabsAreShaped | internal/app/lab/ops.go:89-180 | in every reachable state ready has a cleanup time and no freeze data, frozen its freeze data and no cleanup time, and a project is present exactly from deploying on |
| Histories.OneLabPerSeat | internal/app/lab/create.go:97-103 | over any history a student has at most one active lab in a course, and so at most one usable one |
| Histories.HistoriesStayEquipped | internal/app/deploy/saga.go:53-129 | over any history each deploying lab can be resumed and each lab's handles name only its own |
| Histories.UsableLabsAreProvisioned | internal/app/deploy/saga.go:134-150 | over any history without an early unfreeze every ready or frozen lab names exactly its own stand |
| Histories.StandIgnoresHistory | internal/app/deploy/saga.go:70-129 | a lab usable in two histories, whatever failed or went on in other labs, has the same machines in the same order up to ids |
| Histories.ReadyStandThreeIsComplete | internal/app/deploy/topology.go:39-53 | a ready or frozen lab of the stand deployed names its five machines in its network, each with the literal name, image, flavor, address, role and resources |
| Histories.NoDoubleRent | internal/app/lab/create.go:91-151 | over any history that rents from under no lab, each tenant's project is its own, no two tenants share one and every taken project has its tenant |
| Histories.TheftTakesAbandonment | internal/app/cleanup/saga.go:129-150 | without an abandoned cleanup no create rents from under anyone, and every cleaning lab stays tied |
| Histories.NobodyIsEvicted | internal/app/cleanup/saga.go:91-107 | over any history in which no lab is cleaned up while another uses its project, each lab from deploying to failed has its project allocated to it, and no two share one |
| Histories.EvictionTakesTheft | internal/app/lab/create.go:91-151 | no history that rents from under no lab evicts or strips anyone |
| Histories.RetriesEndIff | internal/app/cleanup/saga.go:109-150 | retries of a cleaning lab whose project is free or quarantined end it exactly when one teardown meets no refusal, and otherwise change no table |
| Histories.AbandonmentIsRepairedIff | internal/app/cleanup/saga.go:65-150 | an abandoned cleanup retried any number of times before the project is rented again evicts nobody, and is repaired exactly when the provider lets one teardown through |
| Histories.RefusedRetriesKeepSeat | internal/app/lab/create.go:97-103 | until then the student gets no other lab in the course |
| Histories.FreeProjectsAreEmpty | internal/app/cleanup/saga.go:154-177 | over any history without the guarded steps a free project holds no server, address, keypair or network, even where projects were rented from under abandoned cleanups |
| Secrets.StepKeepsKeysApart | internal/app/deploy/steps.go:65-83 | every step keeps secrets apart, one lab each, and revives or deletes no secret that no lab can refer to |
| Secrets.FailedLabsKeyStays | internal/app/deploy/saga.go:134-187 | over any history the key of a failed deploy stays stored for ever |
| Secrets.EndedLabsKeyStays | internal/app/cleanup/saga.go:143-147 | over any history the key of a lab that ended without deleting it stays stored for ever |
| Secrets.OrphanStays | internal/app/cleanup/saga.go:143-147 | over any history a stored secret that no step recorded is never deleted |
| Histories.CompensationDeletesNothing | internal/app/deploy/saga.go:179-187 | cleanup of a failed deploy deletes nothing and frees the project |
| Histories.RetryEvictsNextTenant | internal/app/cleanup/saga.go:93-107 | retrying a cleanup whose project was rented again frees it under the new tenant |
| Histories.AbandonedCleanupDoubleRents | internal/app/cleanup/saga.go:129-150 | abandoned cleanup, new create, retry: the new lab is deploying in a free project |
| Counterexamples.DoubleRentHappens | internal/app/cleanup/saga.go:93-107 | from an empty system: failed deploy, cleanup stopped after freeing, new lab, retry, new lab; two labs deploy into one project |
| Counterexamples.StuckCleanupHappens | internal/app/cleanup/saga.go:109-128 | from an empty system: a ready lab's cleanup stopped after freeing, then any number of refused retries; the lab is still cleaning, its project free and its student refused a new lab |
| Counterexamples.ReadyWithNothingHappens | internal/app/lab/ops.go:149-165 | from an empty system: a teacher unfreezes a deploying lab, which is then ready with nothing |
| Counterexamples.FreeButNotEmptyHappens | internal/app/deploy/saga.go:179-187 | from an empty system: a failed deploy and its compensation leave a keypair in a free project |
| Histories.FaultlessCleanup | internal/app/cleanup/saga.go:65-150 | a run whose calls work ends the lab and frees its project whatever the lab's timers say and whoever holds the project |
| Storage.Database.AllocateOneFree | internal/adapters/storage/pgxrepo/pool.go:33-50 | rents the longest-free project of the domain and changes no other row, or finds none |
| Sagas.DeploySaga.Run | internal/app/deploy/saga.go:53-129 | the program computes the specified run, call for call, and touches no other lab |
| Sagas.DeploySaga.BootVms | internal/app/deploy/steps.go:102-125 | the boot loop computes the specified step |
| Sagas.DeploySaga.WaitSsh | internal/app/deploy/steps.go:128-145 | the address loop computes the specified step |
| Sagas.CleanupSaga.Run | internal/app/cleanup/saga.go:65-150 | the program computes the specified run, call for call, and touches no other lab |
| Sagas.CleanupSaga.Teardown | internal/app/cleanup/saga.go:154-177 | servers, keypair and network are deleted in order up to the first failing call |
| Storage.Database.SaveLab | migrations/0001_init.sql:133-136 | saving drains the events; the unique index refuses exactly a second active lab, and holds after every save |
| Operations.LabOperations.CreateLab | internal/app/lab/create.go:41-151 | admit, check, create, allocate, then assign or reject; a statement failing anywhere in the transaction rolls all its writes back, and the tables and the answer are those of the specified create |
| Operations.LabOperations.StopLab | internal/app/lab/ops.go:89-122 | loading, checking, changing and saving the aggregate gives the tables and the answer of the specified stop in every case |
| Operations.LabOperations.FreezeLab | internal/app/lab/ops.go:124-147 | the same for freeze, with the default length when none is given |
| Operations.LabOperations.UnfreezeLab | internal/app/lab/ops.go:149-165 | the same for unfreeze, with a new cleanup time |
| Operations.LabOperations.ExtendLab | internal/app/lab/ops.go:167-183 | the same for the extension, counted from now |
| Outbox.Table.Fetch | internal/adapters/storage/sqlcgen/outbox.sql.go:25-32 | the scan computes the ordered, limited query |
| Outbox.FetchTakesTheFirst | internal/adapters/storage/sqlcgen/outbox.sql.go:25-32 | a fetchable row is left out only behind a full batch of smaller ids |
| Outbox.Publisher.Tick | internal/app/outbox/publisher.go:107-147 | the loop computes the specified tick, for any failures and cancellation |
| Outbox.TickRows | internal/app/outbox/publisher.go:116-144 | a tick marks the accepted rows and bumps the refused ones it reaches, where the database allows, and leaves every other row alone |
| Outbox.TickDrains | internal/app/outbox/publisher.go:107-147 | when the database works every tick that finds a row lowers the failures left |
| Outbox.OutboxDrains | internal/app/outbox/publisher.go:107-147 | without inserts finitely many ticks leave every row published or exhausted |
| Outbox.PublishedAtLeastOnce | internal/app/outbox/publisher.go:116-144 | under any failures a row marked published was accepted by the bus, with its own message, and a row never accepted stays fetchable until it failed the maximum number of times |
| Outbox.TickRepeatsIff | internal/app/outbox/publisher.go:116-144 | rows stay delivered at most once exactly through the ticks that take none already taken |
| Outbox.MarksMakeItAtMostOnce | internal/app/outbox/publisher.go:142-144 | when every mark works no row goes out twice, whatever becomes of bus, fetches, bumps and context |
| Outbox.DefaultsFetch | internal/app/outbox/publisher.go:62-71 | with the default configuration a tick takes at most a hundred rows with fewer than ten failures and leaves one out only behind a hundred of smaller ids |
| Outbox.DefaultsDrain | internal/app/outbox/publisher.go:62-71 | with the default configuration n new rows are drained by 10 n ticks |
| Outbox.FaultlessIsExactlyOnce | internal/app/outbox/publisher.go:107-147 | when nothing fails rows go out exactly once in ascending id order across ticks, inserts and cancellations |
| Outbox.FailedMarkRepublishes | internal/app/outbox/publisher.go:142-144 | a failed mark sends the row out twice |
| Sse.Broker.Subscribe | internal/adapters/sse/broker.go:252-262 | one new client; the index lists exactly the listeners of each audience |
| Sse.Broker.Drop | internal/adapters/sse/broker.go:264-278 | the client and all its index entries are gone, and no audience is left empty |
| Sse.Broker.Publish | internal/adapters/sse/broker.go:92-107 | taken in one go (SseSteps takes it apart): through the index, exactly the listeners with room get the event and those without are dropped |
| Sse.NoGaps | internal/adapters/sse/broker.go:92-147 | over any history what a registered client was sent plus what waits for it is exactly what it is due, in order, and at most 32 events wait |
| Sse.DroppedRatherThanSkipped | internal/adapters/sse/broker.go:100-106 | a client leaves exactly when it disconnects or would miss an event |
| Sse.Broker.Targets | internal/adapters/sse/broker.go:93-98 | the snapshot of a publish is exactly the registered listeners of the audience |
| SseSteps.NoGapsBetweenSteps | internal/adapters/sse/broker.go:92-107 | however concurrent publishes, connections and writes interleave, a registered client has got exactly the announcements made to it and served, each once, at most 32 waiting, in the order of publishes that do not overlap |
| SseSteps.FinishedLeavesNoGap | internal/adapters/sse/broker.go:92-107 | once no publish is under way it has got every announcement made to it |
| Nonce.NonceCache.Claim | internal/adapters/lms/lti13/verifier.go:224-236 | the pruning loop and the check compute the specified step |
| Nonce.CacheIsExact | internal/adapters/lms/lti13/verifier.go:224-236 | with a clock that does not go back the cache holds exactly the acceptances inside the window |
| Nonce.AcceptedIffOutlived | internal/adapters/lms/lti13/verifier.go:224-236 | for any clock a nonce is accepted exactly when each earlier acceptance of it was followed by a claim at or after the end of its window |
| Nonce.AcceptedIffFresh | internal/adapters/lms/lti13/verifier.go:224-236 | a nonce is accepted exactly when the whole history has no acceptance of it within the window |
| Nonce.ClockSetBackForgets | internal/adapters/lms/lti13/verifier.go:227-234 | a clock set back makes the cache accept a nonce again inside its window |

## Left out

- Sessions of the queue: enqueueing, timers and retry counts of tasks. Liveness
  is stated in numbers of runs; the deploy task's five retries are fewer than a
  deploy may need.
- Overlapping runs and the optimistic `updated_at` checks: a saga run, a create
  and a user operation are atomic steps of a history, one worker per lab at a
  time. Row locks of the allocation statement are not modelled. Inside a run,
  failures and crashes may fall before any external call.
- Failures with an effect: a failing provider or storage call changes nothing. A
  call that works and whose caller dies before the next one is covered.
- Admin quarantine, release and decommission: they bypass the protocol and are
  not steps of the histories. The project operations behind them are modelled.
- Check runs and Ansible: the last deploy step never fails, and its result is a
  string; a lab is never in the checking state in the histories.
- The real provider: the in-memory one stands for it. Boot latency, waiting,
  clocks and key material are not part of this model.
- Identifiers: numbers stand for UUIDs and provider ids; equality is all the
  sagas use. The hash of issuer and nonce is taken to be collision-free.
- Integers are unbounded and percentages are exact reals; the source's int64 and
  float64 rounding is not modelled. The 32-bit check on the failure count is.
- Default durations: two hours to cleanup, one day of freeze and one minute of
  quota age are constants, except where the deploy configuration sets its own.
- Error payloads, audit rows, per-step timestamps and last errors are dropped.
- ListLabs and the read-only queries: they would add only easy members.
- The projection of bus payloads to events. The class's Publish serves its
  snapshot in one go; SseSteps takes it apart.
- Outbox rows become visible in id order; ids committed out of order are not
  modelled.
- Resume.InterruptionsDoNotMatter: compares ids and the whole cloud, so other
  labs must not call the provider between the runs and at most 253 numbers have
  been issued; with other labs at work the stand is the same up to ids, which is
  Histories.StandIgnoresHistory.
