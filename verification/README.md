# Runner manager: model and proofs

A host agent starts one-shot GitHub runners under two ceilings, leases workspace
slots to them, journals every step so that a crash can fall anywhere, and gives
capacity back only on proof that a runner is gone. A small coordinator wakes hosts
over long-lived connections. This project models the parts of both where
correctness depends on order, on crashes or on interleaving, and proves what they
are for.

Each module follows one component. Code that changes things step by step is a class
or a method with its loops; pure decisions are functions; a protocol that must
survive crashes is either a step system (`IsolatedLifecycle`, `Slots`), a list of
durable effects that a crash cuts short (`Reconcile`), or a class that keeps a ghost
history of every durable state it passed through (`NativeSpawn`). What the outside
answers (the provider, GitHub, the file system, the Docker engine, the clock) is a
parameter, so every result holds for every answer it does not explicitly restrict.

- `Attempts`, `Journal`: the attempt state diagram with its edges, and the journal
  with its two guards.
- `AttemptLives`: exactly which rows the edges produce and which are read back.
- `IsolatedLifecycle`: launches, cleanups, supervision, startup recovery, crashes
  and outsiders, interleaved in any order.
- `CleanupOrder`: what happened earlier in the life of a cleanup before it acts.
- `RowsReadBack`: that the agent can read every row it journals.
- `NativeSpawn`: the native start loop, the spawn and the abort of a child.
- `Launching`: that a launch in which everything works gets to a running environment.
- `Reconcile`, `Outcomes`, `Replacements`: one supervision pass effect by effect, what
  it journals, and which replacements a launcher hands out over a whole run.
- `Capacity`: the host allocator, whole passes and repeated polls.
- `Slots`: slot leases over whole runs.
- `SlotDirectory`: scrub, verify and reuse of a persistent slot.
- `PackageCopy`: the validated copy of a package that jobs may be editing.
- `DockerResources`, `DockerRequests`, `DockerLoad`, `DockerSweep`, `DockerJournal`:
  Docker accounting.
- `Retry`: delays and retry loops.
- `RateLimit`, `Registry`, `DeliveryLog`, `EnrollmentStore`: the coordinator.
- `Wrappers`, `Runs`, `Sums`: shared definitions.

`dafny verify dfyconfig.toml` checks everything.

## What the proofs found

In six places the code does less than its documentation or a reader would expect.
Each has a lemma that shows it and one that says exactly when the expectation is met.

- A surplus runner stopped by its idle timeout is documented as never replaced. The
  terminate mark does not record why a runner was stopped, so once the mark is
  durable, a runner found dead by a later pass is labelled a registration timeout and
  replaced, unless the stopping pass recorded its conclusion or the runner is seen to
  have exited by itself. A crash leads there (`InterruptedIdleExitIsReplaced`), and so
  does a stop that fails while the runner dies (`LateIdleExitIsReplaced`), a failed look
  or a refused write; `IdleExitIsReplacedExactlyWhen` is the if-and-only-if.
- A Docker create request for a network or an unnamed volume whose body has a
  `HostConfig` naming volumes is journalled with fields that loading the journal
  refuses, so the attempt's journal can no longer be loaded
  (`CreatingANetworkCanSpoilTheJournal`; `TrackedRequestKeepsJournal` is the
  if-and-only-if).
- A restarted supervisor that reads a recorded identity and gets an error from the
  host about it answers that the process is dead (`RecheckErrorLosesALiveChild`;
  `LiveChildIsMistakenOnlyWithoutEvidence` says exactly when that happens).
- A retry delay that doubles until it reaches its cap stops doubling at the
  thirty-second failure, wherever it is by then
  (`DelayStopsShortOfTheCap`; `DelayDoublesUntilCapped` is the if-and-only-if).
- A connection is documented as yielding to a newer one. The one that stays is the
  last to enter the map, which need not have the larger token
  (`SlowRegistrationWins`; `EntryIsNewestExactlyWhen`, `AlwaysNewestExactlyInOrder` and
  the contract of `Insert` say when it has).
- Rebuilding a journalled attempt is documented as refusing the states and outcomes
  that the transitions cannot produce. Of these it is exact
  (`ReadsExactlyTheCombinationsProduced`), but with the identity it also refuses a row
  they do produce, an isolated attempt given its JIT configuration before any
  environment (`AProducedRowIsRefused`; `CallKeepsLoadingExactlyWhen` is the
  if-and-only-if), and reads rows they do not, such as the finished job of an isolated
  attempt with no environment (`AnUnproducedRowIsRead`;
  `ReadableRowIsProducedExactlyWhen` is the if-and-only-if). The agent never makes that
  call, so every row of every run is read back (`EveryRowIsReadBack`).

The rate limiter counts in fixed windows, two of which can meet inside one minute.
Even so a sliding minute admits at most one call less than twice the limit, and that
bound is reached.

## Model

| member | source | states |
|---|---|---|
| `IsolatedLifecycle.RunKeepsInv` | crates/agent/src/lifecycle.rs:3804-3931 | the invariant behind the results below holds after every run of launches, cleanups by stale copies, supervision, startup recovery, crashes and outside actions |
| `IsolatedLifecycle.NoEnvironmentIsLost` | crates/agent/src/lifecycle.rs:4507-4604 | over every run, an environment the agent created has a journal row that still holds capacity, a cleaned row has no environment carrying its labels, and no attempt ever had two environments |
| `IsolatedLifecycle.IdentityIsWrittenOnce` | crates/domain/src/execution.rs:257-283 | over every run, no row is dropped, and the environment, image and generation a row names are written once and then only repeated |
| `IsolatedLifecycle.MissingMeansNoneAlive` | crates/agent/src/oci.rs:334-354 | when the provider answers Missing to a cleanup, whether it was asked by id or by labels, no environment of that attempt is left |
| `IsolatedLifecycle.ProviderSpeaksOnlyOfItsOwn` | crates/agent/src/oci.rs:309-354 | what the provider answers about an environment that is the attempt's own, that is another's and that is not there |
| `IsolatedLifecycle.CleanedOnlyOnProof` | crates/agent/src/lifecycle.rs:3883-3931 | a row becomes cleaned only by the last step of a cleanup, and at that moment no environment of the attempt exists |
| `CleanupOrder.ActsOnlyOnConfirmedOwnership` | crates/agent/src/lifecycle.rs:3811-3878 | over every run, wherever a cleanup stops or removes an environment, two earlier steps of the same life of that cleanup, with no crash, end or new beginning in between, listed the allocation and were then told the environment is its own; the listing showed at most one, or failed, which the code lets pass |
| `CleanupOrder.RemovedOnlyAfterOwnership` | crates/agent/src/lifecycle.rs:3858-3878 | over every run from the start, an environment that goes without the operator was removed by a cleanup that had been told, earlier in the same life and after a listing, that this very environment is its attempt's |
| `CleanupOrder.CleanedOnlyAfterTheAnswerMissing` | crates/agent/src/lifecycle.rs:3848-3931 | over every run, a row becomes cleaned only by a cleanup of that attempt that was answered Missing earlier in the same life, after a listing, and after a confirmed ownership if it removed an environment on the way |
| `CleanupOrder.CameFrom` | crates/agent/src/lifecycle.rs:3804-3931 | over every run, where a cleanup is was reached by an earlier step of its own in the same life, from the point before, on the answer that point needs |
| `CleanupOrder.PutOffExactlyOnDoubt` | crates/agent/src/lifecycle.rs:3817-3890 | a cleanup is put off if and only if it is told something it cannot go on from, with nothing done but what the provider did, and otherwise goes on |
| `CleanupOrder.LastListingGuards` | crates/agent/src/lifecycle.rs:3883-3890 | whatever the last listing shows puts the cleanup off in any state, and in every state a run reaches it can show nothing |
| `CleanupOrder.PutOffIsJournalled` | crates/agent/src/lifecycle.rs:3922-3931 | a cleanup put off is journalled so that it is taken up again |
| `CleanupOrder.ActsOnTheNamedEnvironment` | crates/agent/src/oci.rs:711-745 | a stop and a removal reach the environment the row names, if it carries the attempt's labels, and no other |
| `IsolatedLifecycle.RemovalsAreOwned` | crates/agent/src/oci.rs:711-755 | the agent removes an environment only inside a cleanup of a terminal attempt whose row names exactly that environment, never one somebody else made |
| `IsolatedLifecycle.AdoptKeepsInv` | crates/agent/src/lifecycle.rs:2996-3053 | startup recovery names an environment for a row only if it is the one created for that row |
| `IsolatedLifecycle.LaunchIsAlone` | crates/agent/src/lifecycle.rs:4528-4604 | while a launch is in flight no other launch and no cleanup works on its attempt |
| `IsolatedLifecycle.SuperviseKeepsInv` | crates/agent/src/lifecycle.rs:3484-3527 | no edge supervision can take breaks the invariant, including the early retirement of an interrupted preparation |
| `IsolatedLifecycle.CapacityCanComeBack` | crates/agent/src/oci.rs:677-709 | from every reachable state there is a continuation through a crash, adoption and cleanup after which the attempt is cleaned, whatever the enumerations of the cleanup show, its own environment included: no capacity is lost for good |
| `IsolatedLifecycle.ListingGoesOn` | crates/agent/src/lifecycle.rs:3811-3842 | a listing that shows a cleanup any part of the truth, its own environment included, lets it go on to ask the provider |
| `Launching.LaunchCanSucceed` | crates/agent/src/lifecycle.rs:4528-4604 | from every state of a recovered host, a launch in which every answer is good ends with its environment running, labelled for the attempt and named by a row that is starting, and touches nothing else |
| `Launching.LaunchesOnlyAfterRecovery` | crates/agent/src/lifecycle.rs:4430-4441 | over every run, a launch is in flight, and an attempt is allocated, only after startup recovery was finished and with no crash since |
| `Launching.FailingIsConcluded` | crates/agent/src/lifecycle.rs:4666-4673 | a launch that fails before its runner is started ends with its row failed and no environment touched |
| `Launching.SupervisionFollowsTheObservation` | crates/agent/src/lifecycle.rs:3484-3590 | supervision moves a row exactly to the state observed, if the diagram and the outcome allow it, and otherwise leaves it |
| `Attempts.WhereEachStateComesFrom` | crates/domain/src/attempt.rs:216-258 | from exactly which states each state can be reached |
| `AttemptLives.TakenExactlyWhen` | crates/domain/src/attempt.rs:1047-1336 | on a row a life produced, exactly when each call is accepted, and that an accepted call changes the row |
| `AttemptLives.LivesAreProducible` | crates/domain/src/attempt.rs:1029-1336 | every row any sequence of calls leaves has an outcome that fits its state, no isolated state on a native row, an identity if its runner came to run and no process before it was started |
| `AttemptLives.ProducedExactlyWhen` | crates/domain/src/attempt.rs:1029-1336 | the rows that sequences of calls produce from new attempts are exactly those |
| `AttemptLives.ReadsExactlyTheCombinationsProduced` | crates/domain/src/attempt.rs:853-922 | a state, an outcome and a kind of execution are read together in some row if and only if some life produces them together |
| `AttemptLives.ProducedRowLoadsExactlyWhen` | crates/domain/src/attempt.rs:860-963 | a produced row is refused when read if and only if it is an isolated attempt with a JIT configuration and no environment |
| `AttemptLives.AProducedRowIsRefused` | crates/domain/src/attempt.rs:947-961 | one accepted call on a new isolated attempt leaves a row that is refused when read |
| `AttemptLives.CallKeepsLoadingExactlyWhen` | crates/domain/src/attempt.rs:1171-1177 | one call spoils a readable row if and only if it gives the JIT configuration to an allocated isolated attempt without environment |
| `AttemptLives.ReadableRowIsProducedExactlyWhen` | crates/domain/src/attempt.rs:853-859 | a readable row is one some life produces if and only if it names its process or environment where it must and no process where it cannot |
| `AttemptLives.AnUnproducedRowIsRead` | crates/domain/src/attempt.rs:893-962 | a row of a finished job with no environment is read back though no life produces it |
| `RowsReadBack.EveryRowIsReadBack` | crates/agent/src/lifecycle.rs:4528-4604 | in every run of the isolated lifecycle every row is accepted when it is read and is what some life of its attempt produces |
| `Journal.RecordKeepsRows` | crates/domain/src/store.rs:1738-1800 | a journal write never drops a row, never changes a written identity and never moves a workspace |
| `NativeSpawn.NativeProcesses.Launch` | crates/agent/src/lifecycle.rs:4605-4663 | under every mix of failures the start loop starts at most one process, never starts again once there was one, retries only on demand confirmed twice, and ends with the process dead or the row holding capacity over a child in the map; a failed launch is journalled with the reason of its last start; a live child without any durable trace means every write failed |
| `NativeSpawn.NativeProcesses.SpawnListener` | crates/agent/src/lifecycle.rs:2368-2482 | succeeds exactly when every step did, with the identity durable and the child in the map; a failure is retryable exactly when no process was started |
| `NativeSpawn.NativeProcesses.AbortSpawnedChild` | crates/agent/src/lifecycle.rs:2558-2634 | never retryable; the child is stopped exactly when the first stop works or, nothing being durable, a further one does, and else stays in the map; what each file holds afterwards; and some evidence is durable unless every write failed |
| `NativeSpawn.NativeProcesses.RemoveIdentityFiles` | crates/agent/src/lifecycle.rs:2648-2652 | identity files go only once the child was reaped |
| `NativeSpawn.EvidenceLastsWhileAlive` | crates/agent/src/lifecycle.rs:2636-2676 | over every durable state a launch passes through, evidence of a child lasts as long as the child does, and no process comes back |
| `NativeSpawn.LiveChildIsMistakenOnlyWithoutEvidence` | crates/agent/src/lifecycle.rs:2763-2796 | a restarted supervisor answers dead for a running child if and only if all four traces are missing, or its identity was read and the host could not answer about it |
| `NativeSpawn.AnswersFollowWhatIsSeen` | crates/agent/src/lifecycle.rs:2763-2796 | an owned child is believed, a recorded identity is answered as the host sees it, an unreadable one is unresolved, and without either only the marker or the journalled id hold the answer back |
| `NativeSpawn.RecheckErrorLosesALiveChild` | crates/agent/src/lifecycle.rs:2790-2796 | a launch that went well, after which a restarted supervisor that gets an error about the durable identity answers dead while the child runs |
| `NativeSpawn.CrashKeepsALiveChildVisible` | crates/agent/src/lifecycle.rs:2678-2695 | after a crash at any point once there is evidence, a running child is not answered dead and its row still holds capacity |
| `Reconcile.DecisionsAreLegal` | crates/domain/src/attempt.rs:1625-1860 | every recovery decision concludes only over a process seen dead, terminates only one seen alive, and names only edges and outcomes legal from the state |
| `Reconcile.PassIsSafe` | crates/agent/src/lifecycle.rs:3129-3480 | for every answer, every effect of a pass is allowed in the state it meets, and a replacement is asked for only if the pass made the row terminal |
| `Reconcile.TerminationIsOrdered` | crates/agent/src/lifecycle.rs:3417-3452 | after any run, whatever recovery decides, a process is signalled only once its mark is durable, and a pass told to terminate concludes only over a dead process |
| `Reconcile.CapacityReturnsOverTheDead` | crates/agent/src/lifecycle.rs:3310-3480 | over every run, with a crash between any two effects of any pass, and for any decision that does not conclude over a process seen alive, a native row is terminal only over a dead process |
| `Reconcile.RecoveryReturnsCapacityOverTheDead` | crates/agent/src/lifecycle.rs:3340-3480 | the same of the agent as it is, with every pass of the run taking the recovery decision and nothing assumed of it |
| `Reconcile.InterruptedTerminationIsFinished` | crates/agent/src/lifecycle.rs:3308-3322 | a termination interrupted after the process died is concluded by the next working pass whatever happened in between, and is replaced exactly when the runner was not seen to exit successfully |
| `Reconcile.IdleExitIsReplacedExactlyWhen` | crates/agent/src/lifecycle.rs:3417-3480 | from a live idle runner, over the pass that stops it for idleness, cut anywhere, and the next pass that works: once marked it is replaced if and only if the first pass did not record its conclusion and the second does not see that it exited by itself; unmarked and unconcluded, the first pass did nothing to it |
| `Reconcile.ConcludesExactlyWhen` | crates/agent/src/lifecycle.rs:3429-3473 | exactly which answers and which cut let that first pass record its conclusion |
| `Reconcile.InterruptedIdleExitIsReplaced` | crates/agent/src/lifecycle.rs:3452-3480 | with a crash: the uninterrupted idle termination is not replaced; cut after the kill, the same one is concluded as a registration timeout and replaced |
| `Reconcile.LateIdleExitIsReplaced` | crates/agent/src/lifecycle.rs:3437-3446 | without a crash: a stop that fails, or answers that the runner is still there, while it dies leads to the same replacement |
| `Reconcile.ReplacementFollowsTheOutcome` | crates/agent/src/lifecycle.rs:1405-1415 | for every answer, a native pass that ends well asks for a replacement exactly when it concluded the attempt with an expired registration, an unexpected exit or a termination after registration timeout |
| `Outcomes.FinishedRunnerIsJournalledByItsJob` | crates/agent/src/lifecycle.rs:3222-3282 | a runner that exited successfully is journalled with a completed job if it ran one, or GitHub no longer lists it and nothing else is known, and with an idle exit if its assignment was never taken up |
| `Outcomes.DeadRunnerIsJournalledByItsCause` | crates/agent/src/lifecycle.rs:3308-3350 | any other dead runner is journalled by the agent's own mark, by a registration that outlived it, or by what recovery decided, in that order |
| `Outcomes.LiveRunnerIsJournalledAsSeen` | crates/agent/src/lifecycle.rs:3187-3305 | a live runner whose process id is recovered is journalled as starting under it; one whose assignment was not taken up goes back to idle; and else the row goes to the observed state or stays |
| `Outcomes.StoppedRunnerIsJournalledByReason` | crates/agent/src/lifecycle.rs:3417-3480 | a live runner stopped and seen dead is journalled with an idle exit or a termination after registration timeout, by why it was stopped |
| `Outcomes.ConcludedNativeIsCleaned` | crates/agent/src/lifecycle.rs:3723-3802 | what a pass over a concluded native attempt leaves, for each way its cleanup can go |
| `Outcomes.ConcludedIsolatedIsCleaned` | crates/agent/src/lifecycle.rs:3804-3931 | the same for an isolated attempt that is over, wherever its cleanup stands |
| `Outcomes.CleanedIsOnlyTidied` | crates/agent/src/lifecycle.rs:3137-3178 | a cleaned attempt keeps its row, and only an ephemeral native workspace is removed again |
| `Outcomes.BlindPassDoesNothing` | crates/agent/src/lifecycle.rs:3183-3212 | a pass that cannot look, or cannot write down the runner id, ends before it changed anything |
| `Outcomes.IsolatedRunnerIsJournalledAsSeen` | crates/agent/src/lifecycle.rs:3506-3605 | the same for an isolated runner whose provider answers |
| `Outcomes.UnansweredIsDeferred` | crates/agent/src/lifecycle.rs:3506-3525 | an isolated attempt whose provider cannot answer, or shows an environment that is not its own, is left as it is |
| `Outcomes.IsolatedObservationNeedsARunner` | crates/agent/src/lifecycle.rs:3560-3580 | an observation that is not of a registered runner, or has no runner id, is an error and leaves the row |
| `Outcomes.StopsExactlyWhenOverdue` | crates/domain/src/attempt.rs:1715-1790 | recovery stops a process exactly when it is alive and past its deadline for registering or, once registered and waiting, for getting work |
| `Outcomes.ConcludesExactlyWhenGone` | crates/domain/src/attempt.rs:1655-1850 | recovery concludes an attempt exactly when its process is gone and GitHub explains it, and as what |
| `Outcomes.FollowsGithubOtherwise` | crates/domain/src/attempt.rs:1640-1850 | when recovery follows what GitHub shows, keeps a live process, defers or has nothing to do |
| `Replacements.Launcher.Supervise` | crates/agent/src/lifecycle.rs:3093-3127 | a poll that completes returns exactly what was pending for its policy and what its passes asked for, and breaks off only on a crash or an error; over every run of polls, recoveries and restarts no attempt is returned twice, and only terminal ones are |
| `Replacements.Launcher.RecoverStartup` | crates/agent/src/lifecycle.rs:2982-3090 | recovery touches no attempt of an unknown policy; unless the agent dies nothing pending is dropped and what is added was not terminal and is of a known policy; a recovery that runs through leaves pending exactly what was pending and what its visits asked for, and completes if and only if no attempt of an unknown policy holds capacity and no pass of a native one was deferred |
| `Replacements.ConclusionMakesRoom` | crates/agent/src/lifecycle.rs:3054-3073 | a write keeps the account, and for an attempt not yet terminal there is room for a replacement, pending or about to be returned, if and only if the write makes it terminal |
| `Capacity.HostAllocator.FromAttempts` | crates/domain/src/capacity.rs:129-165 | the allocator starts from the saturated count of attempts that hold capacity |
| `Capacity.CountSaturating` | crates/domain/src/attempt.rs:1868-1893 | the saturating fold is the true count, capped |
| `Capacity.HostAllocator.Allocate` | crates/domain/src/capacity.rs:202-292 | what one grant gives, in plain counts: the queue less the waiting runners inside the range, and what is missing to its ends outside, up to the headroom; when each factor is the one reported, in both directions; and that the running total never saturates |
| `Capacity.WantedIsTheShortfall` | crates/domain/src/capacity.rs:260-272 | what a policy wants, in counts of assigned and waiting runners, without the clamp and the target |
| `Capacity.SupplyIsNeitherBusyNorOver` | crates/domain/src/capacity.rs:241-259 | the runners that count as supply are exactly those neither busy nor over, and which occupied ones do not |
| `Capacity.SaturationIsInvisible` | crates/domain/src/capacity.rs:202-250 | the target addition may saturate, but clamping and both comparisons answer as for the exact sum |
| `Capacity.TargetSaturatesExactlyWhen` | crates/domain/src/capacity.rs:260-261 | the 32-bit target addition saturates if and only if demand plus the occupied runners that have their work does not fit |
| `Capacity.TargetCanSaturate` | crates/domain/src/capacity.rs:260-261 | it does with the largest demand and one busy runner |
| `Capacity.Pass` | crates/domain/src/capacity.rs:179-292 | a pass starts exactly the smaller of the free capacity and the sum of what is wanted, never passes the ceiling unless it began above it, and each grant stays within its policy's maximum |
| `Capacity.OrderDoesNotMatter` | crates/domain/src/capacity.rs:202-292 | the total a pass starts is the same for every order of the policies |
| `Capacity.HostCapacityEndsThePass` | crates/domain/src/capacity.rs:262-292 | once the host limits a grant, every later grant of the pass is zero |
| `Capacity.PollFixpoint` | crates/domain/src/capacity.rs:202-292 | after any pass, once its grants are added unassigned and demand is unchanged, the next pass starts nothing for any policy |
| `Capacity.PickupsKeepSettled` | crates/domain/src/capacity.rs:202-260 | it stays at nothing through any sequence of pickups that each move one runner to busy and lower that policy's demand by one |
| `Slots.FirstFree` | crates/agent/src/lifecycle.rs:783-791 | the least slot within the ceiling that no lease holds, or none when all are held |
| `Slots.FewerLeasesLeaveASlot` | crates/agent/src/lifecycle.rs:4307-4380 | fewer leases than the ceiling always leave a slot |
| `Slots.NoSlotIsShared` | crates/agent/src/lifecycle.rs:4381-4406 | over every run of interleaved selections, writes, conclusions, failed and successful cleanups and ceiling changes, no two uncleaned attempts of a policy hold one slot |
| `Slots.LoserJournalsNothing` | crates/domain/src/store.rs:1738-1850 | of two selections of one slot that both precede either write, the second write leaves the journal as it was |
| `Slots.LockedAllocationTakesTheLowest` | crates/agent/src/lifecycle.rs:4320-4378 | an allocation nothing interleaves with writes a row if and only if some slot within the ceiling is free, whatever is leased above a lowered ceiling; the row holds the least such slot, and otherwise the journal stays as it was |
| `Slots.SlotIsImmutable` | crates/domain/src/store.rs:1760-1800 | over every run an attempt's slot never changes |
| `Slots.OnlyCleaningFreesASlot` | crates/agent/src/lifecycle.rs:3760-3788 | a lease ends only by a journalled cleaning |
| `Slots.CleaningFreesTheSlot` | crates/domain/src/store.rs:1738-1850 | a row written as cleaned gives its slot back |
| `SlotDirectory.Disk.Scrub` | crates/agent/src/lifecycle.rs:1227-1271 | whatever the listing says and however removals fail, a `_work` of any kind, everything in it and everything outside the slot stay; with faultless removals it succeeds exactly when a listed `_work` is a real directory; after a success on a truthful listing at most one real `_work` is left |
| `SlotDirectory.Disk.Verify` | crates/agent/src/lifecycle.rs:1322-1369 | accepts exactly when every listed entry passes and no sensitive name answers a stat, so an under-reporting listing cannot hide one |
| `SlotDirectory.Disk.Accept` | crates/agent/src/lifecycle.rs:834-875 | on a truthful listing accepts exactly an empty slot or one real `_work` |
| `SlotDirectory.VerifyAgreesWithAccept` | crates/agent/src/lifecycle.rs:931-933 | on a truthful listing verification and reuse accept the same slots |
| `SlotDirectory.RemovalIsContained` | crates/agent/src/lifecycle.rs:1290-1304 | removing one entry, wholly or partly, takes only expendable nodes |
| `SlotDirectory.Release` | crates/agent/src/lifecycle.rs:3942-3975 | a released slot holds no sensitive name whose stat works, and on a truthful verifying listing nothing at any depth outside its workspace, whatever stats failed |
| `PackageCopy.NothingMoved` | crates/agent/src/lifecycle.rs:1546-1564 | if a later walk has the recorded fingerprint, nothing the record saw moved from when it was read until that walk began |
| `PackageCopy.ConfirmedCopyIsASnapshot` | crates/agent/src/lifecycle.rs:1437-1468 | a copy made between a record and a walk that confirms it is exactly the package at the instant the record ended, with edits at any point of the three walks |
| `PackageCopy.UntouchedPackageIsConfirmed` | crates/agent/src/lifecycle.rs:1585-1619 | a package nobody touches always has the same fingerprint |
| `PackageCopy.TrustedTrees.Record` | crates/agent/src/lifecycle.rs:1567-1580 | what is trusted is the walk that was recorded, and a failed walk changes nothing |
| `PackageCopy.TrustedTrees.Materialize` | crates/agent/src/lifecycle.rs:606-656 | a filled runtime holds exactly the tree recorded after install, hence the installed one if no edit fell between; it is filled exactly when every stage succeeded |
| `DockerResources.IntentKeepsJournal` | crates/agent/src/docker_cleanup.rs:272-329 | a fresh intent keeps everything load checks exactly when it is shaped |
| `DockerLoad.LoadAcceptsExactlyWhatIsKept` | crates/agent/src/docker_cleanup.rs:272-329 | the ways the loader refuses a journal, as it looks for them, are together exactly what the invariant excludes |
| `DockerLoad.OperationsAreFiveGroups` | crates/agent/src/docker_cleanup.rs:374-376 | what a valid operation id is |
| `DockerLoad.IdsAreSixtyFourDigits` | crates/agent/src/docker_cleanup.rs:367-372 | what a valid resource id is |
| `DockerRequests.TrackedExactlyWhen` | crates/agent/src/docker_cleanup.rs:393-460 | exactly which create requests are journalled |
| `DockerRequests.NamedVolumeIsLeftAlone` | crates/agent/src/docker_cleanup.rs:415-422 | a volume created under a name stays out of the journal |
| `DockerRequests.RetainedIsLeftAlone` | crates/agent/src/docker_cleanup.rs:411-414 | so does anything with the retain label |
| `DockerRequests.NamedBuilderIsLeftAlone` | crates/agent/src/docker_cleanup.rs:425-432 | so does a builder told by its name |
| `DockerRequests.MountedBuilderIsLeftAlone` | crates/agent/src/docker_cleanup.rs:433-437 | by a mount of its state |
| `DockerRequests.BoundBuilderIsLeftAlone` | crates/agent/src/docker_cleanup.rs:438-449 | or by a bind of it |
| `DockerRequests.TrackedRecordsTheRequest` | crates/agent/src/docker_cleanup.rs:450-502 | what the intent records and that the body is forwarded unchanged but for three labels |
| `DockerRequests.DestinationsAreThoseNamed` | crates/agent/src/docker_cleanup.rs:463-490 | the destinations recorded are exactly the digests of those the binds and mounts name |
| `DockerRequests.ContainersCreate` | crates/agent/src/docker_cleanup.rs:398-407 | the kind of a request is told by its endpoint under any prefix and query |
| `DockerResources.TrackedRequestKeepsJournal` | crates/agent/src/docker_cleanup.rs:393-502 | journalling a tracked request keeps the journal loadable if and only if the request is for a container or does not speak of volumes |
| `DockerResources.NetworkWithVolumesSpoilsTheJournal` | crates/agent/src/docker_cleanup.rs:458-502 | a network request with `VolumesFrom` is tracked and leaves a journal that load refuses |
| `DockerResources.CreatingANetworkCanSpoilTheJournal` | crates/agent/src/docker_cleanup.rs:398-407 | a path and a body that do so |
| `DockerResources.TrackedLabelsIdentify` | crates/agent/src/docker_cleanup.rs:538-547 | the labels a tracked request carries match its own intent and no other operation, attempt or host |
| `DockerResources.ResourceKeepsJournal` | crates/agent/src/docker_cleanup.rs:621-629 | adding a resource that fits its intent keeps the journal valid and loses nothing |
| `DockerJournal.BuildIntent` | crates/agent/src/docker_cleanup.rs:443-502 | the loops over binds and mounts compute the specified intent and refuse the specified bodies |
| `DockerJournal.Journal.Intend` | crates/agent/src/docker_cleanup.rs:393-442 | the journal after a create request, and exactly when it is still one that load accepts |
| `DockerJournal.Journal.CaptureCreated` | crates/agent/src/docker_cleanup.rs:550-619 | however a capture ends the journal stays valid, keeps what it had, and gains only the resource itself and anonymous volumes at destinations the request did not name; a capture that succeeds has dealt with every such volume |
| `DockerSweep.DeletesAreJustified` | crates/agent/src/docker_cleanup.rs:699-736 | every delete names a journalled resource whose ownership and creation fingerprint the request just before confirmed; none when reporting |
| `DockerSweep.DeletesComeInRank` | crates/agent/src/docker_cleanup.rs:691-698 | deletes come in rank: containers, then volumes, then networks |
| `DockerSweep.SweepBalances` | crates/agent/src/docker_cleanup.rs:715-748 | every resource is absent, protected or a candidate, an applied candidate is removed or pending, and exactly the protected and pending are kept |
| `DockerSweep.FateByTheAnswers` | crates/agent/src/docker_cleanup.rs:699-748 | what becomes of each resource by what the engine answers: only 200, 204 and 404 count as removed, and any other answer keeps it pending |
| `DockerSweep.InspectionReadsTheStatus` | crates/agent/src/docker_cleanup.rs:515-526 | an inspection answers gone on 404, there on 200, and nothing otherwise |
| `DockerSweep.CreatedIsTheFingerprint` | crates/agent/src/docker_cleanup.rs:528-536 | where the creation fingerprint is read from and when there is none |
| `DockerSweep.SweepKeepsExactly` | crates/agent/src/docker_cleanup.rs:719-750 | what is kept is exactly the protected, reported and pending resources, in order |
| `DockerSweep.KeptJournalIsValid` | crates/agent/src/docker_cleanup.rs:300-327 | what a sweep keeps is still a journal load accepts |
| `DockerSweep.SortedByRank` | crates/agent/src/docker_cleanup.rs:692-698 | sorting keeps the multiset of resources and puts them in rank |
| `DockerSweep.RemovedIsDroppedNextTime` | crates/agent/src/docker_cleanup.rs:700-702 | what one sweep removed, wherever it was then interrupted, the next sweep that succeeds drops, on an engine that remembers what it deleted |
| `DockerJournal.Journal.CleanResources` | crates/agent/src/docker_cleanup.rs:677-752 | the sweep as a whole: off asks nothing, an error leaves the multiset of resources, success balances, and every delete is in order and justified |
| `Retry.DelayNeverShrinks` | crates/agent/src/lifecycle.rs:165-170 | delays never shrink and never pass the cap |
| `Retry.DelayDoublesUntilCapped` | crates/agent/src/lifecycle.rs:166-169 | each delay doubles the one before, capped, if and only if it is among the first thirty-two, the largest factor reaches the cap, or it starts at nothing |
| `Retry.DelayStopsShortOfTheCap` | crates/agent/src/lifecycle.rs:166-169 | a policy whose delay stops doubling far below its cap |
| `Retry.FactorFitsItsWidth` | crates/agent/src/lifecycle.rs:166-168 | the factor fits in 32 bits for every failure index |
| `Retry.WithRetry` | crates/agent/src/lifecycle.rs:4109-4149 | at most the allowed tries, no terminal failure repeated, every repetition with demand confirmed before and after its wait, how many waits there were, and that each is the time the failure named or else the delay of its turn |
| `Retry.MaterializeWithRetry` | crates/agent/src/lifecycle.rs:4074-4107 | the same, and all waits together are at most the cap times the allowed tries less one |
| `RateLimit.RateLimiter.Allow` | crates/coordinator/src/server.rs:496-510 | the answer and the windows after a call, swept or not |
| `RateLimit.SweepingIsInvisible` | crates/coordinator/src/server.rs:501-503 | for nondecreasing times the swept map answers every call as one that is never swept |
| `RateLimit.AddressesAreIndependent` | crates/coordinator/src/server.rs:504-509 | each answer of the sweeping limiter to an address is the one its own calls alone give it |
| `RateLimit.AnyMinuteAdmitsLessThanTwiceTheLimit` | crates/coordinator/src/server.rs:485-511 | after any history, any half-open minute admits at most twice the limit less one for one address |
| `RateLimit.TheBoundIsReached` | crates/coordinator/src/server.rs:485-511 | for every limit there are an earlier call and a minute of calls of which the limiter admits exactly that many |
| `RateLimit.TheLargestLimitAdmitsEverything` | crates/coordinator/src/server.rs:508-509 | at the largest 32-bit limit the saturating counter admits every call |
| `Registry.Registry.Insert` | crates/coordinator/src/registry.rs:59-67 | the entry goes in without words of anybody else's, and exactly the entry it displaces is to be told; it displaces a newer connection if and only if the entry it found has the larger token, and is the newest so far if and only if no token that entered before is larger |
| `Registry.Registry.TellReplaced` | crates/coordinator/src/registry.rs:68-72 | the displaced connection finds a Close if its queue has room, and its channel closed either way |
| `Registry.Registry.SetHello` | crates/coordinator/src/registry.rs:87-93 | a stale update changes no entry |
| `Registry.Registry.SetHeartbeat` | crates/coordinator/src/registry.rs:95-101 | a stale heartbeat changes no entry |
| `Registry.Registry.Unregister` | crates/coordinator/src/registry.rs:77-85 | a stale unregister changes no entry |
| `Registry.Registry.ReadToTheEnd` | crates/coordinator/src/server.rs:444-456 | a connection that was replaced and told, or has left, reads to a Close if one is queued, or else to the closed channel, in at most one read more than is queued |
| `Registry.WordsKeep` | crates/coordinator/src/registry.rs:87-101 | an entry always shows the last hello and heartbeat of its own connection |
| `Registry.MatchingTarget` | crates/coordinator/src/registry.rs:156-168 | a target is found exactly when some target covers the repository with an enabled profile that takes the labels, and it is the first such |
| `Registry.Registry.WakeForJob` | crates/coordinator/src/registry.rs:122-150 | the count is exactly the number of connected hosts with a matching target and queue room; the queue of each is the old one and its wake, and nobody else gets anything |
| `Registry.EntryIsNewestExactlyWhen` | crates/coordinator/src/registry.rs:57-73 | in every state of every interleaving, the entry of a host is the last that entered, and is the newest of all that entered if and only if no earlier one has a larger token |
| `Registry.AlwaysNewestExactlyInOrder` | crates/coordinator/src/registry.rs:57-66 | over a whole history, a host always yields to its newer connection if and only if its connections enter in the order of their tokens |
| `Registry.SlowRegistrationWins` | crates/coordinator/src/registry.rs:57-73 | an interleaving in which a connection with a smaller token displaces one with a larger |
| `DeliveryLog.DeliveryLog.FirstTime` | crates/coordinator/src/webhook.rs:65-78 | true exactly when the id is not among the last `capacity` accepted; set and queue hold the same distinct ids, never more than that |
| `DeliveryLog.RepeatsAreFarApart` | crates/coordinator/src/webhook.rs:48-78 | over every sequence of calls, any `capacity` and one more accepted ids in a row are different |
| `DeliveryLog.EveryIdIsAccepted` | crates/coordinator/src/webhook.rs:66-77 | every delivered id was accepted, and nothing else was |
| `EnrollmentStore.Store.CreateInvite` | crates/coordinator/src/store.rs:152-182 | exactly when an invite is issued, and that a refusal changes nothing |
| `EnrollmentStore.Store.Enroll` | crates/coordinator/src/store.rs:186-245 | a code enrolls exactly when it is unspent, unexpired and its name is free; a refusal changes nothing; which invite made which host never changes |
| `EnrollmentStore.RevokedNameIsFree` | crates/coordinator/src/store.rs:310-318 | a name is taken exactly while a host that is not revoked holds it |
| `EnrollmentStore.HostsAreSpentInvites` | crates/coordinator/src/store.rs:217-243 | there are exactly as many host rows as spent invites |
| `EnrollmentStore.EnrollmentPairs` | crates/coordinator/src/store.rs:214-240 | an enrollment keeps invites and hosts paired one for one and active names unique |
| `EnrollmentStore.Store.FindForRevoke` | crates/coordinator/src/store.rs:277-287 | no such host, ambiguous or the one host meant; ambiguous if and only if the argument is one active host's id and another's name |
| `EnrollmentStore.AmbiguousOnlyByIdAndName` | crates/coordinator/src/store.rs:277-287 | with unique active names an argument names at most two hosts |
| `EnrollmentStore.Store.WriteRevoked` | crates/coordinator/src/store.rs:288-294 | the write half of a revocation keeps every invariant wherever it falls between other operations |
| `EnrollmentStore.Store.Touch` | crates/coordinator/src/store.rs:300-306 | a touch changes one timestamp and keeps every invariant |

## Left out

- Every call to GitHub, Podman, Docker, SQLite, the file system and the process table: they are parameters that answer truthfully or fail, or small durable state.
- Cryptography, JSON text, base64 and URLs: digests are functions, and only what the code reads of a JSON body is modelled.
- Backends other than one isolated provider, and the provider kind in an execution identity.
- The provider's `prepare` is one step: it creates at most one environment and may fail before or after doing so, but the agent does not crash inside it.
- The supervision of an isolated attempt inside `IsolatedLifecycle` is any legal edge at any time, which includes everything the real pass does; the real pass is in `Reconcile`.
- The text of a failure reason: only its kind is modelled.
- AttemptLives.ProducedRowLoadsExactlyWhen: does not model timestamps, the GitHub runner id or the text of an identity, which reading a row checks too; one field holds a native row's process id.
- IsolatedLifecycle.NoEnvironmentIsLost: isolated attempts have ephemeral workspaces there; an isolated attempt on a persistent slot is not modelled.
- Reconcile.ReplacementFollowsTheOutcome: asks that recovery never derives the outcome only the terminate mark can tell, which `DecisionsLeaveMarkAlone` proves of the decision the code uses.
- Reconcile.PassIsSafe: takes the answer that a native process is dead as right; when it can be wrong is what `NativeSpawn` decides.
- PackageCopy.ConfirmedCopyIsASnapshot: rests on the promise that every edit moves for good the change time of the entry or of a folder above it, and reads one entry in one instant; package seeds on another volume are not modelled, nor is the trust every tree is given where the host is not Unix.
- SlotDirectory.Disk.Verify: a stat that fails counts as absent, as in the code; names whose stat fails are a parameter. The published prefix of an encoded handoff is seen by the listing only.
- The case folding of `_work` and the reparse points of Windows, and removal that avoids opening FIFOs.
- DockerJournal.BuildIntent: does not model that a request refused for its binds or mounts already carries its labels; such a request is not forwarded.
- The proxy's recovery of unsettled intents, the report's detail list, and the size limit of a journal file.
- DockerSweep.RemovedIsDroppedNextTime: rests on the engine answering that a resource it deleted is not there, as ids are never given twice.
- Registry.Registry.Insert: does not model the 64-bit wrap-around of the token counter.
- Registry.MatchingTarget: takes how names and labels are compared as parameters.
- EnrollmentStore.Store.Enroll: does not model the shortening of the reported hostname.
- Cleanup backoff, diagnostics, dependency caches, runner environment files, the command line and the supervisor restart delay: they would only add easy members.
