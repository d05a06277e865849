# A verified model of the swarmgate reconciler

swarmgate keeps a Docker Swarm cluster in step with stack files in Git. Every
cycle fetches a commit, parses it into a desired state, takes a snapshot of the
cluster, diffs the two, plans ordered changes, passes them through a gate,
applies them one service at a time, waits for convergence and emits a
telemetry trace. This project models that logic in Dafny and proves what it
keeps over every input, every failure and every run.

`dafny verify dfyconfig.toml` checks the whole project.

## How the model is laid out

| module | what it models |
|---|---|
| `Basics`, `Ordering`, `Text` | nil against empty collections, string order and sorting, the string operations used |
| `Spec`, `Normal` | service specs and their normal form (`internal/spec/types.go`, `normal.go`) |
| `Engine`, `Swarm` | engine-side specs and the two mirror mappings (`internal/spec/swarm.go`) |
| `Diff`, `Converge` | the differ and the convergence check (`internal/diff`, `internal/observe/converged.go`) |
| `Mutation`, `Settle` | what an update makes of a live spec, and exactly which specs then satisfy the differ (`internal/apply/apply.go`) |
| `Apply`, `Store`, `Cluster` | the appliers' contract with its in-memory model, what the real one may do to the engine's store, and the real applier itself (`internal/apply`, `internal/observe/snapshot.go`) |
| `Plan`, `Trace`, `Reconcile`, `Loop` | plan, gate, what one cycle emits, what it does to the observed services, and the cycle itself (`internal/loop/loop.go`) |
| `Drift`, `DriftHistory` | drift attribution with hints arriving at any moment, and every interleaving of it with the event watcher (`internal/loop/drift.go`) |
| `Backoff`, `Run`, `Daemon` | retry delays, the outer loop as a state machine, and the outer loop over the real cycle (`internal/loop/backoff.go`, `loop.go`) |
| `Attribution` | the drifts that real cycles and runs report, as moves of that interleaving (`internal/loop/loop.go`, `drift.go`) |
| `Tail`, `Repair` | the incremental line splitter and the repair matcher over the trace (`internal/harness`) |
| `Source`, `Convert`, `Parse` | naming stacks, converting their services and merging them (`internal/source/git.go`, `internal/spec/parse.go`) |
| `Corners` | concrete inputs on which the code falls short of what it is meant to do |

Stateful parts keep the form they have in the source: `Cluster.Cluster`,
`Apply.FakeApplier`, `Drift.CycleState`, `Backoff.Backoff`, `Run.Runner`,
`Loop.Recorder` and `Parse.Merger` are classes whose methods are proved against
functions; loops carry the invariants that tie them to those functions; and the
lemmas are about the functions.

What those functions compute is also said without them, field by field and case by
case: the rules of the normal form (`Normal.CanonicalExactly`), what is submitted and
what is read (`Swarm.SubmittedCarries`, `Swarm.ReadBackExactly`), what is stored
(`Cluster.FilesStored`, `Cluster.NetworksStored`), what a file says and which are
accepted (`Parse.ServiceFromFile`, `Parse.AcceptedExactly`), what ends a wait
(`Converge.AwaitedExactly`), what a cycle returns and tells (`Trace.ResultExactly`,
`Trace.ClosingTells`) and what the outer loop does next (`Run.PreApplyIsRetried`,
`Run.OtherwiseAWakeIsNeeded`).

The claims meet in one place. `Loop.Cycle` runs the real applier on the cluster
and is proved to emit and return exactly what `Trace.CycleRun` says, while the
observed services move as `Reconcile.StepRun` says and the store behind them,
managed or not, as `Reconcile.StoreRun` says. `Daemon.RunLoop` iterates it as a
history of the state machine of `Run`, each cycle ending there with the result it
returned, and its log is the `Repair.LogOf` that the repair
matcher reads. `Attribution.RunIsHistory` turns such a run, with the hints that
came in during it, into one history of the machine in `DriftHistory`. So the
lemmas about traces, divergence, ownership, wakes, drifts and repairs all speak
of the same runs.

A failing collaborator is part of the input. `Loop.World` holds what the outside
world answers to one cycle, with `None` for a failed stage, and a change's
`budget` is the number of engine calls that succeed before one fails, so every
way an applier call can fail part-way is covered. `World.polls` is what the engine
shows while the cycle waits: a cycle converges exactly when some poll shows every
awaited service as `Converge` demands. `World.arrivals` holds the hints the event
watcher records during the cycle, before each drift and after the last one; what it
records between two cycles counts with the first of them.

## Where the code falls short of its own text

* `ToSwarm`'s comment promises that reading back undoes it for any normal-form
  spec. `Swarm.RoundTrip` gives the exact condition, and `Corners` an input for
  every way it fails: a config mode of 0444, any mode on a secret, replicas outside
  replicated mode (which the parse default of 1 always produces), an unknown mode,
  reserved deploy labels, `=` in a variable name, a placement without constraints,
  negative durations, and a network without a name to map back to.
  `Parse.ParsedObservableExactly` says which parsed services the observer can show at
  all and `Parse.ParsedSettlesExactly` which ones deploying settles, both in terms of
  the stack file. Only those leave the diff, in one undisturbed cycle
  (`Reconcile.OneCycleFixpoint`) or over any number of retries
  (`Daemon.RetryingEndsExactly`).
* On matching normal forms the convergence check is stricter than the differ in
  exactly two cases (`Converge.ClauseAExactly`). After an update, for every spec in
  normal form, its clause (a) holds exactly when the spec survives the round trip and
  desired sets deploy labels or the live service has none of the operator's
  (`Mutation.UpdateConvergesExactly`). So the differ is silent while every poll refuses
  exactly when a settling spec sets a reserved deploy label, or sets no deploy labels
  while the live service has one (`Settle.SilentButRefusedExactly`). Inputs are a blank
  `com.docker.stack.namespace` among the deploy labels, which is stored and never read
  back (`Corners.BlankReservedNotAccepted`), and an operator's own label, which survives
  every update (`Corners.ForeignLabelOutlastsUpdates`).
* `update`'s comment says that everything outside the model survives. It does if and
  only if the live spec holds nothing of the kind within the fields the update
  overwrites (`Mutation.UpdateFrame`): placement preferences, resource reservations
  and further limits, the other settings of `update_config`, of the healthcheck and of
  a replicated job, options of mounts, network attachments, ports and attached files,
  mode and owner of a mounted secret, and mounts that are neither volumes nor binds
  (`Corners.UpdateLosesTuning`). The comment's own
  examples, grace periods and placement, are in the model and are overwritten.
* An update that changes attachments along with something else is planned in place
  and refused. `Reconcile.PlannedAndRefusedExactly` says when: the service differs
  in something besides its attachments, and the live `source:target` keys are not
  the desired ones. The same pairs are never refused, and with no ':' in a source
  name nothing else is accepted (`Mutation.RefusalExactly`); a change of a config's
  mode alone is not refused (`Corners.ModeChangeIsAccepted`). `Corners.MixedUpdateExists` is one such update, and
  `Daemon.MixedUpdateNeverLands` shows that no run ever applies one.
* `cycleState` documents its commit as the last one reconciled; it is the last one
  polled. The two agree if and only if the last cycle to poll returned no error, or
  polled the commit already reconciled (`DriftHistory.LastCommitExactly`), and a reported
  drift concerns a reconciled commit under the same condition on the cycle before
  (`DriftHistory.DriftConcernsReconciledExactly`). `DriftHistory.DriftBeforeFirstDeployment`
  is a run that reports as drifted what was never deployed. With nobody else at work on
  the cluster every reported drift is of that kind (`Daemon.DriftIsUnfinished`).
* The gate's interface promises one verdict per change. A shorter list drops changes
  without counting as a rejection, and only a shorter one (`Plan.PassesWholeExactly`);
  nothing unverified ever gets through (`Plan.GateSafety`).
* `attachConfigsAndSecrets`' comment says that it never creates an object. It creates
  the referenced configs that are missing from the store and whose content came with
  the stack: all of them when the call succeeds, some of them at most when it fails, and
  nothing else either way (`Cluster.Cluster.AttachConfigsAndSecrets`;
  `Corners.CreatesConfig` is such a creation).
* `update`, unlike `create` and `remove`, does not look at the managed label. An update
  of somebody else's service goes through whenever its attachments stay the same and
  makes the service swarmgate's own, so that `remove` then deletes it: an accepted change
  keeps the services without the label if and only if it does not update one
  (`Store.TouchKeepsUnmanaged`; `Corners.TakesOver` takes such a service over and removes
  it). It takes the loop to keep them out of its reach (`Loop.CycleKeepsUnmanaged`).
* `create` promises to fail closed rather than create an unremovable orphan, but looks
  at the labels without the deploy labels that are merged over them. What passes its
  guard is stored as swarmgate's own if and only if the deploy labels do not set the
  managed label to something else (`Mutation.GuardedOwnershipExactly`); an update gives a
  service away in the same way (`Mutation.OwnershipExactly`). `Corners.CreatesAnOrphan`
  creates one that `remove` refuses, and no run ever settles a name held by such a
  service (`Daemon.UnmanagedNeverSettles`).

## Model

| member | source | states |
|---|---|---|
| Ordering.OrderedPermutationUnique | internal/spec/normal.go:126-155 | whatever ordered permutation an unstable sort picks, it is the same one once no two different elements tie |
| Ordering.SortUniqueMeaning | internal/spec/normal.go:97-99 | sorting and compacting yields a strictly increasing list of exactly the elements that went in |
| Ordering.SortedKeys | internal/diff/diff.go:149-151 | collecting the keys in any order and sorting gives the one increasing list of them |
| Ordering.LeMeaning | internal/spec/normal.go:191-214 | strings are compared as in a dictionary: a prefix comes first, otherwise the smaller character where they first differ |
| Text.CutOfJoin | internal/spec/swarm.go:38-41 | cutting at the first separator undoes joining when the left part holds no separator |
| Text.CutMeaning | internal/loop/loop.go:599-604 | the parts around the first separator rebuild the whole; without a separator the key is everything and the value empty |
| Normal.Normalize | internal/spec/normal.go:46-189 | the step-by-step normalisation computes the normal form, and its result obeys the rules of it |
| Normal.CanonicalExactly | internal/spec/normal.go:46-198 | a spec obeys the written-out rules (each default, what is sorted by what, what becomes nil, what is left alone) if and only if it is what normalisation may return for some choice of sorts |
| Normal.FormIsCanonical | internal/spec/normal.go:46-198 | the normal form obeys those rules: no condition means restart on any exit, no protocol tcp, no publish mode ingress, no mode replicated, no network the stack's default one |
| Normal.FileRefsSorted | internal/spec/normal.go:191-198 | file references come out ordered by target, none lost or gained, and nil only when there are none |
| Normal.CanonicalPorts | internal/spec/normal.go:109-128 | protocol and mode defaults are filled in, then ports are ordered by target, published port and protocol |
| Normal.NormalFormIdempotent | internal/spec/normal.go:42-189 | normalising twice is normalising once, and the result is in normal form for its own stack label |
| Normal.OrderInsensitive | internal/spec/normal.go:46-189 | reordering networks, ports, capabilities, ulimits, volumes, file references or constraints changes nothing once sort keys are distinct |
| Normal.NormalSetsIncreasing | internal/spec/normal.go:91-186 | networks, capabilities and constraints come out strictly increasing with the same elements |
| Normal.AnySortGivesNormalForm | internal/spec/normal.go:46-214 | with distinct sort keys the normal form is the only outcome of an unstable sort, and it is one |
| Normal.NormalFormTight | internal/spec/normal.go:50-198 | no collection of a normal form is empty without being nil |
| Swarm.EnvRoundTrip | internal/spec/swarm.go:33-43 | encoding an environment as KEY=VALUE and decoding it returns it if and only if no key holds a '=' |
| Swarm.FromSwarm | internal/spec/swarm.go:19-162 | the step-by-step reading of an engine spec computes the read-back function |
| Swarm.ReadBackExactly | internal/spec/swarm.go:19-162 | what is shown is the normal form, by its rules, of a spec whose fields are the engine's, one by one: first mode set, last value of a variable, volumes and binds only, labels split by their names |
| Swarm.ToSwarm | internal/spec/swarm.go:167-309 | the step-by-step writing computes the submitted spec, for any order of map iteration |
| Swarm.SubmittedCarries | internal/spec/swarm.go:167-309 | what is submitted holds every setting of the spec in the engine's field for it, entry by entry, and nothing else |
| Swarm.AttachByID | internal/apply/apply.go:417-423 | network targets become IDs where an ID is known, and nothing else changes |
| Swarm.EncodeEntries | internal/spec/swarm.go:182-191 | whatever order the map yields, the sorted entries are the same |
| Swarm.DecodeEntries | internal/spec/swarm.go:36-42 | entries are cut at the first '=' and later entries win |
| Swarm.ReadBackObservable | internal/spec/swarm.go:19-162 | everything read back is in normal form and satisfies the observability conditions, whatever is stored |
| Swarm.RoundTrip | internal/spec/swarm.go:164-309 | submitting a spec with network IDs and reading it back returns it if and only if it is in normal form, representable and its networks map back |
| Swarm.RoundTripAnySort | internal/spec/swarm.go:164-309 | the same round trip when the reader's sorts may return any ordered permutation |
| Swarm.InverseReturns | internal/apply/apply.go:417-423 | names that invert the IDs on the spec's networks bring them back |
| Diff.Compute | internal/diff/diff.go:45-64 | the three lists the differ builds are those of the classification |
| Diff.ComputeClassifies | internal/diff/diff.go:45-64 | every name is in exactly one of creates, updates, removes or unchanged, by presence and by matching, each list strictly sorted and carrying the right specs |
| Diff.NoChangedFields | internal/diff/diff.go:66-147 | no field is listed as changed if and only if the specs match, and a field is listed exactly when it differs |
| Diff.EmptyMeansNoDivergence | internal/diff/diff.go:38-40 | a diff is empty exactly when no name diverges |
| Diff.DiffCounted | internal/diff/diff.go:45-64 | a diff lists as many creates, updates and removes as services are missing, different and unwanted |
| Diff.MatchesNeedsObservable | internal/diff/diff.go:66-147 | only a spec observable outside its deploy labels can ever match something read back, so any other diverges on every cycle |
| Converge.ClauseAMatches | internal/observe/converged.go:143-151 | passing clause (a) implies that the differ finds no changed field |
| Converge.ClauseAExactly | internal/observe/converged.go:143-151 | on matching normal forms clause (a) fails in exactly two cases: every live deploy label pruned against none desired, or a desired label missing while its value is empty |
| Converge.PruneLabels | internal/observe/converged.go:143-148 | deletes exactly the deploy labels desired does not name; a map emptied that way stays a map |
| Converge.CheckTarget | internal/observe/converged.go:122-183 | a target passes exactly when its removal is complete, or its spec, update state and task count are as desired |
| Converge.CountRunningMeaning | internal/observe/converged.go:163-175 | the count is the number of tasks that are meant to run, do run and do so on the desired image |
| Converge.MetExactly | internal/observe/converged.go:122-183 | a service is met if and only if it reads back as desired, no update of it is in any state but completed, and exactly as many different tasks as desired are wanted and running on its image; a removal when it is known to be gone |
| Converge.PollTargets | internal/observe/converged.go:77-103 | exactly the unmet targets are pending, in order |
| Converge.UnmetExactly | internal/observe/converged.go:77-103 | the pending names are those of exactly the unmet targets, each once and in order |
| Converge.AwaitConverged | internal/observe/converged.go:33-73 | succeeds if and only if some poll finds every target met or there is none, and then at the first such poll |
| Converge.AwaitedExactly | internal/observe/converged.go:33-183 | a poll ends the wait if and only if it shows every created and updated service done in that sense, and every removed one gone |
| Converge.AwaitedNamesMatch | internal/observe/converged.go:33-183 | after a successful wait the differ has nothing to say about any awaited name |
| Converge.NonReplicatedConvergesOnlyIdle | internal/observe/converged.go:163-175 | outside replicated mode convergence means zero desired replicas and no running task |
| Mutation.CheckImmutableChange | internal/apply/apply.go:207-239 | passes exactly when both attachment key multisets are the live ones |
| Mutation.MergeLabels | internal/apply/apply.go:263-274 | whatever order the maps yield, foreign labels stay unless desired sets them and prefixed ones are desired's alone |
| Mutation.Overwrite | internal/apply/apply.go:140-193 | the field-by-field overwrite of the inspected spec computes the mutated spec |
| Mutation.UpdateReadsBack | internal/apply/apply.go:121-198 | an updated service reads back as desired but for deploy labels, which are desired's own plus the operator's |
| Mutation.UpdateSettles | internal/apply/apply.go:121-198 | after an update the differ finds nothing to change |
| Mutation.UpdateConvergesExactly | internal/observe/converged.go:143-151 | for every spec in normal form, clause (a) holds after an update if and only if the spec survives the round trip and desired sets deploy labels or the live service carried none of its own |
| Mutation.CreateConvergesExactly | internal/observe/converged.go:143-151 | after a create it holds if and only if the spec survives the round trip |
| Mutation.OwnershipExactly | internal/apply/apply.go:255-274 | what a create or an update stores carries the managed label as "true" if and only if the submitted labels, deploy labels last, do so; who owned the service before does not matter |
| Mutation.GuardedOwnershipExactly | internal/apply/apply.go:98-104 | what passes create's guard is stored as swarmgate's own if and only if no deploy label sets the managed label otherwise |
| Mutation.UpdateKeepsLabels | internal/apply/apply.go:255-274 | labels outside the prefix that desired does not set are kept, stale prefixed ones go, and desired's own are set |
| Mutation.UpdateFrame | internal/apply/apply.go:134-193 | everything outside the model survives if and only if the live spec holds nothing of it within the overwritten fields; what lies elsewhere is always kept |
| Mutation.UpdateEndpoint | internal/apply/apply.go:178-193 | the live endpoint keeps all but its ports, which become the desired ones; where there is none, one is made only to hold ports |
| Mutation.RefusalByKeys | internal/apply/apply.go:207-239 | for all names the check passes if and only if both multisets of "source:target" keys are the live ones |
| Mutation.RefusalExactly | internal/apply/apply.go:207-239 | the same (source, target) pairs always pass; with source names free of ':' the check passes if and only if both multisets of pairs are the live ones |
| Mutation.UpdateKeepsAttachments | internal/apply/apply.go:170-176 | with source names free of ':' an accepted update stores the live (source, target) pairs with their multiplicities |
| Mutation.ColonConfusesKeys | internal/apply/apply.go:232-239 | with ':' in a source name two different attachments share a key |
| Apply.FakeApplier.Apply | internal/apply/fake.go:34-51 | an injected failure changes nothing, otherwise the map gains or loses exactly the change's service; meets the appliers' contract |
| Apply.ApplierRefinesFake | internal/apply/fake.go:34-51 | any applier meeting the contract keeps showing the fake's map, whichever changes succeed, as long as what is created or updated settles |
| Settle.UpdateSettlesExactly | internal/apply/apply.go:121-198 | what an update stores is shown by the next snapshot as matching if and only if the spec settles and its networks map back |
| Settle.CreateSettlesExactly | internal/apply/apply.go:98-119 | the same for what a create stores |
| Settle.DeployableIsSettling | internal/spec/swarm.go:164-167 | every spec the engine gives back as submitted settles |
| Settle.SilentButRefusedExactly | internal/observe/converged.go:143-151 | after an update to a settling spec the differ is silent, and clause (a) refuses exactly when the spec sets a reserved deploy label, or sets none at all while the live service has one |
| Store.TouchKeepsUnmanaged | internal/apply/apply.go:276-290 | services without the managed label stay as they are if and only if the change is not an accepted update of one of them; such an update makes the service swarmgate's own |
| Cluster.Cluster.Snapshot | internal/observe/snapshot.go:16-35 | shows exactly the managed services, each read back under its own name |
| Cluster.Cluster.EnsureNetworks | internal/apply/apply.go:292-330 | every network of the spec gets the ID of an existing network when there is one and of a new one otherwise; only missing networks are created, the others are left alone, and no snapshot changes |
| Cluster.Cluster.AttachConfigsAndSecrets | internal/apply/apply.go:338-384 | every reference gets the ID of the store's object of its name; exactly the referenced configs missing from the store are created, with the stack's data; what is returned mounts each wanted file under its source and target by the ID of the store's object of that name; with calls to spare it fails only when an object is neither there nor supplied |
| Cluster.Cluster.Create | internal/apply/apply.go:98-119 | stores the prepared spec under a free name, every file and network of it by the ID of the store's object of the wanted name, or leaves the services alone; with calls to spare it succeeds exactly when managed, absent and its attachments exist |
| Cluster.Cluster.Update | internal/apply/apply.go:121-198 | stores the mutated live spec, every file and network of it by the ID of the store's object of the wanted name, or leaves the services alone; with calls to spare it succeeds exactly when present, with the live attachments, and these exist |
| Cluster.Cluster.Remove | internal/apply/apply.go:276-290 | deletes only a present service that carries the managed label |
| Cluster.Cluster.Apply | internal/apply/apply.go:85-96 | every action and every failure meets the appliers' contract on what a snapshot shows, exactly as far as specs settle, and touches the store only as it may: services without the managed label stay unless the change updates one; existing networks and configs are left alone, and new ones were asked for by the change |
| Cluster.ReadBackIgnoresNewNetwork | internal/apply/apply.go:298-330 | a network created under an unused ID changes no service's reading |
| Plan.Plan | internal/loop/loop.go:452-483 | the loops over the diff compute the ordered plan |
| Plan.PlanShape | internal/loop/loop.go:452-495 | a name appears once or as one adjacent remove/create pair; the plan covers exactly the diverging names, and without prune its only removals belong to such pairs |
| Plan.PlanOrdered | internal/loop/loop.go:452-483 | recreate pairs come first, removal before creation, then creations, updates in place and removals, each group by name |
| Plan.InPlaceExactly | internal/loop/loop.go:452-495 | an update is planned in place if and only if it changes more than attachments, and then it is its service's only change |
| Plan.Verify | internal/loop/loop.go:538-593 | the index bookkeeping computes the gated changes, and allPassed means that every verdict passed |
| Plan.GateIndexIsOwn | internal/loop/loop.go:538-593 | the verdict consulted for a create or update was given for that very change |
| Plan.GateSafety | internal/loop/loop.go:538-593 | survivors form a subsequence; a creation or update survives if and only if its own verdict passes, whatever became of the others and however short the list; plain removals stay; a recreate removal stays exactly with its creation |
| Plan.PassesWholeExactly | internal/loop/loop.go:538-593 | without a rejection the whole plan passes if and only if there is a verdict for every change that needs one |
| Plan.ShortVerdictsDropSilently | internal/loop/loop.go:538-593 | with too short a verdict list a change is dropped although every verdict passed |
| Plan.GatedWellPlanned | internal/loop/loop.go:538-593 | gating keeps recreate pairs whole and adjacent |
| Plan.ChangesToAwaitDiff | internal/loop/loop.go:502-517 | the loop computes the awaited diff |
| Plan.AwaitedFromPlan | internal/loop/loop.go:502-517 | exactly the planned creations and updates are awaited present and exactly the plain removals absent |
| Plan.AwaitIsConsistent | internal/loop/loop.go:502-517 | no service is awaited both present and absent |
| Drift.DriftKindForUpdate | internal/loop/drift.go:80-88 | finds the first reportable field |
| Drift.DriftKindPriority | internal/loop/drift.go:75-88 | of the fields that differ, image is reported before replicas before env, and nothing otherwise |
| Drift.CycleState.EmitDrift | internal/loop/drift.go:97-122 | one event for each drifted service in diff order, its origin decided by the hint there is once what arrived before it is recorded, and that hint consumed |
| Drift.DriftItemsDistinct | internal/loop/drift.go:97-111 | a diff yields at most one drift for each service |
| Drift.DriftItemsExactly | internal/loop/drift.go:75-111 | a service is reported as removed if and only if it is desired and missing, as unmanaged if and only if it is there and not desired, and by the first of image, replicas and environment that differs |
| Drift.DriftItemsInOrder | internal/loop/drift.go:97-111 | missing services are reported first, then modified ones, then unwanted ones, each by name |
| DriftHistory.InvariantHolds | internal/loop/drift.go:29-122 | under every interleaving the memory agrees with the history and every reported drift is justified by it |
| DriftHistory.EventDriftHasHint | internal/loop/drift.go:67-122 | an event-origin drift rests on an unconsumed hint for its service, newer than the previous cycle's start |
| DriftHistory.DriftNeedsUnchangedCommit | internal/loop/loop.go:273-276 | drift appears only when the last two polls saw the same commit |
| DriftHistory.LastCommitExactly | internal/loop/drift.go:11-39 | the remembered commit is the last one reconciled if and only if the last cycle to poll returned no error or polled that commit |
| DriftHistory.DriftConcernsReconciledExactly | internal/loop/loop.go:273-276 | a reported drift concerns the last commit reconciled if and only if the cycle that polled it before returned no error or polled a commit already reconciled |
| DriftHistory.DriftBeforeFirstDeployment | internal/loop/loop.go:273-286 | polling a commit, failing to parse it and polling it again reports drift though nothing was ever reconciled |
| DriftHistory.OncePerCycle | internal/loop/drift.go:97-122 | two drifts of one service have the start of a cycle between them |
| DriftHistory.EventDriftsBounded | internal/loop/drift.go:43-73 | event-origin drifts never outnumber the hints recorded, a pending hint counted as unspent |
| DriftHistory.EmitMoves | internal/loop/drift.go:97-122 | the atomic emit steps, with hints arriving between any two of them, report and consume what EmitDrift does |
| Attribution.TraceDrifts | internal/loop/loop.go:321-334 | a cycle's trace reports exactly the drifts of its diff, and none unless the commit is the one polled before |
| Attribution.DriftsTellExactly | internal/loop/loop.go:332-334 | a cycle's trace holds a drift of a service and kind if and only if the commit was polled before and the two sides show that kind |
| Attribution.CycleIsMoves | internal/loop/loop.go:253-445 | a cycle, with hints coming in at any moment, is a sequence of the machine's moves with the same drifts, the same hints and the same memory afterwards |
| Attribution.RunIsHistory | internal/loop/loop.go:204-237 | a whole run started afresh is one reachable history of the machine, whose drifts are those of the run's log |
| Attribution.RunDriftsBounded | internal/loop/drift.go:43-122 | in the log of such a run event-origin drifts for a service never outnumber the hints that came in for it |
| Trace.EveryChangeAccounted | internal/loop/loop.go:369-411 | applied, pending and skipped add up to the gated changes, one event each |
| Trace.EventTellsFate | internal/loop/loop.go:373-411 | the i-th apply event names the i-th change and says whether it was skipped, failed or applied |
| Trace.RecreateSafety | internal/loop/loop.go:372-391 | a recreate creation is submitted exactly when the change right before it, its own removal, was submitted and succeeded |
| Trace.SkippedExactly | internal/loop/loop.go:369-411 | a change is held back if and only if it is a recreate creation whose own removal failed; no other failure blocks it |
| Trace.ResultExactly | internal/loop/loop.go:253-445 | a cycle returns a pre-apply error if and only if a stage failed, an abort if and only if a reject aborts it, both applying nothing; a partial failure if and only if a submitted change failed; an unconverged one if and only if all succeeded and the wait did not settle; and no error in exactly the other cases |
| Trace.GatedExactly | internal/loop/loop.go:339-367 | all of the plan that passes reaches the applier, unless a stage fails or the gate aborts, and then none of it |
| Trace.ClosingTells | internal/loop/loop.go:412-443 | the last event names the failed stage, or the abort, or lists in order what was applied and what is pending, or counts the services converged on this commit |
| Trace.VerdictsTold | internal/loop/loop.go:538-569 | every verdict is told, in order, whatever becomes of the cycle |
| Trace.ResolvedExactly | internal/loop/loop.go:279-306 | every service is told once, in name order, with the image it was written with and the digest of the one it was pinned to |
| Trace.PinnedExactly | internal/loop/loop.go:285-298 | resolving changes the images of the pinned services, and nothing else |
| Trace.DifferedExactly | internal/loop/loop.go:308-325 | the diff event counts the missing, the different and the unwanted services |
| Trace.GatedCarries | internal/loop/loop.go:335-340 | every creation and update brings along the configs of all stacks, and no removal does |
| Trace.NothingPending | internal/loop/loop.go:412-423 | nothing is pending exactly when every submitted change succeeded, and then nothing was skipped |
| Trace.TraceGrammar | internal/loop/loop.go:253-445 | stages never go back; converged comes at most once, last, exactly when the gated list is nonempty, every submitted change succeeded and some poll met every awaited target; an abort-cycle reject applies nothing |
| Trace.ApplyNamesChange | internal/loop/loop.go:373-411 | every apply event names the service of a gated change |
| Reconcile.DivergenceNeverGrows | internal/loop/loop.go:319-411 | for any verdicts, failures and prune setting, a name that diverges after a cycle diverged before it |
| Reconcile.GatedInOrder | internal/loop/loop.go:339-383 | whatever the gate drops, pairs, creations, updates and removals reach the applier in that order |
| Reconcile.AppliedNamesSettle | internal/loop/loop.go:373-411 | a name whose final change succeeded has left the diff if and only if that was a removal or its spec settles |
| Reconcile.FailedRemovalKeepsService | internal/loop/loop.go:375-391 | a failed recreate removal suppresses the creation and leaves the service as it was |
| Reconcile.HalfDoneRecreate | internal/loop/loop.go:373-411 | a recreate that removed but did not create leaves its service desired and absent, so it moves from updates to creates |
| Reconcile.LeavesDiffExactly | internal/loop/loop.go:319-411 | whatever is rejected or fails, a diverging name leaves the diff in a cycle if and only if its final change went through and was a removal or brought a spec that settles |
| Reconcile.OneCycleFixpoint | internal/loop/loop.go:319-411 | with prune on, all verdicts passing and all changes succeeding, the next diff is empty if and only if every desired service that diverged settles |
| Reconcile.UndisturbedName | internal/loop/loop.go:319-411 | after such a cycle a name diverges exactly when it is desired, diverged before and does not settle |
| Reconcile.PlannedAndRefusedExactly | internal/loop/loop.go:452-495 | a planned update is one the applier refuses if and only if the service differs in more than attachments and the live "source:target" keys are not the desired ones |
| Reconcile.MixedUpdateRefused | internal/loop/loop.go:373-411 | whatever else happens in a cycle, a service with such an update stays as it was and goes on diverging |
| Reconcile.RunKeepsUnmanaged | internal/apply/apply.go:281-286 | as long as no update names one, services without the managed label stay as they are through the apply loop |
| Reconcile.DivergenceOnlyShrinks | internal/loop/loop.go:319-411 | over any number of cycles towards fixed desired services the diverging names only shrink |
| Loop.ApplyAll | internal/loop/loop.go:369-411 | the apply loop on the real cluster keeps applied, pending, skipped and the trace as specified; the observed services and the store step change by change, services without the managed label stay unless a change updates one, and networks and configs only grow by what the changes ask for |
| Loop.Cycle | internal/loop/loop.go:253-445 | the whole cycle emits and returns what the trace function says, waits on the polls for what it applied, moves observed services and store as the step relations say, updates the drift memory with hints arriving while it runs, leaves services without the managed label and existing networks and configs alone, and if undisturbed leaves an empty diff exactly when what diverged settles |
| Loop.CycleKeepsUnmanaged | internal/apply/apply.go:281-286 | no cycle touches a service without the managed label |
| Loop.ConvergedMeansDesired | internal/loop/loop.go:425-443 | announcing convergence means that one poll found every service the cycle changed as desired, or gone if not desired |
| Loop.DriftNamesDivergence | internal/loop/loop.go:332-334 | a drift is reported only for a name found diverging on the commit polled before |
| Loop.CycleNeverAddsDivergence | internal/loop/loop.go:253-445 | no cycle, however it ends, makes a name diverge |
| Loop.UndisturbedCycleLeavesNothing | internal/loop/loop.go:253-445 | an undisturbed cycle from any cluster leaves an empty diff if and only if every desired service that diverged settles |
| Backoff.DelayBounded | internal/loop/backoff.go:36-55 | every delay lies between 0.8 s and 60 s and the shift stays within 64 bits |
| Backoff.DelayExactly | internal/loop/backoff.go:36-55 | the delay is one second doubled with each failure up to 60 s, times 0.8 plus 0.4 of the draw, and never more than 60 s |
| Backoff.DelayIncreases | internal/loop/backoff.go:36-55 | up to level 6 each failing delay exceeds the one before, whatever the jitter |
| Backoff.Backoff.Next | internal/loop/backoff.go:36-55 | returns the delay for the current attempt and advances it, saturating at seven |
| Backoff.ResetShortens | internal/loop/backoff.go:57-61 | after a reset the next delay is shorter than any that an earlier failure could have led to |
| Run.Runner.Request | internal/loop/loop.go:190-195 | a request fills the slot or coalesces with the one in it |
| Run.Runner.FinishCycle | internal/loop/loop.go:214-231 | success resets the backoff, a cancelled failure stops, a pre-apply failure backs off, any other failure waits for a wake |
| Run.InvariantHolds | internal/loop/loop.go:204-237 | in every reachable state: cycles started are one plus receives plus retries; receives never exceed requests; a wake requested since the last receive has the slot full; the attempt counter is min(7, pre-apply failures since the last clean cycle); delays are in range |
| Run.NoWakeLost | internal/loop/loop.go:190-237 | short of cancellation, until a requested wake is received the loop is never stuck, and any two moves of its own start a new cycle |
| Run.PreApplyIsRetried | internal/loop/loop.go:204-231 | short of cancellation, after a pre-apply failure and whatever wakes are requested, the loop's one move is the end of a delay between 0.8 s and 60 s, and it starts a cycle |
| Run.OtherwiseAWakeIsNeeded | internal/loop/loop.go:204-237 | after any other end of a cycle the loop moves if and only if a wake was pending or is requested since, that wake starts a cycle, and only success touches the attempt counter |
| Run.CancelledFailureStops | internal/loop/loop.go:216-218 | once cancelled, a cycle that ends in an error is the last |
| Run.HistoryCounts | internal/loop/loop.go:204-237 | over a whole history the attempt counter is the pre-apply failures since the last success, up to seven, and the cycles started are one plus the wakes received and the delays elapsed |
| Daemon.RunLoop | internal/loop/loop.go:204-237 | the outer loop over the real cycle logs exactly its cycles' traces in order, makes a history of the state machine in which the cycles end with the results they returned, ends only out of turns, cancelled or without a wake, hands the drift memory from each to the next, and leaves services without the managed label, existing networks and existing configs as they are |
| Daemon.RunGrowsObjects | internal/apply/apply.go:292-384 | over any run existing networks stay at the front of the list and existing configs unchanged; each new network or config was asked for by a change that passed the gate, and each new config holds the data that came with it |
| Daemon.RunKeepsOthers | internal/apply/apply.go:281-286 | services without the managed label survive any run unchanged |
| Daemon.FailedStageIsRetried | internal/loop/loop.go:196-231 | a cycle in which a stage fails leaves the cluster as it was, and the loop starts the next one by itself within 60 s |
| Daemon.MixedUpdateNeverLands | internal/loop/loop.go:204-237 | towards fixed desired services a mixed update is refused on every cycle of every run: the service stays exactly as it was and goes on diverging |
| Daemon.DriftIsUnfinished | internal/loop/loop.go:273-334 | with nobody else at work and desired services fixed, every reported drift names a service that has diverged since the start |
| Daemon.RunOnlyConverges | internal/loop/loop.go:204-237 | over a whole run towards fixed desired services no name that agrees ever starts to diverge |
| Daemon.RunLeavesExactly | internal/loop/loop.go:204-237 | towards fixed desired services a name that diverged at the start is out of the diff at any later point if and only if some cycle before has settled it, and it never comes back |
| Daemon.RetryingEndsExactly | internal/loop/loop.go:204-237 | at any point of such a run the diff is empty if and only if every name that diverged at the start has been settled by some cycle before |
| Daemon.UnmanagedNeverSettles | internal/apply/apply.go:98-104 | a desired name held by a service without the managed label diverges throughout any run, and that service stays as it is |
| Tail.Drain | internal/harness/jsonl.go:49-70 | sends the events of the carry's complete lines in order and keeps the rest, stopping when the receiver has gone |
| Tail.TailChunks | internal/harness/jsonl.go:42-76 | however the bytes are cut into reads, the events are those of the complete lines of the whole, and the carry is its unfinished last line |
| Tail.LinesRebuild | internal/harness/jsonl.go:49-55 | lines and carry put together are the input, none of them holding a newline |
| Tail.LinesUnique | internal/harness/jsonl.go:49-55 | there is only one such split |
| Tail.LinesIncremental | internal/harness/jsonl.go:48-55 | splitting more data needs only the carry of what came before |
| Tail.TrimSpaceMeaning | internal/harness/jsonl.go:54-54 | only white space is cut away, and none is left at either end |
| Tail.WrittenEventsReturn | internal/harness/jsonl.go:42-76 | events written one to a line come back unchanged and in order, with a partly written line kept as the carry |
| Tail.EachLineAlone | internal/harness/jsonl.go:53-66 | a line counts for itself alone: blank ones and ones that do not decode are passed over, any other gives its event in its place |
| Repair.AwaitRepair | internal/harness/drift.go:105-123 | returns the first converged event whose run is the one that applied to the target last, or none if there is none |
| Repair.LogInTurn | internal/loop/loop.go:253-445 | the log of sequential cycles with run IDs of their own keeps runs contiguous, in stage order, with converged only after clean applies |
| Repair.RepairMatching | internal/harness/drift.go:98-123 | on any stretch of such a log the matcher takes exactly the converged events of cycles that applied to the target within it; every change of such a cycle succeeded, and some poll of its wait found the target as desired |
| Repair.DriftSetEnv | internal/harness/drift.go:76-88 | replaces the first entry for the key or appends one |
| Repair.SetEnvTakesEffect | internal/harness/drift.go:73-88 | no other variable changes, and the variable gets its value if and only if no later entry for it hides it |
| Source.ExtMeaning | internal/source/git.go:233-237 | a name splits into a stack name and what follows from its last dot |
| Source.StackFileExactly | internal/source/git.go:229-237 | exactly the files named after a stack with .yml or .yaml are stack files, and the stack is named by what comes before |
| Source.StackFiles | internal/source/git.go:208-275 | fails exactly when two stack files share a stack name or one cannot be read; otherwise the files come strictly ordered by distinct names |
| Source.CommitLosesNoService | internal/source/git.go:223-275 | a commit that parses yields as many services as its files declare |
| Convert.ServicePorts | internal/spec/parse.go:854-878 | fails exactly when a published port is not a 32-bit number; otherwise converts every port in order |
| Convert.PublishedExactly | internal/spec/parse.go:861-868 | every 32-bit number written in decimal is understood as itself, and no larger one is |
| Convert.PublishedAccepted | internal/spec/parse.go:861-868 | a published port is accepted if and only if it is empty or made of digits and below the 32-bit bound |
| Convert.PartsConverted | internal/spec/parse.go:713-906 | ports, ulimits and the healthcheck keep what they state, each setting in its own place, and get the default for what they omit |
| Convert.ServiceVolumes | internal/spec/parse.go:674-711 | fails exactly on a volume that is neither a plain named volume nor an allowed bind mount; otherwise converts every one in order |
| Parse.ConvertService | internal/spec/parse.go:490-567 | a service is accepted exactly when every conversion succeeds and its normal form is within the limits, and yields that normal form |
| Parse.ServiceFromFile | internal/spec/parse.go:490-567 | an accepted service is the normal form, by its rules, of the parts the file states, each in its place |
| Parse.AcceptedExactly | internal/spec/parse.go:490-606 | a service is accepted if and only if what the file states of it is convertible and within the limits, counted on the file |
| Parse.AloneExactly | internal/spec/parse.go:158-203 | a file parses alone if and only if it resolves, uses allowed fields only, prepares and loads, and all its services are acceptable as written |
| Parse.ConfigRefs | internal/spec/parse.go:652-672 | fails exactly on an undeclared source; otherwise targets are defaulted and file-backed configs renamed |
| Parse.Merger.ParseStack | internal/spec/parse.go:476-572 | adds exactly the stack's services and ownership, in any map order, or fails because a service is not accepted or its name belongs to another stack |
| Parse.Merger.AddConfigs | internal/spec/parse.go:198-203 | adds the stack's configs, or fails exactly on differing content under one name |
| Parse.ParseFiles | internal/spec/parse.go:158-208 | succeeds exactly when every file parses alone, configs agree pairwise and no two stacks clash, and then returns the merge |
| Parse.DisjointUnion | internal/spec/parse.go:182-208 | with distinct stack names every service survives as its stack wrote it, under its qualified name and stack label, and belongs to that stack only |
| Parse.NoServiceLost | internal/spec/parse.go:182-208 | with distinct stack names as many services come out as were declared |
| Parse.OrderOfFilesIrrelevant | internal/spec/parse.go:190-207 | the order of the files changes neither success nor result |
| Parse.FailsIffCollision | internal/spec/parse.go:531-534 | stacks that parse alone and agree fail together if and only if services of two of them share a qualified name |
| Parse.DuplicateNamesOverwrite | internal/spec/parse.go:531-535 | a second file of the same stack name silently replaces what both declare |
| Parse.QualifiedNamesCollide | internal/spec/parse.go:182-189 | payments/db_writer and payments_db/writer qualify to one name |
| Parse.MergedKeyed | internal/spec/parse.go:569-569 | every merged service is stored under its own name |
| Parse.ParsedObservableExactly | internal/spec/parse.go:476-572 | a parsed service can be read back from the engine if and only if its file follows four checkable rules |
| Parse.ParsedSettlesExactly | internal/spec/parse.go:476-572 | deploying a parsed service settles it if and only if its file follows five checkable rules |
| Corners.PlainIsDeployable | internal/spec/swarm.go:164-167 | an ordinary replicated service meets the round trip's conditions |
| Corners.DefaultModeDoesNotReturn | internal/spec/swarm.go:75-82 | a config with mode 0444 does not read back |
| Corners.GlobalReplicasDoNotReturn | internal/spec/swarm.go:24-28 | a global service with the default replica count does not read back |
| Corners.ReservedDeployLabelsDoNotReturn | internal/spec/swarm.go:131-139 | a deploy label with a reserved name does not read back |
| Corners.EqualsInNameDoesNotReturn | internal/spec/swarm.go:36-42 | a variable name with '=' does not read back |
| Corners.EmptyPlacementDoesNotReturn | internal/spec/swarm.go:121-123 | a placement without constraints does not read back |
| Corners.UnknownModeDoesNotReturn | internal/spec/swarm.go:245-257 | a mode the engine does not know does not read back |
| Corners.SecretModeDoesNotReturn | internal/spec/swarm.go:84-92 | a mode on a secret does not read back |
| Corners.NegativeDurationsDoNotReturn | internal/spec/swarm.go:164-309 | negative grace periods, delays and windows do not read back |
| Corners.UnnamedNetworkDoesNotReturn | internal/spec/swarm.go:141-147 | a network whose ID has no name reads back as the ID |
| Corners.ForeignLabelNotAccepted | internal/observe/converged.go:143-151 | normal forms that differ by an operator's label alone match, yet no poll accepts the one for the other |
| Corners.ForeignLabelOutlastsUpdates | internal/observe/converged.go:143-151 | an update of a service without deploy labels keeps the operator's label, and with it the refusal of every poll |
| Corners.EmptyLabelNotAccepted | internal/diff/diff.go:140-147 | normal forms that differ by a missing deploy label with an empty value match, yet no poll accepts the one for the other |
| Corners.BlankReservedNotAccepted | internal/observe/converged.go:143-151 | with a blank stack namespace among the deploy labels the differ is silent after every update, and no poll ever accepts the service |
| Corners.AdoptsAndRemoves | internal/apply/apply.go:121-290 | an update goes through whoever owns the service, provided its attachments stay the same, and a removal then takes the service away |
| Corners.TakesOver | internal/apply/apply.go:121-290 | a cluster that held one service of somebody else's holds none after such an update and removal |
| Corners.CreatesAnOrphan | internal/apply/apply.go:98-119 | with the managed label set to "no" among the deploy labels a creation passes the guard, and the removal refuses what it stored |
| Corners.CreatesConfig | internal/apply/apply.go:338-384 | creating a service with a config the store lacks adds exactly that config, with the stack's data |
| Corners.PortModesTie | internal/spec/normal.go:200-214 | ports that differ only in mode may be sorted either way |
| Corners.UpdateLosesTuning | internal/apply/apply.go:134-193 | updating a service with a placement preference and a tmpfs mount loses both, whatever is desired |
| Corners.MixedUpdateExists | internal/apply/apply.go:207-239 | a new image along with a first config, on a plain running service, is such an update |
| Corners.ModeChangeIsAccepted | internal/apply/apply.go:232-239 | a change of config modes alone is never refused |

## Left out

- Git, registry, Docker and ssh transport, the compose loader, YAML decoding and signature verification: each is an arbitrary result in the input.
- The gate's own decision: only its interface is used, a list of verdicts that may have any length.
- Timeouts, contexts and panics: a timeout is a failed stage, and a recovered panic, which reports a pre-apply failure after changes may have been applied, is not modelled.
- Durations and timestamps in telemetry events, log lines, error texts, and the warning about dropped events; hint times are integers.
- Run IDs: the model takes them as given; the repair matcher's guarantee assumes they are distinct and nonempty.
- The engine rewriting submitted specs: the store returns what was submitted, as the code itself assumes.
- Changes made by others while a cycle or a run is going on: Cluster methods run alone, though every cycle may start from any cluster, and what a wait polls is arbitrary.
- The engine's substring filter when networks are listed by name: the exact-name search behind it is modelled.
- Driver and labels of a created network: a network is its ID and its name.
- Waiting for a created network to become visible: it counts as one engine call that may fail.
- Integer widths of ports, replicas and byte sizes: unbounded here; the sums and products in the modelled code are not where they matter.
- Jitter in floating point: computed over the reals.
- String case folding and white space beyond ASCII, and strings that are not valid UTF-8.
- The order slices.SortFunc leaves ties in: Normal.Normalize uses a stable sort, and Normal.AnySortGivesNormalForm and Swarm.RoundTripAnySort cover every other choice when sort keys are distinct.
- Bind-mount and env_file paths: what the allowlists make of a bind source, and whether env_file resolution succeeds, are part of the input; so is whether a file passes the allowlist of compose fields.
- The payload rewriting inside prepareStackConfigs and the reading of auxiliary files: the prepared configs are part of the input.
- File truncation and rotation under Tail, and its polling interval.
- Configuration loading, the command line, the status table, CSV output and the other harness scenarios.
- Parse.ParsedObservableExactly: is about what the observer can show at all; which services deploying settles is Parse.ParsedSettlesExactly.
- Apply.FakeApplier.Apply: injected errors are a set of names rather than error values.
