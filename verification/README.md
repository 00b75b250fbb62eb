# Verification of cloud-secrets

cloud-secrets copies secrets from an external storage (Cloud.ru Secret Manager or HashiCorp Vault) into Docker Swarm
and keeps the services of the cluster on the current versions. A Docker secret cannot be changed, so an update goes
through a temporary *version* secret: the services are moved to it, the old group is removed, and the *parent* secret
is created again under its own name; the next synchronisation moves the services back to the parent and removes the
version. Any request can fail on the way, and the next synchronisation has to make sense of what is left.

This project models that protocol and four smaller parts of the program, and proves what they promise.

| part | files |
|---|---|
| Docker Swarm, its requests and their failures | `Docker.dfy` |
| Grouping of Swarm secrets | `Engine.dfy`, `Grouping.dfy` |
| Names of secrets, the external storage | `SecretName.dfy`, `ExternalStorage.dfy` |
| One synchronisation as a relation between states | `Rotation.dfy`, `Rollout.dfy`, `Stages.dfy` |
| One synchronisation as the code performs it | `Payload.dfy`, `ProcessSecrets.dfy` with `Planning.dfy` (step 3), `ApplyUpdates.dfy` (step 4), `RemoveVersions.dfy` (steps 5 and 7), `RestoreSecrets.dfy` (step 6), `Synchronizer.dfy` (the pipeline) |
| Completed synchronisations, and chains of them | `Stability.dfy`, `Currency.dfy`, `Confluence.dfy` |
| Whole histories, with failures and changing snapshots | `History.dfy`, `Operation.dfy` |
| External paths that share a name; states in which expectations fail | `Collisions.dfy`, `Witnesses.dfy` |
| Check-and-set writes to Vault | `VaultCas.dfy` (one caller), `VaultCreators.dfy` (all callers) |
| Listing and naming of Vault secrets | `VaultPaths.dfy`, `VaultListing.dfy`, `VaultTree.dfy`, `VaultMount.dfy` |
| Cloud.ru paths below a root folder | `CloudRu.dfy` |
| Schedule and lock of the application | `Scheduler.dfy` (one goroutine), `SyncLock.dfy` (all callers) |
| Shared helpers | `Wrappers.dfy`, `Strings.dfy` |

`dafny verify dfyconfig.toml` checks everything. Methods fold the predicates that they only pass on (`hide *`) and
leave the reasoning about values to lemmas.

## How a synchronisation is modelled

* `Docker.World` is the state of Swarm: secrets with their labels and update times, services with their references.
  `Docker.Swarm` is the client: each request may fail without an effect, and every request is written to `journal`,
  a removal together with whether the secret was in use when it was asked for. Docker never refuses to remove a
  secret for being in use; that nobody asks for it is proved.
* `want` is the external snapshot by Docker name. `run` says what a synchronisation did at each wanted path:
  `Created`, `Kept` or `Rotated`. The methods carry both as ghosts.
* `Planning.Processed` is what step 3 does for one external secret, as a function of the work so far; the code of
  step 3 is proved to do exactly that, whether or not the path was met before in the same run.
* `Stages.SyncPost(w, want, run, restored, cleanup, w')` is what a completed synchronisation makes of a state, and
  `Stages.Grown(w, want, w')` what any synchronisation does, whatever fails: nothing old is changed, and each new secret
  is exactly the parent or the version that the snapshot makes of its path, payload included.
* A synchronisation may start from any state that Docker can be in (`Rotation.WellFormed`), whatever its secrets are
  called. `Rotation.NamesFree(w, want)` says that the names which it needs are free and different, and decides whether
  anything but a failing request can stop it.
* A history (`History.Attempts`) is any sequence of synchronisations. Each has its own snapshot and draws its own UUIDs,
  and any of them may fail anywhere. That each of them finds a state it can start from is proved without any hypothesis
  on names (`History.WellFormedAlways`), and that each finds its names free from hypotheses on the snapshots and on the
  state at the beginning only (`History.ReadyAlways`).

### Hypotheses

* Docker: ids and names are unique, references resolve and agree in id and name, secrets of one group have different
  update times, later secrets get later times (`WellFormed`). Every service has a container spec.
* Names in one snapshot: no two external paths get the same Docker name (`Describes`). `SecretName.CollisionExact` says
  when they do, and `Collisions.RemovesInUseExact` what happens then.
* Names over time (`History.Hypotheses`), only where it is claimed that nothing but a failing request stops a run: a
  version name is never a wanted path, and never that of two paths; a UUID that was drawn for a name is not met in
  another run; a version id that was superseded does not come back. At the beginning a secret named like a wanted path
  belongs to it, and a taken version name stands for that version of its own group, not superseded. That names are
  composed where they fit follows from the listing (`History.DescribesNamed`). `Witnesses.HypothesesCanHold` gives a
  state and snapshots that meet all this, and `Operation.BlockedFails` says what happens without it.
* The provider lists each path with a payload, and neither Swarm nor the provider is changed by anyone else during a
  synchronisation; between two of them the provider may change. Where payloads are concerned: one path and version id
  always stands for one payload (`Currency.WantBy`, `Currency.PayloadsBy`).
* gopipe: steps run in order, a step whose `When` is false is skipped, a failing step runs again up to `Retries` more
  times, and the first step that fails for good ends the run unless it has `ContinueOnError`; whether an error of such
  a step is reported is left open.
* Vault: between a read and the write that follows it, a version number of a document stands for one content. Excluded
  are therefore writers that remove its metadata (`DeleteSecret` does) and that soft-delete, restore or destroy a
  version. A failed request had no effect.
* Scheduler: the refresh interval is positive, the clock is monotone, and the time since the first scheduled time plus
  one interval stays below 2^63 nanoseconds.

### What does not hold

Five things that one might expect are false of the code. Each has a lemma that shows it, and the exact condition
under which the expectation is met.

* *Every successful synchronisation leaves services on the wanted version.* After a run that stopped between the
  rollout and the parent's re-creation, the next successful run takes the same-version branch and moves the services
  back to the old parent (`Witnesses.SuccessCanGoBack`). `Currency.CurrencyExact` gives the condition, and
  `History.CleanForever` shows that it holds forever when it holds once.
* *A synchronisation gets through when no request fails.* It does if and only if the names of the secrets that it has to
  create are free and different (`Synchronizer.Sync` with `Rotation.NamesFree`). A version of one path can be called
  like another path, as with the Vault keys "db" and "db-2" at version 2 of their document
  (`Witnesses.KeyNamedLikeVersion`), and a version that comes back finds what its first attempt left
  (`Witnesses.VersionComesBack`). Then every later run fails as well while that version is wanted
  (`Operation.BlockedFails`), but none of them does harm: all that is promised of failing runs holds for these.
* *Every group settles.* A group without any managed label whose newest version is the wanted one, under an older
  parent, never does (`Witnesses.UnmanagedStaysStuck`); `Stability.ThreeRunsSettle` shows that these are the only ones.
* *Every Cloud.ru path that was scoped resolves to where it came from.* It does if and only if the scoped path is not
  ambiguous (`CloudRu.ResolveScopeExact`); a folder below one of its own name and a doubled slash are the exceptions
  (`CloudRu.RoundTripFails`).
* *A removal is never asked for while the secret is in use, whatever the external paths are called.* With paths that
  share a Docker name it is, if and only if one of them has another version than Swarm holds, the one that is processed
  last has that version, and some service refers to the group elsewhere than at its parent
  (`Collisions.RemovesInUseExact`); `Witnesses.CollidingPathsRemoveInUse` gives a listing, a state and both orders. Paths
  that share a name no group has yet make every run fail (`Collisions.MissingCollisionBlocked`).

`VaultCas.ReuseExact` shows the need of the hypothesis on Vault versions in the same way.

## Model

| member | source | states |
|---|---|---|
| Synchronizer.Sync | internal/sync/synchronizer.go:53-135 | from any state that Docker can be in, whatever the secrets are called and whatever request fails: no removal of a secret in use was asked for, nothing old was changed, every new secret is exactly what the snapshot makes of its path, and Docker can be in the state left behind; the returned error names the step that ended the run, and the step ended it for its own reason (`Explains`): the first load failed, a listing failed four times, a creation failed or names were not free and different, the fourth update of a service failed, a removal or a creation failed, the reload failed four times; a success without a cleanup comes from a failed removal only; when only the cleanup fails, everything else is done and a part of the orphans may be gone; a run without such a failure ends in `SyncPost` with the right counters; in every case the reported counters fit the number of Docker secrets that came and went, and are zero when step 6 failed; while the needed names are not free and different no run gets through, and they stay so; a quiet state is left without a write |
| Synchronizer.RunSteps | internal/sync/synchronizer.go:78-119 | steps 1 to 6 with their guards and retries: on success the composition of creations, rollout, removals and restores; on a failure the step that failed, its reason, and counters as far as the run came |
| Synchronizer.LoadSwarmState | internal/sync/step1_load_swarm_state.go:11-28 | services and groups show exactly the state of Swarm |
| Synchronizer.LoadWithRetries | internal/sync/synchronizer.go:120-127 | the reload is tried again up to three times: it fails after exactly four failed loads, and succeeds after at most three |
| Synchronizer.LoadExternalState | internal/sync/synchronizer.go:83-88 | the snapshot is the provider's listing after at most three failed requests, or four of them failed |
| Stages.AssembleRun | internal/sync/synchronizer.go:78-134 | the effects of steps 3, 4, 5, 6 and 7 add up to `SyncPost` |
| Stability.ThreeRunsSettle | internal/sync/step3_process_secrets.go:32-135 | from any well-formed state, for a fixed external snapshot, a wanted path is settled after three or more completed runs if and only if it did not start as an unmanaged group with a stale parent under the wanted version |
| Stability.RankDrops | internal/sync/step3_process_secrets.go:44-63 | every completed run brings a path one step nearer to the settled state unless it is stuck; stuck paths stay stuck |
| Stability.TwoRunsNotEnough | internal/sync/step3_process_secrets.go:44-61 | the bound of three runs is tight |
| History.WellFormedAlways | internal/sync/synchronizer.go:53-134 | fault closure: over any history, with a different snapshot and newly drawn UUIDs in every run, failures anywhere and names of any kind, each run finds a state that Docker can be in; every reference resolves in all of them |
| History.ReadyAlways | internal/secretname/generate.go:11-22 | over any such history whose names do not get in each other's way, each run finds the names free that it needs |
| Stages.StagedNamesFree | internal/sync/step3_process_secrets.go:66-108 | step 3 gets through all paths only if the names that the run needs were free and different |
| Stages.StagedClashes | internal/sync/step3_process_secrets.go:66-108 | however far step 3 came, a path whose name was taken still cannot get it, and names that were not free and different are not afterwards |
| Stages.GrownReady | internal/sync/step3_process_secrets.go:66-108 | whatever a run adds for a snapshot leaves the names of that snapshot free, or taken for the same version: it can be tried again |
| History.HistoryKeeps | internal/sync/step3_process_secrets.go:66-135 | over any such history whatever Swarm holds under a wanted version has the payload of that version, and versions stay managed |
| History.Recovery | internal/sync/synchronizer.go:53-134 | after any such history, whatever the names, three or more completed runs for one content of the storage leave every path settled on the wanted version and payload, with all references on it, and nothing to write |
| History.CleanForever | internal/sync/synchronizer.go:53-70 | from a clean state, over any history of completed runs, each for its own snapshot, every run leaves all references into wanted groups on a secret of the wanted version with the wanted payload |
| Stability.ManagedNotStuck | internal/engine/docker.go:58-72 | while every version carries the managed label, as all versions that the program creates do, no path is stuck |
| Stability.ThreeRunsQuiet | internal/sync/step3_process_secrets.go:44-61 | after three completed runs the next one has nothing to write |
| Stability.CleanupExact | internal/sync/payload.go:66-140 | after a completed run with cleanup a group with a parent survives if and only if it is unmanaged, referred to by a service, or wanted; a group goes whole or stays whole |
| Stability.NoOrphansLeft | internal/sync/step7_cleanup_orphaned_secrets.go:11-30 | after a completed run with cleanup there is no orphan |
| Stability.AfterMove | internal/sync/step4_apply_service_updates.go:22-37 | a reference that ends in a wanted group came from that group, and where it points follows from what the run did there |
| Operation.RunNext | internal/sync/synchronizer.go:53-70 | one run for what the storage then holds does what `Sync` promises of a run: `Operation.RanAs` |
| Operation.RunAll | internal/application/cs/app.go:97-111 | any number of runs by the code, while the storage changes and requests fail: each of them does what `Sync` promises of a run, for its own snapshot and from where the last one stopped |
| Operation.SafeThroughout | internal/application/cs/app.go:97-111 | no removal of a secret in use is asked for in any of them |
| Operation.CompleteOrInterrupted | internal/sync/synchronizer.go:78-134 | with names that do not get in each other's way a run completes unless a request fails for good in it: one that is not tried again, or one that was tried four times |
| Operation.ThreeRunsRecover | internal/application/cs/app.go:97-111 | whatever such a history was, its last three runs, for one content of the storage, leave all paths canonical and nothing to write, unless a request fails for good in one of these three |
| Operation.NextRunKeepsCurrent | internal/application/cs/app.go:97-111 | the counterpart for currency: wherever such a history stands in a clean state, the next run, for whatever the storage then holds, leaves the state clean and all services on that version and payload, unless a request fails for good in this run |
| Operation.BlockedFails | internal/application/cs/app.go:97-111 | while a version is wanted whose name another secret has, every run fails, however often it is tried and whatever changes at the other paths |
| Currency.CurrencyExact | internal/sync/step3_process_secrets.go:44-63 | after a completed run all references into a group resolve to the wanted version if and only if the run did not move them to a stale parent and did not find them on versions without a parent |
| Currency.CleanStays | internal/sync/step3_process_secrets.go:94-135 | completed runs keep states clean, for whatever the external storage then wants, and leave all services current |
| Currency.PayloadsKept | internal/sync/step3_process_secrets.go:72-83 | a run, completed or not, never stores a wrong payload under a version |
| Confluence.SecretsConfluent | internal/sync/step3_process_secrets.go:17-23 | two runs over the same snapshot in any orders end in the same secrets up to renaming the new ids and their times; the renaming is its own inverse |
| Confluence.RefsConfluent | internal/sync/step3_process_secrets.go:185-215 | and in the same references up to that renaming |
| Confluence.ServicesConfluent | internal/sync/step4_apply_service_updates.go:22-50 | the same services are updated, so that their versions agree |
| Confluence.ResultConfluent | internal/sync/synchronizer.go:45-51 | and in the same counters |
| Witnesses.SuccessCanGoBack | internal/sync/step3_process_secrets.go:44-61 | a concrete state from which a successful run takes a service from the wanted version back to an older one |
| Witnesses.UnmanagedStaysStuck | internal/sync/step3_process_secrets.go:52-56 | a concrete unmanaged group that no number of completed runs settles |
| Collisions.RemovesInUseExact | internal/sync/step3_process_secrets.go:32-135 | for external secrets with any names, in any order: after the rollout a service refers to a secret of the group that step 5 is asked to remove, if and only if some item of the path has another version than Swarm holds, the last one has that version, and some reference into the group is not on its parent |
| Collisions.MissingCollisionBlocked | internal/sync/step3_process_secrets.go:39-42 | of external secrets with any names, in any order: of those that share a name which no group has, at most one is processed, and after it every other one is refused |
| Witnesses.KeyNamedLikeVersion | internal/secretname/generate.go:18-21 | the keys "db" and "db-2" at version 2: the version of the one needs the name that the parent of the other has |
| Witnesses.VersionComesBack | internal/sync/step3_process_secrets.go:94-108 | a history of two aborted runs after which version 2 of a key is blocked by what the first attempt at version 2 left |
| Witnesses.CollidingPathsRemoveInUse | internal/sync/step3_process_secrets.go:37-63 | for the listing "a/b" with a new version and "a-b" with the current one, the plan asks for a secret in use in the one order and not in the other |
| Witnesses.CollidingPathsGoThrough | internal/sync/step3_process_secrets.go:94-108 | nothing refuses the order in which it does |
| ProcessSecrets.ProcessExternalSecrets | internal/sync/step3_process_secrets.go:17-30 | step 3, in any order: every wanted path is created, kept or rotated, and exactly the rollout, removals and restores that follow from it are queued; a failure leaves only additions |
| ProcessSecrets.ProcessExternalSecret | internal/sync/step3_process_secrets.go:32-64 | one external secret does exactly what `Planning.Processed` says, to Swarm and to the whole work queued so far, whether or not its path was met before; it fails only when a request failed or a name is taken, and then Swarm and the work are as they were |
| Planning.ProcessedQueuing | internal/sync/step3_process_secrets.go:32-135 | for a path not met before: a name is taken only if those that the run needs were not free and different at its beginning; and all that holds between two external secrets is kept: the queue is sound and complete, and removals and restores are those that follow from the actions |
| ProcessSecrets.CreateMissingSecret | internal/sync/step3_process_secrets.go:66-92 | a missing secret is created with the payload and labels of the external one and counted, or nothing happens |
| ProcessSecrets.CreateSecretVersion | internal/sync/step3_process_secrets.go:94-108 | the version carries the group's path and external path and the new version id; on failure nothing is created |
| ProcessSecrets.EnqueueSameVersionServices | internal/sync/step3_process_secrets.go:154-183 | the queue becomes `QueueServices` for the parent, references on the parent passed over |
| ProcessSecrets.EnqueueUpdatedServices | internal/sync/step3_process_secrets.go:185-215 | the queue becomes `QueueServices` for the new version |
| Planning.ServicesExact | internal/sync/step3_process_secrets.go:160-213 | what that is, entry by entry: the replacement for exactly the references that use the group and are not passed over, and every other entry as before |
| Planning.QueuedGroup | internal/sync/step3_process_secrets.go:154-215 | queueing a group keeps every entry needed and right, loses none, and covers every reference into the group that is not on its target |
| Planning.MatchIsGroup | internal/sync/step3_process_secrets.go:217-233 | matching a reference by name or by version id is matching it by group |
| Planning.TallySum | internal/sync/step3_process_secrets.go:58-131 | created, updated and skipped add up to the processed paths |
| Payload.SyncPayload.Enqueue | internal/sync/step3_process_secrets.go:161-180 | the keyed task map and the order slice hold the same tasks, no service has two, and together they stand for the queue with one more replacement |
| Rollout.SwapIsMove | internal/sync/step4_apply_service_updates.go:22-37 | what one pass does to a queued service is the position-wise substitution of the loaded references; length, order and file targets stay |
| Rollout.UnqueuedStays | internal/sync/step3_process_secrets.go:161-164 | a service that is not queued has nothing to move |
| Rollout.ReplacementNotKey | internal/sync/step3_process_secrets.go:161-212 | a replacement is never itself a key of the map of its `ServiceTask` |
| Rollout.SwapTwice | internal/sync/step4_apply_service_updates.go:23-37 | a second pass over references that were overwritten already changes nothing |
| ApplyUpdates.SwapReferences | internal/sync/step4_apply_service_updates.go:23-37 | the loop over one service overwrites its references in place with the substitution |
| ApplyUpdates.ApplyServiceUpdates | internal/sync/step4_apply_service_updates.go:13-53 | one invocation: the offset counts exactly the services already updated, every request sends the planned references, and the successful ones are the tasks from the old offset to the new one, each once, in order |
| ApplyUpdates.ApplyWithRetries | internal/sync/synchronizer.go:95-104 | the same over all re-invocations, for any pattern of failures; it fails after exactly four failed updates, and succeeds with at most three |
| ApplyUpdates.RolledOut | internal/sync/step4_apply_service_updates.go:22-52 | once the offset has reached the end, every service has its planned references |
| RemoveVersions.RemoveOldVersions | internal/sync/step5_remove_old_secret_versions.go:18-67 | the loop removes exactly the targets and counts each removed secret once, as parent or version; not-found is no error; it stops at any other one; and it asks for nothing in use |
| RemoveVersions.DroppingCounts | internal/sync/step5_remove_old_secret_versions.go:41-62 | the counters grow by exactly the number of secrets that went |
| RemoveVersions.TargetsAreDropped | internal/sync/step5_remove_old_secret_versions.go:14-35 | step 5 is asked to remove exactly the rotated groups, and the versions of the kept managed ones |
| Stages.DroppedUnused | internal/sync/step5_remove_old_secret_versions.go:31-41 | after the rollout no service refers to anything that step 5 removes |
| RemoveVersions.OrphanedManagedSecretRemovals | internal/sync/payload.go:66-93 | the removals are exactly the managed groups that are neither used nor wanted |
| RemoveVersions.UsedSecretPaths | internal/sync/payload.go:95-116 | exactly the groups that some service refers to by id |
| RemoveVersions.SecretPathById | internal/sync/payload.go:118-128 | exactly the secrets of the groups, each with its path |
| RemoveVersions.ExternalSecretPaths | internal/sync/payload.go:130-140 | exactly the wanted paths |
| RemoveVersions.CleanupOrphanedSecrets | internal/sync/step7_cleanup_orphaned_secrets.go:11-30 | step 7 removes exactly the orphaned groups, or a part of them when a request fails |
| RestoreSecrets.RestoreSecrets | internal/sync/step6_restore_parent_secrets.go:17-37 | exactly the rotated paths get a new parent with the wanted payload and version, or a part of them when a request fails |
| Rotation.DropKeepsWellFormed | internal/engine/docker.go:30-46 | removing a secret that is not in use leaves every reference resolving |
| Engine.MapSecrets | internal/engine/docker.go:134-202 | the two passes with their in-place updates compute `Grouped` |
| Engine.ExistingSecret.LatestVersion | internal/engine/docker.go:211-224 | the cached version, or the linear scan when there is none |
| Engine.ScanIsFirstNewest | internal/engine/docker.go:211-221 | the scan returns the first of the newest versions |
| Grouping.MapSecretsExact | internal/engine/docker.go:147-199 | for any list with unique ids and names: one group for each labelled parent, with the parent and then exactly its versions; managed is the disjunction over the group; the cached latest version is the scan |
| Grouping.MapSecretsMirrors | internal/engine/docker.go:147-199 | in whatever order Docker lists a state, the groups are the state's parented groups |
| Grouping.MapSecretsOrderFree | internal/engine/docker.go:174-199 | with distinct times the groups, in all their fields, do not depend on the list order, but for the order of the versions inside a group |
| SecretName.CollisionExact | internal/sync/step3_process_secrets.go:235-237 | two external paths get one Docker name if and only if they differ only in slash against delimiter; a name has no slash, and a path without one is its own name |
| SecretName.VersionNames | internal/secretname/generate.go:11-22 | a version name fits the limit of 64 and is drawn exactly when the composed one would not; it is its parent's name only when that very text was drawn as UUID; and two versions of one path share a name if and only if they are one version composed twice, or a UUID came up that is the other name |
| VaultCas.CreateSecretKey | internal/providers/vault/api/client_write.go:55-80 | with others writing between any two calls: a success turns the document current at write time into it plus the new, until then absent key, by one write; an error means that this caller wrote nothing, and each error has its reason: a read or write error a failed call, a conflict three refused writes and three writes of others; when no call fails and nobody else writes the document, the key is created if and only if path and key are not empty, the key is absent, and the answer did not lack the version metadata; its calls are those of the interleavings below (`Performs`) |
| VaultCas.SecretDataForCreate | internal/providers/vault/api/client_write.go:82-111 | the draft is the document just read plus the key, with its version, or the key alone with version 0 for a missing document; an existing key, missing metadata and a failed read are the only errors, each for its reason |
| VaultCas.StillCurrent | internal/providers/vault/api/client_write.go:70-73 | a write accepted for a version adds exactly the key to the document of that moment |
| VaultCas.ReuseExact | internal/providers/vault/api/client_write.go:128-139 | if version numbers could be used again, an accepted write would be such an addition exactly when the data are the same as read |
| VaultCreators.NoLostUpdates | internal/providers/vault/api/client_write.go:55-111 | over all interleavings of any number of callers, the document is the initial one plus exactly the keys of those who succeeded, one version for each; of several callers with one key at most one succeeds |
| VaultCreators.CallerPerforms | internal/providers/vault/api/client_write.go:64-79 | in every interleaving each caller does what the calls of `CreateSecretKey` amount to |
| VaultCreators.GivingUp | internal/providers/vault/api/client_write.go:64-79 | a caller gives up on conflicts only after three others succeeded, so among three callers nobody does |
| VaultPaths.ParseJoin | internal/providers/vault/secret_path.go:13-23 | a joined path parses back into its document and key unless the document is the root |
| VaultPaths.JoinParse | internal/providers/vault/secret_path.go:13-23 | a path that parses is rebuilt by joining if and only if its document part has no slash at its ends |
| VaultPaths.JoinInjective | internal/providers/vault/provider.go:164-176 | different documents or keys never share a path |
| VaultPaths.NormalizeCreatePath | internal/providers/vault/provider.go:178-191 | accepted exactly when the trimmed path is not empty and has no empty, dot or dot-dot segment |
| Strings.GoodSegmentsExact | internal/providers/vault/provider.go:184-188 | good segments, told from the text alone: nothing between two slashes, or a slash and an end, is empty, "." or ".." |
| Strings.NormalizedParts | internal/providers/vault/provider.go:179 | normalising takes exactly the spaces and then the slashes off both ends |
| VaultPaths.CreatedParses | internal/providers/vault/provider.go:47-59 | a key created in a normalised document gets a path that leads back to it |
| VaultListing.ListSecrets | internal/providers/vault/provider.go:112-162 | the worklist ends, and its result holds exactly one secret for every key of every document that can be reached from the root, with the document's version; it fails only when a call failed, or such a document is missing, has an empty key, or one with a slash, and says which |
| VaultListing.AddDocument | internal/providers/vault/provider.go:138-157 | one document adds exactly its keys and overwrites nothing |
| VaultListing.ListedReadable | internal/providers/vault/provider.go:152-156 | a listed path belongs to one document and one key, and parses back to them unless the document is the root |
| VaultListing.GetSecretPayload | internal/providers/vault/provider.go:97-109 | for a listed path the value of that key of that document, or a call failed |
| VaultTree.BelowExact | internal/providers/vault/provider.go:115-136 | for every mount the documents that the worklist visits are exactly those of the recursively defined tree |
| VaultMount.MountListed | internal/providers/vault/provider.go:131-138 | for a mount that shows a tree of folders and documents, folders with a slash at their ends, the documents to visit are exactly those of the tree, by their full paths |
| VaultMount.MountSecrets | internal/providers/vault/provider.go:138-157 | and the listing is exactly one secret "document/key" for each document of the tree and key of it, with the document's version |
| VaultMount.MountComplete | internal/providers/vault/provider.go:139-142 | such a mount has every document that a listing of it visits, so that none is reported missing |
| CloudRu.CreateSecretPath | internal/providers/cloudru/secret.go:114-150 | each error exactly under its condition; an accepted path is strictly inside a configured root folder; when the prefix is omitted the full path is root, slash, logical path, and scoping the full path gives the logical one |
| CloudRu.ScopeExact | internal/providers/cloudru/secret.go:204-225 | exactly the paths strictly inside the root folder are accepted, and the prefix is what goes |
| CloudRu.ScopeInjective | internal/providers/cloudru/secret.go:204-225 | different full paths have different scoped paths |
| CloudRu.ResolveScopeExact | internal/providers/cloudru/secret.go:182-225 | resolving undoes scoping if and only if no prefix is omitted, or the scoped path is neither the root folder's name, nor inside a folder of that name, nor begins with a slash |
| CloudRu.ScopeResolveExact | internal/providers/cloudru/secret.go:182-225 | scoping undoes resolving, up to outer slashes, if and only if no prefix is omitted or the path does not lead into the root folder already |
| CloudRu.ResolvedInside | internal/providers/cloudru/secret.go:182-202 | with an omitted prefix every request stays at or inside the root folder, and resolving twice changes nothing; without one a path is sent as it is given |
| CloudRu.RoundTripFails | internal/providers/cloudru/secret.go:197-199 | concrete paths of both kinds that the round trip loses |
| Scheduler.Application.AdvanceNextSyncAt | internal/application/cs/app.go:166-183 | with others advancing at any point: the stored time only grows and stays on the grid of the first one; the returned time is strictly after `now`; an own swap lands on the first grid point after `now`; failed swaps bring it nearer by an interval each, so the loop ends |
| Scheduler.AdvanceByExact | internal/application/cs/app.go:176-177 | the 64-bit computation is exact if and only if its mathematical result is below 2^63 |
| Scheduler.AdvanceOnGrid | internal/application/cs/app.go:176-178 | an advance reaches the least grid point after `now` |
| Scheduler.Application.Sync | internal/application/cs/app.go:115-145 | a call is rejected if and only if it finds the flag set, and then changes nothing; any other one takes the flag, completes, moves the schedule past its completion whether or not it succeeds, records exactly a success at the time of its completion, and releases the flag; these are the steps of one caller in the interleavings below, others acting in between (`Performs`) |
| Scheduler.Application.LastSyncAt | internal/application/cs/app.go:148-155 | the time returned is not before one that was known earlier |
| Scheduler.Application.NextSyncAt | internal/application/cs/app.go:158-160 | the time returned is on the grid and after the time of the call |
| SyncLock.OneAtATime | internal/application/cs/app.go:115-119 | over all interleavings at most one caller is inside, and the flag is set exactly while one is |
| SyncLock.OthersMeanwhile | internal/application/cs/app.go:115-133 | what one caller relies on between its own steps holds in every interleaving: while it is inside nobody else touches the flag or the time of the last success |
| SyncLock.CallerPerforms | internal/application/cs/app.go:115-145 | in every interleaving each caller does what the steps of `Application.Sync` amount to |
| SyncLock.LastNeverDecreases | internal/application/cs/app.go:133 | over all interleavings the time of the last success never decreases |
| SyncLock.LastFromSuccess | internal/application/cs/app.go:124-133 | a known time of success was recorded by a caller that completed successfully at that time, alone inside |

## Left out

- Services and groups in the payload are values, and only `ServiceTask` keeps its references in place: `ExistingSecret` is an object inside `MapSecrets` and a value after it, so that objects shared between the payload's lists are not part of this model.
- A service without a container spec: step 3 would fail on it, `usedSecretPaths` skips it; the model takes every service to have one.
- Requests that take effect although they report a failure: a lost answer of Docker or Vault is not part of this model.
- Delays between retries, and the gopipe library beyond the step semantics above.
- Multi-byte characters: a `char` of the model stands for one byte of a name or payload.
- Drawing UUIDs: the UUIDs of each run are inputs; that they are new is a hypothesis, and so are their 36 characters in `SecretName.VersionNames`.
- The text match that recognises a check-and-set conflict, and the conversion of Vault values to bytes: a conflict is one of the results of a write, a value is a string.
- Vault's `versionID`, which reads the metadata when a document carries none: the version id is a field of the document.
- Key and value checks of Vault's `CreateSecret` other than those on the path and on slashes in the key.
- `secretLatestVersionID` and the listing of Cloud.ru secrets: short branches around the path functions.
- `setNextSyncAt`: the first scheduled time is a given of the schedule, and stored by another goroutine at any point.
- Metrics, logging, tracing, the gRPC and HTTP interfaces, the command line, configuration, tokens and transport.
- VaultCreators.NoLostUpdates: all writers of the document are callers of `CreateSecretKey`; arbitrary other writers are covered by `VaultCas.CreateSecretKey`.
- Collisions.RemovesInUseExact: one pass of the rollout; a pass that is run again after a failed request is not followed there, since with colliding paths a replacement can be a key of the queue.
