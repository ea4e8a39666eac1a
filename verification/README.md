# Verification of the upgrade job, the upgrade plugin and call-home statistics

A Dafny model of the parts of the Mayastor extensions that change a cluster or report on it,
with proofs about all their runs and all their inputs. `dafny verify dfyconfig.toml` checks
the whole project.

* **Rolling data-plane upgrade** (`Cluster`, `Rebuild`, `Listing`, `Protocol`, `DataPlane`).
  `Protocol` says which call may follow which, given what earlier calls returned. The nested
  polling loops of `DataPlane` are proved to make only such calls, so that what is proved of
  accepted logs holds of every run: which observations precede a pod deletion
  (`DeletionDiscipline`), who carries the drain label (`LabelOwnership`), what becomes of
  a drain that an earlier attempt left in flight (`DrainInFlight`, `LingeringDrain`), how often
  the loops go round (`Progress`), and what the ANA check concludes and leaves behind (`AnaCheck`).
* **Helm values migration** (`Semver`, `Yaml`, `Migration`). A values file is a tree; a
  migration is a deep merge and then thirteen blocks of edits that depend on the two versions.
  `MigrationPaths` finds the block that owns each edited path, `MigrationLaws` says what every
  edited path ends as, `MigrationSuccess` says exactly when the migration completes, and
  `MigrationWitnesses` holds files for which it surprises.
* **Orchestration** (`Orchestration`, `EventWorker`). The version gate, the order of published
  actions and helm commands, and the worker that republishes its current event on a timer.
* **Upgrade resources** (`SetFile`, `UpgradeResources`). The objects the plugin creates and
  deletes, and the files that travel in a config map under numbered entries.
* **Call-home statistics** (`Percentile`, `DiskReport`).

Every lemma is marked `{:induction false}`: the inductions are the ones written out.

## Assumptions about the environment

* A run is a finite log of calls. Before each call the environment may present any cluster at
  all, and any call may fail, with or without having taken effect. A run that never ends is
  covered through its finite beginnings. Claims that need more name it: `OthersBehave` (others
  do not add the upgrade's drain label, nor take a labelled node out of Drained, and the node
  listing is complete), `NoNewOutdated` and `RevisionsFixed`, `Undisturbed`, and
  `QuietLog` (others complete drains and bring up pods of the latest revision, but label no
  node, touch no outdated pod and move no target to a labelled node).
* The REST server adds and removes labels as `CordonDrain` says: a drain request turns an open
  or cordoned node into a draining one, and an uncordon request clears a label of either kind.
* A paged listing is taken over one snapshot, which the server may split into any pages up
  to the requested size, and is one call.
* yq follows missing and null entries as empty maps when it writes, fails when a scalar or
  array blocks the way, and deletes what is there without failing. `+=` on objects lets the
  right-hand fields win; on null it yields the right-hand side.
* Reading a typed value that the file does not set gives the empty string or `false`.

## Findings

* Merging is not associative for all files: a scalar in the middle file can hide a map of the
  first one (`MergeNotAssociative`); the exact condition is `GroupsFreely`.
* The clean-up of leftover drain labels acts on Drained nodes only. A node that an aborted
  attempt left draining may keep its label through a completed run: exactly if the run does
  not take the node up again, because the node has no outdated pod, its drain is refused, or
  HA is off (`CleanUpIsCompleteIffAllTakenUp`). A run that does take it up waits for the drain
  and gives the label back. The early exit without outdated pods comes before the clean-up,
  so that a rerun may not clean up at all.
* The ANA check takes its cordon label on a draining or drained node too, and never gives it
  back there (`CheckGivesItsLabelBackIffNotDraining`).
* `rebuild_result` can loop for ever on volumes that do not change: its node set accumulates
  across volumes, so that a targeted unhealthy volume listed before the first one that touches
  the node is never settled (`SteadyVerdict`). If all such volumes touch the node, it ends.
* The readiness check passes a pod without any Ready condition, and an empty list of pods
  (`ReadinessCheckPassesWithoutEvidence`). The control plane therefore counts as ready, before
  a pod is deleted, when it has no pods at all (`ControlPlaneReadyWithoutPods`).
* A value that a default or a rename writes is not always the value it comes from: a string
  that reads as a boolean, null or a 64-bit integer changes its type, as the image tag "7"
  does (`NumericTagBecomesInteger`), and a value that the file does not set is written as the
  empty string. `WrittenIsOwnIff` has the exact condition.
* The two renamed keys are written even if the source does not have the old ones. The window
  includes the pre-releases of 2.6.0, so that a value already set at a new key is lost
  (`ValueAtNewKeyIsLost`).
* The result in the comment on `merge_files` indents `friend` under `foo`; the code, and this
  model, leave it at the top level.

## Model

| member | source | states |
|---|---|---|
| `DeletionDiscipline.EveryDeletionIsPrepared` | k8s/upgrade/src/bin/upgrade-job/upgrade/data_plane.rs:66-138 | in every run, aborted or not, and whatever the environment answers: a deleted io-engine pod was listed as outdated on that node; since the previous deletion the control plane was seen ready and after that no unhealthy volume rebuilding; the last call saw the node Drained under the upgrade label, or HA is off, or an ANA-disabled frontend forbade the drain; and the node of the previously deleted pod was seen with exactly one latest-revision pod that passed the readiness check |
| `DeletionDiscipline.RunIsDisciplined` | k8s/upgrade/src/bin/upgrade-job/upgrade/data_plane.rs:66-138 | the invariant behind it: what the log of a run shows since its last deletion, for each point where the run may stand |
| `DeletionDiscipline.DeletedPodWasListed` | k8s/upgrade/src/bin/upgrade-job/upgrade/data_plane.rs:67-81 | a pod is deleted only if an earlier listing of outdated pods had it |
| `LabelOwnership.OwnershipInvariant` | k8s/upgrade/src/bin/upgrade-job/upgrade/data_plane.rs:56-64 | which nodes may carry the drain label at each point of a run, before and after every call |
| `LabelOwnership.OnlyTheNodeInProgressIsLabelled` | k8s/upgrade/src/bin/upgrade-job/upgrade/data_plane.rs:111-131 | once the clean-up is over, any node that carries the drain label, before or after any call, is the node in progress |
| `LabelOwnership.CompletedRunLeavesNoLabel` | k8s/upgrade/src/bin/upgrade-job/upgrade/data_plane.rs:134-143 | a run that returns Ok leaves no node labelled, given that no node started out draining under the label |
| `LingeringDrain.CleanUpIsCompleteIffAllTakenUp` | k8s/upgrade/src/bin/upgrade-job/upgrade/data_plane.rs:56-143 | in a quiet cluster that is live, so that runs can return Ok at all, every run that does leaves no label if and only if it takes up each node that started out draining under the label: HA is on, the node has an outdated pod, and no ANA-disabled node is a frontend of a volume targeted at it |
| `DrainInFlight.TakenUpDrainsAreFinished` | k8s/upgrade/src/bin/upgrade-job/upgrade/data_plane.rs:111-131 | a run that returns Ok in a quiet cluster, and takes up every drain that was in flight at first, ends with no node labelled |
| `LingeringDrain.DrainMayLinger` | k8s/upgrade/src/bin/upgrade-job/upgrade/data_plane.rs:146-190 | for every live cluster with a drain in flight that is not taken up, a run is constructed that restarts every outdated pod, returns Ok and leaves the label, while others only complete drains and bring up replacements |
| `LingeringDrain.ExampleKeepsItsLabel` | k8s/upgrade/src/bin/upgrade-job/upgrade/data_plane.rs:146-190 | one such cluster of two nodes, and a run in which the pod of the other node is restarted |
| `LabelOwnership.ForeignLabelsKept` | k8s/upgrade/src/bin/upgrade-job/upgrade/data_plane.rs:170-186 | over any sequence of attempts, however aborted, the cluster left by the last call has every cordon and drain label that is not one of the upgrade's two where the first call found it, if others leave these alone |
| `LabelOwnership.RunKeepsForeignLabels` | k8s/upgrade/src/bin/upgrade-job/upgrade/utils.rs:205-217 | whatever others do, no call of a run changes a label other than the two of the upgrade, and each of the two is added only as the kind it is |
| `Progress.OuterLoopIsBounded` | k8s/upgrade/src/bin/upgrade-job/upgrade/data_plane.rs:66-138 | starting with N outdated pods a run deletes at most N pods and lists the outdated pods at most N + 1 times, if no outdated pod appears and pods keep their revision |
| `Progress.DeletionsUseUpOutdatedPods` | k8s/upgrade/src/bin/upgrade-job/upgrade/data_plane.rs:119-120 | deletions so far plus outdated pods left never exceed the outdated pods at the start |
| `Progress.RunIsPaced` | k8s/upgrade/src/bin/upgrade-job/upgrade/data_plane.rs:66-138 | between two listings of the outdated pods there is a deletion |
| `Progress.CompletedRunSawNothingOutdated` | k8s/upgrade/src/bin/upgrade-job/upgrade/data_plane.rs:67-77 | a run returns Ok only from a listing that found no outdated pod |
| `Progress.RerunDisruptsNothing` | k8s/upgrade/src/bin/upgrade-job/upgrade/data_plane.rs:56-77 | while no pod is outdated, no call of a run deletes a pod, drains or cordons a node |
| `AnaCheck.CheckGivesItsLabelBackIffNotDraining` | k8s/upgrade/src/bin/upgrade-job/upgrade/utils.rs:179-278 | the ANA check keeps drain labels and other cordon labels, and its own label is gone afterwards if and only if the node was neither draining nor drained, also when the volumes could not be listed |
| `AnaCheck.CheckDecidesByFrontends` | k8s/upgrade/src/bin/upgrade-job/upgrade/data_plane.rs:390-431 | once there are disabled nodes: the run goes on to drain exactly when no volume targeted at the node has one as frontend, restarts without draining when one has, and stops when the volumes could not be listed |
| `AnaCheck.NodeIsDrainedIff` | k8s/upgrade/src/bin/upgrade-job/upgrade/data_plane.rs:358-386 | the decision as a whole, when calls succeed: the run restarts the node undrained exactly if HA is off or some ANA-disabled node is in the frontend list of a listed volume whose target is meant to be on the node, and drains it otherwise |
| `AnaCheck.RunSplits` | k8s/upgrade/src/bin/upgrade-job/upgrade/data_plane.rs:358-386 | a segment of a log continues the run that made the part before it, so that the claims about the check apply inside whole runs |
| `DataPlane.UpgradeDataPlane` | k8s/upgrade/src/bin/upgrade-job/upgrade/data_plane.rs:29-143 | without outdated pods no call is made; otherwise the log of calls is one that the protocol accepts, Ok is returned exactly when the protocol is done, and an error only when the job is gone or the last call stopped the protocol, with the error of that very cause |
| `DataPlane.StopsOnlyFor` | k8s/upgrade/src/bin/upgrade-job/upgrade/data_plane.rs:66-138 | a run stops exactly at a failed call, a node or pod record without what is needed, or several pods of the latest revision on one node; every other answer keeps its polling loop going |
| `DataPlane.RemoveLeftoverLabels` | k8s/upgrade/src/bin/upgrade-job/upgrade/data_plane.rs:56-64 | the clean-up visits every listed node, then stands before the first listing of outdated pods |
| `DataPlane.UpgradePod` | k8s/upgrade/src/bin/upgrade-job/upgrade/data_plane.rs:79-131 | one pod: control plane, rebuilds, drain if allowed, deletion, replacement, uncordon, in this order; a failed call ends the run |
| `DataPlane.UncordonDrainedStorageNode` | k8s/upgrade/src/bin/upgrade-job/upgrade/data_plane.rs:146-190 | polls until the node is no longer Drained under the label, and removes the label only from a Drained node |
| `DataPlane.DeleteDataPlanePod` | k8s/upgrade/src/bin/upgrade-job/upgrade/data_plane.rs:193-212 | deletes the pod in progress, by name |
| `DataPlane.VerifyDataPlanePodIsRunning` | k8s/upgrade/src/bin/upgrade-job/upgrade/data_plane.rs:215-229 | polls until the replacement runs; it gives up only if the job is gone, a call has failed or several pods are found |
| `DataPlane.DataPlanePodIsRunning` | k8s/upgrade/src/bin/upgrade-job/upgrade/data_plane.rs:305-327 | no pod of the latest revision: not yet; more than one: an error; exactly one: whether it passes the readiness check |
| `DataPlane.WaitForRebuild` | k8s/upgrade/src/bin/upgrade-job/upgrade/data_plane.rs:232-249 | asks again, with the volumes discarded so far, until no rebuild is reported |
| `DataPlane.DrainStorageNode` | k8s/upgrade/src/bin/upgrade-job/upgrade/data_plane.rs:252-302 | returns only from a read that saw the node Drained under the label |
| `DataPlane.VerifyControlPlaneIsRunning` | k8s/upgrade/src/bin/upgrade-job/upgrade/data_plane.rs:329-336 | polls until all three checks pass; it gives up only if the job is gone or a call has failed |
| `DataPlane.ControlPlaneIsRunning` | k8s/upgrade/src/bin/upgrade-job/upgrade/data_plane.rs:339-353 | reads agent-core, api-rest and etcd pods, in this order |
| `DataPlane.IsNodeDrainable` | k8s/upgrade/src/bin/upgrade-job/upgrade/data_plane.rs:358-386 | true leads to the drain, false to a restart without one; the label taken for the check is given back before either |
| `DataPlane.FrontendNodesAnaCheck` | k8s/upgrade/src/bin/upgrade-job/upgrade/data_plane.rs:390-431 | true exactly when no ANA-disabled node consumes a volume whose target is meant to be on the node |
| `DataPlane.AllPodsAreReady` | k8s/upgrade/src/bin/upgrade-job/upgrade/utils.rs:141-176 | true exactly when each pod has conditions and its first Ready condition, if any, is True |
| `Protocol.PassingPodIsMarkedReadyIff` | k8s/upgrade/src/bin/upgrade-job/upgrade/utils.rs:141-176 | a pod that passes the readiness check carries a Ready condition that is True if and only if it has a Ready condition at all |
| `Protocol.ReadinessCheckPassesWithoutEvidence` | k8s/upgrade/src/bin/upgrade-job/upgrade/utils.rs:141-176 | every pod whose conditions say nothing about readiness passes the check, and so does an empty list of pods |
| `Protocol.UnreadyPodPasses` | k8s/upgrade/src/bin/upgrade-job/upgrade/utils.rs:141-176 | one pod that passes without being marked ready |
| `DeletionDiscipline.ControlPlaneReadyWithoutPods` | k8s/upgrade/src/bin/upgrade-job/upgrade/data_plane.rs:339-353 | the control plane counts as seen ready in a cluster without any control-plane pod |
| `DataPlane.AppIsReady` | k8s/upgrade/src/bin/upgrade-job/upgrade/data_plane.rs:339-353 | lists the pods of one application and checks them all |
| `DataPlane.CordonStorageNode` | k8s/upgrade/src/bin/upgrade-job/upgrade/utils.rs:179-224 | takes the check label unless the node is Cordoned with it already |
| `DataPlane.UncordonStorageNode` | k8s/upgrade/src/bin/upgrade-job/upgrade/utils.rs:227-278 | gives the check label back only on a Cordoned node that has it |
| `DataPlane.RebuildResult` | k8s/upgrade/src/bin/upgrade-job/upgrade/utils.rs:24-83 | reads snapshots until one is quiet or shows a rebuild |
| `Rebuild.ScanVolumes` | k8s/upgrade/src/bin/upgrade-job/upgrade/utils.rs:35-77 | the walk over unhealthy volumes is `Scan`: nodes accumulate across volumes, and volumes are discarded or reported from the first one that touches the node on |
| `Rebuild.RebuildStarts` | k8s/upgrade/src/bin/upgrade-job/upgrade/utils.rs:52-65 | eleven looks at the same snapshot find a rebuild exactly when the snapshot has one |
| `Rebuild.ReplicaRebuildCount` | k8s/upgrade/src/bin/upgrade-job/upgrade/utils.rs:119-137 | the number of children with a rebuild in progress |
| `Rebuild.IsRebuildingIff` | k8s/upgrade/src/bin/upgrade-job/upgrade/utils.rs:119-137 | a volume rebuilds exactly if it has a target and some child of it has a rebuild in progress |
| `Rebuild.TouchedNodesIff` | k8s/upgrade/src/bin/upgrade-job/upgrade/utils.rs:42-48 | a volume touches exactly the node of its target and the nodes of its replicas |
| `Rebuild.PassSound` | k8s/upgrade/src/bin/upgrade-job/upgrade/utils.rs:24-83 | a pass discards only unhealthy, targeted volumes that do not rebuild; after a quiet pass each unhealthy volume is discarded or has no target; a busy pass saw a rebuild |
| `Rebuild.VerdictSound` | k8s/upgrade/src/bin/upgrade-job/upgrade/utils.rs:24-83 | over all snapshots read: a "no rebuild" verdict means that no unhealthy volume of the last one rebuilds, and all discarded volumes were unhealthy and not rebuilding in a snapshot that was read |
| `Rebuild.SteadyVerdict` | k8s/upgrade/src/bin/upgrade-job/upgrade/utils.rs:24-83 | on an unchanging volume set the loop reports a rebuild, reports none, or never ends, each under an exact condition on the pending volumes in listing order |
| `Listing.ListPaged` | k8s/upgrade/src/bin/upgrade-job/common/kube_client.rs:53-94 | for every way in which the server splits the snapshot into pages, short and empty ones included, the pages put together are the whole snapshot |
| `Cluster.SelectedPods` | k8s/upgrade/src/bin/upgrade-job/upgrade/data_plane.rs:305-353 | what the three selectors list: the pods of an application, the io-engine pods without the latest hash, and those with it on one node |
| `Cluster.SelectSplits` | k8s/upgrade/src/bin/upgrade-job/common/kube_client.rs:53-94 | a selection takes the pods in order, each as often as it is there |
| `Cluster.LabelNames` | k8s/upgrade/src/bin/upgrade-job/common/constants.rs:20-27 | the two labels of the upgrade |
| `Listing.ListAllVolumes` | k8s/upgrade/src/bin/upgrade-job/upgrade/utils.rs:281-302 | for every split into pages, the pages put together are the whole snapshot |
| `Listing.ListUnhealthyVolumes` | k8s/upgrade/src/bin/upgrade-job/upgrade/utils.rs:86-116 | for every split into pages, the Faulted or Degraded volumes of all pages that are not discarded, in order |
| `Listing.LatestControllerRevisionHash` | k8s/upgrade/src/bin/upgrade-job/common/kube_client.rs:182-219 | the hash belongs to a revision with the highest number over all pages; the errors arise exactly from an empty list or a missing label on such a revision |
| `Listing.SortByRevision` | k8s/upgrade/src/bin/upgrade-job/common/kube_client.rs:204-205 | newest first, and a permutation of the input |
| `Yaml.MergeLookup` | k8s/upgrade/src/bin/upgrade-job/helm/yaml/yq.rs:183-251 | the merged value at every path: a scalar or array of the high-priority file wins whole, maps are merged, the low-priority value stands where the other file is silent |
| `Yaml.MergeIdempotent` | k8s/upgrade/src/bin/upgrade-job/helm/yaml/yq.rs:183-251 | merging a file with itself changes nothing |
| `Yaml.MergeAddsNothing` | k8s/upgrade/src/bin/upgrade-job/helm/yaml/yq.rs:183-251 | a merge equals the high-priority file exactly when that file already has every field path of the other |
| `Yaml.MergeAssociativeIff` | k8s/upgrade/src/bin/upgrade-job/helm/yaml/yq.rs:183-251 | grouping three files either way gives the same result if and only if nowhere a scalar or array of the middle file stands between two maps of which the first has a field that the last lacks |
| `Yaml.MergeNotAssociative` | k8s/upgrade/src/bin/upgrade-job/helm/yaml/yq.rs:183-251 | three concrete files for which the grouping matters |
| `Yaml.ChangeLands` | k8s/upgrade/src/bin/upgrade-job/helm/yaml/yq.rs:103-154 | a write succeeds exactly when only maps, nulls or gaps lie on its way and the operation suits what it finds; the path then holds its result |
| `Yaml.OverlayHolds` | k8s/upgrade/src/bin/upgrade-job/helm/yaml/yq.rs:130-154 | an overlay has the fields of both objects, the second one winning, and no other; it fails for anything but objects and null |
| `Yaml.CommandsLand` | k8s/upgrade/src/bin/upgrade-job/helm/yaml/yq.rs:103-309 | set, delete and the two appends in terms of what their path held before and holds after: an appended item comes after all that were there |
| `Yaml.EditsSpare` | k8s/upgrade/src/bin/upgrade-job/helm/yaml/yq.rs:103-180 | a sequence of edits leaves every path alone that diverges from all of theirs |
| `Yaml.LastEditDecides` | k8s/upgrade/src/bin/upgrade-job/helm/yaml/yq.rs:103-180 | the last edit at a path decides what it holds |
| `Migration.DisplayedIntegers` | k8s/upgrade/src/bin/upgrade-job/helm/yaml/yq.rs:254-287 | a displayed integer is written bare, as that very integer, exactly when it fits 64 bits, and as a string otherwise |
| `Migration.LiteralIff` | k8s/upgrade/src/bin/upgrade-job/helm/yaml/yq.rs:260-287 | a text is written as a boolean, null or an integer exactly if it is the text of one, signs and leading zeros included for integers that fit 64 bits, and as itself otherwise |
| `Migration.GenerateValuesFile` | k8s/upgrade/src/bin/upgrade-job/helm/values.rs:49-423 | the commands on the values file, in the order of the source, end as `Migrate` says, or fail where it does |
| `Migration.LokiAddressToClients` | k8s/upgrade/src/bin/upgrade-job/helm/values.rs:427-489 | the edits that turn the old address into a list of clients, up to the first one that fails |
| `Migration.TwoSixMigration` | k8s/upgrade/src/bin/upgrade-job/helm/values.rs:220-373 | the six blocks of edits for sources before 2.6.0 |
| `Migration.DefaultsMigration` | k8s/upgrade/src/bin/upgrade-job/helm/values.rs:79-214 | the five blocks of edits for particular source and target versions |
| `MigrationPaths.UneditedPathsKeepMergedValue` | k8s/upgrade/src/bin/upgrade-job/helm/values.rs:62-422 | a path that leads neither to nor through an edited path keeps its merged value, whatever the versions |
| `MigrationPaths.OwnerDecides` | k8s/upgrade/src/bin/upgrade-job/helm/values.rs:62-422 | what an edited path ends as is decided by one block, which finds the merged value there unless the path was removed before |
| `MigrationLaws.WrittenIsOwnIff` | k8s/upgrade/src/bin/upgrade-job/helm/yaml/yq.rs:254-287 | what is written for a value is that very value if and only if it is a string that does not read as a boolean, null or a 64-bit integer; a missing value is written as the empty string |
| `MigrationLaws.BeforeTwoSixExplained` | k8s/upgrade/src/bin/upgrade-job/helm/values.rs:217-220 | the sources that "before 2.6.0" covers, in plain terms |
| `MigrationLaws.TagsComeFromTarget` | k8s/upgrade/src/bin/upgrade-job/helm/values.rs:375-414 | whatever the versions, the image tag and the six CSI sidecar tags end as the text of the target's value is written, which equals the target's value exactly under that condition |
| `MigrationLaws.RepoTagsMigrate` | k8s/upgrade/src/bin/upgrade-job/helm/values.rs:100-119 | the repository tags are written from the target exactly when it is at least 2.1.0, and keep the merged value otherwise; written ones equal the target's exactly under the condition above |
| `MigrationLaws.LogLevelMigrates` | k8s/upgrade/src/bin/upgrade-job/helm/values.rs:79-97 | written from the target exactly if the source is in [2.0.0-rc.1, 2.1.0), its file has "info,io_engine=info" there and the target's has not; in every other case the user's value stays, or the merged one if the source sets none |
| `MigrationLaws.EventingMigrates` | k8s/upgrade/src/bin/upgrade-job/helm/values.rs:122-139 | the target's flag exactly for sources in [2.3.0, 2.4.0) that differ from it |
| `MigrationLaws.ScrapeConfigsMigrate` | k8s/upgrade/src/bin/upgrade-job/helm/values.rs:145-196 | likewise, for sources in [2.0.0-rc.1, 2.5.0) and the old scrape configuration |
| `MigrationLaws.IoTimeoutMigrates` | k8s/upgrade/src/bin/upgrade-job/helm/values.rs:199-214 | likewise, for sources in [2.0.0-rc.1, 2.5.0) and "30" |
| `MigrationLaws.LocalpvMigrates` | k8s/upgrade/src/bin/upgrade-job/helm/values.rs:220-249 | release and both image tags are written from the target together, exactly if the source is before 2.6.0, its file has release "3.4.0" and the target's has not; else all three keep the merged value |
| `MigrationLaws.LokiStackTagsMigrate` | k8s/upgrade/src/bin/upgrade-job/helm/values.rs:251-301 | ten image tags are written from the target exactly for sources before 2.6.0; written ones equal the target's exactly under the condition above |
| `MigrationLaws.DeprecatedKeysAreGone` | k8s/upgrade/src/bin/upgrade-job/helm/values.rs:303-315 | the ring kvstore, the extra client configuration and the loki address are absent for sources before 2.6.0 |
| `MigrationLaws.RenamedKeysMove` | k8s/upgrade/src/bin/upgrade-job/helm/values.rs:342-364 | the two old keys are absent, and the text of the source's old value is written at the new keys in place of anything there; it equals the old value exactly if that is a string that reads as nothing else |
| `MigrationLaws.JaegerTagIsRewritten` | k8s/upgrade/src/bin/upgrade-job/helm/values.rs:366-372 | the tag is written again as the source has it |
| `MigrationLaws.ClientsAreConverted` | k8s/upgrade/src/bin/upgrade-job/helm/values.rs:427-489 | promtail has exactly one client, whose fields are those of the source's extra configuration, read as an object, and the source's address as url unless that configuration has another; without an extra configuration just the url |
| `MigrationLaws.PromtailSettingsComeFromTarget` | k8s/upgrade/src/bin/upgrade-job/helm/values.rs:319-340 | configuration file and readiness probe path are written from the target for sources before 2.6.0, and equal it exactly under the condition above |
| `MigrationLaws.PresentCrdsAreSwitchedOff` | k8s/upgrade/src/bin/upgrade-job/helm/values.rs:492-543 | a toggle is off exactly when the cluster has at least one of the CRDs named for it, else it keeps the merged value |
| `MigrationSuccess.MigrationCompletesIff` | k8s/upgrade/src/bin/upgrade-job/helm/values.rs:49-423 | the migration completes if and only if the merged values have only maps, nulls or gaps on the way to everything that the versions call to be written, and the extra client configuration, if used, parses to an object |
| `MigrationSuccess.OpenValuesMigrate` | k8s/upgrade/src/bin/upgrade-job/helm/values.rs:49-423 | values that block no edited path can be migrated |
| `MigrationSuccess.InitContainersAreOverlaid` | k8s/upgrade/src/bin/upgrade-job/helm/values.rs:324-335 | for sources before 2.6.0 promtail's init container is the target's containers laid over each other as one object, and absent if there are none |
| `MigrationWitnesses.TidyValuesMigrate` | k8s/upgrade/src/bin/upgrade-job/helm/values.rs:49-423 | merged values in which every section is a map or null can be migrated, whatever the versions |
| `MigrationWitnesses.NumericTagsBecomeIntegers` | k8s/upgrade/src/bin/upgrade-job/helm/values.rs:375-414 | a tag of the target that reads as a 64-bit integer ends as that integer |
| `MigrationWitnesses.MissingTagsBecomeEmpty` | k8s/upgrade/src/bin/upgrade-job/helm/values.rs:375-414 | a tag that the target does not set ends as the empty string, whatever the source had |
| `MigrationWitnesses.NumericTagBecomesInteger` | k8s/upgrade/src/bin/upgrade-job/helm/values.rs:375-383 | two readable files: the target has the image tag "7", the migrated values have the integer 7 |
| `MigrationWitnesses.MissingOldKeyEmptiesNewKey` | k8s/upgrade/src/bin/upgrade-job/helm/values.rs:342-364 | where the source lacks an old key, its new key ends empty, whatever the source had there |
| `MigrationWitnesses.ValueAtNewKeyIsLost` | k8s/upgrade/src/bin/upgrade-job/helm/values.rs:342-351 | two readable files: a user of 2.6.0-rc.1 who has set the new silence level loses it |
| `Semver.VersionsAreOrdered` | k8s/upgrade/src/bin/upgrade-job/helm/values.rs:75-78 | precedence, pre-releases included, is a total order (section 11 of Semantic Versioning 2.0.0) |
| `Semver.PrecedenceRules` | k8s/upgrade/src/bin/upgrade-job/helm/values.rs:75-78 | pre-releases before their release, numbers before texts, numbers as numbers, texts by character, the longer of two that agree higher |
| `Semver.NumbersDecide` | k8s/upgrade/src/bin/upgrade-job/helm/values.rs:75-78 | major, then minor, then patch decide between different numbers |
| `Semver.WindowExplained` | k8s/upgrade/src/bin/upgrade-job/common/constants.rs:44-59 | the windows from 2.0.0-rc.1 in plain terms; a pre-release of the upper bound falls inside |
| `Orchestration.Gate` | k8s/upgrade/src/bin/upgrade-job/helm/upgrade.rs:116-257 | umbrella releases must have the target version; core releases may not be rolled back or come from version 0.0.0, unless validation is skipped; each refusal has its own error, and what is accepted keeps chart and versions |
| `Orchestration.UpgradeProduct` | k8s/upgrade/src/bin/upgrade-job/upgrade.rs:47-168 | the actions sent are a beginning of the normal sequence closed by at most one failure; Successful is sent exactly when Ok is returned; where helm is needed, UpgradedCP and Ok come only after a dry run and a real run that both succeeded, and helm is not run otherwise; Ok means that the run through the data plane came to its end; no data-plane call with partial rebuild on and a source in [2.2.0, 2.5.0]; while the channel takes all events each error is returned exactly for its own cause |
| `Orchestration.UpgradeControlPlane` | k8s/upgrade/src/bin/upgrade-job/upgrade.rs:67-106 | the part up to the upgraded control plane: which helm commands have run, and which outcome each answer of helm leads to |
| `Orchestration.UpgradeDataPlanePart` | k8s/upgrade/src/bin/upgrade-job/upgrade.rs:108-158 | the part that restarts pods: Ok only once the protocol is done, or nothing is outdated; each failure for its own cause |
| `Orchestration.Job.Publish` | k8s/upgrade/src/bin/upgrade-job/events/event_recorder.rs:189-195 | an event is recorded exactly when the channel takes it |
| `Orchestration.Job.DryRun` | k8s/upgrade/src/bin/upgrade-job/helm/upgrade.rs:280-309 | a dry run, unless the release has the target version or is an umbrella release |
| `Orchestration.Job.RunHelmUpgrade` | k8s/upgrade/src/bin/upgrade-job/helm/upgrade.rs:311-334 | helm is run for real exactly where it is needed, and its failure gives no values |
| `Orchestration.PartialRebuildRange` | k8s/upgrade/src/bin/upgrade-job/upgrade.rs:170-185 | the range in plain terms: pre-releases of 2.5.0 are inside, those of 2.2.0 outside |
| `EventWorker.WorkerLoop` | k8s/upgrade/src/bin/upgrade-job/events/event_recorder.rs:137-163 | over any outcomes of its waits the worker makes one attempt after each: at the event it was handed, or again at the last one if its timer fired, until the channel is closed; so every event is attempted, in order and at least once |
| `EventWorker.EveryTimerRepublishes` | k8s/upgrade/src/bin/upgrade-job/events/event_recorder.rs:158-161 | for every interleaving there is one attempt for each event taken and one more for each timer that fired |
| `EventWorker.SentIsWhatWasSent` | k8s/upgrade/src/bin/upgrade-job/events/event_recorder.rs:189-195 | the channel takes every event, in order, until the sender is dropped |
| `EventWorker.WorkerStuttersSentEvents` | k8s/upgrade/src/bin/upgrade-job/events/event_recorder.rs:137-163 | for every interleaving of senders and worker: the attempts are a beginning of the sent events, each at least once; all of them once the worker has exited; and nothing that was not sent |
| `EventWorker.ExitIsFinal` | k8s/upgrade/src/bin/upgrade-job/events/event_recorder.rs:144-162 | nothing is attempted after the worker has exited |
| `EventWorker.ShutdownDrains` | k8s/upgrade/src/bin/upgrade-job/events/event_recorder.rs:252-258 | once the sender is dropped the worker can always publish what is left and exit, within two steps for each queued event |
| `SetFile.CreateConfigMapData` | k8s/upgrade/src/plugin/upgrade.rs:953-979 | the loop computes `ConfigMapData`, errors included |
| `SetFile.CreateHelmSetFileArgs` | k8s/upgrade/src/plugin/upgrade.rs:982-1010 | the loop computes the joined `JobArgs`, errors included |
| `SetFile.JobArgsNameTheFiles` | k8s/upgrade/src/plugin/upgrade.rs:953-1010 | whatever the config map accepts the job arguments accept; the i-th is key i, `=`, the mount path, `/` and the name of an entry with exactly the content of file i, also when paths repeat |
| `SetFile.ConfigMapAcceptedIff` | k8s/upgrade/src/plugin/upgrade.rs:959-966 | accepted exactly when every argument splits at `=` in two and its file can be read |
| `SetFile.JoinSplits` | k8s/upgrade/src/plugin/upgrade.rs:1007-1007 | joined arguments without commas are had back by splitting at the commas |
| `SetFile.JobArgsFailIff` | k8s/upgrade/src/plugin/upgrade.rs:990-1005 | the first argument that does not split, or whose path has no entry, decides the error |
| `SetFile.SplitArg` | k8s/upgrade/src/plugin/upgrade.rs:960-965 | an argument is refused exactly when it has no or more than one `=` |
| `SetFile.DecimalRoundTrip` | k8s/upgrade/src/plugin/upgrade.rs:970-974 | entry numbers written as text are told apart |
| `UpgradeResources.RunCommands` | k8s/upgrade/src/plugin/upgrade.rs:748-790 | over any sequence of create and delete commands aborted anywhere, every object always has what it depends on; a completed create leaves all five objects, a completed delete none |
| `UpgradeResources.CreateUpgradeResources` | k8s/upgrade/src/plugin/upgrade.rs:748-768 | keeps the dependencies met after every call, and creates all five |
| `UpgradeResources.DeleteUpgradeResources` | k8s/upgrade/src/plugin/upgrade.rs:771-790 | keeps the dependencies met after every call, and deletes all five |
| `UpgradeResources.ObjectAction` | k8s/upgrade/src/plugin/upgrade.rs:399-457 | creates or deletes one object unless it is there, or gone, already |
| `UpgradeResources.ConfigMapAction` | k8s/upgrade/src/plugin/upgrade.rs:589-662 | replaces or deletes the config map and touches nothing else |
| `Percentile.PercentileLaws` | call-home/src/math.rs:5-47 | for sorted data any percentile is defined, lies within the data and grows with the percentage |
| `Percentile.PercentileInterpolates` | call-home/src/math.rs:5-47 | the p-th percentile of n >= 2 values is the value at position (n + 1) p / 100: the first or last value outside the data, and on the line between the two neighbours inside |
| `Percentile.PercentileOfWholeRank` | call-home/src/math.rs:13-35 | where (n + 1) p / 100 is a whole k within the data it is the k-th value |
| `Percentile.PercentileOfEvenData` | call-home/src/math.rs:13-47 | on evenly spaced data it grows in proportion to the percentage |
| `Percentile.PercentilesOfSeven` | call-home/src/bin/callhome/collector/report_models.rs:478-484 | of seven sorted values the 4th, the 6th and the last are reported |
| `Percentile.RoundIsNearest` | call-home/src/bin/callhome/collector/report_models.rs:541-541 | rounding goes to the nearest whole number, upwards from the middle |
| `Percentile.NoDataNoPercentiles` | call-home/src/bin/callhome/collector/report_models.rs:537-542 | a percentile is missing only without data, which is reported as 0 |
| `Percentile.PercentileOfWholePosition` | call-home/src/math.rs:24-35 | at a whole position the percentile is that data point |
| `Percentile.PercentileIsLinear` | call-home/src/math.rs:42-47 | on evenly spaced data the percentile lies on the straight line through the data, at every position within |
| `Percentile.ReportedPercentilesAreOrdered` | call-home/src/bin/callhome/collector/report_models.rs:478-484 | the reported 50%, 75% and 90% values are ordered and stay within the data, rounded as they are |
| `Percentile.ReportedPercentilesIgnoreOrder` | call-home/src/bin/callhome/collector/report_models.rs:537-542 | the reported values do not depend on the order of the input |
| `Percentile.SortedIsUnique` | call-home/src/bin/callhome/collector/report_models.rs:538-538 | sorting has one result, whatever the algorithm |
| `DiskReport.NewStorageMedia` | call-home/src/bin/callhome/collector/report_models.rs:226-250 | each type's entry covers exactly the devices of that type, no other type has one, and entries add up to the reported totals |
| `DiskReport.NewMayastorManagedDisks` | call-home/src/bin/callhome/collector/report_models.rs:349-415 | capacities add up to those of all pools with a state, a known node and a disk; counts to the distinct devices plus the unresolved pools; each type holds its own share of both |
| `DiskReport.TotalGrows` | call-home/src/bin/callhome/collector/report_models.rs:382-395 | adding to one type adds as much to the total |
| `DiskReport.ShareOf` | call-home/src/bin/callhome/collector/report_models.rs:359-411 | which pools count, with what capacity, on which device |
| `DiskReport.ShareResolves` | call-home/src/bin/callhome/collector/report_models.rs:366-431 | the share goes to the disk of the first device of the node that has the path as a link or in its name, which for a partition is the first device whose name contains its parent, if any; to no device exactly when none matches |
| `DiskReport.DevicePath` | call-home/src/bin/callhome/collector/report_models.rs:434-443 | what follows the last protocol separator, up to the first `?`, which it does not contain |
| `DiskReport.AfterLastSplits` | call-home/src/bin/callhome/collector/report_models.rs:437-437 | what is taken as the part after the protocol ends the entry, comes right after a separator if there is one, and has none itself |
| `DiskReport.Contains` | call-home/src/bin/callhome/collector/report_models.rs:424-430 | a name contains a part exactly when the part occurs at some position |

## Left out

- REST, Kubernetes, helm and yq themselves, temporary files, regular expressions and serialization: they are parameters or assumptions.
- Sleep durations and wall-clock time: only the order of observations matters.
- Floating-point rounding and integer overflow in the statistics: values are exact reals and unbounded integers.
- Errors of typed deserialization of values files, and fields that must be present there: `Text` and `Flag` give defaults instead; the files of `MigrationWitnesses` have all fields that must be present.
- The text of the old scrape configuration, the parsing of the extra client configuration and the classification of disks: parameters.
- Build metadata in versions, and the parsing of version strings.
- The intent behind writing the jaeger-operator tag from the source and behind laying all init containers over one object: the laws say what the two paths end as, not what they should.
- The order of the two CRD toggles, which the source leaves to a hash map: the model sets the snapshot toggle first; the two paths do not interact.
- The config map does not take part in the dependencies of the upgrade resources: it is replaced while a job may exist.
- Listing.ListPaged: one listing is one call of the protocol, so a failure between two pages shows as a failure of the whole listing.
- DataPlane.DeleteDataPlanePod: the pod's namespace and deletion parameters are not modelled.
- Node and replica figures of the report (`StorageNodes::new`), mean, minimum and maximum, event counters: easy members only.
- The metrics exporter, supportability dumps, proxy, command lines, console output and error texts.
- Chart templates and release scripts.
