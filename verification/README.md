# nanok8s boot, snapshot and restore: a verified model

nanok8s runs a single-node Kubernetes control plane on an image-based (ostree) host. At every boot it may restore a backup
that greenboot asked for, snapshots what the last healthy boot left on disk, lets Ensure and kubelet at the live data,
passes six gates, prunes old backups and commits `last-boot.json`. This project models that protocol over a file system on
which power can fail inside every call that works file by file, and proves what it guarantees over all runs. Two smaller
parts are modelled beside it: the concurrent wait for the control plane, and the teardown and life cycle of a node
(`reset`, `bootstrap`).

`dafny verify dfyconfig.toml` checks everything.

## How it is built

| file | what it holds |
|---|---|
| `FileSystem.dfy` | the node as a mutable `Host`: live data, `.restoring` siblings, backups, state directory; the operating-system calls, each answering ok, an error, or cut by a power loss |
| `Names.dfy`, `Sorting.dfy` | backup names and the two ways they are taken apart; the library sorts |
| `State.dfy`, `Backup.dfy`, `Ostree.dfy`, `Recovery.dfy`, `Lifecycle.dfy` | the Go packages, method by method, each proved against a specification over the disk |
| `BackupLaws.dfy` | what snapshot, restore and prune promise together |
| `Protocol.dfy`, `Invariant.dfy`, `Safety.dfy`, `Scenario.dfy` | the boot protocol as a transition system, its inductive invariant, the results over all runs, and particular histories: one with a rollback in it, and one for each thing that can go wrong |
| `Readiness.dfy` | `waitAllReady` in every interleaving |
| `Mounts.dfy`, `Reset.dfy`, `Bootstrap.dfy`, `NodeLife.dfy` | unmounting, reset, bootstrap, and the histories of a node |

The two layers meet in `Lifecycle.Boot`: the method runs the source's statements against a `Host` and carries a ghost
trace, and its contract says that the trace is a run of the protocol made of Boot's own stages (`Protocol.Own`). `Safety`
then speaks about runs, and `Safety.BootGoesOn` puts the traces of `Boot` into them. `Host` counts the calls that were cut
or failed although nothing on disk was in their way; the contracts say that nothing else makes a method fail, and what a
method gets done when no call fails, or when one does. It also records, in order, what leaves no mark on disk: gates passed,
addons applied, READY sent, the cluster stopped, mounts detached, subtrees removed. A label of the protocol is a whole stage, with every state a power
cut inside it can leave; a cut is a power loss, or nanok8s being killed while the machine stays up. Between stages the
surroundings move: power loss and a fresh boot id, a choice of deployment, the running cluster writing anything, deployments
staged and collected, the marker placed, a bootstrap or a reset, the service killed or restarted.

`w.final[b]` is history: the managed live data at the moment kernel boot `b` went down. A backup covers five managed
members: the etcd tree, the kubernetes tree and three kubelet files.

## What the code relies on

`Protocol.Assumed` lists the hypotheses of the results over all runs. For these a lemma gives the exact condition, on what
is there before the call, under which the code is right without them:

- Deployment ids have no underscore. Prune cuts names at the first underscore, the lookup of the latest backup uses a
  prefix: `Names.GroupingsAgreeIff`, `BackupLaws.PruneSparesLatestIff`.
- Prune is not cut in the middle of removing a backup of a deployment that is still known. The removal works in place on
  the final name and refreshes its time stamp: `BackupLaws.CutPruneHarmlessIff`.
- An error after the restore marker was found occurs when the recorded boot is covered by its backup, or leaves the managed
  live data as it was, or leaves the marker in place. Otherwise the marker is dropped on the error return, and the next boot
  snapshots half-restored data: `BackupLaws.FailedRestoreHarmlessIff`, and as a history `Scenario.RestoreErrorCostsData`.
- A node whose restore was cut while the recorded boot was not covered comes up in the same deployment again, or in one
  that has a backup: `BackupLaws.SwitchedDeploymentHarmlessIff`, and as a history `Scenario.SwitchedDeploymentCostsData`.
- A bootstrap writes live data only when the recorded boot is covered by its backup, or is the running one. A forced
  bootstrap asks nothing: `NodeLife.ForcedBootstrapHarmlessIff`.
- Boot ids end in neither `.tmp` nor `.restoring`: `Names.SuffixOfJoin`.

These stand as they are:

- Boot ids are fresh for each kernel boot and not empty.
- Deployment ids are not reused after they were collected, and the booted deployment is not collected.
- Successive snapshots get strictly increasing time stamps.
- A restore marker is not consumed while kubelet runs: greenboot places it after the last attempt of a kernel boot.
- A reset that is not completed leaves backups and records alone, and live data too unless the last boot is secured; a
  completed one may happen at any time. What a reset does to a node is in `Reset` and `NodeLife`.
- Durable steps happen in order.

`Scenario.RollbackHappens` shows that the hypotheses can be met together with everything the rollback theorem asks for.

## Where the documentation says otherwise

The code was followed.

- README.md:41 and README.md:82 call the service oneshot and ordered before kubelet. The unit is of type notify and not so
  ordered; when snapshots are nevertheless not taken beside a running cluster is `Safety.QuiescentSnapshots`, exactly
  `Safety.QuiescentIff`; that the remaining case happens is `Scenario.SnapshotBesideCluster`.
- internal/backup/backup.go:25-29 says that a crash never leaves a half-written destination. That holds
  (`BackupLaws.CutsNeverMix`), but a crash can leave a destination partly removed or absent, because Restore removes the
  live tree before the rename and Prune removes in place.
- internal/lifecycle/boot.go:196-197 says that the marker is always cleared. A failing clear is only logged, and a crash keeps
  the marker (`Recovery.MaybeRestore` says exactly when it is gone); the latter is what makes an interrupted restore safe (`BackupLaws.MarkerGuardsRestore`).
- internal/state/state.go:80-91 counts the API server manifest as evidence of an earlier bootstrap. A restore takes it away for
  a while: `NodeLife.ExistsThroughRestoreIff`.

## Model

| member | source | states |
|---|---|---|
| `Safety.SnapshotFidelity` | internal/lifecycle/boot.go:86-120 | In every world of every run, a listed backup of a known deployment names the boot it belongs to and holds exactly the managed live data of the moment that boot went down, whatever failed, was retried, cut, upgraded or rolled back in between |
| `Safety.Rollback` | internal/lifecycle/boot.go:198-240 | Once m has written its record and another boot has got past Create with last-boot unchanged in between, boots of other deployments may fail, be killed or cut anywhere, also inside or after their commit, be restored for, or commit: as long as no boot of m's deployment takes the record over and the node is not reset, a nil return of maybeRestore with the marker in place and m's deployment booted has restored; last-boot is m, version included, the managed live data is as m left it when it went down, and the snapshot stage that follows changes nothing |
| `Safety.MarkerIsObeyed` | internal/lifecycle/boot.go:212-240 | With the marker in place and a backup of the booted deployment on the list, nil means that a backup was chosen and restored |
| `Safety.OwnBackupRestored` | internal/lifecycle/boot.go:212-240 | With the marker in place, nil means that the newest backup of the booted deployment is live and on record, and that it is what its boot left |
| `Safety.WriteAhead` | internal/lifecycle/boot.go:92-130 | Once a boot other than the recorded one has let Ensure or kubelet write live data, a complete backup of the recorded boot exists that holds what that boot left, if it has ids and its deployment is known |
| `Safety.QuiescentSnapshots` | internal/lifecycle/boot.go:102-128 | Create changes nothing on disk while kubelet runs, in every run with restarts of the service within a boot, after failures, kills and healthy boots, as long as the recorded boot's deployment is known |
| `Safety.QuiescentIff` | internal/lifecycle/boot.go:102-107 | Beside the running cluster a snapshot stage is sure to copy nothing exactly when none is owed, when the recorded boot's deployment is known, or when its backup is there |
| `Safety.LastBootsBackupIsNewest` | internal/backup/backup.go:240-283 | The recorded boot's backup, whenever it exists, is strictly newer than every other backup of its deployment |
| `Safety.NoBackupNamesTheRunningBoot` | internal/lifecycle/boot.go:102-107 | No listed backup of a known deployment carries the id of the running kernel boot |
| `Safety.AlwaysRestorable` | internal/lifecycle/boot.go:226-230 | In every run, whatever a marker can ask to restore for the booted deployment has its metadata |
| `Safety.Provenance` | internal/lifecycle/boot.go:120-190 | Whatever last-boot or a listed backup's metadata names committed at an earlier step, and before that commit, in one and the same attempt of nanok8s, passed the six gates one after the other in the source's order; a healthy phase means last-boot is this boot |
| `Safety.AttemptSoFar` | internal/lifecycle/boot.go:120-150 | Whoever has got to a gate has passed the gates before it, in order and in this attempt |
| `Safety.LastBootChanges` | internal/lifecycle/boot.go:164-240 | Short of a reset last-boot changes in two ways only: the running boot commits, having passed all gates in order in this attempt, or, with kubelet down, the newest backup of the booted deployment is restored, whose data is then live |
| `Safety.WentDownOnce` | internal/lifecycle/boot.go:92-107 | A kernel boot goes down once, so the data it left is well defined |
| `Safety.FinalIsAMoment` | internal/lifecycle/boot.go:92-107 | The data recorded for a finished boot is the managed live data of a world of the run in which that boot had just gone down |
| `Safety.StepKeepsOwnBackup` | internal/lifecycle/boot.go:86-170 | While no boot of m's deployment takes the record over and the node is not reset, every step keeps m's backup the newest of its deployment, and last-boot at m or a boot of another deployment; last-boot stays m unless a commit writes its record or another deployment is restored for |
| `Safety.OwnBackupAtRollback` | internal/lifecycle/boot.go:102-170 | From the snapshot of m to the rollback, whatever other deployments do in between, m's backup is kept and stays the newest of its deployment |
| `Safety.RunGoesOn` | internal/lifecycle/boot.go:63-191 | A run extended by a trace of Boot and its surroundings within the hypotheses is a run: all results apply to what Boot does |
| `Safety.BootGoesOn` | internal/lifecycle/boot.go:63-191 | Every trace of Boot continues a run, if its restore and prune stages and the deployments that come and go meanwhile are within the hypotheses; nothing is assumed of its other steps |
| `Safety.BootSnapshotsFirst` | internal/lifecycle/boot.go:86-120 | A run of nanok8s on a quiet node changes live data by its restore only until its first gate, so the snapshot is taken of what the restore, or the last boot, left |
| `Invariant.InitInv` | internal/lifecycle/boot.go:63-100 | A node that never completed a boot satisfies the invariant |
| `Invariant.StepKeepsInv` | internal/lifecycle/boot.go:63-191 | The invariant is inductive: every stage in every outcome, every power loss, and every step of the surroundings keeps it |
| `Invariant.RunKeepsInv` | internal/lifecycle/boot.go:63-191 | The invariant holds in every world of every run |
| `Invariant.RestoreStageKeepsInv` | internal/lifecycle/boot.go:198-240 | maybeRestore, completed, failed or cut anywhere, keeps the invariant |
| `Invariant.SnapshotStageKeepsInv` | internal/lifecycle/boot.go:92-107 | The snapshot of the previous boot, completed, failed or cut anywhere, keeps the invariant |
| `Invariant.GateKeepsInv` | internal/lifecycle/boot.go:120-150 | A gate keeps the invariant although Ensure, kubelet and the cluster write live data |
| `Invariant.PruneKeepsInv` | internal/lifecycle/boot.go:156-162 | Prune keeps the invariant, in whatever place it stops, unless it tears a backup of a known deployment |
| `Invariant.CommitKeepsInv` | internal/lifecycle/boot.go:164-170 | The commit keeps the invariant, cut or not |
| `Invariant.PowerOffKeepsInv` | internal/lifecycle/boot.go:63-191 | A power loss at any point keeps the invariant |
| `Invariant.EndsKeepsInv` | internal/lifecycle/boot.go:63-191 | However a stage ends, done, failed, killed or cut, the invariant holds afterwards |
| `Invariant.BootstrapKeepsInv` | cmd/nanok8s/bootstrap.go:34-60 | A bootstrap keeps the invariant if it writes live data only when the last boot is secured |
| `Invariant.ResetKeepsInv` | cmd/nanok8s/reset.go:59-83 | A completed reset keeps the invariant; so does one that is not completed if it leaves backups and records, and live data unless the last boot is secured |
| `BackupLaws.NewestIsSpared` | internal/backup/backup.go:269-283 | Prune never chooses the newest backup of a known deployment for removal, hence never the recorded boot's own |
| `Invariant.OwnBackupIsNewest` | internal/backup/backup.go:240-283 | The recorded boot's backup is the newest of its deployment |
| `Scenario.RollbackHappens` | packaging/greenboot/red.d/40-nanok8s-pre-rollback.sh:15-28 | For any live data there is a run that meets every hypothesis of the rollback theorem, and its promise: commit, failing upgrade, marker, restore |
| `Scenario.SnapshotBesideCluster` | internal/lifecycle/boot.go:102-162 | There is a run in which the recorded boot's deployment is collected and its backup pruned, the commit fails, and the restarted service then snapshots the last boot beside the running cluster, with data that boot never had |
| `Scenario.RestoreErrorCostsData` | internal/lifecycle/boot.go:206-210 | There is a history with one step outside of what is assumed, a restore that fails half way, that ends with a backup of the recorded boot, of a known deployment, that is not what that boot left; for all live data that such a failure can show |
| `Scenario.SwitchedDeploymentCostsData` | internal/lifecycle/boot.go:217-226 | The same with a cut restore and then, as the one step outside of what is assumed, a boot into a deployment that has no backup |
| `Lifecycle.Boot` | internal/lifecycle/boot.go:63-191 | Every execution, cuts and failing calls included, is a run of the protocol that consists of its own stages, in the order of the phases, with the cluster writing and deployments coming and going beside them; it returns nil exactly when that run ends healthy, and always does if no call failed, the surroundings answered and the backup to restore has its metadata; then all six gates have answered nil in order and last-boot is this boot; READY is sent exactly once by a boot that returns nil, after the addons were applied, and by no other; the last event tells what happened, the closing one naming the record found after the restore, and the failure event that the first gate to answer an error ended the boot, unless other calls failed; if the surroundings do not answer, nothing is touched; if pruning answered nil, at most one backup is left of each listed deployment and none of others |
| `Lifecycle.RestoreFirst` | internal/lifecycle/boot.go:86-90 | The run grows by one restore stage, with the outcome of maybeRestore, skipped off ostree |
| `Lifecycle.SnapshotNext` | internal/lifecycle/boot.go:92-107 | The run grows by one snapshot stage, and the record it was taken for is handed on; without a failing call it succeeds |
| `Lifecycle.TryGate` | internal/lifecycle/boot.go:109-150 | A gate counts as passed only if its own call answered nil; a failing one returns an error after leaving the failure event, and writes nothing but live data and the event; the first gate of an upgrade announces it |
| `Lifecycle.PassGates` | internal/lifecycle/boot.go:120-150 | The boot passes the gates only if all six answered nil, in the source's order, and kubelet is up then; it ends there with an error exactly at the first gate that answered one, no later one is tried, and unless another call failed the failure event is on record |
| `Lifecycle.ReconcileAddons` | internal/lifecycle/boot.go:152-154 | The addons are applied once; a failing reconcile does not fail the boot |
| `Lifecycle.PruneBackups` | internal/lifecycle/boot.go:156-162 | A failing or skipped prune does not fail the boot; the known deployments are those rpm-ostree lists, and if it succeeded at most one backup is left of each |
| `Lifecycle.PruneKnown` | internal/lifecycle/boot.go:156-162 | Prune is called with the ids of the list, on ostree hosts only; without a list nothing changes |
| `Lifecycle.DeploymentsChange` | internal/ostree/ostree.go:68-82 | Between the start of a boot and its prune deployments may come and go: the run reaches the list from any earlier one |
| `Lifecycle.CommitBoot` | internal/lifecycle/boot.go:164-170 | last-boot becomes this boot's version, deployment and boot id |
| `Lifecycle.AnnounceBoot` | internal/lifecycle/boot.go:171-190 | The closing event and then READY follow the commit and leave last-boot alone; READY is sent exactly when the boot was not cut before it, and arrives unless a call fails |
| `Lifecycle.CloseBoot` | internal/lifecycle/boot.go:171-190 | The event is the closing one of this boot and its predecessor, and READY follows it |
| `Lifecycle.BootFailed` | internal/lifecycle/boot.go:242-251 | A failing boot passes its error on, leaves last-boot, backups and live data as they are, and unless a call fails the event tells versions and cause |
| `Recovery.MaybeRestore` | internal/lifecycle/boot.go:198-240 | Without a marker nothing changes; otherwise the marker goes only after the request was dealt with, an error or a cut leaves each member old, restored or a tree on its way out, nil means restored with last-boot written, or nothing to restore; after nil, or an error past the request, the marker is gone exactly when its removal answered nil; an error comes from a failing call or from a backup without metadata; nil without a failing call leaves the event that tells which of the three answers was given |
| `Recovery.DealWithRequest` | internal/lifecycle/boot.go:212-240 | Restore, then metadata, then last-boot, then the event: nil means the newest backup of the booted deployment is live and its metadata is last-boot, or that there is none; the event tells which |
| `Recovery.RestoreFound` | internal/lifecycle/boot.go:226-239 | Restore, metadata, last-boot and event, in this order, each only after the one before it succeeded |
| `Recovery.SnapshotPrevious` | internal/lifecycle/boot.go:92-107 | Create is called exactly for a recorded boot with both ids that is not the current one, on an ostree host |
| `Backup.Create` | internal/backup/backup.go:88-136 | nil means the entry holds all managed live data with the boot's metadata, or existed before; an error or a cut changes nothing but the staging entry, and after one failing call no new copy is left there; empty ids are refused; with ids it succeeds, over any stale staging entry, unless a call fails |
| `Backup.FillAndPublish` | internal/backup/backup.go:103-135 | The new name appears only by the rename of a complete staging entry |
| `Backup.FillFolder` | internal/backup/backup.go:103-122 | The copy covers exactly the five managed members that exist |
| `Backup.RollbackTmp` | internal/backup/backup.go:317-322 | Cleaning up never turns a failure into success and touches only the staging entry, which is gone unless the removal fails |
| `Backup.ReadMeta` | internal/backup/backup.go:139-149 | Metadata is returned exactly for an entry that has it whole, unless a call fails |
| `Backup.Restore` | internal/backup/backup.go:154-185 | nil means all five members are as the backup has them, absences included; otherwise every member is old, restored or, for a tree, partly removed, and unmanaged files are untouched; etcd, kubernetes and the three files are taken in this order, none before those ahead of it were restored; a tree of the backup replaces the live one only once its copy is staged whole, and one failing call leaves no half-made copy staged; an existing backup is restored, over any staging leftovers, unless a call fails |
| `Backup.RestoreDir` | internal/backup/backup.go:327-355 | A tree is replaced through its staged sibling, or wiped if the backup lacks it; it is never half written, and no other member is touched; the live tree goes only after the copy is staged whole, so a failing copy leaves it as it was |
| `Backup.ReplaceTree` | internal/backup/backup.go:339-354 | Copy, remove, rename, in this order, and a failing copy or removal cleans the staging place up |
| `Backup.RestoreFile` | internal/backup/backup.go:359-372 | A kubelet file is old or new at every moment, and a failing copy cleans its staging place up |
| `Backup.List` | internal/backup/backup.go:189-212 | Exactly the directories with an underscore and without a work-in-progress suffix, each once |
| `Backup.LatestForDeployment` | internal/backup/backup.go:216-244 | A newest listed entry with the deployment's prefix, or the empty answer exactly when there is none |
| `Backup.Prune` | internal/backup/backup.go:249-285 | nil means the entries of unknown deployments and all but a newest entry of each known one are gone, nothing else; a failure, which only a failing call causes, or a cut leaves a state on the way there, with at most one entry torn |
| `Backup.PruneListed` | internal/backup/backup.go:257-285 | From the listing on: what is removed is settled by one newest entry per group |
| `Backup.PruneGroup` | internal/backup/backup.go:269-283 | Of a group a newest entry is kept; the others go |
| `Backup.DropUnknown` | internal/backup/backup.go:258-268 | Entries whose name up to the first underscore is no known deployment go; the rest are grouped by that part |
| `Backup.SettleGroups` | internal/backup/backup.go:269-283 | Every group keeps a newest entry, in whatever order the groups are visited |
| `Backup.RestoreRequested` | internal/backup/backup.go:288-297 | Tells whether the marker is there |
| `Backup.ClearRestoreMarker` | internal/backup/backup.go:300-305 | nil means the marker is gone; nothing else changes |
| `Backup.HeadAndTail` | internal/backup/backup.go:273-277 | The sort puts a newest entry first and the others, each once, after it |
| `BackupLaws.CreateKeepsComplete` | internal/backup/backup.go:88-149 | However a Create ends, List shows complete entries only, with metadata that gives back their name: the old ones unchanged and at most the new one |
| `BackupLaws.CreateRestoreRoundTrip` | internal/backup/backup.go:103-184 | For every live state at the snapshot, every later state and every leftover of earlier restores, restoring gives back the two trees and the three kubelet files, each by its name, absences included, and leaves everything else alone |
| `BackupLaws.RestoredSplit` | internal/backup/backup.go:154-185 | After a restore the managed part is the backup's and the unmanaged part is the old one |
| `BackupLaws.RestoredForgetsManaged` | internal/backup/backup.go:154-185 | What a restore ends with does not depend on the managed live data it found |
| `BackupLaws.CreateFirstWins` | internal/backup/backup.go:97-101 | A second Create under the same name changes nothing, whatever was written in between |
| `BackupLaws.PruneLeavesHeads` | internal/backup/backup.go:249-285 | Afterwards exactly one listed entry, a newest, remains of each known deployment that had any, none of unknown ones, and unlisted entries are untouched |
| `BackupLaws.PruneTidies` | internal/backup/backup.go:249-285 | After Prune at most one listed entry is left of each known deployment, and none of any other |
| `BackupLaws.PruneOrderIndependent` | internal/backup/backup.go:269-283 | The result does not depend on the order of the map iteration |
| `BackupLaws.PruneIdempotent` | internal/backup/backup.go:249-285 | A second Prune changes nothing |
| `BackupLaws.PruneKeepsLatest` | internal/backup/backup.go:216-285 | The restore candidate of a known underscore-free deployment is the same after Prune |
| `BackupLaws.BootedCandidateSurvives` | internal/lifecycle/boot.go:156-162 | The booted deployment's restore candidate survives pruning by the list the booted deployment was read from |
| `BackupLaws.PruneSparesLatestIff` | internal/backup/backup.go:221-268 | Prune spares a known deployment's restore candidate in every directory of entries as Create makes them exactly when its id has no underscore |
| `BackupLaws.UnderscoreLoss` | internal/backup/backup.go:258-268 | For every id with an underscore: a directory of two complete backups in which Prune removes the restore candidate |
| `BackupLaws.CutPruneHarmlessIff` | internal/backup/backup.go:262-279 | A known deployment keeps its restore candidate through every Prune, cut or failing anywhere, exactly when it has no other listed backup |
| `BackupLaws.OtherEntryMisleads` | internal/backup/backup.go:262-279 | Any other backup of the deployment can be torn by a Prune cut once its metadata is gone, and then passes for the newest |
| `BackupLaws.OnlyEntrySpared` | internal/backup/backup.go:262-279 | The only backup of a known deployment survives every Prune as the restore candidate |
| `BackupLaws.NewestIsCandidate` | internal/backup/backup.go:216-244 | The newest entry of an underscore-free deployment is what the lookup answers |
| `BackupLaws.CrashIdempotentRestore` | internal/lifecycle/boot.go:198-240 | Any number of attempts cut anywhere in maybeRestore, or failed with the marker left in place, and then one completed attempt give the live data and last-boot of one uninterrupted attempt, and the same backups |
| `BackupLaws.AttemptKeepsProgress` | internal/lifecycle/boot.go:198-240 | One more attempt, completed, cut, or failed with the marker left in place, only moves towards the restored state |
| `BackupLaws.CutsNeverMix` | internal/backup/backup.go:327-372 | Through any number of cut or failed attempts a file is the old or the restored one, whole, and a tree is one of them or part of one of them, never a mixture |
| `BackupLaws.MarkerGuardsRestore` | internal/lifecycle/boot.go:206-239 | The marker outlives everything but a written last-boot, the finding that there is nothing to restore, or an error; no backup changes |
| `BackupLaws.FailedRestoreHarmlessIff` | internal/lifecycle/boot.go:206-210 | After an error return, which drops the marker, the next snapshot under last-boot's name is the right one for every such error exactly when it had been taken before or the restore had nothing to do |
| `BackupLaws.SwitchedDeploymentHarmlessIff` | internal/lifecycle/boot.go:217-226 | The same for a cut restore after which the machine comes up in a deployment without backup |
| `BackupLaws.MarkerIsNoName` | internal/backup/backup.go:68-70 | No backup can be stored under the marker's name |
| `BackupLaws.CandidateIsGroupMember` | internal/backup/backup.go:221-268 | For an underscore-free id the prefix filter and Prune's cut select the same entries |
| `Names.FirstUnderscore` | internal/backup/backup.go:260-260 | The position of the first underscore, if there is one |
| `Names.CutInvertsJoin` | internal/backup/backup.go:68-70 | Cutting a composed name gives the deployment back exactly when its id has no underscore |
| `Names.JoinInjective` | internal/backup/backup.go:68-70 | Names of underscore-free deployments determine deployment and boot |
| `Names.GroupingsAgreeIff` | internal/backup/backup.go:221-260 | The prefix filter and the cut agree on all names exactly when the id has no underscore |
| `Names.PrefixIsCut` | internal/backup/backup.go:221-260 | ... on each name, even when one id is a prefix of another |
| `Names.SuffixOfJoin` | internal/backup/backup.go:201-203 | A backup's name carries a work-in-progress suffix exactly when its boot id does |
| `State.WriteAtomic` | internal/state/state.go:122-144 | A reader finds the old or the new document, never a torn one; nil means the new one, an error, which only a failing call causes, the old one; the other file is untouched; one failing call leaves no temporary file behind |
| `State.WriteLastBoot` | internal/state/state.go:56-62 | nil, error and cut: the record is new, old, or one of the two; nothing else on disk changes |
| `State.WriteLastEvent` | internal/state/state.go:65-67 | The same for the event |
| `State.ReadLastBoot` | internal/state/state.go:40-53 | A missing record is an answer, not an error |
| `State.Exists` | internal/state/state.go:92-107 | True exactly when a record, an event or the API server manifest is there |
| `Ostree.BootedDeploymentID` | internal/ostree/ostree.go:48-63 | The first booted deployment of the list; empty off ostree; an error exactly when the list is missing or has none |
| `Ostree.AllDeploymentIDs` | internal/ostree/ostree.go:68-82 | All ids of the list, in order |
| `Readiness.WaitAllReady` | internal/kubeclient/kubeclient.go:86-115 | It returns with the first verdict, which is the one the whole schedule leads to in the interleaving semantics; nil means every check was observed true |
| `Readiness.WaitForControlPlane` | internal/kubeclient/kubeclient.go:65-79 | nil exactly when the four checks, played together under the schedule, lead the collector to it; then the node and the three control-plane pods were all observed ready |
| `Readiness.Waiter.TakeTurn` | internal/kubeclient/kubeclient.go:88-114 | One turn of a goroutine, the collector or the context does what the interleaving semantics says, and nothing if it is not its turn |
| `Readiness.AllReadyMeansAllSeen` | internal/kubeclient/kubeclient.go:86-115 | In every interleaving, nil is returned only after every check was seen true; then every goroutine has posted and gone and the channel is empty |
| `Readiness.TakeKeepsInv` | internal/kubeclient/kubeclient.go:86-115 | Every turn keeps: each goroutine posts at most once, and remaining is the number of checks minus the posts consumed |
| `Readiness.PlayKeepsInv` | internal/kubeclient/kubeclient.go:86-115 | ... in every interleaving of any number of checks |
| `Readiness.PostNeverBlocks` | internal/kubeclient/kubeclient.go:87-94 | A goroutine with a result to post always has room in the channel |
| `Readiness.CollectorNeverStarves` | internal/kubeclient/kubeclient.go:103-113 | The collector never waits for a post that no goroutine is left to make |
| `Readiness.TimeoutCounts` | internal/kubeclient/kubeclient.go:107-111 | The count in the timeout error is the number of posts not consumed, more than zero, and the context was cancelled |
| `Readiness.CanStillSucceed` | internal/kubeclient/kubeclient.go:86-115 | From every reachable state of a wait that is neither cancelled nor decided, if every check passes from now on, a continuation without cancellation returns nil, for every number of checks |
| `Readiness.EveryoneCanPost` | internal/kubeclient/kubeclient.go:88-100 | ... first every goroutine gets from wherever it is to its post |
| `Readiness.CollectorCanFinish` | internal/kubeclient/kubeclient.go:103-106 | ... then the collector counts the posts down to the last one and answers |
| `Readiness.DecidedStays` | internal/kubeclient/kubeclient.go:104-114 | A verdict is final |
| `Readiness.CancelEndsTheWait` | internal/kubeclient/kubeclient.go:107-111 | At every moment a cancellation lets an undecided collector answer at once, with the number of posts it has not seen |
| `Readiness.EveryoneCanLeave` | internal/kubeclient/kubeclient.go:88-101 | After cancellation all goroutines can finish one by one without the collector |
| `Readiness.Pigeonhole` | internal/kubeclient/kubeclient.go:86-115 | Distinct posts below n are n in number exactly when none is missing |
| `Mounts.UnmountKubeletMounts` | cmd/nanok8s/reset.go:170-200 | Never fatal; only paths that start with /var/lib/kubelet/ are detached; each target is attempted once whatever the earlier ones answered, no mount point before one that lies inside it, and the counter is the number of successes |
| `Mounts.CollectTargets` | cmd/nanok8s/reset.go:180-187 | The targets are the second fields, below the kubelet directory, of the lines that have one |
| `Mounts.DetachAll` | cmd/nanok8s/reset.go:189-196 | A failing unmount does not stop the others |
| `Mounts.TargetsAreTheMountsBelow` | cmd/nanok8s/reset.go:176-187 | For every mount table a path is to be detached as often as it is mounted, if it starts with /var/lib/kubelet/, and otherwise never |
| `Mounts.SortedPutsChildrenFirst` | cmd/nanok8s/reset.go:188-188 | Reverse lexicographic order puts every mount point after those inside it |
| `Mounts.ProperPrefixIsLess` | cmd/nanok8s/reset.go:188-188 | The lexicographic order refines the prefix order |
| `Mounts.LaterFirstIsWeakOrder` | cmd/nanok8s/reset.go:188-188 | The comparison handed to the sort is a weak order |
| `Mounts.SplitLosesNothing` | cmd/nanok8s/reset.go:180-181 | Splitting takes a text apart at every separator and loses nothing |
| `Mounts.TargetsOfTable` | cmd/nanok8s/reset.go:180-187 | Reading back a printed mount table finds its targets, in its order |
| `Reset.Reset` | cmd/nanok8s/reset.go:38-57 | Without --yes nothing changes and nothing is done; with it the cluster is stopped, then all mounts below the kubelet directory are detached, then the four subtrees are removed; nil, which only a failing call prevents, means records, backups and the kubernetes tree are gone, so that the node no longer exists, and with the cluster stopped all live data is; without a failing call the cluster is stopped; while the kubernetes tree is left, or anything live of a stopped cluster, the records stay |
| `Reset.RunReset` | cmd/nanok8s/reset.go:59-83 | Stop, detach, remove, in this order; stopping and unmounting may fail; the removals are what counts, and they start from what the cluster left |
| `Reset.Quiesce` | cmd/nanok8s/reset.go:59-64 | The cluster is stopped, then every mount below the kubelet directory detached, children first; only a cut ends it early, and without a failing call nothing of the cluster runs afterwards |
| `Reset.RemoveTargets` | cmd/nanok8s/reset.go:66-76 | The four subtrees go in order up to the first failure, records and backups last; the staged siblings of the two trees stay |
| `Bootstrap.Bootstrap` | cmd/nanok8s/bootstrap.go:34-60 | An existing node, one with the API server manifest included, is refused unless forced, and nothing changes; nor does it without configuration or host name; otherwise it succeeds unless a call fails; nil means Ensure answered nil and the event is on record; an error leaves the records as they were; with kubelet down the etcd tree is left alone |
| `NodeLife.RecordStays` | internal/state/state.go:92-107 | In every history without a reset in between, a recorded node stays recorded, through boots, restores, prunes, power losses and bootstraps |
| `NodeLife.RefusedWhileRecorded` | cmd/nanok8s/bootstrap.go:34-42 | ... so an unforced bootstrap is refused and changes nothing |
| `NodeLife.BootstrapOncePerReset` | cmd/nanok8s/bootstrap.go:34-60 | Between two bootstraps that both succeed, the second unforced, there is a reset |
| `NodeLife.FreshAfterReset` | cmd/nanok8s/reset.go:66-76 | After a successful reset the node does not exist for bootstrap, even if the cluster could not be stopped |
| `NodeLife.HalfResetStillRefuses` | cmd/nanok8s/reset.go:66-76 | After a reset that left the kubernetes tree, or anything live of a stopped cluster, an unforced bootstrap of a recorded node is still refused |
| `NodeLife.ForcedBootstrapHarmlessIff` | cmd/nanok8s/bootstrap.go:34-60 | After a forced bootstrap, however it goes, the next snapshot of the last boot is the one it would have been exactly when it had been taken before |
| `NodeLife.ExistsThroughRestoreIff` | internal/state/state.go:92-107 | With a restore under way the node exists at every moment it can be cut exactly when a record exists; the manifest alone is not enough |
| `Safety.StepKeepsRecord` | internal/state/state.go:56-67 | No step of the boot protocol but a reset takes the records away |

## Left out

- The kubeadm phases behind Ensure, RBAC, node marking and addons: a gate answers ok, an error, or is cut, and may have written live data.
- Running `cp`, `systemctl`, `rpm-ostree`, `crictl` and unmount, HTTP probing and kubeconfig loading: their answers are arbitrary.
- Timeouts as real time: cancellation of a wait may happen at any moment.
- JSON and YAML encodings, configuration loading and validation, command-line parsing, log and MOTD text, shortened ids: field-by-field work over library parsers.
- fsync, write reordering, permissions, ownership and reflinks: Create does no syncing, so durable steps are taken to be ordered.
- What a copy that was cut leaves in its staging place: anything at all. A removal that was cut leaves part of what was there.
- Backup.Prune: a failing os.Stat inside the sort of a group would panic; there the time stamps are taken to be readable.
- Safety.QuiescentSnapshots: promises nothing once the recorded boot's deployment has been collected; Safety.QuiescentIff says exactly when. No deployment that is known restores that backup.
- Lifecycle.Boot: the trace of a cut execution ends in a power loss; that the same cut may be a kill is in the protocol.
- Lifecycle.BootFailed: the reason in the event text is not the cause's text.
- Recovery.NoteEvent: an event whose write fails is lost unnoticed, as in the source, so what an event says is promised for executions in which no other call fails.
- Reset.Reset: only the four listed subtrees; the `.restoring` siblings of the etcd and kubernetes trees stay, and the network interfaces, iptables and ipvs cleanup afterwards is not modelled.
- Invariant.ResetKeepsInv: a reset while a boot is under way ends that boot; nanok8s going on beside it is in no run.
- Reset.RunReset: a crictl that is missing counts as a failing call; the containers that outlive kubelet count as the cluster still running; it goes on writing its own data, taken not to be under /etc/kubernetes, so claims about the other live members are for a cluster that was stopped.
- Mounts.UnmountKubeletMounts: what a lazy unmount does to the mounts inside the one it detaches; a path is attempted as /proc/mounts prints it, escapes included.
- Readiness.WaitAllReady: the error text; the scheduler is a sequence of turns, with no fairness, so only the possibility of finishing is shown.
- State.Exists: a state file is there or not; other errors of os.Stat end it.
