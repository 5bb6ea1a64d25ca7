# A model of the Galera operator

The operator keeps a MariaDB Galera cluster running on Kubernetes. It watches one custom
resource and reconciles in rounds: a round reads a snapshot of the pods and volume claims, sorts
the pods, sets role labels, collects claims, and then creates, upgrades or deletes at most a few
objects. This project models that loop, the bootstrap program's configuration rewriter and the
version check, and proves what they guarantee.

## How the model is built

* `ApiStore` is the world: pods, data and backup claims, and the calls that change them. Objects
  are keyed by the suffix of their name; `Names` proves that suffix and kind determine a member's
  name. A history variable records which revisions the data on a claim was made ready for.
* `Round` and `Sync` say what a round and a sync do: the list of calls planned from a snapshot, the
  error it may end in, and the status it returns. A real round issues a prefix of its plan: the
  first rejected call, a refused or unsynced deletion, a failed mysql_upgrade or a crash ends it.
* `Control`, `Status.GaleraStatus`, `Bootstrap`, `Names`, `Revisions.RevisionStore`, `MyCnf` and
  `Versions` hold the imperative counterparts: the operator's loops and in-place updates, each
  method proved to issue exactly the specified calls, as far as the API accepts them, and to leave
  exactly the specified status. Of `Control.GaleraControl` the table lists the results, `SyncPhases`,
  `RunGalera` and `ScheduleGaleraRestore`; the methods they call, one for each step or loop of
  galera_control.go and galera_pod_control.go, are their helpers and have no rows.
* `Protocol` turns rounds into a state machine: syncs begin with any spec and any answers, their
  calls are issued one at a time, other actors act between any two, and the operator may stop
  between any two. `LabelRuns` carries the properties of single rounds to all reachable states.
* `RollingUpgrade`, `UpgradeProgress`, `UpgradeRuns` and `ScaleDown` prove progress with a round as
  one step; `UpgradeCrashes` does so for an upgrade whose rounds are cut off anywhere.
* `BootstrapRuns` gives runs of the state machine, from the empty world, that end in the snapshots
  of `SecondBootstrap`.
* `Decisions`, `Endings` and `Phases` say what every round does, case by case, in terms of the pods
  and claims of its snapshot and without the functions of `Round` that compute it: whom it deletes,
  upgrades, creates or replaces, and which counters, phase and conditions it returns. `Restores` does
  so for the phases around a restore.
* `RoundFacts`, `Calm`, `Claims`, `Creation`, `Disruption`, `Promotion`, `Roles` and
  `SecondBootstrap` hold the other properties of rounds.

## What does not hold

Some expectations a reader of the code may have are false. Each has a lemma that shows it, and one
that says when the expectation is met.

* With three or more ready pods, a role granted to fill a single gap is taken back in the same
  round: the candidate for backup writer is recorded as writer (galera_control.go:1003), and the
  last patch replaces its labels from the snapshot. Its pod is then not even a reader
  (`Roles.ManyGrantNothing`; at three pods: `SecondBootstrap.GrantIsTakenBack`).
* Two ready pods labelled writer in one snapshot leave no address to join, so the next pod is told
  to start a new cluster (`SecondBootstrap.TwoWritersBootstrapAgain`; exactly when:
  `Creation.BootstrapExactly`). A lone ready backup writer leads there, because the branch for one
  ready pod does not record the writer it makes
  (`SecondBootstrap.LoneBackupWriterGetsASecondWriter`, `SecondBootstrap.OneLeadsToTheOther`; a
  run from the empty world: `BootstrapRuns.SecondBootstrapIsReached`). A ready member without any
  label, such as the labelling of three pods leaves behind
  (`SecondBootstrap.OverlookedIsLeftBehind`), has the same effect
  (`SecondBootstrap.OverlookedMemberBootstrapsAgain`).
* A refused change of version keeps the template but not the revision (galera_control.go:367-372):
  pods are created from the current template under the next revision's label, replaced, and
  promoted (`UpgradeRuns.RefusedUpgradeIsPromoted`; exactly when a pod's label and image part:
  `Creation.RefusedChangeIsLabelledNext`).
* A negative history limit makes truncateHistory slice beyond its list
  (`Revisions.RevisionStore.TruncateHistory` says when at once, and when only after the whole
  history is deleted).
* While a restore is scheduled, the deletion of a failed pod is counted twice, for the current and for
  the next revision, because both are the same there (galera_control.go:856-867): the counter of the next
  revision becomes -1 (`Restores.ScheduleWaits`).
* The copy of a backup begins while a claim is still being deleted, and without any pod if none is
  wanted: only the number of running pods is looked at (`Restores.CopyBeginsExactly`).
* A copy step without any claim ends in Restoring, not Failed, when no pod is left
  (`Sync.CopyWithoutClaims`).
* The failed phase of a cluster without a primary node is returned with an error and never stored
  (`LabelRuns.LossIsNeverStored`). While the cluster object is being deleted its phase comes back empty
  (`Sync.PhaseMovesForwardExactly`).
* Deleting a restore pod together with its claims always fails: the backup claim asked for first
  exists only for backups (`LabelRuns.RestorePodsCannotBeDeleted`).
* Cluster names over fifty characters are shortened in names but compared in full, so their objects
  fail the membership test (`Names.MembershipExactly`).
* Versions are compared as strings: 10.4.2 counts as greater than 10.4.12
  (`Versions.PatchTwoAgainstTwelve`; exactly when: `Versions.OrderAgreesExactly`). The comment on
  CanUpgrade speaks of a greater version, but an equal one passes, too.
* DeleteSyncedPodForUpgrade looks for a backup label with the value "backup", while the operator
  writes "true": its branch for backup claims is never taken, and the model leaves it out.
* inconsistentStatus compares neither phase nor conditions, so a round that changes nothing else
  does not store them. `Sync.Store` follows the code.

## Model

| member | source | states |
|---|---|---|
| `Protocol.EveryReachableStateIsGood` | pkg/controllers/cluster/galera_control.go:1134-1175 | In every state reachable through syncs of any kind, crashes between any two writes and environment steps: a cluster pod's data claim has the pod's revision, a claim carries only a revision it was created at or that mysql_upgrade finished for on its data, a backup claim's pod is the backup, and what the running round still has to issue keeps all this |
| `Protocol.StepKeepsGood` | pkg/controllers/cluster/galera_control.go:1134-1175 | The inductive step of that invariant for every kind of step: a sync that begins, a call that is issued, a stop, an environment step between two calls |
| `Protocol.UpgradeOnlyOnStandalonePods` | pkg/controllers/cluster/galera_control.go:1154-1158 | In every reachable state, the pod on which mysql_upgrade is run is labelled standalone |
| `Protocol.RoundIsSafe` | pkg/controllers/cluster/galera_control.go:482-814 | Every call a round plans from a snapshot of a state with the invariant will be safe when its turn comes, whatever branch the round takes |
| `Protocol.ScheduleIsSafe` | pkg/controllers/cluster/galera_control.go:817-886 | The same for the rounds of a restore schedule |
| `Protocol.UpgradeIsSafe` | pkg/controllers/cluster/galera_control.go:1146-1168 | mysql_upgrade, then the deletion, then the relabelling of the claim is safe on a healthy pod whose revision differs from its claim's |
| `Protocol.CreationIsSafe` | pkg/controllers/cluster/galera_pod_control.go:94-115 | Creating the claims and then the pod is safe under a name no pod has, with the state label computed from the claim |
| `Protocol.AllSafeBelow` | pkg/controllers/cluster/galera_control.go:1154-1168 | What other actors do between two calls of a round only removes objects and obligations: the calls still to come stay safe |
| `Protocol.CutOffSyncIsReachable` | pkg/controllers/cluster/galera_control.go:99-189 | Issuing any accepted prefix of a sync's calls and then stopping leads from a reachable state to a reachable state, so the properties of reachable states hold after every sync, completed or not |
| `UpgradeRuns.UpgradeEnds` | pkg/controllers/cluster/galera_control.go:482-814 | Rolling upgrade of a cluster of three without special node whose claims match the next claim spec: in any interleaving of whole rounds and environment steps at most 36 steps are productive, and once the measure of the start is used up it is zero |
| `UpgradeRuns.FairRunFinishes` | pkg/controllers/cluster/galera_control.go:482-814 | In such an upgrade, if every step is productive until the upgrade is done, it is done after 36 steps |
| `UpgradeRuns.RoundMoves` | pkg/controllers/cluster/galera_control.go:697-814 | Every whole round of such an upgrade keeps it at one of its stages, never increases the measure, and decreases it unless it has to wait for the environment or the upgrade is done |
| `UpgradeCrashes.CutMoves` | pkg/controllers/cluster/galera_control.go:482-814 | Every prefix of a round's calls, so a round cut off by a crash or a rejected call anywhere, keeps the upgrade at one of its stages, costs at most five steps, and none once it is done |
| `UpgradeCrashes.CutsCostAtMostFive` | pkg/controllers/cluster/galera_control.go:482-814 | Along any run of rounds, cut off or not, and environment steps, the measure plus the productive steps never exceed the start by more than six for each cut |
| `UpgradeCrashes.UpgradeSurvivesCuts` | pkg/controllers/cluster/galera_control.go:482-814 | If every step is productive, cut off or after the end, an upgrade with k cuts is done after 36 + 6k steps |
| `UpgradeCrashes.LabelsCut` | pkg/controllers/cluster/galera_control.go:902-1018 | Whatever part of the label patches was issued, the stage of the upgrade is kept |
| `UpgradeCrashes.UpgradeCutSecond` | pkg/controllers/cluster/galera_control.go:1154-1168 | A crash between the deletion of an upgraded pod and the relabelling of its claim sets the upgrade back by exactly five steps |
| `UpgradeCrashes.CreationCut` | pkg/controllers/cluster/galera_pod_control.go:94-115 | A crash between the creation of the backup's claim and that of its pod sets it back by exactly two |
| `UpgradeRuns.EnvironmentMoves` | pkg/controllers/cluster/galera_utils.go:222-252 | Every environment step (a terminating pod or claim disappears, a created pod becomes ready) keeps the upgrade at one of its stages and decreases the measure |
| `UpgradeRuns.EnvironmentCanAct` | pkg/controllers/cluster/galera_utils.go:222-252 | Whenever a round has to wait, the environment has a step to take |
| `UpgradeRuns.RunMoves` | pkg/controllers/cluster/galera_control.go:482-814 | Along any run of whole rounds and environment steps the measure plus the productive steps so far never exceed the measure of the start |
| `UpgradeRuns.DoneIsNew` | pkg/controllers/cluster/galera_control.go:1461-1497 | The measure is zero exactly when every slot holds a ready cluster member whose label and claim are at the next revision |
| `UpgradeRuns.DoneIsComplete` | pkg/controllers/cluster/galera_utils.go:507-516 | The round of a finished upgrade ends well and counts three pods, all ready and all at the next revision |
| `UpgradeRuns.UpgradeIsPromoted` | pkg/controllers/cluster/galera_control.go:1561-1580 | After a finished upgrade the next sync stores the next revision as the current one |
| `UpgradeRuns.UpgradeStart` | pkg/controllers/cluster/galera_control.go:1461-1497 | Three ready, role-complete pods at the old revision are in the upgrade, 36 productive steps from its end |
| `UpgradeRuns.UpgradeHasAStart` | pkg/controllers/cluster/galera_control.go:1461-1497 | Every configuration has such a start, which keeps the invariant of the reachable states, and a snapshot of it that a round can be run on |
| `UpgradeRuns.RefusedUpgradeIsPromoted` | pkg/controllers/cluster/galera_control.go:367-372 | A refused change of version is promoted all the same: after it the next sync stores the next revision as the current one, although its pods were created from the current template |
| `UpgradeProgress.VacantCollects` | pkg/controllers/cluster/galera_control.go:1098-1110 | A vacant slot with a backup claim left: the round deletes that claim, or waits for its deletion, and does nothing else |
| `UpgradeProgress.VacantCreates` | pkg/controllers/cluster/galera_control.go:1241-1276 | A vacant slot: the round creates a pod of the next revision under the slot's own name, standalone exactly when the data claim is older, as the backup exactly when no ready pod is |
| `UpgradeProgress.ComingWaits` | pkg/controllers/cluster/galera_control.go:1195-1237 | A created pod that is not ready yet makes the round wait |
| `UpgradeProgress.StandingUpgrades` | pkg/controllers/cluster/galera_control.go:1143-1171 | A ready standalone pod gets mysql_upgrade, is deleted, and its claim is relabelled, in this order |
| `UpgradeProgress.WholeDeletes` | pkg/controllers/cluster/galera_control.go:1474-1496 | With every slot whole, the round deletes one pod of an older revision if there is one and nothing otherwise |
| `RollingUpgrade.LabelsKeepUp` | pkg/controllers/cluster/galera_control.go:902-1018 | The labels a round sets keep the stage of the upgrade and leave both roles held, once each |
| `RollingUpgrade.RoundSees` | pkg/controllers/cluster/galera_control.go:552-687 | What the classification yields at each stage: how many pods are ready, which one is unready, which suffixes are in use |
| `Disruption.DisruptionBound` | pkg/controllers/cluster/galera_control.go:482-814 | Of the P ready primary pods other than the special node, a round that wants R leaves at least min(P, R) - 1 undeleted, on every return path and for every prefix of its calls |
| `Disruption.RoundSpares` | pkg/controllers/cluster/galera_control.go:482-814 | A round deletes at most one of those pods, and a second one only when more than R are ready |
| `LabelRuns.ReachableDisruptionBound` | pkg/controllers/cluster/galera_control.go:482-814 | The disruption bound in every reachable state, without assumptions on labels |
| `LabelRuns.ReachableLabelsAreApart` | pkg/galera/utils.go:26-55 | In every reachable state, and in every call still to be issued, a pod with a role other than writer and backup writer is neither reader nor backup |
| `LabelRuns.ReachableClaimSafety` | pkg/controllers/cluster/galera_control.go:1079-1132 | Claim safety of every sync in every reachable state |
| `LabelRuns.ReachablePromotionIsSound` | pkg/controllers/cluster/galera_control.go:1561-1580 | In every reachable state, from the stored revision and the one the sync found, the current revision moves only to the next one, and only when exactly R pods are counted, all ready and labelled with it |
| `LabelRuns.RestorePodsCannotBeDeleted` | pkg/controllers/cluster/galera_pod_control.go:322-351 | In every reachable state ForceDeletePodAndClaim fails on a restore pod before it deletes anything |
| `Roles.StoredRolesAreUnique` | pkg/controllers/cluster/galera_control.go:552-692 | After the classification and a labelling without error, the store has at most one ready writer and at most one ready backup writer, although every patch is computed from the snapshot |
| `Roles.RolesAreUnique` | pkg/controllers/cluster/galera_control.go:902-1018 | The same about the final labels, for any number of ready pods |
| `Roles.OneIsWriterAndReader` | pkg/controllers/cluster/galera_control.go:906-907 | A single ready pod ends up as writer and reader |
| `Roles.TwoShareTheRoles` | pkg/controllers/cluster/galera_control.go:908-958 | Of two ready pods the recorded writer, or without one the pod that is no backup, ends up as writer and not a reader, the other as backup writer, and as a reader unless both roles were held |
| `Roles.TwoAreNamed` | pkg/controllers/cluster/galera_control.go:908-958 | The status then names these two, each for the role it got |
| `Roles.ManyKeepHolders` | pkg/controllers/cluster/galera_control.go:1009-1015 | With three or more and both roles held, exactly the holders keep them, are recorded, and the writer is taken out of the readers |
| `Roles.ManyGrantNothing` | pkg/controllers/cluster/galera_control.go:959-1015 | With three or more: the backup-writer role is held afterwards exactly if it was before, the writer role exactly if it was or if both were missing; with a role missing some pod ends up outside the ready pods |
| `SecondBootstrap.GrantIsTakenBack` | pkg/controllers/cluster/galera_control.go:972-1015 | That, at a writer and two plain readers: one of the readers is granted the role and stripped of it and of its reader label by the same round |
| `SecondBootstrap.OverlookedIsLeftBehind` | pkg/controllers/cluster/galera_control.go:972-1015 | Those two patches start the round of that snapshot, and once the other two pods are gone they leave a ready member without labels |
| `Roles.ManyFinal` | pkg/controllers/cluster/galera_control.go:959-1015 | The exact labels each of three or more ready pods ends up with |
| `Roles.ClassifiedLabels` | pkg/controllers/cluster/galera_control.go:571-594 | The labels after the classification: every holder of a role but the first met becomes a plain reader |
| `Roles.FinalIsStored` | pkg/controllers/cluster/galera_pod_control.go:161-194 | The final labels are those in the store once the patches, each replacing a whole label map, are applied |
| `Calm.CalmIsQuiet` | pkg/controllers/cluster/galera_control.go:552-687 | A snapshot with at most one holder of each role and no unreachable pod is classified without a call |
| `RoundFacts.ClosedLists` | pkg/controllers/cluster/galera_control.go:552-689 | The ready and unready lists of the loop in closed form, for any snapshot it gets through |
| `RoundFacts.ClosedMembers` | pkg/controllers/cluster/galera_control.go:571-623 | The recorded writer, backup writer, backup and special node are the first ready primary pods with the label |
| `RoundFacts.ClosedSuffixes` | pkg/controllers/cluster/galera_control.go:686-686 | The suffixes gathered are those of the pods that are not terminating, in order |
| `RoundFacts.OrphanIs` | pkg/controllers/cluster/galera_control.go:499-541 | The first check ends the round exactly when a healthy pod lacks its claims |
| `RoundFacts.CollectsExactly` | pkg/controllers/cluster/galera_control.go:1079-1132 | The collection pass reports no operation exactly when no claim is terminating, every backup claim is used and every unused data claim matches; it then returns exactly the unused data suffixes, in order, and has issued nothing |
| `RoundFacts.CollectOffender` | pkg/controllers/cluster/galera_control.go:1088-1130 | Otherwise it ends at one offending claim, deleting it unless it is terminating |
| `RoundFacts.PickIsFresh` | pkg/controllers/cluster/galera_utils.go:131-154 | The suffix picked is nobody's, and without an unused claim on offer no data claim has it |
| `Promotion.PromotionIsSound` | pkg/controllers/cluster/galera_utils.go:507-516 | A round whose status is complete saw exactly R pods besides the special node, all ready, primary and labelled with the next revision |
| `Promotion.RevisionMovesOnlyWhenComplete` | pkg/controllers/cluster/galera_control.go:1561-1580 | In any phase and after any sync, the stored current revision is the one stored before, the one the sync found, or the next one, and the next one only after such a round |
| `Claims.SyncDeletesSafely` | pkg/controllers/cluster/galera_control.go:1079-1132 | Every claim a sync deletes, on any path, is mounted by no pod of the snapshot or its pod is deleted by the same plan |
| `Claims.RoundDeletesSafely` | pkg/controllers/cluster/galera_control.go:1400-1421 | The same for a round |
| `Creation.CreatedPodIsFresh` | pkg/controllers/cluster/galera_control.go:1240-1268 | The created pod shares its name with no pod; at most one is created; without an unused claim on offer it starts in cluster state on a claim created in the same round at its own revision |
| `Creation.InitExactly` | pkg/controllers/cluster/galera_control.go:1185-1189 | A created pod other than the special node gets CLUSTER_INIT exactly when the ready pods yield no address |
| `Creation.NoSecondBootstrap` | pkg/controllers/cluster/galera_utils.go:261-298 | With at most one ready pod per role label and an address on every ready pod, CLUSTER_INIT is given only when no pod is ready |
| `Creation.BootstrapExactly` | pkg/controllers/cluster/galera_utils.go:261-298 | The exact snapshots in which it is given: nobody ready; several ready, all writers; or, writers aside, several left, all backup writers |
| `SecondBootstrap.FirstPodBootstraps` | pkg/controllers/cluster/galera_control.go:1240-1276 | The first pod of an empty cluster is the writer, gets its claim and CLUSTER_INIT |
| `SecondBootstrap.LoneBackupWriterGetsASecondWriter` | pkg/controllers/cluster/galera_control.go:906-907 | Counterexample: a lone ready backup writer is relabelled writer without being recorded, and the next pod is created as a writer as well |
| `SecondBootstrap.OneLeadsToTheOther` | pkg/controllers/cluster/galera_control.go:902-907 | That round and its pod becoming ready lead to a snapshot with two writers |
| `SecondBootstrap.TwoWritersBootstrapAgain` | pkg/controllers/cluster/galera_utils.go:276-283 | Counterexample: in that snapshot the next pod gets CLUSTER_INIT although two members are ready |
| `SecondBootstrap.OverlookedMemberBootstrapsAgain` | pkg/controllers/cluster/galera_control.go:625-634 | Counterexample: a ready primary pod without role, backup and reader label counts for nothing, and alone it gets a neighbour with CLUSTER_INIT |
| `BootstrapRuns.LoneIsReached` | pkg/controllers/cluster/galera_control.go:99-189 | A run of syncs and environment steps from the empty world ends in the lone backup writer |
| `BootstrapRuns.SecondBootstrapIsReached` | pkg/controllers/cluster/galera_control.go:99-189 | A run from the empty world ends in the snapshot of two ready writers, in which the next sync orders a second bootstrap |
| `Creation.RefusedChangeIsLabelledNext` | pkg/controllers/cluster/galera_control.go:362-373 | A created pod always carries the next revision's label, and runs the next image exactly unless the change was refused, no upgrade was under way and the images differ |
| `PodTemplate.OnlyOperatorBootstraps` | pkg/galera/pod.go:254-276 | A container has CLUSTER_INIT, with the value true, exactly when there is no address and the operator asks for it; user variables can neither add nor remove it, and the others are kept |
| `PodTemplate.MergeEnvLists` | pkg/galera/pod.go:266-276 | The merge loop appends the variables other than CLUSTER_INIT, in order |
| `Bootstrap.BootstrapAddresses` | pkg/controllers/cluster/galera_utils.go:261-298 | The joined addresses are those of the donors, each once: a single ready pod itself; of several no writer, a backup writer only when all the others are writers, and everybody else |
| `Bootstrap.DonorsExactly` | pkg/controllers/cluster/galera_utils.go:261-298 | The same about the thinned list the specifications use; with several ready pods a special node is never among them |
| `Bootstrap.NoDonorsExactly` | pkg/controllers/cluster/galera_utils.go:261-298 | The exact lists of ready pods that leave no donor |
| `Bootstrap.AddressWheneverReady` | pkg/controllers/cluster/galera_utils.go:261-298 | With unique roles there is an address to join exactly when some pod is ready |
| `Bootstrap.DonorsAreReady` | pkg/controllers/cluster/galera_utils.go:261-298 | Every donor is one of the ready pods |
| `Bootstrap.RemoveRole` | pkg/controllers/cluster/galera_utils.go:267-274 | The deletion loop removes all the pods of a role, once more than one pod is in the map |
| `Phases.RoundPhase` | pkg/controllers/cluster/galera_control.go:1021-1073 | Phase and conditions every round returns, from the pods of its snapshot: the old ones if it ends at or before the labels or meets a terminating pod; those of a failed cluster if nobody is ready and several pods are not; otherwise Running exactly from Running or from Creating and Restoring with as many members as wanted, with the scaling, upgrading, restoring and ready conditions that belong to it |
| `Decisions.RoundGoesOn` | pkg/controllers/cluster/galera_control.go:499-687 | A round gets to the labels exactly when no running pod lacks its claims and none is unreachable, of unknown role, a second special node or a second backup; so far it has issued label patches only |
| `Decisions.BarePodGoes` | pkg/controllers/cluster/galera_control.go:499-541 | The first running pod without its claims is deleted, and nothing else happens; no pod is counted |
| `Decisions.StrangerEndsRound` | pkg/controllers/cluster/galera_control.go:552-687 | The first pod the classification stops at ends the round, after the patches that make plain readers of the pods up to it whose role one before holds: an error if it does not answer, otherwise its deletion with its claims, an error after those found if one is missing; the status counts the pods up to it and lists nobody |
| `Decisions.LabelsFailExactly` | pkg/controllers/cluster/galera_control.go:902-1018 | The labels cannot be set exactly when three or more pods are ready and fewer of them are without role and backup label than roles are unheld |
| `Decisions.CandidateIsFirst` | pkg/controllers/cluster/galera_control.go:959-1001 | The candidate for a role is the first ready pod without role and backup label, other than the one recorded as writer |
| `Decisions.EndsAtLabels` | pkg/controllers/cluster/galera_control.go:692-724 | A round that cannot set them, meets a terminating pod or finds all members lost ends with the label patches, without an error only for the terminating pod; the status counts and lists the pods of the snapshot |
| `Decisions.RoundSetsLabels` | pkg/controllers/cluster/galera_control.go:552-692 | Once the calls of any round that gets to the labels are applied, every pod of the snapshot has its final labels in the store, whatever the round did afterwards |
| `Decisions.ProceedsExactly` | pkg/controllers/cluster/galera_control.go:482-724 | The exact snapshots whose round goes beyond that |
| `Decisions.ClaimIsCollected` | pkg/controllers/cluster/galera_control.go:1079-1132 | Its next call deletes the first claim that is neither used nor fit to be used again, unless that claim is terminating, and the round ends with unchanged counts |
| `Decisions.PodIsUpgraded` | pkg/controllers/cluster/galera_control.go:1139-1175 | If all claims can stay, the first unready pod whose claim has another revision gets mysql_upgrade, is deleted and its revision is written on the claim, and nothing else happens |
| `Decisions.UnreadyPodBlocks` | pkg/controllers/cluster/galera_control.go:1195-1237 | If there is none and fewer pods are ready than wanted, the first unready pod that is not running and ready is deleted if it has failed and waited for otherwise, and the counters of its revision go down with it |
| `Decisions.MemberIsCreated` | pkg/controllers/cluster/galera_control.go:1178-1279 | If there is no such pod either, exactly one pod is created, with the claims it lacks: its role is the one due among the ready pods, its suffix that of the first unused data claim or else the first draw nobody has, it is standalone exactly on a claim of another revision, starts a new cluster exactly when there is no address to join and no restore is unfinished, and is counted for its revision |
| `Decisions.RoleIsDue` | pkg/controllers/cluster/galera_utils.go:319-330 | The role a new pod gets, from the labels of the ready ones: writer, backup writer, backup, reader |
| `Endings.RoundEnds` | pkg/controllers/cluster/galera_control.go:1392-1497 | Every round with enough ready pods and nothing to do before: it deletes the first unused data claim, or all unready pods and the first plain reader too many, none of the former while a wanted special node is missing; then it replaces the first pod of an older revision, or manages the special node, or deletes one that is not wanted; its counters say so |
| `Endings.SpecialNodeIsManaged` | pkg/controllers/cluster/galera_control.go:1282-1388 | With a special node wanted and nobody to replace: without one, exactly one is created, at the next revision, neither reader nor backup, with its data claim unless an unused one is taken; a failed one is deleted, one that is not ready waited for, one on a claim of another revision gets mysql_upgrade, deletion and relabelling, one of an older revision is replaced, and about any other nothing is done |
| `Restores.StrangerGoes` | pkg/controllers/cluster/galera_control.go:817-886 | While a restore is scheduled, the first pod that is no restore pod of the current revision goes with its claims, and the round ends |
| `Restores.ScheduleCollects` | pkg/controllers/cluster/galera_control.go:1079-1132 | With restore pods only, the first claim that is neither used nor fit is deleted, unless it is terminating, and the round ends |
| `Restores.ScheduleWaits` | pkg/controllers/cluster/galera_control.go:1195-1237 | With too few running, the first pod that is not running is deleted if it has failed and waited for otherwise; the counter of the next revision then drops below zero |
| `Restores.ScheduleCreates` | pkg/controllers/cluster/galera_control.go:1240-1276 | With too few and all of them running, exactly one restore pod is created, standalone, at the current revision, on the first unused data claim or else on a new one |
| `Restores.ScheduleClears` | pkg/controllers/cluster/galera_control.go:1392-1456 | With enough running, the first unused claim is deleted, or all pods that are not running; nothing while a special node is wanted, and no restore pod is trimmed |
| `Restores.CopyBeginsExactly` | pkg/controllers/cluster/galera_control.go:391-406 | A scheduled restore goes on to the copy exactly when all pods are restore pods and as many run as are wanted, whatever the claims; or when none is wanted and a stranger could be deleted |
| `Restores.PhasesWithoutRounds` | pkg/controllers/cluster/galera_control.go:327-465 | A sync that does not get to its phase, or is in one without rounds, issues nothing; which of them are errors, and the phase and conditions they return |
| `Restores.NextPhases` | pkg/controllers/cluster/galera_control.go:375-465 | The phases a new cluster, the copy and an unknown phase go on to, with the conditions announced and the pods counted |
| `Restores.StoredLooksReturned` | pkg/controllers/cluster/galera_control.go:1561-1580 | After a sync without error the stored status agrees with the returned one in revisions, counters, numbers of members and special node, with the next revision made the current one exactly when every wanted pod is ready and at it; the old one stays when it agrees already and is not of an older generation, and after an error |
| `Restores.CreatedRoleIsRecognised` | pkg/galera/utils.go:26-55 | The labels a pod is created with for a role are those by which a later classification records it for that role |
| `ScaleDown.ScaleDownEnds` | pkg/controllers/cluster/galera_control.go:1431-1456 | With both roles held at the start, no upgrade pending and no special node: along every run of whole rounds and finished deletions, at least R >= 3 ready pods and the role and backup holders stay; the productive steps are bounded, and once they are spent exactly R pods are left |
| `ScaleDown.NeverStuck` | pkg/controllers/cluster/galera_control.go:1431-1456 | Before that, a deletion can be finished or every round makes progress |
| `ScaleDown.RoundMoves` | pkg/controllers/cluster/galera_control.go:1392-1456 | One whole round of such a cluster: same holders, still at least R ready, and progress unless it waits or is done |
| `ScaleDown.FinishMoves` | pkg/controllers/cluster/galera_control.go:1408-1429 | One finished deletion: the same, with progress |
| `ScaleDown.CrewOfFour` | pkg/controllers/cluster/galera_control.go:1431-1456 | There is a state to scale down, which keeps the invariant of the reachable states: four ready pods of which three are wanted |
| `ScaleDown.PlainReaderIsFound` | pkg/controllers/cluster/galera_control.go:1433-1445 | More than three ready pods with each mark held at most once contain a plain reader, and what is found holds no role and is no backup |
| `ScaleDown.FullDeletes` | pkg/controllers/cluster/galera_control.go:1431-1456 | A round deletes a plain reader exactly when more than R are ready |
| `ScaleDown.OrphanDrops` | pkg/controllers/cluster/galera_control.go:1409-1421 | The data claim left behind is deleted by a later round |
| `Sync.PhaseMovesForwardExactly` | pkg/controllers/cluster/galera_control.go:375-465 | A sync without error moves the phase forward exactly unless the cluster is being deleted, when the phase comes back empty |
| `Sync.StoreMovesForwardExactly` | pkg/controllers/cluster/galera_control.go:1561-1580 | One sync, whatever it is told, stores a phase that moves forward exactly unless a cluster object being deleted had its phase emptied |
| `Sync.PhasesMoveForward` | pkg/controllers/cluster/galera_control.go:375-465 | Along any run of syncs the stored phase moves forward from one sync to any later one, unless in between a sync of a cluster object being deleted has emptied it |
| `Sync.FailedIsForever` | pkg/controllers/cluster/galera_control.go:388-390 | Along any run a failed cluster keeps its whole status and gets no call until such a sync |
| `Sync.CopyWithoutClaims` | pkg/controllers/cluster/galera_control.go:427-438 | Counterexample and exact condition: a copy step that finds no data claim fails the cluster exactly if pods are left; without pods it goes on to Restoring |
| `LabelRuns.LossIsNeverStored` | pkg/controllers/cluster/galera_control.go:1027-1037 | A round that finds no ready member but several other pods issues no call and ends in an error; it has computed the failed phase, and the stored status stays as it was |
| `Status.ReplayReflectsLastWord` | pkg/apis/apigalera/v1beta2/galera_status_types.go:249-277 | After any sequence of set and clear operations there is at most one condition per type, and each query gives what the last operation about that type left |
| `Status.SetLaw` | pkg/apis/apigalera/v1beta2/galera_status_types.go:257-268 | Setting a condition replaces or adds that type and leaves the others |
| `Status.ClearLaw` | pkg/apis/apigalera/v1beta2/galera_status_types.go:249-255 | Clearing removes that type and leaves the others |
| `Status.GaleraStatus.GetCondition` | pkg/apis/apigalera/v1beta2/galera_status_types.go:270-277 | Finds the first condition of the type, or reports none |
| `Status.GaleraStatus.Set` | pkg/apis/apigalera/v1beta2/galera_status_types.go:257-268 | Updates the list in place to the specified one |
| `Status.GaleraStatus.Clear` | pkg/apis/apigalera/v1beta2/galera_status_types.go:249-255 | Updates the list in place to the specified one |
| `Revisions.ChooseIsRight` | pkg/controllers/cluster/galera_control.go:263-321 | The next revision holds the spec and has the greatest number, one more than some stored one unless it was last; a stored revision with that content is reused; contents and numbers stay distinct |
| `Revisions.RunsStaySound` | pkg/controllers/cluster/galera_control.go:263-321 | Along every run of edits, rollbacks, syncs and truncations, cut off anywhere, contents and numbers are distinct and the current revision is still stored |
| `Revisions.SyncKeepsSound` | pkg/controllers/cluster/galera_control.go:99-189 | One sync keeps this, leaves the next revision stored with the greatest number, and keeps the revisions of live pods |
| `Revisions.RollbackReuses` | pkg/controllers/cluster/galera_control.go:291-299 | Going back to an older retained spec brings its stored revision back with a number larger than all, and stores no new one |
| `Revisions.TruncationIsRight` | pkg/controllers/cluster/galera_control.go:217-255 | No live revision is removed; exactly min(limit, count) of the others remain; every removed number is at most every remaining one |
| `Revisions.RevisionStore.GetRevisions` | pkg/controllers/cluster/galera_control.go:263-321 | The operator's search and write leave the store and return the revisions as specified, or fail when the write is refused |
| `Revisions.RevisionStore.TruncateHistory` | pkg/controllers/cluster/galera_control.go:217-255 | Whatever happens, every stored revision that is current, next or on a pod stays as it was; when it is done at most the limit of the others is left, ten without a limit, and none removed is newer than one that stays, given the revisions in the order of their numbers, as the sync lists them; the deletions are the specified ones, in order, up to the first refusal; a negative limit ends the program, at once exactly when it asks for more than the list was made for, otherwise after the whole history is deleted |
| `Revisions.RevisionStore.FindEqual` | pkg/controllers/cluster/galera_control.go:284-286 | The list of revisions with equal content, in order |
| `Revisions.RevisionStore.FindHistory` | pkg/controllers/cluster/galera_control.go:229-234 | The list of revisions that are not live, in order |
| `Revisions.RevisionStore.MarkLive` | pkg/controllers/cluster/galera_control.go:224-228 | A revision is marked exactly when it is the current one, the next one or on some pod |
| `Revisions.RevisionStore.DeleteAll` | pkg/controllers/cluster/galera_control.go:247-253 | Deletes in order until one deletion is refused |
| `Names.PodRoundTrip` | pkg/controllers/cluster/galera_utils.go:115-127 | Parsing a built pod name gives back the suffix and the cluster name, shortened if it has more than fifty characters |
| `Names.ClaimRoundTrip` | pkg/controllers/cluster/galera_utils.go:78-113 | Parsing built claim names gives back cluster name, suffix and kind |
| `Names.NamesFit` | pkg/galera/utils.go:71-87 | No built name exceeds 63 characters, and no claim name is cut, for cluster names of every length |
| `Names.KindsNeverCollide` | pkg/galera/utils.go:81-87 | Data and backup claim names differ, for any two pod names |
| `Names.MembershipExactly` | pkg/controllers/cluster/galera_utils.go:169-176 | Created objects pass the membership tests exactly when the cluster name has at most fifty characters |
| `Names.MembersAreNamedBySuffix` | pkg/controllers/cluster/galera_utils.go:169-176 | Within a cluster a member's name is determined by suffix and kind, which is why the other modules use suffixes for names |
| `Names.TwoWaysAgree` | pkg/controllers/cluster/galera_utils.go:156-166 | Naming a claim from the pod name and from cluster name and parsed suffix agree for cluster names of every length |
| `Names.CreateUniquePodName` | pkg/controllers/cluster/galera_utils.go:131-154 | The drawing loop returns the first available suffix, or the first draw that no pod uses |
| `MyCnf.RewriteAbsorbs` | galera-images/galera-bootstrap/main.go:73-165 | Rewriting with s1 and then with s2 gives the text that s2 alone gives |
| `MyCnf.RewriteIsIdempotent` | galera-images/galera-bootstrap/main.go:73-165 | Rewriting twice changes nothing more |
| `MyCnf.EachLineKeptOrReplaced` | galera-images/galera-bootstrap/main.go:33-45 | Every original line keeps its place; it becomes the required line of the key it begins with, in any case, and is kept when it begins with none |
| `MyCnf.OnlyMissingAppended` | galera-images/galera-bootstrap/main.go:63-70 | After the original lines come only a blank line, the comment and the required lines of the keys that began no line, and nothing when none is missing |
| `MyCnf.EveryKeyIsSet` | galera-images/galera-bootstrap/main.go:73-165 | Each of the seven keys ends up on a line, and every line it begins is the required one |
| `MyCnf.OneKeyOnly` | galera-images/galera-bootstrap/main.go:33-45 | No line begins with two of the keys, so the seven steps do not disturb each other |
| `MyCnf.ModifyFile` | galera-images/galera-bootstrap/main.go:73-165 | Whatever the text was, each of the seven options, written out by name, is set on a line of the result to the value meant for it and to nothing else; without a node address there is no result |
| `MyCnf.SettingsAreWritten` | galera-images/galera-bootstrap/main.go:73-165 | The same about the specified rewriting: the name under wsrep_node_name, the address under wsrep_node_address, and so on, and every line that begins with the option in any case is that line |
| `MyCnf.SetOption` | galera-images/galera-bootstrap/main.go:93-98 | One step: replace the lines of the key, or append the required line |
| `MyCnf.AddInfo` | galera-images/galera-bootstrap/main.go:63-70 | The comment is written once, remembered by the flag |
| `MyCnf.Find` | galera-images/galera-bootstrap/main.go:93-93 | Finds out whether a line begins with the key |
| `MyCnf.ReplaceAll` | galera-images/galera-bootstrap/main.go:94-94 | Replaces exactly the lines that begin with the key |
| `MyCnf.LinesOfText` | galera-images/galera-bootstrap/main.go:33-45 | Splitting into lines undoes joining them |
| `MyCnf.TextOfLines` | galera-images/galera-bootstrap/main.go:33-45 | Joining the lines of a text gives the text back |
| `Versions.OrderIsTotal` | pkg/controllers/cluster/galera_upgrade_config_control.go:234-260 | The version check is total, and comparable both ways only for the same version |
| `Versions.OrderIsTransitive` | pkg/controllers/cluster/galera_upgrade_config_control.go:234-260 | It is transitive |
| `Versions.ChainsNeverGoDown` | pkg/controllers/cluster/galera_upgrade_config_control.go:65-92 | A chain of images each accepted after the one before never goes down in that order |
| `Versions.AcceptedUpgradesNeverGoDown` | pkg/controllers/cluster/galera_upgrade_config_control.go:65-92 | The same for the decisions of CanUpgrade, whatever the configuration checks said |
| `Versions.DecideUpgrade` | pkg/controllers/cluster/galera_upgrade_config_control.go:65-92 | Refused exactly when another image comes whose version is below; an error exactly when it is not below but the configuration is missing, names no file or has a rule set for the version that fails; allowed otherwise |
| `Versions.UntaggedIsLowest` | pkg/controllers/cluster/galera_upgrade_config_control.go:263-281 | An image without a tag has no version, and every image may follow it |
| `Versions.SameWidth` | pkg/controllers/cluster/galera_upgrade_config_control.go:239-257 | With equally many digits the order of strings is the order of numbers |
| `Versions.SameWidthsAgree` | pkg/controllers/cluster/galera_upgrade_config_control.go:234-260 | With as many digits in each component the check agrees with numeric precedence |
| `Versions.OrderAgreesExactly` | pkg/controllers/cluster/galera_upgrade_config_control.go:234-260 | For numbers without leading zeros it agrees exactly when, of the first components that differ, the one with fewer digits does not come later as a string |
| `Versions.ComponentsExactly` | pkg/controllers/cluster/galera_upgrade_config_control.go:239-257 | The same for one component |
| `Versions.PatchTwoAgainstTwelve` | pkg/controllers/cluster/galera_upgrade_config_control.go:254-257 | Counterexample: 10.4.2 to 10.4.12 is refused and the way back accepted |
| `Versions.TagIsRead` | pkg/controllers/cluster/galera_upgrade_config_control.go:263-281 | The version of an image is the one its tag begins with, whatever registry and repository it names |
| `Versions.MatchingIsConcerning` | pkg/controllers/cluster/galera_upgrade_config_control.go:129-163 | The comparison of split targets accepts exactly major, major.minor and the full version |
| `Versions.ValidateConfig` | pkg/controllers/cluster/galera_upgrade_config_control.go:112-165 | Refused exactly when the configuration file is missing or a rule set that concerns the next version fails |
| `Control.StoredStatus.SyncGalera` | pkg/controllers/cluster/galera_control.go:99-189 | The stored status after a sync is the specified one when the API accepted every call, and unchanged otherwise |
| `Control.StoredStatus.UpdateGaleraStatus` | pkg/controllers/cluster/galera_control.go:1561-1580 | Completes the rolling update field by field and writes the status only when it looks different |
| `Control.GaleraControl.SyncPhases` | pkg/controllers/cluster/galera_control.go:327-465 | The phase switch issues the planned calls, as many as are accepted, and ends with the planned status |
| `Control.GaleraControl.RunGalera` | pkg/controllers/cluster/galera_control.go:482-814 | The same for a round; what the plan comes to in each case is said by Decisions, Endings and Phases in terms of the snapshot |
| `Control.GaleraControl.ScheduleGaleraRestore` | pkg/controllers/cluster/galera_control.go:817-886 | The same for the restore schedule; what its plan comes to is said by Restores |
| `Control.GaleraControl.SetStatusPhaseAndConditions` | pkg/controllers/cluster/galera_control.go:1021-1073 | From the old status: a cluster being created or restored is running exactly when the numbers counted and wanted agree, ready and no longer restoring then; scaling up or down is announced with the two numbers exactly while they differ; a running cluster is upgrading exactly while the images differ; without a member and with several other pods it has failed, with an error |

## Left out

- UpgradeRuns.UpgradeEnds: for clusters of three only, because with more than three the labelling described above can leave the writer role unfilled at the end of a round; the claims already match the next claim spec, so that no data claim goes with its pod; there is no special node; a round is one step, its cuts being the matter of UpgradeCrashes; and a created pod becomes ready and primary in one step.
- UpgradeRuns.FairRunFinishes: under the same restrictions.
- UpgradeRuns.RoundMoves: under the same restrictions, and for whole rounds; UpgradeCrashes.CutMoves is about their prefixes.
- UpgradeRuns.RunMoves: under the same restrictions.
- UpgradeCrashes.UpgradeSurvivesCuts: under the same restrictions but that rounds need not be whole.
- ScaleDown.ScaleDownEnds: both roles are held at the start, rounds are whole, no upgrade is pending and there is no special node.
- ScaleDown.RoundMoves: under the same restrictions.
- Control.StoredStatus.SyncGalera: the services, the disruption budget and the truncation of the history, which a sync handles besides, are not part of it; truncation is modelled on its own.
- Protocol.EveryReachableStateIsGood: other actors may delete objects and change health, addresses and answers, but not labels, and create no pods or claims of the cluster.
- MyCnf.ModifyFile: values with a newline, '$' or '%' are not modelled, because they act as formatting and replacement directives; nor is text that is not valid UTF-8. Failing to read the input ends the program before the model starts.
- Revisions.RevisionStore.GetRevisions: names come from a parameter instead of a hash, so hash collisions and the collision count are not modelled, and contents are opaque values.
- Names.CreateUniquePodName: the random draws are a parameter that holds some free suffix; that drawing ends is a matter of chance.
- Versions.ValidateConfig: whether a rule set fails is a parameter; looking up rules and searching the configuration with their expressions is not modelled.
- Reads of a round are one consistent snapshot; errors of the listers, of the default storage class and of the credentials other than their absence end a round and are not modelled apart from that.
- Whether a claim matches is equality of an opaque spec; defaults for storage class and volume mode are not modelled.
- The commands run in containers are answers of the environment: primary or not, synced or not, mysql_upgrade successful or not.
- The copying of backups during a restore is an environment step; so are the deletions it makes.
- Kubernetes clients, informers, work queues, generated code, services, disruption budget objects, metrics and events are library calls or data assembly without a property of this depth.
- Container specs, probes, resources, affinity and volumes of pods are not modelled beyond labels, environment and claims.
- The backup phases, object storage and the backup server are not modelled.
