# A verified model of the cocoon operator

The operator drives VMs through suspend, release, wake and cross-node migration. It shares the work with an actor it
does not control (vk-cocoon, which boots, hibernates and restores the guests) and with a registry of `:hibernate`
tags. What it must never do is lose guest state, and that depends on the order of its writes and on what each pass
reads before it destroys something. This project models the reconcilers as crash-prone controllers and proves what
they keep over whole runs.

## How the model is laid out

| files | what they hold |
|---|---|
| `World`, `Invariant`, `Fleet` | one VM slot (pod, older pod versions a list may still return, tag, guest, and the version the user is owed), the steps of vk-cocoon, scheduler, kubelet and guest, the operator's writes, and the inductive invariants |
| `Cluster`, `Deeds`, `Facts`, `Writes` | the `Cluster` class: API server, registry and vk-cocoon as one mutable state; every call may fail before or after it lands, and any number of outside steps precede it; every write that lands is kept with the slot it found, and every refused registry call with the point in the log it was made at |
| `Creators`, `Suspension`, `Unsuspension`, `Woken`, `SlotRelease`, `Migration`, `Migrate`, `Members`, `Reconcile` | the stages of a CocoonSet pass as methods on that class, the whole pass, and runs of passes |
| `Reclaim` | the hibernate-reclaim record and the unsuspend as a list of writes |
| `Hazards` | the ways a run can still lose guest state: a concrete run and an exact condition for each |
| `Termination` | the migration's rank, and where it ends |
| `Deadline` | the suspend deadline |
| `Rebuild`, `SubAgents`, `Pods`, `Status`, `Converge`, `Teardown` | rebuild budget, parallel sub-agent creation over the cluster's invariant, build/match, what the status says, convergence, CocoonSet deletion |
| `Hibernation` | the CocoonHibernation phase machine and its shared-tag garbage collection |

**Runs.** `Passes.Run` interleaves passes that may die at any call, spec edits between passes, and arbitrary outside
steps. It covers two scopes. In the *pinning* scope the set is never suspended, `spec.nodeName` and what pods are
built from are edited at will, and a list may return any older version of each pod, though none older than an earlier
list returned or than the operator's own last write to it. In the *toggling* scope `spec.suspend`,
`spec.hibernatePolicy` and what pods are built from are edited at will, nothing is pinned, and a list may return any
older version of each pod, though never one older than an earlier list returned; a patch returns the server's current
object. `hibernatePolicy: release` is admitted only on a set without sub-agents and toolboxes, as the CRD demands
(`config/crd/bases/cocoonset.cocoonstack.io_cocoonsets.yaml:441`).

**What a user is owed.** `claim` is the version of the guest the user is owed. Guest work advances it, a failure
reported by vk-cocoon or the kubelet ends it, and the operator can only forfeit it; every forfeit is recorded with its
cause: a tag discarded for its image with the image it was pushed from, a drifted pod deleted to be built anew with
its name. `NoLoss` says that the guest runs at that version, or that the tag holds it. The reclaim record has no such
exemption: a failed VM is recorded like any other.

**What the proofs found.** The code keeps every promise listed below except in these families, and each is met with a
concrete run or input and, but for the last, an exact condition.

- *Stale pin.* A main deleted because it waits under a pin the spec dropped may have been bound and booted after the
  list (`cocoonset/migrate.go:27-33`). The documentation says that such a main has no VM yet, so nothing is lost; that
  holds only while the list is current.
- *Quiesced wake.* The wake drops the tag of a live main even when that main carries the hibernate annotation
  (`cocoonset/slotrelease.go:110-114`), which happens when a suspend died between its annotation and its status write.
- *Unconfirmed hand-back.* When the deletes of a release land but `Suspended` does not, and the phase is one the wake
  does not engage on (for instance `Failed` after the deadline), a pass that still sees the deleted main hands it to the
  normal flow, which clears `Suspended` from the record without owing a restore (`cocoonset/slotrelease.go:93-95`).
- *Stale list of a migration.* A pass whose list has not caught up with the hibernate annotation of the pass before
  takes the tag the migration has just made for a leftover and drops it (`cocoonset/migrate.go:89-107`). Migrations are
  safe with lists that have caught up with the operator's own writes, however old they are otherwise. A list that went
  back in time would also delete, by name, the main that replaced the quiesced one (`cocoonset/migrate.go:113`): a
  delete by name is safe only of a pod that is gone, owed nothing for good, or hibernated as asked.
- *Overlooked tag.* A main re-pinned away and back while it restores, or one that waits for its target outside
  `Migrating`, ends on its target with its tag still there: no later pass looks for it.
- *Unrecorded tag.* A sub-agent is forked over a tag that is neither on the reclaim record nor claimed by a
  CocoonHibernation in `Hibernated` or `Waking`. In no state of a run does a member outside the CocoonHibernations have
  such a tag, though members without a pod do come to have recorded ones: their tags are reclaimed, or they are marked.
- *Ready.* The status counts every classified pod, those the spec no longer wants included, so `Ready` can hold with
  the main down, and fail with every member up (`cocoonset/status.go:62-91`).
- *Late delete.* The backoff of a rebuild runs from the record of an attempt, so a delete that lands late may be
  followed at once by the next (`cocoonset/rebuild.go:93-107`). A set read from a cache that has not seen the last record
  decides as with the current one only while both spend the budget alike.
- *Unlisted member.* The suspend gate speaks of listed pods: behind it a member the list does not show yet runs on
  (`cocoonset/suspend.go:95-126`).

## Model

| member | source | states |
|---|---|---|
| Passes.Run | cocoonset/reconciler.go:58-165 | in every state of every run each VM outside the CocoonHibernations has the guest state its user is owed and, in the toggling scope, every tag and every VM asked to hibernate is on the reclaim record; every forfeit was foretold by what its pass had read, and none is an image discard or a drifted pod while what pods are built from is never edited; pods are created by the image and restore rules, sub-agents marked exactly when their tag exists; suspends and migrations delete pods, but under a dropped pin, only over a tag holding their state; while nothing is lost a tag is dropped only when its VM is live or owed nothing; re-pin deletes never outnumber the edits of the node name |
| Passes.Reconcile | cocoonset/reconciler.go:80-165 | a pass, whatever call it dies at, keeps the invariant; each forfeit it makes meets its cause's guard on the set and the listed pods; no pod is created after a registry call about its VM was refused; and over a settled set, listed as the spec wants it, it writes nothing but the status |
| Passes.SuspendPass | cocoonset/reconciler.go:91-96 | Suspended is entered only with no live pod listed, or with the gate of the policy holding over the listed pods as the suspend left them |
| Passes.SyncGeneration | cocoonset/lifecycle.go:14-21 | on success every listed pod carries this generation, in the version the server returned |
| Passes.HandleFailedMain | cocoonset/reconciler.go:183-194 | a failed main loses nothing by the unsuspend, by being deleted to be built anew, or by the Failed status, on its target or off it |
| Passes.OrdinaryFlow | cocoonset/reconciler.go:119-165 | from a main that is neither stranded nor left without its node, unsuspend, reclaim, rebuilds, creates and status forfeit nothing but tags of an image the spec no longer names and listed pods that drifted; over a settled set only the status is written |
| Passes.WithMain | cocoonset/reconciler.go:168-180 | a drifted main is deleted, waits or is left; what its delete forfeits is a listed pod that does not match the spec |
| Passes.WithoutMain | cocoonset/reconciler.go:130-135 | a missing main is parked or created, and no released main is forgotten |
| Passes.FailParked | cocoonset/reconciler.go:130-133 | a parked main stays absent and the set is Failed, which forgets no released main |
| Passes.CreateMain | cocoonset/reconciler.go:197-218 | with the suspended list cleared, a main without its pod is created restore-marked whenever its VM has state, and never over a tag of another image; a refused read, delete or probe creates nothing, and a drop that did not land keeps the record |
| Members.TriagePod | cocoonset/rebuild.go:39-68 | whatever the budget decides, at most the one pod is deleted; it costs guest state only when something was owed of a pod that had not failed |
| Members.TriageMembers | cocoonset/agents.go:30-45 | the triage of the listed members forfeits only drifted ones, leaves the main where it was, and leaves a group that failed and drifted nowhere alone |
| Members.ReclaimForks | cocoonset/agents.go:116-133 | on success no missing member is on the record unless it is owed a restore; each tag dropped is that of a VM awake, rebuilt or owed nothing; nothing is created |
| Members.CreateForks | cocoonset/agents.go:77-114 | after the reclaim every missing sub-agent is created as a fork, through the image rule and the restore mark, and forfeits nothing but a tag of another image |
| Members.CreateMember | cocoonset/agents.go:86-110 | a created sub-agent outside the CocoonHibernations is marked exactly when its tag exists; a toolbox keeps the image and restore rules; a refused call creates nothing |
| Members.EnsureSubAgents | cocoonset/agents.go:25-56 | triage, reclaim and creates leave the main where it was, forfeit only what drifted or sat under another image, and leave a group the spec wants as it is alone |
| Members.EnsureToolboxes | cocoonset/toolboxes.go:36-78 | the same for toolboxes, triaged or created one after the other |
| Passes.EditSpec | cocoonset/lifecycle.go:13-21 | a spec edit keeps the invariant: no listed version carries the new generation |
| Invariant.ActKeeps | docs/cocoonset.md:8-11 | no step of vk-cocoon, the scheduler, the kubelet or the guest breaks the invariant of a slot, in either scope |
| Invariant.WriteKeeps | docs/cocoonset.md:8-11 | every write of the operator made under its safety condition keeps the invariant of its slot |
| Invariant.MayStable | cocoonset/migrate.go:37-40 | the safety condition of a write survives any outside step, so a pass may establish it long before the write lands |
| Invariant.KnowsStable | cocoonset/slotrelease.go:130-132 | what a listed version says about the server's pod survives any outside step, in either scope |
| Invariant.EditKeeps | cocoonset/suspend.go:112-116 | a new generation makes every older version useless to the gate and to the wake, never wrong |
| Fleet.ListedIsKnown | cocoonset/ownership.go:14-29 | however old the versions a list returns, acting on them starts from sound knowledge, in either scope |
| Clusters.Cluster.WriteSlot | podpatch/podpatch.go:15-40 | one pod or tag write: done, refused, or lost in either direction, with outside steps before it; its forfeits and its log entry are exactly those of the write |
| Clusters.Cluster.WriteSet | cocoonset/rebuild.go:132-145 | one CocoonSet write: it lands as asked or not at all, and the invariant of every slot follows the new set |
| Clusters.Cluster.ListOwnedPods | cocoonset/ownership.go:14-29 | a list is some version of each pod no older than the last one listed nor, while pins are edited, than the operator's own last write to it, without the pods being deleted; a main listed under a dropped pin is covered by the edit that dropped it |
| Clusters.Cluster.HasSnapshot | snapshot/registry.go:34-40 | the probe answers for the tag at that moment or fails; it changes nothing |
| Writes.PatchStatus | cocoonset/status.go:33-44 | the only phase write; Suspended needs an open gate over the listed pods, or none of them live; a pod the list does not show is not covered |
| Writes.WriteHibernateReclaim | cocoonset/suspend.go:232-245 | the record changes to exactly the one asked for, as reading it back yields it, or not at all |
| Writes.ForgetReclaim | cocoonset/suspend.go:220-230 | a VM leaves the record only when its tag is gone, nothing asks it to hibernate and no state waits for a pod; every other entry stays |
| Facts.ListingMay | cocoonset/suspend.go:128-136 | listing VMs as suspended ahead of any annotation keeps every slot's debt |
| Facts.UnsuspendingMay | cocoonset/suspend.go:163-177 | both record writes of the unsuspend keep every slot's debt when no released main is stranded |
| Facts.PhaseMay | cocoonset/status.go:38-42 | facts under which a phase may be written without forgetting a released main or a quiesced one |
| Suspension.ApplySuspend | cocoonset/suspend.go:128-143 | on success the record lists every pod and every listed pod carries the annotation; no annotation precedes the record |
| Suspension.ReportIsCurrent | cocoonset/suspend.go:112-116 | a listed version with the annotation and a report at this generation, however stale, describes a VM that is hibernated now |
| Suspension.AllOwnedPodsHibernated | cocoonset/suspend.go:95-126 | an open gate proves every listed pod that is not kubelet-terminal hibernated now, its tag holding the state owed; it says nothing of a pod the list does not show |
| Suspension.GateMissesUnlisted | cocoonset/suspend.go:95-126 | a concrete state, with its invariant, in which the gate is open and a member the list does not show runs on |
| Suspension.ReconcileSuspend | cocoonset/suspend.go:37-55 | under retain, Suspended is entered only behind an open gate that still holds |
| Suspension.PollSuspend | cocoonset/suspend.go:57-77 | a shut gate or a failed probe writes Suspending or Failed, or nothing: Failed only once the whole timeout has passed since the clock was started, and then always; an entry into Suspending, or an unreadable deadline, starts the clock, and a stay keeps it |
| Suspension.SuspendDeadlineExceeded | cocoonset/suspend.go:79-85 | exceeded exactly when, to the second, the timeout has passed since the deadline was written; an entry into Suspending or an unreadable deadline starts the clock instead |
| Suspension.ClearSuspendDeadline | cocoonset/suspend.go:87-92 | on success the deadline is gone, and no slot was written |
| SuspendDeadline.ExceededIsElapsed | cocoonset/suspend.go:79-85 | a deadline that has passed was written the whole timeout ago, to the second, and one written longer ago has passed |
| Suspension.ReleaseSeat | cocoonset/slotrelease.go:56-71 | one released pod: flagged best-effort, deleted, its state still in the tag |
| Suspension.ReconcileSuspendRelease | cocoonset/slotrelease.go:24-78 | under release, Suspended is entered with every live pod gone, its tag holding the state owed and its VM name stashed, or with no live pod to begin with |
| Unsuspension.ApplyUnsuspend | cocoonset/suspend.go:146-188 | its writes are the unsuspend plan or the start of it; on success nothing it owns carries the annotation, nothing is listed as suspended, and no VM has lost its pod |
| Unsuspension.ClearHibernations | cocoonset/suspend.go:178-185 | exactly the awaiting pods are cleared, in order, and no pod or node is lost |
| Unsuspension.OwedRestore | cocoonset/suspend.go:171-174 | after an unsuspend a main that has state but no pod is owed a restore |
| Reclaims.StoredIsLossless | cocoonset/suspend.go:232-261 | a record whose restore and suspended lists name only recorded VMs survives write and read |
| Reclaims.PlanOutcome | cocoonset/suspend.go:163-187 | carrying out the list of writes gives the closed-form record and annotations |
| Reclaims.UnsuspendIsCrashIdempotent | cocoonset/suspend.go:146-188 | stopping after any prefix and running again over the same pods ends as one uninterrupted run |
| Reclaims.UnsuspendForgetsNoVM | cocoonset/suspend.go:270-281 | when the suspended list is cleared each VM on it is recorded and has a pod or is owed a restore |
| Woken.WokenIsAwake | cocoonset/suspend.go:283-287 | a pod that reads as woken is awake now, unless it was deleted to be built anew and is owed nothing, and its report is later than every suspend that ever quiesced it |
| Woken.ReclaimSnapshots | cocoonset/suspend.go:204-218 | each tag it drops is that of a VM that, when the delete landed, was awake or rebuilt, or, for the fork of a missing member, owed nothing; whatever left the record has no tag and is not asked to hibernate; nothing is created |
| Woken.ReclaimWokenSnapshots | cocoonset/suspend.go:190-202 | each tag it deletes is that of a VM that, when the delete landed, was really live, or rebuilt and owed nothing; a VM that reads as woken reported so later than any suspend that ever asked it to hibernate, and on success every woken VM has left the record |
| SlotRelease.ReconcileWake | cocoonset/slotrelease.go:81-138 | a main handed back is not stranded; guest state is forfeited only under three guards readable at entry; a refused registry call creates nothing |
| SlotRelease.StartReleasedWake | cocoonset/slotrelease.go:141-182 | hands back only when no snapshot is left to restore, with the hint gone; a refused read, delete or probe creates nothing, and only a tag that is gone leaves the record |
| SlotRelease.RecreateMain | cocoonset/slotrelease.go:165-181 | Waking is durable before the restore-marked create, the only two writes |
| SlotRelease.FinishWake | cocoonset/slotrelease.go:110-128 | the tag goes, then the hint, then the status; forfeits only a main that was asked to hibernate |
| SlotRelease.ConfirmReleasedDelete | cocoonset/slotrelease.go:184-195 | hands back only a main the server still has, undeleted |
| SlotRelease.StampedPresent | cocoonset/slotrelease.go:98-138 | what a main stamped at this generation tells about the server's pod while the set runs |
| Migrate.ReconcileMigration | cocoonset/migrate.go:23-66 | one arm, decided by what the pass read, and nothing but that arm's writes in order (or those of a discard); only the stale-pin delete and the image rule can cost guest state; a main with state that is handed back has its pod and node; a refused registry call creates nothing |
| Migrate.AdvanceMigration | cocoonset/migrate.go:84-172 | the same for the arms that find a tag |
| Migrate.StartMigration | cocoonset/migrate.go:69-82 | Migrating, then the annotation, and nothing else; a pass that dies in between leaves Migrating |
| Migrate.DeleteOldMain | cocoonset/migrate.go:108-116 | flag, delete, Migrating, in that order, the flag best-effort; of a quiesced main with its tag this forfeits nothing |
| Migrate.RecreateOnTarget | cocoonset/migrate.go:118-140 | recreated restore-marked over its tag, or the tag discarded for its image and the main left to the normal flow; a refused read or delete creates nothing and keeps the record |
| Migrate.DropMainTag | cocoonset/migrate.go:164-170 | the tag of a live, unquiesced main goes without loss |
| Migrate.DeleteStalePin | cocoonset/migrate.go:27-33 | deleting a main under a dropped pin forfeits at most a main that booted since the list |
| Creators.DropImageConflict | cocoonset/restore.go:99-114 | afterwards no pod created now meets a tag of another image; what it forfeits sat in a tag of an image the spec once named and no longer names; a refused read or delete leaves the set as it was |
| Creators.DiscardImageConflict | cocoonset/restore.go:91-97 | the discarded VM leaves the record only after its tag went, every other entry stays; a refused read or delete keeps the record |
| Creators.MarkRestoreFromIntent | cocoonset/restore.go:61-89 | outside the CocoonHibernations a pod is marked exactly when a restore is owed and its tag exists; a failed probe fails the create and is on record |
| Creators.CreateManaged | cocoonset/reconciler.go:197-218 | a created pod meets no tag of another image, is marked only over a tag, and is marked whenever its VM has state or, as a fork, a tag; a preparation that failed creates nothing and writes at most the discard; a create is the last write |
| Deeds.CreatedUnderTheRules | cocoonset/restore.go:74-114 | every create of the model, by whichever stage, meets no tag of another image, is marked only over a tag, and is marked over the state its user is owed; a fork is marked exactly when its tag exists |
| Deeds.AccountableAfter | cocoonset/migrate.go:185-195 | whatever write lands, creates keep the rules, deletes find the state in the tag, forfeits have their cause on record, and re-pin deletes stay covered by edits of the node name |
| Hazards.DebtFollowsGuest | docs/cocoonset.md:10 | what a user is owed changes only with the running guest and ends outside the operator only with a failure |
| Hazards.OwedIsLastComputed | docs/cocoonset.md:10 | from a sound start, over any moves of vk-cocoon, the scheduler and the operator in which nothing fails and no write forfeits, what a user is owed is the version an observer last saw the guest compute |
| Hazards.DropSparesIff | cocoonset/slotrelease.go:110-114 | the drop of a tag, by a wake or by a migration, is safe against every outside run if and only if the VM is live and not asked to hibernate |
| Hazards.DeleteSparesIff | cocoonset/migrate.go:113-116 | a delete by name is safe against every outside run if and only if the pod is gone, nothing is or will be owed of it, or it hibernates as asked |
| Hazards.StalePinSparesIff | cocoonset/migrate.go:27-33 | the stale-pin delete is safe against every outside run if and only if there is nothing left to delete |
| Hazards.HandBackSparesIff | cocoonset/suspend.go:163-187 | a released main handed back survives the next create if and only if the record already owed it a restore |
| Hazards.QuiescedWakeLosesState | cocoonset/slotrelease.go:110-114 | a concrete run in which the wake drops the only copy of a guest |
| Hazards.HandBackLosesState | cocoonset/slotrelease.go:93-95 | a concrete run in which a released main boots fresh over its snapshot |
| Hazards.StalePinLosesState | cocoonset/migrate.go:27-33 | a concrete run in which a main that booted after the list is deleted |
| Hazards.StaleListLosesState | cocoonset/migrate.go:89-107 | a concrete run in which a list one operator's write behind drops the only copy of the guest |
| Hazards.DeleteByNameLosesState | cocoonset/migrate.go:113-116 | a concrete run in which a list that went back deletes the main that replaced the quiesced one |
| Termination.PassNeverRaises | cocoonset/migrate.go:23-172 | a pass that touches the main's pod or tag strictly lowers the rank; one that waits leaves both alone |
| Termination.DyingNeverRaises | cocoonset/migrate.go:23-172 | a pass that dies after any of its writes has lowered the rank, or touched neither the pod nor the tag |
| Termination.PassIsWritten | cocoonset/migrate.go:23-172 | a pass is its list of writes, carried out whole |
| Termination.OutsideNeverRaises | cocoonset/migrate.go:153-162 | no outside step raises the rank |
| Termination.EffectsAreBounded | cocoonset/migrate.go:23-172 | in any interleaving with a fixed target, wherever the passes die, the effectful ones are at most the rank |
| Termination.RoundAdvances | cocoonset/migrate.go:84-172 | one fair round lowers the rank of a main that is not there yet |
| Termination.MigrationTerminates | cocoonset/migrate.go:153-172 | after twelve fair rounds from any backed start the main runs on its target, and its tag is gone if and only if the start did not let it be overlooked |
| Termination.OneRoundIsQuiet | cocoonset/migrate.go:174-179 | from any backed start one fair round leaves nothing pending |
| Termination.RoundOverlooks | cocoonset/migrate.go:37-40 | one fair round leaves the tag overlooked if and only if the start lets it: the main on its target or bound to land there, not quiesced, outside Migrating, its tag unrecorded |
| Termination.RetargetOverlooksTag | cocoonset/migrate.go:37-40 | a concrete re-pin away and back that overlooks the tag |
| Termination.WaitingOverlooksTag | cocoonset/migrate.go:37-40 | a concrete start, the main waiting under the spec's own pin, that overlooks the tag |
| Rebuilds.Budget.TriagePod | cocoonset/rebuild.go:39-68 | the decision is the one the history and the clock give, the history ends as that decision records it, and parked names and other pods are left as they were |
| Rebuilds.Budget.RebuildPod | cocoonset/rebuild.go:93-111 | whenever a pod was deleted its attempt is on record, acknowledged or not |
| Rebuilds.Budget.LiftPod | cocoonset/rebuild.go:53-67 | whenever the pod was deleted its history entry is gone; one lift, nothing else |
| Rebuilds.Budget.ParkPod | cocoonset/rebuild.go:77-92 | whenever the pod was lettered its name is parked in the history |
| Rebuilds.Budget.CreateMissing | cocoonset/agents.go:47 | a parked name stays absent, and a name whose old pod has not vanished is left to a later pass |
| Rebuilds.Run | cocoonset/rebuild.go:39-112 | over any run with crashes and late deletes, at most four budgeted deletes and one lift per name and generation, at most five per desired pod, and every budgeted delete carries out a recorded attempt, in order |
| Rebuilds.FiveDeletesPerName | cocoonset/rebuild.go:77 | the same bound in any balanced state |
| Rebuilds.FiveDeletesPerDesiredPod | cocoonset/rebuild.go:176-185 | their sum over the desired pods, and none for any other pod |
| Rebuilds.DeletesPerGeneration | cocoonset/rebuild.go:176-185 | at most 5 * (replicas + 1 + toolboxes) deletes at a generation |
| Rebuilds.DeletesAreSpaced | cocoonset/rebuild.go:187-198 | between two budgeted deletes of a name at a generation lie the backoffs of the attempts from the first on, less what the first landed late; 36 seconds from the first attempt to the fourth |
| Rebuilds.SpacedIffOnTime | cocoonset/rebuild.go:93-107 | a delete keeps its backoff to every delete that may follow it if and only if it landed when it was recorded |
| Rebuilds.LateDeleteClosesIn | cocoonset/rebuild.go:93-107 | a concrete run in which a delete two seconds late is followed at once by the next |
| Rebuilds.StaleHistoryIff | cocoonset/rebuild.go:72-97 | a pass that reads an older history decides every pod at every time as with the current one if and only if both spend the budget of the name alike |
| Rebuilds.StaleHistoryBypasses | cocoonset/rebuild.go:72-97 | a concrete history not yet seen that has a spent name rebuilt again |
| Rebuilds.LetterMeansParked | cocoonset/rebuild.go:170-174 | a letter of this generation implies a parked entry, and triage leaves the pod |
| Rebuilds.PruningIsInvisible | cocoonset/rebuild.go:158-168 | over any edits, passes and crashes, the decisions with a pruned history are those with a never-pruned one |
| SubAgents.MarkedExactlyWithTag | cocoonset/agents.go:86-110 | one worker, over any sequence of answered, refused, lost and cancelled calls: a created pod is marked exactly when its tag exists, but for a tag nobody asked to restore; never over a tag of another image; a worker that fails without losing an answer has created nothing |
| SubAgents.Farm.CreateInParallel | cocoonset/agents.go:77-113 | in every interleaving, with any calls refused, lost or cancelled at any step, every worker's pod and tag are right; when no call fails, pods and tags are those of the sequential order |
| SubAgents.Farm.LoadIntent | cocoonset/restore.go:22-26 | the intent set is listed at most once, and an error is remembered like a result |
| SubAgents.Farm.ReclaimUnrestoredForks | cocoonset/agents.go:116-133 | a recorded tag of a VM nobody restores is gone before the VM is forked, every other tag stays |
| SubAgents.Farm.EnsureMissing | cocoonset/agents.go:47-56 | whatever fails on the way, each created sub-agent is marked exactly when its tag exists, if and only if its tag was not an unrecorded, unwanted one of its image; nothing with a tag leaves the record |
| SubAgents.Farm.EnsureMissingOf | cocoonset/agents.go:47-56 | in any state that keeps the debt each created sub-agent outside the CocoonHibernations is marked exactly when its tag exists, whatever fails on the way |
| SubAgents.NothingOverlooked | cocoonset/suspend.go:128-136 | from the debt alone: no member outside the CocoonHibernations has an unrecorded, unwanted tag |
| SubAgents.MissingWithTag | cocoonset/agents.go:35-45 | a concrete run to a missing member with a recorded tag, owed a restore or not, in a state that keeps the invariant |
| SubAgents.UnrecordedTagIsForkedOver | cocoonset/restore.go:61-71 | at a concrete input outside that invariant there is one, and the pod is forked over it |
| Pods.ResourcesMatchIsExact | cocoonset/pods.go:238-261 | the match decides exactly equality of defaulted cpu and memory |
| Pods.MatchesExactlySameAgent | cocoonset/pods.go:203-220 | a built pod matches another spec if and only if both ask for the same pod up to defaulting |
| Pods.BuiltAgentIsFixpoint | cocoonset/pods.go:75-106 | a built agent pod, defaulted, matches its spec and is not pinned elsewhere |
| Pods.BuiltToolboxIsFixpoint | cocoonset/pods.go:139-157 | the same for a toolbox, static ones included |
| Pods.ClassifyPods | cocoonset/pods.go:36-61 | every pod not being deleted is found by its name, and by its role when its labels parse; nothing else is |
| Pods.RepinDeletesAreBounded | cocoonset/migrate.go:185-195 | re-pin deletes never outnumber the edits of the node name |
| Convergence.EnsureSubAgents | cocoonset/agents.go:25-75 | error-free, each wanted name has its pod or one still vanishing, was just triaged or is parked, nothing above the replicas is left, and the requeue is the shortest wait |
| Convergence.EnsureToolboxes | cocoonset/toolboxes.go:22-96 | the same for toolboxes; a name given twice or like an agent's fails before anything is touched, one borne by a foreign pod fails the pass |
| Convergence.Pass | cocoonset/reconciler.go:143-165 | both groups converge together; what triage deleted it had reason to; an unchanged pass requeues at the shortest wait of either group, and one at rest changes nothing but the status, which it writes only when it differs |
| Convergence.SettledPasses | cocoonset/status.go:33-44 | on a matching set the tail of a pass writes the status at most once and that of the next writes nothing; the stages before it are in Passes.Reconcile |
| Statuses.StatusIsTrue | cocoonset/status.go:56-102 | with no pod classified beyond the spec, Ready, and Running unless the caller insists on a phase, hold exactly when every wanted member is there and ready; DeadLettered means a parked pod and never reads as progress |
| Statuses.ReadyIsTrueIff | cocoonset/status.go:157-163 | whatever the phase, Ready means that every member is ready, whichever pods are, if and only if no pod beyond the spec is classified, or too few of one kind for its count to be reached |
| Statuses.ReadyWithMainDown | cocoonset/reconciler.go:137-141 | a concrete scale-down that reports all agents ready with the main down |
| Statuses.NotReadyWithAllUp | cocoonset/suspend.go:62-65 | a concrete suspend that reports agents not ready with every wanted one ready |
| Statuses.MergedTwice | cocoonset/status.go:47-53 | merging a status into its own result changes nothing |
| Teardown.NamesRoundTrip | cocoonset/delete.go:87-135 | the stashed VM names are read back as they were written |
| Teardown.Deletion.StashNames | cocoonset/delete.go:74-98 | the stash comes to hold the record's, the status's, its own and the owned pods' names, and no name gets lost |
| Teardown.Deletion.DropTags | cocoonset/delete.go:53-64 | no stashed name keeps its tag; `:latest` goes only where the policy does not keep it |
| Teardown.Deletion.ReconcileDelete | cocoonset/delete.go:25-72 | the finalizer goes only with every pod and every tag of the set gone, and no tag goes while a pod is left |
| Teardown.RunsAreAccounted | cocoonset/delete.go:74-82 | what a run leaves behind, outside the CocoonHibernations, accounts for every tag and every pod a release deleted that a deletion has to find; while pins are edited, given that the status names the main |
| Hibernations.DesiresSerialize | hibernation/reconciler.go:137-151 | between Waking and a later Hibernating or Hibernated lies Active or Failed, and between Hibernating and a later Waking or Active lies Hibernated, Failed or Pending |
| Hibernations.Hibernation.Reconcile | hibernation/reconciler.go:118-152 | pod absence leaves Hibernated and Waking alone; an error-free pass past the deadline leaves the phase; with a known desire Failed needs the whole timeout; the annotation never moves against the phase in flight |
| Hibernations.Hibernation.SetPhase | hibernation/reconciler.go:219-239 | in flight the transition time is that of the entry, and a patch that keeps the phase keeps it |
| Hibernations.Hibernation.PatchNotReady | hibernation/reconciler.go:291-300 | Pending or Failed as asked, or nothing; no deadline starts here |
| Hibernations.Hibernation.MarkPending | hibernation/reconciler.go:279-289 | never demotes Hibernated or Waking |
| Hibernations.Hibernation.ReconcileHibernate | hibernation/hibernate.go:16-49 | Hibernated if and only if the report, in the pod as the server answered the patch, covers its generation and the registry confirms the tag; never wakes the pod |
| Hibernations.Hibernation.ReconcileWake | hibernation/wake.go:16-58 | the tag goes only once the VM is live and Active is recorded; never hibernates the pod |
| Hibernations.Hibernation.Announce | hibernation/reconciler.go:241-256 | announced transitions strictly increase, so none is announced twice |
| Hibernations.Run | hibernation/reconciler.go:97-152 | over any run the phases form a legal chain and the deadline counts from the entry into the phase in flight |
| LastHolder.Namespace.ReconcileDelete | hibernation/reconciler.go:161-198 | the tag goes only with an answering registry and no live holder, and then does go |
| LastHolder.DeleteInAnyOrder | hibernation/reconciler.go:185-198 | deleted in any order, the holders keep the tag while one is live, and it is gone once all are, if the last to finish knew its VM and was answered |

## Left out

- Passes.Run: slots a CocoonHibernation targets may change in any way and are outside the promise, so its reconciler and the CocoonSet's are not proved to cooperate.
- Passes.Run: suspend toggles and node pins are not mixed in one run; scale edits, CR deletion and external pod deletes are not part of it, because the code discards guest state there by design.
- Passes.Run: a VM that vk-cocoon or the kubelet reported failed, or whose pod was rebuilt, is owed no guest state until its pod is recreated; it stays on the reclaim record.
- Passes.Run: spec edits fall between passes; a pass that read the set before an edit is one that ends before it.
- Members.TriagePod: which of deleting, waiting and parking triage chooses is any choice here; the budget that chooses is Rebuild. Letters and the history annotation are not among the writes of these passes.
- Members.EnsureSubAgents: creates run one after the other; the parallel ones are SubAgents. The extras above the replicas are Converge. A sub-agent's direct node bind is a later bind here.
- Members.EnsureToolboxes: name collisions and the extras are Converge.
- Passes.Run: the CocoonSet (phase, annotations, record) and the CocoonHibernations are read current, where the code reads them from the informer cache.
- Passes.Run: in the pinning scope a list is no older than the operator's own last write to the pod; what an older one does is Hazards.StaleListLosesState.
- Clusters.Cluster.ListOwnedPods: in the pinning scope lists have caught up with the operator's own writes to the pods.
- Migrate.ReconcileMigration: acts on lists that have caught up with the operator's own writes; Hazards.StaleListLosesState shows why.
- Migrate.AdvanceMigration: the same.
- SubAgents.Farm.CreateInParallel: the limit of eight workers at a time is not modelled; any interleaving includes those under a limit.
- SubAgents.Farm.EnsureMissingOf: registry, pods and record are those of a state of a run; outside steps do not move them during the creates.
- Rebuilds.Budget.TriagePod: pods and the history annotation are read current; what an older history does is Rebuilds.StaleHistoryIff.
- Suspension.PollSuspend: a set that stays Suspending across a quick unsuspend keeps its clock, as in the code.
- Suspension.AllOwnedPodsHibernated: covers listed pods only; see Suspension.GateMissesUnlisted.
- Pods.RepinDeletesAreBounded: a machine of its own, whose passes read the current main; Passes.Run proves the bound on the cluster's runs.
- Hibernations.Hibernation.Reconcile: times compare at the one-second grain in which the API stores them, so a timeout may fire up to a second early.
- Teardown.Deletion.ReconcileDelete: pods are listed current.
- Teardown.RunsAreAccounted: a migration keeps its tag off the record, so while pins are edited the status, the stash or a pod has to name the main.
- Termination.MigrationTerminates: the rounds are fair and free of errors, CocoonHibernations, failed and drifted mains; safety under errors and crashes is Passes.Run.
- Manager wiring, watch predicates, metrics, events, logging and version are left out: a pass may run at any time.
- JSON text of the annotations is left out: records are datatypes, and corrupt text reads as the empty record.
- VM name and pod name derivation (VMNameForDeployment, ParseVMSpec, FromAgentSpec) is taken as injective and lossless.
- Lock striping is left out: passes over one CocoonHibernation are atomic between its API calls.
- Connection types, message texts and IP reporting in the status are left out: they only copy fields.
