# Proxmox operator: the Machine lifecycle, proved

A Dafny model of the operator that turns Kubernetes `Machine` objects into Proxmox VMs, with proofs about whole
runs of it. `dafny verify dfyconfig.toml` checks everything.

## What is modelled

**The protocol.** Module `Reconcile` is the reconciler's code cut at every API call: a pass in progress is the call
it is about to make with its in-memory copy of the Machine, and `Resume` is the code from the answer to the next
call. Module `Cluster` runs any number of such passes, one per Machine, against two stores:

- the object store keeps every version of every Machine; a pass may start from *any* version (a stale cache), a write
  lands only on the current version, and every write makes a new one;
- the Proxmox inventory maps a slot (node, ID) to a VM; a create at an occupied slot is refused, and VM IDs are chosen
  by probing first and creating later.

Steps interleave freely: users create, touch and delete Machines, calls fail or take effect although their reply is
lost, passes crash, tasks finish late, strangers make and remove VMs and NetworkConfigurations. The n-th CreateVM call
names the VM it makes, so "the VM this Machine made" stays distinct from "what sits at that ID now"; the field `vm` of
a status and the fates in the log of calls are that bookkeeping and nothing in the code.

**The same code, imperatively.** Module `Reconciler` has the program's methods, changing the fields of a Machine object
between calls, and proves that they make exactly the exchange of the resumable pass for every sequence of answers.
`StatusRefresh`, `VmBuilder`, `DiskStatus`, `Network`, `NetworkConfiguration` and `VmidAllocation` hold the other
methods and loops, each proved against a specification function, and lemmas about those functions.

**Laws on what can be seen.** `ExchangeLaws` says of the exchange of a pass, for all answers, which request follows
which answer and what each request must have had before it; `RequestEffects` says what each request does to the
cluster. `DiskLaws`, `OptionLaws` and `StatusLaws` speak in the same way of the texts, options and reports themselves,
apart from the functions that compute them.

**What turned out false**, with the exact condition or a run that shows it: VMs do leak when a deletion overtakes a
creation (`VmsDoLeak`, exactly when by `RecordedIffUnchanged`); a deletion can hit another VM, exactly when the recorded
one is already gone (`DeletesOwnIffAlive`), which happens after a failed finalizer removal (`RetryDestroysAnother`) and
with a stale cache (`GoneIsNotEnough`); a Machine can get more than one VM, one more for each conflict swallowed at its
Creating write (`OneVmPerConflict`, and never more by `CreationBound`); a boot disk that is not the first is dropped
(`LateBootDiskIsDropped`, `SlotsAreExactly`); IPv6 addresses all count as private (`IsPrivateIP`); `DeletionFailed` is
never sent (`TraceIsClean`) nor stored; a reserved address can break the private/public partition
(`OverrideKeepsPartition`); a pool whose name contains `media=cdrom` is not read back (`DiskRoundTrip`); the ID search
answers "none" for a free ID 0 (`ZeroIsAmbiguous`). That recorded VMs are live holds only in disciplined runs and
before the fence (`RecordedVmIsLive`): a stranger can remove a VM, and a failed finalizer removal leaves a record
behind.

The comment in `updateStatusWithRetry` says that a conflict is retried at the next reconcile. That is so of the Creating
write while the stored phase is still "" or Pending, since the next pass creates again; the final write of a creation
is never retried, and a VM it does not record stays unrecorded (`RecordedIffUnchanged`, `LostStaysLost`). The model
follows the code.

**Hypotheses**, none of which the code enforces:

- a create task that ends with status `OK` or none really made this pass's VM, and a delete task whose wait returns
  without error really removed the VM it was started on;
- "does not exist" and "not found" are said only of absent VMs, and a VM is found only where one is;
- nobody else writes a Machine's status, adds or removes the operator's finalizer after creation, or gives a new
  Machine a Ready condition;
- a UID is never reused, and node names contain no `/`;
- the configured first ID leaves room for the offsets in a 64-bit `int`;
- one pass per Machine at a time (one replica, one worker per key), and a cache that has forgotten a Machine never
  brings it back.

The exclusivity results assume more, written out as `Exclusivity.Disciplined`.

## Model

| member | source | states |
|---|---|---|
| Lifecycle.FinalizerSafety | internal/controller/v1alpha1/machine_controller.go:153-197 | In every run, stale reads, lost replies and crashes included: once a stored Machine is without the finalizer, the VM its provider ID recorded is nowhere in the inventory, then and at every later time, and the Machine is marked for deletion |
| Lifecycle.FenceHolds | internal/controller/v1alpha1/machine_controller.go:160-167 | Once the deletion mark is stored, the only writes that land are the four of the deletion itself; a creation or refresh pass still under way can store nothing |
| Lifecycle.VersionsOnlyMoveUp | internal/controller/v1alpha1/machine_controller.go:222-241 | Between any two worlds of a run: the phase rank of the stored Machine does not fall, a provider ID and machine ID once written, or left empty at the Terminating fence, never change, the deletion mark stays, and the finalizer goes only from a Machine being deleted and never comes back there |
| Lifecycle.AtMostFivePhaseChanges | internal/controller/v1alpha1/machine_controller.go:222-241 | The rank is a bounded measure: over its whole stored history a Machine changes phase level at most five times |
| Lifecycle.RecordCoherence | internal/controller/v1alpha1/machine_reconcile_phases.go:180-188 | In every version ever stored provider ID and machine ID are empty together; otherwise the provider ID parses to the region and the number that the machine ID spells, and zone equals region; phases "", Pending and Creating have no record |
| Lifecycle.RecordNamesOwnCall | internal/controller/v1alpha1/machine_reconcile_phases.go:114-188 | A stored record names the VM of one of that Machine's own CreateVM calls, at the very slot of that call, and that VM was made |
| Lifecycle.ShortcutNeverFires | internal/controller/v1alpha1/machine_reconcile_phases.go:336-346 | No pass of any run asks Proxmox for an existing VM before creating: the existing-VM shortcut is dead code on reachable states |
| Lifecycle.ReadyAgreement | internal/controller/v1alpha1/machine_controller.go:305-335 | Every stored version has at most one Ready condition; phase Running has Ready "True", and Ready "True" occurs only with Running or Terminating |
| Lifecycle.OnlyDeletedMachinesAreStopped | internal/controller/v1alpha1/machine_reconcile_phases.go:296-316 | Whenever a pass is about to call StopVM or DeleteVM, the stored Machine has the deletion mark, the slot is exactly the one its stored provider ID names, and the pass came through handleDeletion |
| Lifecycle.TerminatingArmUnreachable | internal/controller/v1alpha1/machine_controller.go:232-233 | The dispatch on phase never sees Terminating or Terminated: those phases are stored only with the deletion mark, which is handled before |
| Accounting.CreationBound | internal/controller/v1alpha1/machine_reconcile_phases.go:46-51 | Over a whole run the Creating write of a Machine lands at most once, and its CreateVM calls number at most that landing plus the conflicts swallowed at that write, hence at most one plus the conflicts |
| Accounting.ConflictedCopyNeverLands | internal/controller/v1alpha1/machine_controller.go:290-302 | After a write of a copy was answered by a conflict, no later write lands whose copy is not of a strictly newer version |
| StaleCreation.BoundIsTight | internal/controller/v1alpha1/machine_reconcile_phases.go:46-51 | The bound cannot be improved: wherever a version from before creation can be read again and the window does not start at ID 0, the run extends, for every m, by m more CreateVM calls, paid for by exactly m swallowed conflicts, each of which makes a VM in a slot of its own |
| StaleCreation.OneVmPerConflict | internal/controller/v1alpha1/machine_reconcile_phases.go:46-51 | "Exactly one VM per Machine" is false of VMs: for every n there is a run from an empty cluster with n conflicts swallowed at the Creating write of one Machine, at whose end n + 1 different slots hold live VMs of that Machine |
| Accounting.FatesHaveCauses | internal/controller/v1alpha1/machine_reconcile_phases.go:114-193 | The fate of every CreateVM call is in progress, recorded, never made, or has an earlier event of the run that lost it, of the kind the fate names |
| Accounting.NoUnexpectedLeak | internal/controller/v1alpha1/machine_reconcile_phases.go:114-193 | In every reachable world each live VM of the operator sits at its call's slot and is held by a creation pass in progress, or recorded by a Machine that still exists with its finalizer, or was lost by an earlier event at one of the enumerated exits (CreateVM reply lost, wait error, bad exit status, failed lookup, final write not landed, crash) |
| Accounting.NothingLostNothingLeaked | internal/controller/v1alpha1/machine_reconcile_phases.go:114-193 | In a run without any of those exits, whenever no pass is in progress every live VM of the operator is recorded by an existing Machine |
| Accounting.RecordedIffUnchanged | internal/controller/v1alpha1/machine_reconcile_phases.go:190-192 | The final write of creation, unless it fails outright, records the VM if and only if the Machine still exists at the version creation started from |
| Accounting.LostStaysLost | internal/controller/v1alpha1/machine_reconcile_phases.go:190-192 | A VM that was lost is on no Machine's record at any later time |
| Accounting.DeletionDuringCreationLeaks | internal/controller/v1alpha1/machine_reconcile_phases.go:180-192 | From every reachable world with a creation pass at its final write, the run extends by a deletion request and a swallowed conflict to a world with the same inventory, the pass over, and the VM on no Machine's record |
| CreationRuns.VmsDoLeak | internal/controller/v1alpha1/machine_reconcile_phases.go:180-192 | "No VM leaks" is false although nothing fails: there is a run from an empty cluster in which every call succeeds, every read is current and strangers keep out, but for the one swallowed conflict at its end, and then every pass is over and a slot holds a VM of the operator that is on no Machine's record |
| Exclusivity.RunExclusive | internal/controller/v1alpha1/machine_reconcile_phases.go:362-396 | In a disciplined run (nobody outside removes VMs; no VM appears at an ID that a Machine in deletion still has on record while some cache remembers it) every world keeps the exclusivity invariant over records, calls, inventory and pending deletions, despite the check-then-act ID probe |
| Exclusivity.ProviderIdsAreUnique | internal/controller/v1alpha1/machine_reconcile_phases.go:114-183 | In a disciplined run no two remembered Machines, so no two existing ones, have the same provider ID on record |
| Exclusivity.RecordedVmIsLive | internal/controller/v1alpha1/machine_reconcile_phases.go:180-192 | In a disciplined run, until the fence, a stored provider ID names a slot that holds the very VM this Machine's own call created |
| Exclusivity.RunningVmIsLive | internal/controller/v1alpha1/machine_reconcile_phases.go:180-192 | In a disciplined run every stored Running Machine has a provider ID, and it names the VM that Machine created |
| Exclusivity.OnlyOwnVmsDisappear | internal/controller/v1alpha1/machine_reconcile_phases.go:303-316 | In a disciplined run a VM that any step removes is the recorded VM of a Machine marked for deletion: other people's VMs, lost VMs and VMs of live Machines are never destroyed |
| Exclusivity.RecordedAreLive | internal/controller/v1alpha1/machine_reconcile_phases.go:114-193 | In a disciplined run that lost nothing, with no pass in progress and no Machine past the fence, the slots holding a VM of the operator are exactly the slots that existing Machines have on record |
| StaleReads.DeletesOwnIffAlive | internal/controller/v1alpha1/machine_reconcile_phases.go:296-316 | In any run, what sits at the slot that a pass is about to stop or delete is the VM the Machine recorded if and only if that VM is still alive; "a deleting Machine only destroys its own VM" fails exactly on re-deletion |
| StaleReads.ExposedIsFatal | internal/controller/v1alpha1/machine_controller.go:153-197 | Whenever a version past the fence can still be read and its slot holds another VM, four successful events destroy that VM |
| RetriedDeletion.RetryDestroysAnother | internal/controller/v1alpha1/machine_controller.go:188-194 | There is a run from an empty cluster in which every read is current and nothing goes wrong but one failed finalizer removal and a stranger's VM appearing at the freed ID, and the retry by the still existing Machine destroys that VM |
| StaleReads.GoneIsNotEnough | internal/controller/v1alpha1/machine_controller.go:153-197 | There is a run in which freed IDs are reused only once the freeing Machine is gone from the store, and still the pass of the gone Machine destroys a VM it never made: the discipline must speak of caches, not of the store |
| DeletionProgress.DeletionCompletes | internal/controller/v1alpha1/machine_controller.go:153-197 | From every reachable world with a Machine marked for deletion and with the finalizer: a pass on the current version whose calls all succeed without interference makes at most 13 calls, always has a next call that can succeed, and ends only with the finalizer removed, phase Terminated if there was a record, and the recorded VM gone; the inventory and the NetworkConfigurations lose the VM at the recorded slot and the Machine's own, if that slot was occupied, and nothing else |
| DeletionProgress.TerminationGoesOn | internal/controller/v1alpha1/machine_reconcile_phases.go:268-278 | On a coherent record the parse-error exit of reconcileTerminating is unreachable: the pass goes on to look the VM up, or, with nothing recorded, to the finalizer |
| CreationProgress.CreationCompletes | internal/controller/v1alpha1/machine_reconcile_phases.go:38-196 | From every reachable world with a live Machine in phase "" or Pending: such a pass makes at most 130 calls (and one VM appears), is never stuck, and ends Running with the record naming its new VM at the least free ID of the 100-wide window on the node that an event of the pass gave it, or Failed with nothing made because the window on that very node had no usable ID; ending Running there is a NetworkConfiguration, where there was none with the MAC and VLAN of that call, if these are on and the MAC is not empty, and otherwise, as when ending Failed, they are as before |
| RefreshProgress.RefreshCompletes | internal/controller/v1alpha1/machine_reconcile_phases.go:205-260 | From every reachable world with a live Running Machine: a pass on the current version whose calls all succeed without interference makes three calls, is never stuck, changes nothing but its own Machine, and ends with exactly one new version: the same object when the recorded slot is occupied, and with phase Failed, Ready "False" for reason VMDeleted and the same record when it is empty |
| RefreshProgress.NodeIsKnown | internal/controller/v1alpha1/machine_controller.go:365-370 | On a complete record the refresh fills in neither region nor zone, so it cannot change what was recorded |
| StoredConditions.OtherConditionsKept | internal/controller/v1alpha1/machine_controller.go:305-335 | Over a whole run every stored version holds the conditions of other kinds the Machine was made with, unchanged and in order |
| StoredConditions.DeletionFailedIsNeverStored | internal/controller/v1alpha1/machine_reconcile_phases.go:274-316 | No stored version of any run ever has Ready with reason DeletionFailed |
| ReportedConditions.TraceIsClean | internal/controller/v1alpha1/machine_reconcile_phases.go:274-316 | No request of a whole pass carries Ready with reason DeletionFailed, unless the objects it is given do; with Reconciler.RunPass this holds of the methods that set the reason at six places, since the copy that has it is never sent |
| NetConfAgreement.SameConfiguration | internal/controller/v1alpha1/machine_reconcile_phases.go:168-178 | In a run without a conflict swallowed at the Creating write and without a foreign object of the Machine's name, the NetworkConfiguration held beside a recorded VM carries the very configuration that VM was created with, with a non-empty MAC |
| NetConfAgreement.NetConfAgreesWithVm | internal/controller/v1alpha1/machine_reconcile_phases.go:85-96 | Hence for a Running Machine the object's MAC is the one read back from the VM's net0 option, and it has a VLAN exactly when net0 has a tag, the same one |
| ClusterInvariants.RunInv | internal/controller/v1alpha1/machine_reconcile_phases.go:38-331 | Every world of every run satisfies the invariant that ties stored versions, passes in progress, the log of CreateVM calls and the inventory together; all whole-run results rest on it |
| ClusterInvariants.StepKeeps | internal/controller/v1alpha1/machine_reconcile_phases.go:38-331 | One step, of any pass, user, Proxmox or stranger, keeps that invariant |
| MachineInvariants.ActKeeps | internal/controller/v1alpha1/machine_reconcile_phases.go:38-331 | One API call of a pass keeps what is true of its Machine: coherent versions in order, a copy that is current or can no longer write, and CreateVM calls paid for |
| Reconciler.RunPass | internal/controller/v1alpha1/machine_controller.go:94-137 | For every Machine and every sequence of answers the methods leave exactly the exchange with the API servers that the resumable pass has, request by request with their data, to which the laws of ExchangeLaws apply, so also never a Ready condition with reason DeletionFailed |
| Reconciler.MachineReconciler.Reconcile | internal/controller/v1alpha1/machine_controller.go:106-137 | From a Machine just read, the methods make the calls the resumable pass makes and stop where it stops |
| Reconciler.MachineReconciler.HandleDeletion | internal/controller/v1alpha1/machine_controller.go:153-197 | The fence, the termination and the finalizer removal follow the resumable pass to its end from any Machine being deleted |
| Reconciler.MachineReconciler.WriteFence | internal/controller/v1alpha1/machine_controller.go:161-167 | Here, unlike at other status writes, a conflict ends the pass; otherwise termination goes on from the stored copy |
| Reconciler.MachineReconciler.RemoveFinalizer | internal/controller/v1alpha1/machine_controller.go:175-194 | The Machine is read again and its finalizer removed from what was read, not from the old copy |
| Reconciler.MachineReconciler.UpdateStatusWithRetry | internal/controller/v1alpha1/machine_controller.go:290-302 | Success is reported for a conflict too, and then the copy in memory keeps its old version; otherwise a stored object replaces it |
| Reconciler.MachineReconciler.ReconcileTerminating | internal/controller/v1alpha1/machine_reconcile_phases.go:263-331 | Reports success exactly when the resumable pass is past termination, with the copy it has there, and otherwise the pass is over |
| Reconciler.MachineReconciler.StopVM | internal/controller/v1alpha1/machine_reconcile_phases.go:425-447 | The result of the status write is ignored, and success means the pass stands at the deletion with the copy that write left |
| Reconciler.MachineReconciler.ReconcileByPhase | internal/controller/v1alpha1/machine_controller.go:222-241 | Each phase is dispatched as the resumable pass dispatches it; Creating, Failed and Terminated end the pass |
| Reconciler.MachineReconciler.ReconcileRunning | internal/controller/v1alpha1/machine_reconcile_phases.go:205-260 | A missing VM leads to the Failed write, another error to no write, a found one to the refresh write |
| Reconciler.MachineReconciler.CheckExistingVM | internal/controller/v1alpha1/machine_reconcile_phases.go:336-358 | Success ends the pass; failure, also of its own status write, leaves the pass at the Creating write with the copy as changed so far |
| Reconciler.MachineReconciler.FindAvailableVmid | internal/controller/v1alpha1/machine_reconcile_phases.go:362-396 | The probing loop asks for the IDs of the window in order and returns 0 exactly when the resumable pass fails for want of an ID |
| Reconciler.MachineReconciler.ReconcileCreate | internal/controller/v1alpha1/machine_reconcile_phases.go:38-196 | Every exit of creation, failed or not, makes the writes of the resumable pass and ends with it |
| Reconciler.Machine.SetCondition | internal/controller/v1alpha1/machine_controller.go:305-335 | The loop with early break replaces the first Ready entry where it stands or appends one |
| ExchangeLaws.FirstRequest | internal/controller/v1alpha1/machine_controller.go:94-167 | The first request of a pass, for every Machine: the class if it is live and has the finalizer, the object with the finalizer if it is live without; nothing if it is being deleted without the finalizer; else the object with phase Terminating, or, where that phase is already there, the lookup of the recorded slot, or with nothing recorded the Machine itself |
| ExchangeLaws.FinalizerIsStored | internal/controller/v1alpha1/machine_controller.go:199-211 | A pass that adds the finalizer goes on to the class only when that is stored |
| ExchangeLaws.FenceComesFirst | internal/controller/v1alpha1/machine_controller.go:160-171 | A deletion looks for the VM only after the mark Terminating is stored, and then for the slot that the object as stored records |
| ExchangeLaws.StopFollowsLookup | internal/controller/v1alpha1/machine_reconcile_phases.go:280-301 | Of every exchange whatever the answers: a StopVm(slot) comes two after a GetVm(slot) that found a running VM, where slot is the provider ID, parsed, of the object last read or stored, and right after a status with Ready "False" for reason Stopping |
| ExchangeLaws.DeletionFollowsLookup | internal/controller/v1alpha1/machine_reconcile_phases.go:280-310 | Of every exchange: a DeleteVm(slot) comes right after a GetVm(slot) that found a stopped VM, or after one that found a running VM and after StopVm(slot) and the wait for it were both answered well, where slot is again the parsed provider ID of the object last read or stored |
| ExchangeLaws.LookupDecides | internal/controller/v1alpha1/machine_reconcile_phases.go:280-305 | In a deletion the answer to the lookup decides: absent, phase Terminated is written; running, a Stopping status and then StopVm of that slot; stopped, DeleteVm of that slot; any other answer ends the pass |
| ExchangeLaws.StopIsWaitedFor | internal/controller/v1alpha1/machine_reconcile_phases.go:425-447 | A StopVm that is accepted is waited for, a wait that succeeds is followed by DeleteVm of the same slot, and any failure ends the pass |
| ExchangeLaws.DeletionIsWaitedFor | internal/controller/v1alpha1/machine_reconcile_phases.go:303-325 | An accepted DeleteVm is waited for, then the NetworkConfiguration is deleted, and then, whatever that answered, phase Terminated with its reason is written; any earlier failure ends the pass |
| ExchangeLaws.TerminatedIsRefetched | internal/controller/v1alpha1/machine_controller.go:171-186 | After the write of Terminated the Machine is read again if it was stored or lost to a conflict, and otherwise the pass ends |
| ExchangeLaws.RemovalIsLast | internal/controller/v1alpha1/machine_controller.go:175-197 | What was read then is sent back without its finalizer and with nothing else changed, and that is the last request of the pass |
| ExchangeLaws.OnlyUpdateObjectDropsFinalizer | internal/controller/v1alpha1/machine_controller.go:175-194 | Of every exchange: a status write carries the version, deletion mark and finalizer of the object last read or stored; an object update that adds the finalizer is the first request and changes nothing else; one that drops it changes nothing else either, comes right after that object was read, and only in a pass that began with the deletion mark |
| ExchangeLaws.PhaseDecides | internal/controller/v1alpha1/machine_controller.go:123-137 | Once the class is read: a disabled class and the phases Creating, Failed and Terminated end the pass; Unset and Pending lead to the Creating write at the version last known, or, with a readable record, to its lookup; Running, and Terminating with a record, lead to the lookup of the recorded slot |
| ExchangeLaws.LatchDecides | internal/controller/v1alpha1/machine_reconcile_phases.go:46-54 | A node is chosen exactly when the Creating write was stored or lost to a conflict |
| ExchangeLaws.ExistingDecides | internal/controller/v1alpha1/machine_reconcile_phases.go:336-358 | A recorded VM that is found before creation makes the pass write Running and end; one that is not, or a failure of that write, leads to the Creating write |
| ExchangeLaws.RunningIsRefreshed | internal/controller/v1alpha1/machine_reconcile_phases.go:205-260 | A Running Machine with an enabled class: its recorded slot is looked up; absent, the pass writes Failed for reason VMDeleted and ends; found, it writes the object with region and zone filled in where empty, and ends; any other answer ends it without a write |
| ExchangeLaws.NodeDecides | internal/controller/v1alpha1/machine_reconcile_phases.go:53-64 | A chosen node is followed by the lookup, on that node, of the configured start plus the character sum of the UID modulo 1000; a failed choice by phase Failed for reason NodeSelectionFailed and the end |
| ExchangeLaws.SearchProbesInOrder | internal/controller/v1alpha1/machine_reconcile_phases.go:362-396 | The n-th probe asks for the n-th ID of the window while all before it found a VM; the first that does not leads to the MAC, or for ID 0 to phase Failed; after 100 that do, phase Failed for reason NoAvailableVMID |
| ExchangeLaws.PreparationDecides | internal/controller/v1alpha1/machine_reconcile_phases.go:74-111 | No MAC, or an ISO that is not valid, leads to phase Failed with its own reason and the end |
| ExchangeLaws.CreationFollowsProbe | internal/controller/v1alpha1/machine_reconcile_phases.go:63-114 | Of every exchange: a CreateVm(slot, net) comes after a GetVm(slot) that did not find a VM, then net as the answer of the MAC generator, then an ISO check on that node answered well; and the ID is not 0 |
| ExchangeLaws.CreationIsWaitedFor | internal/controller/v1alpha1/machine_reconcile_phases.go:114-156 | An accepted CreateVm is waited for and its slot looked up; a refused one, and a wait that fails or exits badly, lead to phase Failed with their reasons and the end |
| ExchangeLaws.CreationIsRecorded | internal/controller/v1alpha1/machine_reconcile_phases.go:156-192 | A VM found at the slot it was made at is written as Running with the provider ID, machine ID, region and zone of that slot, after a CreateNetConf with the call's MAC and VLAN exactly when these are on and the MAC is not empty; one that is not found leads to phase Failed |
| ExchangeLaws.RunningNamesTheSlot | internal/controller/v1alpha1/machine_reconcile_phases.go:180-192 | Every status sent after a CreateVm(slot, _) in the same pass has phase Failed, or phase Running and the provider ID built from that slot |
| RequestEffects.UpdatesAreStored | internal/controller/v1alpha1/machine_controller.go:290-302 | In the cluster a status write changes the status alone and an object update the finalizer alone, each only of the current version and to what was sent; no other request changes an object, and a read returns a stored version |
| RequestEffects.LookupsAreTruthful | internal/controller/v1alpha1/machine_reconcile_phases.go:214-216 | A lookup is answered of the very slot it names, and a stop that succeeds found a VM there |
| RequestEffects.CreationsAreLogged | internal/controller/v1alpha1/machine_reconcile_phases.go:114 | The call that a CreateVm adds to the log has its slot and its network configuration, and no other request adds one |
| RequestEffects.DeletionsAreOrdered | internal/controller/v1alpha1/machine_reconcile_phases.go:303-316 | The VM that a deletion condemns is the one at the slot it names; the inventory changes only when the wait for a deletion is answered well, and then by its target alone |
| RequestEffects.NetConfsAreOrdered | internal/controller/v1alpha1/machine_reconcile_phases.go:169-178 | A NetworkConfiguration is made with what was sent, where there was none, or removed, by the request that says so and by no other |
| PassTraces.TraceIsShort | internal/controller/v1alpha1/machine_controller.go:94-137 | Whatever is answered, a pass makes at most 130 calls |
| Reconcile.PassEnds | internal/controller/v1alpha1/machine_reconcile_phases.go:38-331 | Every answer to every call brings a pass strictly closer to its end |
| Conditions.SetReadyHolds | internal/controller/v1alpha1/machine_controller.go:305-335 | After the upsert the Ready condition has the given status, and a list with at most one Ready entry still has at most one |
| Conditions.SetReadyKeepsOthers | internal/controller/v1alpha1/machine_controller.go:305-335 | The upsert leaves every entry of another kind, and their order, as they were |
| Conditions.SetReadyOverwrites | internal/controller/v1alpha1/machine_controller.go:318-332 | Of two upserts in a row only the second shows |
| Conditions.SetReadyInPlace | internal/controller/v1alpha1/machine_controller.go:305-333 | The first Ready entry is replaced where it stands by the new status and reason, and without one that entry is appended |
| ProviderId.ParseBuild | internal/helpers/providerid/providerid.go:32-55 | A built ID parses if and only if the node has no '/' and the number fits 64 bits, and then to exactly that node and number |
| ProviderId.BuildInjective | internal/helpers/providerid/providerid.go:53-55 | Different addressable slots have different provider IDs |
| ProviderId.ParseCanonical | internal/helpers/providerid/providerid.go:32-50 | Every accepted text names an addressable slot, and parsing its rebuilt form gives the same slot |
| ProviderId.ParseIgnoresSecondPart | internal/helpers/providerid/providerid.go:38-43 | Acceptance is looser than printing: any slash-free text between the first two slashes is accepted |
| ProviderId.AcceptedTexts | internal/helpers/providerid/providerid.go:32-50 | The accepted texts are exactly `proxmox:`, any slash-free text, the node and a text that Atoi reads as the number, with a slash between each two |
| ProviderId.BuiltText | internal/helpers/providerid/providerid.go:53-55 | What is printed is that form with nothing in its second part and the plain decimal number |
| Text.AtoiItoa | internal/helpers/providerid/providerid.go:44 | Decimal printing and strconv.Atoi: every printed integer reads back as itself when it fits 64 bits, and is refused otherwise |
| Text.AtoiAccepts | internal/helpers/providerid/providerid.go:44 | strconv.Atoi accepts digits with at most one sign before them that denote an integer between -2^63 and 2^63 - 1, and nothing else |
| Text.DigitsArePowersOfTen | internal/helpers/providerid/providerid.go:44 | A digit more on the right multiplies the value by ten and adds the digit |
| Text.SplitJoin | internal/helpers/providerid/providerid.go:38 | Splitting a text joined from separator-free parts gives those parts |
| Text.JoinSplit | internal/helpers/providerid/providerid.go:38 | Joining what a text was split into gives the text back |
| Text.ContainsMeans | internal/controller/v1alpha1/machine_controller.go:525 | strings.Contains: a text contains another exactly when it is some text, that one, and some text |
| VmidAllocation.GenerateVmid | internal/controller/v1alpha1/machine_controller.go:742-750 | The loop over the UID yields the configured start plus the sum of its characters modulo 1000, so an ID in [start, start + 999] |
| VmidAllocation.CharSumAdds | internal/controller/v1alpha1/machine_controller.go:742-750 | The character sum is additive, and of one character it is its code |
| VmidAllocation.FindAvailableVmid | internal/controller/v1alpha1/machine_reconcile_phases.go:362-396 | For any answers of the probes: the result is the least ID of the 100-wide window whose probe finds no VM, or 0; it is 0 if and only if every probe finds one or that least ID is 0; with a positive start 0 means the window is full, any other result lies in [start, start + 1098], and fewer than 100 taken IDs exclude 0 |
| VmidAllocation.WindowNeedsHundred | internal/controller/v1alpha1/machine_reconcile_phases.go:364-368 | A full window means at least 100 VMs on the node |
| VmidAllocation.ZeroIsAmbiguous | internal/controller/v1alpha1/machine_reconcile_phases.go:65 | Without a positive start the sentinel misfires: for every UID there is a start at which the search returns 0, read as none found, although the window is not full, whenever ID 0 is free |
| VmBuilder.BuildOptions | internal/services/vmbuilder/vmbuilder.go:48-58 | For every machine, class, network and settings no option name is given twice, and the options are exactly the wanted ones |
| VmBuilder.BuildStorageOptions | internal/services/vmbuilder/vmbuilder.go:105-156 | The loop with the diskCreated flag emits distinct names and exactly the controller, the placed disks, or the 50 GB default |
| VmBuilder.SlotsAreExactly | internal/services/vmbuilder/vmbuilder.go:118-153 | For every i the slot scsi{i} is emitted if and only if i is 0 or disk i exists and is neither named root nor marked boot |
| VmBuilder.DisksWantedMeaning | internal/services/vmbuilder/vmbuilder.go:118-153 | An option is a disk option if and only if it carries some placed disk's pool and size at that disk's slot, or the 50 GB default when the spec has no disk |
| VmBuilder.LateBootDiskIsDropped | internal/services/vmbuilder/vmbuilder.go:124-135 | A root or boot disk after the first reaches no slot: none is named for it and scsi0 carries disk 0 |
| VmBuilder.BuildNetworkOptions | internal/services/vmbuilder/vmbuilder.go:159-196 | One net0 option when there is an interface or a MAC, its value the comma-separated parts of the configuration |
| VmBuilder.NetValueReadsBack | internal/services/vmbuilder/vmbuilder.go:171-190 | From a comma-free net0 value the MAC reads back as macaddr when there is one, and the VLAN as tag exactly when it is positive |
| VmBuilder.BuildCpuOptions | internal/services/vmbuilder/vmbuilder.go:62-84 | Distinct names; cores from the machine before the class, CPU type and NUMA only when set |
| VmBuilder.BuildMemoryOptions | internal/services/vmbuilder/vmbuilder.go:87-102 | One memory option in whole mebibytes, or none when that rounds to zero |
| VmBuilder.BuildOsAndMiscOptions | internal/services/vmbuilder/vmbuilder.go:199-229 | Distinct names; image, name, agent and start only when set |
| OptionLaws.CpuIsGiven | internal/services/vmbuilder/vmbuilder.go:62-84 | In the whole list `cores` is the machine's number when it names any, else the class's, else absent; `cpu` and `numa` are given exactly when set |
| OptionLaws.MemoryIsGiven | internal/services/vmbuilder/vmbuilder.go:87-102 | `memory` is the number of whole mebibytes (1048576 bytes) of the machine's memory when it names any, else of the class's, and absent below one |
| OptionLaws.MiscIsGiven | internal/services/vmbuilder/vmbuilder.go:199-229 | `cdrom`, `name`, `agent` and `start` have the image, the name, 1 and 1, each exactly when set |
| OptionLaws.ControllerIsGiven | internal/services/vmbuilder/vmbuilder.go:108-112 | `scsihw` has the controller type of the settings, if there is one |
| OptionLaws.DiskIsGiven | internal/services/vmbuilder/vmbuilder.go:118-153 | `scsi<i>` is given exactly when i is 0 or disk i exists and is neither named root nor marked boot, with the pool and disk i's gigabytes, 50 where it names none or does not exist |
| OptionLaws.NetIsGiven | internal/services/vmbuilder/vmbuilder.go:159-196 | `net0` is given exactly when there is an interface or a MAC, and its text is, character by character, the model or virtio, the bridge, and MAC, positive VLAN and positive MTU (the default for 0) where there are any |
| OptionLaws.NothingElseIsGiven | internal/services/vmbuilder/vmbuilder.go:48-58 | No option has any other name |
| DiskStatus.ParseDiskConfig | internal/controller/v1alpha1/machine_controller.go:519-569 | The loop over key=value entries computes the declarative reading of a disk entry, skipped CD-ROM media included; the laws of DiskLaws say what that is for any option list |
| DiskStatus.ParseUnusedDiskConfig | internal/controller/v1alpha1/machine_controller.go:575-606 | The same for the unused-disk map, with its fixed device and label |
| DiskStatus.DiskRoundTrip | internal/controller/v1alpha1/machine_controller.go:519-569 | The builder's disk value, for a pool without ':' and ',' and a size below 2^33 GB, reads back as that pool and size (50 GB for 0) in bytes, within 64 bits, unless the pool's name contains media=cdrom, and then it is skipped |
| DiskStatus.RewrittenDiskRoundTrip | internal/controller/v1alpha1/machine_controller.go:525-558 | The form Proxmox rewrites it to, pool:volume,size=nU, reads back as n units for each unit letter, unless it contains media=cdrom, and then it is skipped |
| DiskLaws.ListedDiskReadsBack | internal/controller/v1alpha1/machine_controller.go:519-569 | For any options in any order, of an entry that is not media: the pool is the text before the colon, and the size is that of the last size option in its unit; only when that is 0 is the volume's own number read |
| DiskLaws.ListedUnusedDiskReadsBack | internal/controller/v1alpha1/machine_controller.go:575-606 | The same of the unused-disk map, media or not, with the fixed device and label and without the volume's number |
| DiskLaws.UnsizedDiskReadsBack | internal/controller/v1alpha1/machine_controller.go:560-566 | Without a size option the size is the number that the volume begins with when positive, else 0, and of an unused disk always 0 |
| DiskLaws.OnlyMediaIsSkipped | internal/controller/v1alpha1/machine_controller.go:520-527 | An entry is passed over exactly when it is empty, "none", or contains media=cdrom or ,iso; an unused one exactly when empty or "none" |
| DiskLaws.UnitsArePowers | internal/controller/v1alpha1/machine_controller.go:619-636 | K, M, G and T are the first four powers of 1024, and no other character is a unit |
| DiskLaws.FractionIsScaled | internal/controller/v1alpha1/machine_controller.go:638-645 | A size with a decimal point is the number that its digits spell together, times the unit, divided by ten for each digit after the point, and truncated |
| DiskLaws.SpaceIsIgnored | internal/controller/v1alpha1/machine_controller.go:616-617 | A space, tab or line end before or after a size does not count |
| DiskLaws.ControllerDevice | internal/controller/v1alpha1/machine_controller.go:654-692 | Disk i of scsi, sata and ide is /dev/sd and the i-th letter, and of virtio /dev/vd and that letter, whatever follows the number in its name, for every i whose letter code is below 0xD800 |
| DiskLaws.NoIndex | internal/controller/v1alpha1/machine_controller.go:676-682 | A controller name followed by what cannot begin a number is no disk of the controller: the device has the lower-cased name |
| DiskLaws.OtherDevice | internal/controller/v1alpha1/machine_controller.go:668-680 | A bare controller name is its disk 0, and a name of no controller is the device's own, in lower case |
| DiskLaws.DeviceIgnoresCase | internal/controller/v1alpha1/machine_controller.go:655 | The case of a disk's ASCII letters does not matter: A to Z are read as a to z, and nothing else is changed |
| DiskStatus.DiskSizeOfItoa | internal/controller/v1alpha1/machine_controller.go:610-646 | A size printed without a unit reads as that many GiB |
| DiskStatus.DiskSizeWithUnit | internal/controller/v1alpha1/machine_controller.go:610-646 | A size printed with T, G, M or K reads in that unit |
| DiskStatus.DistinctDevices | internal/controller/v1alpha1/machine_controller.go:654-692 | Slots scsi0 to scsi25 show up as /dev/sda to /dev/sdz, different for different slots |
| DiskStatus.EmittedDiskReadsBack | internal/services/vmbuilder/vmbuilder.go:118-153 | The option emitted for each placed disk reads back as its pool, its size and its device |
| StatusRefresh.EmittedDisksAreShown | internal/controller/v1alpha1/machine_controller.go:478-511 | A SCSI map holding exactly what the builder emits is shown as exactly one status disk for each placed disk, with its pool, size in bytes and device |
| StatusRefresh.MachineStatus.UpdateDiskStatus | internal/controller/v1alpha1/machine_controller.go:451-511 | The five loops yield the same bag of disks whatever order the maps are visited in |
| StatusRefresh.MachineStatus.UpdateNetworkStatus | internal/controller/v1alpha1/machine_controller.go:383-448 | The loops yield the canonical network view, whose contents and order the laws of StatusLaws read off the report: non-loopback interfaces in order, link-local IPv6 dropped, IPv4 split into private and public |
| StatusRefresh.MachineStatus.UpdateVMStatus | internal/controller/v1alpha1/machine_controller.go:338-380 | The refresh as a function of the old view, the VM and the node |
| StatusRefresh.MachineStatus.Refresh | internal/controller/v1alpha1/machine_reconcile_phases.go:234-253 | The refresh of a Running Machine with the reserved address put over the reported ones |
| StatusRefresh.InterfaceListsConcatenate | internal/controller/v1alpha1/machine_controller.go:400-437 | The Machine's IPv4 list is the in-order concatenation of the non-loopback interfaces' lists |
| StatusLaws.AddressesShown | internal/controller/v1alpha1/machine_controller.go:400-437 | A text is on the IPv4 list if and only if some interface not named "lo" reports it as IPv4, and on the IPv6 list if and only if one reports it as IPv6 and it does not begin with fe80: |
| StatusLaws.InterfacesShown | internal/controller/v1alpha1/machine_controller.go:402-434 | The interfaces shown are those not named "lo", as many and in the order reported, each with its name and MAC, and up exactly when it reports an address that is listed |
| StatusLaws.InterfaceShown | internal/controller/v1alpha1/machine_controller.go:402-434 | One interface alone is shown with the very lists the machine gets from it, or not at all when named "lo" |
| StatusLaws.ReportSplits | internal/controller/v1alpha1/machine_controller.go:400-445 | Every list follows the order of the report: what is reported in two stretches is shown in two stretches |
| StatusLaws.InterfaceSplits | internal/controller/v1alpha1/machine_controller.go:415-427 | The addresses of one interface are listed in their order |
| StatusLaws.AddressShown | internal/controller/v1alpha1/machine_controller.go:415-427 | One address goes on the list of its kind, and on none when it is of another kind or link-local IPv6 |
| StatusLaws.ClassesAreDecided | internal/controller/v1alpha1/machine_controller.go:439-445 | A listed IPv4 address is on the private list exactly when its bytes are private, and else on the public one |
| StatusLaws.FactsAreShown | internal/controller/v1alpha1/machine_controller.go:346-370 | Host name, CPUs and memory follow the report and stay as they were where it is empty or not positive, memory is capped at 2^63 - 1, and region and zone are filled in once |
| StatusLaws.AgentDecides | internal/controller/v1alpha1/machine_controller.go:375-377 | The network part is replaced by what the agent reports exactly when it is enabled, the VM runs and it answers, and otherwise kept |
| StatusLaws.ReservedAddressLeads | internal/controller/v1alpha1/machine_reconcile_phases.go:238-252 | After a refresh a reserved address leads the IPv4 list: alone, with its class list, if the reported list did not begin with it; otherwise, and without one, nothing changes |
| StatusLaws.AllMapsAreShown | internal/controller/v1alpha1/machine_controller.go:461-511 | Every entry of the five maps that reads as a disk is shown, as often as it is listed; without a configuration the disks stay as they were |
| StatusRefresh.NetworkIsPartitioned | internal/controller/v1alpha1/machine_controller.go:439-445 | Private and public lists hold each reported IPv4 address once, in one of them |
| StatusRefresh.ClassedStable | internal/controller/v1alpha1/machine_controller.go:439-445 | Each class list keeps the order of the whole list: it splits wherever that list is split |
| StatusRefresh.RefreshIsIdempotent | internal/controller/v1alpha1/machine_reconcile_phases.go:234-257 | Refreshing again from the same VM and reservation changes nothing but the order of the disks |
| StatusRefresh.OverrideKeepsPartition | internal/controller/v1alpha1/machine_reconcile_phases.go:242-251 | The reserved address keeps the private/public partition if and only if it does not replace the list or the other class list is empty |
| Network.BytesCompare | internal/helpers/network/network.go:52-62 | On equal lengths the sign of the big-endian numeric difference; on a nil first argument 0 |
| Network.IsPrivateIP | internal/helpers/network/network.go:25-49 | On every four-byte address exactly the blocks of section 3 of RFC 1918; true on every IPv6 address, false on unparsable text |
| StatusLaws.PrivateMeans | internal/helpers/network/network.go:25-49 | What counts as private, byte by byte: 10.x, 172.16.x to 172.31.x, 192.168.x, and every IPv6 address |
| Network.RangesAreTheBlocks | internal/helpers/network/network.go:36-38 | The three start-end pairs, compared as numbers, are the blocks 10/8, 172.16/12 and 192.168/16 read off the leading bits |
| NetworkConfiguration.Manager.Create | internal/services/networkconfiguration/networkconfiguration.go:54-114 | Decided by a cached existence test: an object the cache shows is left unaltered and counts as success, even when it is gone; otherwise one with the MAC and the VLAN text is added, or an error reported and nothing changed, also when the object is there after all; with a current cache success means the object is there, unaltered if it was |
| NetworkConfiguration.Manager.GetIP | internal/services/networkconfiguration/networkconfiguration.go:118-143 | From the cached object the first address of the first interface that has one; empty for an absent object; an error only when the read fails |
| NetworkConfiguration.FirstAddressIs | internal/services/networkconfiguration/networkconfiguration.go:131-142 | Behind any number of interfaces without one, the first address of the next is the answer, and without any it is empty |
| NetworkConfiguration.Manager.Delete | internal/services/networkconfiguration/networkconfiguration.go:146-168 | An object the cache does not show counts as deleted and is left alone, even when it is there; one the cache shows is removed, its absence being no error; with a current cache success means the object is absent |
| NetworkConfiguration.AgreesWithNet0 | internal/services/networkconfiguration/networkconfiguration.go:72-78 | The object made from a configuration has the MAC and the VLAN that read back from the net0 value built from it |

## Left out

- Network.BytesCompare: requires the first string to be no longer than the second, since the code would index out of range otherwise.
- DiskStatus.DiskRoundTrip: sizes are exact rational arithmetic over decimal text; exponents, hexadecimal, `inf` and `nan` of `Sscanf` and float rounding beyond 2^53 are not modelled.
- Reconciler.Machine.UpdateVMStatus: only the lifecycle part, region and zone; the rest of the refresh is `StatusRefresh.MachineStatus.UpdateVMStatus`.
- Reconciler.MachineReconciler.Reconcile: starts where the Machine has been read and its provider found to be Proxmox; the helper methods it is cut into beyond the program's own are parts of `handleDeletion`, `reconcileTerminating` and `reconcileCreate`.
- StatusRefresh.MachineStatus.UpdateVMStatus: leaves out the state name, the provider constant and the timestamps.
- StatusRefresh.MachineStatus.Refresh: leaves out the same, being built on that refresh.
- NetConfAgreement.NetConfAgreesWithVm: reads `net0` back only when model, bridge and MAC contain no comma; the option text is rebuilt from the call's configuration, for every MTU and all settings, since the log of calls keeps only the MAC and the VLAN.
- Messages, failure texts and transition times of conditions and statuses: nothing in the code reads them.
- A status write that changes nothing is modelled as a new version, while the API server would keep the old one; that is the same as a read of the current version.
- Machines recreated under an old name: another UID is another Machine; a NetworkConfiguration left from the old one is a foreign object.
- ISO validation, VLAN and MTU lookup, node selection and MAC generation: one arbitrary answer each; a Machine without an image has its ISO check answered with success.
- Text beyond ASCII in trimming and lower-casing, `net.ParseIP`, and letters of devices past index 25 beyond what `string(rune)` prints.
- The Proxmox client, HTTP, TLS, task polling and timeouts; settings, wiring, Helm charts and permissions; requeue intervals, event predicates and logging.
- `CategorizeIPs`, which the reconciler does not call, and the classification of IPv6 addresses.
