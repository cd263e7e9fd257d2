/**
 The reconciler as the program has it: methods that change the fields of a Machine in
 memory between calls to the API servers. Each is proved to make exactly the calls that
 the resumable pass of module Reconcile makes, with the same data, whatever the answers.
 */
module Reconciler {
  import opened Wrappers
  import opened Text
  import opened ProviderId
  import opened Machines
  import opened Conditions
  import opened Reconcile
  import opened PassTraces
  import Exchanges
  import ReportedConditions
  import VmidAllocation

  // ----- Where the answers lead, call by call

  lemma StopAnswers(s: Settings, uid: string, slot: Slot, del: bool, copy: Copy, r: Reply)
    ensures Resume(s, uid, WriteStopping(slot, del), copy, r) ==
      At(CallStop(slot, del), if r.Stored? then r.copy else copy)
    ensures Resume(s, uid, CallStop(slot, del), copy, r) == if r.Done? then At(WaitStop(slot, del), copy) else Idle
    ensures Resume(s, uid, WaitStop(slot, del), copy, r) == if r.Done? then At(CallDelete(slot, del), copy) else Idle
  {
  }

  lemma LookAnswers(s: Settings, uid: string, slot: Slot, del: bool, copy: Copy, r: Reply)
    ensures Resume(s, uid, GetTerminating(slot, del), copy, r) ==
      if r.Missing? then At(WriteTerminated(del), WithTerminated(copy))
      else if !r.Found? then Idle
      else if r.running then
        At(WriteStopping(slot, del), WithStatus(copy, WithReady(copy.obj.status, false, Stopping)))
      else At(CallDelete(slot, del), copy)
    ensures Resume(s, uid, DropNetConf(del), copy, r) == At(WriteTerminated(del), WithTerminated(copy))
  {
    hide WithTerminated, WithReady;
  }

  lemma RemovalAnswers(s: Settings, uid: string, copy: Copy, r: Reply)
    ensures Resume(s, uid, Refetch, copy, r) ==
      if r.Got? then At(WriteRemoval, r.copy.(obj := r.copy.obj.(finalizer := false))) else Idle
    ensures Resume(s, uid, WriteRemoval, copy, r) == Idle
  {
  }

  lemma EntryAnswers(s: Settings, uid: string, copy: Copy, r: Reply)
    ensures Resume(s, uid, AddFinalizer, copy, r) == if r.Stored? then At(GetClass, r.copy) else Idle
    ensures Resume(s, uid, GetClass, copy, r) == if r.ClassEnabled? then Dispatch(copy) else Idle
  {
    hide Dispatch;
  }

  lemma RunningAnswers(s: Settings, uid: string, slot: Slot, copy: Copy, r: Reply)
    ensures Resume(s, uid, GetRunning(slot), copy, r) ==
      if r.Found? then At(WriteRunning, WithStatus(copy, WithNode(copy.obj.status, slot.node)))
      else if r.Missing? then At(WriteRunning, WithStatus(copy, FailedStatus(copy.obj.status, VMDeleted)))
      else Idle
    ensures Resume(s, uid, WriteRunning, copy, r) == Idle
  {
    hide WithNode, FailedStatus;
  }

  lemma ExistingAnswers(s: Settings, uid: string, slot: Slot, copy: Copy, r: Reply)
    ensures Resume(s, uid, ProbeExisting(slot), copy, r) ==
      if r.Found? then
        At(WriteExisting, WithStatus(copy,
          WithReady(WithNode(WithPhase(copy.obj.status, Running), slot.node), true, VMRunning)))
      else LatchCreation(copy)
    ensures Resume(s, uid, WriteExisting, copy, r) == if r.Stored? || r.Conflict? then Idle else LatchCreation(copy)
  {
    hide WithReady, WithNode, LatchCreation;
  }

  lemma PreparationAnswers(s: Settings, uid: string, slot: Slot, net: Net, call: nat, copy: Copy, r: Reply)
    ensures Resume(s, uid, GenerateMac(slot), copy, r) ==
      if r.Mac? then At(CheckIso(slot, r.net), copy) else Fail(copy, MACAddressGenerationFailed)
    ensures Resume(s, uid, CheckIso(slot, net), copy, r) ==
      if r.Done? then At(CallCreate(slot, net), copy) else Fail(copy, ISOValidationFailed)
    ensures Resume(s, uid, CallCreate(slot, net), copy, r) ==
      if r.CreateStarted? then At(WaitCreate(slot, net, r.call), copy) else Fail(copy, VMCreationFailed)
    ensures Resume(s, uid, WaitCreate(slot, net, call), copy, r) ==
      if r.ExitGood? then At(Fetch(slot, net, call), copy) else Fail(copy, VMProvisioningFailed)
    ensures Resume(s, uid, WriteRecord(slot, net, call), copy, r) == Idle
  {
    hide Fail;
  }

  /** The API servers as one pass meets them: any answers, and a record of what was asked. */
  class Api {
    const settings: Settings
    const uid: string
    const replies: nat -> Reply
    ghost const start: Pass
    var log: seq<Exchange>
    /** Where the resumable pass stands after the calls so far. */
    ghost var pass: Pass

    ghost predicate Valid()
      reads this
    {
      Trace(settings, uid, start, replies, 0) == log + Trace(settings, uid, pass, replies, |log|)
    }

    constructor (settings: Settings, uid: string, replies: nat -> Reply, ghost start: Pass)
      ensures Valid() && log == [] && pass == start
      ensures this.settings == settings && this.uid == uid && this.replies == replies && this.start == start
    {
      this.settings := settings;
      this.uid := uid;
      this.replies := replies;
      this.start := start;
      this.log := [];
      this.pass := start;
    }

    /** The code may ask only what the resumable pass asks next. */
    method Ask(request: Request) returns (r: Reply)
      requires Valid() && pass.At? && request == RequestOf(pass.pc, pass.copy)
      modifies this
      ensures Valid() && r == replies(|old(log)|)
      ensures pass == Resume(settings, uid, old(pass).pc, old(pass).copy, r)
    {
      hide Resume, RequestOf;
      r := replies(|log|);
      log := log + [Exchange(request, r)];
      pass := Resume(settings, uid, pass.pc, pass.copy, r);
    }
  }

  /** The Machine object in memory. */
  class Machine {
    var version: nat
    var deleting: bool
    var finalizer: bool
    var phase: Phase
    var providerID: string
    var machineID: string
    var region: string
    var zone: string
    var conditions: seq<Condition>
    var vm: Option<nat>

    constructor (c: Copy)
      ensures View() == c
    {
      version, deleting, finalizer := c.version, c.obj.deleting, c.obj.finalizer;
      var s := c.obj.status;
      phase, providerID, machineID, region, zone := s.phase, s.providerID, s.machineID, s.region, s.zone;
      conditions, vm := s.conditions, s.vm;
    }

    function StatusView(): Status
      reads this
    {
      Status(phase, providerID, machineID, region, zone, conditions, vm)
    }

    function View(): Copy
      reads this
    {
      Copy(version, Object(deleting, finalizer, StatusView()))
    }

    /** The client fills the object in from an answer. */
    method Load(c: Copy)
      modifies this
      ensures View() == c
    {
      version, deleting, finalizer := c.version, c.obj.deleting, c.obj.finalizer;
      var s := c.obj.status;
      phase, providerID, machineID, region, zone := s.phase, s.providerID, s.machineID, s.region, s.zone;
      conditions, vm := s.conditions, s.vm;
    }

    /** `controllerutil.RemoveFinalizer`. */
    method DropFinalizer()
      modifies this`finalizer
      ensures View() == old(View()).(obj := old(View()).obj.(finalizer := false))
    {
      finalizer := false;
    }

    /** `setCondition`. */
    method SetCondition(holds: bool, reason: Reason)
      modifies this`conditions
      ensures conditions == SetReady(old(conditions), holds, reason)
    {
      var existing := |conditions|;
      for i := 0 to |conditions|
        invariant existing == |conditions|
        invariant forall j :: 0 <= j < i ==> !IsReady(conditions[j])
      {
        if conditions[i].kind.ReadyKind? {
          existing := i;
          break;
        }
      }
      if existing < |conditions| {
        conditions := conditions[existing := conditions[existing].(holds := holds, reason := reason)];
      } else {
        conditions := conditions + [Condition(ReadyKind, holds, reason)];
      }
    }

    /** The lifecycle part of `updateVMStatus`. */
    method UpdateVMStatus(node: string)
      modifies this`region, this`zone
      ensures StatusView() == WithNode(old(StatusView()), node)
    {
      if region == "" {
        region := node;
      }
      if zone == "" {
        zone := node;
      }
    }

    /** The status that `reconcileCreate` fills in for a VM it has made. */
    method Record(slot: Slot, call: nat)
      modifies this
      ensures View() == RecordCopy(old(View()), slot, call)
    {
      hide SetReady, Build, Itoa;
      phase := Running;
      providerID := Build(slot);
      machineID := Itoa(slot.id);
      region := slot.node;
      zone := slot.node;
      vm := Some(call);
      UpdateVMStatus(slot.node);
      SetCondition(true, VMRunning);
    }
  }

  class MachineReconciler {
    const api: Api

    constructor (api: Api)
      ensures this.api == api
    {
      this.api := api;
    }

    /** `Reconcile`, from the point where the Machine has been read and is the operator's. */
    method Reconcile(m: Machine)
      requires api.Valid() && api.pass == Begin(m.View())
      modifies api, m
      ensures api.Valid() && api.pass == Idle
    {
      hide Api.Valid, Trace, Resume, Dispatch, BeginDeletion;
      if m.deleting {
        HandleDeletion(m);
        return;
      }
      if !m.finalizer {
        m.finalizer := true;
        var r := api.Ask(UpdateObject(m.View()));
        EntryAnswers(api.settings, api.uid, m.View(), r);
        if !r.Stored? {
          return;
        }
        m.Load(r.copy);
      }
      var r := api.Ask(GetMachineClass);
      EntryAnswers(api.settings, api.uid, m.View(), r);
      if !r.ClassEnabled? {
        return;
      }
      ReconcileByPhase(m);
    }

    /** `handleDeletion`. */
    method HandleDeletion(m: Machine)
      requires api.Valid() && api.pass == BeginDeletion(m.View())
      modifies api, m
      ensures api.Valid() && api.pass == Idle
    {
      hide Api.Valid, Trace, SetReady, Parse, BeginTermination, Resume;
      if !m.finalizer {
        return;
      }
      if m.phase != Phase.Terminating && m.phase != Phase.Terminated {
        var fenced := WriteFence(m);
        if !fenced {
          return;
        }
      }
      var ok := ReconcileTerminating(m, true);
      if !ok {
        return;
      }
      RemoveFinalizer(m);
    }

    /** The write of phase Terminating in `handleDeletion`: here a conflict ends the pass. */
    method WriteFence(m: Machine) returns (ok: bool)
      requires api.Valid()
      requires api.pass == At(Pc.WriteFence, WithStatus(m.View(), WithPhase(m.StatusView(), Phase.Terminating)))
      modifies api, m
      ensures api.Valid()
      ensures api.pass == if ok then BeginTermination(m.View(), true) else Idle
    {
      hide Api.Valid, Trace, BeginTermination, ResumeCreation, ResumeTermination;
      m.phase := Phase.Terminating;
      var r := api.Ask(UpdateStatus(m.View()));
      if !r.Stored? {
        return false;
      }
      m.Load(r.copy);
      return true;
    }

    /** The end of `handleDeletion`: the Machine is read again and its finalizer removed. */
    method RemoveFinalizer(m: Machine)
      requires api.Valid() && api.pass == At(Refetch, m.View())
      modifies api, m
      ensures api.Valid() && api.pass == Idle
    {
      hide Api.Valid, Machine.View, Trace, Resume;
      var r := api.Ask(GetMachine);
      RemovalAnswers(api.settings, api.uid, m.View(), r);
      if !r.Got? {
        return;
      }
      m.Load(r.copy);
      m.DropFinalizer();
      r := api.Ask(UpdateObject(m.View()));
      RemovalAnswers(api.settings, api.uid, m.View(), r);
    }

    /** `updateStatusWithRetry`: a conflict is reported as success, and the copy stays as it is. */
    method UpdateStatusWithRetry(m: Machine) returns (ok: bool, ghost r: Reply)
      requires api.Valid() && api.pass.At? && RequestOf(api.pass.pc, api.pass.copy) == UpdateStatus(m.View())
      modifies api, m
      ensures api.Valid() && api.pass == Resume(api.settings, api.uid, old(api.pass).pc, old(api.pass).copy, r)
      ensures ok <==> r.Stored? || r.Conflict?
      ensures m.View() == if r.Stored? then r.copy else old(m.View())
    {
      hide Api.Valid, Trace, Resume;
      var reply := api.Ask(UpdateStatus(m.View()));
      r := reply;
      if reply.Stored? {
        m.Load(reply.copy);
      }
      return reply.Stored? || reply.Conflict?, r;
    }

    /** The end of `reconcileTerminating`: phase Terminated is written, and a conflict is success. */
    method FinishTermination(m: Machine, ghost del: bool) returns (ok: bool)
      requires api.Valid() && api.pass == At(WriteTerminated(del), WithTerminated(m.View()))
      modifies api, m
      ensures api.Valid()
      ensures api.pass == if ok then AfterTermination(m.View(), del) else Idle
    {
      hide Api.Valid, Trace, SetReady, AfterTermination, ResumeCreation, ResumeOther;
      m.phase := Phase.Terminated;
      m.SetCondition(false, Reason.Terminated);
      ghost var r: Reply;
      ok, r := UpdateStatusWithRetry(m);
    }

    /** `reconcileTerminating`; `del` says whether `handleDeletion` called it. */
    method ReconcileTerminating(m: Machine, ghost del: bool) returns (ok: bool)
      requires api.Valid() && api.pass == BeginTermination(m.View(), del)
      modifies api, m
      ensures api.Valid()
      ensures api.pass == if ok then AfterTermination(m.View(), del) else Idle
    {
      hide Api.Valid, Trace, SetReady, Parse, AfterTermination, WithTerminated, Resume;
      m.SetCondition(false, Reason.Terminating);
      if m.providerID == "" {
        return true;
      }
      var parsed := Parse(m.providerID);
      if parsed.Err? {
        m.SetCondition(false, DeletionFailed);
        return false;
      }
      ok := TerminateAt(m, parsed.value, del);
    }

    /** The rest of `reconcileTerminating`, once the recorded slot is known. */
    method TerminateAt(m: Machine, slot: Slot, ghost del: bool) returns (ok: bool)
      requires api.Valid() && api.pass == At(GetTerminating(slot, del), m.View())
      modifies api, m
      ensures api.Valid()
      ensures api.pass == if ok then AfterTermination(m.View(), del) else Idle
    {
      hide Api.Valid, Trace, SetReady, AfterTermination, WithTerminated, Resume;
      var found := api.Ask(GetVm(slot));
      LookAnswers(api.settings, api.uid, slot, del, m.View(), found);
      if found.Missing? {
        ok := FinishTermination(m, del);
        return;
      }
      if !found.Found? {
        m.SetCondition(false, DeletionFailed);
        return false;
      }
      if found.running {
        ok := StopVM(m, slot, del);
        if !ok {
          return;
        }
      }
      ok := DeleteVM(m, slot, del);
      if !ok {
        return;
      }
      var dropped := api.Ask(DeleteNetConf);
      LookAnswers(api.settings, api.uid, slot, del, m.View(), dropped);
      ok := FinishTermination(m, del);
    }

    /** The deletion inside `reconcileTerminating`, with the wait for its task. */
    method DeleteVM(m: Machine, slot: Slot, ghost del: bool) returns (ok: bool)
      requires api.Valid() && api.pass == At(CallDelete(slot, del), m.View())
      modifies api, m
      ensures api.Valid()
      ensures api.pass == if ok then At(DropNetConf(del), m.View()) else Idle
    {
      hide Api.Valid, Trace, SetReady, ResumeCreation, ResumeOther;
      var task := api.Ask(DeleteVm(slot));
      if !task.DeleteStarted? {
        m.SetCondition(false, DeletionFailed);
        return false;
      }
      var wait := api.Ask(WaitForDelete(task.target));
      if !wait.Done? {
        m.SetCondition(false, DeletionFailed);
        return false;
      }
      return true;
    }

    /** `stopVM`: the result of the status write is ignored. */
    method StopVM(m: Machine, slot: Slot, ghost del: bool) returns (ok: bool)
      requires api.Valid()
      requires api.pass ==
        At(WriteStopping(slot, del), WithStatus(m.View(), WithReady(m.StatusView(), false, Stopping)))
      modifies api, m
      ensures api.Valid()
      ensures api.pass == if ok then At(CallDelete(slot, del), m.View()) else Idle
    {
      hide Api.Valid, Trace, SetReady, Resume;
      m.SetCondition(false, Stopping);
      ghost var sent := m.View();
      ghost var r: Reply;
      ok, r := UpdateStatusWithRetry(m);
      StopAnswers(api.settings, api.uid, slot, del, sent, r);
      ok := StopAndWait(m, slot, del);
    }

    /** The stop task of `stopVM`. */
    method StopAndWait(m: Machine, slot: Slot, ghost del: bool) returns (ok: bool)
      requires api.Valid() && api.pass == At(CallStop(slot, del), m.View())
      modifies api, m
      ensures api.Valid()
      ensures api.pass == if ok then At(CallDelete(slot, del), m.View()) else Idle
    {
      hide Api.Valid, Machine.View, Trace, SetReady, Resume;
      var task := api.Ask(StopVm(slot));
      StopAnswers(api.settings, api.uid, slot, del, m.View(), task);
      if !task.Done? {
        m.SetCondition(false, DeletionFailed);
        return false;
      }
      var wait := api.Ask(WaitForStop);
      StopAnswers(api.settings, api.uid, slot, del, m.View(), wait);
      if !wait.Done? {
        m.SetCondition(false, DeletionFailed);
        return false;
      }
      return true;
    }

    /** `reconcileByPhase`. */
    method ReconcileByPhase(m: Machine)
      requires api.Valid() && api.pass == Dispatch(m.View())
      modifies api, m
      ensures api.Valid() && api.pass == Idle
    {
      hide Api.Valid, Trace, SetReady, Parse, BeginTermination, BeginCreation;
      match m.phase {
        case Unset => ReconcileCreate(m);
        case Pending => ReconcileCreate(m);
        case Creating =>
        case Running => ReconcileRunning(m);
        case Terminating => var _ := ReconcileTerminating(m, false);
        case Failed =>
        case Terminated =>
      }
    }

    /** The writes of `reconcileRunning`, which end the pass whatever the answer. */
    method WriteRefresh(m: Machine)
      requires api.Valid() && api.pass == At(Pc.WriteRunning, m.View())
      modifies api, m
      ensures api.Valid() && api.pass == Idle
    {
      hide Api.Valid, Trace, Resume;
      ghost var sent := m.View();
      var _, r := UpdateStatusWithRetry(m);
      RunningAnswers(api.settings, api.uid, Slot("", 0), sent, r);
    }

    /** `reconcileRunning`. */
    method ReconcileRunning(m: Machine)
      requires api.Valid() && m.phase.Running? && api.pass == Dispatch(m.View())
      modifies api, m
      ensures api.Valid() && api.pass == Idle
    {
      hide Api.Valid, Trace, SetReady, Parse, Resume, WithNode;
      var parsed := Parse(m.providerID);
      if parsed.Err? {
        return;
      }
      var slot := parsed.value;
      var found := api.Ask(GetVm(slot));
      RunningAnswers(api.settings, api.uid, slot, m.View(), found);
      if !found.Found? {
        if found.Missing? {
          m.phase := Failed;
          m.SetCondition(false, VMDeleted);
          WriteRefresh(m);
        }
        return;
      }
      m.UpdateVMStatus(slot.node);
      WriteRefresh(m);
    }

    /** `checkExistingVM`: `ok` says that the VM was found and recorded. */
    method CheckExistingVM(m: Machine) returns (ok: bool)
      requires api.Valid() && api.pass == BeginCreation(m.View())
      modifies api, m
      ensures api.Valid()
      ensures api.pass == if ok then Idle else LatchCreation(m.View())
    {
      hide Api.Valid, Trace, SetReady, Parse, LatchCreation, Resume, WithNode;
      if m.machineID == "" {
        return false;
      }
      var parsed := Parse(m.providerID);
      if parsed.Err? {
        return false;
      }
      var slot := parsed.value;
      var found := api.Ask(GetVm(slot));
      ExistingAnswers(api.settings, api.uid, slot, m.View(), found);
      if !found.Found? {
        return false;
      }
      m.phase := Running;
      m.UpdateVMStatus(slot.node);
      m.SetCondition(true, VMRunning);
      ghost var sent := m.View();
      ghost var r: Reply;
      ok, r := UpdateStatusWithRetry(m);
      ExistingAnswers(api.settings, api.uid, slot, sent, r);
    }

    /** The exit of `reconcileCreate` that marks the Machine Failed; the result of the write is ignored. */
    method FailCreation(m: Machine, reason: Reason)
      requires api.Valid() && api.pass == Fail(m.View(), reason)
      modifies api, m
      ensures api.Valid() && api.pass == Idle
    {
      hide Api.Valid, Trace, SetReady;
      m.phase := Failed;
      m.SetCondition(false, reason);
      var _, _ := UpdateStatusWithRetry(m);
    }

    /** `findAvailableVMID`. */
    method FindAvailableVmid(m: Machine, node: string) returns (id: int)
      requires api.Valid()
      requires api.pass == At(ProbeId(node, VmidAllocation.BaseId(api.settings.idStart, api.uid), 0), m.View())
      modifies api
      ensures api.Valid()
      ensures api.pass == if id == 0 then Fail(m.View(), NoAvailableVMID) else At(GenerateMac(Slot(node, id)), m.View())
    {
      hide Api.Valid, Trace, VmidAllocation.BaseId, Fail;
      var base := VmidAllocation.GenerateVmid(api.settings.idStart, api.uid);
      for attempt := 0 to MAX_ATTEMPTS
        invariant api.Valid()
        invariant api.pass ==
          if attempt < MAX_ATTEMPTS then At(ProbeId(node, base, attempt), m.View()) else Fail(m.View(), NoAvailableVMID)
      {
        id := base + attempt;
        var existing := api.Ask(GetVm(Slot(node, id)));
        if !existing.Found? {
          return;
        }
      }
      return 0;
    }

    /** The Creating write of `reconcileCreate`: a conflict is swallowed and creation goes on. */
    method WriteCreating(m: Machine) returns (ok: bool)
      requires api.Valid() && api.pass == LatchCreation(m.View())
      modifies api, m
      ensures api.Valid()
      ensures api.pass == if ok then At(SelectNode, m.View()) else Idle
    {
      hide Api.Valid, Trace, SetReady, ResumeCreation, ResumeTermination;
      m.phase := Phase.Creating;
      m.SetCondition(false, Reason.Creating);
      ghost var r: Reply;
      ok, r := UpdateStatusWithRetry(m);
    }

    /** `reconcileCreate`. */
    method ReconcileCreate(m: Machine)
      requires api.Valid() && api.pass == BeginCreation(m.View())
      modifies api, m
      ensures api.Valid() && api.pass == Idle
    {
      hide Api.Valid, Trace, SetReady, BeginCreation, LatchCreation, Fail, ResumeTermination, ResumeOther;
      var found := CheckExistingVM(m);
      if found {
        return;
      }
      var ok := WriteCreating(m);
      if !ok {
        return;
      }
      var selected := api.Ask(ChooseNode);
      if !selected.Node? {
        FailCreation(m, NodeSelectionFailed);
        return;
      }
      var id := FindAvailableVmid(m, selected.node);
      if id == 0 {
        FailCreation(m, NoAvailableVMID);
        return;
      }
      CreateAt(m, Slot(selected.node, id));
    }

    /** The second half of `reconcileCreate`, once the ID is chosen. */
    method CreateAt(m: Machine, slot: Slot)
      requires api.Valid() && api.pass == At(GenerateMac(slot), m.View())
      modifies api, m
      ensures api.Valid() && api.pass == Idle
    {
      hide Api.Valid, Machine.View, Trace, Fail, Resume;
      var mac := api.Ask(MakeMac);
      PreparationAnswers(api.settings, api.uid, slot, Net("", 0), 0, m.View(), mac);
      if !mac.Mac? {
        FailCreation(m, MACAddressGenerationFailed);
        return;
      }
      var net := mac.net;
      var iso := api.Ask(ValidateIso(slot.node));
      PreparationAnswers(api.settings, api.uid, slot, net, 0, m.View(), iso);
      if !iso.Done? {
        FailCreation(m, ISOValidationFailed);
        return;
      }
      CreateAndWait(m, slot, net);
    }

    /** The CreateVM call of `reconcileCreate` and the wait for its task. */
    method CreateAndWait(m: Machine, slot: Slot, net: Net)
      requires api.Valid() && api.pass == At(CallCreate(slot, net), m.View())
      modifies api, m
      ensures api.Valid() && api.pass == Idle
    {
      hide Api.Valid, Machine.View, Trace, Fail, Resume;
      var task := api.Ask(CreateVm(slot, net));
      PreparationAnswers(api.settings, api.uid, slot, net, 0, m.View(), task);
      if !task.CreateStarted? {
        FailCreation(m, VMCreationFailed);
        return;
      }
      var exit := api.Ask(WaitForCreate(task.call));
      PreparationAnswers(api.settings, api.uid, slot, net, task.call, m.View(), exit);
      if !exit.ExitGood? {
        FailCreation(m, VMProvisioningFailed);
        return;
      }
      RecordCreation(m, slot, net, task.call);
    }

    /** The end of `reconcileCreate`: the VM is looked up and recorded. */
    method RecordCreation(m: Machine, slot: Slot, net: Net, call: nat)
      requires api.Valid() && api.pass == At(Fetch(slot, net, call), m.View())
      modifies api, m
      ensures api.Valid() && api.pass == Idle
    {
      hide Api.Valid, Trace, RecordCopy, Fail, ResumeTermination, ResumeOther;
      var found := api.Ask(GetVm(slot));
      if !found.Found? {
        FailCreation(m, VMCreationFailed);
        return;
      }
      if api.settings.netConfs && net.mac != "" {
        var _ := api.Ask(CreateNetConf(net));
      }
      RecordRunning(m, slot, net, call);
    }

    /** The last write of `reconcileCreate`. */
    method RecordRunning(m: Machine, slot: Slot, ghost net: Net, call: nat)
      requires api.Valid() && api.pass == At(WriteRecord(slot, net, call), RecordCopy(m.View(), slot, call))
      modifies api, m
      ensures api.Valid() && api.pass == Idle
    {
      hide Api.Valid, Machine.View, RecordCopy, Trace, Resume;
      m.Record(slot, call);
      ghost var sent := m.View();
      var _, r := UpdateStatusWithRetry(m);
      PreparationAnswers(api.settings, api.uid, slot, net, call, sent, r);
    }
  }

  /**
   One pass from end to end: the exchange with the API servers is the one of the
   resumable pass. In particular the reason DeletionFailed, which the methods above set at
   six places, is in no request: the copy that has it is dropped.
   */
  method RunPass(settings: Settings, uid: string, copy: Copy, replies: nat -> Reply) returns (log: seq<Exchange>)
    ensures log == Exchanges.Log(Exchanges.Session(settings, uid, copy, replies))
    ensures ReportedConditions.Clean(copy.obj.status.conditions) && ReportedConditions.CleanAnswers(replies) ==>
      forall i :: 0 <= i < |log| ==> ReportedConditions.CleanRequest(log[i].request)
  {
    hide Begin, Trace, ReportedConditions.Clean, ReportedConditions.CleanAnswers, ReportedConditions.CleanRequest;
    var m := new Machine(copy);
    var api := new Api(settings, uid, replies, Begin(copy));
    var reconciler := new MachineReconciler(api);
    reconciler.Reconcile(m);
    log := api.log;
    EndOfTrace(settings, uid, replies, |log|);
    if ReportedConditions.Clean(copy.obj.status.conditions) && ReportedConditions.CleanAnswers(replies) {
      ReportedConditions.BeginKept(copy, None);
      forall i | 0 <= i < |log|
        ensures ReportedConditions.CleanRequest(log[i].request)
      {
        ReportedConditions.TraceIsClean(settings, uid, Begin(copy), replies, 0, i);
      }
    }
  }

  lemma EndOfTrace(s: Settings, uid: string, replies: nat -> Reply, n: nat)
    ensures Trace(s, uid, Idle, replies, n) == []
  {
  }
}
