/**
 The reconciler's code as a resumable pass: what it does between two API calls is
 one application of `Resume`, and a pass in progress is the call it is about to make
 together with its copy of the Machine. The imperative form is in module Reconciler.
 */
module Reconcile {
  import opened Wrappers
  import opened Text
  import opened ProviderId
  import opened Machines
  import opened Conditions
  import VmidAllocation

  /** The network configuration chosen for a VM. */
  datatype Net = Net(mac: string, vlan: int)

  /** A VM incarnation: the n-th CreateVM call's, or one that somebody else made. */
  datatype Vm = Own(call: nat) | Foreign(tag: nat)

  /** `netConfs` stands for IP_SOURCE == "networkconfiguration". */
  datatype Settings = Settings(idStart: int, netConfs: bool)

  /** The API call a pass is about to make. `del` tells `handleDeletion` from the Terminating arm of the dispatch. */
  datatype Pc =
    | AddFinalizer
    | GetClass
    | ProbeExisting(slot: Slot)
    | WriteExisting
    | WriteLatch
    | SelectNode
    | ProbeId(node: string, base: int, attempt: nat)
    | GenerateMac(slot: Slot)
    | CheckIso(slot: Slot, net: Net)
    | CallCreate(slot: Slot, net: Net)
    | WaitCreate(slot: Slot, net: Net, call: nat)
    | Fetch(slot: Slot, net: Net, call: nat)
    | MakeNetConf(slot: Slot, net: Net, call: nat)
    | WriteRecord(slot: Slot, net: Net, call: nat)
    | WriteFailed
    | GetRunning(slot: Slot)
    | WriteRunning
    | WriteFence
    | GetTerminating(slot: Slot, del: bool)
    | WriteStopping(slot: Slot, del: bool)
    | CallStop(slot: Slot, del: bool)
    | WaitStop(slot: Slot, del: bool)
    | CallDelete(slot: Slot, del: bool)
    | WaitDelete(slot: Slot, del: bool, target: Vm)
    | DropNetConf(del: bool)
    | WriteTerminated(del: bool)
    | Refetch
    | WriteRemoval

  datatype Pass = Idle | At(pc: Pc, copy: Copy)

  /** What the code sees of an API call. `call` and `target` are carried by the task handles. */
  datatype Reply =
    | Stored(copy: Copy)
    | Got(copy: Copy)
    | Conflict
    | NotFound
    | Error
    | ClassEnabled
    | ClassDisabled
    | Found(running: bool)
    | Missing
    | Node(node: string)
    | Mac(net: Net)
    | Done
    | CreateStarted(call: nat)
    | DeleteStarted(target: Vm)
    | ExitGood
    | ExitBad

  const MAX_ATTEMPTS: nat := VmidAllocation.MAX_ATTEMPTS

  /** The status with phase Failed and Ready "False". */
  function FailedStatus(s: Status, reason: Reason): Status {
    WithReady(WithPhase(s, Failed), false, reason)
  }

  function Fail(copy: Copy, reason: Reason): Pass {
    At(WriteFailed, WithStatus(copy, FailedStatus(copy.obj.status, reason)))
  }

  /** `Reconcile` once the Machine has been read. */
  function Begin(copy: Copy): Pass {
    if copy.obj.deleting then BeginDeletion(copy)
    else if copy.obj.finalizer then At(GetClass, copy)
    else At(AddFinalizer, copy.(obj := copy.obj.(finalizer := true)))
  }

  /** `handleDeletion`. */
  function BeginDeletion(copy: Copy): Pass {
    if !copy.obj.finalizer then Idle
    else if copy.obj.status.phase != Phase.Terminating && copy.obj.status.phase != Phase.Terminated then
      At(WriteFence, WithStatus(copy, WithPhase(copy.obj.status, Phase.Terminating)))
    else BeginTermination(copy, true)
  }

  /** `reconcileTerminating` up to its first call. */
  function BeginTermination(copy: Copy, del: bool): Pass {
    var c := WithStatus(copy, WithReady(copy.obj.status, false, Reason.Terminating));
    if c.obj.status.providerID == "" then AfterTermination(c, del)
    else
      match Parse(c.obj.status.providerID)
      case Err => Idle
      case Ok(slot) => At(GetTerminating(slot, del), c)
  }

  /** What follows `reconcileTerminating` returning without an error. */
  function AfterTermination(copy: Copy, del: bool): Pass {
    if del then At(Refetch, copy) else Idle
  }

  function WithTerminated(copy: Copy): Copy {
    WithStatus(copy, WithReady(WithPhase(copy.obj.status, Phase.Terminated), false, Reason.Terminated))
  }

  /** `reconcileByPhase`. */
  function Dispatch(copy: Copy): Pass {
    match copy.obj.status.phase
    case Unset => BeginCreation(copy)
    case Pending => BeginCreation(copy)
    case Creating => Idle
    case Running =>
      (match Parse(copy.obj.status.providerID)
       case Err => Idle
       case Ok(slot) => At(GetRunning(slot), copy))
    case Terminating => BeginTermination(copy, false)
    case Failed => Idle
    case Terminated => Idle
  }

  /** `reconcileCreate` with `checkExistingVM` up to its first call. */
  function BeginCreation(copy: Copy): Pass {
    if copy.obj.status.machineID == "" then LatchCreation(copy)
    else
      match Parse(copy.obj.status.providerID)
      case Err => LatchCreation(copy)
      case Ok(slot) => At(ProbeExisting(slot), copy)
  }

  function LatchCreation(copy: Copy): Pass {
    At(WriteLatch, WithStatus(copy, WithReady(WithPhase(copy.obj.status, Phase.Creating), false, Reason.Creating)))
  }

  function RecordCopy(copy: Copy, slot: Slot, call: nat): Copy {
    WithStatus(copy, WithReady(WithNode(RecordedAt(copy.obj.status, slot, call), slot.node), true, VMRunning))
  }

  /** `findAvailableVMID` after one probe. */
  function AfterProbe(copy: Copy, node: string, base: int, attempt: nat, occupied: bool): Pass {
    if !occupied then
      if base + attempt == 0 then Fail(copy, NoAvailableVMID) else At(GenerateMac(Slot(node, base + attempt)), copy)
    else if attempt + 1 < MAX_ATTEMPTS then At(ProbeId(node, base, attempt + 1), copy)
    else Fail(copy, NoAvailableVMID)
  }

  /** The pass is inside `reconcileCreate`, past the write of phase Creating. */
  predicate Creates(pc: Pc) {
    || pc.SelectNode? || pc.ProbeId? || pc.GenerateMac? || pc.CheckIso? || pc.CallCreate? || pc.WaitCreate?
    || pc.Fetch? || pc.MakeNetConf? || pc.WriteRecord? || pc.WriteFailed?
  }

  /** The pass is inside `reconcileTerminating` or past it. */
  predicate Terminates(pc: Pc) {
    || pc.GetTerminating? || pc.WriteStopping? || pc.CallStop? || pc.WaitStop? || pc.CallDelete? || pc.WaitDelete?
    || pc.DropNetConf? || pc.WriteTerminated? || pc.Refetch? || pc.WriteRemoval?
  }

  function ResumeCreation(s: Settings, uid: string, pc: Pc, copy: Copy, r: Reply): Pass
    requires Creates(pc)
  {
    match pc
    case SelectNode =>
      if r.Node? then At(ProbeId(r.node, VmidAllocation.BaseId(s.idStart, uid), 0), copy)
      else Fail(copy, NodeSelectionFailed)
    case ProbeId(node, base, attempt) => AfterProbe(copy, node, base, attempt, r.Found?)
    case GenerateMac(slot) =>
      if r.Mac? then At(CheckIso(slot, r.net), copy) else Fail(copy, MACAddressGenerationFailed)
    case CheckIso(slot, net) =>
      if r.Done? then At(CallCreate(slot, net), copy) else Fail(copy, ISOValidationFailed)
    case CallCreate(slot, net) =>
      if r.CreateStarted? then At(WaitCreate(slot, net, r.call), copy) else Fail(copy, VMCreationFailed)
    case WaitCreate(slot, net, call) =>
      if r.ExitGood? then At(Fetch(slot, net, call), copy) else Fail(copy, VMProvisioningFailed)
    case Fetch(slot, net, call) =>
      if !r.Found? then Fail(copy, VMCreationFailed)
      else if s.netConfs && net.mac != "" then At(MakeNetConf(slot, net, call), copy)
      else At(WriteRecord(slot, net, call), RecordCopy(copy, slot, call))
    case MakeNetConf(slot, net, call) => At(WriteRecord(slot, net, call), RecordCopy(copy, slot, call))
    case WriteRecord(_, _, _) => Idle
    case WriteFailed => Idle
  }

  function ResumeTermination(pc: Pc, copy: Copy, r: Reply): Pass
    requires Terminates(pc)
  {
    match pc
    case GetTerminating(slot, del) =>
      if r.Missing? then At(WriteTerminated(del), WithTerminated(copy))
      else if !r.Found? then Idle
      else if r.running then
        At(WriteStopping(slot, del), WithStatus(copy, WithReady(copy.obj.status, false, Stopping)))
      else At(CallDelete(slot, del), copy)
    case WriteStopping(slot, del) => At(CallStop(slot, del), if r.Stored? then r.copy else copy)
    case CallStop(slot, del) => if r.Done? then At(WaitStop(slot, del), copy) else Idle
    case WaitStop(slot, del) => if r.Done? then At(CallDelete(slot, del), copy) else Idle
    case CallDelete(slot, del) => if r.DeleteStarted? then At(WaitDelete(slot, del, r.target), copy) else Idle
    case WaitDelete(_, del, _) => if r.Done? then At(DropNetConf(del), copy) else Idle
    case DropNetConf(del) => At(WriteTerminated(del), WithTerminated(copy))
    case WriteTerminated(del) =>
      if r.Stored? then AfterTermination(r.copy, del)
      else if r.Conflict? then AfterTermination(copy, del)
      else Idle
    case Refetch => if r.Got? then At(WriteRemoval, r.copy.(obj := r.copy.obj.(finalizer := false))) else Idle
    case WriteRemoval => Idle
  }

  function ResumeOther(pc: Pc, copy: Copy, r: Reply): Pass
    requires !Creates(pc) && !Terminates(pc)
  {
    match pc
    case AddFinalizer => if r.Stored? then At(GetClass, r.copy) else Idle
    case GetClass => if r.ClassEnabled? then Dispatch(copy) else Idle
    case ProbeExisting(slot) =>
      if r.Found? then
        At(WriteExisting, WithStatus(copy,
          WithReady(WithNode(WithPhase(copy.obj.status, Running), slot.node), true, VMRunning)))
      else LatchCreation(copy)
    case WriteExisting => if r.Stored? || r.Conflict? then Idle else LatchCreation(copy)
    case WriteLatch =>
      if r.Stored? then At(SelectNode, r.copy) else if r.Conflict? then At(SelectNode, copy) else Idle
    case GetRunning(slot) =>
      if r.Found? then At(WriteRunning, WithStatus(copy, WithNode(copy.obj.status, slot.node)))
      else if r.Missing? then At(WriteRunning, WithStatus(copy, FailedStatus(copy.obj.status, VMDeleted)))
      else Idle
    case WriteRunning => Idle
    case WriteFence => if r.Stored? then BeginTermination(r.copy, true) else Idle
  }

  /** The code from the reply to one API call to the next call, or to the end of the pass. */
  function Resume(s: Settings, uid: string, pc: Pc, copy: Copy, r: Reply): Pass {
    if Creates(pc) then ResumeCreation(s, uid, pc, copy, r)
    else if Terminates(pc) then ResumeTermination(pc, copy, r)
    else ResumeOther(pc, copy, r)
  }

  // ----- Passes end

  /** How far a pass is from its end; every reply makes it smaller. */
  function Distance(p: Pass): nat {
    if p.Idle? then 0 else PcDistance(p.pc)
  }

  function PcDistance(pc: Pc): nat {
    match pc
    case AddFinalizer => 130
    case GetClass => 129
    case ProbeExisting(_) => 128
    case WriteExisting => 127
    case WriteLatch => 126
    case SelectNode => 125
    case ProbeId(_, _, attempt) => if attempt < MAX_ATTEMPTS then 124 - attempt else 24
    case GenerateMac(_) => 23
    case CheckIso(_, _) => 22
    case CallCreate(_, _) => 21
    case WaitCreate(_, _, _) => 20
    case Fetch(_, _, _) => 19
    case MakeNetConf(_, _, _) => 18
    case WriteRecord(_, _, _) => 17
    case WriteFailed => 16
    case GetRunning(_) => 15
    case WriteRunning => 14
    case WriteFence => 13
    case GetTerminating(_, _) => 12
    case WriteStopping(_, _) => 11
    case CallStop(_, _) => 10
    case WaitStop(_, _) => 9
    case CallDelete(_, _) => 8
    case WaitDelete(_, _, _) => 7
    case DropNetConf(_) => 6
    case WriteTerminated(_) => 5
    case Refetch => 4
    case WriteRemoval => 3
  }

  lemma TerminationDistance(copy: Copy, del: bool)
    ensures Distance(BeginTermination(copy, del)) <= 12
    ensures Distance(AfterTermination(copy, del)) <= 4
  {
    hide WithReady, Parse;
  }

  lemma DispatchDistance(copy: Copy)
    ensures Distance(LatchCreation(copy)) <= 126
    ensures Distance(Dispatch(copy)) <= 128
  {
    TerminationDistance(copy, false);
  }

  lemma ProbeDistance(copy: Copy, node: string, base: int, attempt: nat, occupied: bool)
    ensures Distance(AfterProbe(copy, node, base, attempt, occupied)) < Distance(At(ProbeId(node, base, attempt), copy))
  {
    hide FailedStatus;
  }

  lemma CreationEnds(s: Settings, uid: string, pc: Pc, copy: Copy, r: Reply)
    requires Creates(pc)
    ensures Distance(ResumeCreation(s, uid, pc, copy, r)) < Distance(At(pc, copy)) <= 130
  {
    hide WithReady, AfterProbe, RecordCopy, FailedStatus, VmidAllocation.BaseId;
    match pc {
      case SelectNode =>
      case ProbeId(node, base, attempt) => ProbeDistance(copy, node, base, attempt, r.Found?);
      case GenerateMac(_) =>
      case CheckIso(_, _) =>
      case CallCreate(_, _) =>
      case WaitCreate(_, _, _) =>
      case Fetch(_, _, _) =>
      case MakeNetConf(_, _, _) =>
      case WriteRecord(_, _, _) =>
      case WriteFailed =>
    }
  }

  lemma TerminationEnds(pc: Pc, copy: Copy, r: Reply)
    requires Terminates(pc)
    ensures Distance(ResumeTermination(pc, copy, r)) < Distance(At(pc, copy)) <= 130
  {
    hide WithReady, BeginTermination, AfterTermination, WithTerminated;
    if pc.WriteTerminated? {
      TerminationDistance(if r.Stored? then r.copy else copy, pc.del);
    }
  }

  lemma OtherEnds(pc: Pc, copy: Copy, r: Reply)
    requires !Creates(pc) && !Terminates(pc)
    ensures Distance(ResumeOther(pc, copy, r)) < Distance(At(pc, copy)) <= 130
  {
    DispatchDistance(copy);
    if r.Stored? {
      TerminationDistance(r.copy, true);
    }
  }

  /** Whatever the API answers, a pass makes at most 130 calls. */
  lemma PassEnds(s: Settings, uid: string, pc: Pc, copy: Copy, r: Reply)
    ensures Distance(Resume(s, uid, pc, copy, r)) < Distance(At(pc, copy)) <= 130
  {
    if Creates(pc) {
      CreationEnds(s, uid, pc, copy, r);
    } else if Terminates(pc) {
      TerminationEnds(pc, copy, r);
    } else {
      OtherEnds(pc, copy, r);
    }
  }
}
