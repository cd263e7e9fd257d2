/** What a pass asks of the API servers, and the whole exchange of a pass for any answers. */
module PassTraces {
  import opened ProviderId
  import opened Machines
  import opened Reconcile

  /** `UpdateObject` and `UpdateStatus` carry the object as it is sent, with the version it was read at. */
  datatype Request =
    | UpdateObject(copy: Copy)
    | UpdateStatus(copy: Copy)
    | GetMachine
    | GetMachineClass
    | ChooseNode
    | MakeMac
    | ValidateIso(node: string)
    | GetVm(slot: Slot)
    | CreateVm(slot: Slot, net: Net)
    | WaitForCreate(call: nat)
    | StopVm(slot: Slot)
    | WaitForStop
    | DeleteVm(slot: Slot)
    | WaitForDelete(target: Vm)
    | CreateNetConf(net: Net)
    | DeleteNetConf

  datatype Exchange = Exchange(request: Request, reply: Reply)

  function RequestOf(pc: Pc, copy: Copy): Request {
    match pc
    case AddFinalizer => UpdateObject(copy)
    case GetClass => GetMachineClass
    case ProbeExisting(slot) => GetVm(slot)
    case WriteExisting => UpdateStatus(copy)
    case WriteLatch => UpdateStatus(copy)
    case SelectNode => ChooseNode
    case ProbeId(node, base, attempt) => GetVm(Slot(node, base + attempt))
    case GenerateMac(_) => MakeMac
    case CheckIso(slot, _) => ValidateIso(slot.node)
    case CallCreate(slot, net) => CreateVm(slot, net)
    case WaitCreate(_, _, call) => WaitForCreate(call)
    case Fetch(slot, _, _) => GetVm(slot)
    case MakeNetConf(_, net, _) => CreateNetConf(net)
    case WriteRecord(_, _, _) => UpdateStatus(copy)
    case WriteFailed => UpdateStatus(copy)
    case GetRunning(slot) => GetVm(slot)
    case WriteRunning => UpdateStatus(copy)
    case WriteFence => UpdateStatus(copy)
    case GetTerminating(slot, _) => GetVm(slot)
    case WriteStopping(_, _) => UpdateStatus(copy)
    case CallStop(slot, _) => StopVm(slot)
    case WaitStop(_, _) => WaitForStop
    case CallDelete(slot, _) => DeleteVm(slot)
    case WaitDelete(_, _, target) => WaitForDelete(target)
    case DropNetConf(_) => DeleteNetConf
    case WriteTerminated(_) => UpdateStatus(copy)
    case Refetch => GetMachine
    case WriteRemoval => UpdateObject(copy)
  }

  /** The exchange from a pass to its end, when the n-th answer of the API is `replies(n)`. */
  function Trace(s: Settings, uid: string, p: Pass, replies: nat -> Reply, n: nat): seq<Exchange>
    decreases Distance(p)
  {
    if p.Idle? then []
    else
      var r := replies(n);
      PassEnds(s, uid, p.pc, p.copy, r);
      [Exchange(RequestOf(p.pc, p.copy), r)] + Trace(s, uid, Resume(s, uid, p.pc, p.copy, r), replies, n + 1)
  }

  /** A pass makes at most 130 calls. */
  lemma {:induction false} TraceIsShort(s: Settings, uid: string, p: Pass, replies: nat -> Reply, n: nat)
    ensures |Trace(s, uid, p, replies, n)| <= Distance(p) <= 130
    decreases Distance(p)
  {
    hide Resume;
    if p.At? {
      var r := replies(n);
      PassEnds(s, uid, p.pc, p.copy, r);
      TraceIsShort(s, uid, Resume(s, uid, p.pc, p.copy, r), replies, n + 1);
    }
  }
}
