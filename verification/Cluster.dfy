/**
 The cluster as a step system: the object store with every version kept, so that a
 read may return any of them; the Proxmox inventory; and at most one reconcile pass
 per Machine, cut at each API call. Passes of different Machines interleave freely,
 may crash, and may be answered by failures or lost replies.
 */
module Cluster {
  import opened Wrappers
  import Text
  import opened Conditions
  import opened ProviderId
  import opened Machines
  import opened Reconcile

  /** The UID of a Machine. A Machine recreated under the same name is another key. */
  type Key = string

  /**
   One Machine: all its stored versions (version numbers are positions), whether it is
   gone from the store, whether every cache has noticed that, the pass in progress, and
   three counters: Creating writes landed, conflicts swallowed at the Creating write,
   and CreateVM calls.
   */
  datatype Cell = Cell(
    hist: seq<Object>, gone: bool, forgotten: bool, pass: Pass, latched: nat, conflicts: nat, creates: nat)

  datatype Task = Waiting | Made | Abandoned

  /** What became of the VM a CreateVM call asks for. */
  datatype Fate =
    | InFlight | Recorded | CallFailed | WaitFailed | BadExit | FetchFailed | RecordLost | Crashed

  /** One CreateVM call; its position in the log names the VM it makes. */
  datatype Call = Call(key: Key, slot: Slot, net: Net, task: Task, fate: Fate)

  /** A NetworkConfiguration: `origin` is the CreateVM call whose configuration it was made from. */
  datatype NetConf = NetConf(net: Net, origin: Option<nat>)

  datatype World = World(
    settings: Settings,
    cells: map<Key, Cell>,
    vms: map<Slot, Vm>,
    calls: seq<Call>,
    doomed: set<(Slot, Vm)>,
    nets: map<Key, NetConf>)

  /** How an API call went. A lost reply took effect although the caller sees an error. */
  datatype Outcome = Landed | LostReply | Read(version: nat) | Plain(reply: Reply)

  datatype Event =
    | AddMachine(key: Key, obj: Object)
    | Touch(key: Key)
    | Delete(key: Key)
    | Reap(key: Key)
    | Forget(key: Key)
    | Start(key: Key, version: nat)
    | Act(key: Key, outcome: Outcome)
    | Crash(key: Key)
    | MakeVm(call: nat)
    | AbandonTask(call: nat)
    | RemoveDoomed(slot: Slot, vm: Vm)
    | ForeignMake(slot: Slot, tag: nat)
    | ForeignRemove(slot: Slot)
    | ForeignNetConf(key: Key, net: Net)
    | CollectNetConf(key: Key)

  function Last(h: seq<Object>): Object
    requires h != []
  {
    h[|h| - 1]
  }

  // ----- One Machine

  predicate WritesStatus(pc: Pc) {
    || pc.WriteExisting? || pc.WriteLatch? || pc.WriteRecord? || pc.WriteFailed? || pc.WriteRunning?
    || pc.WriteFence? || pc.WriteStopping? || pc.WriteTerminated?
  }

  predicate WritesMeta(pc: Pc) {
    pc.AddFinalizer? || pc.WriteRemoval?
  }

  predicate Writes(pc: Pc) {
    WritesStatus(pc) || WritesMeta(pc)
  }

  predicate Effective(o: Outcome) {
    o.Landed? || o.LostReply?
  }

  /** A write of `copy` landing on `last`: the status subresource and the metadata are separate. */
  function WriteResult(pc: Pc, copy: Copy, last: Object): Object {
    if WritesMeta(pc) then last.(finalizer := copy.obj.finalizer) else last.(status := copy.obj.status)
  }

  predicate Lands(c: Cell, o: Outcome) {
    c.pass.At? && Writes(c.pass.pc) && Effective(o)
  }

  function HistAfter(c: Cell, o: Outcome): seq<Object>
    requires c.hist != []
  {
    if Lands(c, o) then c.hist + [WriteResult(c.pass.pc, c.pass.copy, Last(c.hist))] else c.hist
  }

  /** The store accepts a write exactly of the current version, and every write makes a new one. */
  predicate StoreAllows(c: Cell, o: Outcome)
    requires c.pass.At? && c.hist != []
  {
    var current := c.pass.copy.version == |c.hist| - 1;
    if Writes(c.pass.pc) then
      || (Effective(o) && !c.gone && current)
      || (o == Plain(Conflict) && !c.gone && !current)
      || (o == Plain(NotFound) && c.gone)
      || o == Plain(Error)
    else if c.pass.pc.Refetch? then
      || (o.Read? && o.version < |c.hist|)
      || (o == Plain(NotFound) && c.gone)
      || o == Plain(Error)
    else
      !o.Read? && !o.Landed? && (o.Plain? ==> !o.reply.Stored? && !o.reply.Got?)
  }

  /** What the code sees. */
  function Observe(c: Cell, o: Outcome): Reply
    requires c.pass.At? && c.hist != []
  {
    match o
    case Landed =>
      if Writes(c.pass.pc) then Stored(Copy(|c.hist|, WriteResult(c.pass.pc, c.pass.copy, Last(c.hist)))) else Error
    case LostReply => Error
    case Read(v) => if v < |c.hist| then Got(Copy(v, c.hist[v])) else Error
    case Plain(r) => r
  }

  function PassAfter(s: Settings, k: Key, c: Cell, o: Outcome): Pass
    requires c.pass.At? && c.hist != []
  {
    Resume(s, k, c.pass.pc, c.pass.copy, Observe(c, o))
  }

  function CellAct(s: Settings, k: Key, c: Cell, o: Outcome): Cell
    requires c.pass.At? && c.hist != []
  {
    var pc := c.pass.pc;
    c.(hist := HistAfter(c, o),
       pass := PassAfter(s, k, c, o),
       latched := c.latched + (if pc.WriteLatch? && Effective(o) then 1 else 0),
       conflicts := c.conflicts + (if pc.WriteLatch? && o == Plain(Conflict) then 1 else 0),
       creates := c.creates + (if pc.CallCreate? then 1 else 0))
  }

  // ----- Proxmox

  /** The pass is about to look a VM up. */
  predicate Looks(pc: Pc) {
    pc.ProbeExisting? || pc.ProbeId? || pc.Fetch? || pc.GetRunning? || pc.GetTerminating?
  }

  function LookedAt(pc: Pc): Slot
    requires Looks(pc)
  {
    if pc.ProbeId? then Slot(pc.node, pc.base + pc.attempt) else pc.slot
  }

  predicate Truthful(w: World, slot: Slot, o: Outcome) {
    || (o.Plain? && o.reply.Found? && slot in w.vms)
    || (o == Plain(Missing) && slot !in w.vms)
    || o == Plain(Error)
  }

  /** What Proxmox and the other services may answer to the call a pass is about to make. */
  predicate ServiceAllows(w: World, pc: Pc, o: Outcome) {
    if pc.GetClass? then o in {Plain(ClassEnabled), Plain(ClassDisabled), Plain(Error)}
    else if Looks(pc) then Truthful(w, LookedAt(pc), o)
    else if pc.SelectNode? then (o.Plain? && o.reply.Node? && '/' !in o.reply.node) || o == Plain(Error)
    else if pc.GenerateMac? then (o.Plain? && o.reply.Mac?) || o == Plain(Error)
    else if pc.CheckIso? || pc.WaitStop? || pc.WaitDelete? then o in {Plain(Done), Plain(Error)}
    else if pc.CallCreate? then o in {Plain(CreateStarted(|w.calls|)), LostReply, Plain(Error)}
    else if pc.WaitCreate? then
      || (o == Plain(ExitGood) && pc.call < |w.calls| && w.calls[pc.call].task.Made?)
      || o in {Plain(ExitBad), Plain(Error)}
    else if pc.MakeNetConf? || pc.DropNetConf? then o in {Plain(Done), LostReply, Plain(Error)}
    else if pc.CallStop? then (o == Plain(Done) && pc.slot in w.vms) || o == Plain(Error)
    else if pc.CallDelete? then
      || (pc.slot in w.vms && o in {Plain(DeleteStarted(w.vms[pc.slot])), LostReply})
      || o == Plain(Error)
    else true
  }

  predicate Occupies(w: World, slot: Slot, vm: Vm) {
    slot in w.vms && w.vms[slot] == vm
  }

  /** A delete task that has been waited for has removed its VM. */
  function VmsAfter(w: World, pc: Pc, o: Outcome): map<Slot, Vm> {
    if pc.WaitDelete? && o == Plain(Done) && Occupies(w, pc.slot, pc.target) then w.vms - {pc.slot} else w.vms
  }

  function DoomedAfter(w: World, pc: Pc, o: Outcome): set<(Slot, Vm)> {
    if pc.CallDelete? && o != Plain(Error) && pc.slot in w.vms then w.doomed + {(pc.slot, w.vms[pc.slot])}
    else w.doomed
  }

  function SetFate(calls: seq<Call>, i: nat, f: Fate): seq<Call> {
    if i < |calls| then calls[i := calls[i].(fate := f)] else calls
  }

  /** The CreateVM log: a call is added, or the fate of the pass's call is settled. */
  function CallsAfter(w: World, k: Key, pc: Pc, o: Outcome): seq<Call> {
    if pc.CallCreate? then
      w.calls + [Call(k, pc.slot, pc.net, if o == Plain(Error) then Abandoned else Waiting,
                      if o.Plain? && o.reply.CreateStarted? then InFlight else CallFailed)]
    else if pc.WaitCreate? then
      if o == Plain(ExitGood) then w.calls
      else SetFate(w.calls, pc.call, if o == Plain(ExitBad) then BadExit else WaitFailed)
    else if pc.Fetch? then
      if o.Plain? && o.reply.Found? then w.calls else SetFate(w.calls, pc.call, FetchFailed)
    else if pc.WriteRecord? then SetFate(w.calls, pc.call, if Effective(o) then Recorded else RecordLost)
    else w.calls
  }

  /**
   NetworkConfigurations: created when absent, never altered, deleted with the VM. The
   code ignores the answers, so Error also stands for a call without effect that reports
   success because its cached existence test was stale.
   */
  function NetsAfter(w: World, k: Key, pc: Pc, o: Outcome): map<Key, NetConf> {
    if o == Plain(Error) then w.nets
    else if pc.MakeNetConf? && k !in w.nets then w.nets[k := NetConf(pc.net, Some(pc.call))]
    else if pc.DropNetConf? then w.nets - {k}
    else w.nets
  }

  /** The CreateVM call a pass still has to answer for. */
  function Held(p: Pass): Option<nat> {
    if p.At? && (p.pc.WaitCreate? || p.pc.Fetch? || p.pc.MakeNetConf? || p.pc.WriteRecord?) then Some(p.pc.call)
    else None
  }

  // ----- Steps

  function Put(w: World, k: Key, c: Cell): World {
    w.(cells := w.cells[k := c])
  }

  /** A status the API server gives a new object: nothing the operator writes. */
  predicate FreshStatus(s: Status) {
    && s.phase in {Unset, Pending}
    && s.providerID == s.machineID == s.region == s.zone == ""
    && s.vm == None
    && forall i :: 0 <= i < |s.conditions| ==> !IsReady(s.conditions[i])
  }

  predicate Enabled(w: World, e: Event) {
    match e
    case AddMachine(k, obj) => k !in w.cells && !obj.deleting && FreshStatus(obj.status)
    case Touch(k) => k in w.cells && w.cells[k].hist != [] && !w.cells[k].gone
    case Delete(k) => k in w.cells && w.cells[k].hist != [] && !w.cells[k].gone && !Last(w.cells[k].hist).deleting
    case Reap(k) =>
      && k in w.cells && w.cells[k].hist != [] && !w.cells[k].gone
      && Last(w.cells[k].hist).deleting && !Last(w.cells[k].hist).finalizer
    case Forget(k) => k in w.cells && w.cells[k].gone && w.cells[k].pass.Idle?
    case Start(k, v) => k in w.cells && w.cells[k].pass.Idle? && !w.cells[k].forgotten && v < |w.cells[k].hist|
    case Act(k, o) =>
      && k in w.cells && w.cells[k].pass.At? && w.cells[k].hist != []
      && StoreAllows(w.cells[k], o) && ServiceAllows(w, w.cells[k].pass.pc, o)
    case Crash(k) => k in w.cells && w.cells[k].pass.At?
    case MakeVm(i) => i < |w.calls| && w.calls[i].task.Waiting? && w.calls[i].slot !in w.vms
    case AbandonTask(i) => i < |w.calls| && w.calls[i].task.Waiting?
    case RemoveDoomed(slot, vm) => (slot, vm) in w.doomed && Occupies(w, slot, vm)
    case ForeignMake(slot, tag) => slot !in w.vms
    case ForeignRemove(slot) => slot in w.vms
    case ForeignNetConf(k, _) => k !in w.nets
    case CollectNetConf(k) => k in w.cells && w.cells[k].gone
  }

  function ActWorld(w: World, k: Key, o: Outcome): World
    requires k in w.cells && w.cells[k].pass.At? && w.cells[k].hist != []
  {
    var c := w.cells[k];
    var pc := c.pass.pc;
    World(w.settings, w.cells[k := CellAct(w.settings, k, c, o)], VmsAfter(w, pc, o), CallsAfter(w, k, pc, o),
          DoomedAfter(w, pc, o), NetsAfter(w, k, pc, o))
  }

  function CrashWorld(w: World, k: Key): World
    requires k in w.cells
  {
    var c := w.cells[k];
    var calls := if Held(c.pass).Some? then SetFate(w.calls, Held(c.pass).value, Crashed) else w.calls;
    Put(w, k, c.(pass := Idle)).(calls := calls)
  }

  function Apply(w: World, e: Event): World
    requires Enabled(w, e)
  {
    match e
    case AddMachine(k, obj) => Put(w, k, Cell([obj], false, false, Idle, 0, 0, 0))
    case Touch(k) => Put(w, k, w.cells[k].(hist := w.cells[k].hist + [Last(w.cells[k].hist)]))
    case Delete(k) => Put(w, k, w.cells[k].(hist := w.cells[k].hist + [Last(w.cells[k].hist).(deleting := true)]))
    case Reap(k) => Put(w, k, w.cells[k].(gone := true))
    case Forget(k) => Put(w, k, w.cells[k].(forgotten := true))
    case Start(k, v) => Put(w, k, w.cells[k].(pass := Begin(Copy(v, w.cells[k].hist[v]))))
    case Act(k, o) => ActWorld(w, k, o)
    case Crash(k) => CrashWorld(w, k)
    case MakeVm(i) =>
      w.(vms := w.vms[w.calls[i].slot := Own(i)], calls := w.calls[i := w.calls[i].(task := Made)])
    case AbandonTask(i) => w.(calls := w.calls[i := w.calls[i].(task := Abandoned)])
    case RemoveDoomed(slot, _) => w.(vms := w.vms - {slot})
    case ForeignMake(slot, tag) => w.(vms := w.vms[slot := Foreign(tag)])
    case ForeignRemove(slot) => w.(vms := w.vms - {slot})
    case ForeignNetConf(k, net) => w.(nets := w.nets[k := NetConf(net, None)])
    case CollectNetConf(k) => w.(nets := w.nets - {k})
  }

  /** The configured first VM ID leaves room for the offsets added to it in Go's `int`. */
  predicate RoomForIds(s: Settings) {
    Text.MIN_INT64 <= s.idStart <= Text.MAX_INT64 - 2000
  }

  /** Before the operator has done anything: no Machine, and an inventory of other people's VMs. */
  predicate Init(w: World) {
    && RoomForIds(w.settings)
    && w.cells == map[]
    && w.calls == []
    && w.doomed == {}
    && w.nets == map[]
    && forall slot :: slot in w.vms ==> w.vms[slot].Foreign?
  }

  /** A run: worlds linked by events. */
  predicate IsRun(ws: seq<World>, es: seq<Event>) {
    && |ws| == |es| + 1
    && Init(ws[0])
    && forall i :: 0 <= i < |es| ==> Enabled(ws[i], es[i]) && ws[i + 1] == Apply(ws[i], es[i])
  }
}
