/** What a pass that meets no failure and no interference achieves: creation. */
module CreationProgress {
  import opened Wrappers
  import opened ProviderId
  import opened Machines
  import opened Reconcile
  import opened Cluster
  import opened MachineInvariants
  import opened ClusterInvariants
  import opened Accounting
  import opened QuietRuns
  import opened VmidAllocation

  function OccupiedIds(w: World, node: string): (ids: set<int>)
    ensures forall id :: id in ids <==> Slot(node, id) in w.vms
  {
    set slot | slot in w.vms && slot.node == node :: slot.id
  }

  /** The slot of the least free ID in the Machine's window on that node, as the inventory was. */
  predicate ChosenSlot(w0: World, k: Key, slot: Slot) {
    LeastFree(BaseId(w0.settings.idStart, k), OccupiedIds(w0, slot.node), slot.id) && slot !in w0.vms
  }

  /** All 100 IDs are taken, or the least free one is the 0 that the code reads as "none". */
  predicate NoRoom(w0: World, k: Key, node: string) {
    var base := BaseId(w0.settings.idStart, k);
    WindowFull(base, OccupiedIds(w0, node)) || LeastFree(base, OccupiedIds(w0, node), 0)
  }

  /** The node that the pass of Machine k has been given, once this event has happened too. */
  function ToldAfter(told: Option<string>, k: Key, e: Event): Option<string> {
    if e.Act? && e.key == k && e.outcome.Plain? && e.outcome.reply.Node? then Some(e.outcome.reply.node) else told
  }

  /** The node these events gave to the pass of Machine k. */
  function NodeTold(fs: seq<Event>, k: Key): Option<string> {
    if fs == [] then None else ToldAfter(NodeTold(fs[..|fs| - 1], k), k, fs[|fs| - 1])
  }

  lemma {:induction false} ToldByAnEvent(fs: seq<Event>, k: Key)
    requires NodeTold(fs, k).Some?
    ensures exists i :: 0 <= i < |fs| && fs[i] == Act(k, Plain(Reply.Node(NodeTold(fs, k).value)))
  {
    var front, last := fs[..|fs| - 1], fs[|fs| - 1];
    if ToldAfter(None, k, last).Some? {
      assert fs[|fs| - 1] == Act(k, Plain(Reply.Node(NodeTold(fs, k).value)));
    } else {
      ToldByAnEvent(front, k);
      var i :| 0 <= i < |front| && front[i] == Act(k, Plain(Reply.Node(NodeTold(front, k).value)));
      assert fs[i] == front[i];
    }
  }

  /** The NetworkConfigurations after a VM was given this network: one is made if they are on and it has a MAC. */
  predicate NetConfMade(w0: World, w: World, k: Key, net: Net) {
    if w0.settings.netConfs && net.mac != "" then
      && k in w.nets && w.nets == w0.nets[k := w.nets[k]]
      && (if k in w0.nets then w.nets[k] == w0.nets[k] else w.nets[k].net == net)
    else w.nets == w0.nets
  }

  /** What a quiet creation pass that was given this node leaves behind. */
  predicate Created(w0: World, w: World, k: Key, told: Option<string>)
    requires k in w.cells && w.cells[k].hist != []
  {
    var s := Newest(w, k).status;
    || (s.phase.Running? && s.vm.Some? && s.vm.value < |w.calls|
        && var slot := w.calls[s.vm.value].slot;
           && told == Some(slot.node) && ChosenSlot(w0, k, slot)
           && s.providerID == Build(slot) && w.vms == w0.vms[slot := Own(s.vm.value)]
           && NetConfMade(w0, w, k, w.calls[s.vm.value].net))
    || (s.phase.Failed? && w.vms == w0.vms && w.nets == w0.nets && told.Some? && NoRoom(w0, k, told.value))
  }

  /** Where a quiet creation pass stands, with w0 the world it started in. */
  predicate Making(w0: World, w: World, k: Key, told: Option<string>) {
    && k in w.cells && w.cells[k].hist != [] && !w.cells[k].gone && !Newest(w, k).deleting
    && w.settings == w0.settings
    && match w.cells[k].pass
       case Idle => Created(w0, w, k, told)
       case At(pc, copy) => copy.version + 1 == |w.cells[k].hist| && MakingAt(w0, w, k, told, pc, copy)
  }

  predicate MakingAt(w0: World, w: World, k: Key, told: Option<string>, pc: Pc, copy: Copy)
    requires k in w.cells
  {
    && (if pc.WriteRecord? then NetConfMade(w0, w, k, pc.net) else w.nets == w0.nets)
    && (pc.MakeNetConf? ==> w0.settings.netConfs && pc.net.mac != "")
    && if pc.WaitCreate? then
      && told == Some(pc.slot.node) && ChosenSlot(w0, k, pc.slot) && pc.call < |w.calls|
      && (if w.calls[pc.call].task.Made? then w.vms == w0.vms[pc.slot := Own(pc.call)]
          else w.vms == w0.vms && w.calls[pc.call].task.Waiting?)
    else if pc.Fetch? || pc.MakeNetConf? || pc.WriteRecord? then
      told == Some(pc.slot.node) && ChosenSlot(w0, k, pc.slot) && w.vms == w0.vms[pc.slot := Own(pc.call)]
    else
      && w.vms == w0.vms
      && (Creates(pc) || pc.AddFinalizer? || pc.GetClass? || pc.WriteLatch?)
      && (pc.AddFinalizer? || pc.GetClass? ==> Rank(copy.obj.status.phase) == 0)
      && (pc.ProbeId? ==>
            && told == Some(pc.node) && pc.base == BaseId(w0.settings.idStart, k)
            && forall id :: pc.base <= id < pc.base + pc.attempt ==> Slot(pc.node, id) in w0.vms)
      && (pc.GenerateMac? || pc.CheckIso? || pc.CallCreate? ==>
            told == Some(pc.slot.node) && ChosenSlot(w0, k, pc.slot))
      && (pc.WriteFailed? ==> told.Some? && NoRoom(w0, k, told.value))
  }

  /** Calls left to make, and the VM left to appear. */
  function Left(w0: World, w: World, k: Key): nat
    requires k in w.cells
  {
    Distance(w.cells[k].pass) + if w.vms == w0.vms then 1 else 0
  }

  lemma CreationStarts(w: World, k: Key)
    requires WorldInv(w) && k in w.cells && w.cells[k].pass.Idle? && !w.cells[k].gone && w.cells[k].hist != []
    requires !Newest(w, k).deleting && Rank(Newest(w, k).status.phase) == 0
    ensures Enabled(w, CurrentStart(w, k)) && Apply(w, CurrentStart(w, k)) == Begun(w, k)
    ensures Making(w, Begun(w, k), k, None) && Left(w, Begun(w, k), k) <= 131
  {
    hide HistInv, PassInv, CallInv, SlotInv, RecordInv, HeldInv, DeadInv;
    assert KeyInv(w, k);
  }

  // ----- One quiet step at a time

  /** The last probe decides: the first free slot of the window is taken, or there is none. */
  lemma ProbeGoes(w0: World, w: World, k: Key, told: Option<string>, pc: Pc, copy: Copy, occupied: bool)
    requires k in w.cells && w.vms == w0.vms && pc.ProbeId? && pc.attempt < VmidAllocation.MAX_ATTEMPTS
    requires MakingAt(w0, w, k, told, pc, copy)
    requires occupied <==> Slot(pc.node, pc.base + pc.attempt) in w.vms
    ensures var p := AfterProbe(copy, pc.node, pc.base, pc.attempt, occupied);
      p.At? && p.copy.version == copy.version && MakingAt(w0, w, k, told, p.pc, p.copy)
  {
    hide WithReady, BaseId;
    var node, base := pc.node, pc.base;
    if !occupied {
      assert LeastFree(base, OccupiedIds(w0, node), base + pc.attempt);
      if base + pc.attempt == 0 {
        assert NoRoom(w0, k, node);
      }
    } else if pc.attempt + 1 == VmidAllocation.MAX_ATTEMPTS {
      assert WindowFull(base, OccupiedIds(w0, node));
      assert NoRoom(w0, k, node);
    }
  }

  lemma PreparationGoes(w0: World, w: World, k: Key, told: Option<string>, o: Outcome)
    requires WorldInv(w) && k in w.cells && Making(w0, w, k, told) && KeyInv(w, k) && w.cells[k].pass.At?
    requires QuietEvent(w, k, Act(k, o)) && !Creates(w.cells[k].pass.pc)
    ensures Making(w0, ActWorld(w, k, o), k, ToldAfter(told, k, Act(k, o)))
  {
    hide WorldInv, HistInv, Parse, Build, Conditions.SetReady, RecordInv, HeldInv, DeadInv, CountInv, Created,
      CallsAfter, DoomedAfter, BaseId, ChosenSlot, NoRoom, ResumeCreation, ResumeTermination,
      BeginTermination, CreationPcInv, TerminationPcInv, StatusInv, Coherent;
    var c := w.cells[k];
    LastCoherent(c.hist);
    VersionKnown(c.hist, c.pass.copy.version);
  }

  /** The version a copy was read at satisfies the invariant. */
  lemma VersionKnown(h: seq<Object>, v: nat)
    requires HistInv(h) && v < |h|
    ensures ObjectInv(h[v]) && (Rank(h[v].status.phase) == 0 ==> h[v].status.machineID == "")
  {
  }

  /** What a quiet step short of the writes does to the world around the pass. */
  lemma CallingWorld(w: World, k: Key, o: Outcome)
    requires k in w.cells && w.cells[k].hist != [] && QuietEvent(w, k, Act(k, o)) && HeldInv(w, k)
    requires w.cells[k].pass.At? && Creates(w.cells[k].pass.pc) && !Writes(w.cells[k].pass.pc)
    requires w.cells[k].pass.pc.Fetch? ==> w.cells[k].pass.pc.slot in w.vms
    ensures var pc, w' := w.cells[k].pass.pc, ActWorld(w, k, o);
      && o.Plain?
      && w'.settings == w.settings && w'.vms == w.vms && NetsFollow(w, w', k, pc)
      && k in w'.cells && w'.cells[k].hist == w.cells[k].hist && w'.cells[k].gone == w.cells[k].gone
      && w'.cells[k].pass == ResumeCreation(w.settings, k, pc, w.cells[k].pass.copy, o.reply)
      && Answered(w, pc, o.reply)
      && (if pc.CallCreate? then
            |w'.calls| == |w.calls| + 1 && w'.calls[|w.calls|].task.Waiting? && o.reply.call == |w.calls|
          else w'.calls == w.calls)
  {
    hide DoomedAfter, WithReady, AfterProbe, FailedStatus, RecordCopy, BaseId;
  }

  /** The one call of creation that makes a NetworkConfiguration, and only where there is none. */
  predicate NetsFollow(w: World, w': World, k: Key, pc: Pc) {
    if pc.MakeNetConf? && k !in w.nets then w'.nets == w.nets[k := NetConf(pc.net, Some(pc.call))]
    else w'.nets == w.nets
  }

  /** The successful answers to the calls of creation. */
  predicate Answered(w: World, pc: Pc, r: Reply) {
    && (pc.SelectNode? <==> r.Node?)
    && (pc.ProbeId? || pc.Fetch? ==> if LookedAt(pc) in w.vms then r.Found? else r.Missing?)
    && (pc.GenerateMac? ==> r.Mac?)
    && (pc.CheckIso? ==> r.Done?)
    && (pc.CallCreate? ==> r.CreateStarted?)
    && (pc.WaitCreate? ==> r.ExitGood? && pc.call < |w.calls| && w.calls[pc.call].task.Made?)
  }

  lemma CallingMoves(w0: World, w: World, w': World, k: Key, told: Option<string>, pc: Pc, copy: Copy, r: Reply)
    requires k in w.cells && k in w'.cells && Creates(pc) && !Writes(pc) && MakingAt(w0, w, k, told, pc, copy)
    requires w'.vms == w.vms && w.settings == w0.settings && Answered(w, pc, r) && NetsFollow(w, w', k, pc)
    requires pc.ProbeId? ==> pc.attempt < VmidAllocation.MAX_ATTEMPTS
    requires pc.CallCreate? ==>
      |w'.calls| == |w.calls| + 1 && w'.calls[|w.calls|].task.Waiting? && r.call == |w.calls|
    ensures var p := ResumeCreation(w.settings, k, pc, copy, r);
      && p.At? && p.copy.version == copy.version
      && MakingAt(w0, w', k, if r.Node? then Some(r.node) else told, p.pc, p.copy)
  {
    hide BaseId, ChosenSlot, NoRoom, AfterProbe, FailedStatus, WithReady, RecordedAt;
    if pc.ProbeId? {
      ProbeGoes(w0, w, k, told, pc, copy, r.Found?);
      ProbeLeads(copy, pc, r.Found?);
      SameMaking(w0, w, w', k, told, AfterProbe(copy, pc.node, pc.base, pc.attempt, r.Found?));
    }
  }

  lemma ProbeLeads(copy: Copy, pc: Pc, occupied: bool)
    requires pc.ProbeId?
    ensures var p := AfterProbe(copy, pc.node, pc.base, pc.attempt, occupied);
      p.At? && (p.pc.ProbeId? || p.pc.GenerateMac? || p.pc.WriteFailed?)
  {
    hide FailedStatus;
  }

  lemma SameMaking(w0: World, w: World, w': World, k: Key, told: Option<string>, p: Pass)
    requires k in w.cells && k in w'.cells && w'.vms == w.vms && w'.nets == w.nets
    requires p.At? && (p.pc.ProbeId? || p.pc.GenerateMac? || p.pc.WriteFailed?)
    requires MakingAt(w0, w, k, told, p.pc, p.copy)
    ensures MakingAt(w0, w', k, told, p.pc, p.copy)
  {
    hide BaseId, ChosenSlot, NoRoom;
  }

  lemma CallingGoes(w0: World, w: World, k: Key, told: Option<string>, o: Outcome)
    requires k in w.cells && Making(w0, w, k, told) && KeyInv(w, k) && w.cells[k].pass.At?
    requires QuietEvent(w, k, Act(k, o)) && Creates(w.cells[k].pass.pc)
    requires !Writes(w.cells[k].pass.pc)
    ensures Making(w0, ActWorld(w, k, o), k, ToldAfter(told, k, Act(k, o)))
    ensures ActWorld(w, k, o).cells[k].pass.At?
  {
    hide HeldInv, CellInv, RecordInv, DeadInv, MakingAt, ActWorld, ResumeCreation, QuietEvent, Answered, Created,
      Creates, Writes;
    var c := w.cells[k];
    if c.pass.pc.ProbeId? {
      AttemptsLeft(c);
    } else if c.pass.pc.Fetch? {
      FetchFinds(w0, w, k, told, c.pass.pc, c.pass.copy);
    }
    CallingWorld(w, k, o);
    CallingMoves(w0, w, ActWorld(w, k, o), k, told, c.pass.pc, c.pass.copy, o.reply);
  }

  lemma FetchFinds(w0: World, w: World, k: Key, told: Option<string>, pc: Pc, copy: Copy)
    requires k in w.cells && pc.Fetch? && MakingAt(w0, w, k, told, pc, copy)
    ensures pc.slot in w.vms
  {
  }

  lemma AttemptsLeft(c: Cell)
    requires CellInv(c) && c.pass.At? && c.pass.pc.ProbeId?
    ensures c.pass.pc.attempt < VmidAllocation.MAX_ATTEMPTS
  {
    hide HistInv, Conditions.SetReady, Parse;
  }

  lemma RecordingGoes(w0: World, w: World, k: Key, told: Option<string>)
    requires WorldInv(w) && k in w.cells && Making(w0, w, k, told) && KeyInv(w, k) && w.cells[k].pass.At?
    requires w.cells[k].pass.pc.WriteRecord? || w.cells[k].pass.pc.WriteFailed?
    ensures Making(w0, ActWorld(w, k, Landed), k, told)
  {
    hide WorldInv, HistInv, Parse, Build, Conditions.SetReady, RecordInv, DeadInv, CountInv, DoomedAfter,
      BaseId, ChosenSlot, NoRoom;
  }

  /** Proxmox makes the VM. */
  lemma MakeVmGoes(w0: World, w: World, k: Key, told: Option<string>, i: nat)
    requires k in w.cells && Making(w0, w, k, told) && KeyInv(w, k) && QuietEvent(w, k, MakeVm(i))
    ensures Making(w0, Apply(w, MakeVm(i)), k, told)
    ensures w.vms == w0.vms && Apply(w, MakeVm(i)).vms != w0.vms
    ensures Apply(w, MakeVm(i)).cells == w.cells
  {
    hide CellInv, RecordInv, DeadInv, BaseId, NoRoom, Created;
  }

  lemma CreationStep(w0: World, w: World, k: Key, told: Option<string>, e: Event)
    requires WorldInv(w) && Making(w0, w, k, told) && QuietEvent(w, k, e)
    ensures Making(w0, Apply(w, e), k, ToldAfter(told, k, e))
    ensures Left(w0, Apply(w, e), k) < Left(w0, w, k)
  {
    hide HistInv, CellInv, CallInv, SlotInv, RecordInv, HeldInv, DeadInv, Resume, ActWorld, ServiceAllows, Making,
      Created;
    MakingHere(w0, w, k, told);
    assert KeyInv(w, k);
    if e.MakeVm? {
      MakeVmGoes(w0, w, k, told, e.call);
    } else {
      var c := w.cells[k];
      if !Creates(c.pass.pc) {
        PreparationGoes(w0, w, k, told, e.outcome);
      } else if Writes(c.pass.pc) {
        RecordingGoes(w0, w, k, told);
      } else {
        CallingGoes(w0, w, k, told, e.outcome);
      }
      PassEnds(w.settings, k, c.pass.pc, c.pass.copy, Observe(c, e.outcome));
      ActPass(w, k, e.outcome);
      MakingVms(w0, w, k, told, e.outcome);
    }
  }

  lemma MakingHere(w0: World, w: World, k: Key, told: Option<string>)
    requires Making(w0, w, k, told)
    ensures k in w.cells && w.cells[k].hist != []
  {
  }

  lemma MakingVms(w0: World, w: World, k: Key, told: Option<string>, o: Outcome)
    requires Making(w0, w, k, told) && w.cells[k].pass.At?
    ensures ActWorld(w, k, o).vms == w.vms
  {
    hide CellAct, CallsAfter, DoomedAfter, NetsAfter, ChosenSlot, NoRoom, BaseId;
  }

  /** A successful next event, given a node and a network configuration to choose. */
  function NextSuccess(w: World, k: Key, node: string, net: Net): Event
    requires k in w.cells && w.cells[k].pass.At?
  {
    var pc := w.cells[k].pass.pc;
    if pc.WaitCreate? && pc.call < |w.calls| && w.calls[pc.call].task.Waiting? then MakeVm(pc.call)
    else
      Act(k,
        if Writes(pc) then Landed
        else if pc.GetClass? then Plain(ClassEnabled)
        else if pc.SelectNode? then Plain(Reply.Node(node))
        else if pc.ProbeId? then Plain(if LookedAt(pc) in w.vms then Found(true) else Missing)
        else if pc.GenerateMac? then Plain(Mac(net))
        else if pc.CallCreate? then Plain(CreateStarted(|w.calls|))
        else if pc.WaitCreate? then Plain(ExitGood)
        else if pc.Fetch? then Plain(Found(true))
        else Plain(Done))
  }

  lemma NeverStuckWriting(w0: World, w: World, k: Key, told: Option<string>, node: string, net: Net)
    requires Making(w0, w, k, told) && w.cells[k].pass.At? && Writes(w.cells[k].pass.pc)
    ensures QuietEvent(w, k, NextSuccess(w, k, node, net))
  {
    hide ChosenSlot, NoRoom;
  }

  lemma NeverStuckCalling(w0: World, w: World, k: Key, told: Option<string>, node: string, net: Net)
    requires Making(w0, w, k, told) && w.cells[k].pass.At? && !Writes(w.cells[k].pass.pc)
    requires '/' !in node && HeldInv(w, k)
    ensures QuietEvent(w, k, NextSuccess(w, k, node, net))
  {
    hide BaseId, NoRoom, LeastFree;
  }

  lemma NeverStuck(w0: World, w: World, k: Key, told: Option<string>, node: string, net: Net)
    requires Making(w0, w, k, told) && w.cells[k].pass.At? && '/' !in node && HeldInv(w, k)
    ensures QuietEvent(w, k, NextSuccess(w, k, node, net))
  {
    hide Making, HeldInv, QuietEvent, NextSuccess;
    MakingHere(w0, w, k, told);
    if Writes(w.cells[k].pass.pc) {
      NeverStuckWriting(w0, w, k, told, node, net);
    } else {
      NeverStuckCalling(w0, w, k, told, node, net);
    }
  }

  lemma {:induction false} QuietCreation(w0: World, ws: seq<World>, es: seq<Event>, k: Key)
    requires IsQuietRun(ws, es, k) && WorldInv(ws[0]) && Making(w0, ws[0], k, None)
    ensures WorldInv(ws[|es|]) && Making(w0, ws[|es|], k, NodeTold(es, k))
    ensures Left(w0, ws[|es|], k) + |es| <= Left(w0, ws[0], k)
  {
    hide WorldInv, Making, Apply, Enabled, Left, ToldAfter;
    MakingHere(w0, ws[0], k, None);
    if es != [] {
      var told := NodeTold(es[..|es| - 1], k);
      QuietPrefix(ws, es, k, |es| - 1);
      QuietCreation(w0, ws[..|es|], es[..|es| - 1], k);
      CreationStep(w0, ws[|es| - 1], k, told, es[|es| - 1]);
      StepKeeps(ws[|es| - 1], es[|es| - 1]);
      MakingHere(w0, ws[|es|], k, NodeTold(es, k));
    }
  }

  /**
   Creation progress: take any reachable world with a live Machine in phase "" or
   Pending, and a pass on its current version whose calls all succeed with no other
   write or VM in between. The pass makes at most 130 calls, always has a next call that
   can succeed, and ends either Running, with the record naming its new VM at the least
   free ID of the window on the node it was given, or Failed, with nothing made because
   that node had no room.
   */
  lemma CreationCompletes(ws: seq<World>, es: seq<Event>, k: Key, qs: seq<World>, fs: seq<Event>)
    requires IsRun(ws, es) && k in ws[|es|].cells && ws[|es|].cells[k].hist != []
    requires ws[|es|].cells[k].pass.Idle? && !ws[|es|].cells[k].gone
    requires !Newest(ws[|es|], k).deleting && Newest(ws[|es|], k).status.phase in {Unset, Pending}
    requires IsQuietRun(qs, fs, k) && qs[0] == Begun(ws[|es|], k)
    ensures Enabled(ws[|es|], CurrentStart(ws[|es|], k)) && qs[0] == Apply(ws[|es|], CurrentStart(ws[|es|], k))
    ensures |fs| <= 131
    ensures k in qs[|fs|].cells && qs[|fs|].cells[k].hist != []
    ensures qs[|fs|].cells[k].pass.At? ==> exists e :: QuietEvent(qs[|fs|], k, e)
    ensures qs[|fs|].cells[k].pass.Idle? ==> exists i, node ::
      && 0 <= i < |fs| && fs[i] == Act(k, Plain(Reply.Node(node)))
      && Created(ws[|es|], qs[|fs|], k, Some(node))
  {
    hide IsRun, Enabled, Apply, QuietEvent, CellInv, RecordInv, HeldInv, CallInv, SlotInv, Created, Left;
    LastWorld(ws, es);
    RunInv(ws, es, |es|);
    CreationStarts(ws[|es|], k);
    StepKeeps(ws[|es|], CurrentStart(ws[|es|], k));
    QuietCreation(ws[|es|], qs, fs, k);
    var w, told := qs[|fs|], NodeTold(fs, k);
    assert KeyInv(w, k);
    assert Left(ws[|es|], w, k) >= 0;
    if w.cells[k].pass.At? {
      NeverStuck(ws[|es|], w, k, told, "", Net("", 0));
    } else {
      CreatedOnNode(ws[|es|], w, k, told);
      ToldByAnEvent(fs, k);
    }
  }

  lemma CreatedOnNode(w0: World, w: World, k: Key, told: Option<string>)
    requires k in w.cells && w.cells[k].hist != [] && Created(w0, w, k, told)
    ensures told.Some?
  {
  }
}
