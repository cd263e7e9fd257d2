/** The creation bound is tight: every conflict swallowed at the Creating write can cost one more VM. */
module StaleCreation {
  import opened Wrappers
  import opened ProviderId
  import opened Machines
  import opened Reconcile
  import opened Cluster
  import opened ClusterInvariants
  import opened Accounting
  import opened QuietRuns
  import opened CreationProgress
  import opened CreationRuns
  import MachineInvariants
  import VmidAllocation

  /** An older version of an existing Machine, from before creation, can be read once more. */
  predicate Repeatable(w: World, k: Key, v: nat) {
    && k in w.cells && w.cells[k].pass.Idle? && !w.cells[k].gone && !w.cells[k].forgotten
    && v + 1 < |w.cells[k].hist|
    && var o := w.cells[k].hist[v];
       !o.deleting && o.finalizer && o.status.phase in {Unset, Pending} && o.status.machineID == ""
  }

  // ----- One step of the pass

  /** A call that is no write, answered with success or absence. */
  lemma PlainStep(w: World, k: Key, r: Reply)
    requires k in w.cells && w.cells[k].hist != [] && w.cells[k].pass.At?
    requires var pc := w.cells[k].pass.pc;
      !Writes(pc) && !pc.Refetch? && !pc.WaitDelete? && ServiceAllows(w, pc, Plain(r))
    requires !r.Stored? && !r.Got?
    ensures Enabled(w, Act(k, Plain(r)))
    ensures var c, w' := w.cells[k], Apply(w, Act(k, Plain(r)));
      && w'.settings == w.settings && w'.vms == w.vms
      && w'.cells == w.cells[k := c.(pass := Resume(w.settings, k, c.pass.pc, c.pass.copy, r),
                                     creates := c.creates + if c.pass.pc.CallCreate? then 1 else 0)]
      && w'.calls == CallsAfter(w, k, c.pass.pc, Plain(r))
  {
    hide Resume, ServiceAllows, CallsAfter, NetsAfter, DoomedAfter;
  }

  /** A write of a stale copy. */
  lemma ConflictStep(w: World, k: Key)
    requires k in w.cells && w.cells[k].pass.At? && Writes(w.cells[k].pass.pc) && !w.cells[k].gone
    requires w.cells[k].pass.copy.version + 1 < |w.cells[k].hist|
    ensures Enabled(w, Act(k, Plain(Conflict)))
    ensures var c, w' := w.cells[k], Apply(w, Act(k, Plain(Conflict)));
      && w'.settings == w.settings && w'.vms == w.vms
      && w'.cells == w.cells[k := c.(pass := Resume(w.settings, k, c.pass.pc, c.pass.copy, Conflict),
                                     conflicts := c.conflicts + if c.pass.pc.WriteLatch? then 1 else 0)]
      && w'.calls == CallsAfter(w, k, c.pass.pc, Plain(Conflict))
  {
    hide Resume, CallsAfter, NetsAfter, DoomedAfter;
  }

  // ----- Up to the CreateVM call

  /** The pass in progress stands at this call, with a copy of version v, and all else is as in w. */
  predicate Reaches(w: World, w': World, k: Key, v: nat, pc: Pc, conflicts: nat) {
    && k in w.cells && k in w'.cells
    && w'.settings == w.settings && w'.calls == w.calls && w'.vms == w.vms
    && w'.cells[k].pass.At? && w'.cells[k].pass.pc == pc && w'.cells[k].pass.copy.version == v
    && w'.cells == w.cells[k := w'.cells[k]]
    && w'.cells[k] == w.cells[k].(pass := w'.cells[k].pass, conflicts := w.cells[k].conflicts + conflicts)
    && v + 1 < |w.cells[k].hist| && !w.cells[k].gone
  }

  lemma StartsAgain(w: World, k: Key, v: nat)
    requires Repeatable(w, k, v)
    ensures Enabled(w, Event.Start(k, v))
    ensures Reaches(w, Apply(w, Event.Start(k, v)), k, v, GetClass, 0)
    ensures Apply(w, Event.Start(k, v)).cells[k].pass.copy.obj == w.cells[k].hist[v]
  {
  }

  lemma LatchesAgain(w: World, w1: World, k: Key, v: nat)
    requires Repeatable(w, k, v) && Reaches(w, w1, k, v, GetClass, 0)
    requires w1.cells[k].pass.copy.obj == w.cells[k].hist[v]
    ensures Enabled(w1, Act(k, Plain(ClassEnabled)))
    ensures Reaches(w, Apply(w1, Act(k, Plain(ClassEnabled))), k, v, WriteLatch, 0)
  {
    hide Enabled, Apply, Conditions.SetReady, ResumeCreation, ResumeTermination;
    PlainStep(w1, k, ClassEnabled);
  }

  lemma ConflictsAgain(w: World, w1: World, k: Key, v: nat)
    requires Reaches(w, w1, k, v, WriteLatch, 0)
    ensures Enabled(w1, Act(k, Plain(Conflict)))
    ensures Reaches(w, Apply(w1, Act(k, Plain(Conflict))), k, v, SelectNode, 1)
  {
    hide Enabled, Apply, ResumeCreation, ResumeTermination;
    ConflictStep(w1, k);
  }

  /** A successful answer on the way from the node to the CreateVM call, the first probe finding its ID free. */
  predicate Prepares(w: World, pc: Pc, r: Reply) {
    || (pc.SelectNode? && r.Node? && '/' !in r.node)
    || (pc.ProbeId? && pc.base + pc.attempt != 0 && LookedAt(pc) !in w.vms && r.Missing?)
    || (pc.GenerateMac? && r.Mac?)
    || (pc.CheckIso? && r.Done?)
  }

  function Prepared(w: World, k: Key, pc: Pc, r: Reply): Pc
    requires Prepares(w, pc, r)
  {
    if pc.SelectNode? then ProbeId(r.node, VmidAllocation.BaseId(w.settings.idStart, k), 0)
    else if pc.ProbeId? then GenerateMac(LookedAt(pc))
    else if pc.GenerateMac? then CheckIso(pc.slot, r.net)
    else CallCreate(pc.slot, pc.net)
  }

  lemma PreparesAgain(w: World, w1: World, k: Key, v: nat, pc: Pc, r: Reply)
    requires Reaches(w, w1, k, v, pc, 1) && Prepares(w, pc, r)
    ensures Enabled(w1, Act(k, Plain(r)))
    ensures Reaches(w, Apply(w1, Act(k, Plain(r))), k, v, Prepared(w, k, pc, r), 1)
  {
    hide Enabled, Apply, FailedStatus, VmidAllocation.BaseId, ResumeTermination, ResumeOther;
    PlainStep(w1, k, r);
  }

  // ----- From the CreateVM call on

  /** The call has been made, its VM perhaps too, and the pass stands at this later call. */
  predicate Holds(w: World, w': World, k: Key, v: nat, pc: Pc, slot: Slot, made: bool) {
    && k in w.cells && k in w'.cells && slot !in w.vms
    && w'.settings == w.settings
    && w'.calls == w.calls + [Call(k, slot, Net("", 0), if made then Made else Waiting, InFlight)]
    && w'.vms == (if made then w.vms[slot := Own(|w.calls|)] else w.vms)
    && w'.cells[k].pass.At? && w'.cells[k].pass.pc == pc && w'.cells[k].pass.copy.version == v
    && w'.cells == w.cells[k := w'.cells[k]]
    && w'.cells[k] == w.cells[k].(pass := w'.cells[k].pass, conflicts := w.cells[k].conflicts + 1,
                                  creates := w.cells[k].creates + 1)
    && v + 1 < |w.cells[k].hist| && !w.cells[k].gone
  }

  lemma CallsAgain(w: World, w1: World, k: Key, v: nat, slot: Slot)
    requires Reaches(w, w1, k, v, CallCreate(slot, Net("", 0)), 1) && slot !in w.vms
    ensures Enabled(w1, Act(k, Plain(CreateStarted(|w.calls|))))
    ensures Holds(w, Apply(w1, Act(k, Plain(CreateStarted(|w.calls|)))), k, v,
                  WaitCreate(slot, Net("", 0), |w.calls|), slot, false)
  {
    hide Enabled, Apply, ResumeTermination, ResumeOther;
    PlainStep(w1, k, CreateStarted(|w.calls|));
  }

  lemma MakesAgain(w: World, w1: World, k: Key, v: nat, slot: Slot)
    requires Holds(w, w1, k, v, WaitCreate(slot, Net("", 0), |w.calls|), slot, false)
    ensures Enabled(w1, MakeVm(|w.calls|))
    ensures Holds(w, Apply(w1, MakeVm(|w.calls|)), k, v, WaitCreate(slot, Net("", 0), |w.calls|), slot, true)
  {
  }

  lemma WaitsAgain(w: World, w1: World, k: Key, v: nat, slot: Slot)
    requires Holds(w, w1, k, v, WaitCreate(slot, Net("", 0), |w.calls|), slot, true)
    ensures Enabled(w1, Act(k, Plain(ExitGood)))
    ensures Holds(w, Apply(w1, Act(k, Plain(ExitGood))), k, v, Fetch(slot, Net("", 0), |w.calls|), slot, true)
  {
    hide Enabled, Apply, ResumeTermination, ResumeOther;
    PlainStep(w1, k, ExitGood);
  }

  lemma LooksAgain(w: World, w1: World, k: Key, v: nat, slot: Slot)
    requires Holds(w, w1, k, v, Fetch(slot, Net("", 0), |w.calls|), slot, true)
    ensures Enabled(w1, Act(k, Plain(Found(true))))
    ensures Holds(w, Apply(w1, Act(k, Plain(Found(true)))), k, v, WriteRecord(slot, Net("", 0), |w.calls|), slot, true)
  {
    hide Enabled, Apply, RecordCopy, FailedStatus, ResumeTermination, ResumeOther;
    SameVersion(w1.cells[k].pass.copy, slot, |w.calls|);
    PlainStep(w1, k, Found(true));
  }

  lemma SameVersion(c: Copy, slot: Slot, call: nat)
    ensures RecordCopy(c, slot, call).version == c.version
  {
  }

  /** One more VM of Machine k, for one more conflict at its Creating write, and nothing else new. */
  predicate OneMore(w: World, w': World, k: Key, slot: Slot)
  {
    && k in w.cells && k in w'.cells && slot !in w.vms && w'.settings == w.settings
    && w'.vms == w.vms[slot := Own(|w.calls|)]
    && |w'.calls| == |w.calls| + 1 && w'.calls[..|w.calls|] == w.calls && w'.calls[|w.calls|].key == k
    && w'.cells == w.cells[k := w.cells[k].(conflicts := w.cells[k].conflicts + 1, creates := w.cells[k].creates + 1)]
  }

  lemma LosesAgain(w: World, w1: World, k: Key, v: nat, slot: Slot)
    requires Holds(w, w1, k, v, WriteRecord(slot, Net("", 0), |w.calls|), slot, true) && w.cells[k].pass.Idle?
    ensures Enabled(w1, Act(k, Plain(Conflict)))
    ensures OneMore(w, Apply(w1, Act(k, Plain(Conflict))), k, slot)
  {
    hide Enabled, Apply, ResumeTermination, ResumeOther;
    ConflictStep(w1, k);
  }

  /** A stale read, its conflict at the Creating write, a VM at a free slot, and the conflict at the final write. */
  lemma OnceMore(ws: seq<World>, es: seq<Event>, k: Key, v: nat, node: string)
      returns (ws': seq<World>, es': seq<Event>)
    requires IsRun(ws, es) && Repeatable(ws[|es|], k, v) && '/' !in node
    requires VmidAllocation.BaseId(ws[|es|].settings.idStart, k) != 0
    requires Slot(node, VmidAllocation.BaseId(ws[|es|].settings.idStart, k)) !in ws[|es|].vms
    ensures IsRun(ws', es') && ws'[0] == ws[0]
    ensures OneMore(ws[|es|], ws'[|es'|], k, Slot(node, VmidAllocation.BaseId(ws[|es|].settings.idStart, k)))
  {
    hide Enabled, Apply, Init, Reaches, Holds, OneMore, Repeatable, VmidAllocation.BaseId;
    var w, net := ws[|es|], Net("", 0);
    var base, i := VmidAllocation.BaseId(w.settings.idStart, k), |w.calls|;
    var slot := Slot(node, base);
    RepeatableHere(w, k, v);
    StartsAgain(w, k, v);
    ws', es' := Then(ws, es, Event.Start(k, v));
    LatchesAgain(w, ws'[|es'|], k, v);
    ws', es' := Then(ws', es', Act(k, Plain(ClassEnabled)));
    ConflictsAgain(w, ws'[|es'|], k, v);
    ws', es' := Then(ws', es', Act(k, Plain(Conflict)));
    PreparesAgain(w, ws'[|es'|], k, v, SelectNode, Reply.Node(node));
    ws', es' := Then(ws', es', Act(k, Plain(Reply.Node(node))));
    PreparesAgain(w, ws'[|es'|], k, v, ProbeId(node, base, 0), Missing);
    ws', es' := Then(ws', es', Act(k, Plain(Missing)));
    PreparesAgain(w, ws'[|es'|], k, v, GenerateMac(slot), Mac(net));
    ws', es' := Then(ws', es', Act(k, Plain(Mac(net))));
    PreparesAgain(w, ws'[|es'|], k, v, CheckIso(slot, net), Done);
    ws', es' := Then(ws', es', Act(k, Plain(Done)));
    CallsAgain(w, ws'[|es'|], k, v, slot);
    ws', es' := Then(ws', es', Act(k, Plain(CreateStarted(i))));
    MakesAgain(w, ws'[|es'|], k, v, slot);
    ws', es' := Then(ws', es', MakeVm(i));
    WaitsAgain(w, ws'[|es'|], k, v, slot);
    ws', es' := Then(ws', es', Act(k, Plain(ExitGood)));
    LooksAgain(w, ws'[|es'|], k, v, slot);
    ws', es' := Then(ws', es', Act(k, Plain(Found(true))));
    LosesAgain(w, ws'[|es'|], k, v, slot);
    ws', es' := Then(ws', es', Act(k, Plain(Conflict)));
  }

  lemma Then(ws: seq<World>, es: seq<Event>, e: Event) returns (ws': seq<World>, es': seq<Event>)
    requires IsRun(ws, es) && Enabled(ws[|es|], e)
    ensures IsRun(ws', es') && |es'| == |es| + 1 && ws'[|es'|] == Apply(ws[|es|], e) && ws'[0] == ws[0]
  {
    RunExtends(ws, es, e);
    ws', es' := ws + [Apply(ws[|es|], e)], es + [e];
  }

  lemma RepeatableHere(w: World, k: Key, v: nat)
    requires Repeatable(w, k, v)
    ensures k in w.cells && w.cells[k].pass.Idle? && !w.cells[k].gone
  {
  }

  lemma RepeatableAgain(w: World, w': World, k: Key, v: nat, slot: Slot)
    requires Repeatable(w, k, v) && OneMore(w, w', k, slot)
    ensures Repeatable(w', k, v)
  {
  }

  // ----- As many VMs as one likes

  /** Every slot of the set holds a VM that one of Machine k's own calls made. */
  predicate AllOwnVms(w: World, k: Key, slots: set<Slot>) {
    forall slot :: slot in slots ==>
      slot in w.vms && w.vms[slot].Own? && w.vms[slot].call < |w.calls| && w.calls[w.vms[slot].call].key == k
  }

  function NodeNumber(n: nat): string {
    seq(n, _ => 'n')
  }

  /** No node name in the inventory is longer than n. */
  predicate WithinNodes(w: World, n: nat) {
    forall slot :: slot in w.vms ==> |slot.node| <= n
  }

  predicate NodeUnused(w: World, node: string) {
    forall slot :: slot in w.vms ==> slot.node != node
  }

  lemma {:induction false} LongestName(slots: set<Slot>) returns (n: nat)
    ensures forall slot :: slot in slots ==> |slot.node| <= n
  {
    if slots == {} {
      n := 0;
    } else {
      var slot :| slot in slots;
      n := LongestName(slots - {slot});
      n := if n < |slot.node| then |slot.node| else n;
    }
  }

  /**
   From any world in which a version from before creation can be read again: m more
   conflicts swallowed at the Creating write, and m more VMs.
   */
  lemma {:induction false} MoreVms(ws: seq<World>, es: seq<Event>, k: Key, v: nat, n: nat, m: nat, slots: set<Slot>)
      returns (ws': seq<World>, es': seq<Event>, slots': set<Slot>)
    requires IsRun(ws, es) && Repeatable(ws[|es|], k, v) && WithinNodes(ws[|es|], n)
    requires VmidAllocation.BaseId(ws[|es|].settings.idStart, k) != 0 && AllOwnVms(ws[|es|], k, slots)
    ensures IsRun(ws', es') && ws'[0] == ws[0] && Repeatable(ws'[|es'|], k, v) && WithinNodes(ws'[|es'|], n + m)
    ensures ws'[|es'|].settings == ws[|es|].settings
    ensures ws'[|es'|].cells.Keys == ws[|es|].cells.Keys
    ensures k in ws[|es|].cells && k in ws'[|es'|].cells
    ensures ws'[|es'|].cells[k].hist == ws[|es|].cells[k].hist
    ensures ws'[|es'|].cells[k].conflicts == ws[|es|].cells[k].conflicts + m
    ensures ws'[|es'|].cells[k].creates == ws[|es|].cells[k].creates + m
    ensures NodeUnused(ws[|es|], "") ==> NodeUnused(ws'[|es'|], "")
    ensures AllOwnVms(ws'[|es'|], k, slots') && |slots'| == |slots| + m
    decreases m
  {
    hide IsRun, Repeatable, OneMore, VmidAllocation.BaseId, WithinNodes, NodeUnused, AllOwnVms, NodeNumber;
    LastWorld(ws, es);
    RepeatableHere(ws[|es|], k, v);
    if m == 0 {
      ws', es', slots' := ws, es, slots;
    } else {
      var node := NodeNumber(n + 1);
      var slot := Slot(node, VmidAllocation.BaseId(ws[|es|].settings.idStart, k));
      NextNodeIsFree(ws[|es|], n, slot.id);
      var ws1, es1 := OnceMore(ws, es, k, v, node);
      LastWorld(ws1, es1);
      RepeatableAgain(ws[|es|], ws1[|es1|], k, v, slot);
      VmsAfterOneMore(ws[|es|], ws1[|es1|], k, slot, n, slots);
      ws', es', slots' := MoreVms(ws1, es1, k, v, n + 1, m - 1, slots + {slot});
    }
  }

  lemma NextNodeIsFree(w: World, n: nat, id: int)
    requires WithinNodes(w, n)
    ensures Slot(NodeNumber(n + 1), id) !in w.vms && '/' !in NodeNumber(n + 1) && |NodeNumber(n + 1)| == n + 1
  {
  }

  lemma VmsAfterOneMore(w: World, w': World, k: Key, slot: Slot, n: nat, slots: set<Slot>)
    requires OneMore(w, w', k, slot) && |slot.node| == n + 1 && WithinNodes(w, n) && AllOwnVms(w, k, slots)
    ensures WithinNodes(w', n + 1) && AllOwnVms(w', k, slots + {slot}) && |slots + {slot}| == |slots| + 1
    ensures k in w.cells && k in w'.cells && w'.settings == w.settings && w'.cells.Keys == w.cells.Keys
    ensures w'.cells[k].hist == w.cells[k].hist && w'.cells[k].conflicts == w.cells[k].conflicts + 1
    ensures w'.cells[k].creates == w.cells[k].creates + 1
    ensures NodeUnused(w, "") ==> NodeUnused(w', "")
  {
    assert slot !in slots;
    forall s | s in slots + {slot}
      ensures s in w'.vms && w'.vms[s].Own? && w'.vms[s].call < |w'.calls| && w'.calls[w'.vms[s].call].key == k
    {
      if s != slot {
        assert w'.calls[w.vms[s].call] == w'.calls[..|w.calls|][w.vms[s].call];
      }
    }
  }

  /**
   Tightness: wherever a version from before creation can be read again, m more CreateVM
   calls for the same Machine are possible, each of which makes a VM, paid for by exactly
   m swallowed conflicts.
   */
  lemma BoundIsTight(ws: seq<World>, es: seq<Event>, k: Key, v: nat, m: nat)
      returns (ws': seq<World>, es': seq<Event>, slots: set<Slot>)
    requires IsRun(ws, es) && Repeatable(ws[|es|], k, v)
    requires VmidAllocation.BaseId(ws[|es|].settings.idStart, k) != 0
    ensures IsRun(ws', es')
    ensures Tally(ws', es', k, CreateAsked) == Tally(ws, es, k, CreateAsked) + m
    ensures Tally(ws', es', k, LatchConflicted) == Tally(ws, es, k, LatchConflicted) + m
    ensures |slots| == m && AllOwnVms(ws'[|es'|], k, slots)
  {
    hide IsRun, Repeatable, Tally, WithinNodes, AllOwnVms, VmidAllocation.BaseId;
    LastWorld(ws, es);
    var n := LongestName(ws[|es|].vms.Keys);
    WithinLongest(ws[|es|], n);
    NoneIsOwn(ws[|es|], k);
    ws', es', slots := MoreVms(ws, es, k, v, n, m, {});
    LastWorld(ws', es');
    TallyIsCounter(ws, es, k, CreateAsked);
    TallyIsCounter(ws, es, k, LatchConflicted);
    TallyIsCounter(ws', es', k, CreateAsked);
    TallyIsCounter(ws', es', k, LatchConflicted);
  }

  lemma WithinLongest(w: World, n: nat)
    requires forall slot :: slot in w.vms.Keys ==> |slot.node| <= n
    ensures WithinNodes(w, n)
  {
  }

  lemma NoneIsOwn(w: World, k: Key)
    ensures AllOwnVms(w, k, {})
  {
  }

  /** A Machine in an empty cluster, touched once before the operator has seen it. */
  lemma TouchedMachine(k: Key) returns (ws: seq<World>, es: seq<Event>)
    ensures IsRun(ws, es) && ws[0] == EmptyWorld()
    ensures Repeatable(ws[|es|], k, 0) && WithinNodes(ws[|es|], 0) && Alone(ws[|es|], k)
    ensures ws[|es|].settings.idStart == 100 && ws[|es|].vms == map[]
    ensures ws[|es|].cells[k].hist == [FreshMachine(), FreshMachine()] && ws[|es|].cells[k].conflicts == 0
  {
    hide Enabled, Apply, Init, EmptyWorld;
    EmptyIsInit();
    MachineAdded(k);
    EmptySettings();
    assert IsRun([EmptyWorld()], []);
    ws, es := Then([EmptyWorld()], [], AddMachine(k, FreshMachine()));
    TouchesMachine(ws[|es|], k);
    NewMachineHasNoConflict(k);
    ws, es := Then(ws, es, Touch(k));
  }

  lemma TouchesMachine(w: World, k: Key)
    requires Alone(w, k) && w.cells[k].hist == [FreshMachine()] && w.cells[k].pass.Idle?
    requires !w.cells[k].gone && !w.cells[k].forgotten
    ensures Enabled(w, Touch(k))
    ensures var w' := Apply(w, Touch(k));
      && Alone(w', k) && Repeatable(w', k, 0) && w'.vms == w.vms && w'.settings == w.settings
      && w'.cells[k].hist == [FreshMachine(), FreshMachine()] && w'.cells[k].conflicts == w.cells[k].conflicts
  {
  }

  lemma NewMachineHasNoConflict(k: Key)
    requires Enabled(EmptyWorld(), AddMachine(k, FreshMachine()))
    ensures Apply(EmptyWorld(), AddMachine(k, FreshMachine())).cells[k].conflicts == 0
  {
  }

  lemma StepCallKeys(w: World, e: Event)
    requires Enabled(w, e)
    ensures |w.calls| <= |Apply(w, e).calls|
    ensures forall i :: 0 <= i < |w.calls| ==> Apply(w, e).calls[i].key == w.calls[i].key
  {
    hide CellAct, VmsAfter, DoomedAfter, NetsAfter, Begin, FreshStatus, StoreAllows, ServiceAllows;
  }

  /** A quiet run swallows no conflict, and every call keeps its Machine. */
  lemma {:induction false} QuietKeepsCounts(qs: seq<World>, fs: seq<Event>, k: Key)
    requires IsQuietRun(qs, fs, k)
    ensures Counter(qs[|fs|], k, LatchConflicted) == Counter(qs[0], k, LatchConflicted)
    ensures |qs[0].calls| <= |qs[|fs|].calls|
    ensures forall i :: 0 <= i < |qs[0].calls| ==> qs[|fs|].calls[i].key == qs[0].calls[i].key
  {
    hide Enabled, Apply, Counter;
    if fs != [] {
      QuietPrefix(qs, fs, k, |fs| - 1);
      QuietKeepsCounts(qs[..|fs|], fs[..|fs| - 1], k);
      var w, e := qs[|fs| - 1], fs[|fs| - 1];
      EnabledQuiet(w, k, e);
      StepCallKeys(w, e);
      StepCounts(w, e, k, LatchConflicted);
      QuietIsNoConflict(w, k, e);
    }
  }

  lemma QuietIsNoConflict(w: World, k: Key, e: Event)
    requires QuietEvent(w, k, e)
    ensures !Happens(w, e, k, LatchConflicted)
  {
    hide Enabled;
  }

  /** The quiet creation that follows adds the VM that is recorded. */
  lemma RecordedVmToo(w0: World, qs: seq<World>, fs: seq<Event>, k: Key, slots: set<Slot>)
      returns (slots': set<Slot>)
    requires IsQuietRun(qs, fs, k) && qs[0].calls == w0.calls && WorldInv(qs[|fs|])
    requires Making(w0, qs[|fs|], k, None) || Making(w0, qs[|fs|], k, Some(""))
    requires k in qs[|fs|].cells && qs[|fs|].cells[k].pass.Idle?
    requires NodeUnused(w0, "") && w0.settings.idStart == 100 && AllOwnVms(w0, k, slots)
    ensures AllOwnVms(qs[|fs|], k, slots') && |slots'| == |slots| + 1
  {
    hide WorldInv, ChosenSlot, NoRoom, VmidAllocation.BaseId, ProviderId.Build, IsQuietRun, MachineInvariants.CellInv;
    LengthOfQuiet(qs, fs, k);
    var w := qs[|fs|];
    RoomOnEmptyNode(w0, k, "");
    QuietKeepsCounts(qs, fs, k);
    KeyOf(w, k);
    var i := Newest(w, k).status.vm.value;
    var slot := w.calls[i].slot;
    assert slot !in slots;
    slots' := slots + {slot};
  }

  lemma StartKeepsCounts(w: World, k: Key)
    requires k in w.cells && w.cells[k].hist != []
    ensures Begun(w, k).calls == w.calls && Counter(Begun(w, k), k, LatchConflicted) == w.cells[k].conflicts
  {
    hide Begin;
  }

  /**
   One more VM for each conflict: for every n there is a run from an empty cluster with
   n conflicts swallowed at the Creating write of one Machine, at whose end n + 1 slots
   hold VMs of that Machine.
   */
  lemma OneVmPerConflict(k: Key, n: nat) returns (ws: seq<World>, es: seq<Event>, slots: set<Slot>)
    ensures IsRun(ws, es) && ws[0] == EmptyWorld()
    ensures Tally(ws, es, k, LatchConflicted) == n
    ensures |slots| == n + 1 && AllOwnVms(ws[|es|], k, slots)
  {
    hide IsRun, Enabled, Apply, WorldInv, Making, Tally, Repeatable, WithinNodes, NodeUnused, AllOwnVms,
      EmptyWorld, Begun;
    ws, es := TouchedMachine(k);
    LastWorld(ws, es);
    NoVmYet(ws[|es|], k);
    ws, es, slots := MoreVms(ws, es, k, 0, 0, n, {});
    LastWorld(ws, es);
    RunInv(ws, es, |es|);
    var w := ws[|es|];
    RepeatableHere(w, k, 0);
    CreationStarts(w, k);
    StepKeeps(w, CurrentStart(w, k));
    StartKeepsCounts(w, k);
    RunExtends(ws, es, CurrentStart(w, k));
    ws, es := ws + [Begun(w, k)], es + [CurrentStart(w, k)];
    var qs, fs := QuietCreationRun(w, Begun(w, k), k, None, "", false);
    EitherHere(w, qs[|fs|], k);
    QuietKeepsCounts(qs, fs, k);
    slots := RecordedVmToo(w, qs, fs, k, slots);
    QuietContinues(ws, es, qs, fs, k);
    LengthOfQuiet(qs, fs, k);
    ws, es := ws + qs[1..], es + fs;
    LastWorld(ws, es);
    TallyIsCounter(ws, es, k, LatchConflicted);
  }

  lemma NoVmYet(w: World, k: Key)
    requires w.vms == map[]
    ensures AllOwnVms(w, k, {}) && NodeUnused(w, "")
  {
  }

  lemma EitherHere(w0: World, w: World, k: Key)
    requires Making(w0, w, k, None) || Making(w0, w, k, Some(""))
    ensures k in w.cells
  {
  }

  lemma LengthOfQuiet(qs: seq<World>, fs: seq<Event>, k: Key)
    requires IsQuietRun(qs, fs, k)
    ensures |qs| == |fs| + 1
  {
  }
}
