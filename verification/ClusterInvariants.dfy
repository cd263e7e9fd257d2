/** The invariant of the whole cluster: Machines, the CreateVM log and the inventory agree. */
module ClusterInvariants {
  import opened Wrappers
  import opened ProviderId
  import opened Machines
  import opened Reconcile
  import opened Cluster
  import opened MachineInvariants

  /** The newest version of a Machine, also after the object is gone. */
  function Newest(w: World, k: Key): Object
    requires k in w.cells && w.cells[k].hist != []
  {
    Last(w.cells[k].hist)
  }

  /** The VM of call i was made and no longer exists; it can never exist again. */
  predicate Dead(w: World, i: nat) {
    && i < |w.calls| && w.calls[i].task.Made?
    && forall slot :: slot in w.vms ==> w.vms[slot] != Own(i)
  }

  /** An operator's VM sits where its call put it. */
  predicate SlotInv(w: World, slot: Slot)
    requires slot in w.vms
  {
    w.vms[slot].Own? ==>
      var i := w.vms[slot].call;
      i < |w.calls| && w.calls[i].slot == slot && w.calls[i].task.Made?
  }

  predicate RecordInv(w: World, k: Key)
    requires k in w.cells && w.cells[k].hist != []
  {
    var s := Newest(w, k).status;
    s.vm.Some? ==>
      && s.vm.value < |w.calls|
      && w.calls[s.vm.value].key == k
      && w.calls[s.vm.value].fate.Recorded?
      && w.calls[s.vm.value].task.Made?
      && Parse(s.providerID) == Ok(w.calls[s.vm.value].slot)
  }

  predicate HeldInv(w: World, k: Key)
    requires k in w.cells
  {
    var p := w.cells[k].pass;
    Held(p).Some? ==>
      var i := Held(p).value;
      && i < |w.calls|
      && w.calls[i].key == k && w.calls[i].fate.InFlight?
      && w.calls[i].slot == p.pc.slot && w.calls[i].net == p.pc.net
      && (!p.pc.WaitCreate? ==> w.calls[i].task.Made?)
  }

  /** Past the deletion of its VM, on the way to removing the finalizer. */
  predicate PastDeletion(p: Pass) {
    p.At? && (p.pc.DropNetConf? || p.pc.WriteTerminated? || p.pc.Refetch? || p.pc.WriteRemoval?)
  }

  predicate DeadInv(w: World, k: Key)
    requires k in w.cells && w.cells[k].hist != []
  {
    var p, vm := w.cells[k].pass, Newest(w, k).status.vm;
    vm.Some? ==>
      && (PastDeletion(p) ==> Dead(w, vm.value))
      && (p.At? && p.pc.WaitDelete? ==> p.pc.target == Own(vm.value) || Dead(w, vm.value))
      && (!Newest(w, k).finalizer ==> Dead(w, vm.value))
  }

  function CountCalls(calls: seq<Call>, k: Key): nat {
    if calls == [] then 0
    else CountCalls(calls[..|calls| - 1], k) + if calls[|calls| - 1].key == k then 1 else 0
  }

  predicate KeyInv(w: World, k: Key)
    requires k in w.cells
  {
    && w.cells[k].hist != [] && CellInv(w.cells[k])
    && RecordInv(w, k) && HeldInv(w, k) && DeadInv(w, k)
    && w.cells[k].creates == CountCalls(w.calls, k)
  }

  predicate CallInv(w: World, i: nat)
    requires i < |w.calls|
  {
    var c := w.calls[i];
    && c.key in w.cells && w.cells[c.key].hist != []
    && (c.fate.InFlight? ==> Held(w.cells[c.key].pass) == Some(i))
    && (c.fate.Recorded? ==> Newest(w, c.key).status.vm == Some(i))
  }

  ghost predicate WorldInv(w: World) {
    && RoomForIds(w.settings)
    && (forall k :: k in w.cells ==> KeyInv(w, k))
    && (forall i :: 0 <= i < |w.calls| ==> CallInv(w, i))
    && (forall slot :: slot in w.vms ==> SlotInv(w, slot))
    && (forall k :: k !in w.cells ==> CountCalls(w.calls, k) == 0)
  }

  // ----- What a step leaves alone

  /** The calls of Machine k are as they were, up to a waiting task ending. */
  predicate CallsKept(w: World, w': World, k: Key) {
    && |w.calls| <= |w'.calls|
    && (forall i :: 0 <= i < |w.calls| && w.calls[i].key == k ==>
          && w'.calls[i].key == k && w'.calls[i].slot == w.calls[i].slot && w'.calls[i].net == w.calls[i].net
          && w'.calls[i].fate == w.calls[i].fate
          && (w.calls[i].task.Made? ==> w'.calls[i].task.Made?))
    && CountCalls(w'.calls, k) == CountCalls(w.calls, k)
  }

  /** No VM that was made before comes back. */
  predicate NoReturn(w: World, w': World) {
    && |w.calls| <= |w'.calls|
    && (forall i :: 0 <= i < |w.calls| && w.calls[i].task.Made? ==> w'.calls[i].task.Made?)
    && (forall slot ::
          (slot in w'.vms && w'.vms[slot].Own?
           && w'.vms[slot].call < |w.calls| && w.calls[w'.vms[slot].call].task.Made?)
          ==> slot in w.vms && w.vms[slot] == w'.vms[slot])
  }

  lemma DeadStays(w: World, w': World, i: nat)
    requires NoReturn(w, w') && Dead(w, i)
    ensures Dead(w', i)
  {
  }

  lemma KeyFrame(w: World, w': World, k: Key)
    requires k in w.cells && k in w'.cells && w'.cells[k] == w.cells[k]
    requires KeyInv(w, k) && CallsKept(w, w', k) && NoReturn(w, w')
    ensures KeyInv(w', k)
  {
    hide CellInv, Parse, Dead;
    assert CellInv(w.cells[k]);
    var vm := Newest(w, k).status.vm;
    if vm.Some? && Dead(w, vm.value) {
      DeadStays(w, w', vm.value);
    }
  }

  // ----- Steps that only touch one Machine's versions

  /** A version that changes neither the record nor takes the finalizer away. */
  predicate QuietVersion(a: Object, b: Object) {
    a.status == b.status && a.finalizer == b.finalizer
  }

  /** How a step may change one Machine's cell and nothing else. */
  predicate CellOnly(w: World, k: Key, c: Cell)
    requires k in w.cells && w.cells[k].hist != []
  {
    && c.hist != []
    && (c.hist == w.cells[k].hist || QuietVersion(Newest(w, k), Last(c.hist)))
    && c.creates == w.cells[k].creates
    && (c.pass == w.cells[k].pass ||
        (w.cells[k].pass.Idle? && c.hist == w.cells[k].hist && Held(c.pass) == None
         && (PastDeletion(c.pass) ==> Last(c.hist).status.vm == None) && !(c.pass.At? && c.pass.pc.WaitDelete?)))
  }

  lemma CellOnlySelf(w: World, k: Key, c: Cell)
    requires k in w.cells && KeyInv(w, k) && CellInv(c) && CellOnly(w, k, c)
    ensures KeyInv(Put(w, k, c), k)
  {
    hide CellInv, Parse, Dead;
    var w' := Put(w, k, c);
    assert NoReturn(w, w');
    var vm := Newest(w, k).status.vm;
    if vm.Some? && Dead(w, vm.value) {
      DeadStays(w, w', vm.value);
    }
  }

  lemma CellOnlyCall(w: World, k: Key, c: Cell, i: nat)
    requires k in w.cells && w.cells[k].hist != [] && CellOnly(w, k, c)
    requires i < |w.calls| && CallInv(w, i)
    ensures CallInv(Put(w, k, c), i)
  {
  }

  lemma CellOnlyKeeps(w: World, k: Key, c: Cell)
    requires WorldInv(w) && k in w.cells && w.cells[k].hist != [] && CellInv(c) && CellOnly(w, k, c)
    ensures WorldInv(Put(w, k, c))
  {
    hide CellInv, KeyInv, CallInv, CellOnly, SlotInv;
    var w' := Put(w, k, c);
    assert NoReturn(w, w');
    forall k' | k' in w'.cells
      ensures KeyInv(w', k')
    {
      if k' != k {
        KeyFrame(w, w', k');
      } else {
        CellOnlySelf(w, k, c);
      }
    }
    forall i | 0 <= i < |w'.calls|
      ensures CallInv(w', i)
    {
      CellOnlyCall(w, k, c, i);
    }
    forall slot | slot in w'.vms
      ensures SlotInv(w', slot)
    {
      SlotFrame(w, w', slot);
    }
  }

  /** A fresh pass holds no call, and goes straight to the finalizer only when nothing is recorded. */
  lemma BeginIsClean(h: seq<Object>, v: nat)
    requires HistInv(h) && v < |h|
    ensures var p := Begin(Copy(v, h[v]));
      && Held(p) == None
      && !(p.At? && p.pc.WaitDelete?)
      && (PastDeletion(p) ==> Last(h).status.vm == None)
  {
    hide Conditions.SetReady, Parse;
    PrecedesLast(h, v);
    assert ObjectInv(h[v]);
  }

  lemma MachineEventKeeps(w: World, e: Event)
    requires WorldInv(w) && Enabled(w, e)
    requires e.Touch? || e.Delete? || e.Reap? || e.Forget? || e.Start?
    ensures WorldInv(Apply(w, e))
  {
    hide KeyInv, CallInv, SlotInv, Begin;
    var c := w.cells[e.key];
    assert KeyInv(w, e.key);
    CellOf(w, e.key);
    match e {
      case Touch(k) =>
        UserChangeKeeps(c, false);
        CellOnlyKeeps(w, k, c.(hist := c.hist + [Last(c.hist)]));
      case Delete(k) =>
        UserChangeKeeps(c, true);
        CellOnlyKeeps(w, k, c.(hist := c.hist + [Last(c.hist).(deleting := true)]));
      case Reap(k) => CellOnlyKeeps(w, k, c.(gone := true));
      case Forget(k) => CellOnlyKeeps(w, k, c.(forgotten := true));
      case Start(k, v) =>
        StartKeeps(c, v);
        BeginIsClean(c.hist, v);
        CellOnlyKeeps(w, k, c.(pass := Begin(Copy(v, c.hist[v]))));
    }
  }

  lemma CellOf(w: World, k: Key)
    requires k in w.cells && KeyInv(w, k)
    ensures CellInv(w.cells[k]) && w.cells[k].hist != []
    ensures w.cells[k].creates == CountCalls(w.calls, k)
  {
  }

  lemma AddMachineKeeps(w: World, k: Key, obj: Object)
    requires WorldInv(w) && Enabled(w, AddMachine(k, obj))
    ensures WorldInv(Apply(w, AddMachine(k, obj)))
  {
    hide CellInv, Parse;
    var w' := Apply(w, AddMachine(k, obj));
    NewMachineKeeps(obj);
    forall k' | k' in w'.cells
      ensures KeyInv(w', k')
    {
      if k' != k {
        KeyFrame(w, w', k');
      }
    }
    forall i | 0 <= i < |w'.calls|
      ensures CallInv(w', i)
    {
      assert CallInv(w, i);
    }
    forall slot | slot in w'.vms
      ensures SlotInv(w', slot)
    {
      assert SlotInv(w, slot);
    }
  }

  // ----- Steps of Proxmox and of other people

  /** The calls are the same up to one waiting task ending, and no made VM comes back. */
  lemma InventoryKeeps(w: World, w': World)
    requires WorldInv(w)
    requires w'.cells == w.cells && w'.settings == w.settings && |w'.calls| == |w.calls|
    requires forall i :: 0 <= i < |w.calls| ==>
      && w'.calls[i] == w.calls[i].(task := w'.calls[i].task)
      && (w.calls[i].task.Made? ==> w'.calls[i].task.Made?)
    requires NoReturn(w, w')
    requires forall slot :: slot in w'.vms ==> SlotInv(w', slot)
    ensures WorldInv(w')
  {
    hide CellInv, Parse;
    forall k
      ensures CountCalls(w'.calls, k) == CountCalls(w.calls, k)
    {
      CountSame(w.calls, w'.calls, k);
    }
    forall k | k in w'.cells
      ensures KeyInv(w', k)
    {
      KeyFrame(w, w', k);
    }
    forall i | 0 <= i < |w'.calls|
      ensures CallInv(w', i)
    {
      assert CallInv(w, i);
    }
  }

  lemma {:induction false} CountSame(a: seq<Call>, b: seq<Call>, k: Key)
    requires |a| == |b| && forall i :: 0 <= i < |a| ==> a[i].key == b[i].key
    ensures CountCalls(a, k) == CountCalls(b, k)
  {
    if a != [] {
      CountSame(a[..|a| - 1], b[..|b| - 1], k);
    }
  }

  lemma FilledSlots(w: World, e: Event, slot: Slot)
    requires Enabled(w, e) && slot in Apply(w, e).vms && (slot in w.vms ==> SlotInv(w, slot))
    requires e.MakeVm? || e.AbandonTask? || e.RemoveDoomed? || e.ForeignMake? || e.ForeignRemove?
    ensures SlotInv(Apply(w, e), slot)
  {
  }

  lemma InventoryEventKeeps(w: World, e: Event)
    requires WorldInv(w) && Enabled(w, e)
    requires e.MakeVm? || e.AbandonTask? || e.RemoveDoomed? || e.ForeignMake? || e.ForeignRemove?
    ensures WorldInv(Apply(w, e))
  {
    hide KeyInv, CallInv, SlotInv;
    var w' := Apply(w, e);
    forall slot | slot in w'.vms
      ensures SlotInv(w', slot)
    {
      FilledSlots(w, e, slot);
    }
    InventoryKeeps(w, w');
  }

  lemma NetEventKeeps(w: World, e: Event)
    requires WorldInv(w) && Enabled(w, e) && (e.ForeignNetConf? || e.CollectNetConf?)
    ensures WorldInv(Apply(w, e))
  {
    hide KeyInv, CallInv, SlotInv;
    var w' := Apply(w, e);
    forall slot | slot in w'.vms
      ensures SlotInv(w', slot)
    {
      assert SlotInv(w, slot);
      SlotFrame(w, w', slot);
    }
    InventoryKeeps(w, w');
  }

  lemma SlotFrame(w: World, w': World, slot: Slot)
    requires slot in w.vms && SlotInv(w, slot)
    requires w'.vms == w.vms && w'.calls == w.calls
    ensures SlotInv(w', slot)
  {
  }

  // ----- Steps of a pass: the record, the held call, the log

  /** Only the record write changes the record. */
  lemma RecordKept(c: Cell, o: Outcome)
    requires CellInv(c) && c.pass.At? && StoreAllows(c, o) && Lands(c, o) && !c.pass.pc.WriteRecord?
    ensures SameRecord(Last(c.hist).status, Last(HistAfter(c, o)).status)
  {
    hide HistInv, NamesSlot, Parse, Build;
    LastCoherent(c.hist);
  }

  lemma LastCoherent(h: seq<Object>)
    requires HistInv(h)
    ensures Coherent(Last(h).status)
    ensures Rank(Last(h).status.phase) <= 1 ==> Last(h).status.vm == None
  {
    hide Coherent;
    assert ObjectInv(Last(h));
  }

  /** The record write lands on a Machine that has nothing recorded. */
  lemma RecordWritten(c: Cell, o: Outcome)
    requires CellInv(c) && c.pass.At? && StoreAllows(c, o) && Lands(c, o) && c.pass.pc.WriteRecord?
    ensures Last(c.hist).status.vm == None
    ensures var s := Last(HistAfter(c, o)).status;
      s.vm == Some(c.pass.pc.call) && Parse(s.providerID) == Ok(c.pass.pc.slot)
  {
    hide HistInv, Parse, Build;
  }

  /** How the held call moves through the code: same call, same slot, same network, one stage at a time. */
  predicate HeldMove(pc: Pc, r: Reply, p: Pass) {
    || (Held(p) == None && !(pc.CallCreate? && r.CreateStarted?) && !(pc.WaitCreate? && r.ExitGood?)
        && !(pc.Fetch? && r.Found?) && !pc.MakeNetConf?)
    || (pc.CallCreate? && r.CreateStarted? && p.At? && p.pc == WaitCreate(pc.slot, pc.net, r.call))
    || (pc.WaitCreate? && r.ExitGood? && p.At? && p.pc == Fetch(pc.slot, pc.net, pc.call))
    || (pc.Fetch? && r.Found? && p.At? &&
        (p.pc == MakeNetConf(pc.slot, pc.net, pc.call) || p.pc == WriteRecord(pc.slot, pc.net, pc.call)))
    || (pc.MakeNetConf? && p.At? && p.pc == WriteRecord(pc.slot, pc.net, pc.call))
  }

  lemma CreationHeld(s: Settings, k: Key, pc: Pc, c: Copy, r: Reply)
    requires Creates(pc)
    ensures HeldMove(pc, r, ResumeCreation(s, k, pc, c, r))
  {
    hide WithReady, RecordedAt, FailedStatus;
  }

  lemma TerminationHeld(pc: Pc, c: Copy, r: Reply)
    requires Terminates(pc)
    ensures HeldMove(pc, r, ResumeTermination(pc, c, r))
  {
    hide WithReady;
  }

  lemma OtherHeld(pc: Pc, c: Copy, r: Reply)
    requires !Creates(pc) && !Terminates(pc)
    ensures HeldMove(pc, r, ResumeOther(pc, c, r))
  {
    hide WithReady, Parse;
  }

  lemma HeldMoves(s: Settings, k: Key, c: Cell, o: Outcome)
    requires c.pass.At? && c.hist != []
    ensures HeldMove(c.pass.pc, Observe(c, o), PassAfter(s, k, c, o))
  {
    hide ResumeCreation, ResumeTermination, ResumeOther, HeldMove;
    var pc, copy, r := c.pass.pc, c.pass.copy, Observe(c, o);
    if Creates(pc) {
      CreationHeld(s, k, pc, copy, r);
    } else if Terminates(pc) {
      TerminationHeld(pc, copy, r);
    } else {
      OtherHeld(pc, copy, r);
    }
  }

  /** The log after a step: unchanged, one call longer, or the held call's fate settled. */
  lemma LogShape(w: World, k: Key, o: Outcome)
    requires k in w.cells && w.cells[k].pass.At? && w.cells[k].hist != []
    requires HeldInv(w, k)
    ensures var p := w.cells[k].pass;
      var calls' := CallsAfter(w, k, p.pc, o);
      || calls' == w.calls
      || (p.pc.CallCreate? && |calls'| == |w.calls| + 1 && calls'[..|w.calls|] == w.calls && calls'[|w.calls|].key == k)
      || (Held(p).Some? && Held(p).value < |w.calls|
          && calls' == w.calls[Held(p).value := w.calls[Held(p).value].(fate := calls'[Held(p).value].fate)])
  {
  }

  lemma ActNoReturn(w: World, k: Key, o: Outcome)
    requires k in w.cells && w.cells[k].pass.At? && w.cells[k].hist != []
    requires HeldInv(w, k)
    ensures NoReturn(w, ActWorld(w, k, o))
  {
    hide CellAct;
    LogShape(w, k, o);
  }

  lemma ActCallsKept(w: World, k: Key, o: Outcome, k': Key)
    requires k in w.cells && w.cells[k].pass.At? && w.cells[k].hist != [] && HeldInv(w, k) && k' != k
    ensures CallsKept(w, ActWorld(w, k, o), k')
  {
    hide CellAct, CallsAfter;
    LogShape(w, k, o);
    var calls' := CallsAfter(w, k, w.cells[k].pass.pc, o);
    if |calls'| == |w.calls| {
      CountSame(w.calls, calls', k');
    } else {
      assert calls'[..|calls'| - 1] == w.calls;
    }
  }

  lemma LogLength(w: World, k: Key, o: Outcome)
    requires k in w.cells && w.cells[k].pass.At? && HeldInv(w, k)
    ensures |CallsAfter(w, k, w.cells[k].pass.pc, o)| == |w.calls| + if w.cells[k].pass.pc.CallCreate? then 1 else 0
  {
  }

  lemma ActCount(w: World, k: Key, o: Outcome)
    requires k in w.cells && w.cells[k].pass.At? && w.cells[k].hist != [] && HeldInv(w, k)
    requires w.cells[k].creates == CountCalls(w.calls, k)
    ensures CellAct(w.settings, k, w.cells[k], o).creates == CountCalls(ActWorld(w, k, o).calls, k)
  {
    hide HistAfter, PassAfter, CallsAfter, VmsAfter, DoomedAfter, NetsAfter, HeldInv;
    LogShape(w, k, o);
    LogLength(w, k, o);
    var calls' := CallsAfter(w, k, w.cells[k].pass.pc, o);
    if |calls'| == |w.calls| {
      CountSame(w.calls, calls', k);
    } else {
      assert calls'[..|calls'| - 1] == w.calls;
    }
  }

  lemma ActSlots(w: World, k: Key, o: Outcome, slot: Slot)
    requires k in w.cells && w.cells[k].pass.At? && w.cells[k].hist != [] && HeldInv(w, k)
    requires slot in ActWorld(w, k, o).vms && (slot in w.vms ==> SlotInv(w, slot))
    ensures SlotInv(ActWorld(w, k, o), slot)
  {
    hide CellAct, CallsAfter;
    LogShape(w, k, o);
  }

  // ----- Steps of a pass: the acting Machine

  lemma ActRecord(w: World, k: Key, o: Outcome)
    requires k in w.cells && KeyInv(w, k) && Enabled(w, Act(k, o))
    ensures HistAfter(w.cells[k], o) != []
    ensures RecordInv(ActWorld(w, k, o), k)
  {
    hide CellInv, Parse, PassAfter, NetsAfter, VmsAfter, DoomedAfter, CallsAfter;
    var c := w.cells[k];
    LogShape(w, k, o);
    if Lands(c, o) && c.pass.pc.WriteRecord? {
      RecordWritten(c, o);
      LogOfRecord(w, k, o);
    } else if Lands(c, o) {
      RecordKept(c, o);
    }
  }

  lemma LogOfRecord(w: World, k: Key, o: Outcome)
    requires k in w.cells && w.cells[k].pass.At? && HeldInv(w, k) && w.cells[k].pass.pc.WriteRecord?
    ensures var i := w.cells[k].pass.pc.call;
      CallsAfter(w, k, w.cells[k].pass.pc, o) ==
      w.calls[i := w.calls[i].(fate := if Effective(o) then Recorded else RecordLost)]
  {
  }

  lemma ActHeld(w: World, k: Key, o: Outcome)
    requires k in w.cells && KeyInv(w, k) && Enabled(w, Act(k, o))
    ensures HeldInv(ActWorld(w, k, o), k)
  {
    hide CellInv, Parse, PassAfter, NetsAfter, VmsAfter, DoomedAfter, HistAfter;
    HeldMoves(w.settings, k, w.cells[k], o);
  }

  /** Where the record of a Machine in termination points, its VM is the only one of its call. */
  lemma RecordSlot(w: World, k: Key, slot: Slot)
    requires WorldInv(w) && k in w.cells && KeyInv(w, k) && Newest(w, k).status.vm.Some?
    requires Parse(Newest(w, k).status.providerID) == Ok(slot)
    ensures slot !in w.vms || w.vms[slot] != Own(Newest(w, k).status.vm.value) ==>
            Dead(w, Newest(w, k).status.vm.value)
  {
    hide CellInv, Parse;
    var i := Newest(w, k).status.vm.value;
    if slot !in w.vms || w.vms[slot] != Own(i) {
      forall s | s in w.vms
        ensures w.vms[s] != Own(i)
      {
        assert SlotInv(w, s);
      }
    }
  }

  /** In termination the copy's slot is the stored record's slot. */
  lemma TerminationSlot(h: seq<Object>, pc: Pc, c: Copy)
    requires HistInv(h) && PassInv(h, At(pc, c)) && SlotOf(pc).Some?
    ensures Terminates(pc)
    ensures Last(h).status.vm.Some? && Parse(Last(h).status.providerID) == Ok(SlotOf(pc).value)
    ensures Last(h).deleting && h[c.version].finalizer && FromDeletion(pc)
  {
    hide HistInv, Parse;
    PrecedesLast(h, c.version);
  }

  /** How a pass gets past the deletion: from the recorded VM's absence, or with nothing recorded. */
  predicate DeadMove(pc: Pc, r: Reply, p: Pass) {
    && (PastDeletion(p) ==>
          || (PastDeletion(At(pc, p.copy)) && !pc.WriteRemoval?)
          || (pc.GetTerminating? && r.Missing?)
          || (pc.WaitDelete? && r.Done?)
          || (p.pc.Refetch? && pc.WriteFence?)
          || (p.pc.Refetch? && pc.GetClass?))
    && (p.At? && p.pc.WaitDelete? ==>
          pc.CallDelete? && r.DeleteStarted? && p.pc == WaitDelete(pc.slot, pc.del, r.target))
  }

  lemma CreationDead(s: Settings, k: Key, pc: Pc, c: Copy, r: Reply)
    requires Creates(pc)
    ensures DeadMove(pc, r, ResumeCreation(s, k, pc, c, r))
  {
    hide WithReady, RecordedAt, FailedStatus;
  }

  lemma TerminationDead(pc: Pc, c: Copy, r: Reply)
    requires Terminates(pc)
    ensures DeadMove(pc, r, ResumeTermination(pc, c, r))
  {
    hide WithReady;
  }

  lemma OtherDead(pc: Pc, c: Copy, r: Reply)
    requires !Creates(pc) && !Terminates(pc)
    ensures DeadMove(pc, r, ResumeOther(pc, c, r))
  {
    hide WithReady, Parse;
  }

  lemma DeadMoves(s: Settings, k: Key, c: Cell, o: Outcome)
    requires c.pass.At? && c.hist != []
    ensures DeadMove(c.pass.pc, Observe(c, o), PassAfter(s, k, c, o))
  {
    hide ResumeCreation, ResumeTermination, ResumeOther, DeadMove;
    var pc, copy, r := c.pass.pc, c.pass.copy, Observe(c, o);
    if Creates(pc) {
      CreationDead(s, k, pc, copy, r);
    } else if Terminates(pc) {
      TerminationDead(pc, copy, r);
    } else {
      OtherDead(pc, copy, r);
    }
  }

  /** A pass about to refetch without having deleted anything has nothing recorded to delete. */
  lemma RefetchNothing(s: Settings, k: Key, c: Cell, o: Outcome)
    requires CellInv(c) && c.pass.At? && StoreAllows(c, o) && CellInv(CellAct(s, k, c, o))
    requires c.pass.pc.WriteFence? || c.pass.pc.GetClass?
    requires PastDeletion(PassAfter(s, k, c, o))
    ensures Last(HistAfter(c, o)).status.vm == None
  {
    hide HistInv, WithReady, Parse;
    var p, h' := PassAfter(s, k, c, o), HistAfter(c, o);
    PrecedesLast(h', p.copy.version);
    RefetchMeansEmpty(c.pass.pc, c.pass.copy, Observe(c, o));
  }

  lemma RefetchMeansEmpty(pc: Pc, c: Copy, r: Reply)
    requires pc.WriteFence? || pc.GetClass?
    requires PastDeletion(ResumeOther(pc, c, r))
    ensures ResumeOther(pc, c, r).copy.obj.status.providerID == ""
  {
    hide Conditions.SetReady, Parse;
  }

  /** Waiting for the delete task leaves the recorded VM dead. */
  lemma DeletedIsDead(w: World, k: Key, o: Outcome)
    requires WorldInv(w) && k in w.cells && KeyInv(w, k) && Enabled(w, Act(k, o))
    requires w.cells[k].pass.pc.WaitDelete? && o == Plain(Done) && Newest(w, k).status.vm.Some?
    requires NoReturn(w, ActWorld(w, k, o))
    ensures Dead(ActWorld(w, k, o), Newest(w, k).status.vm.value)
  {
    hide CellAct, PassInv, Parse, NetsAfter, DoomedAfter;
    var w' := ActWorld(w, k, o);
    var pc, i := w.cells[k].pass.pc, Newest(w, k).status.vm.value;
    TerminationSlot(w.cells[k].hist, pc, w.cells[k].pass.copy);
    RecordSlot(w, k, pc.slot);
    if Dead(w, i) {
      DeadStays(w, w', i);
    } else {
      assert pc.target == Own(i) && Occupies(w, pc.slot, pc.target);
      forall s | s in w'.vms
        ensures w'.vms[s] != Own(i)
      {
        assert SlotInv(w, s) && SlotInv(w, pc.slot);
      }
    }
  }

  /** Seeing no VM at the recorded slot, or some VM there, settles whether the recorded one is alive. */
  lemma ProbedIsDead(w: World, k: Key)
    requires WorldInv(w) && k in w.cells && KeyInv(w, k)
    requires w.cells[k].pass.At? && SlotOf(w.cells[k].pass.pc).Some? && Newest(w, k).status.vm.Some?
    ensures var slot, i := SlotOf(w.cells[k].pass.pc).value, Newest(w, k).status.vm.value;
      slot !in w.vms || w.vms[slot] != Own(i) ==> Dead(w, i)
  {
    hide PassInv, Parse;
    TerminationSlot(w.cells[k].hist, w.cells[k].pass.pc, w.cells[k].pass.copy);
    RecordSlot(w, k, SlotOf(w.cells[k].pass.pc).value);
  }

  /** Among the writes of a pass only the removal takes the finalizer away, and the record needs it. */
  lemma WritersAndFinalizer(h: seq<Object>, pc: Pc, c: Copy)
    requires h != [] && PassInv(h, At(pc, c)) && Writes(pc)
    ensures !WriteResult(pc, c, Last(h)).finalizer ==> !Last(h).finalizer || pc.WriteRemoval?
    ensures pc.WriteRecord? && c.version == |h| - 1 ==> Last(h).finalizer
  {
    hide StatusInv, Coherent, NamesSlot, TerminationCopy, Unrecorded;
  }

  lemma FinalizerAfter(c: Cell, o: Outcome)
    requires CellInv(c) && c.pass.At? && StoreAllows(c, o)
    ensures HistAfter(c, o) != []
    ensures !Last(HistAfter(c, o)).finalizer ==> !Last(c.hist).finalizer || c.pass.pc.WriteRemoval?
    ensures Lands(c, o) && c.pass.pc.WriteRecord? ==> Last(c.hist).finalizer
  {
    hide HistInv, PassInv, WriteResult, CountInv;
    CellHist(c);
    if Lands(c, o) {
      WritersAndFinalizer(c.hist, c.pass.pc, c.pass.copy);
    }
  }

  lemma ActDead(w: World, k: Key, o: Outcome)
    requires WorldInv(w) && k in w.cells && KeyInv(w, k) && Enabled(w, Act(k, o))
    requires CellInv(CellAct(w.settings, k, w.cells[k], o)) && HistAfter(w.cells[k], o) != []
    ensures DeadInv(ActWorld(w, k, o), k)
  {
    hide CellInv, Dead, PassAfter, NetsAfter, DoomedAfter, CallsAfter, VmsAfter, WriteResult, DeadMove;
    var c, w' := w.cells[k], ActWorld(w, k, o);
    ActNoReturn(w, k, o);
    FinalizerAfter(c, o);
    DeadMoves(w.settings, k, c, o);
    if Lands(c, o) && c.pass.pc.WriteRecord? {
      RecordEnds(w.settings, k, c, o);
    } else {
      if Lands(c, o) {
        RecordKept(c, o);
      }
      assert Newest(w', k).status.vm == Newest(w, k).status.vm;
      var vm := Newest(w, k).status.vm;
      if vm.Some? {
        if Dead(w, vm.value) {
          DeadStays(w, w', vm.value);
        } else {
          ActDeadNow(w, k, o);
        }
      }
    }
  }

  lemma RecordEnds(s: Settings, k: Key, c: Cell, o: Outcome)
    requires c.pass.At? && c.hist != [] && c.pass.pc.WriteRecord?
    ensures PassAfter(s, k, c, o).Idle?
  {
  }

  /** While the recorded VM lives, its Machine has the finalizer and no pass is past the deletion. */
  lemma AliveFacts(w: World, k: Key)
    requires k in w.cells && KeyInv(w, k) && Newest(w, k).status.vm.Some? && !Dead(w, Newest(w, k).status.vm.value)
    ensures Newest(w, k).finalizer && !PastDeletion(w.cells[k].pass)
    ensures CellInv(w.cells[k])
  {
    hide CellInv, RecordInv, HeldInv, Dead;
  }

  lemma ActDeadNow(w: World, k: Key, o: Outcome)
    requires WorldInv(w) && k in w.cells && KeyInv(w, k) && Enabled(w, Act(k, o))
    requires CellInv(CellAct(w.settings, k, w.cells[k], o)) && NoReturn(w, ActWorld(w, k, o))
    requires Newest(w, k).status.vm.Some? && !Dead(w, Newest(w, k).status.vm.value)
    requires HistAfter(w.cells[k], o) != []
    requires Last(HistAfter(w.cells[k], o)).status.vm == Newest(w, k).status.vm
    ensures var i, p := Newest(w, k).status.vm.value, PassAfter(w.settings, k, w.cells[k], o);
      && (PastDeletion(p) ==> Dead(ActWorld(w, k, o), i))
      && (p.At? && p.pc.WaitDelete? ==> p.pc.target == Own(i))
      && !w.cells[k].pass.pc.WriteRemoval? && Newest(w, k).finalizer
  {
    hide WorldInv, KeyInv, CellInv, DeadInv, Dead, PassAfter, NetsAfter, DoomedAfter, CallsAfter, VmsAfter, ActWorld,
      HistAfter;
    var c := w.cells[k];
    AliveFacts(w, k);
    DeadMoves(w.settings, k, c, o);
    if c.pass.pc.WaitDelete? && o == Plain(Done) {
      DeletedIsDead(w, k, o);
    } else if SlotOf(c.pass.pc).Some? {
      ProbedIsDead(w, k);
    } else if (c.pass.pc.WriteFence? || c.pass.pc.GetClass?) && PastDeletion(PassAfter(w.settings, k, c, o)) {
      RefetchNothing(w.settings, k, c, o);
    }
  }

  /** How a step may settle the fate of one call. */
  lemma LogFates(w: World, k: Key, o: Outcome, i: nat)
    requires k in w.cells && w.cells[k].pass.At? && HeldInv(w, k)
    requires i < |CallsAfter(w, k, w.cells[k].pass.pc, o)|
    ensures var p, c := w.cells[k].pass, CallsAfter(w, k, w.cells[k].pass.pc, o)[i];
      && (i < |w.calls| ==>
            && c.key == w.calls[i].key
            && (c.fate == w.calls[i].fate || (Held(p) == Some(i) && !c.fate.InFlight?))
            && (c.fate.InFlight? && Held(p) == Some(i) ==>
                  || (p.pc.WaitCreate? && o == Plain(ExitGood))
                  || (p.pc.Fetch? && o.Plain? && o.reply.Found?)
                  || p.pc.MakeNetConf?)
            && (c.fate.Recorded? && !w.calls[i].fate.Recorded? ==> p.pc.WriteRecord? && p.pc.call == i && Effective(o)))
      && (i == |w.calls| ==>
            && p.pc.CallCreate? && c.key == k && !c.fate.Recorded?
            && (c.fate.InFlight? ==> o.Plain? && o.reply.CreateStarted?))
      && i <= |w.calls|
  {
  }

  /** The record after a step: the call written when the record write lands, unchanged otherwise. */
  lemma ActVm(c: Cell, o: Outcome)
    requires CellInv(c) && c.pass.At? && StoreAllows(c, o) && HistAfter(c, o) != []
    ensures Last(HistAfter(c, o)).status.vm ==
      if c.pass.pc.WriteRecord? && Effective(o) then Some(c.pass.pc.call) else Last(c.hist).status.vm
    ensures c.pass.pc.WriteRecord? && Effective(o) ==> Last(c.hist).status.vm == None
  {
    hide CellInv;
    if Lands(c, o) && c.pass.pc.WriteRecord? {
      RecordWritten(c, o);
    } else if Lands(c, o) {
      RecordKept(c, o);
    }
  }

  lemma ActCalls(w: World, k: Key, o: Outcome, i: nat)
    requires k in w.cells && KeyInv(w, k) && Enabled(w, Act(k, o)) && HistAfter(w.cells[k], o) != []
    requires i < |ActWorld(w, k, o).calls|
    requires i < |w.calls| ==> CallInv(w, i)
    ensures CallInv(ActWorld(w, k, o), i)
  {
    hide CellInv, RecordInv, DeadInv, PassAfter, HistAfter, CallsAfter, NetsAfter, VmsAfter, DoomedAfter, StoreAllows;
    var c := w.cells[k];
    HeldMoves(w.settings, k, c, o);
    LogFates(w, k, o, i);
    ActVm(c, o);
    HeldAt(w, k, o);
  }

  lemma HeldAt(w: World, k: Key, o: Outcome)
    requires k in w.cells && w.cells[k].pass.At? && w.cells[k].hist != [] && Enabled(w, Act(k, o))
    ensures var pc, r := w.cells[k].pass.pc, Observe(w.cells[k], o);
      && (pc.CallCreate? && o.Plain? && o.reply.CreateStarted? ==> r == CreateStarted(|w.calls|))
      && (pc.WaitCreate? && o == Plain(ExitGood) ==> r == ExitGood)
      && (pc.Fetch? && o.Plain? && o.reply.Found? ==> r == o.reply)
  {
  }

  lemma ServiceNodeOk(w: World, k: Key, o: Outcome)
    requires Enabled(w, Act(k, o))
    ensures NodeOk(o)
  {
  }

  lemma ActionKeeps(w: World, k: Key, o: Outcome)
    requires WorldInv(w) && Enabled(w, Act(k, o))
    ensures WorldInv(ActWorld(w, k, o))
  {
    hide CellInv, CellAct, CallInv, SlotInv, RecordInv, DeadInv, NoReturn, CallsKept, CallsAfter, VmsAfter, DoomedAfter,
      NetsAfter, StoreAllows, ServiceAllows;
    var w' := ActWorld(w, k, o);
    assert KeyInv(w, k);
    ServiceNodeOk(w, k, o);
    ActKeeps(w.settings, k, w.cells[k], o);
    CellHist(CellAct(w.settings, k, w.cells[k], o));
    ActNoReturn(w, k, o);
    HistOfAct(w.settings, k, w.cells[k], o);
    ActRecord(w, k, o);
    ActHeld(w, k, o);
    ActDead(w, k, o);
    ActCount(w, k, o);
    forall k' | k' in w'.cells
      ensures KeyInv(w', k')
    {
      if k' != k {
        ActCallsKept(w, k, o, k');
        KeyFrame(w, w', k');
      }
    }
    forall k' | k' !in w'.cells
      ensures CountCalls(w'.calls, k') == 0
    {
      ActCallsKept(w, k, o, k');
      CountOfKept(w, w', k');
    }
    forall i | 0 <= i < |w'.calls|
      ensures CallInv(w', i)
    {
      ActCalls(w, k, o, i);
    }
    forall slot | slot in w'.vms
      ensures SlotInv(w', slot)
    {
      ActSlots(w, k, o, slot);
    }
  }

  lemma CellHist(c: Cell)
    requires CellInv(c)
    ensures c.hist != []
  {
  }

  lemma HistOfAct(s: Settings, k: Key, c: Cell, o: Outcome)
    requires c.pass.At? && c.hist != []
    ensures CellAct(s, k, c, o).hist == HistAfter(c, o)
  {
  }

  lemma CountOfKept(w: World, w': World, k: Key)
    requires CallsKept(w, w', k)
    ensures CountCalls(w'.calls, k) == CountCalls(w.calls, k)
  {
  }

  // ----- Crashes, all steps, and runs

  lemma CrashCell(c: Cell)
    requires CellInv(c)
    ensures CellInv(c.(pass := Idle))
  {
    hide HistInv;
  }

  lemma CrashLog(w: World, k: Key)
    requires k in w.cells && HeldInv(w, k)
    ensures var calls' := CrashWorld(w, k).calls;
      var held := Held(w.cells[k].pass);
      && |calls'| == |w.calls|
      && (forall i :: 0 <= i < |calls'| ==>
            calls'[i] == if held == Some(i) then w.calls[i].(fate := Crashed) else w.calls[i])
      && (held.Some? ==> held.value < |w.calls| && w.calls[held.value].key == k && w.calls[held.value].fate.InFlight?)
    ensures CrashWorld(w, k).vms == w.vms && CrashWorld(w, k).settings == w.settings
    ensures CrashWorld(w, k).cells == w.cells[k := w.cells[k].(pass := Idle)]
  {
  }

  lemma CrashFrame(w: World, k: Key, k': Key)
    requires k in w.cells && HeldInv(w, k)
    ensures NoReturn(w, CrashWorld(w, k))
    ensures k' != k ==> CallsKept(w, CrashWorld(w, k), k')
    ensures CountCalls(CrashWorld(w, k).calls, k') == CountCalls(w.calls, k')
  {
    hide CrashWorld, Held;
    CrashLog(w, k);
    CountSame(w.calls, CrashWorld(w, k).calls, k');
  }

  lemma CrashSelf(w: World, k: Key)
    requires k in w.cells && KeyInv(w, k)
    ensures KeyInv(CrashWorld(w, k), k)
  {
    hide CrashWorld, CellInv, Parse;
    var w' := CrashWorld(w, k);
    CrashLog(w, k);
    CrashCell(w.cells[k]);
    CrashFrame(w, k, k);
    var vm := Newest(w, k).status.vm;
    if vm.Some? && Dead(w, vm.value) {
      DeadStays(w, w', vm.value);
    }
  }

  lemma CrashCall(w: World, k: Key, i: nat)
    requires k in w.cells && HeldInv(w, k) && w.cells[k].hist != [] && i < |w.calls| && CallInv(w, i)
    ensures i < |CrashWorld(w, k).calls| && CallInv(CrashWorld(w, k), i)
  {
    hide CrashWorld;
    CrashLog(w, k);
  }

  lemma CrashSlot(w: World, k: Key, slot: Slot)
    requires k in w.cells && HeldInv(w, k) && slot in w.vms && SlotInv(w, slot)
    ensures slot in CrashWorld(w, k).vms && SlotInv(CrashWorld(w, k), slot)
  {
    hide CrashWorld, HeldInv;
    CrashLog(w, k);
  }

  lemma CrashKeeps(w: World, k: Key)
    requires WorldInv(w) && Enabled(w, Event.Crash(k))
    ensures WorldInv(CrashWorld(w, k))
  {
    hide CrashWorld, KeyInv, HeldInv, CallInv, SlotInv, NoReturn, CallsKept;
    var w' := CrashWorld(w, k);
    assert KeyInv(w, k);
    HeldOf(w, k);
    CrashLog(w, k);
    CrashSelf(w, k);
    forall k' | k' in w'.cells
      ensures KeyInv(w', k')
    {
      if k' != k {
        CrashFrame(w, k, k');
        KeyFrame(w, w', k');
      }
    }
    forall k' | k' !in w'.cells
      ensures CountCalls(w'.calls, k') == 0
    {
      CrashFrame(w, k, k');
    }
    forall i | 0 <= i < |w'.calls|
      ensures CallInv(w', i)
    {
      CrashCall(w, k, i);
    }
    forall slot | slot in w'.vms
      ensures SlotInv(w', slot)
    {
      CrashSlot(w, k, slot);
    }
  }

  lemma KeyOf(w: World, k: Key)
    requires WorldInv(w) && k in w.cells
    ensures KeyInv(w, k) && w.cells[k].hist != [] && HeldInv(w, k)
  {
    hide CallInv, SlotInv;
    assert KeyInv(w, k);
    HeldOf(w, k);
  }

  lemma HeldOf(w: World, k: Key)
    requires k in w.cells && KeyInv(w, k)
    ensures HeldInv(w, k) && w.cells[k].hist != []
  {
  }

  lemma StepKeeps(w: World, e: Event)
    requires WorldInv(w) && Enabled(w, e)
    ensures WorldInv(Apply(w, e))
  {
    hide WorldInv, ActWorld, CrashWorld;
    match e {
      case AddMachine(k, obj) => AddMachineKeeps(w, k, obj);
      case Touch(_) => MachineEventKeeps(w, e);
      case Delete(_) => MachineEventKeeps(w, e);
      case Reap(_) => MachineEventKeeps(w, e);
      case Forget(_) => MachineEventKeeps(w, e);
      case Start(_, _) => MachineEventKeeps(w, e);
      case Act(k, o) => ActionKeeps(w, k, o);
      case Crash(k) => CrashKeeps(w, k);
      case MakeVm(_) => InventoryEventKeeps(w, e);
      case AbandonTask(_) => InventoryEventKeeps(w, e);
      case RemoveDoomed(_, _) => InventoryEventKeeps(w, e);
      case ForeignMake(_, _) => InventoryEventKeeps(w, e);
      case ForeignRemove(_) => InventoryEventKeeps(w, e);
      case ForeignNetConf(_, _) => NetEventKeeps(w, e);
      case CollectNetConf(_) => NetEventKeeps(w, e);
    }
  }

  lemma InitHolds(w: World)
    requires Init(w)
    ensures WorldInv(w)
  {
  }

  /** Every world of every run satisfies the invariant. */
  lemma {:induction false} RunInv(ws: seq<World>, es: seq<Event>, n: nat)
    requires IsRun(ws, es) && n < |ws|
    ensures WorldInv(ws[n])
  {
    hide WorldInv, Enabled, Apply;
    if n == 0 {
      InitHolds(ws[0]);
    } else {
      RunInv(ws, es, n - 1);
      StepKeeps(ws[n - 1], es[n - 1]);
    }
  }
}
