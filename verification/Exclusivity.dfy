/**
 VM exclusivity under parallel passes: what the check-then-act choice of an ID leaves
 true when nobody else removes VMs and a freed ID is not reused too early.
 */
module Exclusivity {
  import opened Wrappers
  import opened ProviderId
  import opened Machines
  import opened Reconcile
  import opened Cluster
  import opened MachineInvariants
  import opened ClusterInvariants
  import opened Lifecycle
  import opened Accounting

  /** The newest version of Machine k has a record, of a VM at this slot. */
  predicate Records(w: World, k: Key, slot: Slot) {
    && k in w.cells && w.cells[k].hist != []
    && var vm := Newest(w, k).status.vm;
       vm.Some? && vm.value < |w.calls| && w.calls[vm.value].slot == slot
  }

  /** Some cache may still answer a read of this Machine. */
  predicate Remembered(w: World, k: Key) {
    k in w.cells && !w.cells[k].forgotten
  }

  ghost predicate Unclaimed(w: World, slot: Slot) {
    forall k :: Remembered(w, k) ==> !Records(w, k, slot)
  }

  /** No remembered Machine past the fence has this slot on record: its ID is not waiting to be freed for good. */
  ghost predicate Released(w: World, slot: Slot) {
    forall k :: Remembered(w, k) && Records(w, k, slot) ==> Rank(Newest(w, k).status.phase) < 4
  }

  /**
   The discipline: nobody outside removes VMs, and no VM, the operator's or another's,
   appears at an ID that a Machine in deletion still has on record, as long as some cache
   remembers it. Of Machines that are not being deleted it asks nothing.
   */
  ghost predicate Disciplined(w: World, e: Event) {
    && !e.ForeignRemove?
    && (e.MakeVm? && e.call < |w.calls| ==> Released(w, w.calls[e.call].slot))
    && (e.ForeignMake? ==> Released(w, e.slot))
  }

  ghost predicate IsDisciplinedRun(ws: seq<World>, es: seq<Event>) {
    IsRun(ws, es) && forall i :: 0 <= i < |es| ==> Disciplined(ws[i], es[i])
  }

  // ----- The invariant

  predicate KeyExclusive(w: World, k: Key)
    requires k in w.cells && w.cells[k].hist != []
  {
    var vm := Newest(w, k).status.vm;
    vm.Some? && vm.value < |w.calls| ==>
      var i, slot := vm.value, w.calls[vm.value].slot;
      && (!w.cells[k].forgotten && slot in w.vms ==> w.vms[slot] == Own(i))
      && (Rank(Newest(w, k).status.phase) < 4 ==> Occupies(w, slot, Own(i)))
      && (w.cells[k].pass.At? && w.cells[k].pass.pc.WaitDelete? ==> w.cells[k].pass.pc.target == Own(i))
  }

  /** A VM that was made and is not recorded is where it was put, and nobody else has that slot on record. */
  ghost predicate CallExclusive(w: World, i: nat)
    requires i < |w.calls|
  {
    w.calls[i].task.Made? && !w.calls[i].fate.Recorded? ==>
      Occupies(w, w.calls[i].slot, Own(i)) && Unclaimed(w, w.calls[i].slot)
  }

  /** Only recorded VMs of Machines past the fence are ever asked to be deleted. */
  predicate DoomedExclusive(w: World, slot: Slot, vm: Vm) {
    && vm.Own? && vm.call < |w.calls|
    && w.calls[vm.call].slot == slot && w.calls[vm.call].fate.Recorded?
    && w.calls[vm.call].key in w.cells && w.cells[w.calls[vm.call].key].hist != []
    && Newest(w, w.calls[vm.call].key).status.vm == Some(vm.call)
    && Rank(Newest(w, w.calls[vm.call].key).status.phase) >= 4
  }

  ghost predicate RecordsDisjoint(w: World) {
    forall k1, k2, slot ::
      Remembered(w, k1) && Remembered(w, k2) && Records(w, k1, slot) && Records(w, k2, slot) ==> k1 == k2
  }

  ghost predicate Exclusive(w: World) {
    && RecordsDisjoint(w)
    && (forall k :: k in w.cells && w.cells[k].hist != [] ==> KeyExclusive(w, k))
    && (forall i :: 0 <= i < |w.calls| ==> CallExclusive(w, i))
    && (forall slot, vm :: (slot, vm) in w.doomed ==> DoomedExclusive(w, slot, vm))
  }

  // ----- Steps that leave calls and inventory alone

  /** No record changes, and no Machine is remembered anew. */
  predicate SameClaims(w: World, w': World, k: Key)
    requires k in w'.cells
  {
    && w'.cells[k].hist != []
    && (Newest(w', k).status.vm.Some? ==>
          && k in w.cells && w.cells[k].hist != []
          && Newest(w, k).status.vm == Newest(w', k).status.vm
          && Newest(w, k).status.vm.value < |w.calls|
          && Rank(Newest(w, k).status.phase) <= Rank(Newest(w', k).status.phase)
          && (w.cells[k].forgotten ==> w'.cells[k].forgotten))
  }

  /** Nothing is recorded and nothing comes or goes; calls may be added, and deletions asked for. */
  lemma ClaimsFrame(w: World, w': World)
    requires Exclusive(w)
    requires w'.vms == w.vms && |w.calls| <= |w'.calls|
    requires forall i :: 0 <= i < |w'.calls| && w'.calls[i].task.Made? ==>
      && i < |w.calls|
      && w.calls[i].task.Made?
      && (w.calls[i].fate.Recorded? ==> w'.calls[i].fate.Recorded?)
    requires forall i :: 0 <= i < |w.calls| ==>
      && w'.calls[i].slot == w.calls[i].slot && w'.calls[i].key == w.calls[i].key
      && (w.calls[i].fate.Recorded? ==> w'.calls[i].fate.Recorded?)
    requires forall slot, vm :: (slot, vm) in w'.doomed ==> (slot, vm) in w.doomed || DoomedExclusive(w, slot, vm)
    requires forall k :: k in w'.cells ==> SameClaims(w, w', k)
    requires forall k :: k in w.cells && w.cells[k].hist != [] && Newest(w, k).status.vm.Some? ==>
      k in w'.cells && w'.cells[k].hist != [] && Newest(w', k).status.vm == Newest(w, k).status.vm
    requires forall k :: k in w'.cells && w'.cells[k].pass.At? && w'.cells[k].pass.pc.WaitDelete? ==>
      || (k in w.cells && w.cells[k].pass == w'.cells[k].pass)
      || (w'.cells[k].hist != []
          && (Newest(w', k).status.vm.Some? ==> w'.cells[k].pass.pc.target == Own(Newest(w', k).status.vm.value)))
    ensures Exclusive(w')
  {
    hide Newest;
    forall slot | Unclaimed(w, slot)
      ensures Unclaimed(w', slot)
    {
      forall k | Remembered(w', k)
        ensures !Records(w', k, slot)
      {
        assert SameClaims(w, w', k);
        assert Remembered(w, k) ==> !Records(w, k, slot);
      }
    }
    forall k | k in w'.cells && w'.cells[k].hist != []
      ensures KeyExclusive(w', k)
    {
      assert SameClaims(w, w', k);
    }
    forall i | 0 <= i < |w'.calls|
      ensures CallExclusive(w', i)
    {
      if i < |w.calls| {
        assert CallExclusive(w, i);
      }
    }
    forall slot, vm | (slot, vm) in w'.doomed
      ensures DoomedExclusive(w', slot, vm)
    {
      assert DoomedExclusive(w, slot, vm);
      assert SameClaims(w, w', w.calls[vm.call].key);
    }
    forall k1, k2, slot | Remembered(w', k1) && Remembered(w', k2) && Records(w', k1, slot) && Records(w', k2, slot)
      ensures k1 == k2
    {
      assert SameClaims(w, w', k1) && SameClaims(w, w', k2);
      assert Records(w, k1, slot) && Records(w, k2, slot);
    }
  }

  lemma BeginDoesNotWait(c: Copy)
    ensures Begin(c).At? ==> !Begin(c).pc.WaitDelete?
  {
    hide Conditions.SetReady, Parse;
  }

  lemma OneCellExclusive(w: World, k: Key, c: Cell)
    requires WorldInv(w) && Exclusive(w) && c.hist != []
    requires k in w.cells ==>
      && w.cells[k].hist != [] && Last(c.hist).status == Newest(w, k).status
      && (w.cells[k].forgotten ==> c.forgotten)
    requires k !in w.cells ==> Last(c.hist).status.vm == None
    requires c.pass.At? && c.pass.pc.WaitDelete? ==> k in w.cells && w.cells[k].pass == c.pass
    ensures Exclusive(Put(w, k, c))
  {
    hide WorldInv, Exclusive;
    var w' := Put(w, k, c);
    forall k' | k' in w'.cells
      ensures SameClaims(w, w', k')
    {
      if k' in w.cells {
        ClaimKnown(w, k');
      }
    }
    forall k' | k' in w.cells && w.cells[k'].hist != []
      ensures k' in w'.cells && w'.cells[k'].hist != [] && Newest(w', k').status.vm == Newest(w, k').status.vm
    {
    }
    ClaimsFrame(w, w');
  }

  lemma ClaimKnown(w: World, k: Key)
    requires WorldInv(w) && k in w.cells
    ensures w.cells[k].hist != []
    ensures Newest(w, k).status.vm.Some? ==> Newest(w, k).status.vm.value < |w.calls|
  {
    hide CellInv, Parse, HeldInv, DeadInv, CallInv, SlotInv;
    assert KeyInv(w, k);
  }

  lemma MachineEventExclusive(w: World, e: Event)
    requires WorldInv(w) && Exclusive(w) && Enabled(w, e)
    requires e.AddMachine? || e.Touch? || e.Delete? || e.Reap? || e.Forget? || e.Start?
    ensures Exclusive(Apply(w, e))
  {
    hide WorldInv, Exclusive, Begin, FreshStatus;
    if e.AddMachine? {
      NothingRecordedYet(e.obj.status);
      OneCellExclusive(w, e.key, Cell([e.obj], false, false, Idle, 0, 0, 0));
    } else {
      ClaimKnown(w, e.key);
      var c := w.cells[e.key];
      match e {
        case Touch(k) => OneCellExclusive(w, k, c.(hist := c.hist + [Last(c.hist)]));
        case Delete(k) => OneCellExclusive(w, k, c.(hist := c.hist + [Last(c.hist).(deleting := true)]));
        case Reap(k) => OneCellExclusive(w, k, c.(gone := true));
        case Forget(k) => OneCellExclusive(w, k, c.(forgotten := true));
        case Start(k, v) =>
          BeginDoesNotWait(Copy(v, c.hist[v]));
          OneCellExclusive(w, k, c.(pass := Begin(Copy(v, c.hist[v]))));
      }
    }
  }

  lemma NothingRecordedYet(s: Status)
    requires FreshStatus(s)
    ensures s.vm == None
  {
  }

  lemma CrashExclusive(w: World, k: Key)
    requires WorldInv(w) && Exclusive(w) && Enabled(w, Event.Crash(k))
    ensures Exclusive(CrashWorld(w, k))
  {
    hide CellInv, Parse, DeadInv, CallInv, SlotInv, Exclusive, CrashWorld;
    var w' := CrashWorld(w, k);
    assert KeyInv(w, k);
    CrashLog(w, k);
    assert w'.doomed == w.doomed by { CrashDooms(w, k); }
    forall k' | k' in w'.cells
      ensures SameClaims(w, w', k')
    {
      assert KeyInv(w, k');
    }
    ClaimsFrame(w, w');
  }

  lemma CrashDooms(w: World, k: Key)
    requires k in w.cells
    ensures CrashWorld(w, k).doomed == w.doomed
  {
  }

  // ----- Steps of the inventory

  /** The slot of a Machine before its fence is occupied, so a free slot that is released is claimed by nobody. */
  lemma ReleasedIsUnclaimed(w: World, slot: Slot)
    requires Exclusive(w) && slot !in w.vms && Released(w, slot)
    ensures Unclaimed(w, slot)
  {
    forall k | Remembered(w, k)
      ensures !Records(w, k, slot)
    {
      if w.cells[k].hist != [] {
        KeyExclusiveAt(w, k);
      }
    }
  }

  lemma FillExclusive(w: World, w': World, slot: Slot, vm: Vm)
    requires WorldInv(w) && Exclusive(w) && slot !in w.vms && Unclaimed(w, slot)
    requires w'.cells == w.cells && w'.doomed == w.doomed && w'.vms == w.vms[slot := vm]
    requires vm.Foreign? ==> w'.calls == w.calls
    requires vm.Own? ==>
      && vm.call < |w.calls| && w.calls[vm.call].slot == slot
      && w'.calls == w.calls[vm.call := w.calls[vm.call].(task := Made)]
    ensures Exclusive(w')
  {
    hide WorldInv;
    forall k, s
      ensures Records(w', k, s) == Records(w, k, s)
    {
    }
    forall s | Unclaimed(w, s)
      ensures Unclaimed(w', s)
    {
      forall k | Remembered(w', k)
        ensures !Records(w', k, s)
      {
        assert Remembered(w, k);
      }
    }
    forall k | k in w'.cells && w'.cells[k].hist != []
      ensures KeyExclusive(w', k)
    {
      assert KeyExclusive(w, k);
      assert Remembered(w, k) ==> !Records(w, k, slot);
    }
    forall i | 0 <= i < |w'.calls|
      ensures CallExclusive(w', i)
    {
      assert CallExclusive(w, i);
    }
    forall s, v | (s, v) in w'.doomed
      ensures DoomedExclusive(w', s, v)
    {
      assert DoomedExclusive(w, s, v);
    }
  }

  /** A VM goes that a Machine past the fence has on record: nobody else loses anything. */
  lemma RemovalExclusive(w: World, w': World, slot: Slot, i: nat)
    requires WorldInv(w) && Exclusive(w) && Occupies(w, slot, Own(i)) && DoomedExclusive(w, slot, Own(i))
    requires w'.cells == w.cells && w'.doomed == w.doomed && w'.vms == w.vms - {slot} && w'.calls == w.calls
    ensures Exclusive(w')
  {
    hide CellInv, HeldInv, DeadInv, CallInv, SlotInv;
    forall k, s
      ensures Records(w', k, s) == Records(w, k, s)
    {
    }
    forall s | Unclaimed(w, s)
      ensures Unclaimed(w', s)
    {
      forall k | Remembered(w', k)
        ensures !Records(w', k, s)
      {
        assert Remembered(w, k);
      }
    }
    forall k | k in w'.cells && w'.cells[k].hist != []
      ensures KeyExclusive(w', k)
    {
      assert KeyExclusive(w, k);
      assert KeyInv(w, k);
    }
    forall j | 0 <= j < |w'.calls|
      ensures CallExclusive(w', j)
    {
      assert CallExclusive(w, j);
    }
    forall s, v | (s, v) in w'.doomed
      ensures DoomedExclusive(w', s, v)
    {
      assert DoomedExclusive(w, s, v);
    }
  }

  /** A step that touches neither Machines nor VMs nor what was made. */
  lemma IdleEventExclusive(w: World, e: Event)
    requires WorldInv(w) && Exclusive(w) && Enabled(w, e)
    requires e.AbandonTask? || e.ForeignNetConf? || e.CollectNetConf?
    ensures Exclusive(Apply(w, e))
  {
    hide WorldInv, Exclusive;
    var w' := Apply(w, e);
    forall k | k in w'.cells
      ensures SameClaims(w, w', k)
    {
      ClaimKnown(w, k);
    }
    ClaimsFrame(w, w');
  }

  lemma InventoryEventExclusive(w: World, e: Event)
    requires WorldInv(w) && Exclusive(w) && Enabled(w, e) && Disciplined(w, e)
    requires e.MakeVm? || e.AbandonTask? || e.RemoveDoomed? || e.ForeignMake? || e.ForeignNetConf? || e.CollectNetConf?
    ensures Exclusive(Apply(w, e))
  {
    hide WorldInv, Exclusive, DoomedExclusive, Unclaimed, Released;
    var w' := Apply(w, e);
    if e.MakeVm? {
      ReleasedIsUnclaimed(w, w.calls[e.call].slot);
      FillExclusive(w, w', w.calls[e.call].slot, Own(e.call));
    } else if e.ForeignMake? {
      ReleasedIsUnclaimed(w, e.slot);
      FillExclusive(w, w', e.slot, Foreign(e.tag));
    } else if e.RemoveDoomed? {
      DoomedAt(w, e.slot, e.vm);
      DoomedIsOwn(w, e.slot, e.vm);
      RemovalExclusive(w, w', e.slot, e.vm.call);
    } else {
      IdleEventExclusive(w, e);
    }
  }

  lemma DoomedAt(w: World, slot: Slot, vm: Vm)
    requires Exclusive(w) && (slot, vm) in w.doomed
    ensures DoomedExclusive(w, slot, vm)
  {
  }

  lemma DoomedIsOwn(w: World, slot: Slot, vm: Vm)
    requires DoomedExclusive(w, slot, vm)
    ensures vm.Own? && vm.call < |w.calls|
  {
  }

  lemma HistOf(w: World, k: Key)
    requires WorldInv(w) && k in w.cells
    ensures w.cells[k].hist != [] && KeyInv(w, k)
  {
    hide CellInv, CallInv, SlotInv;
    assert KeyInv(w, k);
  }

  // ----- Steps of a pass

  /** The slot holds the VM that Machine k, past the fence, has on record. */
  predicate OwnTarget(w: World, k: Key, slot: Slot)
    requires k in w.cells && w.cells[k].hist != []
  {
    var vm := Newest(w, k).status.vm;
    && vm.Some? && vm.value < |w.calls| && w.calls[vm.value].slot == slot
    && Rank(Newest(w, k).status.phase) >= 4
    && (slot in w.vms ==> w.vms[slot] == Own(vm.value))
  }

  lemma TerminationRank(h: seq<Object>, pc: Pc, c: Copy)
    requires HistInv(h) && PassInv(h, At(pc, c)) && SlotOf(pc).Some?
    ensures Rank(Last(h).status.phase) >= 4
  {
    hide HistInv, Parse;
    PrecedesLast(h, c.version);
  }

  /** A deletion pass looks at its own VM: whatever sits at its slot is the VM it recorded. */
  lemma TargetIsOwn(w: World, k: Key)
    requires k in w.cells && KeyInv(w, k) && KeyExclusive(w, k)
    requires w.cells[k].pass.At? && SlotOf(w.cells[k].pass.pc).Some?
    ensures OwnTarget(w, k, SlotOf(w.cells[k].pass.pc).value)
  {
    hide HistInv, PassInv, Parse, SlotOf;
    var c := w.cells[k];
    TerminationSlot(c.hist, c.pass.pc, c.pass.copy);
    TerminationRank(c.hist, c.pass.pc, c.pass.copy);
  }

  lemma OwnTargetDoomed(w: World, k: Key, slot: Slot)
    requires k in w.cells && KeyInv(w, k) && OwnTarget(w, k, slot) && slot in w.vms
    ensures DoomedExclusive(w, slot, w.vms[slot]) && w.vms[slot] == Own(Newest(w, k).status.vm.value)
  {
    hide CellInv, Parse;
  }

  /** The inventory after a step of a pass: at most the pass's own VM is gone, or asked to go. */
  lemma ActInventory(w: World, k: Key, o: Outcome)
    requires Enabled(w, Act(k, o)) && KeyInv(w, k) && KeyExclusive(w, k)
    ensures var pc, w' := w.cells[k].pass.pc, ActWorld(w, k, o);
      && (w'.vms != w.vms ==>
            && pc.WaitDelete? && OwnTarget(w, k, pc.slot) && pc.slot in w.vms
            && w'.vms == w.vms - {pc.slot})
      && (w'.doomed != w.doomed ==>
            && pc.CallDelete? && OwnTarget(w, k, pc.slot) && pc.slot in w.vms
            && w'.doomed == w.doomed + {(pc.slot, w.vms[pc.slot])})
  {
    hide CellAct, CallsAfter, NetsAfter, CellInv, Parse, OwnTarget, KeyExclusive;
    if w.cells[k].pass.pc.WaitDelete? || w.cells[k].pass.pc.CallDelete? {
      TargetIsOwn(w, k);
    }
  }

  /** The log after a step of a pass: nothing made, nothing unrecorded. */
  lemma ActLog(w: World, k: Key, o: Outcome)
    requires Enabled(w, Act(k, o)) && HeldInv(w, k)
    ensures var calls' := ActWorld(w, k, o).calls;
      && |w.calls| <= |calls'|
      && (forall i :: |w.calls| <= i < |calls'| ==> !calls'[i].task.Made?)
      && (forall i :: 0 <= i < |w.calls| ==>
            && calls'[i] == w.calls[i].(fate := calls'[i].fate)
            && (w.calls[i].fate.Recorded? ==> calls'[i].fate.Recorded?))
  {
    hide CellAct, VmsAfter, DoomedAfter, NetsAfter, StoreAllows, ServiceAllows;
  }

  lemma DeletionTargetsOwn(w: World, k: Key, o: Outcome)
    requires Enabled(w, Act(k, o)) && KeyInv(w, k) && KeyExclusive(w, k) && HistAfter(w.cells[k], o) != []
    requires var p := PassAfter(w.settings, k, w.cells[k], o); p.At? && p.pc.WaitDelete?
    ensures Newest(w, k).status.vm.Some?
    ensures PassAfter(w.settings, k, w.cells[k], o).pc.target == Own(Newest(w, k).status.vm.value)
    ensures HistAfter(w.cells[k], o) == w.cells[k].hist
  {
    hide CellInv, PassAfter, HistInv, Parse;
    DeadMoves(w.settings, k, w.cells[k], o);
    TargetIsOwn(w, k);
  }

  lemma QuietActClaims(w: World, k: Key, o: Outcome)
    requires Enabled(w, Act(k, o)) && KeyInv(w, k) && CellInv(CellAct(w.settings, k, w.cells[k], o))
    requires !(Lands(w.cells[k], o) && w.cells[k].pass.pc.WriteRecord?)
    ensures HistAfter(w.cells[k], o) != []
    ensures var a, b := Newest(w, k).status, Last(HistAfter(w.cells[k], o)).status;
      a.vm == b.vm && Rank(a.phase) <= Rank(b.phase) && (a.vm.Some? ==> a.vm.value < |w.calls|)
  {
    hide Parse, PassAfter, PassInv, CountInv, ServiceAllows, StoreAllows, ObjectInv;
    var c := w.cells[k];
    if Lands(c, o) {
      RecordKept(c, o);
      var h' := HistAfter(c, o);
      assert Precedes(h'[|h'| - 2], h'[|h'| - 1]);
    }
  }

  lemma ActDooms(w: World, w1: World, k: Key, o: Outcome)
    requires Enabled(w, Act(k, o)) && KeyInv(w, k) && KeyExclusive(w, k)
    requires w1 == w.(vms := ActWorld(w, k, o).vms)
    ensures forall slot, vm :: (slot, vm) in ActWorld(w, k, o).doomed ==>
      (slot, vm) in w1.doomed || DoomedExclusive(w1, slot, vm)
  {
    hide KeyInv, ActWorld, StoreAllows, ServiceAllows, OwnTarget, KeyExclusive, DoomedExclusive;
    ActInventory(w, k, o);
    if ActWorld(w, k, o).doomed != w.doomed {
      OwnTargetDoomed(w, k, w.cells[k].pass.pc.slot);
      SlotStillDoomed(w, w1, k, o);
    }
  }

  lemma ActClaims(w: World, w1: World, k: Key, o: Outcome, k': Key)
    requires WorldInv(w) && Enabled(w, Act(k, o)) && CellInv(CellAct(w.settings, k, w.cells[k], o))
    requires !(Lands(w.cells[k], o) && w.cells[k].pass.pc.WriteRecord?)
    requires w1 == w.(vms := ActWorld(w, k, o).vms) && k' in w.cells
    ensures k' in ActWorld(w, k, o).cells && SameClaims(w1, ActWorld(w, k, o), k')
    ensures w.cells[k'].hist != [] && Newest(ActWorld(w, k, o), k').status.vm == Newest(w, k').status.vm
  {
    hide WorldInv, KeyInv, PassAfter, HistAfter, CallsAfter, VmsAfter, DoomedAfter, NetsAfter, StoreAllows,
      ServiceAllows, Lands;
    HistOf(w, k);
    QuietActClaims(w, k, o);
    ClaimKnown(w, k');
  }

  lemma ActWaits(w: World, k: Key, o: Outcome)
    requires WorldInv(w) && Enabled(w, Act(k, o)) && CellInv(CellAct(w.settings, k, w.cells[k], o))
    requires KeyInv(w, k) && KeyExclusive(w, k)
    ensures var c' := ActWorld(w, k, o).cells[k];
      && c'.hist != []
      && (c'.pass.At? && c'.pass.pc.WaitDelete? ==>
            Last(c'.hist).status.vm.Some? && c'.pass.pc.target == Own(Last(c'.hist).status.vm.value))
  {
    hide WorldInv, KeyInv, PassAfter, HistAfter, StoreAllows, ServiceAllows, KeyExclusive;
    ActedHist(w, k, o);
    if var p := PassAfter(w.settings, k, w.cells[k], o); p.At? && p.pc.WaitDelete? {
      DeletionTargetsOwn(w, k, o);
    }
  }

  lemma ActedHist(w: World, k: Key, o: Outcome)
    requires k in w.cells && w.cells[k].hist != [] && w.cells[k].pass.At?
    ensures HistAfter(w.cells[k], o) != []
  {
  }

  /** A step that records nothing. */
  lemma QuietActExclusive(w: World, w1: World, k: Key, o: Outcome)
    requires WorldInv(w) && Enabled(w, Act(k, o)) && CellInv(CellAct(w.settings, k, w.cells[k], o))
    requires !(Lands(w.cells[k], o) && w.cells[k].pass.pc.WriteRecord?)
    requires KeyExclusive(w, k)
    requires w1 == w.(vms := ActWorld(w, k, o).vms) && Exclusive(w1)
    ensures Exclusive(ActWorld(w, k, o))
  {
    hide WorldInv, KeyInv, HeldInv, Exclusive, CellAct, CellInv, CallsAfter, VmsAfter, DoomedAfter, NetsAfter,
      StoreAllows, ServiceAllows, Lands, KeyExclusive, DoomedExclusive, SameClaims;
    var w' := ActWorld(w, k, o);
    HistOf(w, k);
    HeldOf(w, k);
    ActLog(w, k, o);
    ActDooms(w, w1, k, o);
    ActWaits(w, k, o);
    forall k' | k' in w'.cells
      ensures SameClaims(w1, w', k')
    {
      ActClaims(w, w1, k, o, k');
    }
    forall k' | k' in w1.cells && w1.cells[k'].hist != []
      ensures w'.cells[k'].hist != [] && Newest(w', k').status.vm == Newest(w1, k').status.vm
    {
      ActClaims(w, w1, k, o, k');
      SameClaimsHist(w1, w', k');
    }
    ClaimsFrame(w1, w');
  }

  lemma SameClaimsHist(w: World, w': World, k: Key)
    requires k in w'.cells && SameClaims(w, w', k)
    ensures w'.cells[k].hist != []
  {
  }

  /** The step that asks for a deletion removes nothing yet. */
  lemma SlotStillDoomed(w: World, w1: World, k: Key, o: Outcome)
    requires k in w.cells && w.cells[k].pass.At? && w.cells[k].hist != [] && w1 == w.(vms := ActWorld(w, k, o).vms)
    requires ActWorld(w, k, o).doomed != w.doomed
    ensures w1 == w
  {
    hide CellAct, CallsAfter, NetsAfter;
  }

  /** The write that records call i of Machine k: the VM is there, and nobody else claims its slot. */
  lemma RecordExclusive(w: World, w': World, k: Key, i: nat)
    requires WorldInv(w) && Exclusive(w)
    requires k in w.cells && w.cells[k].hist != [] && Newest(w, k).status.vm == None
    requires i < |w.calls| && w.calls[i].task.Made? && w.calls[i].fate.InFlight?
    requires w'.vms == w.vms && w'.doomed == w.doomed && w'.calls == w.calls[i := w.calls[i].(fate := Recorded)]
    requires k in w'.cells && w'.cells == w.cells[k := w'.cells[k]] && w'.cells[k].hist != [] && w'.cells[k].pass.Idle?
    requires w'.cells[k].forgotten == w.cells[k].forgotten
    requires Newest(w', k).status.vm == Some(i)
    ensures Exclusive(w')
  {
    hide WorldInv;
    var slot := w.calls[i].slot;
    assert CallExclusive(w, i);
    forall k', s | Records(w', k', s)
      ensures Records(w, k', s) || (k' == k && s == slot)
    {
    }
    forall s | Unclaimed(w, s) && s != slot
      ensures Unclaimed(w', s)
    {
      forall k' | Remembered(w', k')
        ensures !Records(w', k', s)
      {
        assert Remembered(w, k');
      }
    }
    forall k' | k' in w'.cells && w'.cells[k'].hist != []
      ensures KeyExclusive(w', k')
    {
      assert k' != k ==> KeyExclusive(w, k');
    }
    forall j | 0 <= j < |w'.calls|
      ensures CallExclusive(w', j)
    {
      assert CallExclusive(w, j);
    }
    forall s, v | (s, v) in w'.doomed
      ensures DoomedExclusive(w', s, v)
    {
      assert DoomedExclusive(w, s, v);
    }
    forall k1, k2, s | Remembered(w', k1) && Remembered(w', k2) && Records(w', k1, s) && Records(w', k2, s)
      ensures k1 == k2
    {
      assert Remembered(w, k1) && Remembered(w, k2);
    }
  }

  lemma RecordStep(w: World, k: Key, o: Outcome)
    requires Enabled(w, Act(k, o)) && KeyInv(w, k)
    requires Lands(w.cells[k], o) && w.cells[k].pass.pc.WriteRecord?
    ensures var w', i := ActWorld(w, k, o), w.cells[k].pass.pc.call;
      && Newest(w, k).status.vm == None
      && i < |w.calls| && w.calls[i].task.Made? && w.calls[i].fate.InFlight?
      && w'.vms == w.vms && w'.doomed == w.doomed && w'.calls == w.calls[i := w.calls[i].(fate := Recorded)]
      && w'.cells == w.cells[k := w'.cells[k]] && w'.cells[k].hist != [] && w'.cells[k].pass.Idle?
      && w'.cells[k].forgotten == w.cells[k].forgotten
      && Newest(w', k).status.vm == Some(i)
  {
    hide CellInv, Parse, PassAfter, StoreAllows, ServiceAllows, WriteResult;
    var c := w.cells[k];
    RecordWritten(c, o);
    LogOfRecord(w, k, o);
    RecordEnds(w.settings, k, c, o);
  }

  lemma ActExclusive(w: World, k: Key, o: Outcome)
    requires WorldInv(w) && Exclusive(w) && Enabled(w, Act(k, o))
    ensures Exclusive(ActWorld(w, k, o))
  {
    hide WorldInv, CellInv, CellAct, KeyInv, ActWorld, Exclusive, PassAfter, CallsAfter, VmsAfter, DoomedAfter,
      NetsAfter, StoreAllows, ServiceAllows, OwnTarget, KeyExclusive;
    HistOf(w, k);
    KeyExclusiveAt(w, k);
    if Lands(w.cells[k], o) && w.cells[k].pass.pc.WriteRecord? {
      RecordStep(w, k, o);
      RecordExclusive(w, ActWorld(w, k, o), k, w.cells[k].pass.pc.call);
    } else {
      ActedCell(w, k, o);
      ActInventory(w, k, o);
      var w1 := w.(vms := ActWorld(w, k, o).vms);
      if w1.vms != w.vms {
        var slot := w.cells[k].pass.pc.slot;
        OwnTargetDoomed(w, k, slot);
        DoomedIsOwn(w, slot, w.vms[slot]);
        RemovalExclusive(w, w1, slot, w.vms[slot].call);
      }
      QuietActExclusive(w, w1, k, o);
    }
  }

  lemma KeyExclusiveAt(w: World, k: Key)
    requires Exclusive(w) && k in w.cells && w.cells[k].hist != []
    ensures KeyExclusive(w, k)
  {
  }

  lemma ActedCell(w: World, k: Key, o: Outcome)
    requires WorldInv(w) && Enabled(w, Act(k, o))
    ensures CellInv(CellAct(w.settings, k, w.cells[k], o))
  {
    hide WorldInv, CellInv, CellAct, StoreAllows, ServiceAllows;
    HistOf(w, k);
    ServiceNodeOk(w, k, o);
    CellOf(w, k);
    assert RoomForIds(w.settings) by { RoomOf(w); }
    ActKeeps(w.settings, k, w.cells[k], o);
  }

  lemma RoomOf(w: World)
    requires WorldInv(w)
    ensures RoomForIds(w.settings)
  {
  }

  lemma StepExclusive(w: World, e: Event)
    requires WorldInv(w) && Exclusive(w) && Enabled(w, e) && Disciplined(w, e)
    ensures Exclusive(Apply(w, e))
  {
    hide WorldInv, Exclusive, Enabled, ActWorld, CrashWorld, Released;
    match e {
      case Act(k, o) => ActExclusive(w, k, o);
      case Crash(k) => CrashExclusive(w, k);
      case AddMachine(_, _) => MachineEventExclusive(w, e);
      case Touch(_) => MachineEventExclusive(w, e);
      case Delete(_) => MachineEventExclusive(w, e);
      case Reap(_) => MachineEventExclusive(w, e);
      case Forget(_) => MachineEventExclusive(w, e);
      case Start(_, _) => MachineEventExclusive(w, e);
      case ForeignRemove(_) =>
      case _ => InventoryEventExclusive(w, e);
    }
  }

  lemma {:induction false} RunExclusive(ws: seq<World>, es: seq<Event>, n: nat)
    requires IsDisciplinedRun(ws, es) && n < |ws|
    ensures Exclusive(ws[n])
  {
    hide Enabled, Apply, Disciplined, WorldInv;
    if n > 0 {
      RunExclusive(ws, es, n - 1);
      RunInv(ws, es, n - 1);
      StepExclusive(ws[n - 1], es[n - 1]);
    }
  }

  // ----- Theorems

  lemma RecordedSlot(ws: seq<World>, es: seq<Event>, n: nat, k: Key)
    requires IsDisciplinedRun(ws, es) && n < |ws| && k in ws[n].cells
    ensures ws[n].cells[k].hist != [] && KeyExclusive(ws[n], k)
    ensures var s := Newest(ws[n], k).status;
      && (s.providerID != "" <==> s.vm.Some?)
      && (s.vm.Some? ==>
            && s.vm.value < |ws[n].calls| && ws[n].calls[s.vm.value].key == k
            && ws[n].calls[s.vm.value].fate.Recorded?
            && Addressable(ws[n].calls[s.vm.value].slot)
            && s.providerID == Build(ws[n].calls[s.vm.value].slot)
            && Records(ws[n], k, ws[n].calls[s.vm.value].slot))
  {
    hide IsRun, HistInv, PassInv, Parse, Build, KeyExclusive;
    RunExclusive(ws, es, n);
    VersionsKnown(ws, es, n, k);
    LastCoherent(ws[n].cells[k].hist);
    KeyExclusiveAt(ws[n], k);
  }

  /** No two Machines that some cache remembers, so no two that exist, have the same provider ID on record. */
  lemma ProviderIdsAreUnique(ws: seq<World>, es: seq<Event>, n: nat, k1: Key, k2: Key)
    requires IsDisciplinedRun(ws, es) && n < |ws| && k1 != k2
    requires Remembered(ws[n], k1) && Remembered(ws[n], k2)
    ensures ws[n].cells[k1].hist != [] && ws[n].cells[k2].hist != []
    ensures Newest(ws[n], k1).status.providerID != "" ==>
            Newest(ws[n], k1).status.providerID != Newest(ws[n], k2).status.providerID
  {
    hide IsRun, Build, KeyExclusive, Records;
    RecordedSlot(ws, es, n, k1);
    RecordedSlot(ws, es, n, k2);
    RunExclusive(ws, es, n);
    var w := ws[n];
    if Newest(w, k1).status.providerID != "" && Newest(w, k1).status.providerID == Newest(w, k2).status.providerID {
      BuildInjective(w.calls[Newest(w, k1).status.vm.value].slot, w.calls[Newest(w, k2).status.vm.value].slot);
    }
  }

  /** Until the fence, a recorded provider ID names a slot that holds the very VM this Machine created. */
  lemma RecordedVmIsLive(ws: seq<World>, es: seq<Event>, n: nat, k: Key) returns (slot: Slot, i: nat)
    requires IsDisciplinedRun(ws, es) && n < |ws| && k in ws[n].cells
    requires ws[n].cells[k].hist != [] && Newest(ws[n], k).status.providerID != ""
    requires Newest(ws[n], k).status.phase !in {Phase.Terminating, Phase.Terminated}
    ensures Addressable(slot) && Newest(ws[n], k).status.providerID == Build(slot)
    ensures slot in ws[n].vms && ws[n].vms[slot] == Own(i)
    ensures i < |ws[n].calls| && ws[n].calls[i].key == k
  {
    hide IsRun, Build;
    RecordedSlot(ws, es, n, k);
    i := Newest(ws[n], k).status.vm.value;
    slot := ws[n].calls[i].slot;
  }

  /** In particular every stored Running Machine has a record, and its VM is there. */
  lemma RunningVmIsLive(ws: seq<World>, es: seq<Event>, n: nat, k: Key) returns (slot: Slot, i: nat)
    requires IsDisciplinedRun(ws, es) && n < |ws| && k in ws[n].cells
    requires ws[n].cells[k].hist != [] && Newest(ws[n], k).status.phase.Running?
    ensures Addressable(slot) && Newest(ws[n], k).status.providerID == Build(slot)
    ensures slot in ws[n].vms && ws[n].vms[slot] == Own(i)
    ensures i < |ws[n].calls| && ws[n].calls[i].key == k
  {
    hide IsRun, Build, PassInv, KeyInv, Parse;
    VersionsKnown(ws, es, n, k);
    LastObject(ws[n].cells[k].hist);
    slot, i := RecordedVmIsLive(ws, es, n, k);
  }

  /**
   A deleting Machine only ever destroys its own VM, and nothing else destroys any: in a
   disciplined run, a VM that a step removes is the recorded VM of a Machine marked for deletion.
   */
  lemma OnlyOwnVmsDisappear(ws: seq<World>, es: seq<Event>, n: nat, slot: Slot)
    requires IsDisciplinedRun(ws, es) && n < |es| && slot in ws[n].vms
    requires slot !in ws[n + 1].vms || ws[n + 1].vms[slot] != ws[n].vms[slot]
    ensures ws[n].vms[slot].Own?
    ensures var w, i := ws[n], ws[n].vms[slot].call;
      && i < |w.calls|
      && var k := w.calls[i].key;
         && k in w.cells && w.cells[k].hist != []
         && Newest(w, k).deleting && Newest(w, k).status.vm == Some(i)
         && Newest(w, k).status.providerID == Build(slot)
  {
    hide IsRun, WorldInv, Build, Parse, Exclusive, StoreAllows, ServiceAllows, FreshStatus, Released;
    StepOfRun(ws, es, n);
    var w, e := ws[n], es[n];
    RunInv(ws, es, n);
    RunExclusive(ws, es, n);
    RemovedIsDoomed(w, e, slot);
    var k := w.calls[w.vms[slot].call].key;
    RecordedSlot(ws, es, n, k);
    VersionsKnown(ws, es, n, k);
    DeletedAtFence(w.cells[k].hist);
  }

  lemma StepOfRun(ws: seq<World>, es: seq<Event>, n: nat)
    requires IsDisciplinedRun(ws, es) && n < |es|
    ensures |ws| == |es| + 1 && Enabled(ws[n], es[n]) && ws[n + 1] == Apply(ws[n], es[n]) && Disciplined(ws[n], es[n])
  {
    hide Enabled, Apply, Disciplined;
  }

  lemma DeletedAtFence(h: seq<Object>)
    requires HistInv(h) && Rank(Last(h).status.phase) >= 4
    ensures Last(h).deleting
  {
    hide StatusInv;
    assert ObjectInv(Last(h));
  }

  lemma RemovedIsDoomed(w: World, e: Event, slot: Slot)
    requires WorldInv(w) && Exclusive(w) && Enabled(w, e) && Disciplined(w, e)
    requires slot in w.vms && (slot !in Apply(w, e).vms || Apply(w, e).vms[slot] != w.vms[slot])
    ensures DoomedExclusive(w, slot, w.vms[slot])
  {
    hide WorldInv, KeyInv, CellAct, CallsAfter, VmsAfter, DoomedAfter, NetsAfter, StoreAllows, ServiceAllows, Begin,
      FreshStatus, OwnTarget, KeyExclusive, DoomedExclusive, Unclaimed, Released, RecordsDisjoint,
      CallExclusive;
    if e.Act? {
      HistOf(w, e.key);
      KeyExclusiveAt(w, e.key);
      ActInventory(w, e.key, e.outcome);
      OwnTargetDoomed(w, e.key, slot);
    }
  }

  /** Machine k exists and its record names this slot. */
  predicate ClaimsSlot(w: World, k: Key, slot: Slot) {
    && k in w.cells && !w.cells[k].gone && w.cells[k].hist != []
    && Newest(w, k).status.providerID == Build(slot)
  }

  /**
   Recorded VMs are the live VMs: in a disciplined run that lost nothing, whenever no
   pass is in progress and no Machine is past the fence, the slots that hold a VM of
   the operator are exactly the ones that existing Machines have on record.
   */
  lemma RecordedAreLive(ws: seq<World>, es: seq<Event>, n: nat, slot: Slot)
    requires IsDisciplinedRun(ws, es) && n < |ws| && Addressable(slot)
    requires forall m, i, f :: 0 <= m < n ==> !Loses(ws[m], es[m], i, f)
    requires forall k :: k in ws[n].cells ==> ws[n].cells[k].pass.Idle?
    requires forall k :: k in ws[n].cells && !ws[n].cells[k].gone && ws[n].cells[k].hist != [] ==>
      Rank(Newest(ws[n], k).status.phase) < 4
    ensures slot in ws[n].vms && ws[n].vms[slot].Own? <==> exists k :: ClaimsSlot(ws[n], k, slot)
  {
    hide IsRun, Build, Loses;
    var w := ws[n];
    if slot in w.vms && w.vms[slot].Own? {
      NothingLostNothingLeaked(ws, es, n, slot);
      var k :| k in w.cells && !w.cells[k].gone && w.cells[k].hist != []
        && Newest(w, k).status.providerID == Build(slot);
      assert ClaimsSlot(w, k, slot);
    }
    forall k | ClaimsSlot(w, k, slot)
      ensures slot in w.vms && w.vms[slot].Own?
    {
      BuildNotEmpty(slot);
      var slot', i := RecordedVmIsLive(ws, es, n, k);
      BuildInjective(slot', slot);
    }
  }
}
