/**
 Why exclusivity needs freed IDs to stay unused until every cache has forgotten the
 Machine: an older version can still start a deletion pass, and that pass deletes
 whatever sits at the ID by then.
 */
module StaleReads {
  import opened Wrappers
  import opened ProviderId
  import opened Machines
  import opened Reconcile
  import opened Cluster
  import opened MachineInvariants
  import opened ClusterInvariants
  import opened Accounting
  import opened QuietRuns
  import opened DeletionProgress
  import opened CreationProgress
  import opened CreationRuns
  import opened Exclusivity
  import VmidAllocation

  /** Some readable version of Machine k is past the fence and names this slot, which holds a VM that is not k's. */
  predicate Exposed(w: World, k: Key, v: nat, slot: Slot) {
    && k in w.cells && w.cells[k].pass.Idle? && !w.cells[k].forgotten && v < |w.cells[k].hist|
    && var o := w.cells[k].hist[v];
       && o.deleting && o.finalizer && Rank(o.status.phase) >= 4
       && o.status.vm.Some? && o.status.providerID == Build(slot) && Addressable(slot)
       && slot in w.vms && w.vms[slot] != Own(o.status.vm.value)
  }

  /** The pass that starts on that version and meets no failure. */
  function FatalEvents(k: Key, v: nat, vm: Vm): seq<Event> {
    [Event.Start(k, v), Act(k, Plain(Found(false))), Act(k, Plain(DeleteStarted(vm))), Act(k, Plain(Done))]
  }

  predicate DeletesNext(w: World, k: Key, slot: Slot, vm: Vm) {
    && k in w.cells && w.cells[k].pass.At? && w.cells[k].pass.pc == WaitDelete(slot, true, vm)
    && Occupies(w, slot, vm)
  }

  lemma ExposedStarts(w: World, k: Key, v: nat, slot: Slot)
    requires Exposed(w, k, v, slot)
    ensures Enabled(w, Event.Start(k, v))
    ensures var w1 := Apply(w, Event.Start(k, v));
      && k in w1.cells && w1.cells[k].pass.At? && w1.cells[k].pass.pc == GetTerminating(slot, true)
      && w1.cells[k].hist == w.cells[k].hist && w1.cells[k].gone == w.cells[k].gone && w1.vms == w.vms
  {
    hide Parse, Build, Conditions.SetReady;
    ParseBuild(slot);
    BuildNotEmpty(slot);
  }

  lemma ExposedLooks(w: World, k: Key, slot: Slot)
    requires k in w.cells && w.cells[k].hist != [] && slot in w.vms
    requires w.cells[k].pass.At? && w.cells[k].pass.pc == GetTerminating(slot, true)
    ensures Enabled(w, Act(k, Plain(Found(false))))
    ensures var w1 := Apply(w, Act(k, Plain(Found(false))));
      && k in w1.cells && w1.cells[k].pass.At? && w1.cells[k].pass.pc == CallDelete(slot, true)
      && w1.cells[k].hist == w.cells[k].hist && w1.cells[k].gone == w.cells[k].gone && w1.vms == w.vms
  {
    hide Conditions.SetReady;
  }

  lemma ExposedDeletes(w: World, k: Key, slot: Slot)
    requires k in w.cells && w.cells[k].hist != [] && slot in w.vms
    requires w.cells[k].pass.At? && w.cells[k].pass.pc == CallDelete(slot, true)
    ensures Enabled(w, Act(k, Plain(DeleteStarted(w.vms[slot]))))
    ensures var w1 := Apply(w, Act(k, Plain(DeleteStarted(w.vms[slot]))));
      && DeletesNext(w1, k, slot, w.vms[slot])
      && w1.cells[k].hist == w.cells[k].hist && w1.cells[k].gone == w.cells[k].gone && w1.vms == w.vms
  {
  }

  lemma ExposedWaits(w: World, k: Key, slot: Slot, vm: Vm)
    requires k in w.cells && w.cells[k].hist != [] && DeletesNext(w, k, slot, vm)
    ensures Enabled(w, Act(k, Plain(Done)))
    ensures Apply(w, Act(k, Plain(Done))).vms == w.vms - {slot}
  {
    hide Conditions.SetReady;
  }

  /** From an exposed world, four events that are no failure destroy a VM that is not the Machine's. */
  lemma ExposedIsFatal(ws: seq<World>, es: seq<Event>, k: Key, v: nat, slot: Slot) returns (qs: seq<World>)
    requires IsRun(ws, es) && Exposed(ws[|es|], k, v, slot)
    ensures IsRun(ws + qs, es + FatalEvents(k, v, ws[|es|].vms[slot])) && |qs| == 4
    ensures DeletesNext(qs[2], k, slot, ws[|es|].vms[slot]) && qs[2].cells[k].gone == ws[|es|].cells[k].gone
    ensures qs[3].vms == ws[|es|].vms - {slot}
  {
    hide Enabled, Apply, Init, Exposed, DeletesNext;
    var w := ws[|es|];
    ExposedHere(w, k, v, slot);
    var vm := w.vms[slot];
    var a := FatalEvents(k, v, vm);
    ExposedStarts(w, k, v, slot);
    var w1 := Apply(w, a[0]);
    ExposedLooks(w1, k, slot);
    var w2 := Apply(w1, a[1]);
    ExposedDeletes(w2, k, slot);
    var w3 := Apply(w2, a[2]);
    ExposedWaits(w3, k, slot, vm);
    var w4 := Apply(w3, a[3]);
    qs := [w1, w2, w3, w4];
  }

  lemma ExposedHere(w: World, k: Key, v: nat, slot: Slot)
    requires Exposed(w, k, v, slot)
    ensures k in w.cells && w.cells[k].hist != [] && slot in w.vms
  {
  }

  /**
   Exactly when a deletion is right: in any run, what sits at the slot that a pass is
   about to stop or delete is the VM the Machine recorded if and only if that VM is still
   alive.
   */
  lemma DeletesOwnIffAlive(ws: seq<World>, es: seq<Event>, n: nat, k: Key)
    requires IsRun(ws, es) && n < |ws| && k in ws[n].cells && ws[n].cells[k].pass.At?
    requires ws[n].cells[k].pass.pc.CallDelete? || ws[n].cells[k].pass.pc.CallStop?
    requires ws[n].cells[k].pass.pc.slot in ws[n].vms
    ensures ws[n].cells[k].hist != [] && Newest(ws[n], k).status.vm.Some?
    ensures ws[n].vms[ws[n].cells[k].pass.pc.slot] == Own(Newest(ws[n], k).status.vm.value) <==>
            !Dead(ws[n], Newest(ws[n], k).status.vm.value)
  {
    hide IsRun, WorldInv, HistInv, PassInv, KeyInv, Parse;
    var w, c := ws[n], ws[n].cells[k];
    RunInv(ws, es, n);
    HistOf(w, k);
    Lifecycle.VersionsKnown(ws, es, n, k);
    TerminationSlot(c.hist, c.pass.pc, c.pass.copy);
    RecordSlot(w, k, c.pass.pc.slot);
  }

  /** A DeleteVM call that Proxmox takes up, its reply lost or not, dooms what sits at that slot; no other call does. */
  lemma DeletionDooms(w: World, k: Key, o: Outcome)
    requires Enabled(w, Act(k, o))
    ensures var pc, w' := w.cells[k].pass.pc, Apply(w, Act(k, o));
      w'.doomed == if pc.CallDelete? && o != Plain(Error) then w.doomed + {(pc.slot, w.vms[pc.slot])} else w.doomed
  {
    hide CellAct, CallsAfter, VmsAfter, NetsAfter, StoreAllows;
  }

  // ----- The weaker discipline is not enough

  /** The discipline with "gone from the store" in place of "forgotten by every cache". */
  ghost predicate FreedWhenGone(w: World, e: Event) {
    && !e.ForeignRemove?
    && (e.MakeVm? && e.call < |w.calls| ==> NoneExisting(w, w.calls[e.call].slot))
    && (e.ForeignMake? ==> NoneExisting(w, e.slot))
  }

  ghost predicate NoneExisting(w: World, slot: Slot) {
    forall k :: k in w.cells && !w.cells[k].gone ==> !Records(w, k, slot)
  }

  lemma NoFillIsFree(w: World, e: Event)
    requires !e.MakeVm? && !e.ForeignMake? && !e.ForeignRemove?
    ensures FreedWhenGone(w, e)
  {
  }

  ghost predicate IsLooseRun(ws: seq<World>, es: seq<Event>) {
    IsRun(ws, es) && forall i :: 0 <= i < |es| ==> FreedWhenGone(ws[i], es[i])
  }

  lemma LooseExtends(ws: seq<World>, es: seq<Event>, e: Event)
    requires IsLooseRun(ws, es) && Enabled(ws[|es|], e) && FreedWhenGone(ws[|es|], e)
    ensures IsLooseRun(ws + [Apply(ws[|es|], e)], es + [e])
  {
    hide Enabled, Apply, Init, FreedWhenGone;
  }

  lemma LooseContinues(ws: seq<World>, es: seq<Event>, qs: seq<World>, fs: seq<Event>, k: Key)
    requires IsLooseRun(ws, es) && IsQuietRun(qs, fs, k) && qs[0] == ws[|es|]
    requires forall i :: 0 <= i < |fs| ==> FreedWhenGone(qs[i], fs[i])
    ensures IsLooseRun(ws + qs[1..], es + fs) && (ws + qs[1..])[|es + fs|] == qs[|fs|]
  {
    hide Enabled, Apply, Init, Succeeds, FreedWhenGone;
    QuietContinues(ws, es, qs, fs, k);
  }

  /** The one Machine records nothing before its VM is made. */
  lemma MakingIsFree(w0: World, w: World, k: Key, told: Option<string>, e: Event)
    requires Alone(w, k) && KeyInv(w, k) && Making(w0, w, k, told) && QuietEvent(w, k, e)
    ensures FreedWhenGone(w, e)
  {
    hide HistInv, MakingAt, Created, RecordInv, DeadInv, Succeeds;
  }

  lemma QuietCreationIsFree(w0: World, qs: seq<World>, fs: seq<Event>, k: Key, i: nat)
    requires IsQuietRun(qs, fs, k) && WorldInv(qs[0]) && Making(w0, qs[0], k, None) && Alone(qs[0], k) && i < |fs|
    ensures FreedWhenGone(qs[i], fs[i])
  {
    hide WorldInv, KeyInv, Making, QuietEvent, Alone, FreedWhenGone;
    QuietPrefix(qs, fs, k, i);
    QuietCreation(w0, qs[..i + 1], fs[..i], k);
    QuietRunStaysAlone(qs, fs, k, i);
    MakingHere(w0, qs[i], k, NodeTold(fs[..i], k));
    KeyOf(qs[i], k);
    QuietStep(qs, fs, k, i);
    MakingIsFree(w0, qs[i], k, NodeTold(fs[..i], k), fs[i]);
  }

  lemma QuietStep(qs: seq<World>, fs: seq<Event>, k: Key, i: nat)
    requires IsQuietRun(qs, fs, k) && i < |fs|
    ensures QuietEvent(qs[i], k, fs[i])
  {
    hide QuietEvent;
  }

  /** A quiet deletion only takes VMs away. */
  lemma {:induction false} DeletionOnlyRemoves(qs: seq<World>, fs: seq<Event>, k: Key, n: nat, slot: Slot)
    requires IsQuietRun(qs, fs, k) && WorldInv(qs[0]) && Deleting(qs[0], k) && n <= |fs|
    ensures forall i :: 0 <= i < n ==> FreedWhenGone(qs[i], fs[i])
    ensures slot in qs[n].vms ==> slot in qs[0].vms && qs[0].vms[slot] == qs[n].vms[slot]
    ensures Alone(qs[0], k) ==> Alone(qs[n], k)
    ensures Deleting(qs[n], k) && qs[0].cells[k].hist <= qs[n].cells[k].hist
  {
    hide WorldInv, Enabled, Apply, Deleting, FreedWhenGone, QuietEvent;
    DeletingHere(qs[0], k);
    if n > 0 {
      DeletionOnlyRemoves(qs, fs, k, n - 1, slot);
      QuietPrefix(qs, fs, k, n - 1);
      QuietDeletion(qs[..n], fs[..n - 1], k);
      var w, e := qs[n - 1], fs[n - 1];
      DeletionStep(w, k, e);
      EnabledQuiet(w, k, e);
      DeletionRemoves(w, k, e, slot);
      if Alone(w, k) {
        QuietStaysAlone(w, k, e);
      }
      DeletingHere(w, k);
      Lifecycle.StepHist(w, e, k);
    }
  }

  lemma DeletionRemoves(w: World, k: Key, e: Event, slot: Slot)
    requires Deleting(w, k) && QuietEvent(w, k, e)
    ensures FreedWhenGone(w, e)
    ensures slot in Apply(w, e).vms ==> slot in w.vms && w.vms[slot] == Apply(w, e).vms[slot]
  {
    hide CellAct, CallsAfter, DoomedAfter, NetsAfter, Succeeds, StoreAllows, ServiceAllows;
    NoHeldCall(w.cells[k].pass);
  }

  /** Machine k runs alone, its VM at the slot it recorded, and nothing else is in the inventory. */
  predicate RunsAlone(w: World, k: Key, slot: Slot) {
    && Alone(w, k) && w.cells[k].hist != [] && w.cells[k].pass.Idle? && !w.cells[k].gone
    && var o := Newest(w, k);
       && !o.deleting && o.status.phase.Running? && o.status.vm.Some?
       && o.status.providerID == Build(slot)
       && w.vms == map[slot := Own(o.status.vm.value)]
  }

  lemma CreatedRunsAlone(w0: World, w: World, k: Key) returns (slot: Slot)
    requires w0.vms == map[] && w0.settings.idStart == 100
    requires Making(w0, w, k, None) || Making(w0, w, k, Some(""))
    requires Alone(w, k) && w.cells[k].pass.Idle?
    ensures RunsAlone(w, k, slot)
  {
    hide Build, ChosenSlot, NoRoom, VmidAllocation.BaseId;
    RoomOnEmptyNode(w0, k, "");
    slot := w.calls[Newest(w, k).status.vm.value].slot;
  }

  lemma FirstMachine(k: Key) returns (ws: seq<World>, es: seq<Event>, slot: Slot)
    ensures IsLooseRun(ws, es) && RunsAlone(ws[|es|], k, slot) && ws[0] == EmptyWorld()
    ensures forall i :: 0 <= i < |es| ==> Untroubled(ws[i], es[i])
  {
    hide Enabled, Apply, Init, FreedWhenGone, WorldInv, Making, RunsAlone, EmptyWorld, Alone, Untroubled, QuietEvent;
    ws, es := FirstPass(k);
    var w0 := ws[1];
    BeginningIsUntroubled(w0, k);
    NoFillIsFree(ws[0], es[0]);
    NoFillIsFree(ws[1], es[1]);
    var qs, fs := QuietCreationRun(w0, ws[2], k, None, "", false);
    forall i | 0 <= i < |fs|
      ensures FreedWhenGone(qs[i], fs[i]) && Untroubled(qs[i], fs[i])
    {
      QuietCreationIsFree(w0, qs, fs, k, i);
      QuietIsUntroubled(qs[i], k, fs[i]);
    }
    QuietRunStaysAlone(qs, fs, k, |fs|);
    LooseContinues(ws, es, qs, fs, k);
    ws, es := ws + qs[1..], es + fs;
    slot := CreatedRunsAlone(w0, ws[|es|], k);
  }

  lemma StartIsFree(w: World, k: Key)
    requires k in w.cells && w.cells[k].hist != []
    ensures FreedWhenGone(w, CurrentStart(w, k))
    ensures Alone(w, k) ==> Alone(Begun(w, k), k)
  {
  }

  /** Machine k has been deleted, in the store and with its VM, but version v of it can still be read. */
  predicate DeletedAlone(w: World, k: Key, slot: Slot, v: nat) {
    && Alone(w, k) && w.cells[k].pass.Idle? && w.cells[k].gone && !w.cells[k].forgotten
    && v < |w.cells[k].hist| && slot !in w.vms
    && var o := w.cells[k].hist[v];
       && o.deleting && o.finalizer && Rank(o.status.phase) >= 4
       && o.status.vm.Some? && o.status.providerID == Build(slot) && Addressable(slot)
  }

  lemma DeleteAlone(w: World, k: Key, slot: Slot)
    requires k in w.cells && KeyInv(w, k) && RunsAlone(w, k, slot)
    ensures Enabled(w, Event.Delete(k))
    ensures var w1 := Apply(w, Event.Delete(k));
      && Alone(w1, k) && k in w1.cells && w1.cells[k].hist != [] && w1.cells[k].pass.Idle? && !w1.cells[k].gone
      && w1.vms == w.vms
      && Newest(w1, k) == Object(true, true, Newest(w, k).status)
  {
    hide HistInv, PassInv, RecordInv, HeldInv, DeadInv, Build;
    RunningHasFinalizer(w.cells[k].hist);
  }

  lemma StartsAtFence(w: World, k: Key)
    requires k in w.cells && w.cells[k].hist != []
    requires Newest(w, k).deleting && Newest(w, k).finalizer && Rank(Newest(w, k).status.phase) < 4
    ensures k in Begun(w, k).cells
    ensures var c, s := Begun(w, k).cells[k], Newest(w, k).status;
      && c.pass == At(WriteFence, Copy(|c.hist| - 1, Newest(w, k).(status := WithPhase(s, Phase.Terminating))))
      && c.hist == w.cells[k].hist && Begun(w, k).vms == w.vms
    ensures Alone(w, k) ==> Alone(Begun(w, k), k)
  {
    hide BeginTermination;
  }

  lemma FenceLands(w: World, k: Key)
    requires Deleting(w, k) && w.cells[k].pass.At? && w.cells[k].pass.pc.WriteFence? && Alone(w, k)
    ensures Enabled(w, Act(k, Landed))
    ensures var w' := Apply(w, Act(k, Landed));
      && Alone(w', k) && k in w'.cells && w'.cells[k].hist != [] && w'.vms == w.vms
      && Newest(w', k) == Newest(w, k).(status := w.cells[k].pass.copy.obj.status)
  {
    hide PassAfter;
  }

  /** The deletion request, the pass that starts on it, and its fence. */
  lemma FenceAlone(w: World, k: Key, slot: Slot) returns (w3: World)
    requires WorldInv(w) && k in w.cells && RunsAlone(w, k, slot)
    ensures Enabled(w, Event.Delete(k))
    ensures var w1 := Apply(w, Event.Delete(k));
      && k in w1.cells && w1.cells[k].hist != [] && Enabled(w1, CurrentStart(w1, k))
      && var w2 := Apply(w1, CurrentStart(w1, k));
         Enabled(w2, Act(k, Landed)) && w3 == Apply(w2, Act(k, Landed))
    ensures Deleting(w3, k) && Alone(w3, k) && k in w3.cells && w3.cells[k].hist != []
    ensures Newest(w3, k).deleting && Newest(w3, k).finalizer && Rank(Newest(w3, k).status.phase) >= 4
    ensures Newest(w3, k).status.vm.Some? && w3.vms == map[slot := Own(Newest(w3, k).status.vm.value)]
    ensures Newest(w3, k).status.providerID == Build(slot) && Addressable(slot)
  {
    hide WorldInv, HistInv, KeyInv, Enabled, Apply, Build, Begun, Deleting, CurrentStart, Alone;
    HistOf(w, k);
    RecordAddressable(w, k, slot);
    DeleteAlone(w, k, slot);
    var w1 := Apply(w, Event.Delete(k));
    StepKeeps(w, Event.Delete(k));
    DeletionStarts(w1, k);
    StartsAtFence(w1, k);
    StepKeeps(w1, CurrentStart(w1, k));
    var w2 := Begun(w1, k);
    HistOf(w2, k);
    FenceLands(w2, k);
    FenceGoesOn(w2, k);
    w3 := Apply(w2, Act(k, Landed));
    assert w3 == ActWorld(w2, k, Landed) by { ActIsActWorld(w2, k, Landed); }
  }

  lemma ActIsActWorld(w: World, k: Key, o: Outcome)
    requires Enabled(w, Act(k, o))
    ensures Apply(w, Act(k, o)) == ActWorld(w, k, o)
  {
  }

  lemma RecordAddressable(w: World, k: Key, slot: Slot)
    requires k in w.cells && KeyInv(w, k) && Newest(w, k).status.vm.Some?
    requires Newest(w, k).status.providerID == Build(slot)
    ensures Addressable(slot)
  {
    hide HistInv, PassInv, RecordInv, HeldInv, DeadInv, Parse, Build;
    LastCoherent(w.cells[k].hist);
    ParseBuild(slot);
  }

  lemma RunningHasFinalizer(h: seq<Object>)
    requires HistInv(h) && Last(h).status.phase.Running? && !Last(h).deleting
    ensures Last(h).finalizer
  {
    assert ObjectInv(Last(h));
  }

  /** Without the finalizer the recorded VM is dead, so nothing is left at the slot. */
  lemma NothingLeft(w: World, k: Key, slot: Slot)
    requires WorldInv(w) && k in w.cells && KeyInv(w, k) && !Newest(w, k).finalizer && Newest(w, k).status.vm.Some?
    ensures slot in w.vms ==> w.vms[slot] != Own(Newest(w, k).status.vm.value)
  {
    hide WorldInv, CellInv, RecordInv, HeldInv;
  }

  lemma ReapAlone(w: World, k: Key)
    requires Deleting(w, k) && w.cells[k].pass.Idle? && Alone(w, k) && KeyInv(w, k)
    ensures Enabled(w, Reap(k)) && FreedWhenGone(w, Reap(k))
    ensures var w' := Apply(w, Reap(k));
      && Alone(w', k) && w'.cells[k].pass.Idle? && w'.cells[k].gone && !w'.cells[k].forgotten
      && w'.cells[k].hist == w.cells[k].hist && w'.vms == w.vms
  {
    hide HistInv, PassInv, RecordInv, HeldInv, DeadInv;
  }

  lemma ThenDeleted(ws: seq<World>, es: seq<Event>, k: Key, slot: Slot)
      returns (ws': seq<World>, es': seq<Event>, v: nat)
    requires IsLooseRun(ws, es) && RunsAlone(ws[|es|], k, slot)
    ensures IsLooseRun(ws', es') && DeletedAlone(ws'[|es'|], k, slot, v)
  {
    hide Enabled, Apply, Init, FreedWhenGone, WorldInv, KeyInv, RunsAlone, Deleting, CurrentStart, Alone;
    var w := ws[|es|];
    LastWorld(ws, es);
    RunInv(ws, es, |es|);
    RunsHere(w, k, slot);
    var w3 := FenceAlone(w, k, slot);
    NoFillIsFree(w, Event.Delete(k));
    LooseExtends(ws, es, Event.Delete(k));
    ws', es' := ws + [Apply(w, Event.Delete(k))], es + [Event.Delete(k)];
    var start := CurrentStart(ws'[|es'|], k);
    StartIsFree(ws'[|es'|], k);
    LooseExtends(ws', es', start);
    ws', es' := ws' + [Apply(ws'[|es'|], start)], es' + [start];
    NoFillIsFree(ws'[|es'|], Act(k, Landed));
    LooseExtends(ws', es', Act(k, Landed));
    ws', es' := ws' + [w3], es' + [Act(k, Landed)];
    RunInv(ws', es', |es'|);
    v := |w3.cells[k].hist| - 1;
    var qs, fs := QuietDeletionRun(w3, k);
    DeletionOnlyRemoves(qs, fs, k, |fs|, slot);
    LooseContinues(ws', es', qs, fs, k);
    ws', es' := ws' + qs[1..], es' + fs;
    var w4 := ws'[|es'|];
    LastWorld(ws', es');
    RunInv(ws', es', |es'|);
    DeletedAtLast(w3, w4, k, slot);
    ReapAlone(w4, k);
    LooseExtends(ws', es', Reap(k));
    ws', es' := ws' + [Apply(w4, Reap(k))], es' + [Reap(k)];
  }

  lemma RunsHere(w: World, k: Key, slot: Slot)
    requires RunsAlone(w, k, slot)
    ensures k in w.cells
  {
  }

  /** At the end of the quiet deletion the slot is empty: what was there was the recorded VM. */
  lemma DeletedAtLast(w3: World, w4: World, k: Key, slot: Slot)
    requires WorldInv(w4) && Deleting(w4, k) && w4.cells[k].pass.Idle?
    requires k in w3.cells && w3.cells[k].hist != [] && w3.cells[k].hist <= w4.cells[k].hist
    requires Newest(w3, k).status.vm.Some?
    requires w3.vms == map[slot := Own(Newest(w3, k).status.vm.value)]
    requires slot in w4.vms ==> slot in w3.vms && w3.vms[slot] == w4.vms[slot]
    ensures slot !in w4.vms && KeyInv(w4, k)
  {
    hide WorldInv, HistInv, PassInv, RecordInv, HeldInv, DeadInv;
    HistOf(w4, k);
    var h := w4.cells[k].hist;
    assert h[|w3.cells[k].hist| - 1] == Newest(w3, k);
    PrecedesLast(h, |w3.cells[k].hist| - 1);
    NothingLeft(w4, k, slot);
  }

  /**
   There is a run in which nobody outside removes a VM and every VM appears at an ID no
   existing Machine has on record, and still the last step, by the pass of a Machine
   that is gone from the store, destroys a VM that Machine never made.
   */
  lemma GoneIsNotEnough(k: Key) returns (ws: seq<World>, es: seq<Event>, slot: Slot)
    ensures IsRun(ws, es) && |es| > 0
    ensures forall i :: 0 <= i < |es| ==> FreedWhenGone(ws[i], es[i])
    ensures var w := ws[|es| - 1];
      && es[|es| - 1] == Act(k, Plain(Done)) && k in w.cells && w.cells[k].gone
      && slot in w.vms && w.vms[slot].Foreign? && slot !in ws[|es|].vms
  {
    hide Enabled, Apply, Init, FreedWhenGone, RunsAlone, DeletedAlone, Exposed;
    ws, es, slot := FirstMachine(k);
    var v: nat;
    ws, es, v := ThenDeleted(ws, es, k, slot);
    ws, es := ThenRefilled(ws, es, k, slot, v);
    ws, es := ThenDestroyed(ws, es, k, slot, v);
  }

  lemma ThenRefilled(ws: seq<World>, es: seq<Event>, k: Key, slot: Slot, v: nat)
      returns (ws': seq<World>, es': seq<Event>)
    requires IsLooseRun(ws, es) && DeletedAlone(ws[|es|], k, slot, v)
    ensures IsLooseRun(ws', es') && Exposed(ws'[|es'|], k, v, slot)
    ensures k in ws'[|es'|].cells && ws'[|es'|].cells[k].gone
    ensures slot in ws'[|es'|].vms && ws'[|es'|].vms[slot] == Foreign(0)
  {
    hide IsLooseRun, Enabled, Apply, FreedWhenGone, DeletedAlone, Exposed;
    LooseLength(ws, es);
    RefillExposes(ws[|es|], k, slot, v);
    LooseExtends(ws, es, ForeignMake(slot, 0));
    ws', es' := ws + [Apply(ws[|es|], ForeignMake(slot, 0))], es + [ForeignMake(slot, 0)];
  }

  lemma LooseLength(ws: seq<World>, es: seq<Event>)
    requires IsLooseRun(ws, es)
    ensures |ws| == |es| + 1
  {
  }

  lemma ThenDestroyed(ws: seq<World>, es: seq<Event>, k: Key, slot: Slot, v: nat)
      returns (ws': seq<World>, es': seq<Event>)
    requires IsLooseRun(ws, es) && Exposed(ws[|es|], k, v, slot)
    requires k in ws[|es|].cells && ws[|es|].cells[k].gone && slot in ws[|es|].vms
    ensures IsLooseRun(ws', es') && |es'| > 0
    ensures var w := ws'[|es'| - 1];
      && es'[|es'| - 1] == Act(k, Plain(Done)) && k in w.cells && w.cells[k].gone
      && slot in w.vms && w.vms[slot] == ws[|es|].vms[slot] && slot !in ws'[|es'|].vms
  {
    hide Enabled, Apply, Init, FreedWhenGone, Exposed;
    var qs := ExposedIsFatal(ws, es, k, v, slot);
    var fatal := FatalEvents(k, v, ws[|es|].vms[slot]);
    ws', es' := ws + qs, es + fatal;
    forall i | 0 <= i < |es'|
      ensures FreedWhenGone(ws'[i], es'[i])
    {
      if i >= |es| {
        NoFillIsFree(ws'[i], es'[i]);
      }
    }
  }

  lemma RefillExposes(w: World, k: Key, slot: Slot, v: nat)
    requires DeletedAlone(w, k, slot, v)
    ensures Enabled(w, ForeignMake(slot, 0)) && FreedWhenGone(w, ForeignMake(slot, 0))
    ensures var w' := Apply(w, ForeignMake(slot, 0));
      Exposed(w', k, v, slot) && k in w'.cells && slot in w'.vms && w'.vms[slot] == Foreign(0) && w'.cells[k].gone
  {
    hide Build;
  }
}
