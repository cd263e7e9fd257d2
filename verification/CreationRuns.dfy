/** Creation passes carried out, from an empty cluster on; and a VM that leaks although nothing fails. */
module CreationRuns {
  import opened Wrappers
  import opened ProviderId
  import opened Machines
  import opened Reconcile
  import opened Cluster
  import opened MachineInvariants
  import opened ClusterInvariants
  import opened Accounting
  import opened QuietRuns
  import opened CreationProgress
  import VmidAllocation

  // ----- A quiet pass, to its end or to its final write

  /** A quiet pass that ends without a final write has failed. */
  lemma EndsByFailing(w0: World, w: World, k: Key, told: Option<string>, e: Event)
    requires WorldInv(w) && Making(w0, w, k, told) && QuietEvent(w, k, e)
    requires w.cells[k].pass.At? && !w.cells[k].pass.pc.WriteRecord?
    requires Making(w0, Apply(w, e), k, ToldAfter(told, k, e)) && Apply(w, e).cells[k].pass.Idle?
    ensures Newest(Apply(w, e), k).status.phase.Failed?
  {
    hide WorldInv, ActWorld, ServiceAllows, StoreAllows, Succeeds, MakingAt, Writes;
    KeyOf(w, k);
    if e.MakeVm? {
      MakeVmGoes(w0, w, k, told, e.call);
    } else {
      MakingVms(w0, w, k, told, e.outcome);
      if Creates(w.cells[k].pass.pc) && !Writes(w.cells[k].pass.pc) {
        CallingGoes(w0, w, k, told, e.outcome);
      } else {
        BeforeTheVm(w0, w, k, told);
      }
    }
  }

  lemma BeforeTheVm(w0: World, w: World, k: Key, told: Option<string>)
    requires Making(w0, w, k, told) && w.cells[k].pass.At? && !w.cells[k].pass.pc.WriteRecord?
    requires !Creates(w.cells[k].pass.pc) || Writes(w.cells[k].pass.pc)
    ensures w.vms == w0.vms
  {
  }

  /** The quiet pass that is given this node and network: to its end, or up to its final write. */
  lemma {:induction false} QuietCreationRun(w0: World, w: World, k: Key, told: Option<string>, node: string, stop: bool)
      returns (qs: seq<World>, fs: seq<Event>)
    requires WorldInv(w) && Making(w0, w, k, told) && told in {None, Some(node)} && '/' !in node
    requires stop ==> w.cells[k].pass.At?
    ensures IsQuietRun(qs, fs, k) && qs[0] == w && WorldInv(qs[|fs|])
    ensures Making(w0, qs[|fs|], k, None) || Making(w0, qs[|fs|], k, Some(node))
    ensures qs[|fs|].cells[k].pass.Idle? || (stop && qs[|fs|].cells[k].pass.pc.WriteRecord?)
    ensures stop && qs[|fs|].cells[k].pass.Idle? ==> NoRoom(w0, k, node)
    decreases Left(w0, w, k)
  {
    hide WorldInv, KeyInv, Enabled, Apply, Making, Left, NextSuccess, QuietEvent, NoRoom;
    MakingHere(w0, w, k, told);
    if w.cells[k].pass.Idle? || (stop && w.cells[k].pass.pc.WriteRecord?) {
      qs, fs := [w], [];
    } else {
      var e := NextSuccess(w, k, node, Net("", 0));
      KeyOf(w, k);
      NeverStuck(w0, w, k, told, node, Net("", 0));
      EnabledQuiet(w, k, e);
      var w', told' := Apply(w, e), ToldAfter(told, k, e);
      CreationStep(w0, w, k, told, e);
      StepKeeps(w, e);
      TellsThisNode(w, k, node, told);
      MakingHere(w0, w', k, told');
      if stop && w'.cells[k].pass.Idle? {
        EndsByFailing(w0, w, k, told, e);
        FailedForRoom(w0, w', k, told');
        qs, fs := [w, w'], [e];
      } else {
        qs, fs := QuietCreationRun(w0, w', k, told', node, stop);
        qs, fs := [w] + qs, [e] + fs;
      }
    }
  }

  lemma TellsThisNode(w: World, k: Key, node: string, told: Option<string>)
    requires k in w.cells && w.cells[k].pass.At? && told in {None, Some(node)}
    ensures ToldAfter(told, k, NextSuccess(w, k, node, Net("", 0))) in {None, Some(node)}
  {
  }

  lemma FailedForRoom(w0: World, w: World, k: Key, told: Option<string>)
    requires Making(w0, w, k, told) && w.cells[k].pass.Idle? && Newest(w, k).status.phase.Failed?
    ensures told.Some? && NoRoom(w0, k, told.value)
  {
  }

  // ----- One Machine in an empty cluster

  /** Machine k is the only one there is. */
  predicate Alone(w: World, k: Key) {
    w.cells.Keys == {k}
  }

  lemma QuietStaysAlone(w: World, k: Key, e: Event)
    requires Alone(w, k) && QuietEvent(w, k, e)
    ensures Alone(Apply(w, e), k)
  {
    hide CellAct, VmsAfter, CallsAfter, DoomedAfter, NetsAfter, Succeeds, StoreAllows, ServiceAllows;
  }

  /** An empty cluster. */
  function EmptyWorld(): World {
    World(Settings(100, false), map[], map[], [], {}, map[])
  }

  function FreshMachine(): Object {
    Object(false, true, Status(Unset, "", "", "", "", [], None))
  }

  lemma EmptyIsInit()
    ensures Init(EmptyWorld())
  {
  }

  lemma RoomOnEmptyNode(w: World, k: Key, node: string)
    requires (forall slot :: slot in w.vms ==> slot.node != node) && w.settings.idStart == 100
    ensures !NoRoom(w, k, node)
  {
    var base := VmidAllocation.BaseId(100, k);
    var ids := OccupiedIds(w, node);
    assert base !in ids by {
      assert Slot(node, base) !in w.vms;
    }
  }

  lemma MachineAdded(k: Key)
    ensures var add := AddMachine(k, FreshMachine());
      && Enabled(EmptyWorld(), add)
      && var w := Apply(EmptyWorld(), add);
         && Alone(w, k) && w.cells[k].hist == [FreshMachine()] && w.cells[k].pass.Idle? && !w.cells[k].gone
         && !w.cells[k].forgotten && w.vms == map[] && w.settings == EmptyWorld().settings
  {
  }

  /** The one Machine, and the pass that starts on it. */
  lemma FirstPass(k: Key) returns (ws: seq<World>, es: seq<Event>)
    ensures es == [AddMachine(k, FreshMachine()), Event.Start(k, 0)] && IsRun(ws, es) && ws[0] == EmptyWorld()
    ensures Alone(ws[1], k) && ws[1].vms == map[] && ws[1].settings.idStart == 100
    ensures WorldInv(ws[2]) && Making(ws[1], ws[2], k, None) && ws[2].cells[k].pass.At? && Alone(ws[2], k)
    ensures |ws[1].cells[k].hist| == 1
  {
    hide Enabled, Apply, Init, WorldInv, Making, EmptyWorld;
    EmptyIsInit();
    var add := AddMachine(k, FreshMachine());
    MachineAdded(k);
    RunExtends([EmptyWorld()], [], add);
    ws, es := [EmptyWorld(), Apply(EmptyWorld(), add)], [add];
    assert [EmptyWorld()] + [Apply(EmptyWorld(), add)] == ws && [] + [add] == es;
    var w := ws[1];
    EmptySettings();
    RunInv(ws, es, 1);
    CreationStarts(w, k);
    StepKeeps(w, CurrentStart(w, k));
    RunExtends(ws, es, CurrentStart(w, k));
    ws, es := ws + [Begun(w, k)], es + [CurrentStart(w, k)];
    BegunAlone(w, k);
  }

  lemma EmptySettings()
    ensures EmptyWorld().settings.idStart == 100 && !EmptyWorld().settings.netConfs
  {
  }

  lemma BegunAlone(w: World, k: Key)
    requires Alone(w, k) && w.cells[k].hist == [FreshMachine()]
    ensures Alone(Begun(w, k), k) && Begun(w, k).cells[k].pass.At?
  {
  }

  /** All Machines stay the same ones along a quiet run. */
  lemma {:induction false} QuietRunStaysAlone(qs: seq<World>, fs: seq<Event>, k: Key, n: nat)
    requires IsQuietRun(qs, fs, k) && Alone(qs[0], k) && n <= |fs|
    ensures Alone(qs[n], k)
  {
    hide Alone, QuietEvent, Apply;
    if n > 0 {
      QuietRunStaysAlone(qs, fs, k, n - 1);
      QuietStaysAlone(qs[n - 1], k, fs[n - 1]);
    }
  }

  // ----- The leak

  /** The pass of the one Machine up to its final write: the VM is there, and not yet recorded. */
  lemma UpToFinalWrite(k: Key) returns (ws: seq<World>, es: seq<Event>)
    ensures IsRun(ws, es) && ws[0] == EmptyWorld() && Alone(ws[|es|], k)
    ensures forall i :: 0 <= i < |es| ==> Untroubled(ws[i], es[i])
    ensures var w := ws[|es|];
      && w.cells[k].hist != [] && !w.cells[k].gone && !Newest(w, k).deleting
      && w.cells[k].pass.At? && w.cells[k].pass.pc.WriteRecord?
      && Occupies(w, w.cells[k].pass.pc.slot, Own(w.cells[k].pass.pc.call))
  {
    hide Enabled, Apply, Init, WorldInv, Making, QuietEvent, Untroubled, Alone;
    ws, es := FirstPass(k);
    var w0 := ws[1];
    BeginningIsUntroubled(w0, k);
    var qs, fs := QuietCreationRun(w0, ws[2], k, None, "", true);
    RoomOnEmptyNode(w0, k, "");
    QuietRunStaysAlone(qs, fs, k, |fs|);
    AtFinalWrite(w0, qs[|fs|], k);
    forall i | 0 <= i < |fs|
      ensures Untroubled(qs[i], fs[i])
    {
      QuietIsUntroubled(qs[i], k, fs[i]);
    }
    QuietContinues(ws, es, qs, fs, k);
    ws, es := ws + qs[1..], es + fs;
  }

  lemma BeginningIsUntroubled(w: World, k: Key)
    requires Alone(w, k) && |w.cells[k].hist| == 1
    ensures Untroubled(EmptyWorld(), AddMachine(k, FreshMachine())) && Untroubled(w, Event.Start(k, 0))
  {
  }

  lemma QuietIsUntroubled(w: World, k: Key, e: Event)
    requires QuietEvent(w, k, e)
    ensures Untroubled(w, e)
  {
    hide Enabled, Succeeds;
  }

  lemma AtFinalWrite(w0: World, w: World, k: Key)
    requires Making(w0, w, k, None) || Making(w0, w, k, Some(""))
    ensures k in w.cells && w.cells[k].hist != [] && !w.cells[k].gone && !Newest(w, k).deleting
    ensures w.cells[k].pass.At? && w.cells[k].pass.pc.WriteRecord? ==>
      Occupies(w, w.cells[k].pass.pc.slot, Own(w.cells[k].pass.pc.call))
  {
  }

  /**
   VMs leak: there is a run from an empty cluster in which nothing goes wrong but one
   conflict, which the code swallows, and which ends with every pass over and a VM in the
   inventory that the operator made and that no Machine has on record.
   */
  lemma VmsDoLeak(k: Key) returns (ws: seq<World>, es: seq<Event>, slot: Slot, i: nat)
    ensures IsRun(ws, es) && ws[0] == EmptyWorld() && |es| > 0
    ensures forall j :: 0 <= j < |es| - 1 ==> Untroubled(ws[j], es[j])
    ensures es[|es| - 1] == Act(k, Plain(Conflict))
    ensures var w := ws[|es|];
      && (forall k' :: k' in w.cells ==> w.cells[k'].pass.Idle?)
      && Occupies(w, slot, Own(i))
      && i < |w.calls| && w.calls[i].key == k && w.calls[i].fate.RecordLost?
      && (forall k' :: k' in w.cells ==> w.cells[k'].hist != [] && Newest(w, k').status.vm != Some(i))
  {
    hide Enabled, Apply, Init, Untroubled, EmptyWorld;
    ws, es := UpToFinalWrite(k);
    var w := ws[|es|];
    slot, i := w.cells[k].pass.pc.slot, w.cells[k].pass.pc.call;
    var w1, w2 := DeletionDuringCreationLeaks(ws, es, k);
    DeletionIsUntroubled(w, k);
    ws, es := ws + [w1, w2], es + [Event.Delete(k), Act(k, Plain(Conflict))];
    assert Enabled(ws[|es| - 2], es[|es| - 2]) && Enabled(ws[|es| - 1], es[|es| - 1]);
    SameMachines(w, Event.Delete(k));
    SameMachines(w1, Act(k, Plain(Conflict)));
  }

  lemma DeletionIsUntroubled(w: World, k: Key)
    ensures Untroubled(w, Event.Delete(k))
  {
  }

  lemma SameMachines(w: World, e: Event)
    requires Enabled(w, e) && (e.Delete? || e.Act?)
    ensures Apply(w, e).cells.Keys == w.cells.Keys
  {
    hide CellAct, CallsAfter, VmsAfter, DoomedAfter, NetsAfter, StoreAllows, ServiceAllows;
  }
}
