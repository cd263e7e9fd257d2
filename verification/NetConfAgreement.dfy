/** The side store of NetworkConfigurations against the VMs, over whole runs. */
module NetConfAgreement {
  import opened Wrappers
  import opened Machines
  import opened Reconcile
  import opened Cluster
  import opened MachineInvariants
  import opened ClusterInvariants
  import opened Lifecycle
  import opened Accounting
  import NetworkConfiguration
  import VmBuilder
  import Text

  /** An object the operator made carries the configuration of one of the Machine's CreateVM calls. */
  predicate NetInv(w: World, k: Key) {
    && (k in w.nets && w.nets[k].origin.Some? ==>
          var i := w.nets[k].origin.value;
          i < |w.calls| && w.calls[i].key == k && w.calls[i].net == w.nets[k].net && w.nets[k].net.mac != "")
    && (k in w.cells && w.cells[k].pass.At? && w.cells[k].pass.pc.MakeNetConf? ==>
          w.cells[k].pass.pc.net.mac != "")
  }

  lemma MakesWithMac(s: Settings, k: Key, pc: Pc, c: Copy, r: Reply)
    requires var p := Resume(s, k, pc, c, r); p.At? && p.pc.MakeNetConf?
    ensures Resume(s, k, pc, c, r).pc.net.mac != ""
  {
    hide WithReady, ResumeTermination, ResumeOther, FailedStatus;
    if Creates(pc) {
    } else if Terminates(pc) {
      TerminationHeld(pc, c, r);
    } else {
      OtherHeld(pc, c, r);
    }
  }

  lemma ActStore(w: World, k: Key, o: Outcome, k': Key)
    requires k in w.cells && w.cells[k].hist != [] && w.cells[k].pass.At?
    ensures var pc, nets' := w.cells[k].pass.pc, ActWorld(w, k, o).nets;
      k' in nets' ==>
        || (k' in w.nets && nets'[k'] == w.nets[k'])
        || (k' == k && pc.MakeNetConf? && nets'[k'] == NetConf(pc.net, Some(pc.call)))
  {
    hide CellAct, VmsAfter, DoomedAfter, CallsAfter;
  }

  lemma ActCallNets(w: World, k: Key, o: Outcome)
    requires k in w.cells && w.cells[k].hist != [] && w.cells[k].pass.At? && HeldInv(w, k)
    ensures var calls' := ActWorld(w, k, o).calls;
      && |w.calls| <= |calls'|
      && forall i :: 0 <= i < |w.calls| ==> calls'[i].key == w.calls[i].key && calls'[i].net == w.calls[i].net
  {
    hide CellAct, VmsAfter, DoomedAfter, NetsAfter, CallsAfter;
    LogShape(w, k, o);
  }

  lemma ActNets(w: World, k: Key, o: Outcome, k': Key)
    requires k in w.cells && w.cells[k].hist != [] && w.cells[k].pass.At? && HeldInv(w, k)
    requires NetInv(w, k) && NetInv(w, k')
    ensures NetInv(ActWorld(w, k, o), k')
  {
    hide PassAfter, HistAfter, VmsAfter, DoomedAfter, CallsAfter, NetsAfter;
    ActStore(w, k, o, k');
    ActCallNets(w, k, o);
    if var p := PassAfter(w.settings, k, w.cells[k], o); p.At? && p.pc.MakeNetConf? {
      PassMakesWithMac(w.settings, k, w.cells[k], o);
    }
  }

  lemma PassMakesWithMac(s: Settings, k: Key, c: Cell, o: Outcome)
    requires c.pass.At? && c.hist != []
    requires var p := PassAfter(s, k, c, o); p.At? && p.pc.MakeNetConf?
    ensures PassAfter(s, k, c, o).pc.net.mac != ""
  {
    hide Resume;
    MakesWithMac(s, k, c.pass.pc, c.pass.copy, Observe(c, o));
  }

  lemma BeginMakesNone(c: Copy)
    ensures Begin(c).At? ==> !Begin(c).pc.MakeNetConf?
  {
    hide WithReady, ProviderId.Parse;
  }

  lemma StoreNets(w: World, e: Event, k: Key)
    requires Enabled(w, e) && NetInv(w, k) && !e.Act? && !e.Crash? && !e.Start?
    ensures NetInv(Apply(w, e), k)
  {
    hide FreshStatus;
  }

  lemma StartNets(w: World, e: Event, k: Key)
    requires Enabled(w, e) && NetInv(w, k) && e.Start?
    ensures NetInv(Apply(w, e), k)
  {
    hide Begin;
    BeginMakesNone(Copy(e.version, w.cells[e.key].hist[e.version]));
  }

  lemma CrashNets(w: World, k: Key, k': Key)
    requires k in w.cells && HeldInv(w, k) && NetInv(w, k')
    ensures NetInv(CrashWorld(w, k), k')
  {
  }

  lemma StepNets(w: World, e: Event, k: Key)
    requires WorldInv(w) && Enabled(w, e) && NetInv(w, k) && (e.Act? ==> NetInv(w, e.key))
    ensures NetInv(Apply(w, e), k)
  {
    hide WorldInv, KeyInv, HeldInv, NetInv, ActWorld, CrashWorld, FreshStatus, StoreAllows, ServiceAllows;
    match e {
      case Act(k', o) =>
        KeyOf(w, k');
        ActNets(w, k', o, k);
      case Crash(k') =>
        KeyOf(w, k');
        CrashNets(w, k', k);
      case Start(_, _) => StartNets(w, e, k);
      case _ => StoreNets(w, e, k);
    }
  }

  lemma {:induction false} RunNets(ws: seq<World>, es: seq<Event>, n: nat, k: Key)
    requires IsRun(ws, es) && n < |ws|
    ensures NetInv(ws[n], k)
  {
    hide WorldInv, Enabled, Apply;
    if n > 0 {
      RunNets(ws, es, n - 1, k);
      if es[n - 1].Act? {
        RunNets(ws, es, n - 1, es[n - 1].key);
      }
      RunInv(ws, es, n - 1);
      StepNets(ws[n - 1], es[n - 1], k);
    }
  }

  /** Nobody else makes an object of Machine k's name. */
  predicate OnlyOperatorMakes(es: seq<Event>, k: Key) {
    forall i :: 0 <= i < |es| ==> !(es[i].ForeignNetConf? && es[i].key == k)
  }

  lemma StepOrigin(w: World, e: Event, k: Key)
    requires Enabled(w, e) && !(e.ForeignNetConf? && e.key == k)
    requires k in w.nets ==> w.nets[k].origin.Some?
    ensures k in Apply(w, e).nets ==> Apply(w, e).nets[k].origin.Some?
  {
    hide CellAct, CallsAfter, VmsAfter, DoomedAfter, FreshStatus, StoreAllows, ServiceAllows, Begin;
  }

  lemma {:induction false} RunOrigin(ws: seq<World>, es: seq<Event>, n: nat, k: Key)
    requires IsRun(ws, es) && n < |ws| && OnlyOperatorMakes(es, k)
    ensures k in ws[n].nets ==> ws[n].nets[k].origin.Some?
  {
    hide Enabled, Apply;
    if n > 0 {
      RunOrigin(ws, es, n - 1, k);
      StepOrigin(ws[n - 1], es[n - 1], k);
    }
  }

  /** Two different calls of one Machine are counted twice. */
  lemma {:induction false} TwoCalls(calls: seq<Call>, k: Key, i: nat, j: nat)
    requires i < j < |calls| && calls[i].key == k && calls[j].key == k
    ensures CountCalls(calls, k) >= 2
  {
    if j < |calls| - 1 {
      TwoCalls(calls[..|calls| - 1], k, i, j);
    } else {
      OneCall(calls[..j], k, i);
    }
  }

  lemma {:induction false} OneCall(calls: seq<Call>, k: Key, i: nat)
    requires i < |calls| && calls[i].key == k
    ensures CountCalls(calls, k) >= 1
  {
    if i < |calls| - 1 {
      OneCall(calls[..|calls| - 1], k, i);
    }
  }

  /**
   Agreement: in a run in which no conflict was swallowed at Machine k's Creating write and
   nobody else made a NetworkConfiguration of its name, the one the operator holds
   beside a recorded VM was made from the very configuration that VM was created with.
   */
  lemma SameConfiguration(ws: seq<World>, es: seq<Event>, k: Key)
    requires IsRun(ws, es) && Tally(ws, es, k, LatchConflicted) == 0 && OnlyOperatorMakes(es, k)
    requires k in ws[|es|].cells && k in ws[|es|].nets
    ensures ws[|es|].cells[k].hist != []
    ensures var w, vm := ws[|es|], Newest(ws[|es|], k).status.vm;
      vm.Some? ==> vm.value < |w.calls| && w.calls[vm.value].key == k && w.nets[k].net == w.calls[vm.value].net
    ensures ws[|es|].nets[k].net.mac != ""
  {
    hide IsRun, CellInv, DeadInv, HeldInv, Tally, ProviderId.Parse;
    LastWorld(ws, es);
    CreationBound(ws, es, k);
    TallyIsCounter(ws, es, k, CreateAsked);
    VersionsKnown(ws, es, |es|, k);
    RunNets(ws, es, |es|, k);
    RunOrigin(ws, es, |es|, k);
    var w, vm := ws[|es|], Newest(ws[|es|], k).status.vm;
    if vm.Some? {
      var i, j := vm.value, w.nets[k].origin.value;
      if i < j {
        TwoCalls(w.calls, k, i, j);
      } else if j < i {
        TwoCalls(w.calls, k, j, i);
      }
    }
  }

  /**
   Hence the object's MAC is the one printed in the VM's `net0` option, and it has a VLAN
   exactly when `net0` has a tag, the same one.
   */
  lemma NetConfAgreesWithVm(ws: seq<World>, es: seq<Event>, k: Key, mtu: int, s: VmBuilder.Settings)
    requires IsRun(ws, es) && Tally(ws, es, k, LatchConflicted) == 0 && OnlyOperatorMakes(es, k)
    requires k in ws[|es|].cells && k in ws[|es|].nets
    requires ws[|es|].cells[k].hist != [] && Newest(ws[|es|], k).status.phase.Running?
    ensures var vm := Newest(ws[|es|], k).status.vm;
      && vm.Some? && vm.value < |ws[|es|].calls|
      && var made, held := ws[|es|].calls[vm.value].net, ws[|es|].nets[k].net;
         var net := VmBuilder.NetworkConfig(made.mac, made.vlan, mtu);
         var net0 := Text.Join(VmBuilder.NetParts(net, s), ',');
         var vlan := NetworkConfiguration.InterfaceFor(held.mac, held.vlan).vlan;
         VmBuilder.CommaFree(net, s) ==>
           && VmBuilder.Field(net0, "macaddr") == Some(NetworkConfiguration.InterfaceFor(held.mac, held.vlan).mac)
           && VmBuilder.Field(net0, "tag") == (if vlan == "" then None else Some(vlan))
  {
    hide IsRun, Tally, KeyInv, PassInv, NetworkConfiguration.InterfaceFor, VmBuilder.Field, VmBuilder.NetParts,
      Text.Join, VmBuilder.CommaFree;
    SameConfiguration(ws, es, k);
    LastWorld(ws, es);
    VersionsKnown(ws, es, |es|, k);
    LastObject(ws[|es|].cells[k].hist);
    RunningHasVm(ws[|es|].cells[k].hist);
    var made := ws[|es|].calls[Newest(ws[|es|], k).status.vm.value].net;
    var net := VmBuilder.NetworkConfig(made.mac, made.vlan, mtu);
    if VmBuilder.CommaFree(net, s) {
      NetworkConfiguration.AgreesWithNet0(net, s);
    }
  }

  lemma RunningHasVm(h: seq<Object>)
    requires HistInv(h) && Last(h).status.phase.Running?
    ensures Last(h).status.vm.Some?
  {
    assert ObjectInv(Last(h));
  }
}
