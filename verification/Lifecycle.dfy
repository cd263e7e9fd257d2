/** What holds of a Machine over whole runs, with arbitrarily stale reads, lost replies and crashes. */
module Lifecycle {
  import opened Wrappers
  import opened Text
  import opened Conditions
  import opened ProviderId
  import opened Machines
  import opened Reconcile
  import opened Cluster
  import opened MachineInvariants
  import opened ClusterInvariants

  // ----- Versions and VMs over a run

  /** A step only appends versions to a Machine, and never forgets one. */
  lemma StepHist(w: World, e: Event, k: Key)
    requires Enabled(w, e) && k in w.cells
    ensures k in Apply(w, e).cells && w.cells[k].hist <= Apply(w, e).cells[k].hist
  {
    hide PassAfter, CallsAfter, NetsAfter, VmsAfter, DoomedAfter, WriteResult, Begin, StoreAllows, ServiceAllows,
      FreshStatus;
  }

  lemma {:induction false} RunHist(ws: seq<World>, es: seq<Event>, n: nat, m: nat, k: Key)
    requires IsRun(ws, es) && n <= m < |ws| && k in ws[n].cells
    ensures k in ws[m].cells && ws[n].cells[k].hist <= ws[m].cells[k].hist
  {
    hide Enabled, Apply;
    if n < m {
      RunHist(ws, es, n, m - 1, k);
      StepHist(ws[m - 1], es[m - 1], k);
    }
  }

  lemma VersionsKnown(ws: seq<World>, es: seq<Event>, n: nat, k: Key)
    requires IsRun(ws, es) && n < |ws| && k in ws[n].cells
    ensures HistInv(ws[n].cells[k].hist) && ws[n].cells[k].hist != []
    ensures PassInv(ws[n].cells[k].hist, ws[n].cells[k].pass)
    ensures ws[n].cells[k].pass.At? ==> ws[n].cells[k].pass.copy.version < |ws[n].cells[k].hist|
    ensures KeyInv(ws[n], k)
  {
    hide IsRun, HistInv, CreationPcInv, TerminationPcInv, OtherPcInv, RecordInv, HeldInv, DeadInv;
    RunInv(ws, es, n);
    assert KeyInv(ws[n], k);
  }

  /**
   Stored phases only move up, and the record is written once: from the first version
   that has one on, and from the Terminating fence on, it never changes again. The
   deletion mark stays, and the finalizer goes only from a Machine being deleted, for good.
   */
  lemma VersionsOnlyMoveUp(ws: seq<World>, es: seq<Event>, n: nat, m: nat, k: Key)
    requires IsRun(ws, es) && n <= m < |ws| && k in ws[n].cells
    ensures k in ws[m].cells && ws[n].cells[k].hist != [] && ws[m].cells[k].hist != []
    ensures var a, b := Newest(ws[n], k), Newest(ws[m], k);
      && Rank(a.status.phase) <= Rank(b.status.phase)
      && (a.status.providerID != "" || Rank(a.status.phase) >= 4 ==>
            b.status.providerID == a.status.providerID && b.status.machineID == a.status.machineID)
      && (a.deleting ==> b.deleting)
      && (a.finalizer && !b.finalizer ==> b.deleting)
      && (a.deleting && !a.finalizer ==> !b.finalizer)
  {
    hide IsRun, Parse, Build, PassInv, KeyInv;
    RunHist(ws, es, n, m, k);
    VersionsKnown(ws, es, m, k);
    VersionsKnown(ws, es, n, k);
    var h, h' := ws[n].cells[k].hist, ws[m].cells[k].hist;
    assert Last(h) == h'[|h| - 1];
    assert ObjectInv(Last(h));
    if |h| < |h'| {
      assert Precedes(h'[|h| - 1], h'[|h'| - 1]);
    }
  }

  /** How often the phase differs from one version to the next. */
  function PhaseChanges(h: seq<Object>): nat {
    if |h| <= 1 then 0
    else
      PhaseChanges(h[..|h| - 1]) +
      if Rank(h[|h| - 2].status.phase) != Rank(h[|h| - 1].status.phase) then 1 else 0
  }

  lemma {:induction false} ChangesRaiseRank(h: seq<Object>)
    requires h != [] && forall i, j :: 0 <= i < j < |h| ==> Rank(h[i].status.phase) <= Rank(h[j].status.phase)
    ensures PhaseChanges(h) <= Rank(Last(h).status.phase)
  {
    if |h| > 1 {
      ChangesRaiseRank(h[..|h| - 1]);
    }
  }

  /** A Machine changes its phase level at most five times in its life. */
  lemma AtMostFivePhaseChanges(ws: seq<World>, es: seq<Event>, n: nat, k: Key)
    requires IsRun(ws, es) && n < |ws| && k in ws[n].cells
    ensures PhaseChanges(ws[n].cells[k].hist) <= 5
  {
    hide IsRun, ObjectInv, PassInv, KeyInv;
    VersionsKnown(ws, es, n, k);
    var h := ws[n].cells[k].hist;
    forall i, j | 0 <= i < j < |h|
      ensures Rank(h[i].status.phase) <= Rank(h[j].status.phase)
    {
      assert Precedes(h[i], h[j]);
    }
    ChangesRaiseRank(h);
  }

  // ----- Finalizer safety

  lemma InventoryNoReturn(w: World, e: Event)
    requires Enabled(w, e)
    requires e.MakeVm? || e.AbandonTask? || e.RemoveDoomed? || e.ForeignMake? || e.ForeignRemove?
    ensures NoReturn(w, Apply(w, e))
  {
  }

  /** A step of the object store, or of the NetworkConfigurations, touches no call and no VM. */
  lemma StoreNoReturn(w: World, e: Event)
    requires Enabled(w, e) && !e.Act? && !e.Crash?
    requires !e.MakeVm? && !e.AbandonTask? && !e.RemoveDoomed? && !e.ForeignMake? && !e.ForeignRemove?
    ensures NoReturn(w, Apply(w, e))
  {
    hide Begin, FreshStatus;
  }

  lemma StepNoReturn(w: World, e: Event)
    requires WorldInv(w) && Enabled(w, e)
    ensures NoReturn(w, Apply(w, e))
  {
    hide WorldInv, KeyInv, HeldInv, NoReturn, ActWorld, CrashWorld, FreshStatus, StoreAllows, ServiceAllows;
    match e {
      case Act(k, o) =>
        KeyOf(w, k);
        ActNoReturn(w, k, o);
      case Crash(k) =>
        KeyOf(w, k);
        CrashFrame(w, k, k);
      case MakeVm(_) => InventoryNoReturn(w, e);
      case AbandonTask(_) => InventoryNoReturn(w, e);
      case RemoveDoomed(_, _) => InventoryNoReturn(w, e);
      case ForeignMake(_, _) => InventoryNoReturn(w, e);
      case ForeignRemove(_) => InventoryNoReturn(w, e);
      case _ => StoreNoReturn(w, e);
    }
  }

  lemma {:induction false} DeadForever(ws: seq<World>, es: seq<Event>, n: nat, m: nat, i: nat)
    requires IsRun(ws, es) && n <= m < |ws| && Dead(ws[n], i)
    ensures Dead(ws[m], i)
  {
    hide Enabled, Apply, Dead;
    if n < m {
      DeadForever(ws, es, n, m - 1, i);
      RunInv(ws, es, m - 1);
      StepNoReturn(ws[m - 1], es[m - 1]);
      DeadStays(ws[m - 1], ws[m], i);
    }
  }

  /**
   Finalizer safety: in every run, from the moment a stored Machine is without the
   finalizer, the VM its provider ID recorded is nowhere in the inventory, then or later.
   */
  lemma FinalizerSafety(ws: seq<World>, es: seq<Event>, n: nat, m: nat, k: Key, slot: Slot)
    requires IsRun(ws, es) && n <= m < |ws| && k in ws[n].cells
    requires ws[n].cells[k].hist != [] && !Newest(ws[n], k).finalizer && Newest(ws[n], k).status.vm.Some?
    ensures slot in ws[m].vms ==> ws[m].vms[slot] != Own(Newest(ws[n], k).status.vm.value)
    ensures Newest(ws[n], k).deleting
  {
    hide IsRun, CellInv, Parse, RecordInv, HeldInv;
    VersionsKnown(ws, es, n, k);
    var i := Newest(ws[n], k).status.vm.value;
    assert Dead(ws[n], i);
    DeadForever(ws, es, n, m, i);
    LastObject(ws[n].cells[k].hist);
  }

  lemma LastObject(h: seq<Object>)
    requires HistInv(h)
    ensures ObjectInv(Last(h))
    ensures Last(h).status.vm.Some? ==> Last(h).finalizer || Last(h).deleting
  {
    hide Parse;
    assert ObjectInv(h[|h| - 1]);
  }

  /**
   The fence: once the deletion mark is stored, the only writes that land are those of
   the deletion itself. A creation pass that is still under way can record nothing any more.
   */
  lemma FenceHolds(ws: seq<World>, es: seq<Event>, n: nat, k: Key, o: Outcome)
    requires IsRun(ws, es) && n < |es| && es[n] == Act(k, o)
    ensures k in ws[n].cells && ws[n].cells[k].hist != []
    ensures Newest(ws[n], k).deleting && Lands(ws[n].cells[k], o) ==>
      var pc := ws[n].cells[k].pass.pc;
      (pc.WriteFence? || pc.WriteStopping? || pc.WriteTerminated? || pc.WriteRemoval?)
  {
    hide WorldInv, KeyInv, StatusInv, Coherent, Parse, ServiceAllows;
    assert Enabled(ws[n], es[n]);
    var c := ws[n].cells[k];
    VersionsKnown(ws, es, n, k);
    if Newest(ws[n], k).deleting && Lands(c, o) {
      WritersKnowDeletion(c.hist, c.pass.pc, c.pass.copy);
    }
  }

  lemma WritersKnowDeletion(h: seq<Object>, pc: Pc, c: Copy)
    requires HistInv(h) && PassInv(h, At(pc, c)) && Writes(pc) && c.version == |h| - 1 && Last(h).deleting
    ensures pc.WriteFence? || pc.WriteStopping? || pc.WriteTerminated? || pc.WriteRemoval?
  {
    hide HistInv, StatusInv, Coherent, Parse;
  }

  // ----- What every stored version satisfies

  /**
   Record coherence, for every version ever stored: the provider ID and the machine ID
   are empty together; otherwise the provider ID parses to the region and the number the
   machine ID spells, and the zone is the region. Before Creating is over there is no record.
   */
  lemma RecordCoherence(ws: seq<World>, es: seq<Event>, n: nat, k: Key, v: nat)
    requires IsRun(ws, es) && n < |ws| && k in ws[n].cells && v < |ws[n].cells[k].hist|
    ensures var s := ws[n].cells[k].hist[v].status;
      && (s.providerID == "" <==> s.machineID == "")
      && (s.providerID != "" <==> s.vm.Some?)
      && (s.providerID != "" ==>
            && Parse(s.providerID).Ok?
            && s.providerID == Build(Parse(s.providerID).value)
            && Parse(s.providerID).value.node == s.region == s.zone
            && Itoa(Parse(s.providerID).value.id) == s.machineID)
      && (s.phase in {Unset, Pending, Phase.Creating} ==> s.machineID == "")
  {
    hide IsRun, Parse, Build, Itoa, PassInv, KeyInv;
    VersionsKnown(ws, es, n, k);
    assert ObjectInv(ws[n].cells[k].hist[v]);
  }

  /** The record names the VM of one of the Machine's own CreateVM calls, at that call's slot. */
  lemma RecordNamesOwnCall(ws: seq<World>, es: seq<Event>, n: nat, k: Key)
    requires IsRun(ws, es) && n < |ws| && k in ws[n].cells
    ensures ws[n].cells[k].hist != []
    ensures var s := Newest(ws[n], k).status;
      s.vm.Some? ==>
        && s.vm.value < |ws[n].calls|
        && ws[n].calls[s.vm.value].key == k
        && ws[n].calls[s.vm.value].task.Made?
        && s.providerID == Build(ws[n].calls[s.vm.value].slot)
  {
    hide IsRun, HistInv, Parse, Build, Itoa, PassInv, HeldInv, DeadInv;
    VersionsKnown(ws, es, n, k);
    LastCoherent(ws[n].cells[k].hist);
  }

  /** Hence `checkExistingVM` never gets as far as asking Proxmox: the shortcut does not fire. */
  lemma ShortcutNeverFires(ws: seq<World>, es: seq<Event>, n: nat, k: Key)
    requires IsRun(ws, es) && n < |ws| && k in ws[n].cells && ws[n].cells[k].pass.At?
    ensures !ws[n].cells[k].pass.pc.ProbeExisting? && !ws[n].cells[k].pass.pc.WriteExisting?
  {
    hide IsRun, HistInv, KeyInv;
    VersionsKnown(ws, es, n, k);
  }

  /** Ready and phase agree in every version ever stored. */
  lemma ReadyAgreement(ws: seq<World>, es: seq<Event>, n: nat, k: Key, v: nat)
    requires IsRun(ws, es) && n < |ws| && k in ws[n].cells && v < |ws[n].cells[k].hist|
    ensures var s := ws[n].cells[k].hist[v].status;
      && AtMostOneReady(s.conditions)
      && (s.phase.Running? ==> ReadyIs(s, true))
      && (ReadyIs(s, true) ==> s.phase.Running? || s.phase.Terminating?)
  {
    hide IsRun, Coherent, PassInv, KeyInv;
    VersionsKnown(ws, es, n, k);
    assert ObjectInv(ws[n].cells[k].hist[v]);
  }

  // ----- No destruction of live Machines

  /**
   StopVM and DeleteVM are issued only for a Machine whose deletion mark is stored, only
   at the slot its stored record names, and never from the Terminating arm of the dispatch.
   */
  lemma OnlyDeletedMachinesAreStopped(ws: seq<World>, es: seq<Event>, n: nat, k: Key)
    requires IsRun(ws, es) && n < |ws| && k in ws[n].cells
    requires ws[n].cells[k].pass.At? && (ws[n].cells[k].pass.pc.CallStop? || ws[n].cells[k].pass.pc.CallDelete?)
    ensures ws[n].cells[k].hist != []
    ensures Newest(ws[n], k).deleting && Newest(ws[n], k).status.vm.Some?
    ensures Newest(ws[n], k).status.providerID == Build(ws[n].cells[k].pass.pc.slot)
    ensures ws[n].cells[k].pass.pc.del
  {
    hide IsRun, HistInv, PassInv, KeyInv, Parse, Build;
    VersionsKnown(ws, es, n, k);
    var c := ws[n].cells[k];
    TerminationSlot(c.hist, c.pass.pc, c.pass.copy);
    LastCoherent(c.hist);
  }

  /** The Terminating arm of the dispatch is dead code: no stored live version has that phase. */
  lemma TerminatingArmUnreachable(ws: seq<World>, es: seq<Event>, n: nat, k: Key)
    requires IsRun(ws, es) && n < |ws| && k in ws[n].cells && ws[n].cells[k].pass.At?
    requires ws[n].cells[k].pass.pc.GetClass?
    ensures Rank(ws[n].cells[k].pass.copy.obj.status.phase) < 4
  {
    hide IsRun, KeyInv, StatusInv;
    VersionsKnown(ws, es, n, k);
    var c := ws[n].cells[k];
    assert ObjectInv(c.hist[c.pass.copy.version]);
  }
}
