/** What a pass that meets no failure and no interference achieves: deletion. */
module DeletionProgress {
  import opened Wrappers
  import opened ProviderId
  import opened Machines
  import opened Reconcile
  import opened Cluster
  import opened MachineInvariants
  import opened ClusterInvariants
  import opened Accounting
  import opened QuietRuns

  /** Where a quiet deletion pass stands. */
  predicate Deleting(w: World, k: Key) {
    && k in w.cells && w.cells[k].hist != [] && !w.cells[k].gone && Newest(w, k).deleting
    && match w.cells[k].pass
       case Idle => !Newest(w, k).finalizer
       case At(pc, copy) =>
         && (pc.WriteFence? || Terminates(pc))
         && copy.version + 1 == |w.cells[k].hist|
         && (pc.WriteStopping? || pc.CallStop? || pc.WaitStop? || pc.CallDelete? ==> pc.slot in w.vms)
  }

  /** Termination goes on from a copy of a coherent record: the parse-error exit is unreachable. */
  lemma TerminationGoesOn(c: Copy)
    requires Coherent(c.obj.status)
    ensures var p := BeginTermination(c, true);
      p.At? && p.copy.version == c.version && (p.pc.GetTerminating? || p.pc.Refetch?)
  {
    hide Parse, Build, Conditions.SetReady;
  }

  /** The pass that begins on a version marked for deletion. */
  lemma BeginsToDelete(c: Copy)
    requires Coherent(c.obj.status) && c.obj.deleting && c.obj.finalizer
    ensures var p := Begin(c);
      && p.At? && p.copy.version == c.version && Distance(p) <= 13
      && (p.pc.WriteFence? || p.pc.GetTerminating? || p.pc.Refetch?)
  {
    hide Coherent, BeginTermination;
    TerminationGoesOn(c);
    TerminationDistance(c, true);
  }

  lemma NotForgotten(w: World, k: Key)
    requires k in w.cells && KeyInv(w, k) && !w.cells[k].gone
    ensures !w.cells[k].forgotten && Coherent(Last(w.cells[k].hist).status)
  {
    hide HistInv, PassInv, RecordInv, HeldInv, DeadInv, CountInv, Coherent;
    LastCoherent(w.cells[k].hist);
  }

  lemma DeletionStarts(w: World, k: Key)
    requires WorldInv(w) && k in w.cells && w.cells[k].pass.Idle? && !w.cells[k].gone && w.cells[k].hist != []
    requires Newest(w, k).deleting && Newest(w, k).finalizer
    ensures Enabled(w, CurrentStart(w, k)) && Apply(w, CurrentStart(w, k)) == Begun(w, k)
    ensures Deleting(Begun(w, k), k) && Begun(w, k).cells[k].pass.At?
    ensures Distance(Begun(w, k).cells[k].pass) <= 13
  {
    hide WorldInv, KeyInv, Coherent, Begin, Distance;
    KeyOf(w, k);
    NotForgotten(w, k);
    BeginsToDelete(Copy(|w.cells[k].hist| - 1, Newest(w, k)));
  }

  lemma FenceGoesOn(w: World, k: Key)
    requires k in w.cells && Deleting(w, k) && KeyInv(w, k) && w.cells[k].pass.At? && w.cells[k].pass.pc.WriteFence?
    ensures Deleting(ActWorld(w, k, Landed), k)
  {
    hide HistInv, BeginTermination, Parse, Conditions.SetReady, RecordInv, HeldInv, DeadInv, CountInv;
    var c := w.cells[k];
    LastCoherent(c.hist);
    var stored := Observe(c, Landed).copy;
    TerminationGoesOn(stored);
  }

  lemma TerminationCalls(w: World, k: Key, o: Outcome)
    requires k in w.cells && Deleting(w, k) && KeyInv(w, k) && w.cells[k].pass.At? && Terminates(w.cells[k].pass.pc)
    requires !Writes(w.cells[k].pass.pc)
    requires Enabled(w, Act(k, o)) && Succeeds(w, k, o)
    ensures Deleting(ActWorld(w, k, o), k)
  {
    hide HistInv, BeginTermination, Parse, Conditions.SetReady, RecordInv, HeldInv, DeadInv, CountInv, TerminationCopy,
      CallsAfter, NetsAfter, DoomedAfter;
  }

  lemma TerminationWrites(w: World, k: Key)
    requires k in w.cells && Deleting(w, k) && KeyInv(w, k) && w.cells[k].pass.At? && Terminates(w.cells[k].pass.pc)
    requires Writes(w.cells[k].pass.pc)
    ensures Deleting(ActWorld(w, k, Landed), k)
  {
    hide HistInv, BeginTermination, Parse, Conditions.SetReady, RecordInv, HeldInv, DeadInv, CountInv, TerminationCopy,
      CallsAfter, NetsAfter, DoomedAfter;
    assert FromDeletion(w.cells[k].pass.pc);
  }

  lemma TerminationGoes(w: World, k: Key, o: Outcome)
    requires k in w.cells && Deleting(w, k) && KeyInv(w, k) && w.cells[k].pass.At? && Terminates(w.cells[k].pass.pc)
    requires Enabled(w, Act(k, o)) && Succeeds(w, k, o)
    ensures Deleting(ActWorld(w, k, o), k)
  {
    hide Deleting, KeyInv, ActWorld, ServiceAllows;
    if Writes(w.cells[k].pass.pc) {
      TerminationWrites(w, k);
    } else {
      TerminationCalls(w, k, o);
    }
  }

  lemma DeletionStep(w: World, k: Key, e: Event)
    requires WorldInv(w) && Deleting(w, k) && QuietEvent(w, k, e)
    ensures Deleting(Apply(w, e), k)
    ensures Distance(Apply(w, e).cells[k].pass) < Distance(w.cells[k].pass)
  {
    hide HistInv, CellInv, CallInv, SlotInv, RecordInv, HeldInv, DeadInv, Resume, ActWorld, ServiceAllows;
    assert KeyInv(w, k);
    var c := w.cells[k];
    NoHeldCall(c.pass);
    if c.pass.pc.WriteFence? {
      FenceGoesOn(w, k);
    } else {
      TerminationGoes(w, k, e.outcome);
    }
    PassEnds(w.settings, k, c.pass.pc, c.pass.copy, Observe(c, e.outcome));
    ActPass(w, k, e.outcome);
  }

  lemma NoHeldCall(p: Pass)
    requires p.At? ==> p.pc.WriteFence? || Terminates(p.pc)
    ensures Held(p) == None
  {
  }

  /** The successful answer to the call a quiet deletion pass is about to make. */
  function NextSuccess(w: World, k: Key): Outcome
    requires Deleting(w, k) && w.cells[k].pass.At?
  {
    var pc := w.cells[k].pass.pc;
    if Writes(pc) then Landed
    else if pc.Refetch? then Read(|w.cells[k].hist| - 1)
    else if pc.GetTerminating? then Plain(if pc.slot in w.vms then Found(false) else Missing)
    else if pc.CallDelete? then Plain(DeleteStarted(w.vms[pc.slot]))
    else Plain(Done)
  }

  lemma NeverStuck(w: World, k: Key)
    requires Deleting(w, k) && w.cells[k].pass.At?
    ensures QuietEvent(w, k, Act(k, NextSuccess(w, k)))
  {
  }

  lemma {:induction false} QuietDeletion(ws: seq<World>, es: seq<Event>, k: Key)
    requires IsQuietRun(ws, es, k) && WorldInv(ws[0]) && Deleting(ws[0], k)
    ensures WorldInv(ws[|es|]) && Deleting(ws[|es|], k)
    ensures Distance(ws[|es|].cells[k].pass) + |es| <= Distance(ws[0].cells[k].pass)
  {
    hide WorldInv, Deleting, Apply, Enabled, Distance;
    if es == [] {
      DeletingHere(ws[0], k);
    } else {
      QuietPrefix(ws, es, k, |es| - 1);
      QuietDeletion(ws[..|es|], es[..|es| - 1], k);
      DeletionStep(ws[|es| - 1], k, es[|es| - 1]);
      StepKeeps(ws[|es| - 1], es[|es| - 1]);
      DeletingHere(ws[|es|], k);
    }
  }

  lemma DeletingHere(w: World, k: Key)
    requires Deleting(w, k)
    ensures k in w.cells
  {
  }

  // ----- What the pass leaves behind

  /** The slot that the Machine's record named when the pass began. */
  function RecordedSlot(w0: World, k: Key): Option<Slot>
    requires k in w0.cells && w0.cells[k].hist != []
  {
    var id := Newest(w0, k).status.providerID;
    if id != "" && Parse(id).Ok? then Some(Parse(id).value) else None
  }

  /** A VM at the recorded slot is gone, with the Machine's NetworkConfiguration; nothing else is. */
  predicate Cleared(w0: World, w: World, k: Key)
    requires k in w0.cells && w0.cells[k].hist != []
  {
    if RecordedSlot(w0, k).Some? && RecordedSlot(w0, k).value in w0.vms then
      w.vms == w0.vms - {RecordedSlot(w0, k).value} && w.nets == w0.nets - {k}
    else w.vms == w0.vms && w.nets == w0.nets
  }

  /** Where a quiet deletion pass stands, with w0 the world it started in. */
  predicate Clearing(w0: World, w: World, k: Key) {
    && k in w0.cells && w0.cells[k].hist != [] && k in w.cells && w.cells[k].hist != []
    && Newest(w, k).status.providerID == Newest(w0, k).status.providerID
    && match w.cells[k].pass
       case Idle => Cleared(w0, w, k) && (RecordedSlot(w0, k).Some? ==> Newest(w, k).status.phase == Phase.Terminated)
       case At(pc, copy) =>
         && copy.obj.status.providerID == Newest(w0, k).status.providerID
         && ClearingAt(w0, w, k, pc, copy.obj.status)
  }

  predicate ClearingAt(w0: World, w: World, k: Key, pc: Pc, s: Status)
    requires k in w0.cells && w0.cells[k].hist != [] && k in w.cells && w.cells[k].hist != []
  {
    if pc.WriteTerminated? then
      Cleared(w0, w, k) && s.phase == Phase.Terminated
    else if pc.Refetch? || pc.WriteRemoval? then
      Cleared(w0, w, k) && (RecordedSlot(w0, k).Some? ==> Newest(w, k).status.phase == Phase.Terminated)
    else
      && (SlotOf(pc).Some? ==> RecordedSlot(w0, k) == SlotOf(pc))
      && (pc.WriteStopping? || pc.CallStop? || pc.WaitStop? || pc.CallDelete? || pc.WaitDelete? ==> pc.slot in w0.vms)
      && (pc.WaitDelete? ==> pc.target == w0.vms[pc.slot])
      && (if pc.DropNetConf? then
            && RecordedSlot(w0, k).Some? && RecordedSlot(w0, k).value in w0.vms
            && w.vms == w0.vms - {RecordedSlot(w0, k).value}
          else w.vms == w0.vms)
      && w.nets == w0.nets
  }

  /** A pass that has begun to terminate has nothing cleared yet, or nothing to clear. */
  lemma TerminationClears(w0: World, w: World, k: Key, c: Copy)
    requires k in w0.cells && w0.cells[k].hist != [] && k in w.cells && w.cells[k].hist != []
    requires c.obj.status.providerID == Newest(w0, k).status.providerID && Coherent(c.obj.status)
    requires w.vms == w0.vms && w.nets == w0.nets
    ensures var p := BeginTermination(c, true);
      p.At? && p.copy.obj.status.providerID == c.obj.status.providerID
      && ClearingAt(w0, w, k, p.pc, p.copy.obj.status)
  {
    hide Parse, Build, Conditions.SetReady;
  }

  lemma ClearingStarts(w: World, k: Key)
    requires WorldInv(w) && k in w.cells && w.cells[k].pass.Idle? && !w.cells[k].gone && w.cells[k].hist != []
    requires Newest(w, k).deleting && Newest(w, k).finalizer
    ensures Clearing(w, Begun(w, k), k)
  {
    hide WorldInv, KeyInv, Coherent, BeginTermination, Parse;
    KeyOf(w, k);
    NotForgotten(w, k);
    TerminationClears(w, Begun(w, k), k, Copy(|w.cells[k].hist| - 1, Newest(w, k)));
  }

  lemma ClearingCalls(w0: World, w: World, k: Key, o: Outcome)
    requires k in w.cells && Deleting(w, k) && Clearing(w0, w, k) && w.cells[k].pass.At?
    requires Enabled(w, Act(k, o)) && Succeeds(w, k, o) && !Writes(w.cells[k].pass.pc)
    ensures Clearing(w0, ActWorld(w, k, o), k)
  {
    hide BeginTermination, Parse, Conditions.SetReady, CallsAfter, DoomedAfter;
  }

  lemma ClearingWrites(w0: World, w: World, k: Key)
    requires k in w.cells && Deleting(w, k) && Clearing(w0, w, k) && w.cells[k].pass.At? && KeyInv(w, k)
    requires Writes(w.cells[k].pass.pc) && !w.cells[k].pass.pc.WriteFence?
    ensures Clearing(w0, ActWorld(w, k, Landed), k)
  {
    hide HistInv, BeginTermination, Parse, Conditions.SetReady, RecordInv, HeldInv, DeadInv, CountInv, TerminationCopy,
      CallsAfter, DoomedAfter;
    assert FromDeletion(w.cells[k].pass.pc);
  }

  lemma ClearingFence(w0: World, w: World, k: Key)
    requires k in w.cells && Deleting(w, k) && Clearing(w0, w, k) && w.cells[k].pass.At? && KeyInv(w, k)
    requires w.cells[k].pass.pc.WriteFence?
    ensures Clearing(w0, ActWorld(w, k, Landed), k)
  {
    hide HistInv, BeginTermination, Parse, Conditions.SetReady, RecordInv, HeldInv, DeadInv, CountInv,
      CallsAfter, DoomedAfter;
    var c := w.cells[k];
    LastCoherent(c.hist);
    TerminationClears(w0, ActWorld(w, k, Landed), k, Observe(c, Landed).copy);
  }

  lemma ClearingStep(w0: World, w: World, k: Key, e: Event)
    requires WorldInv(w) && Deleting(w, k) && Clearing(w0, w, k) && QuietEvent(w, k, e)
    ensures Clearing(w0, Apply(w, e), k)
  {
    hide CellInv, CallInv, SlotInv, RecordInv, HeldInv, DeadInv, Resume, ActWorld, ServiceAllows, Clearing;
    assert KeyInv(w, k);
    NoHeldCall(w.cells[k].pass);
    if w.cells[k].pass.pc.WriteFence? {
      ClearingFence(w0, w, k);
    } else if Writes(w.cells[k].pass.pc) {
      ClearingWrites(w0, w, k);
    } else {
      ClearingCalls(w0, w, k, e.outcome);
    }
  }

  lemma {:induction false} QuietClearing(w0: World, ws: seq<World>, es: seq<Event>, k: Key)
    requires IsQuietRun(ws, es, k) && WorldInv(ws[0]) && Deleting(ws[0], k) && Clearing(w0, ws[0], k)
    ensures Clearing(w0, ws[|es|], k)
  {
    hide WorldInv, Deleting, Clearing, Apply, Enabled, Distance;
    if es != [] {
      QuietPrefix(ws, es, k, |es| - 1);
      QuietDeletion(ws[..|es|], es[..|es| - 1], k);
      QuietClearing(w0, ws[..|es|], es[..|es| - 1], k);
      ClearingStep(w0, ws[|es| - 1], k, es[|es| - 1]);
    }
  }

  /**
   Deletion progress: take any reachable world in which Machine k is marked for deletion
   and has the finalizer, and a pass on its current version whose calls all succeed with
   no other write in between. The pass makes at most 13 calls, always has a next call
   that can succeed, and ends only with the finalizer removed, phase Terminated if there
   was a record, and the recorded VM gone. Of the inventory and the NetworkConfigurations
   it takes the VM at the recorded slot and the Machine's own, if that slot was occupied,
   and nothing else.
   */
  lemma DeletionCompletes(
      ws: seq<World>, es: seq<Event>, k: Key, qs: seq<World>, fs: seq<Event>)
    requires IsRun(ws, es) && k in ws[|es|].cells && ws[|es|].cells[k].hist != []
    requires ws[|es|].cells[k].pass.Idle? && !ws[|es|].cells[k].gone
    requires Newest(ws[|es|], k).deleting && Newest(ws[|es|], k).finalizer
    requires IsQuietRun(qs, fs, k) && qs[0] == Begun(ws[|es|], k)
    ensures Enabled(ws[|es|], CurrentStart(ws[|es|], k)) && qs[0] == Apply(ws[|es|], CurrentStart(ws[|es|], k))
    ensures |fs| <= 13
    ensures k in qs[|fs|].cells && qs[|fs|].cells[k].hist != []
    ensures qs[|fs|].cells[k].pass.At? ==> exists o :: QuietEvent(qs[|fs|], k, Act(k, o))
    ensures qs[|fs|].cells[k].pass.Idle? ==>
      && !Newest(qs[|fs|], k).finalizer
      && (Newest(qs[|fs|], k).status.vm.Some? ==> Dead(qs[|fs|], Newest(qs[|fs|], k).status.vm.value))
      && Cleared(ws[|es|], qs[|fs|], k)
      && (RecordedSlot(ws[|es|], k).Some? ==> Newest(qs[|fs|], k).status.phase == Phase.Terminated)
  {
    hide IsRun, Enabled, Apply, QuietEvent, CellInv, RecordInv, HeldInv, CallInv, SlotInv, Dead, Cleared, RecordedSlot;
    LastWorld(ws, es);
    RunInv(ws, es, |es|);
    DeletionStarts(ws[|es|], k);
    StepKeeps(ws[|es|], CurrentStart(ws[|es|], k));
    ClearingStarts(ws[|es|], k);
    QuietDeletion(qs, fs, k);
    QuietClearing(ws[|es|], qs, fs, k);
    var w := qs[|fs|];
    assert KeyInv(w, k);
    if w.cells[k].pass.At? {
      NeverStuck(w, k);
    }
  }

  /** Such a pass exists: the quiet run to its end. */
  lemma {:induction false} QuietDeletionRun(w: World, k: Key) returns (qs: seq<World>, fs: seq<Event>)
    requires WorldInv(w) && Deleting(w, k)
    ensures IsQuietRun(qs, fs, k) && qs[0] == w
    ensures Deleting(qs[|fs|], k) && qs[|fs|].cells[k].pass.Idle?
    decreases Distance(w.cells[k].pass)
  {
    hide WorldInv, Enabled, Apply;
    if w.cells[k].pass.Idle? {
      qs, fs := [w], [];
    } else {
      var e := Act(k, NextSuccess(w, k));
      NeverStuck(w, k);
      DeletionStep(w, k, e);
      StepKeeps(w, e);
      qs, fs := QuietDeletionRun(Apply(w, e), k);
      qs, fs := [w] + qs, [e] + fs;
    }
  }
}
