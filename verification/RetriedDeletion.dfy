/**
 A deletion whose finalizer removal fails is retried, and the retry deletes whatever
 sits at the recorded ID by then, although every read is current.
 */
module RetriedDeletion {
  import opened Wrappers
  import opened ProviderId
  import opened Machines
  import opened Reconcile
  import opened Cluster
  import opened MachineInvariants
  import opened ClusterInvariants
  import opened Accounting
  import opened QuietRuns
  import opened DeletionProgress
  import opened CreationRuns
  import opened StaleReads

  ghost predicate IsSmoothRun(ws: seq<World>, es: seq<Event>) {
    IsRun(ws, es) && forall i :: 0 <= i < |es| ==> Untroubled(ws[i], es[i])
  }

  lemma SmoothExtends(ws: seq<World>, es: seq<Event>, e: Event)
    requires IsSmoothRun(ws, es) && Enabled(ws[|es|], e) && Untroubled(ws[|es|], e)
    ensures IsSmoothRun(ws + [Apply(ws[|es|], e)], es + [e])
  {
    hide Enabled, Apply, Init, Untroubled;
  }

  lemma SmoothContinues(ws: seq<World>, es: seq<Event>, qs: seq<World>, fs: seq<Event>, k: Key)
    requires IsSmoothRun(ws, es) && IsQuietRun(qs, fs, k) && qs[0] == ws[|es|]
    ensures IsSmoothRun(ws + qs[1..], es + fs) && (ws + qs[1..])[|es + fs|] == qs[|fs|]
  {
    hide Enabled, Apply, Init, QuietEvent, Untroubled;
    QuietContinues(ws, es, qs, fs, k);
    forall i | 0 <= i < |fs|
      ensures Untroubled(qs[i], fs[i])
    {
      QuietIsUntroubled(qs[i], k, fs[i]);
    }
  }

  /** Before the removal of the finalizer a quiet deletion pass keeps it, and goes on. */
  lemma FinalizerStays(w: World, k: Key, e: Event)
    requires WorldInv(w) && Deleting(w, k) && w.cells[k].pass.At? && !w.cells[k].pass.pc.WriteRemoval?
    requires Newest(w, k).finalizer && QuietEvent(w, k, e) && Deleting(Apply(w, e), k)
    ensures Newest(Apply(w, e), k).finalizer && Apply(w, e).cells[k].pass.At?
  {
    hide WorldInv, HistInv, PassInv, CountInv, PassAfter, RecordInv, HeldInv, DeadInv, CallsAfter, VmsAfter,
      DoomedAfter, NetsAfter, ServiceAllows, Succeeds, WriteResult;
    KeyOf(w, k);
    NoHeldCall(w.cells[k].pass);
    FinalizerAfter(w.cells[k], e.outcome);
  }

  /** The quiet deletion up to the removal of the finalizer. */
  lemma {:induction false} QuietToRemoval(w: World, k: Key) returns (qs: seq<World>, fs: seq<Event>)
    requires WorldInv(w) && Deleting(w, k) && w.cells[k].pass.At? && Newest(w, k).finalizer
    ensures IsQuietRun(qs, fs, k) && qs[0] == w && WorldInv(qs[|fs|])
    ensures Deleting(qs[|fs|], k) && Newest(qs[|fs|], k).finalizer
    ensures qs[|fs|].cells[k].pass.At? && qs[|fs|].cells[k].pass.pc.WriteRemoval?
    decreases Distance(w.cells[k].pass)
  {
    hide WorldInv, Enabled, Apply, NextSuccess, QuietEvent;
    if w.cells[k].pass.pc.WriteRemoval? {
      qs, fs := [w], [];
    } else {
      var e := Act(k, NextSuccess(w, k));
      NeverStuck(w, k);
      EnabledQuiet(w, k, e);
      DeletionStep(w, k, e);
      StepKeeps(w, e);
      FinalizerStays(w, k, e);
      qs, fs := QuietToRemoval(Apply(w, e), k);
      qs, fs := [w] + qs, [e] + fs;
    }
  }

  /** The Machine is past its fence, its VM is gone and its slot empty, and it still has the finalizer. */
  predicate AwaitsRetry(w: World, k: Key, slot: Slot) {
    && k in w.cells && w.cells[k].hist != [] && !w.cells[k].gone && !w.cells[k].forgotten && slot !in w.vms
    && var o := Newest(w, k);
       && o.deleting && o.finalizer && Rank(o.status.phase) >= 4
       && o.status.vm.Some? && o.status.providerID == Build(slot) && Addressable(slot)
  }

  lemma RemovalAwaitsRetry(w3: World, w4: World, k: Key, slot: Slot)
    requires WorldInv(w4) && Deleting(w4, k) && Newest(w4, k).finalizer
    requires w4.cells[k].pass.At? && w4.cells[k].pass.pc.WriteRemoval?
    requires k in w3.cells && w3.cells[k].hist != [] && w3.cells[k].hist <= w4.cells[k].hist
    requires Rank(Newest(w3, k).status.phase) >= 4 && Newest(w3, k).status.vm.Some?
    requires Newest(w3, k).status.providerID == Build(slot) && Addressable(slot)
    requires w3.vms == map[slot := Own(Newest(w3, k).status.vm.value)]
    requires slot in w4.vms ==> slot in w3.vms && w3.vms[slot] == w4.vms[slot]
    ensures AwaitsRetry(w4, k, slot)
  {
    hide WorldInv, HistInv, PassInv, CountInv, RecordInv, HeldInv, Build;
    KeyOf(w4, k);
    var h := w4.cells[k].hist;
    assert h[|w3.cells[k].hist| - 1] == Newest(w3, k);
    PrecedesLast(h, |w3.cells[k].hist| - 1);
  }

  lemma RemovalFails(w: World, k: Key, slot: Slot)
    requires AwaitsRetry(w, k, slot) && w.cells[k].pass.At? && w.cells[k].pass.pc.WriteRemoval?
    ensures Enabled(w, Act(k, Plain(Error)))
    ensures var w' := Apply(w, Act(k, Plain(Error)));
      AwaitsRetry(w', k, slot) && w'.cells[k].pass.Idle?
  {
    hide Build;
  }

  lemma RefillExposesRetry(w: World, k: Key, slot: Slot)
    requires AwaitsRetry(w, k, slot) && w.cells[k].pass.Idle?
    ensures Enabled(w, ForeignMake(slot, 0))
    ensures var w' := Apply(w, ForeignMake(slot, 0));
      && k in w'.cells && w'.cells[k].hist != [] && !w'.cells[k].gone
      && Exposed(w', k, |w'.cells[k].hist| - 1, slot) && slot in w'.vms && w'.vms[slot] == Foreign(0)
  {
    hide Build;
  }

  /** The deletion of the one Machine, up to the removal of its finalizer. */
  lemma ToRemoval(ws: seq<World>, es: seq<Event>, k: Key, slot: Slot) returns (ws': seq<World>, es': seq<Event>)
    requires IsSmoothRun(ws, es) && RunsAlone(ws[|es|], k, slot)
    ensures IsSmoothRun(ws', es') && AwaitsRetry(ws'[|es'|], k, slot) && ws'[0] == ws[0]
    ensures k in ws'[|es'|].cells && ws'[|es'|].cells[k].pass.At? && ws'[|es'|].cells[k].pass.pc.WriteRemoval?
  {
    hide Enabled, Apply, Init, WorldInv, KeyInv, RunsAlone, Deleting, CurrentStart, Alone, Untroubled, AwaitsRetry;
    var w := ws[|es|];
    LastWorld(ws, es);
    RunInv(ws, es, |es|);
    RunsHere(w, k, slot);
    var w3 := FenceAlone(w, k, slot);
    UntroubledDeletion(w, k);
    SmoothExtends(ws, es, Event.Delete(k));
    ws', es' := ws + [Apply(w, Event.Delete(k))], es + [Event.Delete(k)];
    var start := CurrentStart(ws'[|es'|], k);
    UntroubledDeletion(ws'[|es'|], k);
    SmoothExtends(ws', es', start);
    ws', es' := ws' + [Apply(ws'[|es'|], start)], es' + [start];
    UntroubledFence(ws'[|es'|], k);
    SmoothExtends(ws', es', Act(k, Landed));
    ws', es' := ws' + [w3], es' + [Act(k, Landed)];
    RunInv(ws', es', |es'|);
    AtBecauseFinalizer(w3, k);
    var qs, fs := QuietToRemoval(w3, k);
    DeletionOnlyRemoves(qs, fs, k, |fs|, slot);
    DeletingHere(qs[|fs|], k);
    RemovalAwaitsRetry(w3, qs[|fs|], k, slot);
    SmoothContinues(ws', es', qs, fs, k);
    ws', es' := ws' + qs[1..], es' + fs;
  }

  lemma UntroubledDeletion(w: World, k: Key)
    ensures Untroubled(w, Event.Delete(k))
    ensures k in w.cells && w.cells[k].hist != [] ==> Untroubled(w, CurrentStart(w, k))
  {
  }

  lemma UntroubledFence(w: World, k: Key)
    requires Enabled(w, Act(k, Landed))
    ensures Untroubled(w, Act(k, Landed))
  {
  }

  lemma AtBecauseFinalizer(w: World, k: Key)
    requires Deleting(w, k) && Newest(w, k).finalizer
    ensures w.cells[k].pass.At?
  {
  }

  /** The retry reads the current version, and all its calls succeed. */
  lemma FatalIsUntroubled(w: World, k: Key, e: Event, v: nat, vm: Vm)
    requires e in FatalEvents(k, v, vm) && Enabled(w, e)
    requires e.Start? ==> k in w.cells && v + 1 == |w.cells[k].hist|
    ensures Untroubled(w, e)
  {
  }

  /**
   There is a run from an empty cluster in which every read is current, and nothing goes
   wrong but one failed finalizer removal and a VM of a stranger's that appears at the
   freed ID; and the last step, by the retry of a Machine that exists, destroys that VM.
   */
  lemma RetryDestroysAnother(k: Key) returns (ws: seq<World>, es: seq<Event>, slot: Slot, f: nat)
    ensures IsRun(ws, es) && ws[0] == EmptyWorld() && |es| == f + 6
    ensures forall i :: 0 <= i < |es| && i != f && i != f + 1 ==> Untroubled(ws[i], es[i])
    ensures es[f] == Act(k, Plain(Error)) && k in ws[f].cells
    ensures ws[f].cells[k].pass.At? && ws[f].cells[k].pass.pc.WriteRemoval?
    ensures es[f + 1] == ForeignMake(slot, 0)
    ensures var w := ws[|es| - 1];
      && es[|es| - 1] == Act(k, Plain(Done)) && k in w.cells && !w.cells[k].gone
      && slot in w.vms && w.vms[slot].Foreign? && slot !in ws[|es|].vms
  {
    hide Enabled, Apply, Init, RunsAlone, AwaitsRetry, Exposed, Untroubled, EmptyWorld;
    ws, es, slot := FirstMachine(k);
    ws, es := ToRemoval(ws, es, k, slot);
    f := |es|;
    LastWorld(ws, es);
    RemovalFails(ws[f], k, slot);
    RunExtends(ws, es, Act(k, Plain(Error)));
    var ws1, es1 := ws + [Apply(ws[f], Act(k, Plain(Error)))], es + [Act(k, Plain(Error))];
    RefillExposesRetry(ws1[f + 1], k, slot);
    RunExtends(ws1, es1, ForeignMake(slot, 0));
    var ws2, es2 := ws1 + [Apply(ws1[f + 1], ForeignMake(slot, 0))], es1 + [ForeignMake(slot, 0)];
    var w, v := ws2[f + 2], |ws2[f + 2].cells[k].hist| - 1;
    var fatal := FatalEvents(k, v, w.vms[slot]);
    var qs := ExposedIsFatal(ws2, es2, k, v, slot);
    ws, es := ws2 + qs, es2 + fatal;
    forall i | f + 2 <= i < f + 6
      ensures Untroubled(ws[i], es[i])
    {
      assert es[i] == fatal[i - f - 2] && Enabled(ws[i], es[i]);
      FatalIsUntroubled(ws[i], k, es[i], v, w.vms[slot]);
    }
  }
}
