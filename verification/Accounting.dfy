/** How often a Machine's VM is asked for, and what becomes of the VMs that were made. */
module Accounting {
  import opened Wrappers
  import opened ProviderId
  import opened Machines
  import opened Reconcile
  import opened Cluster
  import opened MachineInvariants
  import opened ClusterInvariants
  import opened Lifecycle

  // ----- The creation bound

  datatype Moment = LatchLanded | LatchConflicted | CreateAsked

  predicate Happens(w: World, e: Event, k: Key, m: Moment) {
    && e.Act? && e.key == k && k in w.cells && w.cells[k].pass.At?
    && var pc := w.cells[k].pass.pc;
       match m
       case LatchLanded => pc.WriteLatch? && Effective(e.outcome)
       case LatchConflicted => pc.WriteLatch? && e.outcome == Plain(Conflict)
       case CreateAsked => pc.CallCreate?
  }

  /** How many events of a run are such moments of Machine k. */
  function Tally(ws: seq<World>, es: seq<Event>, k: Key, m: Moment): nat
    requires |ws| == |es| + 1
  {
    if es == [] then 0
    else
      Tally(ws[..|es|], es[..|es| - 1], k, m) + if Happens(ws[|es| - 1], es[|es| - 1], k, m) then 1 else 0
  }

  function Counter(w: World, k: Key, m: Moment): nat {
    if k !in w.cells then 0
    else
      match m
      case LatchLanded => w.cells[k].latched
      case LatchConflicted => w.cells[k].conflicts
      case CreateAsked => w.cells[k].creates
  }

  lemma StepCounts(w: World, e: Event, k: Key, m: Moment)
    requires Enabled(w, e)
    ensures Counter(Apply(w, e), k, m) == Counter(w, k, m) + if Happens(w, e, k, m) then 1 else 0
  {
    hide PassAfter, HistAfter, CallsAfter, NetsAfter, VmsAfter, DoomedAfter, Begin, StoreAllows, ServiceAllows,
      FreshStatus;
  }

  lemma PrefixRun(ws: seq<World>, es: seq<Event>, n: nat)
    requires IsRun(ws, es) && n <= |es|
    ensures IsRun(ws[..n + 1], es[..n])
  {
    hide Enabled, Apply, Init;
  }

  lemma {:induction false} TallyIsCounter(ws: seq<World>, es: seq<Event>, k: Key, m: Moment)
    requires IsRun(ws, es)
    ensures Tally(ws, es, k, m) == Counter(ws[|es|], k, m)
  {
    hide Enabled, Apply, Happens;
    if es == [] {
    } else {
      PrefixRun(ws, es, |es| - 1);
      TallyIsCounter(ws[..|es|], es[..|es| - 1], k, m);
      StepCounts(ws[|es| - 1], es[|es| - 1], k, m);
    }
  }

  /**
   Creation bound: over a whole run, stale reads included, the Creating write of a
   Machine lands at most once, and every CreateVM call is paid for by that write or by
   a conflict swallowed at it.
   */
  lemma CreationBound(ws: seq<World>, es: seq<Event>, k: Key)
    requires IsRun(ws, es)
    ensures Tally(ws, es, k, LatchLanded) <= 1
    ensures Tally(ws, es, k, CreateAsked) <= Tally(ws, es, k, LatchLanded) + Tally(ws, es, k, LatchConflicted)
    ensures Tally(ws, es, k, CreateAsked) <= 1 + Tally(ws, es, k, LatchConflicted)
  {
    hide IsRun, Tally, HistInv, PassInv, RecordInv, HeldInv, DeadInv;
    TallyIsCounter(ws, es, k, LatchLanded);
    TallyIsCounter(ws, es, k, LatchConflicted);
    TallyIsCounter(ws, es, k, CreateAsked);
    LastWorld(ws, es);
    if k in ws[|es|].cells {
      VersionsKnown(ws, es, |es|, k);
    }
  }

  lemma LastWorld(ws: seq<World>, es: seq<Event>)
    requires IsRun(ws, es)
    ensures |ws| == |es| + 1
  {
  }

  /** After a conflict no later write of that copy lands: whatever lands was read at a newer version. */
  lemma ConflictedCopyNeverLands(ws: seq<World>, es: seq<Event>, n: nat, m: nat, k: Key, o: Outcome)
    requires IsRun(ws, es) && n < m < |es|
    requires es[n] == Act(k, Plain(Conflict)) && k in ws[n].cells && ws[n].cells[k].pass.At?
    requires Writes(ws[n].cells[k].pass.pc)
    requires es[m] == Act(k, o) && k in ws[m].cells && Lands(ws[m].cells[k], o)
    ensures ws[n].cells[k].pass.copy.version < ws[m].cells[k].pass.copy.version
  {
    hide Apply, ServiceAllows, Init, HistInv, PassInv, KeyInv;
    assert Enabled(ws[n], es[n]) && Enabled(ws[m], es[m]);
    RunHist(ws, es, n, m, k);
    VersionsKnown(ws, es, n, k);
  }

  // ----- What becomes of the VMs

  /** The event makes call i's VM one that nobody will record: the exits at which creation loses track. */
  predicate Loses(w: World, e: Event, i: nat, f: Fate) {
    || (e.Act? && e.key in w.cells && w.cells[e.key].pass.At? && LosesAt(w, w.cells[e.key].pass.pc, e.outcome, i, f))
    || (e.Crash? && e.key in w.cells && Held(w.cells[e.key].pass) == Some(i) && f.Crashed?)
  }

  predicate LosesAt(w: World, pc: Pc, o: Outcome, i: nat, f: Fate) {
    || (pc.CallCreate? && i == |w.calls| && o.LostReply? && f.CallFailed?)
    || (pc.WaitCreate? && i == pc.call && o == Plain(ExitBad) && f.BadExit?)
    || (pc.WaitCreate? && i == pc.call && o == Plain(Error) && f.WaitFailed?)
    || (pc.Fetch? && i == pc.call && !(o.Plain? && o.reply.Found?) && f.FetchFailed?)
    || (pc.WriteRecord? && i == pc.call && !Effective(o) && f.RecordLost?)
  }

  predicate LostAt(ws: seq<World>, es: seq<Event>, n: nat, i: nat, f: Fate)
    requires n <= |es| && |ws| == |es| + 1
  {
    exists m :: 0 <= m < n && Loses(ws[m], es[m], i, f)
  }

  /** The call never makes a VM. */
  predicate NeverMade(c: Call) {
    c.fate.CallFailed? && c.task.Abandoned?
  }

  lemma StepFate(w: World, e: Event, i: nat)
    requires Enabled(w, e) && i < |Apply(w, e).calls|
    ensures var c := Apply(w, e).calls[i];
      || c.fate in {InFlight, Recorded}
      || NeverMade(c)
      || Loses(w, e, i, c.fate)
      || (i < |w.calls| && c.fate == w.calls[i].fate && (c.task == w.calls[i].task || w.calls[i].task.Waiting?))
  {
    hide CellAct, NetsAfter, VmsAfter, DoomedAfter, Begin, StoreAllows, FreshStatus;
  }

  lemma {:induction false} FatesHaveCauses(ws: seq<World>, es: seq<Event>, n: nat, i: nat)
    requires IsRun(ws, es) && n < |ws| && i < |ws[n].calls|
    ensures var c := ws[n].calls[i];
      c.fate in {InFlight, Recorded} || NeverMade(c) || LostAt(ws, es, n, i, c.fate)
  {
    hide Enabled, Apply, Loses;
    if n > 0 {
      StepFate(ws[n - 1], es[n - 1], i);
      if i < |ws[n - 1].calls| {
        FatesHaveCauses(ws, es, n - 1, i);
      }
    }
  }

  /**
   No unexpected leak: in every reachable world, a live VM that the operator created
   sits at its call's slot, and is held by its Machine's pass in progress, or is
   recorded by a Machine that still exists and has the finalizer, or was lost by an
   earlier event at one of the exits of creation.
   */
  lemma NoUnexpectedLeak(ws: seq<World>, es: seq<Event>, n: nat, slot: Slot)
    requires IsRun(ws, es) && n < |ws| && slot in ws[n].vms && ws[n].vms[slot].Own?
    ensures var w, i := ws[n], ws[n].vms[slot].call;
      && i < |w.calls| && w.calls[i].slot == slot
      && var k, f := w.calls[i].key, w.calls[i].fate;
         && k in w.cells && w.cells[k].hist != []
         && match f
            case InFlight => Held(w.cells[k].pass) == Some(i)
            case Recorded =>
              !w.cells[k].gone && Newest(w, k).finalizer && Newest(w, k).status.providerID == Build(slot)
            case _ => LostAt(ws, es, n, i, f)
  {
    hide IsRun, HistInv, PassInv, Parse, Build, LostAt;
    RunInv(ws, es, n);
    var w, i := ws[n], ws[n].vms[slot].call;
    assert SlotInv(w, slot);
    assert CallInv(w, i);
    var k := w.calls[i].key;
    assert KeyInv(w, k);
    FatesHaveCauses(ws, es, n, i);
    LastCoherent(w.cells[k].hist);
  }

  /** A run that loses nothing ends with every live VM recorded, whenever no pass is in progress. */
  lemma NothingLostNothingLeaked(ws: seq<World>, es: seq<Event>, n: nat, slot: Slot)
    requires IsRun(ws, es) && n < |ws| && slot in ws[n].vms && ws[n].vms[slot].Own?
    requires forall m, i, f :: 0 <= m < n ==> !Loses(ws[m], es[m], i, f)
    requires forall k :: k in ws[n].cells ==> ws[n].cells[k].pass.Idle?
    ensures exists k :: k in ws[n].cells && !ws[n].cells[k].gone && ws[n].cells[k].hist != []
                        && Newest(ws[n], k).status.providerID == Build(slot)
  {
    hide IsRun, Build, Loses, Newest;
    NoUnexpectedLeak(ws, es, n, slot);
  }

  // ----- A deletion during creation

  /** A lost VM stays lost: no Machine will ever have it on record. */
  lemma {:induction false} LostStaysLost(ws: seq<World>, es: seq<Event>, n: nat, m: nat, i: nat, k: Key)
    requires IsRun(ws, es) && n <= m < |ws| && i < |ws[n].calls|
    requires ws[n].calls[i].fate !in {InFlight, Recorded}
    ensures i < |ws[m].calls| && ws[m].calls[i].fate == ws[n].calls[i].fate
    ensures k in ws[m].cells ==> ws[m].cells[k].hist != [] && Newest(ws[m], k).status.vm != Some(i)
  {
    hide Enabled, Apply, HistInv, PassInv, Parse;
    if n < m {
      LostStaysLost(ws, es, n, m - 1, i, k);
      RunInv(ws, es, m - 1);
      StepSettledFate(ws[m - 1], es[m - 1], i);
    }
    RunInv(ws, es, m);
    if k in ws[m].cells {
      assert KeyInv(ws[m], k);
    }
  }

  lemma StepSettledFate(w: World, e: Event, i: nat)
    requires WorldInv(w) && Enabled(w, e) && i < |w.calls| && w.calls[i].fate !in {InFlight, Recorded}
    ensures i < |Apply(w, e).calls| && Apply(w, e).calls[i].fate == w.calls[i].fate
  {
    hide CellInv, RecordInv, DeadInv, CallInv, SlotInv, CellAct, NetsAfter, VmsAfter, DoomedAfter, Begin, StoreAllows,
      ServiceAllows, FreshStatus;
    if (e.Act? || e.Crash?) {
      assert KeyInv(w, e.key);
    }
  }

  /** The final write records the VM exactly when the Machine is still at the version creation started from. */
  lemma RecordedIffUnchanged(ws: seq<World>, es: seq<Event>, n: nat, k: Key, o: Outcome)
    requires IsRun(ws, es) && n < |es| && es[n] == Act(k, o) && o != Plain(Error)
    requires k in ws[n].cells && ws[n].cells[k].pass.At? && ws[n].cells[k].pass.pc.WriteRecord?
    ensures var c, i := ws[n].cells[k], ws[n].cells[k].pass.pc.call;
      && i < |ws[n + 1].calls|
      && ws[n + 1].calls[i].fate == (if !c.gone && c.pass.copy.version == |c.hist| - 1 then Recorded else RecordLost)
  {
    hide PassAfter, HistInv, PassInv, Parse;
    assert Enabled(ws[n], es[n]) && ws[n + 1] == Apply(ws[n], es[n]);
    VersionsKnown(ws, es, n, k);
    LogOfRecord(ws[n], k, o);
  }

  /**
   The deletion race: wherever a run stands with a creation pass about to record its
   VM, a deletion request makes the write conflict; the conflict is swallowed, the pass
   ends, the inventory is as it was, and no Machine has the VM on record although
   nothing failed.
   */
  lemma DeletionDuringCreationLeaks(ws: seq<World>, es: seq<Event>, k: Key) returns (w1: World, w2: World)
    requires IsRun(ws, es) && k in ws[|es|].cells
    requires ws[|es|].cells[k].pass.At? && ws[|es|].cells[k].pass.pc.WriteRecord?
    requires ws[|es|].cells[k].hist != [] && !Newest(ws[|es|], k).deleting && !ws[|es|].cells[k].gone
    ensures IsRun(ws + [w1, w2], es + [Event.Delete(k), Act(k, Plain(Conflict))])
    ensures w2.vms == ws[|es|].vms
    ensures k in w2.cells && w2.cells[k].pass.Idle? && w2.cells[k].hist != []
    ensures Newest(w2, k).status == Newest(ws[|es|], k).status && Newest(w2, k).deleting
    ensures var i := ws[|es|].cells[k].pass.pc.call;
      && i < |w2.calls| && w2.calls[i].key == k && w2.calls[i].fate.RecordLost?
      && forall k' :: k' in w2.cells ==> w2.cells[k'].hist != [] && Newest(w2, k').status.vm != Some(i)
  {
    hide IsRun, Enabled, Apply, KeyInv, HistInv, PassInv;
    LastWorld(ws, es);
    var w := ws[|es|];
    VersionsKnown(ws, es, |es|, k);
    HeldOf(w, k);
    w2 := DeletedDuringRecord(w, k);
    w1 := Apply(w, Event.Delete(k));
    RunExtends(ws, es, Event.Delete(k));
    LastWorld(ws + [w1], es + [Event.Delete(k)]);
    RunExtends(ws + [w1], es + [Event.Delete(k)], Act(k, Plain(Conflict)));
    assert ws + [w1] + [w2] == ws + [w1, w2];
    assert es + [Event.Delete(k)] + [Act(k, Plain(Conflict))] == es + [Event.Delete(k), Act(k, Plain(Conflict))];
    var i, ws', es' := w.cells[k].pass.pc.call, ws + [w1, w2], es + [Event.Delete(k), Act(k, Plain(Conflict))];
    forall k' | k' in w2.cells
      ensures w2.cells[k'].hist != [] && Newest(w2, k').status.vm != Some(i)
    {
      LostStaysLost(ws', es', |es'|, |es'|, i, k');
    }
  }

  lemma RunExtends(ws: seq<World>, es: seq<Event>, e: Event)
    requires IsRun(ws, es) && Enabled(ws[|es|], e)
    ensures IsRun(ws + [Apply(ws[|es|], e)], es + [e])
  {
    hide Enabled, Apply, Init;
  }

  lemma DeletedDuringRecord(w: World, k: Key) returns (w2: World)
    requires k in w.cells && w.cells[k].hist != [] && HeldInv(w, k)
    requires w.cells[k].pass.At? && w.cells[k].pass.pc.WriteRecord?
    requires w.cells[k].pass.copy.version < |w.cells[k].hist|
    requires !Newest(w, k).deleting && !w.cells[k].gone
    ensures Enabled(w, Event.Delete(k))
    ensures var w1 := Apply(w, Event.Delete(k));
      Enabled(w1, Act(k, Plain(Conflict))) && w2 == Apply(w1, Act(k, Plain(Conflict)))
    ensures w2.vms == w.vms
    ensures k in w2.cells && w2.cells[k].pass.Idle? && w2.cells[k].hist != []
    ensures Newest(w2, k).status == Newest(w, k).status && Newest(w2, k).deleting
    ensures var i := w.cells[k].pass.pc.call;
      i < |w2.calls| && w2.calls[i].key == k && w2.calls[i].fate.RecordLost?
  {
    hide FreshStatus, Begin;
    var w1 := Apply(w, Event.Delete(k));
    w2 := Apply(w1, Act(k, Plain(Conflict)));
  }
}
