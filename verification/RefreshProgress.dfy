/** What a pass that meets no failure and no interference achieves: the refresh of a Running Machine. */
module RefreshProgress {
  import opened Wrappers
  import opened ProviderId
  import opened Machines
  import opened Conditions
  import opened Reconcile
  import opened Cluster
  import opened MachineInvariants
  import opened ClusterInvariants
  import opened Accounting
  import opened QuietRuns

  /** The status of a Running Machine whose VM is gone: Failed, Ready "False", the same record. */
  predicate Lost(s: Status, was: Status) {
    && s.phase.Failed? && SameRecord(s, was)
    && ReadyStatus(s.conditions) == Some(false) && Condition(ReadyKind, false, VMDeleted) in s.conditions
  }

  /** What a quiet refresh leaves behind: one new version, which says whether the recorded slot was occupied. */
  predicate Refreshed(w0: World, w: World, k: Key)
    requires k in w0.cells && w0.cells[k].hist != [] && k in w.cells
  {
    var o, h := Newest(w0, k), w.cells[k].hist;
    && |h| == |w0.cells[k].hist| + 1 && h[..|h| - 1] == w0.cells[k].hist
    && Parse(o.status.providerID).Ok?
    && if Parse(o.status.providerID).value in w0.vms then Last(h) == o
       else Last(h) == o.(status := Last(h).status) && Lost(Last(h).status, o.status)
  }

  /** Nothing but the cell of Machine k is different. */
  predicate CellApart(w0: World, w: World, k: Key) {
    k in w.cells && w == w0.(cells := w0.cells[k := w.cells[k]])
  }

  /** Where a quiet refresh stands, with w0 the world it started in. */
  predicate Refreshing(w0: World, w: World, k: Key) {
    && k in w0.cells && w0.cells[k].hist != [] && CellApart(w0, w, k)
    && w.cells[k].gone == w0.cells[k].gone == false
    && match w.cells[k].pass
       case Idle => Refreshed(w0, w, k)
       case At(pc, copy) =>
         && w.cells[k].hist == w0.cells[k].hist && copy.version + 1 == |w.cells[k].hist|
         && RefreshingAt(w0, Newest(w0, k), pc, copy.obj)
  }

  predicate RefreshingAt(w0: World, o: Object, pc: Pc, sent: Object) {
    var slot := Parse(o.status.providerID);
    && o.status.phase.Running? && slot.Ok? && NamesSlot(o.status, slot.value)
    && (pc.GetClass? || pc.GetRunning? || pc.WriteRunning?)
    && (pc.GetClass? ==> sent == o)
    && (pc.GetRunning? ==> sent == o && pc.slot == slot.value)
    && (pc.WriteRunning? ==>
          if slot.value in w0.vms then sent == o else sent == o.(status := sent.status) && Lost(sent.status, o.status))
  }

  /** A Running Machine's record is complete, so the refresh adds nothing to it. */
  lemma NodeIsKnown(s: Status, slot: Slot)
    requires NamesSlot(s, slot)
    ensures WithNode(s, slot.node) == s
  {
    hide Parse, Build;
  }

  lemma FailedIsLost(s: Status)
    ensures Lost(FailedStatus(s, VMDeleted), s)
  {
    SetReadyHolds(s.conditions, false, VMDeleted);
    var cs := SetReady(s.conditions, false, VMDeleted);
    assert cs[FirstReady(s.conditions)] == Condition(ReadyKind, false, VMDeleted);
  }

  lemma LiveFacts(w: World, k: Key)
    requires k in w.cells && KeyInv(w, k) && !w.cells[k].gone
    requires !Newest(w, k).deleting && Newest(w, k).status.phase.Running?
    ensures !w.cells[k].forgotten && Newest(w, k).finalizer
    ensures var s := Newest(w, k).status; Parse(s.providerID).Ok? && NamesSlot(s, Parse(s.providerID).value)
  {
    hide PassInv, RecordInv, HeldInv, DeadInv, CountInv, NamesSlot, Parse, SetReady;
  }

  lemma RefreshStarts(w: World, k: Key)
    requires WorldInv(w) && k in w.cells && w.cells[k].pass.Idle? && !w.cells[k].gone && w.cells[k].hist != []
    requires !Newest(w, k).deleting && Newest(w, k).status.phase.Running?
    ensures Enabled(w, CurrentStart(w, k)) && Apply(w, CurrentStart(w, k)) == Begun(w, k)
    ensures Refreshing(w, Begun(w, k), k) && Begun(w, k).cells[k].pass.At? && Begun(w, k).cells[k].pass.pc.GetClass?
  {
    hide WorldInv, KeyInv, NamesSlot, Parse, BeginDeletion;
    KeyOf(w, k);
    LiveFacts(w, k);
  }

  /** Calls left to make. */
  function Left(p: Pass): nat {
    if p.Idle? then 0 else if p.pc.WriteRunning? then 1 else if p.pc.GetRunning? then 2 else 3
  }

  lemma RefreshingHere(w0: World, w: World, k: Key)
    requires Refreshing(w0, w, k)
    ensures k in w.cells && w.cells[k].hist != []
  {
  }

  /** One call of a quiet refresh. */
  lemma RefreshCalls(w0: World, w: World, k: Key, o: Outcome)
    requires Refreshing(w0, w, k) && w.cells[k].pass.At? && QuietEvent(w, k, Act(k, o))
    requires !w.cells[k].pass.pc.WriteRunning?
    ensures Refreshing(w0, ActWorld(w, k, o), k)
    ensures Left(ActWorld(w, k, o).cells[k].pass) == Left(w.cells[k].pass) - 1 > 0
  {
    hide NamesSlot, Parse, SetReady, FailedStatus, WithNode, Lost, ResumeCreation, ResumeTermination, BeginCreation,
      BeginTermination;
    var s := Newest(w0, k).status;
    NodeIsKnown(s, Parse(s.providerID).value);
    FailedIsLost(s);
  }

  lemma RefreshWrites(w0: World, w: World, k: Key, o: Outcome)
    requires Refreshing(w0, w, k) && w.cells[k].pass.At? && QuietEvent(w, k, Act(k, o))
    requires w.cells[k].pass.pc.WriteRunning?
    ensures Refreshing(w0, ActWorld(w, k, o), k)
    ensures Left(ActWorld(w, k, o).cells[k].pass) == Left(w.cells[k].pass) - 1 == 0
  {
    hide NamesSlot, Parse, Lost, ResumeCreation, ResumeTermination;
  }

  lemma RefreshStep(w0: World, w: World, k: Key, e: Event)
    requires Refreshing(w0, w, k) && QuietEvent(w, k, e)
    ensures w.cells[k].pass.At? && Refreshing(w0, Apply(w, e), k)
    ensures Left(Apply(w, e).cells[k].pass) == Left(w.cells[k].pass) - 1
  {
    hide ActWorld, ServiceAllows, StoreAllows, RefreshingAt, Left;
    OnlyItsOwn(w0, w, k, e);
    if w.cells[k].pass.pc.WriteRunning? {
      RefreshWrites(w0, w, k, e.outcome);
    } else {
      RefreshCalls(w0, w, k, e.outcome);
    }
  }

  /** The only quiet events of a refresh are the calls of its pass. */
  lemma OnlyItsOwn(w0: World, w: World, k: Key, e: Event)
    requires Refreshing(w0, w, k) && QuietEvent(w, k, e)
    ensures w.cells[k].pass.At? && e == Act(k, e.outcome)
  {
    hide NamesSlot, Parse, Lost, ServiceAllows, StoreAllows;
  }

  /** The successful answer to the call a quiet refresh is about to make. */
  function NextSuccess(w: World, pc: Pc): Outcome {
    if pc.WriteRunning? then Landed
    else if pc.GetClass? then Plain(ClassEnabled)
    else if Looks(pc) && LookedAt(pc) in w.vms then Plain(Found(true))
    else Plain(Missing)
  }

  lemma NeverStuck(w0: World, w: World, k: Key)
    requires Refreshing(w0, w, k) && w.cells[k].pass.At?
    ensures QuietEvent(w, k, Act(k, NextSuccess(w, w.cells[k].pass.pc)))
  {
    hide NamesSlot, Parse, Lost;
  }

  lemma {:induction false} QuietRefresh(w0: World, ws: seq<World>, es: seq<Event>, k: Key)
    requires IsQuietRun(ws, es, k) && Refreshing(w0, ws[0], k)
    ensures Refreshing(w0, ws[|es|], k)
    ensures Left(ws[|es|].cells[k].pass) + |es| == Left(ws[0].cells[k].pass)
  {
    hide Refreshing, Apply, Enabled, Left;
    RefreshingHere(w0, ws[0], k);
    if es != [] {
      QuietPrefix(ws, es, k, |es| - 1);
      QuietRefresh(w0, ws[..|es|], es[..|es| - 1], k);
      RefreshStep(w0, ws[|es| - 1], k, es[|es| - 1]);
      RefreshingHere(w0, ws[|es|], k);
    }
  }

  /**
   Refresh progress: take any reachable world with a live Running Machine, and a pass on
   its current version whose calls all succeed with no other write in between. The pass
   makes at most three calls, always has a next call that can succeed, changes nothing but
   its own Machine, and ends with exactly one new version: the same object when the
   recorded slot is occupied, and phase Failed with Ready "False", reason VMDeleted and the
   same record when it is empty.
   */
  lemma RefreshCompletes(ws: seq<World>, es: seq<Event>, k: Key, qs: seq<World>, fs: seq<Event>)
    requires IsRun(ws, es) && k in ws[|es|].cells && ws[|es|].cells[k].hist != []
    requires ws[|es|].cells[k].pass.Idle? && !ws[|es|].cells[k].gone
    requires !Newest(ws[|es|], k).deleting && Newest(ws[|es|], k).status.phase.Running?
    requires IsQuietRun(qs, fs, k) && qs[0] == Begun(ws[|es|], k)
    ensures Enabled(ws[|es|], CurrentStart(ws[|es|], k)) && qs[0] == Apply(ws[|es|], CurrentStart(ws[|es|], k))
    ensures |fs| <= 3
    ensures CellApart(ws[|es|], qs[|fs|], k)
    ensures qs[|fs|].cells[k].pass.At? ==> exists o :: QuietEvent(qs[|fs|], k, Act(k, o))
    ensures qs[|fs|].cells[k].pass.Idle? ==> |fs| == 3 && Refreshed(ws[|es|], qs[|fs|], k)
  {
    hide IsRun, Enabled, Apply, QuietEvent, KeyInv, CallInv, SlotInv, Refreshed, RefreshingAt;
    LastWorld(ws, es);
    RunInv(ws, es, |es|);
    RefreshStarts(ws[|es|], k);
    QuietRefresh(ws[|es|], qs, fs, k);
    if qs[|fs|].cells[k].pass.At? {
      NeverStuck(ws[|es|], qs[|fs|], k);
    }
  }
}
