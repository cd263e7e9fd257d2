/** A Machine's stored condition list over whole runs: what the operator keeps, and what it never reports. */
module StoredConditions {
  import opened Wrappers
  import opened Machines
  import opened Conditions
  import opened Reconcile
  import opened ReportedConditions
  import opened Cluster
  import opened ClusterInvariants
  import opened Lifecycle

  predicate KeptInv(c: Cell) {
    && c.hist != []
    && var others := Some(Others(Of(c.hist[0])));
       && (forall v :: 0 <= v < |c.hist| ==> Kept(Of(c.hist[v]), others))
       && PassKept(c.pass, others)
  }

  lemma ActKept(s: Settings, k: Key, c: Cell, o: Outcome)
    requires KeptInv(c) && c.pass.At? && StoreAllows(c, o)
    ensures KeptInv(CellAct(s, k, c, o))
  {
    hide Resume, Kept;
    ResumeKept(s, k, c.pass.pc, c.pass.copy, Observe(c, o), Some(Others(Of(c.hist[0]))));
  }

  lemma FreshKept(cs: seq<Condition>)
    requires forall i :: 0 <= i < |cs| ==> !IsReady(cs[i])
    ensures Kept(cs, Some(Others(cs)))
  {
  }

  lemma StepKept(w: World, e: Event, k: Key)
    requires Enabled(w, e) && k in Apply(w, e).cells && (k in w.cells ==> KeptInv(w.cells[k]))
    ensures KeptInv(Apply(w, e).cells[k])
  {
    hide CellAct, CallsAfter, VmsAfter, DoomedAfter, NetsAfter, StoreAllows, ServiceAllows, Begin, Kept;
    if e.AddMachine? && e.key == k {
      FreshKept(Of(e.obj));
    } else if e.Act? && e.key == k {
      ActKept(w.settings, k, w.cells[k], e.outcome);
    } else if e.Start? && e.key == k {
      BeginKept(Copy(e.version, w.cells[k].hist[e.version]), Some(Others(Of(w.cells[k].hist[0]))));
    }
  }

  lemma {:induction false} RunKept(ws: seq<World>, es: seq<Event>, n: nat, k: Key)
    requires IsRun(ws, es) && n < |ws| && k in ws[n].cells
    ensures KeptInv(ws[n].cells[k])
  {
    hide Enabled, Apply, KeptInv;
    if n > 0 {
      if k in ws[n - 1].cells {
        RunKept(ws, es, n - 1, k);
      }
      StepKept(ws[n - 1], es[n - 1], k);
    }
  }

  /** Over a whole run every version holds the conditions of other kinds the Machine was made with, in that order. */
  lemma OtherConditionsKept(ws: seq<World>, es: seq<Event>, n: nat, k: Key, v: nat)
    requires IsRun(ws, es) && n < |ws| && k in ws[n].cells && v < |ws[n].cells[k].hist|
    ensures Others(ws[n].cells[k].hist[v].status.conditions) == Others(ws[n].cells[k].hist[0].status.conditions)
  {
    hide IsRun;
    RunKept(ws, es, n, k);
  }

  /**
   The reason DeletionFailed is in no stored version, since no pass ever sends it: where
   the code sets it, at six places, the pass ends without another write.
   */
  lemma DeletionFailedIsNeverStored(ws: seq<World>, es: seq<Event>, n: nat, k: Key, v: nat, i: nat)
    requires IsRun(ws, es) && n < |ws| && k in ws[n].cells && v < |ws[n].cells[k].hist|
    requires i < |ws[n].cells[k].hist[v].status.conditions|
    requires IsReady(ws[n].cells[k].hist[v].status.conditions[i])
    ensures ws[n].cells[k].hist[v].status.conditions[i].reason != DeletionFailed
  {
    hide IsRun;
    RunKept(ws, es, n, k);
  }
}
