/** Passes that meet no failure and no interference. */
module QuietRuns {
  import opened Wrappers
  import opened Machines
  import opened Reconcile
  import opened Cluster

  /** The call succeeded, and a read returned the current version. */
  predicate Succeeds(w: World, k: Key, o: Outcome)
    requires k in w.cells
  {
    match o
    case Landed => true
    case LostReply => false
    case Read(v) => v + 1 == |w.cells[k].hist|
    case Plain(r) => r !in {Error, Conflict, NotFound, ClassDisabled, ExitBad}
  }

  /** A successful call of Machine k's pass, or Proxmox making the VM that pass waits for. */
  predicate QuietEvent(w: World, k: Key, e: Event) {
    && k in w.cells && Enabled(w, e)
    && ((e.Act? && e.key == k && Succeeds(w, k, e.outcome)) || (e.MakeVm? && Held(w.cells[k].pass) == Some(e.call)))
  }

  /** Nothing goes wrong: calls succeed, reads are current, nobody crashes, and strangers keep out. */
  predicate Untroubled(w: World, e: Event) {
    match e
    case Act(k, o) => k in w.cells && Succeeds(w, k, o)
    case Start(k, v) => k in w.cells && v + 1 == |w.cells[k].hist|
    case Crash(_) => false
    case AbandonTask(_) => false
    case ForeignMake(_, _) => false
    case ForeignRemove(_) => false
    case ForeignNetConf(_, _) => false
    case _ => true
  }

  predicate IsQuietRun(ws: seq<World>, es: seq<Event>, k: Key) {
    && |ws| == |es| + 1
    && forall i :: 0 <= i < |es| ==> QuietEvent(ws[i], k, es[i]) && ws[i + 1] == Apply(ws[i], es[i])
  }

  /** Machine k's pass starts on the current version. */
  function CurrentStart(w: World, k: Key): Event
    requires k in w.cells && w.cells[k].hist != []
  {
    Event.Start(k, |w.cells[k].hist| - 1)
  }

  /** The world once that pass has read the Machine. */
  function Begun(w: World, k: Key): World
    requires k in w.cells && w.cells[k].hist != []
  {
    Put(w, k, w.cells[k].(pass := Begin(Copy(|w.cells[k].hist| - 1, Last(w.cells[k].hist)))))
  }

  lemma QuietPrefix(ws: seq<World>, es: seq<Event>, k: Key, n: nat)
    requires IsQuietRun(ws, es, k) && n <= |es|
    ensures IsQuietRun(ws[..n + 1], es[..n], k)
  {
    hide QuietEvent, Apply;
  }

  /** A quiet run continues a run. */
  lemma {:induction false} QuietContinues(ws: seq<World>, es: seq<Event>, qs: seq<World>, fs: seq<Event>, k: Key)
    requires IsRun(ws, es) && IsQuietRun(qs, fs, k) && qs[0] == ws[|es|]
    ensures IsRun(ws + qs[1..], es + fs)
  {
    hide Enabled, Apply, Init, Succeeds;
  }

  lemma ActPass(w: World, k: Key, o: Outcome)
    requires k in w.cells && w.cells[k].pass.At? && w.cells[k].hist != []
    ensures ActWorld(w, k, o).cells[k].pass ==
            Resume(w.settings, k, w.cells[k].pass.pc, w.cells[k].pass.copy, Observe(w.cells[k], o))
  {
    hide Resume;
  }

  lemma EnabledQuiet(w: World, k: Key, e: Event)
    requires QuietEvent(w, k, e)
    ensures Enabled(w, e)
  {
  }
}
