/** What a pass does to a Machine's condition list: what it keeps, and what it never sends. */
module ReportedConditions {
  import opened Wrappers
  import opened ProviderId
  import opened Machines
  import opened Conditions
  import opened Reconcile
  import opened PassTraces

  /** No Ready entry has the reason DeletionFailed. */
  predicate Clean(cs: seq<Condition>) {
    forall i :: 0 <= i < |cs| && IsReady(cs[i]) ==> cs[i].reason != DeletionFailed
  }

  /** And the entries of other kinds are these, when it is said which. */
  predicate Kept(cs: seq<Condition>, others: Option<seq<Condition>>) {
    Clean(cs) && (others.Some? ==> Others(cs) == others.value)
  }

  function Of(o: Object): seq<Condition> {
    o.status.conditions
  }

  predicate PassKept(p: Pass, others: Option<seq<Condition>>) {
    p.At? ==> Kept(Of(p.copy.obj), others)
  }

  lemma UpsertsKeep(others: Option<seq<Condition>>)
    ensures forall s: Status, holds: bool, reason: Reason ::
      reason != DeletionFailed && Kept(s.conditions, others) ==> Kept(WithReady(s, holds, reason).conditions, others)
  {
    forall s: Status, holds: bool, reason: Reason | reason != DeletionFailed && Kept(s.conditions, others)
      ensures Kept(WithReady(s, holds, reason).conditions, others)
    {
      SetReadyKeepsOthers(s.conditions, holds, reason);
    }
  }

  lemma BeginKept(c: Copy, others: Option<seq<Condition>>)
    requires Kept(Of(c.obj), others)
    ensures PassKept(Begin(c), others) && PassKept(BeginTermination(c, true), others)
    ensures PassKept(BeginTermination(c, false), others) && PassKept(LatchCreation(c), others)
  {
    hide WithReady, Parse, Kept;
    UpsertsKeep(others);
  }

  lemma DispatchKept(c: Copy, others: Option<seq<Condition>>)
    requires Kept(Of(c.obj), others)
    ensures PassKept(Dispatch(c), others)
  {
    hide Parse, BeginTermination, LatchCreation, Kept;
    BeginKept(c, others);
  }

  lemma FailKept(c: Copy, reason: Reason, others: Option<seq<Condition>>)
    requires Kept(Of(c.obj), others) && reason != DeletionFailed
    ensures PassKept(Fail(c, reason), others)
  {
    hide WithReady, Kept;
    UpsertsKeep(others);
  }

  lemma CreationKept(s: Settings, uid: string, pc: Pc, c: Copy, r: Reply, others: Option<seq<Condition>>)
    requires Creates(pc) && Kept(Of(c.obj), others)
    ensures PassKept(ResumeCreation(s, uid, pc, c, r), others)
  {
    hide WithReady, Kept, Fail, Build;
    UpsertsKeep(others);
    FailKept(c, NodeSelectionFailed, others);
    FailKept(c, NoAvailableVMID, others);
    FailKept(c, MACAddressGenerationFailed, others);
    FailKept(c, ISOValidationFailed, others);
    FailKept(c, VMCreationFailed, others);
    FailKept(c, VMProvisioningFailed, others);
  }

  lemma TerminationKept(pc: Pc, c: Copy, r: Reply, others: Option<seq<Condition>>)
    requires Terminates(pc) && Kept(Of(c.obj), others)
    requires r.Stored? || r.Got? ==> Kept(Of(r.copy.obj), others)
    ensures PassKept(ResumeTermination(pc, c, r), others)
  {
    hide WithReady, Kept;
    UpsertsKeep(others);
  }

  lemma OtherKept(pc: Pc, c: Copy, r: Reply, others: Option<seq<Condition>>)
    requires !Creates(pc) && !Terminates(pc) && Kept(Of(c.obj), others)
    requires r.Stored? || r.Got? ==> Kept(Of(r.copy.obj), others)
    ensures PassKept(ResumeOther(pc, c, r), others)
  {
    hide WithReady, Dispatch, BeginTermination, LatchCreation, Kept;
    UpsertsKeep(others);
    DispatchKept(c, others);
    BeginKept(c, others);
    if r.Stored? {
      BeginKept(r.copy, others);
    }
  }

  lemma ResumeKept(s: Settings, uid: string, pc: Pc, c: Copy, r: Reply, others: Option<seq<Condition>>)
    requires Kept(Of(c.obj), others)
    requires r.Stored? || r.Got? ==> Kept(Of(r.copy.obj), others)
    ensures PassKept(Resume(s, uid, pc, c, r), others)
  {
    hide ResumeCreation, ResumeTermination, ResumeOther, Kept, PassKept;
    if Creates(pc) {
      CreationKept(s, uid, pc, c, r, others);
    } else if Terminates(pc) {
      TerminationKept(pc, c, r, others);
    } else {
      OtherKept(pc, c, r, others);
    }
  }

  /** The request does not report DeletionFailed. */
  predicate CleanRequest(q: Request) {
    q.UpdateObject? || q.UpdateStatus? ==> Clean(Of(q.copy.obj))
  }

  /** No object that the API servers answer with has the reason. */
  ghost predicate CleanAnswers(replies: nat -> Reply) {
    forall n :: replies(n).Stored? || replies(n).Got? ==> Clean(Of(replies(n).copy.obj))
  }

  /** The reason DeletionFailed is never sent: no request of a whole pass carries it. */
  lemma {:induction false} TraceIsClean(s: Settings, uid: string, p: Pass, replies: nat -> Reply, n: nat, i: nat)
    requires PassKept(p, None) && CleanAnswers(replies) && i < |Trace(s, uid, p, replies, n)|
    ensures CleanRequest(Trace(s, uid, p, replies, n)[i].request)
    decreases i
  {
    hide Resume, Clean;
    var r := replies(n);
    if i == 0 {
      RequestIsClean(p.pc, p.copy);
    } else {
      ResumeKept(s, uid, p.pc, p.copy, r, None);
      TraceIsClean(s, uid, Resume(s, uid, p.pc, p.copy, r), replies, n + 1, i - 1);
    }
  }

  lemma RequestIsClean(pc: Pc, copy: Copy)
    requires Kept(Of(copy.obj), None)
    ensures CleanRequest(RequestOf(pc, copy))
  {
    hide Clean;
  }
}
