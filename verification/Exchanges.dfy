/**
 The exchange of a pass with the API servers, step by step: which pass is behind each
 request, what object the pass was last given, and where each call can have come from.
 */
module Exchanges {
  import opened Wrappers
  import opened Text
  import opened ProviderId
  import opened Machines
  import opened Conditions
  import opened Reconcile
  import opened PassTraces
  import VmidAllocation

  /** A pass on a Machine read as `copy`, with the answers it will get. */
  datatype Session = Session(settings: Settings, uid: string, copy: Copy, replies: nat -> Reply)

  function Log(x: Session): seq<Exchange> {
    Trace(x.settings, x.uid, Begin(x.copy), x.replies, 0)
  }

  /** The object last known, once this exchange has happened too. */
  function KnownAfter(k: Copy, q: Request, r: Reply): Copy {
    if (q.UpdateObject? || q.UpdateStatus?) && r.Stored? then r.copy
    else if q.GetMachine? && r.Got? then r.copy
    else k
  }

  /** The object as the pass last read it or had it stored. */
  function LastKnown(start: Copy, log: seq<Exchange>): Copy {
    if log == [] then start
    else
      var e := log[|log| - 1];
      KnownAfter(LastKnown(start, log[..|log| - 1]), e.request, e.reply)
  }

  // ----- The pass behind the exchange

  function Step(x: Session, p: Pass, r: Reply): Pass {
    if p.Idle? then Idle else Resume(x.settings, x.uid, p.pc, p.copy, r)
  }

  /** Where the pass stands after i exchanges. */
  function PassAt(x: Session, i: nat): Pass {
    if i == 0 then Begin(x.copy) else Step(x, PassAt(x, i - 1), x.replies(i - 1))
  }

  lemma {:induction false} RestOfLog(x: Session, i: nat)
    requires i == 0 || PassAt(x, i - 1).At?
    ensures i <= |Log(x)| && Log(x)[i..] == Trace(x.settings, x.uid, PassAt(x, i), x.replies, i)
  {
    hide Begin, Resume;
    if i > 0 {
      AtBefore(x, i - 1);
      RestOfLog(x, i - 1);
      var rest := Log(x)[i - 1..];
      assert rest[1..] == Log(x)[i..];
    }
  }

  /** A pass in progress was in progress one exchange earlier. */
  lemma AtBefore(x: Session, i: nat)
    requires PassAt(x, i).At?
    ensures i > 0 ==> PassAt(x, i - 1).At?
  {
    hide Begin, Resume;
  }

  /** The exchange goes on exactly as long as the pass is in progress. */
  lemma {:induction false} LogAt(x: Session, i: nat)
    ensures i < |Log(x)| <==> PassAt(x, i).At?
    ensures i < |Log(x)| ==>
      Log(x)[i] == Exchange(RequestOf(PassAt(x, i).pc, PassAt(x, i).copy), x.replies(i))
    ensures i < |Log(x)| && i > 0 ==> i - 1 < |Log(x)|
  {
    hide Begin, Resume, RequestOf;
    if PassAt(x, i).At? {
      AtBefore(x, i);
      RestOfLog(x, i);
      assert Log(x)[i] == Log(x)[i..][0];
    } else if i > 0 {
      LogAt(x, i - 1);
      if PassAt(x, i - 1).At? {
        RestOfLog(x, i);
        assert Log(x)[i..] == [];
      }
    } else {
      RestOfLog(x, 0);
    }
  }

  /** The request after the i-th exchange, if the pass goes on. */
  function After(x: Session, i: nat): Option<Request>
    requires i < |Log(x)|
  {
    if i + 1 < |Log(x)| then Some(Log(x)[i + 1].request) else None
  }

  function AskedBy(p: Pass): Option<Request> {
    if p.Idle? then None else Some(RequestOf(p.pc, p.copy))
  }

  /** The i-th exchange is that of the i-th pass, and its answer leads to the next. */
  lemma Next(x: Session, i: nat)
    requires i < |Log(x)|
    ensures PassAt(x, i).At?
    ensures Log(x)[i].request == RequestOf(PassAt(x, i).pc, PassAt(x, i).copy)
    ensures PassAt(x, i + 1) == Resume(x.settings, x.uid, PassAt(x, i).pc, PassAt(x, i).copy, Log(x)[i].reply)
    ensures After(x, i) == AskedBy(PassAt(x, i + 1))
  {
    hide Log, Resume, RequestOf, Begin;
    LogAt(x, i);
    LogAt(x, i + 1);
  }

  /** Which call a request comes from. */
  lemma Inverts(pc: Pc, c: Copy)
    ensures var q := RequestOf(pc, c);
      && (q.GetMachine? <==> pc.Refetch?)
      && (q.GetMachineClass? <==> pc.GetClass?)
      && (q.ChooseNode? <==> pc.SelectNode?)
      && (q.MakeMac? <==> pc.GenerateMac?)
      && (q.ValidateIso? <==> pc.CheckIso?)
      && (q.CreateVm? <==> pc.CallCreate?)
      && (q.WaitForCreate? <==> pc.WaitCreate?)
      && (q.StopVm? <==> pc.CallStop?)
      && (q.WaitForStop? <==> pc.WaitStop?)
      && (q.DeleteVm? <==> pc.CallDelete?)
      && (q.WaitForDelete? <==> pc.WaitDelete?)
      && (q.CreateNetConf? <==> pc.MakeNetConf?)
      && (q.DeleteNetConf? <==> pc.DropNetConf?)
      && (q.UpdateObject? <==> pc.AddFinalizer? || pc.WriteRemoval?)
      && (q.GetVm? <==>
            pc.ProbeExisting? || pc.ProbeId? || pc.Fetch? || pc.GetRunning? || pc.GetTerminating?)
  {
  }

  // ----- What a pass can come from

  /** Which call, answered how, leads to a call that changes the inventory. */
  predicate ComesFrom(pc: Pc, c: Copy, r: Reply, p: Pass) {
    p.At? ==>
      && !p.pc.AddFinalizer?
      && (p.pc.WriteRemoval? ==>
            pc.Refetch? && r.Got? && p.copy == r.copy.(obj := r.copy.obj.(finalizer := false)))
      && (p.pc.GenerateMac? ==>
            && pc.ProbeId? && !r.Found? && p.pc.slot == Slot(pc.node, pc.base + pc.attempt) && p.pc.slot.id != 0)
      && (p.pc.CheckIso? ==> pc == GenerateMac(p.pc.slot) && r == Mac(p.pc.net))
      && (p.pc.CallCreate? ==> pc == CheckIso(p.pc.slot, p.pc.net) && r == Done)
      && (p.pc.WriteStopping? ==> pc == GetTerminating(p.pc.slot, p.pc.del) && r == Found(true))
      && (p.pc.CallStop? ==> pc == WriteStopping(p.pc.slot, p.pc.del))
      && (p.pc.WaitStop? ==> pc == CallStop(p.pc.slot, p.pc.del) && r == Done)
      && (p.pc.CallDelete? ==>
            || (pc == GetTerminating(p.pc.slot, p.pc.del) && r == Found(false))
            || (pc == WaitStop(p.pc.slot, p.pc.del) && r == Done))
  }

  lemma CreationComesFrom(x: Session, pc: Pc, c: Copy, r: Reply)
    requires Creates(pc)
    ensures ComesFrom(pc, c, r, ResumeCreation(x.settings, x.uid, pc, c, r))
  {
    hide WithReady, RecordCopy, FailedStatus;
  }

  lemma TerminationComesFrom(pc: Pc, c: Copy, r: Reply)
    requires Terminates(pc)
    ensures ComesFrom(pc, c, r, ResumeTermination(pc, c, r))
  {
    hide WithReady;
  }

  lemma OtherComesFrom(pc: Pc, c: Copy, r: Reply)
    requires !Creates(pc) && !Terminates(pc)
    ensures ComesFrom(pc, c, r, ResumeOther(pc, c, r))
  {
    hide WithReady, Parse;
  }

  lemma StepComesFrom(x: Session, i: nat)
    requires i > 0 && PassAt(x, i - 1).At?
    ensures ComesFrom(PassAt(x, i - 1).pc, PassAt(x, i - 1).copy, x.replies(i - 1), PassAt(x, i))
  {
    hide ComesFrom, ResumeCreation, ResumeTermination, ResumeOther;
    var p, r := PassAt(x, i - 1), x.replies(i - 1);
    if Creates(p.pc) {
      CreationComesFrom(x, p.pc, p.copy, r);
    } else if Terminates(p.pc) {
      TerminationComesFrom(p.pc, p.copy, r);
    } else {
      OtherComesFrom(p.pc, p.copy, r);
    }
  }

  /** The exchange before the i-th, and the pass that was in it. */
  lemma Preceding(x: Session, i: nat)
    requires i < |Log(x)| && !StartsWith(PassAt(x, i))
    ensures i > 0 && PassAt(x, i - 1).At? && i - 1 < |Log(x)|
    ensures Log(x)[i - 1] == Exchange(RequestOf(PassAt(x, i - 1).pc, PassAt(x, i - 1).copy), x.replies(i - 1))
    ensures ComesFrom(PassAt(x, i - 1).pc, PassAt(x, i - 1).copy, x.replies(i - 1), PassAt(x, i))
  {
    hide Log, RequestOf, ComesFrom, Resume, StartsWith;
    LogAt(x, i);
    BeginStarts(x.copy);
    AtBefore(x, i);
    LogAt(x, i - 1);
    StepComesFrom(x, i);
  }

  predicate StartsWith(p: Pass) {
    p.At? ==> p.pc.AddFinalizer? || p.pc.GetClass? || p.pc.WriteFence? || p.pc.GetTerminating? || p.pc.Refetch?
  }

  lemma BeginStarts(c: Copy)
    ensures StartsWith(Begin(c))
  {
    hide WithReady, Parse;
  }

  // ----- The object in hand is the one last read or stored

  /** What the copy in hand shares with the object as it was last read or stored. */
  predicate Tracks(p: Pass, k: Copy) {
    p.At? ==>
      && p.copy.version == k.version && p.copy.obj.deleting == k.obj.deleting
      && (if p.pc.AddFinalizer? then p.copy.obj == k.obj.(finalizer := true)
          else if p.pc.WriteRemoval? then p.copy.obj == k.obj.(finalizer := false)
          else p.copy.obj.finalizer == k.obj.finalizer)
      && (p.pc.GetClass? || p.pc.GetRunning? ==> p.copy == k)
      && (p.pc.GetTerminating? || p.pc.GetRunning? ==> Parse(k.obj.status.providerID) == Ok(p.pc.slot))
      && (!p.pc.WriteRecord? ==>
            p.copy.obj.status.providerID == k.obj.status.providerID
            && p.copy.obj.status.machineID == k.obj.status.machineID)
  }

  lemma TerminationTracks(c: Copy, del: bool, k: Copy)
    requires c.version == k.version && c.obj.deleting == k.obj.deleting && c.obj.finalizer == k.obj.finalizer
    requires c.obj.status.providerID == k.obj.status.providerID && c.obj.status.machineID == k.obj.status.machineID
    ensures Tracks(BeginTermination(c, del), k)
  {
    hide Parse, SetReady;
  }

  lemma BeginTracks(c: Copy)
    ensures Tracks(Begin(c), c)
  {
    hide BeginTermination, Parse;
    TerminationTracks(c, true, c);
  }

  lemma DispatchTracks(c: Copy)
    ensures Tracks(Dispatch(c), c)
  {
    hide BeginTermination, Parse, SetReady;
    TerminationTracks(c, false, c);
  }

  lemma CreationTracks(x: Session, pc: Pc, c: Copy, r: Reply, k: Copy)
    requires Creates(pc) && Tracks(At(pc, c), k)
    ensures Tracks(ResumeCreation(x.settings, x.uid, pc, c, r), KnownAfter(k, RequestOf(pc, c), r))
  {
    hide Parse, SetReady, Build, VmidAllocation.BaseId;
  }

  lemma TerminationStepTracks(pc: Pc, c: Copy, r: Reply, k: Copy)
    requires Terminates(pc) && Tracks(At(pc, c), k)
    ensures Tracks(ResumeTermination(pc, c, r), KnownAfter(k, RequestOf(pc, c), r))
  {
    hide Parse, SetReady;
  }

  lemma OtherTracks(pc: Pc, c: Copy, r: Reply, k: Copy)
    requires !Creates(pc) && !Terminates(pc) && Tracks(At(pc, c), k)
    ensures Tracks(ResumeOther(pc, c, r), KnownAfter(k, RequestOf(pc, c), r))
  {
    hide Parse, SetReady, Dispatch, BeginTermination;
    DispatchTracks(c);
    if r.Stored? {
      TerminationTracks(r.copy, true, r.copy);
    }
  }

  lemma StepTracks(x: Session, p: Pass, r: Reply, k: Copy)
    requires p.At? && Tracks(p, k)
    ensures Tracks(Step(x, p, r), KnownAfter(k, RequestOf(p.pc, p.copy), r))
  {
    hide Tracks, ResumeCreation, ResumeTermination, ResumeOther, KnownAfter, RequestOf;
    if Creates(p.pc) {
      CreationTracks(x, p.pc, p.copy, r, k);
    } else if Terminates(p.pc) {
      TerminationStepTracks(p.pc, p.copy, r, k);
    } else {
      OtherTracks(p.pc, p.copy, r, k);
    }
  }

  lemma KnownStep(e: Exchange, start: Copy, log: seq<Exchange>)
    ensures LastKnown(start, log + [e]) == KnownAfter(LastKnown(start, log), e.request, e.reply)
  {
    assert (log + [e])[..|log|] == log;
  }

  lemma {:induction false} TracksAt(x: Session, i: nat)
    requires i <= |Log(x)|
    ensures Tracks(PassAt(x, i), LastKnown(x.copy, Log(x)[..i]))
  {
    hide Log, Begin, Resume, Tracks, RequestOf, KnownAfter;
    if i == 0 {
      BeginTracks(x.copy);
    } else {
      TracksAt(x, i - 1);
      LogAt(x, i - 1);
      var p, k := PassAt(x, i - 1), LastKnown(x.copy, Log(x)[..i - 1]);
      StepTracks(x, p, x.replies(i - 1), k);
      KnownStep(Log(x)[i - 1], x.copy, Log(x)[..i - 1]);
      assert Log(x)[..i] == Log(x)[..i - 1] + [Log(x)[i - 1]];
    }
  }

  // ----- Which side a pass is on

  /** A pass that read the deletion mark only deletes; one that did not never removes the finalizer. */
  predicate Sided(p: Pass, deleting: bool) {
    p.At? ==>
      if deleting then
        && (p.pc.WriteFence? || Terminates(p.pc))
        && (Terminates(p.pc) && !p.pc.Refetch? && !p.pc.WriteRemoval? ==> p.pc.del)
      else
        && !p.pc.WriteFence? && !p.pc.Refetch? && !p.pc.WriteRemoval?
        && (Terminates(p.pc) ==> !p.pc.del)
  }

  lemma TerminationSided(c: Copy, del: bool)
    ensures Sided(BeginTermination(c, del), del) && Sided(AfterTermination(c, del), del)
  {
    hide Parse, SetReady;
  }

  lemma BeginSided(c: Copy)
    ensures Sided(Begin(c), c.obj.deleting)
  {
    hide BeginTermination;
    TerminationSided(c, true);
  }

  lemma DispatchSided(c: Copy)
    ensures Sided(Dispatch(c), false)
  {
    hide BeginTermination, Parse, SetReady;
    TerminationSided(c, false);
  }

  lemma CreationSided(x: Session, pc: Pc, c: Copy, r: Reply)
    requires Creates(pc)
    ensures Sided(ResumeCreation(x.settings, x.uid, pc, c, r), false)
  {
    hide WithReady, RecordCopy, FailedStatus;
  }

  lemma TerminationStepSided(pc: Pc, c: Copy, r: Reply, deleting: bool)
    requires Terminates(pc) && Sided(At(pc, c), deleting)
    ensures Sided(ResumeTermination(pc, c, r), deleting)
  {
    hide WithReady;
  }

  lemma OtherSided(pc: Pc, c: Copy, r: Reply, deleting: bool)
    requires !Creates(pc) && !Terminates(pc) && Sided(At(pc, c), deleting)
    ensures Sided(ResumeOther(pc, c, r), deleting)
  {
    hide WithReady, Dispatch, BeginTermination, Parse;
    DispatchSided(c);
    if r.Stored? {
      TerminationSided(r.copy, true);
    }
  }

  lemma {:induction false} SidedAt(x: Session, i: nat)
    ensures Sided(PassAt(x, i), x.copy.obj.deleting)
  {
    hide Begin, ResumeCreation, ResumeTermination, ResumeOther, Sided;
    if i == 0 {
      BeginSided(x.copy);
    } else {
      SidedAt(x, i - 1);
      var p, r := PassAt(x, i - 1), x.replies(i - 1);
      if p.At? {
        if Creates(p.pc) {
          CreationSided(x, p.pc, p.copy, r);
          NotDeleting(p, x.copy.obj.deleting);
        } else if Terminates(p.pc) {
          TerminationStepSided(p.pc, p.copy, r, x.copy.obj.deleting);
        } else {
          OtherSided(p.pc, p.copy, r, x.copy.obj.deleting);
        }
      } else {
        IdleSided(x.copy.obj.deleting);
      }
    }
  }

  lemma NotDeleting(p: Pass, deleting: bool)
    requires p.At? && Creates(p.pc) && Sided(p, deleting)
    ensures !deleting
  {
  }

  lemma IdleSided(deleting: bool)
    ensures Sided(Idle, deleting)
  {
  }
}
