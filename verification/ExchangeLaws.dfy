/**
 What a pass may and must ask, said of its exchange with the API servers alone: the
 requests, the answers, and the object that the pass last read or had stored.
 */
module ExchangeLaws {
  import opened Wrappers
  import opened Text
  import opened ProviderId
  import opened Machines
  import opened Conditions
  import opened Reconcile
  import opened PassTraces
  import opened Exchanges
  import VmidAllocation

  /** The object that the pass had last read or had stored before the i-th exchange. */
  function Known(x: Session, i: nat): Copy
    requires i <= |Log(x)|
  {
    LastKnown(x.copy, Log(x)[..i])
  }

  /** The i-th exchange found a VM at the slot that the object then known records. */
  predicate FoundRecorded(x: Session, i: nat, slot: Slot, running: bool) {
    && i < |Log(x)| && Log(x)[i] == Exchange(GetVm(slot), Found(running))
    && Parse(Known(x, i).obj.status.providerID) == Ok(slot)
  }

  /** The Ready condition of a status, as it was last set. */
  predicate ReadySet(s: Status, holds: bool, reason: Reason) {
    ReadyStatus(s.conditions) == Some(holds) && Condition(ReadyKind, holds, reason) in s.conditions
  }

  /** A status write with this phase and Ready condition follows the i-th exchange. */
  predicate ThenWrites(x: Session, i: nat, phase: Phase, holds: bool, reason: Reason) {
    && i + 1 < |Log(x)| && Log(x)[i + 1].request.UpdateStatus?
    && Log(x)[i + 1].request.copy.obj.status.phase == phase
    && ReadySet(Log(x)[i + 1].request.copy.obj.status, holds, reason)
  }

  /** The pass gives up after the i-th exchange: it writes phase Failed with this reason, and ends. */
  predicate ThenFails(x: Session, i: nat, reason: Reason) {
    ThenWrites(x, i, Failed, false, reason) && |Log(x)| == i + 2
  }

  lemma ReadyShown(s: Status, holds: bool, reason: Reason)
    ensures ReadySet(WithReady(s, holds, reason), holds, reason)
    ensures WithReady(s, holds, reason).phase == s.phase
  {
    hide Parse;
    SetReadyHolds(s.conditions, holds, reason);
    var cs := SetReady(s.conditions, holds, reason);
    assert cs[FirstReady(s.conditions)] == Condition(ReadyKind, holds, reason);
  }

  // ----- Deletion

  /** A VM is stopped only after it was found running at the recorded slot. */
  lemma StopFollowsLookup(x: Session, i: nat)
    requires i < |Log(x)| && Log(x)[i].request.StopVm?
    ensures i >= 2 && FoundRecorded(x, i - 2, Log(x)[i].request.slot, true)
    ensures Log(x)[i - 1].request.UpdateStatus? && ReadySet(Log(x)[i - 1].request.copy.obj.status, false, Stopping)
  {
    hide Log, Parse, LastKnown, Resume, Begin, PassAt, WithReady, ReadySet;
    LogAt(x, i);
    Inverts(PassAt(x, i).pc, PassAt(x, i).copy);
    Preceding(x, i);
    Preceding(x, i - 1);
    TracksAt(x, i - 2);
    Next(x, i - 2);
    LookupLeads(x, i - 2);
  }

  /** A VM is deleted only after it was found at the recorded slot: stopped, or running and then stopped. */
  lemma DeletionFollowsLookup(x: Session, i: nat)
    requires i < |Log(x)| && Log(x)[i].request.DeleteVm?
    ensures var slot := Log(x)[i].request.slot;
      || (i >= 1 && FoundRecorded(x, i - 1, slot, false))
      || (i >= 4 && FoundRecorded(x, i - 4, slot, true)
          && Log(x)[i - 2] == Exchange(StopVm(slot), Done) && Log(x)[i - 1] == Exchange(WaitForStop, Done))
  {
    hide Log, Parse, LastKnown, Resume, Begin, FoundRecorded;
    LogAt(x, i);
    Inverts(PassAt(x, i).pc, PassAt(x, i).copy);
    Preceding(x, i);
    if PassAt(x, i - 1).pc.WaitStop? {
      Preceding(x, i - 1);
      StopFollowsLookup(x, i - 2);
    } else {
      TracksAt(x, i - 1);
      FoundHere(x, i - 1);
    }
  }

  lemma FoundHere(x: Session, i: nat)
    requires i < |Log(x)| && PassAt(x, i).At? && PassAt(x, i).pc.GetTerminating?
    requires Tracks(PassAt(x, i), Known(x, i)) && Log(x)[i].reply.Found?
    requires Log(x)[i].request == RequestOf(PassAt(x, i).pc, PassAt(x, i).copy)
    ensures FoundRecorded(x, i, PassAt(x, i).pc.slot, Log(x)[i].reply.running)
  {
    hide Log, Parse, LastKnown, Resume, Begin;
  }

  /** Where the lookup of the recorded VM leads a pass that is removing it. */
  lemma LookupLeads(x: Session, i: nat)
    requires i < |Log(x)| && PassAt(x, i).At? && PassAt(x, i).pc.GetTerminating?
    ensures Log(x)[i].request.GetVm?
    ensures var r, next := Log(x)[i].reply, After(x, i);
      && (r == Missing ==> ThenWrites(x, i, Phase.Terminated, false, Reason.Terminated))
      && (r == Found(true) ==>
            && next.Some? && next.value.UpdateStatus? && ReadySet(next.value.copy.obj.status, false, Stopping))
      && (r == Found(false) ==> next == Some(DeleteVm(Log(x)[i].request.slot)))
      && (!r.Missing? && !r.Found? ==> next == None)
  {
    hide Log, WithReady, ReadySet, ResumeCreation, ResumeOther, Begin, PassAt;
    Next(x, i);
    var c := PassAt(x, i).copy;
    ReadyShown(c.obj.status, false, Stopping);
    ReadyShown(WithPhase(c.obj.status, Phase.Terminated), false, Reason.Terminated);
  }

  /** The object's own record decides what a pass that removes a VM asks first. */
  function RecordLookup(c: Copy): Option<Request> {
    if c.obj.status.providerID == "" then Some(GetMachine)
    else match Parse(c.obj.status.providerID)
         case Err => None
         case Ok(slot) => Some(GetVm(slot))
  }

  lemma TerminationAsks(c: Copy)
    ensures AskedBy(BeginTermination(c, true)) == RecordLookup(c)
    ensures BeginTermination(c, true).At? ==>
              BeginTermination(c, true).pc.GetTerminating? || BeginTermination(c, true).pc.Refetch?
  {
    hide Parse, SetReady;
  }

  /** The first request of a pass. */
  lemma FirstRequest(x: Session)
    ensures var first := if Log(x) == [] then None else Some(Log(x)[0].request);
      var obj := x.copy.obj;
      first ==
        if !obj.deleting && obj.finalizer then Some(GetMachineClass)
        else if !obj.deleting then Some(UpdateObject(x.copy.(obj := obj.(finalizer := true))))
        else if !obj.finalizer then None
        else if obj.status.phase.Terminating? || obj.status.phase.Terminated? then RecordLookup(x.copy)
        else Some(UpdateStatus(x.copy.(obj := obj.(status := obj.status.(phase := Phase.Terminating)))))
  {
    hide Log, BeginTermination, RecordLookup, AskedBy;
    LogAt(x, 0);
    TerminationAsks(x.copy);
    AskedHere(Begin(x.copy));
  }

  lemma AskedHere(p: Pass)
    ensures AskedBy(p) == if p.Idle? then None else Some(RequestOf(p.pc, p.copy))
  {
    hide RequestOf;
  }

  /** Once the finalizer is stored the class is read; otherwise the pass ends. */
  lemma FinalizerIsStored(x: Session)
    requires !x.copy.obj.deleting && !x.copy.obj.finalizer
    ensures |Log(x)| > 0 && After(x, 0) == if Log(x)[0].reply.Stored? then Some(GetMachineClass) else None
  {
    hide Log;
    LogAt(x, 0);
    Next(x, 0);
  }

  /** A deletion looks for the VM only once the mark Terminating is stored. */
  lemma FenceComesFirst(x: Session)
    requires x.copy.obj.deleting && x.copy.obj.finalizer
    requires !x.copy.obj.status.phase.Terminating? && !x.copy.obj.status.phase.Terminated?
    ensures |Log(x)| > 0
    ensures After(x, 0) == if Log(x)[0].reply.Stored? then RecordLookup(Log(x)[0].reply.copy) else None
  {
    hide Log, BeginTermination, RecordLookup;
    LogAt(x, 0);
    Next(x, 0);
    if Log(x)[0].reply.Stored? {
      TerminationAsks(Log(x)[0].reply.copy);
    }
  }

  /** In a pass on a Machine marked for deletion the lookup decides: nothing there, running, or stopped. */
  lemma LookupDecides(x: Session, i: nat)
    requires x.copy.obj.deleting && i < |Log(x)| && Log(x)[i].request.GetVm?
    ensures var r, next := Log(x)[i].reply, After(x, i);
      && (r == Missing ==> ThenWrites(x, i, Phase.Terminated, false, Reason.Terminated))
      && (r == Found(true) ==>
            && next.Some? && next.value.UpdateStatus? && ReadySet(next.value.copy.obj.status, false, Stopping)
            && After(x, i + 1) == Some(StopVm(Log(x)[i].request.slot)))
      && (r == Found(false) ==> next == Some(DeleteVm(Log(x)[i].request.slot)))
      && (!r.Missing? && !r.Found? ==> next == None)
  {
    hide Log, WithReady, ReadySet, Begin, Resume, RequestOf;
    Next(x, i);
    Inverts(PassAt(x, i).pc, PassAt(x, i).copy);
    SidedAt(x, i);
    LookupLeads(x, i);
    if Log(x)[i].reply == Found(true) {
      Next(x, i + 1);
      StoppingLeads(x, i);
    }
  }

  lemma StoppingLeads(x: Session, i: nat)
    requires i + 1 < |Log(x)| && PassAt(x, i).At? && PassAt(x, i).pc.GetTerminating?
    requires Log(x)[i].reply == Found(true)
    ensures Log(x)[i].request.GetVm? && After(x, i + 1) == Some(StopVm(Log(x)[i].request.slot))
  {
    hide Log, WithReady, Begin, ResumeCreation, ResumeOther, PassAt;
    Next(x, i);
    Next(x, i + 1);
  }

  /** The stop is waited for before the deletion, and any failure ends the pass. */
  lemma StopIsWaitedFor(x: Session, i: nat)
    requires i < |Log(x)| && Log(x)[i].request.StopVm?
    ensures After(x, i) == if Log(x)[i].reply.Done? then Some(WaitForStop) else None
    ensures i + 1 < |Log(x)| ==>
      After(x, i + 1) == if Log(x)[i + 1].reply.Done? then Some(DeleteVm(Log(x)[i].request.slot)) else None
  {
    hide Log, Begin, ResumeCreation, ResumeOther, PassAt;
    Next(x, i);
    Inverts(PassAt(x, i).pc, PassAt(x, i).copy);
    if i + 1 < |Log(x)| {
      Next(x, i + 1);
    }
  }

  /** The deletion is waited for, the NetworkConfiguration follows it, and then phase Terminated is written. */
  lemma DeletionIsWaitedFor(x: Session, i: nat)
    requires i < |Log(x)| && Log(x)[i].request.DeleteVm?
    ensures After(x, i) ==
      if Log(x)[i].reply.DeleteStarted? then Some(WaitForDelete(Log(x)[i].reply.target)) else None
    ensures i + 1 < |Log(x)| ==> After(x, i + 1) == if Log(x)[i + 1].reply.Done? then Some(DeleteNetConf) else None
    ensures i + 2 < |Log(x)| ==> ThenWrites(x, i + 2, Phase.Terminated, false, Reason.Terminated)
  {
    hide Log, Begin, ResumeCreation, ResumeOther, PassAt, WithReady, ReadySet;
    Next(x, i);
    Inverts(PassAt(x, i).pc, PassAt(x, i).copy);
    if i + 1 < |Log(x)| {
      Next(x, i + 1);
    }
    if i + 2 < |Log(x)| {
      assert PassAt(x, i + 2).At? && PassAt(x, i + 2).pc.DropNetConf?;
      Next(x, i + 2);
      ReadyShown(WithPhase(PassAt(x, i + 2).copy.obj.status, Phase.Terminated), false, Reason.Terminated);
    }
  }

  /** After the write of Terminated the Machine is read again, unless the write failed for good. */
  lemma TerminatedIsRefetched(x: Session, i: nat)
    requires x.copy.obj.deleting && 0 < i < |Log(x)| && Log(x)[i].request.UpdateStatus?
    requires Log(x)[i - 1].request.DeleteNetConf? || (Log(x)[i - 1].request.GetVm? && Log(x)[i - 1].reply.Missing?)
    ensures After(x, i) == if Log(x)[i].reply.Stored? || Log(x)[i].reply.Conflict? then Some(GetMachine) else None
  {
    hide Log, Begin, ResumeCreation, ResumeOther, PassAt, WithReady;
    LogAt(x, i);
    Next(x, i - 1);
    Next(x, i);
    Inverts(PassAt(x, i - 1).pc, PassAt(x, i - 1).copy);
    SidedAt(x, i - 1);
  }

  /** The last write of a deletion: the object as just read, without the finalizer, and nothing more. */
  lemma RemovalIsLast(x: Session, i: nat)
    requires i < |Log(x)| && Log(x)[i].request.GetMachine?
    ensures var r := Log(x)[i].reply;
      After(x, i) == if r.Got? then Some(UpdateObject(r.copy.(obj := r.copy.obj.(finalizer := false)))) else None
    ensures |Log(x)| <= i + 2
  {
    hide Log, Begin, ResumeCreation, ResumeOther, PassAt;
    Next(x, i);
    Inverts(PassAt(x, i).pc, PassAt(x, i).copy);
    LogAt(x, i + 1);
    LogAt(x, i + 2);
    if i + 1 < |Log(x)| {
      Next(x, i + 1);
    }
  }

  /**
   Nothing but an UpdateObject touches the finalizer, and one that drops it sends the
   object that the pass has just read, of a Machine marked for deletion when the pass began.
   */
  lemma OnlyUpdateObjectDropsFinalizer(x: Session, i: nat)
    requires i < |Log(x)|
    ensures var q, k := Log(x)[i].request, Known(x, i);
      && (q.UpdateStatus? ==>
            && q.copy.version == k.version
            && q.copy.obj.deleting == k.obj.deleting && q.copy.obj.finalizer == k.obj.finalizer)
      && (q.UpdateObject? && q.copy.obj.finalizer ==> i == 0 && q.copy == k.(obj := k.obj.(finalizer := true)))
      && (q.UpdateObject? && !q.copy.obj.finalizer ==>
            && x.copy.obj.deleting && q.copy == k.(obj := k.obj.(finalizer := false))
            && i > 0 && Log(x)[i - 1] == Exchange(GetMachine, Got(k)))
  {
    hide Log, Begin, Resume, PassAt, LastKnown, Parse;
    Next(x, i);
    TracksAt(x, i);
    SidedAt(x, i);
    var p := PassAt(x, i);
    WritesOf(p.pc, p.copy);
    if p.pc.AddFinalizer? || p.pc.WriteRemoval? {
      UpdateFollows(x, i);
    }
  }

  lemma UpdateFollows(x: Session, i: nat)
    requires i < |Log(x)| && PassAt(x, i).At? && (PassAt(x, i).pc.AddFinalizer? || PassAt(x, i).pc.WriteRemoval?)
    ensures PassAt(x, i).pc.AddFinalizer? ==> i == 0
    ensures PassAt(x, i).pc.WriteRemoval? ==>
      i > 0 && Log(x)[i - 1] == Exchange(GetMachine, Got(Known(x, i)))
  {
    hide Log, Begin, Resume, PassAt;
    if PassAt(x, i).pc.AddFinalizer? {
      if i > 0 {
        AtBefore(x, i);
        StepComesFrom(x, i);
      }
    } else {
      Preceding(x, i);
    }
  }

  lemma WritesOf(pc: Pc, c: Copy)
    ensures var q := RequestOf(pc, c);
      && (q.UpdateStatus? ==> q.copy == c && !pc.AddFinalizer? && !pc.WriteRemoval?)
      && (q.UpdateObject? <==> pc.AddFinalizer? || pc.WriteRemoval?)
      && (q.UpdateObject? ==> q.copy == c)
  {
  }

  // ----- Creation

  /**
   A VM is made only at a slot that a lookup has just not found occupied, with the network
   configuration just generated, and with the ISO checked on that node.
   */
  lemma CreationFollowsProbe(x: Session, i: nat)
    requires i < |Log(x)| && Log(x)[i].request.CreateVm?
    ensures var slot := Log(x)[i].request.slot;
      && i >= 3 && slot.id != 0
      && Log(x)[i - 3].request == GetVm(slot) && !Log(x)[i - 3].reply.Found?
      && Log(x)[i - 2] == Exchange(MakeMac, Mac(Log(x)[i].request.net))
      && Log(x)[i - 1] == Exchange(ValidateIso(slot.node), Done)
  {
    hide Log, Begin, Resume, PassAt;
    Next(x, i);
    Inverts(PassAt(x, i).pc, PassAt(x, i).copy);
    Preceding(x, i);
    Preceding(x, i - 1);
    Preceding(x, i - 2);
  }

  /** `reconcileCreate` leaves the copy's phase Failed with this reason, and writes it. */
  lemma FailingWrite(c: Copy, reason: Reason)
    ensures var p := Fail(c, reason);
      && p.At? && p.pc == WriteFailed && p.copy.obj.status.phase.Failed?
      && ReadySet(p.copy.obj.status, false, reason)
  {
    hide WithReady, ReadySet;
    ReadyShown(WithPhase(c.obj.status, Failed), false, reason);
  }

  lemma FailingEnds(x: Session, i: nat, c: Copy, reason: Reason)
    requires i < |Log(x)| && PassAt(x, i + 1) == Fail(c, reason)
    ensures ThenFails(x, i, reason)
  {
    hide Log, Begin, PassAt, ReadySet, Fail, ResumeTermination, ResumeOther;
    FailingWrite(c, reason);
    LogAt(x, i + 1);
    Next(x, i + 1);
    LogAt(x, i + 2);
  }

  /** Without a network configuration or a valid ISO no VM is asked for. */
  lemma PreparationDecides(x: Session, i: nat)
    requires i < |Log(x)|
    ensures var q, r := Log(x)[i].request, Log(x)[i].reply;
      && (q.MakeMac? ==>
            if r.Mac? then After(x, i).Some? && After(x, i).value.ValidateIso?
            else ThenFails(x, i, MACAddressGenerationFailed))
      && (q.ValidateIso? ==>
            if r.Done? then After(x, i).Some? && After(x, i).value.CreateVm?
            else ThenFails(x, i, ISOValidationFailed))
  {
    hide Log, Begin, PassAt, Fail, ResumeTermination, ResumeOther, ThenFails;
    Next(x, i);
    Inverts(PassAt(x, i).pc, PassAt(x, i).copy);
    var p := PassAt(x, i);
    if p.pc.GenerateMac? && !Log(x)[i].reply.Mac? {
      FailingEnds(x, i, p.copy, MACAddressGenerationFailed);
    } else if p.pc.CheckIso? && !Log(x)[i].reply.Done? {
      FailingEnds(x, i, p.copy, ISOValidationFailed);
    }
  }

  /** The write of a VM made at this slot: Running, and the record names the slot. */
  predicate ThenRecords(x: Session, i: nat, slot: Slot) {
    && ThenWrites(x, i, Running, true, VMRunning) && |Log(x)| == i + 2
    && var s := Log(x)[i + 1].request.copy.obj.status;
      s.providerID == Build(slot) && s.machineID == Itoa(slot.id) && s.region == slot.node && s.zone == slot.node
  }

  lemma RecordShown(c: Copy, slot: Slot, call: nat)
    ensures var s := RecordCopy(c, slot, call).obj.status;
      && s.phase.Running? && ReadySet(s, true, VMRunning) && s.providerID == Build(slot)
      && s.machineID == Itoa(slot.id) && s.region == slot.node && s.zone == slot.node
  {
    hide ReadySet, Build, Itoa, SetReady;
    ReadyShown(WithNode(RecordedAt(c.obj.status, slot, call), slot.node), true, VMRunning);
  }

  lemma RecordingEnds(x: Session, i: nat, slot: Slot, net: Net, call: nat, c: Copy)
    requires i < |Log(x)| && PassAt(x, i + 1) == At(WriteRecord(slot, net, call), RecordCopy(c, slot, call))
    ensures ThenRecords(x, i, slot)
  {
    hide Log, Begin, PassAt, ReadySet, RecordCopy, ResumeTermination, ResumeOther, Build, Itoa;
    RecordShown(c, slot, call);
    LogAt(x, i + 1);
    Next(x, i + 1);
    LogAt(x, i + 2);
  }

  /** What follows the CreateVM call: the wait, and the lookup of the same slot. */
  lemma CreationIsWaitedFor(x: Session, i: nat)
    requires i < |Log(x)| && Log(x)[i].request.CreateVm?
    ensures
      if Log(x)[i].reply.CreateStarted? then
        && After(x, i) == Some(WaitForCreate(Log(x)[i].reply.call))
        && (if Log(x)[i + 1].reply.ExitGood? then After(x, i + 1) == Some(GetVm(Log(x)[i].request.slot))
            else ThenFails(x, i + 1, VMProvisioningFailed))
      else ThenFails(x, i, VMCreationFailed)
  {
    hide Log, Begin, PassAt, Fail, ResumeTermination, ResumeOther, ThenFails;
    Next(x, i);
    Inverts(PassAt(x, i).pc, PassAt(x, i).copy);
    if Log(x)[i].reply.CreateStarted? {
      Next(x, i + 1);
      if !Log(x)[i + 1].reply.ExitGood? {
        FailingEnds(x, i + 1, PassAt(x, i + 1).copy, VMProvisioningFailed);
      }
    } else {
      FailingEnds(x, i, PassAt(x, i).copy, VMCreationFailed);
    }
  }

  /**
   A VM found after its creation is recorded at the slot it was made at. It gets a
   NetworkConfiguration first exactly when these are on and it was given a MAC.
   */
  lemma CreationIsRecorded(x: Session, i: nat)
    requires i + 2 < |Log(x)| && Log(x)[i].request.CreateVm? && Log(x)[i + 2].request.GetVm?
    ensures var q := Log(x)[i].request;
      if !Log(x)[i + 2].reply.Found? then ThenFails(x, i + 2, VMCreationFailed)
      else if x.settings.netConfs && q.net.mac != "" then
        After(x, i + 2) == Some(CreateNetConf(q.net)) && ThenRecords(x, i + 3, q.slot)
      else ThenRecords(x, i + 2, q.slot)
  {
    hide Log, Begin, PassAt, Fail, RecordCopy, ResumeTermination, ResumeOther, ThenFails, ThenRecords;
    Next(x, i);
    Inverts(PassAt(x, i).pc, PassAt(x, i).copy);
    CreationIsWaitedFor(x, i);
    FetchFollows(x, i);
    var p := PassAt(x, i + 2);
    Next(x, i + 2);
    if !Log(x)[i + 2].reply.Found? {
      FailingEnds(x, i + 2, p.copy, VMCreationFailed);
    } else if x.settings.netConfs && p.pc.net.mac != "" {
      Next(x, i + 3);
      RecordingEnds(x, i + 3, p.pc.slot, p.pc.net, p.pc.call, p.copy);
    } else {
      RecordingEnds(x, i + 2, p.pc.slot, p.pc.net, p.pc.call, p.copy);
    }
  }

  lemma FetchFollows(x: Session, i: nat)
    requires i + 2 < |Log(x)| && Log(x)[i].request.CreateVm? && Log(x)[i + 2].request.GetVm?
    ensures var q, p := Log(x)[i].request, PassAt(x, i + 2);
      p.At? && p.pc.Fetch? && p.pc.slot == q.slot && p.pc.net == q.net
  {
    hide Log, Begin, PassAt, FailedStatus, ResumeTermination, ResumeOther;
    Next(x, i);
    Inverts(PassAt(x, i).pc, PassAt(x, i).copy);
    Next(x, i + 1);
    Next(x, i + 2);
    Inverts(PassAt(x, i + 2).pc, PassAt(x, i + 2).copy);
  }

  /** After a CreateVM call a status is sent as Failed, or as Running with the provider ID of that call's slot. */
  lemma RunningNamesTheSlot(x: Session, i: nat, j: nat)
    requires i < j < |Log(x)| && Log(x)[i].request.CreateVm? && Log(x)[j].request.UpdateStatus?
    ensures var s := Log(x)[j].request.copy.obj.status;
      s.phase.Failed? || (s.phase.Running? && s.providerID == Build(Log(x)[i].request.slot))
  {
    hide Log, ReadySet, Build, Itoa;
    CreationIsWaitedFor(x, i);
    if i + 2 < |Log(x)| && Log(x)[i + 2].request.GetVm? {
      CreationIsRecorded(x, i);
    }
  }

  /** What the phase of a Machine that is not marked for deletion makes of an enabled class. */
  lemma PhaseDecides(x: Session, i: nat)
    requires i < |Log(x)| && Log(x)[i].request.GetMachineClass?
    ensures var k, next := Known(x, i), After(x, i);
      var s := k.obj.status;
      if !Log(x)[i].reply.ClassEnabled? then next == None
      else if s.phase.Unset? || s.phase.Pending? then
        if s.machineID != "" && Parse(s.providerID).Ok? then next == Some(GetVm(Parse(s.providerID).value))
        else
          && ThenWrites(x, i, Phase.Creating, false, Reason.Creating)
          && next.value.copy.version == k.version && next.value.copy.obj.finalizer == k.obj.finalizer
      else if s.phase.Running? then
        next == if Parse(s.providerID).Ok? then Some(GetVm(Parse(s.providerID).value)) else None
      else if s.phase.Terminating? && s.providerID != "" && Parse(s.providerID).Ok? then
        next == Some(GetVm(Parse(s.providerID).value))
      else next == None
  {
    hide Log, Begin, PassAt, LastKnown, ReadySet, Parse, SetReady, ResumeCreation, ResumeTermination;
    Next(x, i);
    Inverts(PassAt(x, i).pc, PassAt(x, i).copy);
    TracksAt(x, i);
    ReadyShown(WithPhase(PassAt(x, i).copy.obj.status, Phase.Creating), false, Reason.Creating);
  }

  /** Creation goes on from a Creating write that was stored or lost to a conflict, and from no other. */
  lemma LatchDecides(x: Session, i: nat)
    requires 0 < i < |Log(x)| && Log(x)[i].request.UpdateStatus? && Log(x)[i - 1].request.GetMachineClass?
    ensures After(x, i) == if Log(x)[i].reply.Stored? || Log(x)[i].reply.Conflict? then Some(ChooseNode) else None
  {
    hide Log, Begin, PassAt, WithReady, Parse, ResumeCreation, ResumeTermination;
    LogAt(x, i);
    Next(x, i - 1);
    Next(x, i);
    Inverts(PassAt(x, i - 1).pc, PassAt(x, i - 1).copy);
  }

  /**
   A Machine that has a record and no phase is looked up first. If its VM is found the
   pass writes Running and is done; if not, or if that write fails, creation begins.
   */
  lemma ExistingDecides(x: Session, i: nat)
    requires 0 < i < |Log(x)| && Log(x)[i - 1] == Exchange(GetMachineClass, ClassEnabled)
    requires Known(x, i - 1).obj.status.phase.Unset? || Known(x, i - 1).obj.status.phase.Pending?
    requires Log(x)[i].request.GetVm?
    ensures
      if !Log(x)[i].reply.Found? then ThenWrites(x, i, Phase.Creating, false, Reason.Creating)
      else
        && ThenWrites(x, i, Running, true, VMRunning)
        && (if Log(x)[i + 1].reply.Stored? || Log(x)[i + 1].reply.Conflict? then |Log(x)| == i + 2
            else ThenWrites(x, i + 1, Phase.Creating, false, Reason.Creating))
  {
    hide Log, Begin, PassAt, LastKnown, ReadySet, WithReady, WithNode, Parse, ResumeCreation, ResumeTermination,
      Dispatch;
    ExistingIsProbed(x, i);
    Next(x, i);
    NodeKeepsPhase(WithPhase(PassAt(x, i).copy.obj.status, Running), PassAt(x, i).pc.slot.node);
    var c := PassAt(x, i).copy;
    ReadyShown(WithPhase(c.obj.status, Phase.Creating), false, Reason.Creating);
    ReadyShown(WithNode(WithPhase(c.obj.status, Running), PassAt(x, i).pc.slot.node), true, VMRunning);
    if Log(x)[i].reply.Found? {
      Next(x, i + 1);
      LogAt(x, i + 2);
      ReadyShown(WithPhase(PassAt(x, i + 1).copy.obj.status, Phase.Creating), false, Reason.Creating);
    }
  }

  lemma NodeKeepsPhase(s: Status, node: string)
    ensures WithNode(s, node).phase == s.phase
  {
  }

  lemma ExistingIsProbed(x: Session, i: nat)
    requires 0 < i < |Log(x)| && Log(x)[i - 1] == Exchange(GetMachineClass, ClassEnabled)
    requires Known(x, i - 1).obj.status.phase.Unset? || Known(x, i - 1).obj.status.phase.Pending?
    requires Log(x)[i].request.GetVm?
    ensures PassAt(x, i).At? && PassAt(x, i).pc.ProbeExisting?
  {
    hide Log, Begin, PassAt, LastKnown, WithReady, Parse, ResumeCreation, ResumeTermination;
    Next(x, i - 1);
    Inverts(PassAt(x, i - 1).pc, PassAt(x, i - 1).copy);
    TracksAt(x, i - 1);
    Next(x, i);
    Inverts(PassAt(x, i).pc, PassAt(x, i).copy);
  }

  /** The refresh of a Running Machine: its recorded VM decides, and one write ends the pass. */
  lemma RunningIsRefreshed(x: Session, i: nat)
    requires i < |Log(x)| && Log(x)[i] == Exchange(GetMachineClass, ClassEnabled)
    requires Known(x, i).obj.status.phase.Running? && Parse(Known(x, i).obj.status.providerID).Ok?
    ensures var k := Known(x, i);
      var s, slot := k.obj.status, Parse(k.obj.status.providerID).value;
      && After(x, i) == Some(GetVm(slot))
      && (if Log(x)[i + 1].reply.Missing? then ThenFails(x, i + 1, VMDeleted)
          else if Log(x)[i + 1].reply.Found? then
            && |Log(x)| == i + 3
            && Log(x)[i + 2].request == UpdateStatus(k.(obj := k.obj.(status := s.(
                 region := if s.region == "" then slot.node else s.region,
                 zone := if s.zone == "" then slot.node else s.zone))))
          else |Log(x)| == i + 2)
  {
    hide Log, Begin, PassAt, LastKnown, FailedStatus, Parse, ReadySet, ResumeCreation, ResumeTermination;
    Next(x, i);
    Inverts(PassAt(x, i).pc, PassAt(x, i).copy);
    TracksAt(x, i);
    Next(x, i + 1);
    var k := Known(x, i);
    FailingWrite(k, VMDeleted);
    LogAt(x, i + 2);
    LogAt(x, i + 3);
    if i + 2 < |Log(x)| {
      Next(x, i + 2);
    }
  }

  // ----- The search for a VM ID

  /** The first ID that is probed: the configured start, and the UID's characters summed modulo 1000. */
  lemma NodeDecides(x: Session, i: nat)
    requires i < |Log(x)| && Log(x)[i].request.ChooseNode?
    ensures var r, base := Log(x)[i].reply, x.settings.idStart + VmidAllocation.CharSum(x.uid) % 1000;
      if r.Node? then After(x, i) == Some(GetVm(Slot(r.node, base)))
      else ThenFails(x, i, NodeSelectionFailed)
  {
    hide Log, Begin, PassAt, Fail, ResumeTermination, ResumeOther, ThenFails, VmidAllocation.CharSum;
    Next(x, i);
    Inverts(PassAt(x, i).pc, PassAt(x, i).copy);
    if !Log(x)[i].reply.Node? {
      FailingEnds(x, i, PassAt(x, i).copy, NodeSelectionFailed);
    }
  }

  /** The n probes after the choice of a node found a VM each. */
  predicate AllTaken(x: Session, i: nat, n: nat) {
    forall j :: i < j <= i + n && j < |Log(x)| ==> Log(x)[j].reply.Found?
  }

  /** Where the search stands before its n-th probe. */
  lemma {:induction false} ProbeStands(x: Session, i: nat, n: nat)
    requires i < |Log(x)| && Log(x)[i].request.ChooseNode? && Log(x)[i].reply.Node? && n < 100 && AllTaken(x, i, n)
    ensures i + 1 + n < |Log(x)| && PassAt(x, i + 1 + n).At?
    ensures PassAt(x, i + 1 + n).pc ==
      ProbeId(Log(x)[i].reply.node, x.settings.idStart + VmidAllocation.CharSum(x.uid) % 1000, n)
  {
    hide Log, Begin, PassAt, Fail, ResumeTermination, ResumeOther, VmidAllocation.CharSum;
    if n == 0 {
      Next(x, i);
      Inverts(PassAt(x, i).pc, PassAt(x, i).copy);
    } else {
      ProbeStands(x, i, n - 1);
      Next(x, i + n);
    }
    LogAt(x, i + 1 + n);
  }

  /**
   The n-th probe asks for the n-th ID of the window. The first that finds no VM settles
   the search, unless its ID is the 0 that the code reads as "none"; 100 that find one
   leave the Machine Failed.
   */
  lemma SearchProbesInOrder(x: Session, i: nat, n: nat)
    requires i < |Log(x)| && Log(x)[i].request.ChooseNode? && Log(x)[i].reply.Node? && n < 100 && AllTaken(x, i, n)
    ensures var id := x.settings.idStart + VmidAllocation.CharSum(x.uid) % 1000 + n;
      && i + 1 + n < |Log(x)| && Log(x)[i + 1 + n].request == GetVm(Slot(Log(x)[i].reply.node, id))
      && (if Log(x)[i + 1 + n].reply.Found? then n == 99 ==> ThenFails(x, i + 100, NoAvailableVMID)
          else if id == 0 then ThenFails(x, i + 1 + n, NoAvailableVMID)
          else After(x, i + 1 + n) == Some(MakeMac))
  {
    hide Log, Begin, PassAt, Fail, ResumeTermination, ResumeOther, ThenFails, VmidAllocation.CharSum;
    ProbeStands(x, i, n);
    Next(x, i + 1 + n);
    var p := PassAt(x, i + 1 + n);
    if PassAt(x, i + 2 + n) == Fail(p.copy, NoAvailableVMID) {
      FailingEnds(x, i + 1 + n, p.copy, NoAvailableVMID);
    }
  }
}
