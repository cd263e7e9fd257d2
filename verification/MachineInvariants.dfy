/** What every stored version of a Machine satisfies, how versions follow each other, and what a pass may rely on. */
module MachineInvariants {
  import opened Wrappers
  import opened Text
  import opened Conditions
  import opened ProviderId
  import opened Machines
  import opened Reconcile
  import opened Cluster
  import VmidAllocation

  // ----- Stored versions

  /** The record names its slot four times over, or not at all. */
  predicate NamesSlot(s: Status, slot: Slot) {
    && Addressable(slot)
    && Parse(s.providerID) == Ok(slot)
    && s.providerID == Build(slot)
    && s.machineID == Itoa(slot.id)
    && s.region == s.zone == slot.node
  }

  predicate Coherent(s: Status) {
    match s.vm
    case None => s.providerID == s.machineID == s.region == s.zone == ""
    case Some(_) =>
      && s.providerID != "" && s.machineID != ""
      && Parse(s.providerID).Ok? && NamesSlot(s, Parse(s.providerID).value)
  }

  predicate StatusInv(s: Status) {
    && Coherent(s)
    && AtMostOneReady(s.conditions)
    && (Rank(s.phase) <= 1 ==> s.vm == None)
    && (s.phase.Running? ==> s.vm.Some? && ReadyIs(s, true))
    && (ReadyIs(s, true) ==> s.phase.Running? || s.phase.Terminating?)
  }

  predicate ObjectInv(o: Object) {
    && StatusInv(o.status)
    && (Rank(o.status.phase) >= 4 ==> o.deleting)
    && (Rank(o.status.phase) >= 1 ==> o.finalizer || o.deleting)
  }

  predicate SameRecord(a: Status, b: Status) {
    && a.vm == b.vm && a.providerID == b.providerID && a.machineID == b.machineID
    && a.region == b.region && a.zone == b.zone
  }

  /** What an earlier version fixes about a later one. */
  predicate Precedes(a: Object, b: Object) {
    && Rank(a.status.phase) <= Rank(b.status.phase)
    && (a.deleting ==> b.deleting)
    && (a.status.vm.Some? || Rank(a.status.phase) >= 4 ==> SameRecord(a.status, b.status))
    && (a.finalizer && !b.finalizer ==> b.deleting)
    && (a.deleting && !a.finalizer ==> !b.finalizer)
  }

  predicate HistInv(h: seq<Object>) {
    && h != []
    && (forall i :: 0 <= i < |h| ==> ObjectInv(h[i]))
    && (forall i, j :: 0 <= i < j < |h| ==> Precedes(h[i], h[j]))
  }

  lemma PrecedesTrans(a: Object, b: Object, c: Object)
    requires Precedes(a, b) && Precedes(b, c)
    ensures Precedes(a, c)
  {
  }

  lemma HistAppend(h: seq<Object>, o: Object)
    requires HistInv(h) && ObjectInv(o) && Precedes(Last(h), o)
    ensures HistInv(h + [o])
  {
    hide Precedes, ObjectInv;
    var h' := h + [o];
    forall i, j | 0 <= i < j < |h'|
      ensures Precedes(h'[i], h'[j])
    {
      if j == |h| && i < |h| - 1 {
        PrecedesTrans(h[i], Last(h), o);
      }
    }
  }

  lemma PrecedesLast(h: seq<Object>, i: nat)
    requires HistInv(h) && i < |h|
    ensures i == |h| - 1 || Precedes(h[i], Last(h))
    ensures Rank(h[i].status.phase) >= 4 || h[i].status.vm.Some? ==> SameRecord(h[i].status, Last(h).status)
    ensures Rank(h[i].status.phase) <= Rank(Last(h).status.phase)
    ensures h[i].deleting ==> Last(h).deleting
  {
  }

  // ----- Passes

  /** A copy behind the current version: no write of it can land any more. */
  predicate Stale(h: seq<Object>, c: Copy) {
    c.version < |h| - 1
  }

  /** A live Machine's version, with the finalizer on. */
  predicate LiveBase(b: Object) {
    !b.deleting && b.finalizer
  }

  /** A status inside creation: nothing recorded, Ready "False". */
  predicate Unrecorded(s: Status) {
    Coherent(s) && s.vm == None && AtMostOneReady(s.conditions) && ReadyIs(s, false)
  }

  /** Inside creation, the Creating write of this pass landed or the copy is stale. */
  predicate CreationBase(h: seq<Object>, c: Copy)
    requires c.version < |h|
  {
    var b := h[c.version];
    && LiveBase(b)
    && b.status.vm == None
    && (b.status.phase.Creating? || (Rank(b.status.phase) == 0 && Stale(h, c)))
  }

  /** Inside termination the record is the stored one and the fence is behind. */
  predicate TerminationCopy(h: seq<Object>, c: Copy)
    requires c.version < |h|
  {
    var b, s := h[c.version], c.obj.status;
    && b.deleting && b.finalizer && Rank(b.status.phase) >= 4
    && SameRecord(s, b.status) && Coherent(s)
    && AtMostOneReady(s.conditions) && ReadyIs(s, false)
    && Rank(b.status.phase) <= Rank(s.phase)
  }

  predicate CreationPcInv(h: seq<Object>, pc: Pc, c: Copy)
    requires Creates(pc) && c.version < |h|
  {
    var s := c.obj.status;
    && CreationBase(h, c)
    && (if pc.WriteRecord? then
          StatusInv(s) && s.phase.Running? && s.vm == Some(pc.call) && NamesSlot(s, pc.slot)
        else Unrecorded(s) && (if pc.WriteFailed? then s.phase.Failed? else s.phase.Creating?))
    && (pc.ProbeId? ==>
          '/' !in pc.node && IsInt64(pc.base) && IsInt64(pc.base + MAX_ATTEMPTS) && pc.attempt < MAX_ATTEMPTS)
    && (pc.GenerateMac? || pc.CheckIso? || pc.CallCreate? || pc.WaitCreate? || pc.Fetch? || pc.MakeNetConf? ==>
          Addressable(pc.slot))
  }

  /** The slot a pass inside termination deals with. */
  function SlotOf(pc: Pc): Option<Slot> {
    if pc.GetTerminating? || pc.WriteStopping? || pc.CallStop? || pc.WaitStop? || pc.CallDelete? || pc.WaitDelete?
    then Some(pc.slot)
    else None
  }

  predicate FromDeletion(pc: Pc) {
    Terminates(pc) && !pc.Refetch? && !pc.WriteRemoval? ==> pc.del
  }

  predicate TerminationPcInv(h: seq<Object>, pc: Pc, c: Copy)
    requires Terminates(pc) && c.version < |h|
  {
    && FromDeletion(pc)
    && if pc.WriteRemoval? then
         !c.obj.finalizer && Last(h).deleting && Rank(Last(h).status.phase) >= 4
       else
         && TerminationCopy(h, c)
         && (SlotOf(pc).Some? ==> c.obj.status.vm.Some? && Parse(c.obj.status.providerID) == Ok(SlotOf(pc).value))
  }

  predicate OtherPcInv(h: seq<Object>, pc: Pc, c: Copy)
    requires !Creates(pc) && !Terminates(pc) && c.version < |h|
  {
    var b, s := h[c.version], c.obj.status;
    && !pc.ProbeExisting? && !pc.WriteExisting?
    && (if pc.WriteFence? then
          b.deleting && b.finalizer && Rank(b.status.phase) < 4 && s == WithPhase(b.status, Phase.Terminating)
        else if pc.AddFinalizer? then !b.deleting && !b.finalizer && c.obj == b.(finalizer := true)
        else LiveBase(b))
    && (pc.GetClass? || pc.GetRunning? ==> c.obj == b)
    && (pc.WriteLatch? ==> Rank(b.status.phase) == 0 && Unrecorded(s) && s.phase.Creating?)
    && (pc.GetRunning? ==> b.status.phase.Running? && NamesSlot(s, pc.slot))
    && (pc.WriteRunning? ==>
          b.status.phase.Running? && SameRecord(s, b.status) && StatusInv(s) && (s.phase.Running? || s.phase.Failed?))
  }

  predicate PassInv(h: seq<Object>, p: Pass) {
    p.At? ==>
      && p.copy.version < |h|
      && (if Creates(p.pc) then CreationPcInv(h, p.pc, p.copy)
          else if Terminates(p.pc) then TerminationPcInv(h, p.pc, p.copy)
          else OtherPcInv(h, p.pc, p.copy))
  }

  /** A pass that may still reach its CreateVM call. */
  predicate MayCreate(p: Pass) {
    p.At? && (p.pc.SelectNode? || p.pc.ProbeId? || p.pc.GenerateMac? || p.pc.CheckIso? || p.pc.CallCreate?)
  }

  /** CreateVM calls are paid for by Creating writes that landed, at most one, or by swallowed conflicts. */
  predicate CountInv(c: Cell)
    requires c.hist != []
  {
    && c.latched <= 1
    && (c.latched == 1 ==> Rank(Last(c.hist).status.phase) >= 1)
    && c.creates + (if MayCreate(c.pass) then 1 else 0) <= c.latched + c.conflicts
  }

  predicate CellInv(c: Cell) {
    && HistInv(c.hist)
    && PassInv(c.hist, c.pass)
    && (c.gone ==> Last(c.hist).deleting && !Last(c.hist).finalizer)
    && (c.forgotten ==> c.gone && c.pass.Idle?)
    && CountInv(c)
  }

  // ----- Statuses the code writes

  lemma BuildNotEmpty(slot: Slot)
    ensures Build(slot) != ""
  {
    assert PREFIX[0] == 'p';
    assert Build(slot)[0] == 'p';
  }

  lemma ReadySet(s: Status, holds: bool, reason: Reason)
    ensures ReadyIs(WithReady(s, holds, reason), holds)
    ensures AtMostOneReady(s.conditions) ==> AtMostOneReady(WithReady(s, holds, reason).conditions)
  {
    SetReadyHolds(s.conditions, holds, reason);
  }

  lemma RecordedStatus(copy: Copy, slot: Slot, call: nat)
    requires Addressable(slot) && AtMostOneReady(copy.obj.status.conditions)
    ensures var s := RecordCopy(copy, slot, call).obj.status;
      StatusInv(s) && s.phase.Running? && s.vm == Some(call) && NamesSlot(s, slot)
  {
    hide SetReady, Parse, Build;
    ParseBuild(slot);
    BuildNotEmpty(slot);
    ReadySet(WithNode(RecordedAt(copy.obj.status, slot, call), slot.node), true, VMRunning);
  }

  // ----- Writes that land keep the history in order

  lemma MetaLandingOk(h: seq<Object>, pc: Pc, c: Copy)
    requires HistInv(h) && PassInv(h, At(pc, c)) && WritesMeta(pc) && c.version == |h| - 1
    ensures ObjectInv(WriteResult(pc, c, Last(h)))
    ensures Precedes(Last(h), WriteResult(pc, c, Last(h)))
  {
    hide StatusInv, TerminationCopy;
    assert ObjectInv(Last(h));
  }

  lemma CreationLandingOk(h: seq<Object>, pc: Pc, c: Copy)
    requires HistInv(h) && PassInv(h, At(pc, c)) && WritesStatus(pc) && Creates(pc) && c.version == |h| - 1
    ensures ObjectInv(WriteResult(pc, c, Last(h)))
    ensures Precedes(Last(h), WriteResult(pc, c, Last(h)))
  {
    hide HistInv, AtMostOneReady, ReadyStatus, NamesSlot;
    LastInv(h);
  }

  lemma TerminationLandingOk(h: seq<Object>, pc: Pc, c: Copy)
    requires HistInv(h) && PassInv(h, At(pc, c)) && WritesStatus(pc) && Terminates(pc) && c.version == |h| - 1
    ensures ObjectInv(WriteResult(pc, c, Last(h)))
    ensures Precedes(Last(h), WriteResult(pc, c, Last(h)))
  {
    hide HistInv, AtMostOneReady, ReadyStatus, NamesSlot;
    LastInv(h);
  }

  lemma OtherLandingOk(h: seq<Object>, pc: Pc, c: Copy)
    requires HistInv(h) && PassInv(h, At(pc, c)) && WritesStatus(pc) && !Creates(pc) && !Terminates(pc)
    requires c.version == |h| - 1
    ensures ObjectInv(WriteResult(pc, c, Last(h)))
    ensures Precedes(Last(h), WriteResult(pc, c, Last(h)))
  {
    hide HistInv, AtMostOneReady, ReadyStatus, Parse, Build, Itoa;
    LastInv(h);
  }

  lemma LastInv(h: seq<Object>)
    requires HistInv(h)
    ensures h != [] && ObjectInv(Last(h))
  {
    hide ObjectInv;
  }

  lemma LandingOk(h: seq<Object>, pc: Pc, c: Copy)
    requires HistInv(h) && PassInv(h, At(pc, c)) && Writes(pc) && c.version == |h| - 1
    ensures ObjectInv(WriteResult(pc, c, Last(h)))
    ensures Precedes(Last(h), WriteResult(pc, c, Last(h)))
  {
    hide HistInv, PassInv, ObjectInv, Precedes, WriteResult;
    if WritesMeta(pc) {
      MetaLandingOk(h, pc, c);
    } else if Creates(pc) {
      CreationLandingOk(h, pc, c);
    } else if Terminates(pc) {
      TerminationLandingOk(h, pc, c);
    } else {
      OtherLandingOk(h, pc, c);
    }
  }

  // ----- Every step of a pass keeps its invariant

  lemma PassInvAppend(h: seq<Object>, o: Object, p: Pass)
    requires HistInv(h) && HistInv(h + [o]) && PassInv(h, p)
    ensures PassInv(h + [o], p)
  {
    hide Parse, Build, SetReady, Itoa, ObjectInv;
    if p.At? {
      assert (h + [o])[p.copy.version] == h[p.copy.version];
      assert Precedes(Last(h), Last(h + [o])) by {
        assert (h + [o])[|h| - 1] == Last(h);
      }
    }
  }

  /** What a reply tells about the history before and after it. */
  predicate ReplyOk(h: seq<Object>, h': seq<Object>, pc: Pc, c: Copy, r: Reply)
    requires h != [] && h' != []
  {
    && (h' == h || (Writes(pc) && c.version == |h| - 1 && h' == h + [WriteResult(pc, c, Last(h))]))
    && (r.Stored? ==>
          && Writes(pc) && c.version == |h| - 1 && h' == h + [WriteResult(pc, c, Last(h))]
          && r.copy == Copy(|h|, WriteResult(pc, c, Last(h))))
    && (r.Conflict? ==> h' == h && (Writes(pc) ==> Stale(h, c)))
    && (r.Got? ==> h' == h && r.copy.version < |h| && r.copy.obj == h[r.copy.version])
    && (r.Node? ==> '/' !in r.node)
  }

  lemma FailKeeps(h: seq<Object>, c: Copy, reason: Reason)
    requires c.version < |h| && CreationBase(h, c) && Unrecorded(c.obj.status)
    ensures PassInv(h, Fail(c, reason))
  {
    hide Parse, Build, SetReady, Itoa;
    ReadySet(WithPhase(c.obj.status, Failed), false, reason);
  }

  lemma LookupKeeps(s: Settings, k: Key, h: seq<Object>, pc: Pc, c: Copy, r: Reply)
    requires PassInv(h, At(pc, c)) && (pc.Fetch? || pc.MakeNetConf?)
    ensures PassInv(h, ResumeCreation(s, k, pc, c, r))
  {
    hide Fail, RecordCopy, NamesSlot, StatusInv, Coherent, TerminationPcInv, OtherPcInv;
    FailKeeps(h, c, VMCreationFailed);
    RecordedStatus(c, pc.slot, pc.call);
    RecordCopyVersion(c, pc.slot, pc.call);
  }

  lemma PreparationKeeps(s: Settings, k: Key, h: seq<Object>, pc: Pc, c: Copy, r: Reply)
    requires HistInv(h) && PassInv(h, At(pc, c)) && Creates(pc) && !Writes(pc) && !pc.Fetch? && !pc.MakeNetConf?
    requires ReplyOk(h, h, pc, c, r) && RoomForIds(s)
    ensures PassInv(h, ResumeCreation(s, k, pc, c, r))
  {
    hide HistInv, Fail, Unrecorded, TerminationPcInv, OtherPcInv;
    FailKeeps(h, c, NodeSelectionFailed);
    FailKeeps(h, c, NoAvailableVMID);
    FailKeeps(h, c, MACAddressGenerationFailed);
    FailKeeps(h, c, ISOValidationFailed);
    FailKeeps(h, c, VMCreationFailed);
    FailKeeps(h, c, VMProvisioningFailed);
  }

  lemma CreationKeeps(s: Settings, k: Key, h: seq<Object>, h': seq<Object>, pc: Pc, c: Copy, r: Reply)
    requires HistInv(h) && PassInv(h, At(pc, c)) && Creates(pc)
    requires HistInv(h') && ReplyOk(h, h', pc, c, r) && RoomForIds(s)
    ensures PassInv(h', ResumeCreation(s, k, pc, c, r))
  {
    hide HistInv, PassInv, RoomForIds;
    if Writes(pc) {
      RecordingEnds(s, k, h', pc, c, r);
    } else if pc.Fetch? || pc.MakeNetConf? {
      LookupKeeps(s, k, h, pc, c, r);
    } else {
      PreparationKeeps(s, k, h, pc, c, r);
    }
  }

  lemma RecordingEnds(s: Settings, k: Key, h: seq<Object>, pc: Pc, c: Copy, r: Reply)
    requires Creates(pc) && Writes(pc)
    ensures PassInv(h, ResumeCreation(s, k, pc, c, r))
  {
    hide PassInv, Fail, RecordCopy, AfterProbe, VmidAllocation.BaseId;
    assert ResumeCreation(s, k, pc, c, r) == Idle;
    IdleKeeps(h);
  }

  lemma IdleKeeps(h: seq<Object>)
    ensures PassInv(h, Idle)
  {
  }

  lemma RecordCopyVersion(c: Copy, slot: Slot, call: nat)
    ensures RecordCopy(c, slot, call).version == c.version
  {
  }

  lemma BeginTerminationKeeps(h: seq<Object>, c: Copy)
    requires HistInv(h) && c.version < |h|
    requires h[c.version].deleting && h[c.version].finalizer && Rank(h[c.version].status.phase) >= 4
    requires SameRecord(c.obj.status, h[c.version].status) && AtMostOneReady(c.obj.status.conditions)
    requires Rank(h[c.version].status.phase) <= Rank(c.obj.status.phase)
    ensures PassInv(h, BeginTermination(c, true))
  {
    hide Parse, Build, SetReady, Itoa;
    assert ObjectInv(h[c.version]);
    ReadySet(c.obj.status, false, Reason.Terminating);
  }

  /** A termination copy stays one when its conditions or its phase move on, and when it has been stored. */
  lemma TerminationCopyMoves(h: seq<Object>, c: Copy, p: Phase, reason: Reason)
    requires c.version < |h| && TerminationCopy(h, c) && Rank(c.obj.status.phase) <= Rank(p)
    ensures TerminationCopy(h, WithStatus(c, WithReady(WithPhase(c.obj.status, p), false, reason)))
  {
    hide Parse, Build, SetReady, Itoa;
    ReadySet(WithPhase(c.obj.status, p), false, reason);
  }

  lemma TerminationCopyStored(h: seq<Object>, pc: Pc, c: Copy)
    requires h != [] && c.version == |h| - 1 && TerminationCopy(h, c) && WritesStatus(pc)
    ensures TerminationCopy(h + [WriteResult(pc, c, Last(h))], Copy(|h|, WriteResult(pc, c, Last(h))))
  {
    hide Parse, Build, SetReady, Itoa;
  }

  lemma TerminationCopyAppend(h: seq<Object>, o: Object, c: Copy)
    requires c.version < |h| && TerminationCopy(h, c)
    ensures TerminationCopy(h + [o], c)
  {
    assert (h + [o])[c.version] == h[c.version];
  }

  lemma TerminationWriteKeeps(h: seq<Object>, h': seq<Object>, pc: Pc, c: Copy, r: Reply)
    requires HistInv(h) && PassInv(h, At(pc, c)) && (pc.WriteStopping? || pc.WriteTerminated?)
    requires HistInv(h') && ReplyOk(h, h', pc, c, r)
    ensures PassInv(h', ResumeTermination(pc, c, r))
  {
    hide Parse, Build, SetReady, Itoa, HistInv, TerminationCopy;
    if r.Stored? {
      TerminationCopyStored(h, pc, c);
    } else if h' != h {
      TerminationCopyAppend(h, Last(h'), c);
    }
  }

  lemma RefetchKeeps(h: seq<Object>, c: Copy, r: Reply)
    requires HistInv(h) && PassInv(h, At(Refetch, c)) && ReplyOk(h, h, Refetch, c, r)
    ensures PassInv(h, ResumeTermination(Refetch, c, r))
  {
    hide Parse, Build, SetReady, Itoa, HistInv;
    PrecedesLast(h, c.version);
  }

  lemma TerminationCallKeeps(h: seq<Object>, pc: Pc, c: Copy, r: Reply)
    requires HistInv(h) && PassInv(h, At(pc, c)) && Terminates(pc) && !Writes(pc) && !pc.Refetch?
    requires ReplyOk(h, h, pc, c, r)
    ensures PassInv(h, ResumeTermination(pc, c, r))
  {
    hide Parse, Build, SetReady, Itoa, HistInv, TerminationCopy;
    assert TerminationCopy(h, c);
    var s := c.obj.status;
    if pc.GetTerminating? && r.Found? {
      TerminationCopyMoves(h, c, s.phase, Stopping);
      assert WithPhase(s, s.phase) == s;
    } else if pc.GetTerminating? || pc.DropNetConf? {
      TerminationCopyMoves(h, c, Phase.Terminated, Reason.Terminated);
    }
  }

  lemma TerminationKeeps(h: seq<Object>, h': seq<Object>, pc: Pc, c: Copy, r: Reply)
    requires HistInv(h) && PassInv(h, At(pc, c)) && Terminates(pc)
    requires HistInv(h') && ReplyOk(h, h', pc, c, r)
    ensures PassInv(h', ResumeTermination(pc, c, r))
  {
    hide HistInv, PassInv;
    if pc.WriteRemoval? {
      RemovalEnds(h', c, r);
    } else if pc.Refetch? {
      RefetchKeeps(h, c, r);
    } else if Writes(pc) {
      TerminationWriteKeeps(h, h', pc, c, r);
    } else {
      TerminationCallKeeps(h, pc, c, r);
    }
  }

  lemma RemovalEnds(h: seq<Object>, c: Copy, r: Reply)
    ensures PassInv(h, ResumeTermination(WriteRemoval, c, r))
  {
  }

  lemma LatchKeeps(h: seq<Object>, c: Copy)
    requires HistInv(h) && c.version < |h| && c.obj == h[c.version]
    requires LiveBase(c.obj) && Rank(c.obj.status.phase) == 0
    ensures PassInv(h, LatchCreation(c))
  {
    hide Parse, Build, SetReady, Itoa;
    assert ObjectInv(h[c.version]);
    ReadySet(WithPhase(c.obj.status, Phase.Creating), false, Reason.Creating);
  }

  lemma DispatchKeeps(h: seq<Object>, c: Copy)
    requires HistInv(h) && c.version < |h| && c.obj == h[c.version] && LiveBase(c.obj)
    ensures PassInv(h, Dispatch(c))
  {
    hide Parse, Build, SetReady, Itoa, LatchCreation;
    assert ObjectInv(h[c.version]);
    if Rank(c.obj.status.phase) == 0 {
      LatchKeeps(h, c);
    }
  }

  lemma FenceKeeps(h: seq<Object>, h': seq<Object>, c: Copy, r: Reply)
    requires HistInv(h) && PassInv(h, At(WriteFence, c)) && HistInv(h') && ReplyOk(h, h', WriteFence, c, r)
    ensures PassInv(h', ResumeOther(WriteFence, c, r))
  {
    hide HistInv, StatusInv, BeginTermination, CreationPcInv, TerminationPcInv, Dispatch, LatchCreation;
    VersionInv(h, c.version);
    if r.Stored? {
      BeginTerminationKeeps(h', r.copy);
    }
  }

  lemma VersionInv(h: seq<Object>, v: nat)
    requires HistInv(h) && v < |h|
    ensures ObjectInv(h[v]) && AtMostOneReady(h[v].status.conditions)
  {
  }

  lemma LatchWriteKeeps(h: seq<Object>, h': seq<Object>, c: Copy, r: Reply)
    requires HistInv(h) && PassInv(h, At(WriteLatch, c)) && HistInv(h') && ReplyOk(h, h', WriteLatch, c, r)
    ensures PassInv(h', ResumeOther(WriteLatch, c, r))
  {
    hide Parse, Build, SetReady, Itoa;
    assert ObjectInv(h[c.version]);
  }

  /** The refresh never changes the record: a recorded region and zone are kept. */
  lemma RefreshKeepsRecord(s: Status, slot: Slot)
    requires NamesSlot(s, slot)
    ensures WithNode(s, slot.node) == s
  {
  }

  lemma FailedAfterRunning(s: Status)
    requires StatusInv(s) && s.phase.Running?
    ensures StatusInv(FailedStatus(s, VMDeleted)) && SameRecord(FailedStatus(s, VMDeleted), s)
  {
    hide Parse, Build, SetReady, Itoa;
    ReadySet(WithPhase(s, Failed), false, VMDeleted);
  }

  lemma RunningKeeps(h: seq<Object>, pc: Pc, c: Copy, r: Reply)
    requires HistInv(h) && PassInv(h, At(pc, c)) && pc.GetRunning?
    ensures PassInv(h, ResumeOther(pc, c, r))
  {
    hide NamesSlot, StatusInv, SetReady, WithNode, FailedStatus;
    assert ObjectInv(h[c.version]);
    RefreshKeepsRecord(c.obj.status, pc.slot);
    FailedAfterRunning(c.obj.status);
    FailedPhase(c.obj.status, VMDeleted);
  }

  lemma FailedPhase(s: Status, reason: Reason)
    ensures FailedStatus(s, reason).phase.Failed?
  {
  }

  lemma FinalizerKeeps(h: seq<Object>, h': seq<Object>, c: Copy, r: Reply)
    requires HistInv(h) && PassInv(h, At(AddFinalizer, c)) && HistInv(h') && ReplyOk(h, h', AddFinalizer, c, r)
    ensures PassInv(h', ResumeOther(AddFinalizer, c, r))
  {
    hide HistInv, StatusInv, Dispatch, BeginTermination, LatchCreation, CreationPcInv, TerminationPcInv;
  }

  lemma OtherKeeps(h: seq<Object>, h': seq<Object>, pc: Pc, c: Copy, r: Reply)
    requires HistInv(h) && PassInv(h, At(pc, c)) && !Creates(pc) && !Terminates(pc)
    requires HistInv(h') && ReplyOk(h, h', pc, c, r)
    ensures PassInv(h', ResumeOther(pc, c, r))
  {
    hide HistInv, Parse, Build, SetReady, Itoa, Dispatch, BeginTermination, LatchCreation;
    match pc {
      case AddFinalizer => FinalizerKeeps(h, h', c, r);
      case GetClass => DispatchKeeps(h, c);
      case WriteLatch => LatchWriteKeeps(h, h', c, r);
      case WriteFence => FenceKeeps(h, h', c, r);
      case GetRunning(_) => RunningKeeps(h, pc, c, r);
      case WriteRunning =>
      case ProbeExisting(_) =>
      case WriteExisting =>
    }
  }

  lemma BeginKeeps(h: seq<Object>, v: nat)
    requires HistInv(h) && v < |h|
    ensures PassInv(h, Begin(Copy(v, h[v])))
  {
    hide HistInv, StatusInv, BeginTermination, CreationPcInv, TerminationPcInv;
    VersionInv(h, v);
    if h[v].deleting && h[v].finalizer && Rank(h[v].status.phase) >= 4 {
      BeginTerminationKeeps(h, Copy(v, h[v]));
    }
  }

  // ----- One Machine, one step

  predicate NodeOk(o: Outcome) {
    o.Plain? && o.reply.Node? ==> '/' !in o.reply.node
  }

  lemma ObserveOk(c: Cell, o: Outcome)
    requires c.hist != [] && c.pass.At? && StoreAllows(c, o) && NodeOk(o)
    requires PassInv(c.hist, c.pass)
    ensures ReplyOk(c.hist, HistAfter(c, o), c.pass.pc, c.pass.copy, Observe(c, o))
  {
    hide CreationPcInv, TerminationPcInv, OtherPcInv;
  }

  lemma CreationMayCreate(s: Settings, k: Key, pc: Pc, c: Copy, r: Reply)
    requires Creates(pc) && MayCreate(ResumeCreation(s, k, pc, c, r))
    ensures MayCreate(At(pc, c)) && !pc.CallCreate?
  {
    hide WithReady, RecordCopy, FailedStatus;
  }

  lemma TerminationMayCreate(pc: Pc, c: Copy, r: Reply)
    requires Terminates(pc)
    ensures !MayCreate(ResumeTermination(pc, c, r))
  {
    hide WithReady;
  }

  lemma OtherMayCreate(pc: Pc, c: Copy, r: Reply)
    requires !Creates(pc) && !Terminates(pc) && MayCreate(ResumeOther(pc, c, r))
    ensures pc.WriteLatch? && (r.Stored? || r.Conflict?)
  {
    hide WithReady, Parse;
  }

  /** A pass gets to its CreateVM call only step by step from the Creating write. */
  lemma MayCreateAfter(s: Settings, k: Key, pc: Pc, c: Copy, r: Reply)
    requires MayCreate(Resume(s, k, pc, c, r))
    ensures (MayCreate(At(pc, c)) && !pc.CallCreate?) || (pc.WriteLatch? && (r.Stored? || r.Conflict?))
  {
    hide ResumeCreation, ResumeTermination, ResumeOther;
    if Creates(pc) {
      CreationMayCreate(s, k, pc, c, r);
    } else if Terminates(pc) {
      TerminationMayCreate(pc, c, r);
    } else {
      OtherMayCreate(pc, c, r);
    }
  }

  /** The Creating write lands only on a Machine that never had one. */
  lemma LatchLandsOnce(c: Cell, o: Outcome)
    requires CellInv(c) && c.pass.At? && StoreAllows(c, o) && c.pass.pc.WriteLatch? && Effective(o)
    ensures c.latched == 0 && Rank(Last(HistAfter(c, o)).status.phase) == 1
  {
    hide HistInv;
  }

  lemma CountKeeps(s: Settings, k: Key, c: Cell, o: Outcome)
    requires CellInv(c) && c.pass.At? && StoreAllows(c, o)
    requires HistAfter(c, o) != []
    requires Lands(c, o) ==> Precedes(Last(c.hist), Last(HistAfter(c, o)))
    ensures CountInv(CellAct(s, k, c, o))
  {
    hide HistInv, PassInv, Resume;
    var pc := c.pass.pc;
    if pc.WriteLatch? && Effective(o) {
      LatchLandsOnce(c, o);
    }
    if MayCreate(PassAfter(s, k, c, o)) {
      MayCreateAfter(s, k, pc, c.pass.copy, Observe(c, o));
    }
    assert Rank(Last(c.hist).status.phase) <= Rank(Last(HistAfter(c, o)).status.phase);
  }

  /** One step of a pass keeps everything about its Machine. */
  lemma ActKeeps(s: Settings, k: Key, c: Cell, o: Outcome)
    requires CellInv(c) && c.pass.At? && StoreAllows(c, o) && NodeOk(o) && RoomForIds(s)
    ensures CellInv(CellAct(s, k, c, o))
  {
    hide CountInv, PassInv;
    var pc, copy := c.pass.pc, c.pass.copy;
    var h' := HistAfter(c, o);
    if Lands(c, o) {
      LandingOk(c.hist, pc, copy);
      HistAppend(c.hist, WriteResult(pc, copy, Last(c.hist)));
    }
    ObserveOk(c, o);
    var r := Observe(c, o);
    if Creates(pc) {
      CreationKeeps(s, k, c.hist, h', pc, copy, r);
    } else if Terminates(pc) {
      TerminationKeeps(c.hist, h', pc, copy, r);
    } else {
      OtherKeeps(c.hist, h', pc, copy, r);
    }
    CountKeeps(s, k, c, o);
  }

  // ----- One Machine, one step of its surroundings

  /** A user's change: the version moves on, and nothing but the deletion mark may change. */
  lemma UserChangeKeeps(c: Cell, delete: bool)
    requires CellInv(c) && !c.gone
    ensures var last := Last(c.hist);
      CellInv(c.(hist := c.hist + [last.(deleting := last.deleting || delete)]))
  {
    hide PassInv, StatusInv;
    var last := Last(c.hist);
    var o := last.(deleting := last.deleting || delete);
    assert ObjectInv(last);
    HistAppend(c.hist, o);
    PassInvAppend(c.hist, o, c.pass);
  }

  lemma StartKeeps(c: Cell, v: nat)
    requires CellInv(c) && c.pass.Idle? && !c.forgotten && v < |c.hist|
    ensures CellInv(c.(pass := Begin(Copy(v, c.hist[v]))))
    ensures !MayCreate(Begin(Copy(v, c.hist[v])))
  {
    hide PassInv, HistInv;
    BeginKeeps(c.hist, v);
    BeginDoesNotCreate(Copy(v, c.hist[v]));
  }

  lemma BeginDoesNotCreate(c: Copy)
    ensures !MayCreate(Begin(c))
  {
    hide SetReady, Parse;
  }

  lemma NewMachineKeeps(o: Object)
    requires !o.deleting && FreshStatus(o.status)
    ensures CellInv(Cell([o], false, false, Idle, 0, 0, 0))
  {
    hide Parse;
    assert Conditions.FirstReady(o.status.conditions) == |o.status.conditions|;
  }
}
