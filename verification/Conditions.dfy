/** `setCondition`: the upsert of the Ready condition in a Machine's condition list. */
module Conditions {
  import opened Wrappers

  datatype Kind = ReadyKind | OtherKind(name: string)

  /** The reasons the operator gives; conditions of other kinds may carry any text. */
  datatype Reason =
    | Creating | NodeSelectionFailed | NoAvailableVMID | MACAddressGenerationFailed | ISOValidationFailed
    | VMCreationFailed | VMProvisioningFailed | VMRunning | VMDeleted | Terminating | Stopping | DeletionFailed
    | Terminated | OtherReason(text: string)

  /** `holds` is the status "True". The transition time and the message are left out: nothing reads them. */
  datatype Condition = Condition(kind: Kind, holds: bool, reason: Reason)

  predicate IsReady(c: Condition) {
    c.kind.ReadyKind?
  }

  /** The position of the first Ready entry, or the length of the list. */
  function FirstReady(cs: seq<Condition>): (i: nat)
    ensures i <= |cs|
    ensures i < |cs| ==> IsReady(cs[i])
    ensures forall j :: 0 <= j < i ==> !IsReady(cs[j])
  {
    if cs == [] || IsReady(cs[0]) then 0 else 1 + FirstReady(cs[1..])
  }

  predicate AtMostOneReady(cs: seq<Condition>) {
    forall i, j :: 0 <= i < |cs| && 0 <= j < |cs| && IsReady(cs[i]) && IsReady(cs[j]) ==> i == j
  }

  function ReadyStatus(cs: seq<Condition>): Option<bool> {
    if FirstReady(cs) < |cs| then Some(cs[FirstReady(cs)].holds) else None
  }

  /** The entries of other kinds, in order. */
  function Others(cs: seq<Condition>): seq<Condition> {
    if cs == [] then []
    else (if IsReady(cs[0]) then [] else [cs[0]]) + Others(cs[1..])
  }

  /** The list after the upsert: the first Ready entry replaced where it stands, or one appended. */
  function SetReady(cs: seq<Condition>, holds: bool, reason: Reason): seq<Condition> {
    var c := Condition(ReadyKind, holds, reason);
    var i := FirstReady(cs);
    if i < |cs| then cs[i := c] else cs + [c]
  }

  lemma SetReadyHolds(cs: seq<Condition>, holds: bool, reason: Reason)
    ensures ReadyStatus(SetReady(cs, holds, reason)) == Some(holds)
    ensures AtMostOneReady(cs) ==> AtMostOneReady(SetReady(cs, holds, reason))
  {
    var r := SetReady(cs, holds, reason);
    var i := FirstReady(cs);
    assert FirstReady(r) == i by {
      assert IsReady(r[i]);
      assert forall j :: 0 <= j < i ==> r[j] == cs[j];
    }
  }

  /** The first Ready entry is replaced where it stands, and without one the entry is appended. */
  lemma SetReadyInPlace(cs: seq<Condition>, holds: bool, reason: Reason, i: nat)
    requires i <= |cs| && forall j :: 0 <= j < i ==> !cs[j].kind.ReadyKind?
    ensures i < |cs| && cs[i].kind.ReadyKind? ==>
      SetReady(cs, holds, reason) == cs[i := Condition(ReadyKind, holds, reason)]
    ensures i == |cs| ==> SetReady(cs, holds, reason) == cs + [Condition(ReadyKind, holds, reason)]
  {
    assert i == |cs| || cs[i].kind.ReadyKind? ==> FirstReady(cs) == i by {
      assert forall j :: 0 <= j < |cs| ==> (IsReady(cs[j]) <==> cs[j].kind.ReadyKind?);
    }
  }

  lemma {:induction false} OthersAppend(a: seq<Condition>, b: seq<Condition>)
    ensures Others(a + b) == Others(a) + Others(b)
  {
    if a == [] {
      assert a + b == b;
    } else {
      assert (a + b)[1..] == a[1..] + b;
      OthersAppend(a[1..], b);
    }
  }

  lemma OthersAround(front: seq<Condition>, c: Condition, back: seq<Condition>)
    requires IsReady(c)
    ensures Others(front + [c] + back) == Others(front) + Others(back)
  {
    assert [c][1..] == [];
    OthersAppend(front, [c]);
    OthersAppend(front + [c], back);
  }

  /** The upsert leaves every entry of another kind, and their order, as they were. */
  lemma SetReadyKeepsOthers(cs: seq<Condition>, holds: bool, reason: Reason)
    ensures Others(SetReady(cs, holds, reason)) == Others(cs)
  {
    var c := Condition(ReadyKind, holds, reason);
    var i := FirstReady(cs);
    assert Others([c]) == [] by { assert [c][1..] == []; }
    if i < |cs| {
      var front, back := cs[..i], cs[i + 1..];
      OthersAround(front, cs[i], back);
      OthersAround(front, c, back);
      assert cs == front + [cs[i]] + back;
      assert cs[i := c] == front + [c] + back;
    } else {
      OthersAppend(cs, [c]);
    }
  }

  /** The second of two upserts is the only one that shows. */
  lemma SetReadyOverwrites(cs: seq<Condition>, h1: bool, r1: Reason, h2: bool, r2: Reason)
    ensures SetReady(SetReady(cs, h1, r1), h2, r2) == SetReady(cs, h2, r2)
  {
    var r := SetReady(cs, h1, r1);
    var i := FirstReady(cs);
    assert FirstReady(r) == i by {
      assert IsReady(r[i]);
      assert forall j :: 0 <= j < i ==> r[j] == cs[j];
    }
  }
}
