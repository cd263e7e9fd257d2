/** The Machine object as the API server stores it, and the in-memory copy a reconcile pass works on. */
module Machines {
  import opened Wrappers
  import opened Text
  import opened Conditions
  import opened ProviderId

  /** The phases the operator writes; `Unset` is the empty phase of a new object. */
  datatype Phase = Unset | Pending | Creating | Running | Failed | Terminating | Terminated

  /** The order phases move up in; `Unset` and `Pending` are one level. */
  function Rank(p: Phase): (r: nat)
    ensures r <= 5
  {
    match p
    case Unset => 0
    case Pending => 0
    case Creating => 1
    case Running => 2
    case Failed => 3
    case Terminating => 4
    case Terminated => 5
  }

  /**
   The part of the status the lifecycle decisions read. `vm` is not a field of the
   resource: it is the model's name for the VM that was current when the provider ID
   was written, counted by CreateVM calls, so that "the VM this Machine recorded"
   stays distinct from whatever sits at that ID later.
   */
  datatype Status = Status(
    phase: Phase, providerID: string, machineID: string, region: string, zone: string,
    conditions: seq<Condition>, vm: Option<nat>)

  datatype Object = Object(deleting: bool, finalizer: bool, status: Status)

  /** An object as read at some resource version. */
  datatype Copy = Copy(version: nat, obj: Object)

  function WithStatus(c: Copy, s: Status): Copy {
    c.(obj := c.obj.(status := s))
  }

  function WithPhase(s: Status, p: Phase): Status {
    s.(phase := p)
  }

  function WithReady(s: Status, holds: bool, reason: Reason): Status {
    s.(conditions := SetReady(s.conditions, holds, reason))
  }

  /** The part of `updateVMStatus` that touches the lifecycle fields: empty region and zone are filled in. */
  function WithNode(s: Status, node: string): Status {
    s.(region := if s.region == "" then node else s.region, zone := if s.zone == "" then node else s.zone)
  }

  /** The status written when a VM has been created at `slot`. */
  function RecordedAt(s: Status, slot: Slot, call: nat): Status {
    s.(phase := Running, providerID := Build(slot), machineID := Itoa(slot.id),
       region := slot.node, zone := slot.node, vm := Some(call))
  }

  predicate ReadyIs(s: Status, holds: bool) {
    ReadyStatus(s.conditions) == Some(holds)
  }
}
