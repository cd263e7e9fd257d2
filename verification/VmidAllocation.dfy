/** `generateVMID` and `findAvailableVMID`: a start derived from the UID, then a probe of 100 IDs. */
module VmidAllocation {

  const MAX_ATTEMPTS: nat := 100
  const SPREAD: nat := 1000

  /** The sum of the character codes of a UID. */
  function CharSum(uid: string): nat {
    if uid == [] then 0 else CharSum(uid[..|uid| - 1]) + uid[|uid| - 1] as nat
  }

  /** Every character of a UID counts once, with its code. */
  lemma {:induction false} CharSumAdds(a: string, b: string)
    ensures CharSum(a + b) == CharSum(a) + CharSum(b)
    ensures CharSum("") == 0 && forall c :: CharSum([c]) == c as nat
  {
    assert forall c: char :: [c][..0] == [];
    if b == [] {
      assert a + b == a;
    } else {
      var front := b[..|b| - 1];
      assert (a + b)[..|a + b| - 1] == a + front;
      CharSumAdds(a, front);
    }
  }

  function BaseId(start: int, uid: string): (id: int)
    ensures start <= id < start + SPREAD
  {
    start + CharSum(uid) % SPREAD
  }

  /** `generateVMID`. A UID has 36 characters, so the sum stays far inside Go's `int`. */
  method GenerateVmid(start: int, uid: string) returns (id: int)
    ensures id == BaseId(start, uid) == start + CharSum(uid) % 1000
  {
    var sum: nat := 0;
    for i := 0 to |uid|
      invariant sum == CharSum(uid[..i])
    {
      assert uid[..i + 1][..i] == uid[..i];
      sum := sum + uid[i] as nat;
    }
    assert uid[..|uid|] == uid;
    return start + sum % SPREAD;
  }

  predicate LeastFree(base: int, taken: set<int>, id: int) {
    base <= id < base + MAX_ATTEMPTS && id !in taken && forall j :: base <= j < id ==> j in taken
  }

  predicate WindowFull(base: int, taken: set<int>) {
    forall j :: base <= j < base + MAX_ATTEMPTS ==> j in taken
  }

  /**
   `findAvailableVMID`. `taken` holds the IDs whose probe finds a VM. Each ID is probed at
   most once, and a probe that fails for any reason counts as free, so this covers an
   inventory that changes meanwhile and probes that fail. The code tells "none found"
   from a found ID by the value 0 alone.
   */
  method FindAvailableVmid(start: int, uid: string, taken: set<int>) returns (id: int)
    ensures LeastFree(BaseId(start, uid), taken, id) || (id == 0 && WindowFull(BaseId(start, uid), taken))
    ensures id == 0 <==> WindowFull(BaseId(start, uid), taken) || LeastFree(BaseId(start, uid), taken, 0)
    ensures start > 0 ==> (id == 0 <==> WindowFull(BaseId(start, uid), taken))
    ensures id != 0 ==> id !in taken && forall j :: start + CharSum(uid) % 1000 <= j < id ==> j in taken
    ensures start > 0 && id != 0 ==> start <= id <= start + 1098
    ensures start > 0 && |taken| < 100 ==> id != 0
  {
    var base := GenerateVmid(start, uid);
    for attempt := 0 to MAX_ATTEMPTS
      invariant forall j :: base <= j < base + attempt ==> j in taken
    {
      id := base + attempt;
      if id !in taken {
        return;
      }
    }
    if |taken| < 100 {
      WindowNeedsHundred(base, taken);
    }
    return 0;
  }

  function Window(base: int, n: nat): (s: set<int>)
    ensures forall j :: j in s <==> base <= j < base + n
    ensures |s| == n
  {
    if n == 0 then {} else Window(base, n - 1) + {base + n - 1}
  }

  /** A node with fewer than 100 VMs cannot fill the window. */
  lemma WindowNeedsHundred(base: int, taken: set<int>)
    requires WindowFull(base, taken)
    ensures |taken| >= 100
  {
    var w := Window(base, MAX_ATTEMPTS);
    SubsetSize(w, taken);
  }

  lemma {:induction false} SubsetSize<T>(a: set<T>, b: set<T>)
    requires a <= b
    ensures |a| <= |b|
  {
    if a == {} {
    } else {
      var x :| x in a;
      SubsetSize(a - {x}, b - {x});
    }
  }

  /**
   The sentinel is ambiguous: every UID has a start at which the search answers 0 although
   the window has free IDs, as soon as ID 0 is one of them.
   */
  method ZeroIsAmbiguous(uid: string, taken: set<int>) returns (start: int, id: int)
    requires 0 !in taken
    ensures id == 0 && !WindowFull(BaseId(start, uid), taken)
  {
    start := 0 - CharSum(uid) % SPREAD;
    assert BaseId(start, uid) == 0;
    id := FindAvailableVmid(start, uid, taken);
  }
}
