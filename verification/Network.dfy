/** `internal/helpers/network`: the private-range test by byte comparison. */
module Network {

  newtype byte = n: int | 0 <= n < 256

  /** What `net.ParseIP` yields: nothing, or an address whose `To4()` has four bytes or is nil. */
  datatype ParsedIP = Invalid | V4(bytes: seq<byte>) | V6(bytes: seq<byte>)

  predicate WellFormed(ip: ParsedIP) {
    match ip
    case Invalid => true
    case V4(b) => |b| == 4
    case V6(b) => |b| == 16
  }

  /** `To4()`: the four bytes, or nil, which Go's range loops treat as empty. */
  function To4(ip: ParsedIP): seq<byte> {
    if ip.V4? then ip.bytes else []
  }

  /** The big-endian number a byte string spells. */
  function Number(s: seq<byte>): (n: nat) {
    if s == [] then 0 else 256 * Number(s[..|s| - 1]) + s[|s| - 1] as nat
  }

  function Sign(n: int): int {
    if n < 0 then -1 else if n > 0 then 1 else 0
  }

  /** Two strings that agree before `i` and differ at `i` are ordered as numbers by the bytes at `i`. */
  lemma {:induction false} FirstDifferenceDecides(a: seq<byte>, b: seq<byte>, i: nat)
    requires |a| == |b| && i < |a| && a[..i] == b[..i] && a[i] < b[i]
    ensures Number(a) < Number(b)
  {
    var n := |a| - 1;
    if i < n {
      assert a[..n][..i] == a[..i] && b[..n][..i] == b[..i];
      FirstDifferenceDecides(a[..n], b[..n], i);
    }
  }

  /**
   `bytesCompare`. It walks `a`, so a nil `a` compares equal to everything, and a
   `b` shorter than `a` would index out of range. On equal lengths it has the sign
   of the numeric difference.
   */
  method BytesCompare(a: seq<byte>, b: seq<byte>) returns (c: int)
    requires |a| <= |b|
    ensures |a| == |b| ==> c == Sign(Number(a) - Number(b))
    ensures a == [] ==> c == 0
  {
    for i := 0 to |a|
      invariant a[..i] == b[..i]
    {
      if a[i] < b[i] {
        if |a| == |b| {
          FirstDifferenceDecides(a, b, i);
        }
        return -1;
      }
      if a[i] > b[i] {
        if |a| == |b| {
          FirstDifferenceDecides(b, a, i);
        }
        return 1;
      }
      assert a[..i + 1] == a[..i] + [a[i]] && b[..i + 1] == b[..i] + [b[i]];
    }
    if |a| == |b| {
      assert a[..|a|] == a && b[..|b|] == b;
    }
    return 0;
  }

  /** Section 3 of RFC 1918: the blocks 10/8, 172.16/12 and 192.168/16, read off the leading bits. */
  predicate Rfc1918(b: seq<byte>)
    requires |b| == 4
  {
    || b[0] == 10
    || (b[0] == 172 && b[1] / 16 == 1)
    || (b[0] == 192 && b[1] == 168)
  }

  /** What `IsPrivateIP` answers: RFC 1918 on IPv4, and yes on every IPv6 address. */
  predicate Private(ip: ParsedIP)
    requires WellFormed(ip)
  {
    match ip
    case Invalid => false
    case V4(b) => Rfc1918(b)
    case V6(_) => true
  }

  const RANGES: seq<(seq<byte>, seq<byte>)> :=
    [([10, 0, 0, 0], [10, 255, 255, 255]),
     ([172, 16, 0, 0], [172, 31, 255, 255]),
     ([192, 168, 0, 0], [192, 168, 255, 255])]

  predicate InRange(b: seq<byte>, r: nat)
    requires r < |RANGES|
  {
    Number(RANGES[r].0) <= Number(b) <= Number(RANGES[r].1)
  }

  lemma NumberOfQuad(a: byte, b: byte, c: byte, d: byte)
    ensures Number([a, b, c, d]) == 0x100_0000 * a as nat + 0x1_0000 * b as nat + 0x100 * c as nat + d as nat
  {
    assert [a, b, c, d][..3] == [a, b, c] && [a, b, c][..2] == [a, b] && [a, b][..1] == [a] && [a][..0] == [];
    assert Number([a]) == a as nat;
    assert Number([a, b]) == 256 * Number([a]) + b as nat;
    assert Number([a, b, c]) == 256 * Number([a, b]) + c as nat;
  }

  lemma RangesAreTheBlocks(b: seq<byte>)
    requires |b| == 4
    ensures Rfc1918(b) <==> InRange(b, 0) || InRange(b, 1) || InRange(b, 2)
  {
    assert b == [b[0], b[1], b[2], b[3]];
    NumberOfQuad(b[0], b[1], b[2], b[3]);
    NumberOfQuad(10, 0, 0, 0);
    NumberOfQuad(10, 255, 255, 255);
    NumberOfQuad(172, 16, 0, 0);
    NumberOfQuad(172, 31, 255, 255);
    NumberOfQuad(192, 168, 0, 0);
    NumberOfQuad(192, 168, 255, 255);
    var n := Number(b);
    assert InRange(b, 0) <==> 0x0A00_0000 <= n <= 0x0AFF_FFFF;
    assert InRange(b, 1) <==> 0xAC10_0000 <= n <= 0xAC1F_FFFF;
    assert InRange(b, 2) <==> 0xC0A8_0000 <= n <= 0xC0A8_FFFF;
    BlocksOfNumber(b[0] as nat, b[1] as nat, 0x100 * b[2] as nat + b[3] as nat);
    assert b[1] / 16 == 1 <==> 16 <= b[1] < 32;
  }

  lemma BlocksOfNumber(a: nat, b: nat, low: nat)
    requires a < 256 && b < 256 && low < 0x1_0000
    ensures var n := 0x100_0000 * a + 0x1_0000 * b + low;
      && (0x0A00_0000 <= n <= 0x0AFF_FFFF <==> a == 10)
      && (0xAC10_0000 <= n <= 0xAC1F_FFFF <==> a == 172 && 16 <= b < 32)
      && (0xC0A8_0000 <= n <= 0xC0A8_FFFF <==> a == 192 && b == 168)
  {
  }

  /** `IsPrivateIP`. */
  method IsPrivateIP(ip: ParsedIP) returns (private: bool)
    requires WellFormed(ip)
    ensures private == Private(ip)
  {
    if ip.Invalid? {
      return false;
    }
    if ip.V4? {
      RangesAreTheBlocks(ip.bytes);
    }
    for r := 0 to |RANGES|
      invariant r > 0 ==> ip.V4?
      invariant forall k :: 0 <= k < r ==> !InRange(To4(ip), k)
    {
      assert |RANGES[r].0| == 4 && |RANGES[r].1| == 4;
      var low := BytesCompare(To4(ip), RANGES[r].0);
      var high := BytesCompare(To4(ip), RANGES[r].1);
      if low >= 0 && high <= 0 {
        return true;
      }
    }
    assert |RANGES| == 3 && To4(ip) == ip.bytes;
    assert !InRange(To4(ip), 0) && !InRange(To4(ip), 1) && !InRange(To4(ip), 2);
    return false;
  }
}
