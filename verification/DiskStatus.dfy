/** `parseDiskConfig`, `parseDiskSize` and `mapProxmoxDiskToDevice`: reading a VM's disks back into the status. */
module DiskStatus {
  import opened Wrappers
  import opened Text
  import VmBuilder

  /** `unused` stands for the label `unused`. */
  datatype StatusDisk = StatusDisk(name: string, device: string, kind: string, size: int, unused: bool)

  // ----- Sizes

  function IsSpace(c: char): bool {
    c == ' ' || '\t' <= c <= '\r'
  }

  function TrimLeft(s: string): string {
    if s != [] && IsSpace(s[0]) then TrimLeft(s[1..]) else s
  }

  function TrimRight(s: string): string {
    if s != [] && IsSpace(s[|s| - 1]) then TrimRight(s[..|s| - 1]) else s
  }

  /** The longest prefix made of digits. */
  function DigitPrefix(s: string): (p: string)
    ensures p <= s && AllDigits(p)
    ensures |p| < |s| ==> !IsDigit(s[|p|])
  {
    if s == [] || !IsDigit(s[0]) then [] else [s[0]] + DigitPrefix(s[1..])
  }

  function Power10(k: nat): (p: nat)
    ensures p >= 1
  {
    if k == 0 then 1 else 10 * Power10(k - 1)
  }

  /**
   `int64(size * float64(multiplier))` for the decimal number at the front of `s`,
   as exact arithmetic truncated towards zero; 0 when no number is there. Text
   after the number is ignored, as `Sscanf` does.
   */
  function ScaledDecimal(s: string, multiplier: nat): int {
    var negative := s != [] && s[0] == '-';
    var t := if s != [] && (s[0] == '-' || s[0] == '+') then s[1..] else s;
    var whole := DigitPrefix(t);
    var rest := t[|whole|..];
    var fraction := if rest != [] && rest[0] == '.' then DigitPrefix(rest[1..]) else [];
    if whole + fraction == [] then 0
    else
      var magnitude := NatValue(whole + fraction) * multiplier / Power10(|fraction|);
      if negative then -magnitude else magnitude
  }

  const KIB: nat := 1024
  const MIB: nat := 0x10_0000
  const GIB: nat := 0x4000_0000
  const TIB: nat := 0x100_0000_0000

  function UnitOf(c: char): Option<nat> {
    match c
    case 'T' => Some(TIB)
    case 'G' => Some(GIB)
    case 'M' => Some(MIB)
    case 'K' => Some(KIB)
    case _ => None
  }

  /** `parseDiskSize`: a number with an optional unit letter, in GiB when there is none. */
  function DiskSize(text: string): int {
    var s := TrimRight(TrimLeft(text));
    if s == [] then 0
    else
      match UnitOf(s[|s| - 1])
      case Some(unit) => ScaledDecimal(s[..|s| - 1], unit)
      case None => ScaledDecimal(s, GIB)
  }

  // ----- Devices

  function LowerChar(c: char): char {
    if 'A' <= c <= 'Z' then c + ('a' - 'A') else c
  }

  function ToLower(s: string): string {
    seq(|s|, i requires 0 <= i < |s| => LowerChar(s[i]))
  }

  /** `Sscanf(s, "%d", &n)`: an optional sign and at least one digit, in range; later text is ignored. */
  function ScanInt(s: string): Result<int> {
    var t := if s != [] && (s[0] == '-' || s[0] == '+') then s[1..] else s;
    Signed(s != [] && s[0] == '-', DigitPrefix(t))
  }

  /** `string(rune('a' + index))`; a code that is no Unicode scalar prints as U+FFFD. */
  function Letter(index: int): char {
    var code := 'a' as int + index;
    if 0 <= code < 0xD800 || 0xE000 <= code < 0x11_0000 then code as char else '\U{FFFD}'
  }

  function ControllerOf(name: string): Option<string> {
    if "scsi" <= name then Some("scsi")
    else if "virtio" <= name then Some("virtio")
    else if "sata" <= name then Some("sata")
    else if "ide" <= name then Some("ide")
    else None
  }

  /** `mapProxmoxDiskToDevice`. */
  function Device(diskName: string): string {
    var name := ToLower(diskName);
    match ControllerOf(name)
    case None => "/dev/" + name
    case Some(controller) =>
      var indexText := if controller <= name then name[|controller|..] else [];
      var index := if indexText == [] then Ok(0) else ScanInt(indexText);
      match index
      case Err => "/dev/" + name
      case Ok(n) => (if controller == "virtio" then "/dev/vd" else "/dev/sd") + [Letter(n)]
  }

  // ----- One disk entry

  /** `strings.SplitN(s, sep, 2)`: the text before the first separator, and the rest if there is one. */
  function Cut(s: string, sep: char): (r: (string, Option<string>))
  {
    var head := Before(s, sep);
    (head, if |head| < |s| then Some(s[|head| + 1..]) else None)
  }

  lemma CutAt(head: string, sep: char, tail: string)
    requires sep !in head
    ensures Cut(head + [sep] + tail, sep) == (head, Some(tail))
  {
    BeforeAt(head, sep, tail);
    var s := head + [sep] + tail;
    assert s[|head| + 1..] == tail;
  }

  lemma {:induction false} BeforeAt(head: string, sep: char, tail: string)
    requires sep !in head
    ensures Before(head + [sep] + tail, sep) == head
  {
    var s := head + [sep] + tail;
    if head == [] {
      assert s[0] == sep;
    } else {
      BeforeAt(head[1..], sep, tail);
      assert s[1..] == head[1..] + [sep] + tail;
      assert head == [head[0]] + head[1..];
    }
  }

  lemma {:induction false} CutNone(s: string, sep: char)
    requires sep !in s
    ensures Cut(s, sep) == (s, None)
  {
    if s != [] {
      CutNone(s[1..], sep);
      assert s == [s[0]] + s[1..];
    }
  }

  /** The size after reading one `key=value` entry. */
  function SizeAfter(size: int, entry: string): int {
    match Cut(entry, '=')
    case (key, Some(value)) => if key == "size" then DiskSize(value) else size
    case (_, None) => size
  }

  function SizeOfEntries(entries: seq<string>): int {
    if entries == [] then 0 else SizeAfter(SizeOfEntries(entries[..|entries| - 1]), entries[|entries| - 1])
  }

  predicate Skipped(config: string) {
    config == "" || config == "none" || Contains(config, CDROM) || Contains(config, ISO)
  }

  /** What a disk entry means: a storage pool, and the size option or else the size after the colon. */
  function ReadDisk(name: string, config: string): Option<StatusDisk> {
    if Skipped(config) then None
    else
      var (volume, options) := Cut(config, ',');
      var (pool, afterColon) := Cut(volume, ':');
      var listed := if options.Some? then SizeOfEntries(Split(options.value, ',')) else 0;
      var size :=
        if listed == 0 && afterColon.Some? && DiskSize(afterColon.value) > 0 then DiskSize(afterColon.value)
        else listed;
      Some(StatusDisk(name, Device(name), pool, size, false))
  }

  /** `parseDiskConfig`: the loop over the options, as the code runs it. */
  method ParseDiskConfig(name: string, config: string) returns (disk: Option<StatusDisk>)
    ensures disk == ReadDisk(name, config)
  {
    if Skipped(config) {
      return None;
    }
    var status := StatusDisk(name, Device(name), "", 0, false);
    var (volume, options) := Cut(config, ',');
    var (pool, afterColon) := Cut(volume, ':');
    status := status.(kind := pool);
    if options.Some? {
      var entries := Split(options.value, ',');
      for i := 0 to |entries|
        invariant status == StatusDisk(name, Device(name), pool, SizeOfEntries(entries[..i]), false)
      {
        assert entries[..i + 1][..i] == entries[..i];
        var (key, value) := Cut(entries[i], '=');
        if value.None? {
          continue;
        }
        if key == "size" {
          status := status.(size := DiskSize(value.value));
        }
      }
      assert entries[..|entries|] == entries;
    }
    if status.size == 0 && afterColon.Some? {
      var size := DiskSize(afterColon.value);
      if size > 0 {
        status := status.(size := size);
      }
    }
    return Some(status);
  }

  /** What an entry of the unused-disk map means; the device is a guess and the label is set. */
  function ReadUnusedDisk(name: string, config: string): Option<StatusDisk> {
    if config == "" || config == "none" then None
    else
      var options := Cut(config, ',').1;
      var size := if options.Some? then SizeOfEntries(Split(options.value, ',')) else 0;
      Some(StatusDisk(name, "/dev/sda", Cut(config, ':').0, size, true))
  }

  /** `parseUnusedDiskConfig`. */
  method ParseUnusedDiskConfig(name: string, config: string) returns (disk: Option<StatusDisk>)
    ensures disk == ReadUnusedDisk(name, config)
  {
    if config == "" || config == "none" {
      return None;
    }
    var (pool, _) := Cut(config, ':');
    var status := StatusDisk(name, "/dev/sda", pool, 0, true);
    var (_, options) := Cut(config, ',');
    if options.Some? {
      var entries := Split(options.value, ',');
      for i := 0 to |entries|
        invariant status == StatusDisk(name, "/dev/sda", pool, SizeOfEntries(entries[..i]), true)
      {
        assert entries[..i + 1][..i] == entries[..i];
        var (key, value) := Cut(entries[i], '=');
        if value.Some? && key == "size" {
          status := status.(size := DiskSize(value.value));
        }
      }
      assert entries[..|entries|] == entries;
    }
    return Some(status);
  }

  // ----- Round trips

  lemma {:induction false} DigitPrefixOfDigits(s: string)
    requires AllDigits(s)
    ensures DigitPrefix(s) == s
  {
    if s != [] {
      DigitPrefixOfDigits(s[1..]);
      assert s == [s[0]] + s[1..];
    }
  }

  lemma ScaledNat(n: nat, unit: nat)
    ensures ScaledDecimal(NatText(n), unit) == n * unit
  {
    var s := NatText(n);
    assert IsDigit(s[0]);
    DigitPrefixOfDigits(s);
    assert s[|s|..] == [] && s + [] == s;
  }

  lemma NotTrimmed(s: string)
    requires s != [] && !IsSpace(s[0]) && !IsSpace(s[|s| - 1])
    ensures TrimRight(TrimLeft(s)) == s
  {
  }

  /** A size printed without a unit is read as that many GiB; a negative one as a negative amount. */
  lemma DiskSizeOfItoa(n: int)
    ensures DiskSize(Itoa(n)) == n * GIB
  {
    var s := Itoa(n);
    ItoaChars(n);
    NotTrimmed(s);
    assert IsItoaChar(s[|s| - 1]);
    assert UnitOf(s[|s| - 1]) == None;
    if n < 0 {
      assert s[1..] == NatText(-n);
      var t := NatText(-n);
      DigitPrefixOfDigits(t);
      assert t[|t|..] == [] && t + [] == t;
      assert Power10(0) == 1;
      assert ScaledDecimal(s, GIB) == -((-n) * GIB);
    } else {
      ScaledNat(n, GIB);
    }
  }

  /** A size printed with a unit letter is read in that unit. */
  lemma DiskSizeWithUnit(n: nat, letter: char)
    requires UnitOf(letter).Some?
    ensures DiskSize(NatText(n) + [letter]) == n * UnitOf(letter).value
  {
    var s := NatText(n) + [letter];
    assert IsDigit(s[0]) && s[|s| - 1] == letter;
    NotTrimmed(s);
    assert s[..|s| - 1] == NatText(n);
    ScaledNat(n, UnitOf(letter).value);
  }

  lemma OccursPoint(s: string, sub: string, i: nat, k: nat)
    requires OccursAt(s, sub, i) && k < |sub|
    ensures s[i + k] == sub[k]
  {
    assert s[i..i + |sub|][k] == s[i + k];
  }

  /** An occurrence without the separator, whose first character is not behind it, lies before it. */
  lemma OccursBefore(head: string, sep: char, tail: string, sub: string, i: nat)
    requires sub != "" && sep !in sub && sub[0] !in tail
    requires OccursAt(head + [sep] + tail, sub, i)
    ensures OccursAt(head, sub, i)
  {
    var s := head + [sep] + tail;
    OccursPoint(s, sub, i, 0);
    assert s[|head|] == sep;
    assert forall k :: |head| < k < |s| ==> s[k] in tail;
    assert i < |head|;
    if i + |sub| > |head| {
      OccursPoint(s, sub, i, |head| - i);
      assert false;
    }
    assert s[i..i + |sub|] == head[i..i + |sub|];
  }

  lemma OccursInFront(head: string, sep: char, tail: string, sub: string, i: nat)
    requires OccursAt(head, sub, i)
    ensures OccursAt(head + [sep] + tail, sub, i)
  {
    assert (head + [sep] + tail)[i..i + |sub|] == head[i..i + |sub|];
  }

  lemma ContainsBefore(head: string, sep: char, tail: string, sub: string)
    requires sub != "" && sep !in sub && sub[0] !in tail
    ensures Contains(head + [sep] + tail, sub) <==> Contains(head, sub)
  {
    hide OccursAt;
    var s := head + [sep] + tail;
    forall i: nat | OccursAt(s, sub, i)
      ensures OccursAt(head, sub, i) && i <= |head|
    {
      OccursBefore(head, sep, tail, sub, i);
      OccursWithin(head, sub, i);
    }
    forall i: nat | OccursAt(head, sub, i)
      ensures OccursAt(s, sub, i)
    {
      OccursInFront(head, sep, tail, sub, i);
    }
  }

  lemma OccursWithin(s: string, sub: string, i: nat)
    requires OccursAt(s, sub, i)
    ensures i <= |s|
  {
  }

  /** A text without the first character of `sub` does not contain it. */
  lemma FirstMissing(s: string, sub: string)
    requires sub != "" && sub[0] !in s
    ensures !Contains(s, sub)
  {
    hide OccursAt;
    forall i: nat | OccursAt(s, sub, i)
      ensures false
    {
      OccursPointIn(s, sub, i);
    }
  }

  lemma OccursPointIn(s: string, sub: string, i: nat)
    requires sub != "" && OccursAt(s, sub, i)
    ensures sub[0] in s
  {
    OccursPoint(s, sub, i, 0);
  }

  const CDROM := "media=cdrom"
  const ISO := ",iso"

  lemma MediaLiterals()
    ensures CDROM != "" && CDROM[0] == 'm' && ':' !in CDROM
    ensures ISO != "" && ISO[0] == ','
  {
  }

  lemma BuiltValueSkipped(pool: string, id: int)
    requires ',' !in pool
    ensures Skipped(pool + ":" + Itoa(id)) <==> Contains(pool, CDROM)
  {
    hide Contains, Itoa, CDROM, ISO;
    var text := Itoa(id);
    var s := pool + [':'] + text;
    ItoaChars(id);
    MediaLiterals();
    assert forall c :: c in text ==> IsItoaChar(c);
    assert !IsItoaChar('m') && !IsItoaChar(',');
    ContainsBefore(pool, ':', text, CDROM);
    assert ',' !in s;
    FirstMissing(s, ISO);
    assert s[|pool|] == ':' && ':' !in "none";
    assert s == pool + ":" + text;
  }

  function GigabytesOf(sizeGB: int): int {
    if sizeGB == 0 then VmBuilder.DEFAULT_DISK_SIZE_GB else sizeGB
  }

  /**
   The builder's disk value is read back as one status disk of that pool and size,
   exactly when the pool's name does not look like CD-ROM media. (A size of 2^33 GB
   or more would not fit the 64-bit byte count.)
   */
  lemma DiskRoundTrip(name: string, pool: string, sizeGB: int)
    requires ',' !in pool && ':' !in pool
    requires sizeGB < 0x2_0000_0000
    ensures ReadDisk(name, VmBuilder.DiskValue(pool, sizeGB)) ==
            if Contains(pool, CDROM) then None
            else Some(StatusDisk(name, Device(name), pool, if sizeGB < 0 then 0 else GigabytesOf(sizeGB) * GIB, false))
    ensures IsInt64(GigabytesOf(sizeGB) * GIB) || sizeGB < 0
  {
    var id := GigabytesOf(sizeGB);
    var value := VmBuilder.DiskValue(pool, sizeGB);
    assert value == pool + [':'] + Itoa(id);
    BuiltValueSkipped(pool, id);
    ItoaChars(id);
    assert ',' !in value;
    CutNone(value, ',');
    CutAt(pool, ':', Itoa(id));
    DiskSizeOfItoa(id);
  }

  /** An entry `size=<n><unit>` sets the size. */
  lemma SizeEntry(n: nat, letter: char)
    requires UnitOf(letter).Some?
    ensures var entry := "size" + "=" + (NatText(n) + [letter]);
      Split(entry, ',') == [entry] && SizeOfEntries([entry]) == n * UnitOf(letter).value
  {
    var text := NatText(n) + [letter];
    var entry := "size" + ['='] + text;
    assert ',' !in text && ',' !in "size";
    SplitWhole(entry, ',');
    CutAt("size", '=', text);
    DiskSizeWithUnit(n, letter);
    assert [entry][..0] == [];
    assert SizeOfEntries([entry]) == SizeAfter(0, entry);
  }

  /** The one comma of a rewritten value is followed by `size`, so it never looks like an ISO. */
  lemma RewrittenIsNoIso(head: string, entry: string)
    requires ',' !in head && ',' !in entry && entry != "" && entry[0] == 's'
    ensures !Contains(head + [','] + entry, ISO)
  {
    var config := head + [','] + entry;
    forall i: nat | OccursAt(config, ISO, i)
      ensures false
    {
      OccursPoint(config, ISO, i, 0);
      OccursPoint(config, ISO, i, 1);
      assert forall j :: 0 <= j < |config| && config[j] == ',' ==> j == |head|;
    }
  }

  lemma RewrittenSkipped(head: string, entry: string)
    requires ',' !in head && ',' !in entry && entry != "" && entry[0] == 's'
    ensures Skipped(head + [','] + entry) <==> Contains(head + [','] + entry, CDROM)
  {
    hide Contains, CDROM, ISO;
    var config := head + [','] + entry;
    RewrittenIsNoIso(head, entry);
    assert config[|head|] == ',' && ',' !in "none";
  }

  /**
   What Proxmox rewrites the value to, `pool:volume,size=<n><unit>`, is read back too,
   exactly when it does not look like CD-ROM media.
   */
  lemma RewrittenDiskRoundTrip(name: string, pool: string, volume: string, n: nat, letter: char, config: string)
    requires ',' !in pool && ':' !in pool && ',' !in volume
    requires n > 0 && UnitOf(letter).Some?
    requires config == (pool + ":" + volume) + "," + ("size" + "=" + (NatText(n) + [letter]))
    ensures ReadDisk(name, config) ==
            if Contains(config, CDROM) then None
            else Some(StatusDisk(name, Device(name), pool, n * UnitOf(letter).value, false))
  {
    hide Skipped, Contains, CDROM;
    var head, entry := pool + ":" + volume, "size" + "=" + (NatText(n) + [letter]);
    var bytes := n * UnitOf(letter).value;
    assert bytes > 0;
    assert ',' !in head && ',' !in entry;
    CutAt(head, ',', entry);
    CutAt(pool, ':', volume);
    assert Cut(config, ',') == (head, Some(entry)) && Cut(head, ':') == (pool, Some(volume));
    SizeEntry(n, letter);
    assert SizeOfEntries(Split(entry, ',')) == bytes;
    RewrittenSkipped(head, entry);
    assert config == head + [','] + entry;
  }

  lemma ScsiDevice(i: nat)
    requires IsInt64(i)
    ensures Device(VmBuilder.SlotName(i)) == "/dev/sd" + [Letter(i)]
  {
    var name := VmBuilder.SlotName(i);
    assert name[..4] == "scsi" && name[4..] == Itoa(i) == NatText(i);
    forall k | 0 <= k < |name|
      ensures LowerChar(name[k]) == name[k]
    {
      if k < 4 {
        assert name[k] == "scsi"[k];
      } else {
        assert name[k] == NatText(i)[k - 4] && IsDigit(name[k]);
      }
    }
    assert ToLower(name) == name;
    DigitPrefixOfDigits(NatText(i));
    assert IsDigit(NatText(i)[0]);
    assert Signed(false, NatText(i)) == Ok(i);
  }

  /** Slots `scsi0` to `scsi25` show up as the distinct devices `/dev/sda` to `/dev/sdz`. */
  lemma DistinctDevices(i: nat, j: nat)
    requires i < 26 && j < 26
    ensures 'a' <= Letter(i) <= 'z'
    ensures Device(VmBuilder.SlotName(i)) == Device(VmBuilder.SlotName(j)) <==> i == j
  {
    ScsiDevice(i);
    ScsiDevice(j);
    var a, b := "/dev/sd" + [Letter(i)], "/dev/sd" + [Letter(j)];
    assert a[7] == Letter(i) && b[7] == Letter(j);
  }

  /** The status disk that placed disk i shows up as. */
  function ShownDisk(disks: seq<VmBuilder.Disk>, pool: string, i: nat): StatusDisk {
    StatusDisk(VmBuilder.SlotName(i), "/dev/sd" + [Letter(i)], pool,
               GigabytesOf(if i < |disks| then disks[i].sizeGB else 0) * GIB, false)
  }

  predicate ReadableStorage(disks: seq<VmBuilder.Disk>, pool: string) {
    && ',' !in pool && ':' !in pool && !Contains(pool, CDROM)
    && |disks| < 0x1_0000_0000
    && forall d :: d in disks ==> 0 <= d.sizeGB < 0x2_0000_0000
  }

  /** The option the builder emits for a placed disk, read back: its pool, its size and the i-th device. */
  lemma EmittedDiskReadsBack(disks: seq<VmBuilder.Disk>, pool: string, i: nat)
    requires ReadableStorage(disks, pool) && VmBuilder.Placed(disks, i)
    ensures var o := VmBuilder.PlacedOption(disks, pool, i);
      o.value.Word? && ReadDisk(o.name, o.value.text) == Some(ShownDisk(disks, pool, i))
  {
    DiskRoundTrip(VmBuilder.SlotName(i), pool, if i < |disks| then disks[i].sizeGB else 0);
    ScsiDevice(i);
  }
}
