/** `internal/services/vmbuilder`: the option list sent to Proxmox when a VM is created. */
module VmBuilder {
  import opened Wrappers
  import opened Text

  datatype Value = Word(text: string) | Number(n: int)

  datatype VmOption = VmOption(name: string, value: Value)

  datatype Disk = Disk(name: string, sizeGB: int, boot: bool)

  datatype MachineSpec = MachineSpec(
    name: string, cores: int, memory: int, disks: seq<Disk>, interfaces: nat, imageID: string)

  datatype ClassSpec = ClassSpec(cores: int, memory: int)

  /** The environment settings the builder consults. */
  datatype Settings = Settings(
    cpuType: string, numa: bool, scsiController: string, storagePool: string, bridge: string,
    networkModel: string, defaultMtu: int, agent: bool, startOnCreate: bool)

  datatype NetworkConfig = NetworkConfig(mac: string, vlan: int, mtu: int)

  const DEFAULT_DISK_SIZE_GB := 50
  const SCSI0 := "scsi0"
  const NET0 := "net0"
  const MEBIBYTE := 1024 * 1024

  function Elements(options: seq<VmOption>): set<VmOption> {
    set o | o in options
  }

  function Names(options: set<VmOption>): set<string> {
    set o | o in options :: o.name
  }

  /** No option name is given twice, so the list reads as a map. */
  predicate Distinct(options: seq<VmOption>) {
    forall i, j :: 0 <= i < j < |options| ==> options[i].name != options[j].name
  }

  lemma Append(a: seq<VmOption>, b: seq<VmOption>)
    requires Distinct(a) && Distinct(b)
    requires Names(Elements(a)) !! Names(Elements(b))
    ensures Distinct(a + b)
    ensures Elements(a + b) == Elements(a) + Elements(b)
    ensures Names(Elements(a + b)) == Names(Elements(a)) + Names(Elements(b))
  {
    forall i, j | 0 <= i < j < |a + b|
      ensures (a + b)[i].name != (a + b)[j].name
    {
      if i < |a| <= j {
        assert a[i] in Elements(a) && b[j - |a|] in Elements(b);
        assert a[i].name in Names(Elements(a)) && b[j - |a|].name in Names(Elements(b));
      }
    }
    assert Elements(a + b) == Elements(a) + Elements(b);
  }

  lemma Append1(a: seq<VmOption>, o: VmOption)
    requires Distinct(a) && o.name !in Names(Elements(a))
    ensures Distinct(a + [o]) && Elements(a + [o]) == Elements(a) + {o}
    ensures Names(Elements(a + [o])) == Names(Elements(a)) + {o.name}
  {
    assert Elements([o]) == {o} && Names({o}) == {o.name};
    Append(a, [o]);
  }

  // ----- CPU, memory, operating system and the rest: single optional settings

  function When(present: bool, name: string, value: Value): set<VmOption> {
    if present then {VmOption(name, value)} else {}
  }

  function CpuWanted(m: MachineSpec, c: ClassSpec, s: Settings): set<VmOption> {
    When(m.cores > 0 || c.cores > 0, "cores", Number(if m.cores > 0 then m.cores else c.cores))
    + When(s.cpuType != "", "cpu", Word(s.cpuType))
    + When(s.numa, "numa", Number(1))
  }

  method BuildCpuOptions(m: MachineSpec, c: ClassSpec, s: Settings) returns (options: seq<VmOption>)
    ensures Distinct(options) && Elements(options) == CpuWanted(m, c, s)
  {
    options := [];
    if m.cores > 0 {
      options := options + [VmOption("cores", Number(m.cores))];
    } else if c.cores > 0 {
      options := options + [VmOption("cores", Number(c.cores))];
    }
    if s.cpuType != "" {
      options := options + [VmOption("cpu", Word(s.cpuType))];
    }
    if s.numa {
      options := options + [VmOption("numa", Number(1))];
    }
  }

  /** Whole mebibytes of the machine's memory, or of the class's when the machine names none. */
  function MemoryMB(m: MachineSpec, c: ClassSpec): int {
    if m.memory > 0 then m.memory / MEBIBYTE else if c.memory > 0 then c.memory / MEBIBYTE else 0
  }

  function MemoryWanted(m: MachineSpec, c: ClassSpec): set<VmOption> {
    When(MemoryMB(m, c) > 0, "memory", Number(MemoryMB(m, c)))
  }

  method BuildMemoryOptions(m: MachineSpec, c: ClassSpec) returns (options: seq<VmOption>)
    ensures Distinct(options) && Elements(options) == MemoryWanted(m, c)
  {
    options := [];
    var memoryMB := 0;
    if m.memory > 0 {
      memoryMB := m.memory / MEBIBYTE;
    } else if c.memory > 0 {
      memoryMB := c.memory / MEBIBYTE;
    }
    if memoryMB > 0 {
      options := options + [VmOption("memory", Number(memoryMB))];
    }
  }

  function MiscWanted(m: MachineSpec, s: Settings): set<VmOption> {
    When(m.imageID != "", "cdrom", Word(m.imageID))
    + When(m.name != "", "name", Word(m.name))
    + When(s.agent, "agent", Number(1))
    + When(s.startOnCreate, "start", Number(1))
  }

  /** `buildOSOptions` followed by `buildMiscOptions`. */
  method BuildOsAndMiscOptions(m: MachineSpec, s: Settings) returns (options: seq<VmOption>)
    ensures Distinct(options) && Elements(options) == MiscWanted(m, s)
  {
    options := [];
    if m.imageID != "" {
      options := options + [VmOption("cdrom", Word(m.imageID))];
    }
    if m.name != "" {
      options := options + [VmOption("name", Word(m.name))];
    }
    if s.agent {
      options := options + [VmOption("agent", Number(1))];
    }
    if s.startOnCreate {
      options := options + [VmOption("start", Number(1))];
    }
  }

  // ----- Storage

  function SlotName(i: nat): string {
    "scsi" + Itoa(i)
  }

  lemma SlotNameInjective(i: nat, j: nat)
    requires SlotName(i) == SlotName(j)
    ensures i == j
  {
    assert SlotName(i)[4..] == Itoa(i) && SlotName(j)[4..] == Itoa(j);
    ItoaInjective(i, j);
  }

  lemma SlotNameZero()
    ensures SlotName(0) == SCSI0
  {
    assert Itoa(0) == NatText(0) == [DigitChar(0)];
  }

  /** What tells the storage names from all other option names. */
  predicate StorageLike(name: string) {
    |name| >= 2 && name[0] == 's' && name[1] == 'c'
  }

  lemma SlotNameShape(i: nat)
    ensures StorageLike(SlotName(i))
    ensures SlotName(i) != "scsihw"
  {
    assert SlotName(i)[4] == NatText(i)[0];
    assert "scsihw"[4] == 'h';
  }

  predicate WantsScsi0(d: Disk) {
    d.name == "root" || d.boot
  }

  function DiskValue(pool: string, sizeGB: int): string {
    pool + ":" + Itoa(if sizeGB == 0 then DEFAULT_DISK_SIZE_GB else sizeGB)
  }

  function DiskOption(pool: string, i: nat, sizeGB: int): VmOption {
    VmOption(SlotName(i), Word(DiskValue(pool, sizeGB)))
  }

  /** The option, if any, that disk i is turned into; disk 0 goes to `scsi0` whatever it is called. */
  function DiskWanted(disks: seq<Disk>, pool: string, i: nat): set<VmOption>
    requires i < |disks|
  {
    if i > 0 && WantsScsi0(disks[i]) then {} else {DiskOption(pool, i, disks[i].sizeGB)}
  }

  function DisksUpTo(disks: seq<Disk>, pool: string, n: nat): set<VmOption>
    requires n <= |disks|
  {
    if n == 0 then {} else DisksUpTo(disks, pool, n - 1) + DiskWanted(disks, pool, n - 1)
  }

  /** With no disk in the spec, a 50 GB boot disk. */
  function DisksWanted(disks: seq<Disk>, pool: string): set<VmOption> {
    if disks == [] then {DiskOption(pool, 0, 0)} else DisksUpTo(disks, pool, |disks|)
  }

  function Controller(s: Settings): set<VmOption> {
    When(s.scsiController != "", "scsihw", Word(s.scsiController))
  }

  function StorageWanted(disks: seq<Disk>, s: Settings): set<VmOption> {
    Controller(s) + DisksWanted(disks, s.storagePool)
  }

  /** Membership, disk by disk: `scsi{i}` is there exactly when disk i is the first or does not ask for `scsi0`. */
  lemma {:induction false} DisksUpToMeaning(disks: seq<Disk>, pool: string, n: nat, o: VmOption)
    requires n <= |disks|
    ensures o in DisksUpTo(disks, pool, n) <==> exists i: nat | i < n :: o in DiskWanted(disks, pool, i)
  {
    hide DiskWanted;
    if n > 0 {
      DisksUpToMeaning(disks, pool, n - 1, o);
      if o in DiskWanted(disks, pool, n - 1) {
        assert o in DisksUpTo(disks, pool, n);
      }
    }
  }

  lemma StorageNames(disks: seq<Disk>, s: Settings, o: VmOption)
    requires o in StorageWanted(disks, s)
    ensures StorageLike(o.name)
  {
    if o in DisksWanted(disks, s.storagePool) {
      SlotNameShape(0);
      if disks != [] {
        DisksUpToMeaning(disks, s.storagePool, |disks|, o);
        var i: nat :| i < |disks| && o in DiskWanted(disks, s.storagePool, i);
        SlotNameShape(i);
      }
    } else {
      assert "scsihw"[0] == 's' && "scsihw"[1] == 'c';
    }
  }

  /** Slot n is not taken by the disks before n, nor by the controller setting. */
  lemma NewSlotIsFresh(disks: seq<Disk>, s: Settings, n: nat)
    requires n <= |disks|
    ensures SlotName(n) !in Names(Controller(s) + DisksUpTo(disks, s.storagePool, n))
  {
    hide SlotName;
    SlotNameShape(n);
    forall o | o in DisksUpTo(disks, s.storagePool, n)
      ensures o.name != SlotName(n)
    {
      EarlierDisk(disks, s.storagePool, n, o);
    }
  }

  lemma EarlierDisk(disks: seq<Disk>, pool: string, n: nat, o: VmOption)
    requires n <= |disks| && o in DisksUpTo(disks, pool, n)
    ensures o.name != SlotName(n)
  {
    hide SlotName;
    DisksUpToMeaning(disks, pool, n, o);
    var i: nat :| i < n && o in DiskWanted(disks, pool, i);
    if SlotName(i) == SlotName(n) {
      SlotNameInjective(i, n);
    }
  }

  /** What one turn of the loop adds for a disk that gets its slot. */
  lemma DiskAdded(disks: seq<Disk>, s: Settings, i: nat, options: seq<VmOption>)
    requires i < |disks| && (i == 0 || !WantsScsi0(disks[i]))
    requires Distinct(options) && Elements(options) == Controller(s) + DisksUpTo(disks, s.storagePool, i)
    ensures var option := DiskOption(s.storagePool, i, disks[i].sizeGB);
      && Distinct(options + [option])
      && Elements(options + [option]) == Controller(s) + DisksUpTo(disks, s.storagePool, i + 1)
  {
    hide Distinct, Elements, Names, SlotName, DiskValue, Controller;
    NewSlotIsFresh(disks, s, i);
    Append1(options, DiskOption(s.storagePool, i, disks[i].sizeGB));
  }

  /** The default disk of a spec without disks. */
  lemma DefaultDiskAdded(s: Settings, options: seq<VmOption>)
    requires Distinct(options) && Elements(options) == Controller(s) + DisksUpTo([], s.storagePool, 0)
    ensures var option := DiskOption(s.storagePool, 0, 0);
      Distinct(options + [option]) && Elements(options + [option]) == StorageWanted([], s)
  {
    hide Distinct, Elements, Names, SlotName, DiskValue, Controller;
    NewSlotIsFresh([], s, 0);
    Append1(options, DiskOption(s.storagePool, 0, 0));
  }

  /** `buildStorageOptions`: the loop with the `diskCreated` flag. */
  method BuildStorageOptions(disks: seq<Disk>, s: Settings) returns (options: seq<VmOption>)
    ensures Distinct(options) && Elements(options) == StorageWanted(disks, s)
  {
    hide DisksUpTo, Names, Itoa;
    options := [];
    if s.scsiController != "" {
      options := options + [VmOption("scsihw", Word(s.scsiController))];
    }
    assert Distinct(options) && Elements(options) == Controller(s);
    var diskCreated := false;
    SlotNameZero();
    NothingYet(disks, s.storagePool);
    hide Distinct, Elements, Controller;
    for i := 0 to |disks|
      invariant diskCreated <==> i > 0
      invariant Distinct(options)
      invariant Elements(options) == Controller(s) + DisksUpTo(disks, s.storagePool, i)
    {
      var sizeGB := disks[i].sizeGB;
      if sizeGB == 0 {
        sizeGB := DEFAULT_DISK_SIZE_GB;
      }
      var diskSlot;
      if disks[i].name == "root" || disks[i].boot || i == 0 {
        diskSlot := SCSI0;
      } else {
        diskSlot := "scsi" + Itoa(i);
        NotScsi0(i);
      }
      if diskSlot == SCSI0 && diskCreated {
        DiskSkipped(disks, s.storagePool, i);
        continue;
      }
      DiskAdded(disks, s, i, options);
      options := options + [VmOption(diskSlot, Word(s.storagePool + ":" + Itoa(sizeGB)))];
      if diskSlot == SCSI0 {
        diskCreated := true;
      }
    }
    if !diskCreated && |disks| == 0 {
      DefaultDiskAdded(s, options);
      options := options + [VmOption(SCSI0, Word(s.storagePool + ":" + Itoa(DEFAULT_DISK_SIZE_GB)))];
    }
  }

  lemma NothingYet(disks: seq<Disk>, pool: string)
    ensures DisksUpTo(disks, pool, 0) == {}
  {
  }

  lemma DiskSkipped(disks: seq<Disk>, pool: string, i: nat)
    requires 0 < i < |disks| && WantsScsi0(disks[i])
    ensures DisksUpTo(disks, pool, i + 1) == DisksUpTo(disks, pool, i)
  {
  }

  lemma NotScsi0(i: nat)
    requires i > 0
    ensures SlotName(i) != SCSI0
  {
    SlotNameZero();
    if SlotName(i) == SlotName(0) {
      SlotNameInjective(i, 0);
    }
  }

  // ----- Network

  function Mtu(net: NetworkConfig, s: Settings): int {
    if net.mtu == 0 then s.defaultMtu else net.mtu
  }

  function Model(s: Settings): string {
    if s.networkModel == "" then "virtio" else s.networkModel
  }

  function Labelled(key: string, text: string): string {
    key + "=" + text
  }

  function Part(present: bool, key: string, text: string): seq<string> {
    if present then [Labelled(key, text)] else []
  }

  const MACADDR := "macaddr"
  const TAG := "tag"

  /** The optional parts of the `net0` value, after the model and the bridge. */
  function NetExtras(net: NetworkConfig, s: Settings): seq<string> {
    Part(net.mac != "", MACADDR, net.mac)
    + Part(net.vlan > 0, TAG, Itoa(net.vlan))
    + Part(Mtu(net, s) > 0, "mtu", Itoa(Mtu(net, s)))
  }

  /** The comma-separated parts of the `net0` value. */
  function NetParts(net: NetworkConfig, s: Settings): seq<string> {
    [Model(s), Labelled("bridge", s.bridge)] + NetExtras(net, s)
  }

  function NetWanted(m: MachineSpec, net: NetworkConfig, s: Settings): set<VmOption> {
    When(m.interfaces > 0 || net.mac != "", NET0, Word(Join(NetParts(net, s), ',')))
  }

  lemma {:induction false} JoinSnoc(parts: seq<string>, last: string, sep: char)
    requires |parts| >= 1
    ensures Join(parts + [last], sep) == Join(parts, sep) + [sep] + last
  {
    if |parts| == 1 {
      assert (parts + [last])[1..] == [last];
    } else {
      JoinSnoc(parts[1..], last, sep);
      assert (parts + [last])[1..] == parts[1..] + [last];
    }
  }

  /** One `value = fmt.Sprintf("%s,key=%s", value, text)` under its guard. */
  method Extend(value: string, ghost parts: seq<string>, present: bool, key: string, text: string)
    returns (extended: string)
    requires |parts| >= 1 && value == Join(parts, ',')
    ensures extended == Join(parts + Part(present, key, text), ',')
  {
    extended := value;
    if present {
      JoinSnoc(parts, Labelled(key, text), ',');
      extended := value + "," + (key + "=" + text);
    } else {
      assert parts + [] == parts;
    }
  }

  /** `buildNetworkOptions`. */
  method BuildNetworkOptions(m: MachineSpec, net: NetworkConfig, s: Settings) returns (options: seq<VmOption>)
    ensures Distinct(options) && Elements(options) == NetWanted(m, net, s)
  {
    options := [];
    if m.interfaces > 0 || net.mac != "" {
      var value := NetValue(net, s);
      options := options + [VmOption(NET0, Word(value))];
    }
  }

  lemma Regroup(a: seq<string>, b: seq<string>, c: seq<string>, d: seq<string>, e: seq<string>)
    ensures a + b + c + d + e == (a + b) + (c + d + e)
  {
  }

  method NetValue(net: NetworkConfig, s: Settings) returns (value: string)
    ensures value == Join(NetParts(net, s), ',')
  {
    var model := s.networkModel;
    if model == "" {
      model := "virtio";
    }
    var mtu := net.mtu;
    if mtu == 0 {
      mtu := s.defaultMtu;
    }
    ghost var macPart := Part(net.mac != "", MACADDR, net.mac);
    ghost var tagPart := Part(net.vlan > 0, TAG, Itoa(net.vlan));
    ghost var mtuPart := Part(mtu > 0, "mtu", Itoa(mtu));
    ghost var head := [model] + Part(true, "bridge", s.bridge);
    value := Extend(model, [model], true, "bridge", s.bridge);
    value := Extend(value, head, net.mac != "", MACADDR, net.mac);
    value := Extend(value, head + macPart, net.vlan > 0, TAG, Itoa(net.vlan));
    value := Extend(value, head + macPart + tagPart, mtu > 0, "mtu", Itoa(mtu));
    Regroup([model], Part(true, "bridge", s.bridge), macPart, tagPart, mtuPart);
    assert [Model(s), Labelled("bridge", s.bridge)] == [model] + Part(true, "bridge", s.bridge);
  }

  /** How Proxmox reads one field of a `net0` value: the first part after the model that starts with `key=`. */
  function Field(value: string, key: string): Option<string> {
    FieldIn(Split(value, ',')[1..], key)
  }

  function FieldIn(parts: seq<string>, key: string): Option<string> {
    if parts == [] then None
    else if Labelled(key, "") <= parts[0] then Some(parts[0][|key| + 1..])
    else FieldIn(parts[1..], key)
  }

  /** No setting smuggles a comma into the `net0` value. */
  predicate CommaFree(net: NetworkConfig, s: Settings) {
    ',' !in s.networkModel && ',' !in s.bridge && ',' !in net.mac
  }

  lemma ReadLabelled(key: string, text: string, rest: seq<string>)
    ensures FieldIn([Labelled(key, text)] + rest, key) == Some(text)
  {
    assert Labelled(key, text)[|key| + 1..] == text;
  }

  /** A part under another key is passed over, when the keys differ within the shorter one. */
  lemma SkipLabelled(present: bool, other: string, text: string, rest: seq<string>, key: string, at: nat)
    requires at < |key| && at < |other| && key[at] != other[at]
    ensures FieldIn(Part(present, other, text) + rest, key) == FieldIn(rest, key)
  {
    if present {
      assert Labelled(other, text)[at] == other[at] && Labelled(key, "")[at] == key[at];
      assert (Part(present, other, text) + rest)[1..] == rest;
    } else {
      assert Part(present, other, text) + rest == rest;
    }
  }

  lemma ExtrasReadBack(net: NetworkConfig, s: Settings)
    ensures FieldIn(NetExtras(net, s), MACADDR) == (if net.mac != "" then Some(net.mac) else None)
    ensures FieldIn(NetExtras(net, s), TAG) == (if net.vlan > 0 then Some(Itoa(net.vlan)) else None)
  {
    var mac := Part(net.mac != "", MACADDR, net.mac);
    var tag := Part(net.vlan > 0, TAG, Itoa(net.vlan));
    var mtu := Part(Mtu(net, s) > 0, "mtu", Itoa(Mtu(net, s)));
    assert mtu + [] == mtu && NetExtras(net, s) == mac + (tag + mtu);
    SkipLabelled(Mtu(net, s) > 0, "mtu", Itoa(Mtu(net, s)), [], MACADDR, 1);
    SkipLabelled(Mtu(net, s) > 0, "mtu", Itoa(Mtu(net, s)), [], TAG, 0);
    SkipLabelled(net.vlan > 0, TAG, Itoa(net.vlan), mtu, MACADDR, 0);
    SkipLabelled(net.mac != "", MACADDR, net.mac, tag + mtu, TAG, 0);
    if net.mac != "" {
      ReadLabelled(MACADDR, net.mac, tag + mtu);
    } else {
      assert mac + (tag + mtu) == tag + mtu;
    }
    if net.vlan > 0 {
      ReadLabelled(TAG, Itoa(net.vlan), mtu);
    } else {
      assert tag + mtu == mtu;
    }
  }

  /** Proxmox reads the MAC and the VLAN tag that the configuration asked for, and no tag when the VLAN is 0. */
  lemma NetValueReadsBack(net: NetworkConfig, s: Settings)
    requires CommaFree(net, s)
    ensures var value := Join(NetParts(net, s), ',');
      && Field(value, MACADDR) == (if net.mac != "" then Some(net.mac) else None)
      && Field(value, TAG) == (if net.vlan > 0 then Some(Itoa(net.vlan)) else None)
  {
    var parts := NetParts(net, s);
    ItoaChars(net.vlan);
    ItoaChars(Mtu(net, s));
    PartsCommaFree(net, s);
    SplitJoin(parts, ',');
    assert parts[1..] == Part(true, "bridge", s.bridge) + NetExtras(net, s);
    SkipLabelled(true, "bridge", s.bridge, NetExtras(net, s), MACADDR, 0);
    SkipLabelled(true, "bridge", s.bridge, NetExtras(net, s), TAG, 0);
    ExtrasReadBack(net, s);
  }

  lemma LabelledCommaFree(present: bool, key: string, text: string)
    requires ',' !in key && ',' !in text
    ensures forall part :: part in Part(present, key, text) ==> ',' !in part
  {
  }

  lemma PartsCommaFree(net: NetworkConfig, s: Settings)
    requires CommaFree(net, s)
    ensures forall part :: part in NetParts(net, s) ==> ',' !in part
  {
    ItoaChars(net.vlan);
    ItoaChars(Mtu(net, s));
    LabelledCommaFree(true, "bridge", s.bridge);
    LabelledCommaFree(net.mac != "", MACADDR, net.mac);
    LabelledCommaFree(net.vlan > 0, TAG, Itoa(net.vlan));
    LabelledCommaFree(Mtu(net, s) > 0, "mtu", Itoa(Mtu(net, s)));
    assert Labelled("bridge", s.bridge) in Part(true, "bridge", s.bridge);
  }

  // ----- The whole list

  function Wanted(m: MachineSpec, c: ClassSpec, net: NetworkConfig, s: Settings): set<VmOption> {
    CpuWanted(m, c, s) + MemoryWanted(m, c) + StorageWanted(m.disks, s) + NetWanted(m, net, s) + MiscWanted(m, s)
  }

  const CPU_NAMES: set<string> := {"cores", "cpu", "numa"}
  const MEMORY_NAMES: set<string> := {"memory"}
  const NET_NAMES: set<string> := {NET0}
  const MISC_NAMES: set<string> := {"cdrom", "name", "agent", "start"}
  const OTHER_NAMES: set<string> := CPU_NAMES + MEMORY_NAMES + NET_NAMES + MISC_NAMES

  lemma OtherNamesApart(name: string)
    requires name in OTHER_NAMES
    ensures !StorageLike(name)
  {
    assert "start"[1] == 't';
    assert "cores"[0] == 'c' && "cpu"[0] == 'c' && "cdrom"[0] == 'c' && "agent"[0] == 'a' && "memory"[0] == 'm';
    assert "numa"[0] == 'n' && "net0"[0] == 'n' && "name"[0] == 'n';
  }

  lemma StorageApart(disks: seq<Disk>, s: Settings)
    ensures Names(StorageWanted(disks, s)) !! OTHER_NAMES
  {
    forall name | name in Names(StorageWanted(disks, s))
      ensures name !in OTHER_NAMES
    {
      var o :| o in StorageWanted(disks, s) && o.name == name;
      StorageNames(disks, s, o);
      if name in OTHER_NAMES {
        OtherNamesApart(name);
      }
    }
  }

  lemma NamesOfWhen(present: bool, name: string, value: Value)
    ensures Names(When(present, name, value)) <= {name}
  {
  }

  lemma NamesOfUnion(a: set<VmOption>, b: set<VmOption>)
    ensures Names(a + b) == Names(a) + Names(b)
  {
  }

  lemma CpuNames(m: MachineSpec, c: ClassSpec, s: Settings)
    ensures Names(CpuWanted(m, c, s)) <= CPU_NAMES
  {
    hide When, Names;
    var cores := When(m.cores > 0 || c.cores > 0, "cores", Number(if m.cores > 0 then m.cores else c.cores));
    var cpu := When(s.cpuType != "", "cpu", Word(s.cpuType));
    var numa := When(s.numa, "numa", Number(1));
    NamesOfWhen(m.cores > 0 || c.cores > 0, "cores", Number(if m.cores > 0 then m.cores else c.cores));
    NamesOfWhen(s.cpuType != "", "cpu", Word(s.cpuType));
    NamesOfWhen(s.numa, "numa", Number(1));
    NamesOfUnion(cores, cpu);
    NamesOfUnion(cores + cpu, numa);
  }

  lemma MiscNames(m: MachineSpec, s: Settings)
    ensures Names(MiscWanted(m, s)) <= MISC_NAMES
  {
    hide When, Names;
    var cdrom := When(m.imageID != "", "cdrom", Word(m.imageID));
    var name := When(m.name != "", "name", Word(m.name));
    var agent := When(s.agent, "agent", Number(1));
    var start := When(s.startOnCreate, "start", Number(1));
    NamesOfWhen(m.imageID != "", "cdrom", Word(m.imageID));
    NamesOfWhen(m.name != "", "name", Word(m.name));
    NamesOfWhen(s.agent, "agent", Number(1));
    NamesOfWhen(s.startOnCreate, "start", Number(1));
    NamesOfUnion(cdrom, name);
    NamesOfUnion(cdrom + name, agent);
    NamesOfUnion(cdrom + name + agent, start);
  }

  lemma SmallNames(m: MachineSpec, c: ClassSpec, net: NetworkConfig, s: Settings)
    ensures Names(CpuWanted(m, c, s)) <= CPU_NAMES
    ensures Names(MemoryWanted(m, c)) <= MEMORY_NAMES
    ensures Names(NetWanted(m, net, s)) <= NET_NAMES
    ensures Names(MiscWanted(m, s)) <= MISC_NAMES
  {
    hide When, Names, CpuWanted, MiscWanted;
    CpuNames(m, c, s);
    MiscNames(m, s);
    NamesOfWhen(MemoryMB(m, c) > 0, "memory", Number(MemoryMB(m, c)));
    NamesOfWhen(m.interfaces > 0 || net.mac != "", NET0, Word(Join(NetParts(net, s), ',')));
  }

  lemma GroupsApart()
    ensures CPU_NAMES !! MEMORY_NAMES !! NET_NAMES !! MISC_NAMES
  {
    assert |"cores"| == 5 && |"cpu"| == 3 && |"numa"| == 4 && |"memory"| == 6 && |"net0"| == 4;
    assert |"cdrom"| == 5 && |"name"| == 4 && |"agent"| == 5 && |"start"| == 5;
    assert "numa"[1] == 'u' && "net0"[1] == 'e' && "name"[1] == 'a';
    assert "cores"[1] == 'o' && "cdrom"[1] == 'd' && "agent"[1] == 'g' && "start"[1] == 't';
  }

  /**
   `BuildOptions`: for every machine, class, network configuration and settings the
   list names each option once and holds exactly the wanted options.
   */
  method BuildOptions(m: MachineSpec, c: ClassSpec, net: NetworkConfig, s: Settings)
    returns (options: seq<VmOption>)
    ensures Distinct(options)
    ensures Elements(options) == Wanted(m, c, net, s)
  {
    var cpu := BuildCpuOptions(m, c, s);
    var memory := BuildMemoryOptions(m, c);
    var storage := BuildStorageOptions(m.disks, s);
    var network := BuildNetworkOptions(m, net, s);
    var misc := BuildOsAndMiscOptions(m, s);
    StorageApart(m.disks, s);
    SmallNames(m, c, net, s);
    GroupsApart();
    Apart(Names(Elements(cpu)), Names(Elements(memory)), Names(Elements(storage)), Names(Elements(network)),
          Names(Elements(misc)), CPU_NAMES, MEMORY_NAMES, NET_NAMES, MISC_NAMES);
    FiveParts(cpu, memory, storage, network, misc);
    options := cpu + memory + storage + network + misc;
  }

  lemma Apart(a: set<string>, b: set<string>, c: set<string>, d: set<string>, e: set<string>,
              a': set<string>, b': set<string>, d': set<string>, e': set<string>)
    requires a <= a' && b <= b' && d <= d' && e <= e'
    requires a' !! b' !! d' !! e'
    requires c !! (a' + b' + d' + e')
    ensures a !! b !! c !! d !! e
  {
  }

  lemma FiveParts(a: seq<VmOption>, b: seq<VmOption>, c: seq<VmOption>, d: seq<VmOption>, e: seq<VmOption>)
    requires Distinct(a) && Distinct(b) && Distinct(c) && Distinct(d) && Distinct(e)
    requires Names(Elements(a)) !! Names(Elements(b)) !! Names(Elements(c)) !! Names(Elements(d)) !! Names(Elements(e))
    ensures Distinct(a + b + c + d + e)
    ensures Elements(a + b + c + d + e) == Elements(a) + Elements(b) + Elements(c) + Elements(d) + Elements(e)
  {
    Append(a, b);
    Append(a + b, c);
    Append(a + b + c, d);
    Append(a + b + c + d, e);
  }

  /** Disk i gets a slot: the first one always, later ones unless they ask for `scsi0`. */
  predicate Placed(disks: seq<Disk>, i: nat) {
    i == 0 || (i < |disks| && !WantsScsi0(disks[i]))
  }

  function PlacedOption(disks: seq<Disk>, pool: string, i: nat): VmOption {
    DiskOption(pool, i, if i < |disks| then disks[i].sizeGB else 0)
  }

  /** The disk options are those of the placed disks; with no disk at all, the default one. */
  lemma DisksWantedMeaning(disks: seq<Disk>, pool: string, o: VmOption)
    ensures o in DisksWanted(disks, pool) <==> exists i: nat :: Placed(disks, i) && o == PlacedOption(disks, pool, i)
  {
    if disks == [] {
      assert Placed(disks, 0) && PlacedOption(disks, pool, 0) == DiskOption(pool, 0, 0);
    } else {
      DisksUpToMeaning(disks, pool, |disks|, o);
      if o in DisksWanted(disks, pool) {
        var i: nat :| i < |disks| && o in DiskWanted(disks, pool, i);
        assert Placed(disks, i) && o == PlacedOption(disks, pool, i);
      }
      forall i: nat | Placed(disks, i) && o == PlacedOption(disks, pool, i)
        ensures o in DisksWanted(disks, pool)
      {
        assert o in DiskWanted(disks, pool, i);
      }
    }
  }

  /** The slots taken are exactly `scsi0` and `scsi{i}` for each later disk that does not ask for `scsi0`. */
  lemma SlotsAreExactly(disks: seq<Disk>, s: Settings, i: nat)
    ensures SlotName(i) in Names(StorageWanted(disks, s)) <==> Placed(disks, i)
  {
    hide SlotName, DisksWanted, DiskValue;
    SlotNameShape(i);
    var own := PlacedOption(disks, s.storagePool, i);
    if Placed(disks, i) {
      DisksWantedMeaning(disks, s.storagePool, own);
      assert own in StorageWanted(disks, s) && own.name == SlotName(i);
    }
    if SlotName(i) in Names(StorageWanted(disks, s)) {
      var o :| o in StorageWanted(disks, s) && o.name == SlotName(i);
      DisksWantedMeaning(disks, s.storagePool, o);
      var j: nat :| Placed(disks, j) && o == PlacedOption(disks, s.storagePool, j);
      SlotNameInjective(i, j);
    }
  }

  /** A boot disk that is not the first disk never reaches `scsi0`: no option carries it. */
  lemma LateBootDiskIsDropped(disks: seq<Disk>, s: Settings, n: nat, o: VmOption)
    requires 1 <= n < |disks| && WantsScsi0(disks[n])
    requires o in StorageWanted(disks, s)
    ensures o.name != SlotName(n)
    ensures o.name == SCSI0 ==> o == DiskOption(s.storagePool, 0, disks[0].sizeGB)
  {
    SlotNameZero();
    SlotNameShape(n);
    SlotNameShape(0);
    if o in DisksWanted(disks, s.storagePool) {
      DisksUpToMeaning(disks, s.storagePool, |disks|, o);
      var i: nat :| i < |disks| && o in DiskWanted(disks, s.storagePool, i);
      if o.name == SlotName(n) {
        SlotNameInjective(i, n);
      } else if o.name == SlotName(0) {
        SlotNameInjective(i, 0);
      }
    }
  }
}
