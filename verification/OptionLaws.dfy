/** What each option of the list is, name by name, said of the machine, its class and the settings. */
module OptionLaws {
  import opened Wrappers
  import opened Text
  import opened VmBuilder

  /** The options give this name exactly this value, or none. */
  ghost predicate Gives(options: set<VmOption>, name: string, value: Option<Value>) {
    forall v :: VmOption(name, v) in options <==> value == Some(v)
  }

  lemma WhenGives(present: bool, name: string, value: Value, asked: string)
    ensures Gives(When(present, name, value), asked, if present && asked == name then Some(value) else None)
  {
  }

  lemma GivesUnion(a: set<VmOption>, b: set<VmOption>, name: string, x: Option<Value>, y: Option<Value>)
    requires Gives(a, name, x) && Gives(b, name, y) && (x == None || y == None)
    ensures Gives(a + b, name, if x.Some? then x else y)
  {
  }

  lemma GivesNothing(options: set<VmOption>, name: string)
    requires name !in Names(options)
    ensures Gives(options, name, None)
  {
    assert forall o :: o in options ==> o.name in Names(options);
  }

  lemma OneGroup(m: MachineSpec, c: ClassSpec, net: NetworkConfig, s: Settings, name: string, value: Option<Value>)
    requires name in OTHER_NAMES
    requires Gives(CpuWanted(m, c, s) + MemoryWanted(m, c) + NetWanted(m, net, s) + MiscWanted(m, s), name, value)
    ensures Gives(Wanted(m, c, net, s), name, value)
  {
    hide CpuWanted, MemoryWanted, NetWanted, MiscWanted, StorageWanted, Names;
    StorageApart(m.disks, s);
    GivesNothing(StorageWanted(m.disks, s), name);
  }

  /** The four groups of single settings. */
  function Groups(m: MachineSpec, c: ClassSpec, net: NetworkConfig, s: Settings): set<VmOption> {
    CpuWanted(m, c, s) + MemoryWanted(m, c) + NetWanted(m, net, s) + MiscWanted(m, s)
  }

  lemma CpuGroup(m: MachineSpec, c: ClassSpec, net: NetworkConfig, s: Settings, name: string, value: Option<Value>)
    requires name in CPU_NAMES && Gives(CpuWanted(m, c, s), name, value)
    ensures Gives(Wanted(m, c, net, s), name, value)
  {
    hide CpuWanted, MemoryWanted, NetWanted, MiscWanted, Names, CPU_NAMES, MEMORY_NAMES, NET_NAMES, MISC_NAMES;
    SmallNames(m, c, net, s);
    GroupsApart();
    GivesNothing(MemoryWanted(m, c), name);
    GivesNothing(NetWanted(m, net, s), name);
    GivesNothing(MiscWanted(m, s), name);
    OneGroup(m, c, net, s, name, value);
  }

  lemma MemoryGroup(m: MachineSpec, c: ClassSpec, net: NetworkConfig, s: Settings, name: string, value: Option<Value>)
    requires name in MEMORY_NAMES && Gives(MemoryWanted(m, c), name, value)
    ensures Gives(Wanted(m, c, net, s), name, value)
  {
    hide CpuWanted, MemoryWanted, NetWanted, MiscWanted, Names, CPU_NAMES, MEMORY_NAMES, NET_NAMES, MISC_NAMES;
    SmallNames(m, c, net, s);
    GroupsApart();
    GivesNothing(CpuWanted(m, c, s), name);
    GivesNothing(NetWanted(m, net, s), name);
    GivesNothing(MiscWanted(m, s), name);
    OneGroup(m, c, net, s, name, value);
  }

  lemma NetGroup(m: MachineSpec, c: ClassSpec, net: NetworkConfig, s: Settings, name: string, value: Option<Value>)
    requires name in NET_NAMES && Gives(NetWanted(m, net, s), name, value)
    ensures Gives(Wanted(m, c, net, s), name, value)
  {
    hide CpuWanted, MemoryWanted, NetWanted, MiscWanted, Names, CPU_NAMES, MEMORY_NAMES, NET_NAMES, MISC_NAMES;
    SmallNames(m, c, net, s);
    GroupsApart();
    GivesNothing(CpuWanted(m, c, s), name);
    GivesNothing(MemoryWanted(m, c), name);
    GivesNothing(MiscWanted(m, s), name);
    OneGroup(m, c, net, s, name, value);
  }

  lemma MiscGroup(m: MachineSpec, c: ClassSpec, net: NetworkConfig, s: Settings, name: string, value: Option<Value>)
    requires name in MISC_NAMES && Gives(MiscWanted(m, s), name, value)
    ensures Gives(Wanted(m, c, net, s), name, value)
  {
    hide CpuWanted, MemoryWanted, NetWanted, MiscWanted, Names, CPU_NAMES, MEMORY_NAMES, NET_NAMES, MISC_NAMES;
    SmallNames(m, c, net, s);
    GroupsApart();
    GivesNothing(CpuWanted(m, c, s), name);
    GivesNothing(MemoryWanted(m, c), name);
    GivesNothing(NetWanted(m, net, s), name);
    OneGroup(m, c, net, s, name, value);
  }

  // ----- Name by name

  lemma CpuGives(m: MachineSpec, c: ClassSpec, s: Settings, name: string, value: Option<Value>)
    requires name in CPU_NAMES
    requires value ==
      if name == "cores" then
        if m.cores > 0 then Some(Number(m.cores)) else if c.cores > 0 then Some(Number(c.cores)) else None
      else if name == "cpu" then if s.cpuType != "" then Some(Word(s.cpuType)) else None
      else if s.numa then Some(Number(1)) else None
    ensures Gives(CpuWanted(m, c, s), name, value)
  {
    hide When, Gives;
    var cores := if m.cores > 0 then m.cores else c.cores;
    WhenGives(m.cores > 0 || c.cores > 0, "cores", Number(cores), name);
    WhenGives(s.cpuType != "", "cpu", Word(s.cpuType), name);
    WhenGives(s.numa, "numa", Number(1), name);
    var x := if (m.cores > 0 || c.cores > 0) && name == "cores" then Some(Number(cores)) else None;
    var y := if s.cpuType != "" && name == "cpu" then Some(Word(s.cpuType)) else None;
    var z := if s.numa && name == "numa" then Some(Number(1)) else None;
    assert "cores" != "cpu" by { assert |"cores"| == 5 && |"cpu"| == 3; }
    assert "numa" != "cpu" && "numa" != "cores" by { assert |"cores"| == 5 && |"cpu"| == 3 && |"numa"| == 4; }
    GivesUnion(When(m.cores > 0 || c.cores > 0, "cores", Number(cores)),
               When(s.cpuType != "", "cpu", Word(s.cpuType)), name, x, y);
    GivesUnion(When(m.cores > 0 || c.cores > 0, "cores", Number(cores)) + When(s.cpuType != "", "cpu", Word(s.cpuType)),
               When(s.numa, "numa", Number(1)), name, if x.Some? then x else y, z);
  }

  /** Cores: the machine's when it names any, else the class's. CPU type and NUMA as the settings say. */
  lemma CpuIsGiven(m: MachineSpec, c: ClassSpec, net: NetworkConfig, s: Settings)
    ensures Gives(Wanted(m, c, net, s), "cores",
      if m.cores > 0 then Some(Number(m.cores)) else if c.cores > 0 then Some(Number(c.cores)) else None)
    ensures Gives(Wanted(m, c, net, s), "cpu", if s.cpuType != "" then Some(Word(s.cpuType)) else None)
    ensures Gives(Wanted(m, c, net, s), "numa", if s.numa then Some(Number(1)) else None)
  {
    hide Gives, Wanted, CpuWanted;
    var cores :=
      if m.cores > 0 then Some(Number(m.cores)) else if c.cores > 0 then Some(Number(c.cores)) else None;
    var cpu := if s.cpuType != "" then Some(Word(s.cpuType)) else None;
    var numa := if s.numa then Some(Number(1)) else None;
    assert "numa" != "cpu" && "numa" != "cores" && "cores" != "cpu" by {
      assert |"cores"| == 5 && |"cpu"| == 3 && |"numa"| == 4;
    }
    CpuGives(m, c, s, "cores", cores);
    CpuGroup(m, c, net, s, "cores", cores);
    CpuGives(m, c, s, "cpu", cpu);
    CpuGroup(m, c, net, s, "cpu", cpu);
    CpuGives(m, c, s, "numa", numa);
    CpuGroup(m, c, net, s, "numa", numa);
  }

  /**
   Memory in whole mebibytes: the machine's bytes when it names any, else the class's. A
   machine that names less than one mebibyte gets no option, whatever its class says.
   */
  lemma MemoryIsGiven(m: MachineSpec, c: ClassSpec, net: NetworkConfig, s: Settings)
    ensures var bytes := if m.memory > 0 then m.memory else c.memory;
      Gives(Wanted(m, c, net, s), "memory", if bytes >= 1048576 then Some(Number(bytes / 1048576)) else None)
  {
    hide Wanted, When, Gives;
    var mb := MemoryMB(m, c);
    var value := if mb > 0 then Some(Number(mb)) else None;
    WhenGives(mb > 0, "memory", Number(mb), "memory");
    MemoryGroup(m, c, net, s, "memory", value);
  }

  lemma MiscGives(m: MachineSpec, s: Settings, name: string, value: Option<Value>)
    requires name in MISC_NAMES
    requires value ==
      if name == "cdrom" then if m.imageID != "" then Some(Word(m.imageID)) else None
      else if name == "name" then if m.name != "" then Some(Word(m.name)) else None
      else if name == "agent" then if s.agent then Some(Number(1)) else None
      else if s.startOnCreate then Some(Number(1)) else None
    ensures Gives(MiscWanted(m, s), name, value)
  {
    hide When, Gives;
    var a, b := When(m.imageID != "", "cdrom", Word(m.imageID)), When(m.name != "", "name", Word(m.name));
    var d, e := When(s.agent, "agent", Number(1)), When(s.startOnCreate, "start", Number(1));
    WhenGives(m.imageID != "", "cdrom", Word(m.imageID), name);
    WhenGives(m.name != "", "name", Word(m.name), name);
    WhenGives(s.agent, "agent", Number(1), name);
    WhenGives(s.startOnCreate, "start", Number(1), name);
    MiscLiterals();
    var x := if m.imageID != "" && name == "cdrom" then Some(Word(m.imageID)) else None;
    var y := if m.name != "" && name == "name" then Some(Word(m.name)) else None;
    var z := if s.agent && name == "agent" then Some(Number(1)) else None;
    var u := if s.startOnCreate && name == "start" then Some(Number(1)) else None;
    GivesUnion(a, b, name, x, y);
    GivesUnion(a + b, d, name, if x.Some? then x else y, z);
    GivesUnion(a + b + d, e, name, if x.Some? then x else if y.Some? then y else z, u);
  }

  lemma MiscLiterals()
    ensures "cdrom" != "name" && "cdrom" != "agent" && "cdrom" != "start"
    ensures "name" != "agent" && "name" != "start" && "agent" != "start"
  {
    assert |"name"| == 4 && |"cdrom"| == 5 && |"agent"| == 5 && |"start"| == 5;
    assert "cdrom"[0] == 'c' && "agent"[0] == 'a' && "start"[0] == 's';
  }

  /** The image, the name, the guest agent and the start on creation. */
  lemma MiscIsGiven(m: MachineSpec, c: ClassSpec, net: NetworkConfig, s: Settings)
    ensures Gives(Wanted(m, c, net, s), "cdrom", if m.imageID != "" then Some(Word(m.imageID)) else None)
    ensures Gives(Wanted(m, c, net, s), "name", if m.name != "" then Some(Word(m.name)) else None)
    ensures Gives(Wanted(m, c, net, s), "agent", if s.agent then Some(Number(1)) else None)
    ensures Gives(Wanted(m, c, net, s), "start", if s.startOnCreate then Some(Number(1)) else None)
  {
    hide Gives, Wanted, MiscWanted;
    MiscLiterals();
    var cdrom := if m.imageID != "" then Some(Word(m.imageID)) else None;
    var name := if m.name != "" then Some(Word(m.name)) else None;
    var agent := if s.agent then Some(Number(1)) else None;
    var start := if s.startOnCreate then Some(Number(1)) else None;
    MiscGives(m, s, "cdrom", cdrom);
    MiscGroup(m, c, net, s, "cdrom", cdrom);
    MiscGives(m, s, "name", name);
    MiscGroup(m, c, net, s, "name", name);
    MiscGives(m, s, "agent", agent);
    MiscGroup(m, c, net, s, "agent", agent);
    MiscGives(m, s, "start", start);
    MiscGroup(m, c, net, s, "start", start);
  }

  // ----- The network device

  /** The `net0` value, character by character. */
  function Net0Text(net: NetworkConfig, s: Settings): string {
    (if s.networkModel == "" then "virtio" else s.networkModel)
    + (",bridge=" + s.bridge)
    + (if net.mac != "" then ",macaddr=" + net.mac else "")
    + (if net.vlan > 0 then ",tag=" + Itoa(net.vlan) else "")
    + (if net.mtu > 0 then ",mtu=" + Itoa(net.mtu)
       else if net.mtu == 0 && s.defaultMtu > 0 then ",mtu=" + Itoa(s.defaultMtu) else "")
  }

  lemma JoinPart(parts: seq<string>, present: bool, key: string, text: string, intro: string)
    requires |parts| >= 1 && intro == "," + key + "="
    ensures Join(parts + Part(present, key, text), ',') == Join(parts, ',') + if present then intro + text else ""
  {
    hide Join;
    if present {
      JoinSnoc(parts, Labelled(key, text), ',');
      assert [','] + (key + "=" + text) == intro + text;
    } else {
      assert parts + [] == parts;
    }
  }

  lemma NetPartsText(net: NetworkConfig, s: Settings)
    ensures Join(NetParts(net, s), ',') == Net0Text(net, s)
  {
    hide Join, Itoa, Part, Labelled, NetParts;
    var model := [Model(s)];
    var a := Part(true, "bridge", s.bridge);
    var b := Part(net.mac != "", MACADDR, net.mac);
    var d := Part(net.vlan > 0, TAG, Itoa(net.vlan));
    var e := Part(Mtu(net, s) > 0, "mtu", Itoa(Mtu(net, s)));
    JoinOne(Model(s));
    Labels();
    JoinPart(model, true, "bridge", s.bridge, ",bridge=");
    JoinPart(model + a, net.mac != "", MACADDR, net.mac, ",macaddr=");
    JoinPart(model + a + b, net.vlan > 0, TAG, Itoa(net.vlan), ",tag=");
    JoinPart(model + a + b + d, Mtu(net, s) > 0, "mtu", Itoa(Mtu(net, s)), ",mtu=");
    PartsInOrder(net, s);
  }

  lemma PartsInOrder(net: NetworkConfig, s: Settings)
    ensures NetParts(net, s) ==
      [Model(s)] + Part(true, "bridge", s.bridge) + Part(net.mac != "", MACADDR, net.mac)
      + Part(net.vlan > 0, TAG, Itoa(net.vlan)) + Part(Mtu(net, s) > 0, "mtu", Itoa(Mtu(net, s)))
  {
    hide Itoa, Labelled, Mtu;
  }

  lemma JoinOne(text: string)
    ensures Join([text], ',') == text
  {
  }

  lemma Labels()
    ensures "," + "bridge" + "=" == ",bridge=" && "," + MACADDR + "=" == ",macaddr="
    ensures "," + TAG + "=" == ",tag=" && "," + "mtu" + "=" == ",mtu="
  {
  }

  /** The network device: model, bridge, and MAC, VLAN tag and MTU where there are any. */
  lemma NetIsGiven(m: MachineSpec, c: ClassSpec, net: NetworkConfig, s: Settings)
    ensures Gives(Wanted(m, c, net, s), "net0",
      if m.interfaces > 0 || net.mac != "" then Some(Word(Net0Text(net, s))) else None)
  {
    hide Wanted, When, Gives, NetParts, Net0Text, Join;
    NetPartsText(net, s);
    var value := if m.interfaces > 0 || net.mac != "" then Some(Word(Net0Text(net, s))) else None;
    WhenGives(m.interfaces > 0 || net.mac != "", NET0, Word(Net0Text(net, s)), NET0);
    NetGroup(m, c, net, s, "net0", value);
  }

  // ----- Storage

  lemma StorageGroup(
      m: MachineSpec, c: ClassSpec, net: NetworkConfig, s: Settings, name: string, value: Option<Value>)
    requires StorageLike(name) && Gives(StorageWanted(m.disks, s), name, value)
    ensures Gives(Wanted(m, c, net, s), name, value)
  {
    hide CpuWanted, MemoryWanted, NetWanted, MiscWanted, StorageWanted, CPU_NAMES, MEMORY_NAMES, NET_NAMES, MISC_NAMES,
      Names, StorageLike;
    SmallNames(m, c, net, s);
    StorageIsNoOther(name);
    GivesNothing(CpuWanted(m, c, s), name);
    GivesNothing(MemoryWanted(m, c), name);
    GivesNothing(NetWanted(m, net, s), name);
    GivesNothing(MiscWanted(m, s), name);
  }

  lemma StorageIsNoOther(name: string)
    requires StorageLike(name)
    ensures name !in CPU_NAMES && name !in MEMORY_NAMES && name !in NET_NAMES && name !in MISC_NAMES
  {
    hide StorageLike, CPU_NAMES, MEMORY_NAMES, NET_NAMES, MISC_NAMES;
    if name in OTHER_NAMES {
      OtherNamesApart(name);
    }
  }

  /**
   The disks: disk i has the option `scsi<i>` with the pool and its size in gigabytes, 50
   when it names none, if it is the first or neither called "root" nor a boot disk. With
   no disk at all there is one of 50 GB.
   */
  lemma DiskIsGiven(m: MachineSpec, c: ClassSpec, net: NetworkConfig, s: Settings, i: nat)
    ensures var sizeGB := if i < |m.disks| && m.disks[i].sizeGB != 0 then m.disks[i].sizeGB else 50;
      Gives(Wanted(m, c, net, s), "scsi" + Itoa(i),
        if i == 0 || (i < |m.disks| && m.disks[i].name != "root" && !m.disks[i].boot)
        then Some(Word(s.storagePool + ":" + Itoa(sizeGB))) else None)
  {
    hide Wanted, Itoa, StorageLike, DisksWanted;
    var name, sizeGB := SlotName(i), if i < |m.disks| && m.disks[i].sizeGB != 0 then m.disks[i].sizeGB else 50;
    var value := if Placed(m.disks, i) then Some(Word(s.storagePool + ":" + Itoa(sizeGB))) else None;
    SlotNameShape(i);
    forall v
      ensures VmOption(name, v) in StorageWanted(m.disks, s) <==> value == Some(v)
    {
      ControllerApart(s, i, v);
      DisksWantedMeaning(m.disks, s.storagePool, VmOption(name, v));
      SlotIsIndex(m.disks, s.storagePool, i, v);
    }
    StorageGroup(m, c, net, s, name, value);
  }

  lemma ControllerApart(s: Settings, i: nat, v: Value)
    ensures VmOption(SlotName(i), v) !in Controller(s)
  {
    SlotNameShape(i);
  }

  lemma SlotIsIndex(disks: seq<Disk>, pool: string, i: nat, v: Value)
    ensures (exists j: nat :: Placed(disks, j) && VmOption(SlotName(i), v) == PlacedOption(disks, pool, j)) <==>
            (Placed(disks, i) && VmOption(SlotName(i), v) == PlacedOption(disks, pool, i))
  {
    hide SlotName, DiskValue, Placed;
    if j: nat :| Placed(disks, j) && VmOption(SlotName(i), v) == PlacedOption(disks, pool, j) {
      SlotNameInjective(i, j);
    }
  }

  /** The SCSI controller type, as the settings say. */
  lemma ControllerIsGiven(m: MachineSpec, c: ClassSpec, net: NetworkConfig, s: Settings)
    ensures Gives(Wanted(m, c, net, s), "scsihw", if s.scsiController != "" then Some(Word(s.scsiController)) else None)
  {
    hide Wanted, DisksWanted, When, Gives;
    var value := if s.scsiController != "" then Some(Word(s.scsiController)) else None;
    WhenGives(s.scsiController != "", "scsihw", Word(s.scsiController), "scsihw");
    ScsihwIsNoSlot(m.disks, s.storagePool);
    GivesNothing(DisksWanted(m.disks, s.storagePool), "scsihw");
    GivesUnion(Controller(s), DisksWanted(m.disks, s.storagePool), "scsihw", value, None);
    assert "scsihw"[0] == 's' && "scsihw"[1] == 'c';
    StorageGroup(m, c, net, s, "scsihw", value);
  }

  lemma ScsihwIsNoSlot(disks: seq<Disk>, pool: string)
    ensures "scsihw" !in Names(DisksWanted(disks, pool))
  {
    hide DisksWanted, SlotName;
    forall o | o in DisksWanted(disks, pool)
      ensures o.name != "scsihw"
    {
      DisksWantedMeaning(disks, pool, o);
      var i: nat :| Placed(disks, i) && o == PlacedOption(disks, pool, i);
      SlotNameShape(i);
    }
  }

  /** There is no option but these. */
  lemma NothingElseIsGiven(m: MachineSpec, c: ClassSpec, net: NetworkConfig, s: Settings, o: VmOption)
    requires o in Wanted(m, c, net, s)
    ensures
      || o.name in {"cores", "cpu", "numa", "memory", "net0", "cdrom", "name", "agent", "start", "scsihw"}
      || exists i: nat :: o.name == "scsi" + Itoa(i)
  {
    hide CpuWanted, MemoryWanted, NetWanted, MiscWanted, DisksWanted, Itoa;
    SmallNames(m, c, net, s);
    if o in StorageWanted(m.disks, s) {
      if o in DisksWanted(m.disks, s.storagePool) {
        DisksWantedMeaning(m.disks, s.storagePool, o);
        var i: nat :| Placed(m.disks, i) && o == PlacedOption(m.disks, s.storagePool, i);
        assert o.name == "scsi" + Itoa(i);
      } else {
        assert o in Controller(s);
      }
    } else {
      assert o.name in CPU_NAMES + MEMORY_NAMES + NET_NAMES + MISC_NAMES;
    }
  }
}
