/** `updateVMStatus`, `updateNetworkStatus`, `updateDiskStatus` and the refresh half of `reconcileRunning`. */
module StatusRefresh {
  import opened Wrappers
  import opened DiskStatus
  import Network
  import VmBuilder

  datatype AddressKind = Ipv4 | Ipv6 | Other

  datatype Address = Address(kind: AddressKind, text: string)

  /** An interface as the guest agent reports it. */
  datatype AgentInterface = AgentInterface(name: string, mac: string, addresses: seq<Address>)

  datatype InterfaceStatus = InterfaceStatus(name: string, mac: string, ipv4: seq<string>, ipv6: seq<string>, up: bool)

  /** The five device maps of a VM's configuration. */
  datatype Devices = Devices(
    scsi: map<string, string>, virtio: map<string, string>, sata: map<string, string>, ide: map<string, string>,
    unused: map<string, string>)

  /** What Proxmox reports about a VM; `interfaces` is None when the agent does not answer. */
  datatype Vm = Vm(
    name: string, cpus: int, maxMem: nat, running: bool, agent: bool, devices: Option<Devices>,
    interfaces: Option<seq<AgentInterface>>)

  const MAX_INT64: nat := 0x7FFF_FFFF_FFFF_FFFF

  /** The refreshed part of a status but the disks, which are kept apart as a bag. */
  datatype View = View(
    hostname: string, cpus: int, memory: int, region: string, zone: string, interfaces: seq<InterfaceStatus>,
    ipv4: seq<string>, ipv6: seq<string>, privates: seq<string>, publics: seq<string>)

  // ----- Network: what the lists mean

  predicate LinkLocal(address: string) {
    "fe80:" <= address
  }

  predicate Keeps(kind: AddressKind, a: Address) {
    a.kind == kind && (kind.Ipv6? ==> !LinkLocal(a.text))
  }

  /** The addresses of one kind, in order, without link-local IPv6. */
  function OfKind(kind: AddressKind, addresses: seq<Address>): seq<string> {
    if addresses == [] then []
    else
      var front, last := addresses[..|addresses| - 1], addresses[|addresses| - 1];
      OfKind(kind, front) + if Keeps(kind, last) then [last.text] else []
  }

  predicate Loopback(i: AgentInterface) {
    i.name == "lo"
  }

  function StatusOf(i: AgentInterface): InterfaceStatus {
    var v4, v6 := OfKind(Ipv4, i.addresses), OfKind(Ipv6, i.addresses);
    InterfaceStatus(i.name, i.mac, v4, v6, v4 != [] || v6 != [])
  }

  function Interfaces(reported: seq<AgentInterface>): seq<InterfaceStatus> {
    if reported == [] then []
    else
      var front, last := reported[..|reported| - 1], reported[|reported| - 1];
      Interfaces(front) + if Loopback(last) then [] else [StatusOf(last)]
  }

  /** The addresses of one kind of all interfaces but the loopback, interface by interface. */
  function AllOfKind(kind: AddressKind, reported: seq<AgentInterface>): seq<string> {
    if reported == [] then []
    else
      var front, last := reported[..|reported| - 1], reported[|reported| - 1];
      AllOfKind(kind, front) + if Loopback(last) then [] else OfKind(kind, last.addresses)
  }

  predicate Private(parse: string -> Network.ParsedIP, ip: string) {
    Network.WellFormed(parse(ip)) && Network.Private(parse(ip))
  }

  /** The addresses of one class, in their order. */
  function Classed(parse: string -> Network.ParsedIP, ips: seq<string>, private: bool): (r: seq<string>)
    ensures forall ip :: ip in r ==> Private(parse, ip) == private
  {
    if ips == [] then []
    else
      var front, last := ips[..|ips| - 1], ips[|ips| - 1];
      Classed(parse, front, private) + if Private(parse, last) == private then [last] else []
  }

  /** The private and public lists hold each address of the list once, in one of them. */
  predicate Partitioned(v: View) {
    multiset(v.ipv4) == multiset(v.privates) + multiset(v.publics)
  }

  lemma BagSnoc(front: seq<string>, last: string)
    ensures multiset(front + [last]) == multiset(front) + multiset{last}
  {
  }

  lemma BagRegroup(a: multiset<string>, b: multiset<string>, x: string)
    ensures a + b + multiset{x} == a + multiset{x} + b == a + (b + multiset{x})
  {
  }

  lemma ClassedSnoc(parse: string -> Network.ParsedIP, front: seq<string>, last: string, private: bool)
    ensures multiset(Classed(parse, front + [last], private)) ==
            multiset(Classed(parse, front, private)) +
            if Private(parse, last) == private then multiset{last} else multiset{}
  {
    hide Private;
    assert (front + [last])[..|front|] == front;
    BagSnoc(Classed(parse, front, private), last);
    assert Classed(parse, front, private) + [] == Classed(parse, front, private);
  }

  lemma {:induction false} ClassedPartitions(parse: string -> Network.ParsedIP, ips: seq<string>)
    ensures multiset(ips) == multiset(Classed(parse, ips, true)) + multiset(Classed(parse, ips, false))
  {
    hide Private;
    if ips == [] {
    } else {
      hide Classed;
      var front, last := ips[..|ips| - 1], ips[|ips| - 1];
      ClassedPartitions(parse, front);
      assert ips == front + [last];
      BagSnoc(front, last);
      ClassedSnoc(parse, front, last, true);
      ClassedSnoc(parse, front, last, false);
      BagRegroup(multiset(Classed(parse, front, true)), multiset(Classed(parse, front, false)), last);
    }
  }

  /** The classes are stable: splitting the list splits each class at the same place. */
  lemma {:induction false} ClassedStable(
      parse: string -> Network.ParsedIP, a: seq<string>, b: seq<string>, private: bool)
    ensures Classed(parse, a + b, private) == Classed(parse, a, private) + Classed(parse, b, private)
  {
    if b == [] {
      assert a + b == a;
    } else {
      assert (a + b)[..|a + b| - 1] == a + b[..|b| - 1];
      ClassedStable(parse, a, b[..|b| - 1], private);
    }
  }

  /** The machine's IPv4 list is the concatenation of the interfaces' lists. */
  lemma {:induction false} InterfaceListsConcatenate(reported: seq<AgentInterface>)
    ensures AllOfKind(Ipv4, reported) == Concat(Interfaces(reported))
  {
    if reported != [] {
      var front, last := reported[..|reported| - 1], reported[|reported| - 1];
      InterfaceListsConcatenate(front);
      if !Loopback(last) {
        var all := Interfaces(front) + [StatusOf(last)];
        assert all[..|all| - 1] == Interfaces(front);
      } else {
        assert Interfaces(reported) == Interfaces(front);
      }
    }
  }

  function Concat(statuses: seq<InterfaceStatus>): seq<string> {
    if statuses == [] then [] else Concat(statuses[..|statuses| - 1]) + statuses[|statuses| - 1].ipv4
  }

  // ----- Disks: what the map collection means

  function ReadEntry(unused: bool, name: string, config: string): (d: Option<StatusDisk>)
    ensures d.Some? ==> d.value.name == name
  {
    if unused then ReadUnusedDisk(name, config) else ReadDisk(name, config)
  }

  function CollectedFrom(unused: bool, m: map<string, string>, names: set<string>): set<StatusDisk>
    requires names <= m.Keys
  {
    set name | name in names && ReadEntry(unused, name, m[name]).Some? :: ReadEntry(unused, name, m[name]).value
  }

  /** One disk for each entry that reads as one, in no order. */
  function Collected(unused: bool, m: map<string, string>): set<StatusDisk> {
    CollectedFrom(unused, m, m.Keys)
  }

  lemma CollectedStep(unused: bool, m: map<string, string>, names: set<string>, name: string)
    requires names <= m.Keys && name in m.Keys - names
    ensures forall d :: d in CollectedFrom(unused, m, names) ==> d.name != name
    ensures CollectedFrom(unused, m, names + {name}) ==
            CollectedFrom(unused, m, names) +
            match ReadEntry(unused, name, m[name]) case Some(d) => {d} case None => {}
  {
    var more := names + {name};
    forall d | d in CollectedFrom(unused, m, names)
      ensures d in CollectedFrom(unused, m, more)
    {
      var n :| n in names && ReadEntry(unused, n, m[n]) == Some(d);
      assert n in more;
    }
    assert name in more;
  }

  /** The list holds each member of the set once and nothing else. */
  ghost predicate BagOf(read: seq<StatusDisk>, s: set<StatusDisk>) {
    multiset(read) == multiset(s)
  }

  lemma BagStep(read: seq<StatusDisk>, s: set<StatusDisk>, d: StatusDisk)
    requires BagOf(read, s) && d !in s
    ensures BagOf(read + [d], s + {d})
  {
  }

  function AllDisks(d: Devices): multiset<StatusDisk> {
    multiset(Collected(false, d.scsi)) + multiset(Collected(false, d.virtio)) + multiset(Collected(false, d.sata))
    + multiset(Collected(false, d.ide)) + multiset(Collected(true, d.unused))
  }

  function DisksOf(devices: Option<Devices>, before: multiset<StatusDisk>): multiset<StatusDisk> {
    if devices.Some? then AllDisks(devices.value) else before
  }

  /** The device map holds the disk options the builder emits for these disks, and nothing else. */
  ghost predicate HoldsEmitted(m: map<string, string>, disks: seq<VmBuilder.Disk>, pool: string) {
    forall name, value ::
      (name in m && m[name] == value) <==>
      VmBuilder.VmOption(name, VmBuilder.Word(value)) in VmBuilder.DisksWanted(disks, pool)
  }

  /**
   From the spec to the status: the SCSI map that holds what the builder emits is shown
   as exactly one status disk for each placed disk, with its pool, its size in bytes and its device.
   */
  lemma EmittedDisksAreShown(m: map<string, string>, disks: seq<VmBuilder.Disk>, pool: string, d: StatusDisk)
    requires ReadableStorage(disks, pool) && HoldsEmitted(m, disks, pool)
    ensures d in Collected(false, m) <==> exists i: nat :: VmBuilder.Placed(disks, i) && d == ShownDisk(disks, pool, i)
  {
    hide ReadDisk, ShownDisk, ReadableStorage, VmBuilder.DisksWanted, VmBuilder.PlacedOption;
    if d in Collected(false, m) {
      var name :| name in m && ReadDisk(name, m[name]) == Some(d);
      var o := VmBuilder.VmOption(name, VmBuilder.Word(m[name]));
      VmBuilder.DisksWantedMeaning(disks, pool, o);
      var i: nat :| VmBuilder.Placed(disks, i) && o == VmBuilder.PlacedOption(disks, pool, i);
      EmittedDiskReadsBack(disks, pool, i);
      assert VmBuilder.Placed(disks, i) && d == ShownDisk(disks, pool, i);
    }
    forall i: nat | VmBuilder.Placed(disks, i) && d == ShownDisk(disks, pool, i)
      ensures d in Collected(false, m)
    {
      var o := VmBuilder.PlacedOption(disks, pool, i);
      EmittedDiskReadsBack(disks, pool, i);
      VmBuilder.DisksWantedMeaning(disks, pool, o);
      assert o == VmBuilder.VmOption(o.name, VmBuilder.Word(o.value.text));
      assert o.name in m && m[o.name] == o.value.text;
    }
  }

  // ----- The refresh as a function on views

  function WithNetwork(v: View, reported: seq<AgentInterface>, parse: string -> Network.ParsedIP): View {
    var all := AllOfKind(Ipv4, reported);
    v.(interfaces := Interfaces(reported), ipv4 := all, ipv6 := AllOfKind(Ipv6, reported),
       privates := Classed(parse, all, true), publics := Classed(parse, all, false))
  }

  /** Everything but the network. */
  function WithFacts(v: View, vm: Vm, node: string): View {
    v.(
      hostname := if vm.name != "" then vm.name else v.hostname,
      cpus := if vm.cpus > 0 then vm.cpus else v.cpus,
      memory := if vm.maxMem == 0 then v.memory else if vm.maxMem <= MAX_INT64 then vm.maxMem else MAX_INT64,
      region := if v.region == "" then node else v.region,
      zone := if v.zone == "" then node else v.zone)
  }

  predicate AgentSpeaks(vm: Vm) {
    vm.agent && vm.running && vm.interfaces.Some?
  }

  function WithVm(v: View, vm: Vm, node: string, parse: string -> Network.ParsedIP): View {
    var w := WithFacts(v, vm, node);
    if AgentSpeaks(vm) then WithNetwork(w, vm.interfaces.value, parse) else w
  }

  predicate OverrideFires(v: View, ip: string) {
    ip != "" && (v.ipv4 == [] || v.ipv4[0] != ip)
  }

  /** The address of the NetworkConfiguration replaces the list, and one of the two class lists. */
  function WithReservedIp(v: View, ip: string, parse: string -> Network.ParsedIP): View {
    if !OverrideFires(v, ip) then v
    else if Private(parse, ip) then v.(ipv4 := [ip], privates := [ip])
    else v.(ipv4 := [ip], publics := [ip])
  }

  function Refreshed(v: View, vm: Vm, node: string, ip: string, parse: string -> Network.ParsedIP): View {
    WithReservedIp(WithVm(v, vm, node, parse), ip, parse)
  }

  /** Refreshing again from the same VM and the same reservation changes nothing but the order of the disks. */
  lemma RefreshIsIdempotent(v: View, vm: Vm, node: string, ip: string, parse: string -> Network.ParsedIP)
    ensures Refreshed(Refreshed(v, vm, node, ip, parse), vm, node, ip, parse) == Refreshed(v, vm, node, ip, parse)
    ensures forall before :: DisksOf(vm.devices, DisksOf(vm.devices, before)) == DisksOf(vm.devices, before)
  {
    var w := WithFacts(v, vm, node);
    var r := Refreshed(v, vm, node, ip, parse);
    assert WithFacts(w, vm, node) == w;
    if AgentSpeaks(vm) {
      assert WithVm(r, vm, node, parse) == WithVm(v, vm, node, parse);
    } else {
      assert r == WithReservedIp(w, ip, parse);
      assert WithFacts(r, vm, node) == r;
    }
  }

  /** What the agent reports is partitioned into private and public addresses. */
  lemma NetworkIsPartitioned(v: View, reported: seq<AgentInterface>, parse: string -> Network.ParsedIP)
    ensures Partitioned(WithNetwork(v, reported, parse))
  {
    ClassedPartitions(parse, AllOfKind(Ipv4, reported));
  }

  /**
   The reserved address breaks that partition exactly when it replaces the list while
   the class list it does not belong to still holds old addresses.
   */
  lemma OverrideKeepsPartition(v: View, ip: string, parse: string -> Network.ParsedIP)
    requires Partitioned(v)
    ensures Partitioned(WithReservedIp(v, ip, parse)) <==>
            !OverrideFires(v, ip) || (if Private(parse, ip) then v.publics == [] else v.privates == [])
  {
    var w := WithReservedIp(v, ip, parse);
    if OverrideFires(v, ip) {
      assert |multiset(w.ipv4)| == 1;
      assert |multiset(w.privates) + multiset(w.publics)| == |w.privates| + |w.publics|;
      assert multiset{} + multiset{ip} == multiset{ip};
    }
  }

  // ----- The code

  class MachineStatus {
    /** `net.ParseIP`, which is not part of this model. */
    const parse: string -> Network.ParsedIP

    var hostname: string
    var cpus: int
    var memory: int
    var region: string
    var zone: string
    var disks: seq<StatusDisk>
    var interfaces: seq<InterfaceStatus>
    var ipv4: seq<string>
    var ipv6: seq<string>
    var privates: seq<string>
    var publics: seq<string>

    ghost predicate Valid() {
      forall ip :: Network.WellFormed(parse(ip))
    }

    function AsView(): View
      reads this
    {
      View(hostname, cpus, memory, region, zone, interfaces, ipv4, ipv6, privates, publics)
    }

    /** The inner loop of `updateNetworkStatus`: the addresses of one interface, onto both pairs of lists. */
    method SortAddresses(addresses: seq<Address>, allIpv4: seq<string>, allIpv6: seq<string>)
      returns (v4: seq<string>, v6: seq<string>, all4: seq<string>, all6: seq<string>)
      ensures v4 == OfKind(Ipv4, addresses) && v6 == OfKind(Ipv6, addresses)
      ensures all4 == allIpv4 + v4 && all6 == allIpv6 + v6
    {
      v4, v6, all4, all6 := [], [], allIpv4, allIpv6;
      for j := 0 to |addresses|
        invariant v4 == OfKind(Ipv4, addresses[..j]) && v6 == OfKind(Ipv6, addresses[..j])
        invariant all4 == allIpv4 + v4 && all6 == allIpv6 + v6
      {
        assert addresses[..j + 1][..j] == addresses[..j];
        match addresses[j].kind {
          case Ipv4 =>
            v4 := v4 + [addresses[j].text];
            all4 := all4 + [addresses[j].text];
          case Ipv6 =>
            if !LinkLocal(addresses[j].text) {
              v6 := v6 + [addresses[j].text];
              all6 := all6 + [addresses[j].text];
            }
          case Other =>
        }
      }
      assert addresses[..|addresses|] == addresses;
    }

    /** The last loop of `updateNetworkStatus`: every IPv4 address into one of the two class lists. */
    method Classify(ips: seq<string>)
      requires Valid()
      modifies `privates, `publics
      ensures privates == old(privates) + Classed(parse, ips, true)
      ensures publics == old(publics) + Classed(parse, ips, false)
    {
      for i := 0 to |ips|
        invariant privates == old(privates) + Classed(parse, ips[..i], true)
        invariant publics == old(publics) + Classed(parse, ips[..i], false)
      {
        assert ips[..i + 1][..i] == ips[..i];
        var private := Network.IsPrivateIP(parse(ips[i]));
        if private {
          privates := privates + [ips[i]];
        } else {
          publics := publics + [ips[i]];
        }
      }
      assert ips[..|ips|] == ips;
    }

    /** The outer loop of `updateNetworkStatus`. */
    method ReadInterfaces(reported: seq<AgentInterface>)
      returns (statuses: seq<InterfaceStatus>, all4: seq<string>, all6: seq<string>)
      ensures statuses == Interfaces(reported)
      ensures all4 == AllOfKind(Ipv4, reported) && all6 == AllOfKind(Ipv6, reported)
    {
      hide OfKind;
      statuses, all4, all6 := [], [], [];
      for i := 0 to |reported|
        invariant statuses == Interfaces(reported[..i])
        invariant all4 == AllOfKind(Ipv4, reported[..i]) && all6 == AllOfKind(Ipv6, reported[..i])
      {
        var next := reported[..i + 1];
        assert next[..|next| - 1] == reported[..i] && next[|next| - 1] == reported[i];
        if reported[i].name == "lo" {
          continue;
        }
        var v4, v6;
        v4, v6, all4, all6 := SortAddresses(reported[i].addresses, all4, all6);
        var up := v4 != [] || v6 != [];
        statuses := statuses + [InterfaceStatus(reported[i].name, reported[i].mac, v4, v6, up)];
      }
      assert reported[..|reported|] == reported;
    }

    /** `updateNetworkStatus`, once the agent has answered. */
    method UpdateNetworkStatus(reported: seq<AgentInterface>)
      requires Valid()
      modifies `interfaces, `ipv4, `ipv6, `privates, `publics
      ensures AsView() == WithNetwork(old(AsView()), reported, parse)
    {
      hide Interfaces, AllOfKind, Classed;
      privates, publics := [], [];
      interfaces, ipv4, ipv6 := ReadInterfaces(reported);
      Classify(ipv4);
    }

    method ParseEntry(unused: bool, name: string, config: string) returns (disk: Option<StatusDisk>)
      ensures disk == ReadEntry(unused, name, config)
    {
      if unused {
        disk := ParseUnusedDiskConfig(name, config);
      } else {
        disk := ParseDiskConfig(name, config);
      }
    }

    /** One of the five loops over a device map; Go visits the entries in any order. */
    method Collect(unused: bool, m: map<string, string>) returns (read: seq<StatusDisk>)
      ensures BagOf(read, Collected(unused, m))
    {
      read := [];
      var rest := m.Keys;
      while rest != {}
        invariant rest <= m.Keys
        invariant BagOf(read, CollectedFrom(unused, m, m.Keys - rest))
        decreases |rest|
      {
        var name :| name in rest;
        read := Visit(unused, m, name, read, m.Keys - rest);
        assert m.Keys - (rest - {name}) == (m.Keys - rest) + {name};
        rest := rest - {name};
      }
      assert m.Keys - rest == m.Keys;
    }

    /** The body of those loops. */
    method Visit(unused: bool, m: map<string, string>, name: string, read: seq<StatusDisk>, ghost done: set<string>)
      returns (more: seq<StatusDisk>)
      requires done <= m.Keys && name in m && name !in done
      requires BagOf(read, CollectedFrom(unused, m, done))
      ensures BagOf(more, CollectedFrom(unused, m, done + {name}))
    {
      CollectedStep(unused, m, done, name);
      more := read;
      var disk := ParseEntry(unused, name, m[name]);
      if disk.Some? {
        BagStep(read, CollectedFrom(unused, m, done), disk.value);
        more := read + [disk.value];
      }
    }

    /** `updateDiskStatus`: the same disks whatever order the maps are visited in. */
    method UpdateDiskStatus(devices: Option<Devices>)
      modifies `disks
      ensures multiset(disks) == DisksOf(devices, multiset(old(disks)))
    {
      if devices.None? {
        return;
      }
      var scsi := Collect(false, devices.value.scsi);
      var virtio := Collect(false, devices.value.virtio);
      var sata := Collect(false, devices.value.sata);
      var ide := Collect(false, devices.value.ide);
      var unused := Collect(true, devices.value.unused);
      disks := scsi + virtio + sata + ide + unused;
    }

    method UpdateFacts(vm: Vm, node: string)
      modifies `hostname, `cpus, `memory, `region, `zone
      ensures AsView() == WithFacts(old(AsView()), vm, node)
    {
      if vm.name != "" {
        hostname := vm.name;
      }
      if vm.cpus > 0 {
        cpus := vm.cpus;
      }
      if vm.maxMem > 0 {
        memory := if vm.maxMem <= MAX_INT64 then vm.maxMem else MAX_INT64;
      }
      if region == "" {
        region := node;
      }
      if zone == "" {
        zone := node;
      }
    }

    /** `updateVMStatus`. */
    method UpdateVMStatus(vm: Vm, node: string)
      requires Valid()
      modifies this
      ensures AsView() == WithVm(old(AsView()), vm, node, parse)
      ensures multiset(disks) == DisksOf(vm.devices, multiset(old(disks)))
    {
      UpdateFacts(vm, node);
      UpdateDiskStatus(vm.devices);
      if vm.agent && vm.running && vm.interfaces.Some? {
        UpdateNetworkStatus(vm.interfaces.value);
      }
    }

    /** The refresh of `reconcileRunning`; `ip` is what `GetIP` answered, or empty when it is not consulted. */
    method Refresh(vm: Vm, node: string, ip: string)
      requires Valid()
      modifies this
      ensures AsView() == Refreshed(old(AsView()), vm, node, ip, parse)
      ensures multiset(disks) == DisksOf(vm.devices, multiset(old(disks)))
    {
      UpdateVMStatus(vm, node);
      if ip != "" {
        if |ipv4| == 0 || ipv4[0] != ip {
          ipv4 := [ip];
          var private := Network.IsPrivateIP(parse(ip));
          if private {
            privates := [ip];
          } else {
            publics := [ip];
          }
        }
      }
    }
  }
}
