/** What the refreshed status shows, said of what Proxmox and the guest agent reported. */
module StatusLaws {
  import opened Wrappers
  import opened DiskStatus
  import opened StatusRefresh
  import Network

  // ----- Addresses

  lemma {:induction false} OfKindIn(kind: AddressKind, addresses: seq<Address>, text: string)
    ensures text in OfKind(kind, addresses) <==>
      exists j :: 0 <= j < |addresses| && addresses[j] == Address(kind, text) && (kind.Ipv6? ==> !("fe80:" <= text))
  {
    if addresses != [] {
      var front, last := addresses[..|addresses| - 1], addresses[|addresses| - 1];
      OfKindIn(kind, front, text);
      if last == Address(kind, text) {
        assert addresses[|addresses| - 1] == Address(kind, text);
      }
      if j :| 0 <= j < |front| && front[j] == Address(kind, text) {
        assert addresses[j] == front[j];
      }
    }
  }

  lemma {:induction false} AllOfKindIn(kind: AddressKind, reported: seq<AgentInterface>, text: string)
    ensures text in AllOfKind(kind, reported) <==>
      exists i :: 0 <= i < |reported| && reported[i].name != "lo" && text in OfKind(kind, reported[i].addresses)
  {
    hide OfKind;
    if reported != [] {
      var front, last := reported[..|reported| - 1], reported[|reported| - 1];
      AllOfKindIn(kind, front, text);
      if last.name != "lo" && text in OfKind(kind, last.addresses) {
        assert text in OfKind(kind, reported[|reported| - 1].addresses);
      }
      if i :| 0 <= i < |front| && front[i].name != "lo" && text in OfKind(kind, front[i].addresses) {
        assert reported[i] == front[i];
      }
    }
  }

  /** Interface i, which is not the loopback, reports this address. */
  predicate Reports(reported: seq<AgentInterface>, i: int, j: int, kind: AddressKind, text: string) {
    && 0 <= i < |reported| && reported[i].name != "lo"
    && 0 <= j < |reported[i].addresses| && reported[i].addresses[j] == Address(kind, text)
  }

  /** The addresses shown are those reported by the interfaces not named "lo", without link-local IPv6. */
  lemma AddressesShown(v: View, reported: seq<AgentInterface>, parse: string -> Network.ParsedIP, text: string)
    ensures var w := WithNetwork(v, reported, parse);
      && (text in w.ipv4 <==> exists i, j :: Reports(reported, i, j, Ipv4, text))
      && (text in w.ipv6 <==> !("fe80:" <= text) && exists i, j :: Reports(reported, i, j, Ipv6, text))
  {
    hide OfKind, AllOfKind, Interfaces, Classed;
    KindShown(Ipv4, reported, text);
    KindShown(Ipv6, reported, text);
  }

  lemma KindShown(kind: AddressKind, reported: seq<AgentInterface>, text: string)
    ensures text in AllOfKind(kind, reported) <==>
      (kind.Ipv6? ==> !("fe80:" <= text)) && exists i, j :: Reports(reported, i, j, kind, text)
  {
    hide OfKind, AllOfKind;
    AllOfKindIn(kind, reported, text);
    forall i | 0 <= i < |reported|
      ensures text in OfKind(kind, reported[i].addresses) <==>
        exists j :: 0 <= j < |reported[i].addresses| && reported[i].addresses[j] == Address(kind, text)
                    && (kind.Ipv6? ==> !("fe80:" <= text))
    {
      OfKindIn(kind, reported[i].addresses, text);
    }
    if text in AllOfKind(kind, reported) {
      var i :| 0 <= i < |reported| && reported[i].name != "lo" && text in OfKind(kind, reported[i].addresses);
      var j :| 0 <= j < |reported[i].addresses| && reported[i].addresses[j] == Address(kind, text);
      assert Reports(reported, i, j, kind, text);
    }
    if (kind.Ipv6? ==> !("fe80:" <= text)) && exists i, j :: Reports(reported, i, j, kind, text) {
      var i, j :| Reports(reported, i, j, kind, text);
      assert text in OfKind(kind, reported[i].addresses);
    }
  }

  // ----- Order

  lemma {:induction false} AllOfKindSplits(kind: AddressKind, a: seq<AgentInterface>, b: seq<AgentInterface>)
    ensures AllOfKind(kind, a + b) == AllOfKind(kind, a) + AllOfKind(kind, b)
  {
    if b == [] {
      assert a + b == a;
    } else {
      assert (a + b)[..|a + b| - 1] == a + b[..|b| - 1];
      AllOfKindSplits(kind, a, b[..|b| - 1]);
    }
  }

  lemma {:induction false} InterfacesSplit(a: seq<AgentInterface>, b: seq<AgentInterface>)
    ensures Interfaces(a + b) == Interfaces(a) + Interfaces(b)
  {
    hide StatusOf;
    if b == [] {
      assert a + b == a;
    } else {
      assert (a + b)[..|a + b| - 1] == a + b[..|b| - 1];
      InterfacesSplit(a, b[..|b| - 1]);
    }
  }

  lemma {:induction false} OfKindSplits(kind: AddressKind, a: seq<Address>, b: seq<Address>)
    ensures OfKind(kind, a + b) == OfKind(kind, a) + OfKind(kind, b)
  {
    if b == [] {
      assert a + b == a;
    } else {
      assert (a + b)[..|a + b| - 1] == a + b[..|b| - 1];
      OfKindSplits(kind, a, b[..|b| - 1]);
    }
  }

  /** What is reported in two stretches is shown in two stretches, in the same order. */
  lemma ReportSplits(v: View, a: seq<AgentInterface>, b: seq<AgentInterface>, parse: string -> Network.ParsedIP)
    ensures var x, y, w := WithNetwork(v, a, parse), WithNetwork(v, b, parse), WithNetwork(v, a + b, parse);
      w.interfaces == x.interfaces + y.interfaces && w.ipv4 == x.ipv4 + y.ipv4 && w.ipv6 == x.ipv6 + y.ipv6
      && w.privates == x.privates + y.privates && w.publics == x.publics + y.publics
  {
    hide AllOfKind, Interfaces, Classed;
    InterfacesSplit(a, b);
    AllOfKindSplits(Ipv4, a, b);
    AllOfKindSplits(Ipv6, a, b);
    ClassedStable(parse, AllOfKind(Ipv4, a), AllOfKind(Ipv4, b), true);
    ClassedStable(parse, AllOfKind(Ipv4, a), AllOfKind(Ipv4, b), false);
  }

  lemma OneInterface(i: AgentInterface)
    ensures Interfaces([i]) == if i.name == "lo" then [] else [StatusOf(i)]
    ensures forall kind :: AllOfKind(kind, [i]) == if i.name == "lo" then [] else OfKind(kind, i.addresses)
  {
    hide StatusOf, OfKind;
    assert [i][..0] == [];
    forall kind
      ensures AllOfKind(kind, [i]) == if i.name == "lo" then [] else OfKind(kind, i.addresses)
    {
      assert AllOfKind(kind, [i][..0]) == [];
    }
  }

  /** One interface is shown under its name and MAC, with the lists that the machine gets from it alone. */
  lemma InterfaceShown(v: View, i: AgentInterface, parse: string -> Network.ParsedIP)
    ensures var w := WithNetwork(v, [i], parse);
      if i.name == "lo" then w.interfaces == [] && w.ipv4 == [] && w.ipv6 == []
      else w.interfaces == [InterfaceStatus(i.name, i.mac, w.ipv4, w.ipv6, w.ipv4 != [] || w.ipv6 != [])]
  {
    hide OfKind, Classed, Interfaces, AllOfKind;
    OneInterface(i);
  }

  /** The addresses of one interface are listed in their order. */
  lemma InterfaceSplits(
      v: View, name: string, mac: string, a: seq<Address>, b: seq<Address>, parse: string -> Network.ParsedIP)
    ensures var x, y := WithNetwork(v, [AgentInterface(name, mac, a)], parse),
                        WithNetwork(v, [AgentInterface(name, mac, b)], parse);
      var w := WithNetwork(v, [AgentInterface(name, mac, a + b)], parse);
      w.ipv4 == x.ipv4 + y.ipv4 && w.ipv6 == x.ipv6 + y.ipv6
  {
    hide OfKind, Classed, Interfaces, AllOfKind;
    OneInterface(AgentInterface(name, mac, a));
    OneInterface(AgentInterface(name, mac, b));
    OneInterface(AgentInterface(name, mac, a + b));
    OfKindSplits(Ipv4, a, b);
    OfKindSplits(Ipv6, a, b);
  }

  lemma OneAddress(kind: AddressKind, a: Address)
    ensures OfKind(kind, [a]) == if a.kind == kind && (kind.Ipv6? ==> !("fe80:" <= a.text)) then [a.text] else []
  {
    assert OfKind(kind, [a][..0]) == [];
  }

  /** One address of one interface goes on the list of its kind, or on none. */
  lemma AddressShown(v: View, name: string, mac: string, a: Address, parse: string -> Network.ParsedIP)
    requires name != "lo"
    ensures var w := WithNetwork(v, [AgentInterface(name, mac, [a])], parse);
      && w.ipv4 == (if a.kind.Ipv4? then [a.text] else [])
      && w.ipv6 == (if a.kind.Ipv6? && !("fe80:" <= a.text) then [a.text] else [])
  {
    hide Classed, Interfaces, AllOfKind, OfKind;
    OneInterface(AgentInterface(name, mac, [a]));
    OneAddress(Ipv4, a);
    OneAddress(Ipv6, a);
  }

  /** How many of the interfaces are not named "lo". */
  function Proper(reported: seq<AgentInterface>): nat {
    if reported == [] then 0
    else Proper(reported[..|reported| - 1]) + if reported[|reported| - 1].name == "lo" then 0 else 1
  }

  /**
   The interfaces shown are those not named "lo", in the order reported: the i-th stands
   behind as many as there are proper ones before it, with its name and MAC, and is up
   exactly when it has an address that is listed.
   */
  lemma InterfacesShown(v: View, reported: seq<AgentInterface>, parse: string -> Network.ParsedIP, i: nat)
    requires i < |reported|
    ensures var shown := WithNetwork(v, reported, parse).interfaces;
      && |shown| == Proper(reported)
      && (reported[i].name != "lo" ==>
            && Proper(reported[..i]) < |shown|
            && var s := shown[Proper(reported[..i])];
              && s.name == reported[i].name && s.mac == reported[i].mac
              && (s.up <==> exists j :: 0 <= j < |reported[i].addresses| && Listed(reported[i].addresses[j])))
  {
    hide Interfaces, AllOfKind, Classed;
    InterfacesInOrder(reported, i);
  }

  lemma {:induction false} InterfacesInOrder(reported: seq<AgentInterface>, i: nat)
    requires i < |reported|
    ensures var shown := Interfaces(reported);
      && |shown| == Proper(reported)
      && (reported[i].name != "lo" ==>
            && Proper(reported[..i]) < |shown|
            && var s := shown[Proper(reported[..i])];
              && s.name == reported[i].name && s.mac == reported[i].mac
              && (s.up <==> exists j :: 0 <= j < |reported[i].addresses| && Listed(reported[i].addresses[j])))
  {
    hide OfKind;
    var front, last := reported[..|reported| - 1], reported[|reported| - 1];
    ProperCount(front);
    if i < |front| {
      InterfacesInOrder(front, i);
      assert front[..i] == reported[..i];
    } else if last.name != "lo" {
      assert reported[..i] == front;
      UpWhenListed(last.addresses);
    }
  }

  predicate Listed(a: Address) {
    a.kind.Ipv4? || (a.kind.Ipv6? && !("fe80:" <= a.text))
  }

  lemma {:induction false} ProperCount(reported: seq<AgentInterface>)
    ensures |Interfaces(reported)| == Proper(reported)
  {
    hide StatusOf;
    if reported != [] {
      ProperCount(reported[..|reported| - 1]);
    }
  }

  lemma UpWhenListed(addresses: seq<Address>)
    ensures (OfKind(Ipv4, addresses) != [] || OfKind(Ipv6, addresses) != []) <==>
      exists j :: 0 <= j < |addresses| && Listed(addresses[j])
  {
    hide OfKind;
    var v4, v6 := OfKind(Ipv4, addresses), OfKind(Ipv6, addresses);
    if v4 != [] {
      OfKindIn(Ipv4, addresses, v4[0]);
      var j :| 0 <= j < |addresses| && addresses[j] == Address(Ipv4, v4[0]);
      assert Listed(addresses[j]);
    }
    if v6 != [] {
      OfKindIn(Ipv6, addresses, v6[0]);
      var j :| 0 <= j < |addresses| && addresses[j] == Address(Ipv6, v6[0]);
      assert Listed(addresses[j]);
    }
    if j :| 0 <= j < |addresses| && Listed(addresses[j]) {
      OfKindIn(addresses[j].kind, addresses, addresses[j].text);
    }
  }

  // ----- Classes

  /** The addresses that count as private: three blocks of IPv4, and all of IPv6. */
  lemma PrivateMeans(ip: Network.ParsedIP)
    requires Network.WellFormed(ip)
    ensures Network.Private(ip) <==>
      || ip.V6?
      || (ip.V4? && ip.bytes[0] == 10)
      || (ip.V4? && ip.bytes[0] == 172 && 16 <= ip.bytes[1] <= 31)
      || (ip.V4? && ip.bytes[0] == 192 && ip.bytes[1] == 168)
  {
  }

  lemma {:induction false} ClassedIn(
      parse: string -> Network.ParsedIP, ips: seq<string>, private: bool, ip: string)
    ensures ip in Classed(parse, ips, private) <==> ip in ips && Private(parse, ip) == private
  {
    if ips != [] {
      var front, last := ips[..|ips| - 1], ips[|ips| - 1];
      ClassedIn(parse, front, private, ip);
      assert ips == front + [last];
    }
  }

  /** An IPv4 address of the list is on the private list exactly when its bytes are private, else on the public one. */
  lemma ClassesAreDecided(v: View, reported: seq<AgentInterface>, parse: string -> Network.ParsedIP, ip: string)
    requires Network.WellFormed(parse(ip))
    ensures var w := WithNetwork(v, reported, parse);
      && (ip in w.privates <==> ip in w.ipv4 && Network.Private(parse(ip)))
      && (ip in w.publics <==> ip in w.ipv4 && !Network.Private(parse(ip)))
  {
    hide AllOfKind, Interfaces, Classed;
    ClassedIn(parse, AllOfKind(Ipv4, reported), true, ip);
    ClassedIn(parse, AllOfKind(Ipv4, reported), false, ip);
  }

  // ----- The rest of the refresh

  /** What the VM reports is shown, an absent report changes nothing, and region and zone are filled in once. */
  lemma FactsAreShown(v: View, vm: Vm, node: string, parse: string -> Network.ParsedIP)
    ensures var w := WithVm(v, vm, node, parse);
      && w.hostname == (if vm.name == "" then v.hostname else vm.name)
      && w.cpus == (if vm.cpus <= 0 then v.cpus else vm.cpus)
      && (vm.maxMem == 0 ==> w.memory == v.memory)
      && (0 < vm.maxMem < 0x8000_0000_0000_0000 ==> w.memory == vm.maxMem)
      && (vm.maxMem >= 0x8000_0000_0000_0000 ==> w.memory == 0x7FFF_FFFF_FFFF_FFFF)
      && w.region == (if v.region == "" then node else v.region)
      && w.zone == (if v.zone == "" then node else v.zone)
  {
    hide AllOfKind, Interfaces, Classed;
  }

  /** Without an answer from the agent of a running VM the network part stays as it is; with one it is replaced. */
  lemma AgentDecides(v: View, vm: Vm, node: string, parse: string -> Network.ParsedIP)
    ensures var w := WithVm(v, vm, node, parse);
      if vm.agent && vm.running && vm.interfaces.Some? then
        var n := WithNetwork(v, vm.interfaces.value, parse);
        w.interfaces == n.interfaces && w.ipv4 == n.ipv4 && w.ipv6 == n.ipv6
        && w.privates == n.privates && w.publics == n.publics
      else
        w.interfaces == v.interfaces && w.ipv4 == v.ipv4 && w.ipv6 == v.ipv6
        && w.privates == v.privates && w.publics == v.publics
  {
    hide AllOfKind, Interfaces, Classed;
  }

  /** A reserved address leads the IPv4 list, alone if it did not lead it before; without one nothing changes. */
  lemma ReservedAddressLeads(v: View, vm: Vm, node: string, ip: string, parse: string -> Network.ParsedIP)
    requires Network.WellFormed(parse(ip))
    ensures var w, r := WithVm(v, vm, node, parse), Refreshed(v, vm, node, ip, parse);
      if ip == "" || (w.ipv4 != [] && w.ipv4[0] == ip) then r == w
      else if Network.Private(parse(ip)) then r == w.(ipv4 := [ip], privates := [ip])
      else r == w.(ipv4 := [ip], publics := [ip])
  {
    hide WithVm;
  }

  /** How often a map shows a disk: once if the entry of that name reads as it. */
  function Shows(unused: bool, m: map<string, string>, d: StatusDisk): nat {
    if d.name in m && (if unused then ReadUnusedDisk(d.name, m[d.name]) else ReadDisk(d.name, m[d.name])) == Some(d)
    then 1 else 0
  }

  lemma CollectedOnce(unused: bool, m: map<string, string>, d: StatusDisk)
    ensures multiset(Collected(unused, m))[d] == Shows(unused, m, d)
  {
    hide ReadDisk, ReadUnusedDisk;
    if d in Collected(unused, m) {
      var name :| name in m && ReadEntry(unused, name, m[name]) == Some(d);
      assert name == d.name;
    }
  }

  /** The disks shown are those the five maps list, each as often as listed; without a configuration, those before. */
  lemma AllMapsAreShown(devices: Devices, before: multiset<StatusDisk>, d: StatusDisk)
    ensures DisksOf(None, before) == before
    ensures DisksOf(Some(devices), before)[d] ==
      Shows(false, devices.scsi, d) + Shows(false, devices.virtio, d) + Shows(false, devices.sata, d)
      + Shows(false, devices.ide, d) + Shows(true, devices.unused, d)
  {
    hide Collected, Shows;
    CollectedOnce(false, devices.scsi, d);
    CollectedOnce(false, devices.virtio, d);
    CollectedOnce(false, devices.sata, d);
    CollectedOnce(false, devices.ide, d);
    CollectedOnce(true, devices.unused, d);
  }
}
