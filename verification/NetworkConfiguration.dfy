/** `internal/services/networkconfiguration`: the create-if-absent side store of DHCP reservations. */
module NetworkConfiguration {
  import opened Wrappers
  import opened Text
  import VmBuilder

  /** The one interface the operator writes; an empty VLAN text means no VLAN. */
  datatype Interface = Interface(mac: string, vlan: string)

  /** `reserved` is the status another controller fills in: the IPv4 lists of the interfaces, in order. */
  datatype NetConf = NetConf(interface: Interface, reserved: seq<seq<string>>)

  /** What the existence test answers: the read goes through a cache, so it may be older than the store. */
  datatype CacheRead = Hit(conf: NetConf) | Miss | Failed

  /** Whether the API server takes a write up, as far as that does not depend on the object being there. */
  datatype Fault = NoFault | Refused

  /** The cache answers with what is in the store. */
  predicate Current(get: CacheRead, store: map<string, NetConf>, name: string) {
    get == if name in store then Hit(store[name]) else Miss
  }

  function VlanText(vlan: int): string {
    if vlan > 0 then Itoa(vlan) else ""
  }

  function InterfaceFor(mac: string, vlan: int): Interface {
    Interface(mac, VlanText(vlan))
  }

  /** The first address of the first interface that has one, or no address. */
  function FirstAddress(lists: seq<seq<string>>): string {
    if lists == [] then "" else if lists[0] != [] then lists[0][0] else FirstAddress(lists[1..])
  }

  /** The first list that is not empty gives its first address; without one there is no address. */
  lemma {:induction false} FirstAddressIs(lists: seq<seq<string>>, i: nat)
    requires i <= |lists| && forall j :: 0 <= j < i ==> lists[j] == []
    ensures i < |lists| && lists[i] != [] ==> FirstAddress(lists) == lists[i][0]
    ensures i == |lists| ==> FirstAddress(lists) == ""
  {
    if i > 0 {
      FirstAddressIs(lists[1..], i - 1);
    }
  }

  class Manager {
    /** The NetworkConfiguration objects behind the client, by namespaced name. */
    var store: map<string, NetConf>

    constructor ()
      ensures store == map[]
    {
      store := map[];
    }

    /**
     `Create`: an object the cache shows is left as it is, also when it is gone by now;
     one the cache does not show is added, or refused when it is there after all.
     */
    method Create(name: string, mac: string, vlan: int, get: CacheRead, create: Fault) returns (ok: bool)
      modifies this
      ensures ok <==> get.Hit? || (get.Miss? && create.NoFault? && name !in old(store))
      ensures store ==
              if get.Miss? && create.NoFault? && name !in old(store)
              then old(store)[name := NetConf(InterfaceFor(mac, vlan), [])]
              else old(store)
      ensures Current(get, old(store), name) && ok ==>
              name in store && (name in old(store) ==> store[name] == old(store)[name])
    {
      if get.Hit? {
        return true;
      }
      if get.Failed? {
        return false;
      }
      var vlanText := "";
      if vlan > 0 {
        vlanText := Itoa(vlan);
      }
      if create.Refused? || name in store {
        return false;
      }
      store := store[name := NetConf(Interface(mac, vlanText), [])];
      return true;
    }

    /** `GetIP`: an absent object and an object without addresses both give the empty address. */
    method GetIP(get: CacheRead) returns (ip: Option<string>)
      ensures ip == match get
                    case Failed => None
                    case Miss => Some("")
                    case Hit(conf) => Some(FirstAddress(conf.reserved))
    {
      if get.Failed? {
        return None;
      }
      if get.Miss? {
        return Some("");
      }
      var lists := get.conf.reserved;
      for i := 0 to |lists|
        invariant FirstAddress(lists) == FirstAddress(lists[i..])
      {
        if lists[i] != [] {
          return Some(lists[i][0]);
        }
        assert lists[i..][1..] == lists[i + 1..];
      }
      assert lists[|lists|..] == [];
      return Some("");
    }

    /**
     `Delete`: an object the cache does not show counts as deleted, also when it is there
     after all; one the cache shows is removed, and its absence is no error.
     */
    method Delete(name: string, get: CacheRead, delete: Fault) returns (ok: bool)
      modifies this
      ensures ok <==> get.Miss? || (get.Hit? && (name !in old(store) || delete.NoFault?))
      ensures store == if get.Hit? && delete.NoFault? then old(store) - {name} else old(store)
      ensures Current(get, old(store), name) && ok ==> name !in store
    {
      if get.Miss? {
        return true;
      }
      if get.Failed? {
        return false;
      }
      if name !in store {
        assert store - {name} == store;
        return true;
      }
      if delete.Refused? {
        return false;
      }
      store := store - {name};
      return true;
    }
  }

  /**
   The reservation agrees with the VM: the MAC is the one Proxmox reads from the
   `net0` value built from the same configuration, and the VLAN text is that value's
   tag, empty exactly when there is no tag.
   */
  lemma AgreesWithNet0(net: VmBuilder.NetworkConfig, s: VmBuilder.Settings)
    requires VmBuilder.CommaFree(net, s) && net.mac != ""
    ensures var value := Join(VmBuilder.NetParts(net, s), ',');
      && VmBuilder.Field(value, "macaddr") == Some(InterfaceFor(net.mac, net.vlan).mac)
      && VmBuilder.Field(value, "tag") ==
         (if InterfaceFor(net.mac, net.vlan).vlan == "" then None else Some(InterfaceFor(net.mac, net.vlan).vlan))
  {
    VmBuilder.NetValueReadsBack(net, s);
  }
}
