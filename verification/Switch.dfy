/** The switch the agent configures: bridges, ports, links and flows, and what each
    command the agent runs does to them. A command that cannot succeed changes
    nothing; the agent does not look at its result. */
module Switch {
  import opened OvsTypes

  datatype Match = ArpTo(ip: string) | IpTo(ip: string) | Ipv6To(ip: string) | EtherType(kind: nat)
  datatype FlowKey = FlowKey(bridge: string, match_: Match)
  datatype FlowAction = Rewrite(mac: string, port: string) | Drop | OutputTo(port: string)

  /** - links: the network devices that exist;
      - bridges, ports: the OVS bridges, and the bridge of each OVS port;
      - linuxBridges, members: the same for Linux bridges;
      - admin: the administrative state last set;
      - mtus, addresses: likewise;
      - flows: the OpenFlow entries, at most one for each match on a bridge. */
  datatype Switch = Switch(
    links: set<string>,
    bridges: set<string>,
    ports: map<string, string>,
    linuxBridges: set<string>,
    members: map<string, string>,
    admin: map<string, bool>,
    mtus: map<string, int>,
    addresses: map<string, (string, string)>,
    flows: map<FlowKey, FlowAction>)

  datatype Command =
    | AddBr(bridge: string)                          // ovs-vsctl add-br
    | DelBr(bridge: string)                          // ovs-vsctl del-br
    | AddPort(bridge: string, port: string)          // ovs-vsctl add-port
    | DelPort(bridge: string, port: string)          // ovs-vsctl del-port
    | BrctlAddBr(bridge: string)                     // brctl addbr, vlan_util add_group
    | BrctlDelBr(bridge: string)                     // brctl delbr
    | AddIf(bridge: string, port: string)            // brctl addif
    | DelIf(bridge: string, port: string)            // brctl delif
    | SwitchInterface(bridge: string, port: string)  // vlan_util add_interface
    | IfConfig(name: string, up: bool)               // ifconfig up, down
    | IfMtu(name: string, mtu: int)
    | IfAddress(name: string, ip: string, netmask: string)
    | LinkAdd(name: string, parent: string)          // ip link add, vconfig add
    | LinkDel(name: string)                          // ip link del
    | DelFlow(key: FlowKey)                          // ovs-ofctl --strict del-flows
    | AddFlow(key: FlowKey, action: FlowAction)      // ovs-ofctl add-flow

  function WithoutValue(m: map<string, string>, v: string): map<string, string> {
    map k | k in m && m[k] != v :: m[k]
  }

  function Exec(s: Switch, c: Command): Switch {
    match c
    case AddBr(b) =>
      if b in s.links || b in s.bridges || b in s.ports then s
      else s.(links := s.links + {b}, bridges := s.bridges + {b})
    case DelBr(b) =>
      if b !in s.bridges then s
      else s.(links := s.links - {b}, bridges := s.bridges - {b}, ports := WithoutValue(s.ports, b),
              flows := map k | k in s.flows && k.bridge != b :: s.flows[k])
    case AddPort(b, p) =>
      // The name of a bridge is taken by the bridge's own local port.
      if b !in s.bridges || p in s.ports || p in s.bridges then s else s.(ports := s.ports[p := b])
    case DelPort(b, p) =>
      if p in s.ports && s.ports[p] == b then s.(ports := s.ports - {p}) else s
    case BrctlAddBr(b) =>
      if b in s.links then s else s.(links := s.links + {b}, linuxBridges := s.linuxBridges + {b})
    case BrctlDelBr(b) =>
      // A bridge that is up cannot be deleted.
      if b !in s.linuxBridges || (b in s.admin && s.admin[b]) then s
      else s.(links := s.links - {b}, linuxBridges := s.linuxBridges - {b},
              members := WithoutValue(s.members, b), admin := s.admin - {b})
    case AddIf(b, p) => Enslaved(s, b, p)
    case DelIf(b, p) =>
      if p in s.members && s.members[p] == b then s.(members := s.members - {p}) else s
    case SwitchInterface(b, p) =>
      // Creates the switch port's interface and puts it into the group's bridge.
      if b !in s.linuxBridges then s else Enslaved(s.(links := s.links + {p}), b, p)
    case IfConfig(x, up) => if x in s.links then s.(admin := s.admin[x := up]) else s
    case IfMtu(x, mtu) => if x in s.links then s.(mtus := s.mtus[x := mtu]) else s
    case IfAddress(x, ip, netmask) => if x in s.links then s.(addresses := s.addresses[x := (ip, netmask)]) else s
    case LinkAdd(x, parent) =>
      if x in s.links || parent !in s.links then s else s.(links := s.links + {x})
    case LinkDel(x) =>
      if x !in s.links || x in s.bridges then s
      else s.(links := s.links - {x}, linuxBridges := s.linuxBridges - {x},
              members := WithoutValue(s.members - {x}, x), admin := s.admin - {x})
    case DelFlow(k) => s.(flows := s.flows - {k})
    case AddFlow(k, action) => if k.bridge in s.bridges then s.(flows := s.flows[k := action]) else s
  }

  function Enslaved(s: Switch, b: string, p: string): Switch {
    if b !in s.linuxBridges || p !in s.links || p in s.members || p in s.ports
       || p in s.bridges || p in s.linuxBridges then s
    else s.(members := s.members[p := b])
  }

  /** Bridges are devices of one kind; ports and members belong to existing bridges
      and are not bridges themselves; flows are on OVS bridges. */
  ghost predicate Consistent(s: Switch) {
    && s.bridges <= s.links && s.linuxBridges <= s.links && s.bridges !! s.linuxBridges
    && (forall p :: p in s.ports ==> s.ports[p] in s.bridges && p !in s.bridges)
    && (forall p :: p in s.members ==> s.members[p] in s.linuxBridges && p in s.links - s.linuxBridges - s.bridges)
    && (forall k :: k in s.flows ==> k.bridge in s.bridges)
  }

  lemma OvsKeepsConsistent(s: Switch, c: Command)
    requires Consistent(s) && (c.AddBr? || c.DelBr? || c.AddPort? || c.DelPort? || c.DelFlow? || c.AddFlow?)
    ensures Consistent(Exec(s, c))
  {
  }

  lemma EnslavedKeepsConsistent(s: Switch, b: string, p: string)
    requires Consistent(s)
    ensures Consistent(Enslaved(s, b, p))
  {
  }

  lemma LinuxKeepsConsistent(s: Switch, c: Command)
    requires Consistent(s) && (c.BrctlAddBr? || c.AddIf? || c.DelIf? || c.SwitchInterface?)
    ensures Consistent(Exec(s, c))
  {
    if c.AddIf? {
      EnslavedKeepsConsistent(s, c.bridge, c.port);
    } else if c.SwitchInterface? {
      var t := s.(links := s.links + {c.port});
      assert Consistent(t);
      EnslavedKeepsConsistent(t, c.bridge, c.port);
    }
  }

  lemma RemovalKeepsConsistent(s: Switch, c: Command)
    requires Consistent(s) && (c.BrctlDelBr? || c.LinkDel?)
    ensures Consistent(Exec(s, c))
  {
  }

  /** Every command keeps the switch consistent. */
  lemma ExecKeepsConsistent(s: Switch, c: Command)
    requires Consistent(s)
    ensures Consistent(Exec(s, c))
  {
    if c.AddBr? || c.DelBr? || c.AddPort? || c.DelPort? || c.DelFlow? || c.AddFlow? {
      OvsKeepsConsistent(s, c);
    } else if c.BrctlAddBr? || c.AddIf? || c.DelIf? || c.SwitchInterface? {
      LinuxKeepsConsistent(s, c);
    } else if c.BrctlDelBr? || c.LinkDel? {
      RemovalKeepsConsistent(s, c);
    }
  }
}
