/** What requests do to the memberships, from any state of the switch. */
module SwitchTheorems {
  import opened OvsTypes
  import opened Switch
  import opened SwitchSpec

  // ----- Consistency -----

  /** Flow edits change flows only, and keep the switch consistent. */
  lemma {:induction false} EditsOnlyFlows(s: Switch, es: seq<FlowEdit>)
    ensures Edits(s, es) == s.(flows := Edits(s, es).flows)
    ensures Consistent(s) ==> Consistent(Edits(s, es))
    decreases |es|
  {
    if es != [] {
      EditsOnlyFlows(Edited(s, es[0]), es[1..]);
    }
  }

  lemma CycledKeepsConsistent(s: Switch, d: string, i: string)
    requires Consistent(s) && d != i
    ensures Consistent(Cycled(s, d, i))
  {
  }

  lemma WithoutPortConsistent(s: Switch, p: string)
    requires Consistent(s)
    ensures Consistent(s.(ports := s.ports - {p}))
  {
  }

  lemma SwitchCycledConsistent(s: Switch, n: Names, p: string)
    requires Consistent(s) && Apart(n) && SwitchPort(n, p)
    ensures Consistent(SwitchCycled(s, n, p))
  {
    if Restores(s, n, p) {
      var s0 := s.(ports := s.ports - {p});
      WithoutPortConsistent(s, p);
      CycledKeepsConsistent(s0, n.d1, n.i1);
      CycledKeepsConsistent(Cycled(s0, n.d1, n.i1), n.d2, n.i2);
    } else {
      CycledKeepsConsistent(s, Dummy(n, p), p);
    }
  }

  lemma PumaKeepsConsistent(s: Switch, n: Names, p: string)
    requires Consistent(s) && Apart(n) && SwitchPort(n, p)
    ensures Consistent(PumaSetUp(s, n, p))
  {
    SwitchCycledConsistent(s, n, p);
    var t := SwitchCycled(s, n, p);
    OvsKeepsConsistent(t.(admin := t.admin[n.backhaul := true]), AddPort(n.backhaulBridge, n.backhaul));
  }

  lemma AdminKeepsConsistent(s: Switch, x: string, cmd: int)
    requires Consistent(s)
    ensures Consistent(AdminSet(s, x, cmd))
  {
  }

  lemma LeaveKeepsConsistent(s: Switch, p: string, b: string, cmd: int, ovs: bool)
    requires Consistent(s)
    ensures Consistent(Leave(s, p, b, cmd, ovs))
  {
  }

  lemma RehomedKeepsConsistent(s: Switch, p: string, b: string, cmd: int, ovs: bool)
    requires Consistent(s)
    ensures Consistent(Rehomed(s, p, b, cmd, ovs))
  {
    var s0 := Leave(s, p, b, cmd, ovs);
    LeaveKeepsConsistent(s, p, b, cmd, ovs);
    ExecKeepsConsistent(s0, if ovs then AddBr(b) else BrctlAddBr(b));
    AdminKeepsConsistent(Create(s0, b, ovs), b, cmd);
    ExecKeepsConsistent(AdminSet(Create(s0, b, ovs), b, cmd), if ovs then AddPort(b, p) else AddIf(b, p));
  }

  lemma MovedKeepsConsistent(s: Switch, env: Env, p: string, b: string, cmd: int)
    requires Consistent(s)
    ensures Consistent(Moved(s, env, p, b, cmd))
  {
    RehomedKeepsConsistent(s, p, b, cmd, OvsManaged(b));
    EditsOnlyFlows(Rehomed(s, p, b, cmd, OvsManaged(b)), NewBridgeEdits(s, env, b, cmd));
  }

  lemma PreparedKeepsConsistent(s: Switch, env: Env, p: string, cmd: int)
    requires Consistent(s)
    ensures Consistent(Prepared(s, env, p, cmd))
  {
    PumaNamesApart();
    if NeedsPuma(env, p, cmd) { PumaKeepsConsistent(s, PUMA, p); }
    AdminKeepsConsistent(if NeedsPuma(env, p, cmd) then PumaSetUp(s, PUMA, p) else s, p, cmd);
  }

  lemma PortKeepsConsistent(s: Switch, env: Env, req: GatewayConfig)
    requires Consistent(s)
    ensures Consistent(PortDone(s, env, req))
  {
    var p, b, cmd := req.ifName, req.parentBridge, req.ifCmd;
    if cmd == IF_DELETE_CMD {
      ExecKeepsConsistent(s, LinkDel(p));
    } else {
      PreparedKeepsConsistent(s, env, p, cmd);
      MovedKeepsConsistent(Prepared(s, env, p, cmd), env, p, b, cmd);
      EditsOnlyFlows(Moved(Prepared(s, env, p, cmd), env, p, b, cmd), PortEdits(env, p, b, cmd));
    }
  }

  lemma ConfiguredKeepsConsistent(s: Switch, req: GatewayConfig)
    requires Consistent(s)
    ensures Consistent(Configured(s, req))
  {
  }

  lemma BridgeKeepsConsistent(s: Switch, env: Env, req: GatewayConfig)
    requires Consistent(s)
    ensures Consistent(BridgeDone(s, env, req))
  {
    if req.ifCmd == IF_DELETE_CMD {
      ExecKeepsConsistent(s, DelBr(req.ifName));
    } else {
      ExecKeepsConsistent(s, AddBr(req.ifName));
      ConfiguredKeepsConsistent(Exec(s, AddBr(req.ifName)), req);
      EditsOnlyFlows(Configured(Exec(s, AddBr(req.ifName)), req), BridgeEdits(env, req.parentBridge, req.ifCmd));
    }
  }

  lemma LinkKeepsConsistent(s: Switch, env: Env, req: GatewayConfig, create: bool, device: string)
    requires Consistent(s)
    ensures Consistent(LinkDone(s, env, req, create, device))
  {
    ExecKeepsConsistent(s, LinkDel(req.ifName));
    ExecKeepsConsistent(s, LinkAdd(device, req.parentIfname));
    var s0 := if create then Exec(s, LinkAdd(device, req.parentIfname)) else s;
    AdminKeepsConsistent(s0, req.ifName, req.ifCmd);
    MovedKeepsConsistent(AdminSet(s0, req.ifName, req.ifCmd), env, req.ifName, req.parentBridge, req.ifCmd);
  }

  /** Every request keeps the switch consistent. */
  lemma DoneKeepsConsistent(s: Switch, env: Env, req: GatewayConfig)
    requires Consistent(s)
    ensures Consistent(Done(s, env, req))
  {
    BridgeKeepsConsistent(s, env, req);
    LinkKeepsConsistent(s, env, req, req.parentIfname != "", VlanDevice(env, req));
    LinkKeepsConsistent(s, env, req, GreComplete(req), req.ifName);
    PortKeepsConsistent(s, env, req);
  }

  // ----- Membership -----

  /** Port p can end up in OVS bridge b: p is no bridge itself, and b is one or can be
      created because no device and no port has its name. */
  predicate Attachable(s: Switch, p: string, b: string) {
    && p !in s.bridges && p != b
    && (if b in s.links then b in s.bridges else b !in s.ports)
  }

  predicate InBridge(s: Switch, p: string, b: string) {
    p in s.ports && s.ports[p] == b
  }

  /** Creating a bridge and setting its state move no port. */
  lemma CreatedPorts(s: Switch, b: string, cmd: int, ovs: bool)
    ensures var t := AdminSet(Create(s, b, ovs), b, cmd);
      && t.ports == s.ports
      && t.bridges == if ovs && b !in s.links && b !in s.bridges && b !in s.ports then s.bridges + {b} else s.bridges
  {
    var c := Create(s, b, ovs);
    if ovs {
      assert c == Exec(s, AddBr(b));
    } else {
      assert c == Exec(s, BrctlAddBr(b));
      assert c.bridges == s.bridges && c.ports == s.ports;
    }
    assert AdminSet(c, b, cmd) == c.(admin := AdminSet(c, b, cmd).admin);
  }

  lemma RehomedIs(s: Switch, p: string, b: string, cmd: int, ovs: bool)
    requires cmd != BR_REMOVE_CMD
    ensures var s0 := Leave(s, p, b, cmd, ovs); var t := AdminSet(Create(s0, b, ovs), b, cmd);
      Rehomed(s, p, b, cmd, ovs).ports ==
        if ovs && b in t.bridges && p !in t.ports && p !in t.bridges then t.ports[p := b] else t.ports
  {
  }

  /** The OVS memberships after a port joined or left an OVS parent bridge. */
  lemma RehomedPorts(s: Switch, p: string, b: string, cmd: int)
    requires Consistent(s)
    ensures var ports := Rehomed(s, p, b, cmd, true).ports;
      if cmd == BR_REMOVE_CMD then ports == if InBridge(s, p, b) then s.ports - {p} else s.ports
      else if cmd == IF_UP_CMD then ports == if Attachable(s, p, b) then s.ports[p := b] else s.ports - {p}
      else ports == if p !in s.ports && Attachable(s, p, b) then s.ports[p := b] else s.ports
  {
    if cmd != BR_REMOVE_CMD {
      RehomedIs(s, p, b, cmd, true);
      CreatedPorts(Leave(s, p, b, cmd, true), b, cmd, true);
      if cmd == IF_UP_CMD { DetachAttach(s.ports, p, b); }
    }
  }

  lemma DetachAttach(m: map<string, string>, p: string, b: string)
    ensures (m - {p})[p := b] == m[p := b]
    ensures p !in m ==> m - {p} == m
    ensures p in m && m[p] == b ==> m[p := b] == m
  {
  }

  lemma MovedPorts(s: Switch, env: Env, p: string, b: string, cmd: int)
    ensures Moved(s, env, p, b, cmd).ports == Rehomed(s, p, b, cmd, OvsManaged(b)).ports
  {
    EditsOnlyFlows(Rehomed(s, p, b, cmd, OvsManaged(b)), NewBridgeEdits(s, env, b, cmd));
  }

  lemma PortDonePorts(s: Switch, env: Env, req: GatewayConfig)
    requires req.ifCmd != IF_DELETE_CMD && req.parentBridge != ""
    ensures PortDone(s, env, req).ports
            == Rehomed(Prepared(s, env, req.ifName, req.ifCmd), req.ifName, req.parentBridge, req.ifCmd,
                       OvsManaged(req.parentBridge)).ports
  {
    var p, b, cmd := req.ifName, req.parentBridge, req.ifCmd;
    var s1 := Prepared(s, env, p, cmd);
    MovedPorts(s1, env, p, b, cmd);
    EditsOnlyFlows(Moved(s1, env, p, b, cmd), PortEdits(env, p, b, cmd));
  }

  /** The workaround detaches p if the sibling port is restored, may attach the
      backhaul interface to the backhaul bridge, and moves no other port. */
  lemma PumaPorts(s: Switch, n: Names, p: string)
    requires SwitchPort(n, p) && Apart(n)
    ensures var t := PumaSetUp(s, n, p); var kept := if Restores(s, n, p) then s.ports - {p} else s.ports;
      && t.bridges == s.bridges && t.flows == s.flows
      && (t.ports == kept || (n.backhaul !in s.ports && t.ports == kept[n.backhaul := n.backhaulBridge]))
  {
    SwitchCycledFrame(s, n, p);
  }

  lemma CycledClears(s: Switch, d: string, i: string)
    requires Consistent(s)
    ensures d !in Cycled(s, d, i).linuxBridges && Cycled(s, d, i).linuxBridges <= s.linuxBridges
  {
  }

  /** The workaround leaves no dummy Linux bridge it used, and the sibling port in the
      OVS bridge it was in, if any. */
  lemma PumaRestores(s: Switch, n: Names, p: string)
    requires Consistent(s) && Apart(n) && SwitchPort(n, p)
    ensures var t := PumaSetUp(s, n, p); var q := Sibling(n, p);
      && Dummy(n, p) !in t.linuxBridges && (Restores(s, n, p) ==> Dummy(n, q) !in t.linuxBridges)
      && (q in t.ports <==> q in s.ports) && (q in s.ports ==> t.ports[q] == s.ports[q])
  {
    PumaPorts(s, n, p);
    if Restores(s, n, p) {
      var s0 := s.(ports := s.ports - {p});
      WithoutPortConsistent(s, p);
      CycledKeepsConsistent(s0, n.d1, n.i1);
      CycledClears(s0, n.d1, n.i1);
      CycledClears(Cycled(s0, n.d1, n.i1), n.d2, n.i2);
    } else {
      CycledClears(s, Dummy(n, p), p);
    }
  }

  // ----- Bringing a port up -----

  /** The workaround for port p uses dummy bridge b. */
  predicate UsesDummy(s: Switch, n: Names, p: string, b: string) {
    b == Dummy(n, p) || (Restores(s, n, p) && (b == n.d1 || b == n.d2))
  }

  /** It deletes a Linux bridge of that name. */
  predicate Cleared(s: Switch, env: Env, p: string, b: string) {
    NeedsPuma(env, p, IF_UP_CMD) && b in s.linuxBridges && UsesDummy(s, PUMA, p, b)
  }

  /** Port p can end up in OVS bridge b, in terms of the state before the request: the
      same condition as Attachable, but for a name the workaround frees. */
  predicate CanJoin(s: Switch, env: Env, p: string, b: string) {
    && p !in s.bridges && p != b
    && (if b in s.links && !Cleared(s, env, p, b) then b in s.bridges else b !in s.ports)
  }

  lemma CycledLinks(s: Switch, d: string, i: string, b: string)
    requires Consistent(s) && d != i && (b == i ==> b in s.links)
    ensures var t := Cycled(s, d, i);
      b in t.links <==> b in s.links && !(b == d && d in s.linuxBridges)
  {
  }

  lemma CycledLinuxBridges(s: Switch, d: string, i: string, b: string)
    requires Consistent(s) && b != d
    ensures b in Cycled(s, d, i).linuxBridges <==> b in s.linuxBridges
  {
  }

  /** Which devices the workaround leaves. */
  lemma SwitchCycledLinks(s: Switch, n: Names, p: string, b: string)
    requires Consistent(s) && Apart(n) && SwitchPort(n, p) && b != p
    ensures b in SwitchCycled(s, n, p).links <==> b in s.links && !(b in s.linuxBridges && UsesDummy(s, n, p, b))
  {
    if Restores(s, n, p) {
      var s0 := s.(ports := s.ports - {p});
      WithoutPortConsistent(s, p);
      CycledKeepsConsistent(s0, n.d1, n.i1);
      CycledLinks(s0, n.d1, n.i1, b);
      CycledLinks(Cycled(s0, n.d1, n.i1), n.d2, n.i2, b);
      CycledLinuxBridges(s0, n.d1, n.i1, n.d2);
    } else {
      CycledLinks(s, Dummy(n, p), p, b);
    }
  }

  lemma BackhaulIs(t: Switch, n: Names)
    ensures var u := BackhaulRestored(t, n);
      && u.links == t.links && u.bridges == t.bridges && u.linuxBridges == t.linuxBridges
      && (u.ports == t.ports || (n.backhaul in t.links && n.backhaul !in t.bridges
                                 && u.ports == t.ports[n.backhaul := n.backhaulBridge]))
  {
  }

  lemma AttachableAfterPuma(s: Switch, n: Names, p: string, b: string)
    requires Consistent(s) && Apart(n) && SwitchPort(n, p) && b != p
    ensures Attachable(PumaSetUp(s, n, p), p, b) <==>
      && p !in s.bridges
      && (if b in s.links && !(b in s.linuxBridges && UsesDummy(s, n, p, b)) then b in s.bridges else b !in s.ports)
  {
    SwitchCycledLinks(s, n, p, b);
    SwitchCycledFrame(s, n, p);
    BackhaulIs(SwitchCycled(s, n, p), n);
  }

  /** CanJoin is what Attachable says of the state after the preparation. */
  lemma AttachableBefore(s: Switch, env: Env, p: string, b: string)
    requires Consistent(s)
    ensures Attachable(Prepared(s, env, p, IF_UP_CMD), p, b) <==> CanJoin(s, env, p, b)
  {
    var s1 := if NeedsPuma(env, p, IF_UP_CMD) then PumaSetUp(s, PUMA, p) else s;
    assert Prepared(s, env, p, IF_UP_CMD) == s1.(admin := Prepared(s, env, p, IF_UP_CMD).admin);
    if NeedsPuma(env, p, IF_UP_CMD) && p != b {
      PumaNamesApart();
      AttachableAfterPuma(s, PUMA, p, b);
    }
  }

  /** Outside the dummy names the workaround makes no difference. */
  lemma CanJoinPlainly(s: Switch, env: Env, p: string, b: string)
    requires b != PUMA.d1 && b != PUMA.d2
    ensures CanJoin(s, env, p, b) <==> Attachable(s, p, b)
  {
  }

  lemma PortUpJoins(s: Switch, env: Env, req: GatewayConfig)
    requires Consistent(s) && req.ifCmd == IF_UP_CMD && req.parentBridge != "" && OvsManaged(req.parentBridge)
    ensures var p, b := req.ifName, req.parentBridge; var s' := PortDone(s, env, req);
      && (InBridge(s', p, b) <==> CanJoin(s, env, p, b))
      && (!CanJoin(s, env, p, b) ==> p !in s'.ports)
  {
    AttachableBefore(s, env, req.ifName, req.parentBridge);
    PreparedKeepsConsistent(s, env, req.ifName, IF_UP_CMD);
    PortDonePorts(s, env, req);
    RehomedPorts(Prepared(s, env, req.ifName, IF_UP_CMD), req.ifName, req.parentBridge, IF_UP_CMD);
  }

  lemma PreparedOthers(s: Switch, env: Env, p: string, cmd: int, q: string)
    requires q != p && (q != PUMA.backhaul || !NeedsPuma(env, p, cmd))
    ensures var s1 := Prepared(s, env, p, cmd);
      (q in s1.ports <==> q in s.ports) && (q in s.ports ==> s1.ports[q] == s.ports[q])
  {
    PumaNamesApart();
    if NeedsPuma(env, p, cmd) { PumaPorts(s, PUMA, p); }
  }

  lemma RehomedOthers(s: Switch, p: string, b: string, cmd: int, ovs: bool, q: string)
    requires q != p
    ensures var s' := Rehomed(s, p, b, cmd, ovs);
      (q in s'.ports <==> q in s.ports) && (q in s.ports ==> s'.ports[q] == s.ports[q])
  {
    if cmd != BR_REMOVE_CMD {
      RehomedIs(s, p, b, cmd, ovs);
      CreatedPorts(Leave(s, p, b, cmd, ovs), b, cmd, ovs);
    }
  }

  lemma PortKeepsOthers(s: Switch, env: Env, req: GatewayConfig, q: string)
    requires q != req.ifName && (q != PUMA.backhaul || !NeedsPuma(env, req.ifName, req.ifCmd))
    ensures var s' := PortDone(s, env, req);
      (q in s'.ports <==> q in s.ports) && (q in s.ports ==> s'.ports[q] == s.ports[q])
  {
    var p, b, cmd := req.ifName, req.parentBridge, req.ifCmd;
    PreparedOthers(s, env, p, cmd, q);
    if cmd != IF_DELETE_CMD && b != "" {
      PortDonePorts(s, env, req);
      RehomedOthers(Prepared(s, env, p, cmd), p, b, cmd, OvsManaged(b), q);
    }
  }

  lemma PortOtherCommands(s: Switch, env: Env, req: GatewayConfig)
    requires Consistent(s) && req.ifCmd != IF_UP_CMD
    ensures var p, b, cmd := req.ifName, req.parentBridge, req.ifCmd; var ports := PortDone(s, env, req).ports;
      if cmd == IF_DELETE_CMD || b == "" || !OvsManaged(b) then ports == s.ports
      else if cmd == BR_REMOVE_CMD then ports == if InBridge(s, p, b) then s.ports - {p} else s.ports
      else ports == if p !in s.ports && Attachable(s, p, b) then s.ports[p := b] else s.ports
  {
    var p, b, cmd := req.ifName, req.parentBridge, req.ifCmd;
    if cmd != IF_DELETE_CMD && b != "" {
      var s1 := Prepared(s, env, p, cmd);
      assert s1 == s.(admin := s1.admin);
      PortDonePorts(s, env, req);
      if OvsManaged(b) {
        PreparedKeepsConsistent(s, env, p, cmd);
        RehomedPorts(s1, p, b, cmd);
      } else if cmd != BR_REMOVE_CMD {
        RehomedIs(s1, p, b, cmd, false);
        CreatedPorts(Leave(s1, p, b, cmd, false), b, cmd, false);
      }
    }
  }

  // ----- Requests of every type -----

  predicate LinkType(req: GatewayConfig) {
    req.ifType == VLAN_IF_TYPE || req.ifType == GRE_IF_TYPE
  }

  /** The device that a VLAN or GRE request creates first, if it is complete. */
  function LinkDevice(env: Env, req: GatewayConfig): Option<string> {
    if req.ifType == VLAN_IF_TYPE && req.parentIfname != "" then Some(VlanDevice(env, req))
    else if req.ifType == GRE_IF_TYPE && GreComplete(req) then Some(req.ifName)
    else None
  }

  /** Such a request takes the name of its parent bridge for the new link. */
  predicate TakesName(s: Switch, env: Env, req: GatewayConfig) {
    LinkDevice(env, req) == Some(req.parentBridge) && req.parentIfname in s.links
  }

  /** The request can put its interface into its OVS parent bridge: the link it creates
      first may take the bridge's name, and the switch workaround may free it. */
  predicate Joins(s: Switch, env: Env, req: GatewayConfig) {
    var p, b := req.ifName, req.parentBridge;
    if LinkType(req) then Attachable(s, p, b) && (b in s.links || !TakesName(s, env, req))
    else if req.ifCmd == IF_UP_CMD then CanJoin(s, env, p, b)
    else Attachable(s, p, b)
  }

  lemma LinkAddIs(s: Switch, device: Option<string>, parent: string)
    ensures var t := if device.Some? then Exec(s, LinkAdd(device.value, parent)) else s;
      t == s.(links := if device.Some? && parent in s.links then s.links + {device.value} else s.links)
  {
    if device.Some? && device.value in s.links { assert s.links + {device.value} == s.links; }
  }

  /** The switch once a link has been created, if one is, and the interface's state set. */
  function WithLink(s: Switch, device: Option<string>, parent: string, p: string, cmd: int): Switch {
    AdminSet(if device.Some? then Exec(s, LinkAdd(device.value, parent)) else s, p, cmd)
  }

  lemma WithLinkFrame(s: Switch, device: Option<string>, parent: string, p: string, cmd: int)
    requires Consistent(s)
    ensures var t := WithLink(s, device, parent, p, cmd);
      && Consistent(t) && t.ports == s.ports && t.bridges == s.bridges
      && t.links == if device.Some? && parent in s.links then s.links + {device.value} else s.links
  {
    LinkAddIs(s, device, parent);
    var t := if device.Some? then Exec(s, LinkAdd(device.value, parent)) else s;
    if device.Some? { ExecKeepsConsistent(s, LinkAdd(device.value, parent)); }
    AdminKeepsConsistent(t, p, cmd);
    assert AdminSet(t, p, cmd) == t.(admin := AdminSet(t, p, cmd).admin);
  }

  function LinkMade(s: Switch, env: Env, req: GatewayConfig): Switch {
    WithLink(s, LinkDevice(env, req), req.parentIfname, req.ifName, req.ifCmd)
  }

  lemma LinkMadeFrame(s: Switch, env: Env, req: GatewayConfig)
    requires LinkType(req) && Consistent(s)
    ensures var t := LinkMade(s, env, req);
      && Consistent(t) && t.ports == s.ports && t.bridges == s.bridges
      && (Attachable(t, req.ifName, req.parentBridge) <==> Joins(s, env, req))
  {
    WithLinkFrame(s, LinkDevice(env, req), req.parentIfname, req.ifName, req.ifCmd);
  }

  lemma LinkDoneIs(s: Switch, env: Env, req: GatewayConfig)
    requires LinkType(req)
    ensures var p, b, cmd := req.ifName, req.parentBridge, req.ifCmd; var s1 := LinkMade(s, env, req);
      Done(s, env, req)
      == if cmd == IF_DELETE_CMD then Exec(s, LinkDel(p)) else if b == "" then s1 else Moved(s1, env, p, b, cmd)
  {
  }

  lemma LinkPorts(s: Switch, env: Env, req: GatewayConfig)
    requires LinkType(req) && Consistent(s)
    ensures Done(s, env, req).ports ==
      if req.ifCmd == IF_DELETE_CMD || req.parentBridge == "" then s.ports
      else Rehomed(LinkMade(s, env, req), req.ifName, req.parentBridge, req.ifCmd, OvsManaged(req.parentBridge)).ports
  {
    LinkDoneIs(s, env, req);
    LinkMadeFrame(s, env, req);
    MovedPorts(LinkMade(s, env, req), env, req.ifName, req.parentBridge, req.ifCmd);
  }

  /** An interface brought up with an OVS parent bridge is in that bridge afterwards,
      from any state of the switch, exactly when it can join it; otherwise it is in no
      OVS bridge. This is so for every type but bridge. */
  lemma UpJoinsParent(s: Switch, env: Env, req: GatewayConfig)
    requires Consistent(s) && req.ifType != BRIDGE_IF_TYPE && req.ifCmd == IF_UP_CMD
    requires req.parentBridge != "" && OvsManaged(req.parentBridge)
    ensures var p, b := req.ifName, req.parentBridge; var s' := Done(s, env, req);
      && (InBridge(s', p, b) <==> Joins(s, env, req))
      && (!Joins(s, env, req) ==> p !in s'.ports)
  {
    if LinkType(req) {
      LinkMadeFrame(s, env, req);
      LinkPorts(s, env, req);
      RehomedPorts(LinkMade(s, env, req), req.ifName, req.parentBridge, IF_UP_CMD);
    } else {
      PortUpJoins(s, env, req);
    }
  }

  /** A request of bridge type moves no port; only the deletion of the bridge detaches
      the ports that were in it. */
  lemma BridgeMembership(s: Switch, env: Env, req: GatewayConfig)
    requires Consistent(s) && req.ifType == BRIDGE_IF_TYPE
    ensures Done(s, env, req).ports ==
      if req.ifCmd == IF_DELETE_CMD then WithoutValue(s.ports, req.ifName) else s.ports
  {
    if req.ifCmd == IF_DELETE_CMD {
      assert req.ifName !in s.bridges ==> WithoutValue(s.ports, req.ifName) == s.ports;
    } else {
      EditsOnlyFlows(Configured(Exec(s, AddBr(req.ifName)), req), BridgeEdits(env, req.parentBridge, req.ifCmd));
    }
  }

  /** Whatever the type and the command, every other port keeps its OVS membership, but
      for the possible attachment of the backhaul interface by the workaround and for
      the ports of a bridge that is deleted. */
  lemma OthersKeepMembership(s: Switch, env: Env, req: GatewayConfig, q: string)
    requires Consistent(s) && q != req.ifName
    requires req.ifType != BRIDGE_IF_TYPE && !LinkType(req) ==>
      q != PUMA.backhaul || !NeedsPuma(env, req.ifName, req.ifCmd)
    ensures var s' := Done(s, env, req);
      && (q in s'.ports <==>
            q in s.ports && !(req.ifType == BRIDGE_IF_TYPE && req.ifCmd == IF_DELETE_CMD && s.ports[q] == req.ifName))
      && (q in s'.ports ==> s'.ports[q] == s.ports[q])
  {
    if req.ifType == BRIDGE_IF_TYPE {
      BridgeMembership(s, env, req);
    } else if LinkType(req) {
      LinkMadeFrame(s, env, req);
      LinkPorts(s, env, req);
      RehomedOthers(LinkMade(s, env, req), req.ifName, req.parentBridge, req.ifCmd, OvsManaged(req.parentBridge), q);
    } else {
      PortKeepsOthers(s, env, req, q);
    }
  }

  /** An interface brought down joins its parent bridge only if it was in no OVS bridge;
      bridge removal detaches it only from its parent bridge; deletion detaches it
      from none. Without an OVS parent bridge no command but up moves it. */
  lemma OtherCommandsMembership(s: Switch, env: Env, req: GatewayConfig)
    requires Consistent(s) && req.ifType != BRIDGE_IF_TYPE && req.ifCmd != IF_UP_CMD
    ensures var p, b, cmd := req.ifName, req.parentBridge, req.ifCmd; var ports := Done(s, env, req).ports;
      if cmd == IF_DELETE_CMD || b == "" || !OvsManaged(b) then ports == s.ports
      else if cmd == BR_REMOVE_CMD then ports == if InBridge(s, p, b) then s.ports - {p} else s.ports
      else ports == if p !in s.ports && Joins(s, env, req) then s.ports[p := b] else s.ports
  {
    if LinkType(req) {
      LinkOtherCommands(s, env, req);
    } else {
      PortOtherCommands(s, env, req);
    }
  }

  lemma LinkOtherCommands(s: Switch, env: Env, req: GatewayConfig)
    requires Consistent(s) && LinkType(req) && req.ifCmd != IF_UP_CMD
    ensures var p, b, cmd := req.ifName, req.parentBridge, req.ifCmd; var ports := Done(s, env, req).ports;
      if cmd == IF_DELETE_CMD || b == "" || !OvsManaged(b) then ports == s.ports
      else if cmd == BR_REMOVE_CMD then ports == if InBridge(s, p, b) then s.ports - {p} else s.ports
      else ports == if p !in s.ports && Joins(s, env, req) then s.ports[p := b] else s.ports
  {
    var p, b, cmd := req.ifName, req.parentBridge, req.ifCmd;
    LinkPorts(s, env, req);
    if cmd != IF_DELETE_CMD && b != "" {
      var s1 := LinkMade(s, env, req);
      LinkMadeFrame(s, env, req);
      if OvsManaged(b) {
        RehomedPorts(s1, p, b, cmd);
      } else if cmd != BR_REMOVE_CMD {
        RehomedIs(s1, p, b, cmd, false);
        CreatedPorts(Leave(s1, p, b, cmd, false), b, cmd, false);
      }
    }
  }

  // ----- Statuses that mislead -----

  lemma BridgeDoneBridges(s: Switch, env: Env, req: GatewayConfig)
    requires req.ifCmd != IF_DELETE_CMD
    ensures BridgeDone(s, env, req).bridges == Exec(s, AddBr(req.ifName)).bridges
  {
    EditsOnlyFlows(Configured(Exec(s, AddBr(req.ifName)), req), BridgeEdits(env, req.parentBridge, req.ifCmd));
  }

  /** Bridge creation reports failure exactly on the models with Wifi flows when no
      parent bridge is named. Whether the bridge exists afterwards does not depend on
      that: it does exactly when it existed or its name was free. */
  lemma BridgeCreationStatus(s: Switch, env: Env, req: GatewayConfig)
    requires req.ifType == BRIDGE_IF_TYPE && req.ifCmd != IF_DELETE_CMD
    ensures DoneStatus(env, req) == Failed <==> WifiModel(env) && req.parentBridge == ""
    ensures req.ifName in Done(s, env, req).bridges <==>
            req.ifName in s.bridges || (req.ifName !in s.links && req.ifName !in s.ports)
  {
    BridgeDoneBridges(s, env, req);
  }
}
