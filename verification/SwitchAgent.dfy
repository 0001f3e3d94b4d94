/** The agent's actions, command by command. */
module SwitchAgent {
  import opened OvsTypes
  import opened Switch
  import opened SwitchSpec

  /** `env` is fixed at initialisation and by the environment; `sw` is the switch
      outside the process, which every command changes. The queries are faithful. */
  class Actions {
    const env: Env
    var sw: Switch

    constructor (env: Env, sw: Switch)
      ensures this.env == env && this.sw == sw
    {
      this.env := env;
      this.sw := sw;
    }

    /** `system`. */
    method Run(c: Command)
      modifies this
      ensures sw == Exec(old(sw), c)
    {
      sw := Exec(sw, c);
    }

    method SetAdmin(x: string, cmd: int)
      modifies this
      ensures sw == AdminSet(old(sw), x, cmd)
    {
      if UpOrDown(cmd) {
        Run(IfConfig(x, cmd == IF_UP_CMD));
      }
    }

    // ----- Flows -----

    method Edit(e: FlowEdit)
      modifies this
      ensures sw == Edited(old(sw), e)
    {
      Run(DelFlow(e.key));
      if e.action.Some? {
        Run(AddFlow(e.key, e.action.value));
        assert (old(sw).flows - {e.key})[e.key := e.action.value] == old(sw).flows[e.key := e.action.value];
      }
    }

    /** `ovs_setup_brcm_wifi_flows`: a loop over the ether types. */
    method SetUpWifiFlows(b: string, cmd: int) returns (status: Status)
      modifies this
      ensures status == (if b == "" then Failed else Success)
      ensures sw == if b == "" then old(sw) else Edits(old(sw), WifiEdits(env, b, cmd))
    {
      if b == "" { return Failed; }
      var ethTypes := [ETHER_TYPE_BRCM, ETHER_TYPE_BRCM_AIRIQ, ETHER_TYPE_802_1X];
      ghost var done: seq<FlowEdit> := [];
      var idx := 0;
      while idx < |ethTypes|
        invariant 0 <= idx <= 3
        invariant sw == Edits(old(sw), done)
        invariant done == if idx < 3 then WifiEdits(env, b, cmd)[..idx] else WifiEdits(env, b, cmd)
      {
        if !(Skips8021X(env) && ethTypes[idx] == ETHER_TYPE_802_1X) {
          var e := WifiEdit(b, ethTypes[idx], cmd);
          Edit(e);
          EditsAppend(old(sw), done, e);
          done := done + [e];
        }
        idx := idx + 1;
      }
      return Success;
    }

    method SetUpBridgeFlows(b: string, cmd: int) returns (status: Status)
      modifies this
      ensures status == BridgeFlowsStatus(env, b)
      ensures sw == Edits(old(sw), BridgeEdits(env, b, cmd))
    {
      status := Success;
      if WifiModel(env) {
        status := SetUpWifiFlows(b, cmd);
      }
    }

    /** `ovs_setup_admin_gui_access`: both deletions come before both additions. */
    method SetUpAdminGuiAccess(p: string, b: string, cmd: int) returns (status: Status)
      modifies this
      ensures sw == Edits(old(sw), AdminGuiEdits(env, p, b, cmd))
    {
      if env.lan0Ip.None? { return Failed; }
      var arp := FlowKey(b, ArpTo(env.lan0Ip.value));
      var ip := FlowKey(b, IpTo(env.lan0Ip.value));
      Run(DelFlow(arp));
      Run(DelFlow(ip));
      status := Success;
      if cmd != BR_REMOVE_CMD {
        if env.lan0Mac.None? {
          status := Failed;
        } else {
          Run(AddFlow(arp, Rewrite(env.lan0Mac.value, p)));
          Run(AddFlow(ip, Rewrite(env.lan0Mac.value, p)));
        }
      }
      var es := AdminGuiEdits(env, p, b, cmd);
      TwoEdits(old(sw), arp, ip, es[0].action);
      assert es == [FlowEdit(arp, es[0].action), FlowEdit(ip, es[0].action)];
    }

    method BlockMsoUiAccess(b: string, cmd: int) returns (status: Status)
      modifies this
      ensures status == (if env.cmIp.None? then Failed else Success)
      ensures sw == Edits(old(sw), BlockEdits(env, b, cmd))
    {
      if env.cmIp.None? { return Failed; }
      var e := FlowEdit(FlowKey(b, Ipv6To(env.cmIp.value)), Unless(cmd == BR_REMOVE_CMD, Drop));
      Edit(e);
      EditsAppend(old(sw), [], e);
      assert [] + [e] == [e];
      return Success;
    }

    method SetUpPortFlows(p: string, b: string, cmd: int) returns (status: Status)
      modifies this
      ensures status == PortFlowsStatus(env, p, b)
      ensures sw == Edits(old(sw), PortEdits(env, p, b, cmd))
    {
      status := Success;
      if b == BRLAN0 && p == LLAN0 {
        if GuiModel(env) {
          status := SetUpAdminGuiAccess(p, b, cmd);
          status := BlockMsoUiAccess(b, cmd);
          EditsConcat(old(sw), AdminGuiEdits(env, p, b, cmd), BlockEdits(env, b, cmd));
        }
      } else if b == BR106 && p == WL0_3 {
        status := SetUpBridgeFlows(b, cmd);
      }
    }

    // ----- Membership -----

    /** `getExistingOvsParentBridge`. */
    method ExistingOvsBridge(p: string) returns (bridge: Option<string>)
      ensures bridge == if p in sw.ports then Some(sw.ports[p]) else None
    {
      bridge := if p in sw.ports then Some(sw.ports[p]) else None;
    }

    /** `getExistingLinuxParentBridge`. */
    method ExistingLinuxBridge(p: string) returns (bridge: Option<string>)
      ensures bridge == if p in sw.members then Some(sw.members[p]) else None
    {
      bridge := if p in sw.members then Some(sw.members[p]) else None;
    }

    /** `removeExistingInterfacePort`. */
    method RemoveExistingInterfacePort(p: string, b: string, cmd: int)
      modifies this
      ensures sw == Leave(old(sw), p, b, cmd, OvsManaged(b))
    {
      var existing;
      if OvsManaged(b) {
        existing := ExistingOvsBridge(p);
      } else {
        existing := ExistingLinuxBridge(p);
      }
      if existing.None? { return; }
      var removePort := false;
      if existing.value == b && cmd == BR_REMOVE_CMD {
        removePort := true;
      } else if existing.value != b && cmd == IF_UP_CMD {
        removePort := true;
      }
      if !removePort { return; }
      if OvsManaged(b) {
        Run(DelPort(existing.value, p));
      } else {
        Run(DelIf(existing.value, p));
      }
    }

    /** `configureParentBridge`. */
    method ConfigureParentBridge(p: string, b: string, cmd: int) returns (exists_: bool)
      modifies this
      ensures exists_ == (b in old(sw).links)
      ensures sw == Join(AdminSet(Create(old(sw), b, OvsManaged(b)), b, cmd), p, b, OvsManaged(b))
    {
      exists_ := b in sw.links;
      if !exists_ {
        if OvsManaged(b) { Run(AddBr(b)); } else { Run(BrctlAddBr(b)); }
      }
      assert sw == Create(old(sw), b, OvsManaged(b));
      SetAdmin(b, cmd);
      if OvsManaged(b) { Run(AddPort(b, p)); } else { Run(AddIf(b, p)); }
    }

    /** `ovs_modifyParentBridge`. */
    method ModifyParentBridge(p: string, b: string, cmd: int) returns (status: Status)
      modifies this
      ensures status == MovedStatus(old(sw), env, b, cmd)
      ensures sw == Moved(old(sw), env, p, b, cmd)
    {
      status := Success;
      RemoveExistingInterfacePort(p, b, cmd);
      if cmd != BR_REMOVE_CMD {
        var bridgeExists := ConfigureParentBridge(p, b, cmd);
        if !bridgeExists {
          status := SetUpBridgeFlows(b, cmd);
        }
      }
    }

    // ----- The Puma7 switch workaround -----

    /** `setupEthSwitchCmds`. */
    method SetUpEthSwitch(p: string)
      requires SwitchPort(PUMA, p) && Consistent(sw)
      modifies this
      ensures sw == Cycled(old(sw), Dummy(PUMA, p), p)
    {
      var d := Dummy(PUMA, p);
      Run(BrctlAddBr(d));
      if p == PUMA.i1 {
        Run(SwitchInterface(d, p));
      }
      Run(SwitchInterface(d, p));
      Run(DelIf(d, p));
      Run(IfConfig(d, false));
      Run(BrctlDelBr(d));
      PumaNamesApart();
      OneCycle(old(sw), d, p);
    }

    /** `setupAndRestoreEthSwitchCmds`: both switch ports are taken out of their OVS
        bridges, and the sibling is put back at the end. */
    method SetUpAndRestoreEthSwitch(p: string, sibling: string, restoreBridge: string)
      requires SwitchPort(PUMA, p) && sibling == Sibling(PUMA, p) && Consistent(sw)
      requires sibling in sw.ports && sw.ports[sibling] == restoreBridge
      modifies this
      ensures sw == Cycled(Cycled(old(sw).(ports := old(sw).ports - {p}), PUMA.d1, PUMA.i1), PUMA.d2, PUMA.i2)
    {
      PumaNamesApart();
      ghost var s := sw;
      Run(DelPort(restoreBridge, sibling));
      var parent := ExistingOvsBridge(p);
      if parent.Some? {
        Run(DelPort(parent.value, p));
      }
      assert sw.ports == s.ports - {sibling} - {p};
      DetachedIsConsistent(s, sibling, p);
      CycleBoth(p, sibling);
      Run(AddPort(restoreBridge, sibling));
      SiblingReturns(s, p, sibling);
    }

    /** The dummy bridges in which the switch creates both interfaces. */
    method CycleBoth(p: string, sibling: string)
      requires SwitchPort(PUMA, p) && sibling == Sibling(PUMA, p) && Consistent(sw)
      modifies this
      ensures sw == Cycled(Cycled(old(sw), PUMA.d1, PUMA.i1), PUMA.d2, PUMA.i2)
    {
      PumaNamesApart();
      TwoCycles(sw, PUMA.d1, PUMA.d2, PUMA.i1, PUMA.i2);
      Run(BrctlAddBr(PUMA.d1));
      Run(BrctlAddBr(PUMA.d2));
      Run(SwitchInterface(PUMA.d1, PUMA.i1));
      Run(SwitchInterface(PUMA.d2, PUMA.i2));
      Run(DelIf(Dummy(PUMA, p), p));
      Run(DelIf(Dummy(PUMA, sibling), sibling));
      Run(IfConfig(PUMA.d1, false));
      Run(BrctlDelBr(PUMA.d1));
      Run(IfConfig(PUMA.d2, false));
      Run(BrctlDelBr(PUMA.d2));
    }

    /** `ovs_setupEthSwitch`. */
    method SetUpSwitch(p: string)
      requires SwitchPort(PUMA, p) && Consistent(sw)
      modifies this
      ensures sw == PumaSetUp(old(sw), PUMA, p)
    {
      var backhaulFound := PUMA.backhaul in sw.links;
      var sibling := Sibling(PUMA, p);
      var found := ExistingOvsBridge(sibling);
      if sibling in sw.links && found.Some? {
        SetUpAndRestoreEthSwitch(p, sibling, found.value);
      } else {
        SetUpEthSwitch(p);
      }
      PumaNamesApart();
      SwitchCycledFrame(old(sw), PUMA, p);
      if backhaulFound {
        RestoreBackhaul();
      }
    }

    method RestoreBackhaul()
      requires PUMA.backhaul in sw.links
      modifies this
      ensures sw == BackhaulRestored(old(sw), PUMA)
    {
      Run(LinkAdd(PUMA.backhaul, PUMA.i1));
      Run(IfConfig(PUMA.backhaul, true));
      Run(AddPort(PUMA.backhaulBridge, PUMA.backhaul));
    }

    // ----- Requests -----

    /** `ovs_addPort`. */
    method DoPort(req: GatewayConfig) returns (status: Status)
      requires Consistent(sw)
      modifies this
      ensures status == PortStatus(env, req)
      ensures sw == PortDone(old(sw), env, req)
    {
      var p, b, cmd := req.ifName, req.parentBridge, req.ifCmd;
      status := Success;
      if cmd == IF_DELETE_CMD {
        Run(LinkDel(p));
        return;
      } else if UpOrDown(cmd) {
        if NeedsPuma(env, p, cmd) {
          SetUpSwitch(p);
        }
        SetAdmin(p, cmd);
      }
      if b != "" {
        status := ModifyParentBridge(p, b, cmd);
        if status != Success { return; }
        status := SetUpPortFlows(p, b, cmd);
      }
    }

    /** `ovs_createBridge`. */
    method DoBridge(req: GatewayConfig) returns (status: Status)
      modifies this
      ensures status == BridgeStatus(env, req)
      ensures sw == BridgeDone(old(sw), env, req)
    {
      var b, cmd := req.ifName, req.ifCmd;
      if cmd == IF_DELETE_CMD {
        Run(DelBr(b));
        return Success;
      }
      Run(AddBr(b));
      if req.inetAddr != "" {
        Run(IfAddress(b, req.inetAddr, req.netmask));
      }
      SetAdmin(b, cmd);
      if req.mtu != 0 {
        Run(IfMtu(b, req.mtu));
      }
      status := SetUpBridgeFlows(req.parentBridge, cmd);
    }

    /** `ovs_createVlan`, and `ovs_createGRE` with the link it creates. */
    method DoLink(req: GatewayConfig, create: bool, device: string) returns (status: Status)
      modifies this
      ensures status == Success
      ensures sw == LinkDone(old(sw), env, req, create, device)
    {
      var p, b, cmd := req.ifName, req.parentBridge, req.ifCmd;
      status := Success;
      if cmd == IF_DELETE_CMD {
        Run(LinkDel(p));
        return;
      }
      if create {
        Run(LinkAdd(device, req.parentIfname));
      }
      SetAdmin(p, cmd);
      if b != "" {
        status := ModifyParentBridge(p, b, cmd);
      }
    }

    /** `ovs_action_gateway_config`. */
    method Perform(req: GatewayConfig) returns (status: Status)
      requires Consistent(sw)
      modifies this
      ensures status == DoneStatus(env, req)
      ensures sw == Done(old(sw), env, req)
    {
      if req.ifType == BRIDGE_IF_TYPE {
        status := DoBridge(req);
      } else if req.ifType == VLAN_IF_TYPE {
        status := DoLink(req, req.parentIfname != "", VlanDevice(env, req));
      } else if req.ifType == GRE_IF_TYPE {
        status := DoLink(req, GreComplete(req), req.ifName);
      } else {
        status := DoPort(req);
      }
    }
  }

  // ----- Sequences of flow edits -----

  lemma EditsAppend(s: Switch, es: seq<FlowEdit>, e: FlowEdit)
    ensures Edits(s, es + [e]) == Edited(Edits(s, es), e)
  {
    EditsConcat(s, es, [e]);
    assert Edits(Edited(Edits(s, es), e), []) == Edited(Edits(s, es), e);
  }

  lemma TwoEdits(s: Switch, k1: FlowKey, k2: FlowKey, action: Option<FlowAction>)
    requires k1 != k2
    ensures var s2 := Exec(Exec(s, DelFlow(k1)), DelFlow(k2));
      Edits(s, [FlowEdit(k1, action), FlowEdit(k2, action)]) ==
        if action.None? then s2 else Exec(Exec(s2, AddFlow(k1, action.value)), AddFlow(k2, action.value))
  {
    var e1, e2 := FlowEdit(k1, action), FlowEdit(k2, action);
    EditsAppend(s, [e1], e2);
    EditsAppend(s, [], e1);
    assert [e1] + [e2] == [e1, e2] && [] + [e1] == [e1];
    if action.Some? {
      TwoFlows(s.flows, k1, k2, action.value);
    }
  }

  lemma TwoFlows(f: map<FlowKey, FlowAction>, k1: FlowKey, k2: FlowKey, a: FlowAction)
    requires k1 != k2
    ensures (f - {k1} - {k2})[k1 := a][k2 := a] == f[k1 := a][k2 := a]
    ensures (f - {k1} - {k2})[k1 := a] == f[k1 := a] - {k2}
    ensures (f - {k1} - {k2})[k2 := a] == (f - {k1})[k2 := a]
  {
  }

  // ----- Cycles of dummy bridges -----

  lemma DetachedIsConsistent(s: Switch, p: string, q: string)
    requires Consistent(s)
    ensures Consistent(s.(ports := s.ports - {p} - {q}))
  {
  }

  /** The bridge d does not exist or is a Linux bridge, so the cycle is its owner. */
  predicate Owned(s: Switch, d: string) {
    d in s.linuxBridges || d !in s.links
  }

  function Opened(s: Switch, d: string): Switch {
    if Owned(s, d) then s.(links := s.links + {d}, linuxBridges := s.linuxBridges + {d}) else s
  }

  function Dropped(m: map<string, string>, i: string, d: string): map<string, string> {
    if i in m && m[i] == d then m - {i} else m
  }

  /** Interface i has been created in bridge d and taken out again. */
  function Passed(s: Switch, d: string, i: string): Switch {
    if d in s.linuxBridges then s.(links := s.links + {i}, members := Dropped(s.members, i, d)) else s
  }

  function Closed(s: Switch, d: string): Switch {
    if d in s.linuxBridges
    then s.(links := s.links - {d}, linuxBridges := s.linuxBridges - {d},
            members := WithoutValue(s.members, d), admin := s.admin - {d})
    else if d in s.links then s.(admin := s.admin[d := false]) else s
  }

  lemma OpenStep(s: Switch, d: string)
    requires Consistent(s)
    ensures Exec(s, BrctlAddBr(d)) == Opened(s, d) && Consistent(Opened(s, d))
  {
  }

  lemma PassStep(s: Switch, d: string, i: string)
    requires Consistent(s)
    ensures Exec(Exec(s, SwitchInterface(d, i)), DelIf(d, i)) == Passed(s, d, i)
  {
    if d in s.linuxBridges {
      var t := s.(links := s.links + {i});
      if Enslaved(t, d, i) == t {
        assert Exec(t, DelIf(d, i)).members == Dropped(s.members, i, d);
      } else {
        assert i !in s.members && s.members[i := d] - {i} == s.members;
      }
    } else {
      assert Exec(s, DelIf(d, i)) == s;
    }
  }

  lemma PassKeepsConsistent(s: Switch, d: string, i: string)
    requires Consistent(s)
    ensures Consistent(Passed(s, d, i))
  {
  }

  /** Adding the interface a second time changes nothing. */
  lemma EnterTwice(s: Switch, d: string, i: string)
    ensures Exec(Exec(s, SwitchInterface(d, i)), SwitchInterface(d, i)) == Exec(s, SwitchInterface(d, i))
  {
  }

  lemma CloseStep(s: Switch, d: string)
    requires Consistent(s)
    ensures Exec(Exec(s, IfConfig(d, false)), BrctlDelBr(d)) == Closed(s, d)
  {
    assert s.admin[d := false] - {d} == s.admin - {d};
  }

  /** Taking the sibling out and putting it back leaves only p detached. */
  lemma SiblingReturns(s: Switch, p: string, sibling: string)
    requires Consistent(s) && sibling in s.ports && sibling != p
    ensures Exec(Cycled(Cycled(s.(ports := s.ports - {sibling} - {p}), PUMA.d1, PUMA.i1), PUMA.d2, PUMA.i2),
                 AddPort(s.ports[sibling], sibling))
            == Cycled(Cycled(s.(ports := s.ports - {p}), PUMA.d1, PUMA.i1), PUMA.d2, PUMA.i2)
  {
    assert (s.ports - {sibling} - {p})[sibling := s.ports[sibling]] == s.ports - {p};
  }

  lemma OneCycle(s: Switch, d: string, i: string)
    requires Consistent(s) && d != i
    ensures var s2 := Exec(Exec(s, BrctlAddBr(d)), SwitchInterface(d, i)); var s3 := Exec(s2, DelIf(d, i));
      Exec(s2, SwitchInterface(d, i)) == s2 && Exec(Exec(s3, IfConfig(d, false)), BrctlDelBr(d)) == Cycled(s, d, i)
  {
    OpenStep(s, d);
    PassStep(Opened(s, d), d, i);
    PassKeepsConsistent(Opened(s, d), d, i);
    EnterTwice(Opened(s, d), d, i);
    CloseStep(Passed(Opened(s, d), d, i), d);
    var t := Closed(Passed(Opened(s, d), d, i), d);
    if Owned(s, d) {
      assert t.links == s.links + {i} - {d};
      assert t.linuxBridges == s.linuxBridges - {d};
      assert t.members == WithoutValue(s.members, d);
    }
  }

  /** Entering one bridge and leaving the other can be exchanged. */
  lemma Exchange(s: Switch, d1: string, d2: string, i1: string, i2: string)
    requires i1 != i2
    ensures Exec(Exec(s, SwitchInterface(d2, i2)), DelIf(d1, i1))
            == Exec(Exec(s, DelIf(d1, i1)), SwitchInterface(d2, i2))
  {
    var m := s.members;
    if i1 in m && m[i1] == d1 {
      var left := s.(members := m - {i1});
      assert Exec(s, DelIf(d1, i1)) == left;
      if d2 in s.linuxBridges {
        ExchangeEnslaved(s.(links := s.links + {i2}), d1, d2, i1, i2);
      }
    } else {
      assert Exec(s, DelIf(d1, i1)) == s;
    }
  }

  lemma ExchangeEnslaved(t: Switch, d1: string, d2: string, i1: string, i2: string)
    requires i1 != i2 && i1 in t.members && t.members[i1] == d1
    ensures var t' := t.(members := t.members - {i1});
      Exec(Enslaved(t, d2, i2), DelIf(d1, i1)) == Enslaved(t', d2, i2)
  {
    var m := t.members;
    assert (m - {i1})[i2 := d2] == m[i2 := d2] - {i1};
  }

  lemma ExchangeLeaves(s: Switch, d1: string, d2: string, i1: string, i2: string)
    requires i1 != i2
    ensures Exec(Exec(s, DelIf(d2, i2)), DelIf(d1, i1)) == Exec(Exec(s, DelIf(d1, i1)), DelIf(d2, i2))
  {
    assert Exec(s, DelIf(d1, i1)) == s.(members := Dropped(s.members, i1, d1));
    assert Exec(s, DelIf(d2, i2)) == s.(members := Dropped(s.members, i2, d2));
    assert Dropped(Dropped(s.members, i2, d2), i1, d1) == Dropped(Dropped(s.members, i1, d1), i2, d2);
  }

  lemma CycleParts(s: Switch, d: string, i: string)
    requires Consistent(s) && d != i
    ensures Closed(Passed(Opened(s, d), d, i), d) == Cycled(s, d, i) && Consistent(Cycled(s, d, i))
  {
    OneCycle(s, d, i);
    OpenStep(s, d);
    PassStep(Opened(s, d), d, i);
    PassKeepsConsistent(Opened(s, d), d, i);
    var t := Passed(Opened(s, d), d, i);
    CloseStep(t, d);
    RemovalKeepsConsistent(Exec(t, IfConfig(d, false)), BrctlDelBr(d));
  }

  lemma PassedOpened(s: Switch, d1: string, i1: string, d2: string)
    requires d1 != d2 && i1 != d2
    ensures Passed(Opened(s, d2), d1, i1) == Opened(Passed(s, d1, i1), d2)
  {
    assert s.links + {d2} + {i1} == s.links + {i1} + {d2};
  }

  lemma SetSwap(x: set<string>, a: string, b: string)
    requires a != b
    ensures x + {a} - {b} == x - {b} + {a}
  {
  }

  lemma DroppedWithout(m: map<string, string>, i: string, d: string, v: string)
    ensures WithoutValue(Dropped(m, i, d), v) == Dropped(WithoutValue(m, v), i, d)
  {
  }

  lemma ClosedPassed(s: Switch, d1: string, d2: string, i2: string)
    requires d1 != d2 && i2 != d1
    ensures Closed(Passed(s, d2, i2), d1) == Passed(Closed(s, d1), d2, i2)
  {
    if d2 in s.linuxBridges && d1 in s.linuxBridges {
      SetSwap(s.links, i2, d1);
      DroppedWithout(s.members, i2, d2, d1);
    } else if d2 in s.linuxBridges {
      assert d1 in s.links + {i2} <==> d1 in s.links;
    }
  }

  lemma ClosedOpened(s: Switch, d1: string, d2: string)
    requires d1 != d2
    ensures Closed(Opened(s, d2), d1) == Opened(Closed(s, d1), d2)
  {
    if Owned(s, d2) && d1 in s.linuxBridges {
      assert Owned(Closed(s, d1), d2);
      SetSwap(s.links, d2, d1);
      SetSwap(s.linuxBridges, d2, d1);
    } else if Owned(s, d2) {
      assert d1 in s.links + {d2} <==> d1 in s.links;
      assert Owned(Closed(s, d1), d2);
    } else {
      assert !Owned(Closed(s, d1), d2);
    }
  }

  lemma CloseBoth(s: Switch, d1: string, d2: string, i1: string, i2: string)
    requires Consistent(s) && d1 != d2 && i1 != i2 && d1 != i1 && d1 != i2 && d2 != i1 && d2 != i2
    ensures var t := Passed(Passed(Opened(Opened(s, d1), d2), d1, i1), d2, i2);
      Closed(Closed(t, d1), d2) == Cycled(Cycled(s, d1, i1), d2, i2)
  {
    var x := Passed(Opened(s, d1), d1, i1);
    PassedOpened(Opened(s, d1), d1, i1, d2);
    ClosedPassed(Opened(x, d2), d1, d2, i2);
    ClosedOpened(x, d1, d2);
    CycleParts(s, d1, i1);
    CycleParts(Cycled(s, d1, i1), d2, i2);
  }

  /** Two cycles run interleaved have the effect of one after the other. */
  lemma TwoCycles(s: Switch, d1: string, d2: string, i1: string, i2: string)
    requires Consistent(s) && d1 != d2 && i1 != i2 && d1 != i1 && d1 != i2 && d2 != i1 && d2 != i2
    ensures var s1 := Exec(Exec(s, BrctlAddBr(d1)), BrctlAddBr(d2));
      var s2 := Exec(Exec(s1, SwitchInterface(d1, i1)), SwitchInterface(d2, i2));
      && Exec(Exec(s2, DelIf(d1, i1)), DelIf(d2, i2)) == Exec(Exec(s2, DelIf(d2, i2)), DelIf(d1, i1))
      && var s3 := Exec(Exec(s2, DelIf(d1, i1)), DelIf(d2, i2));
      && var s4 := Exec(Exec(s3, IfConfig(d1, false)), BrctlDelBr(d1));
      && Exec(Exec(s4, IfConfig(d2, false)), BrctlDelBr(d2)) == Cycled(Cycled(s, d1, i1), d2, i2)
  {
    var s1 := Opened(Opened(s, d1), d2);
    BothOpenAndPass(s, d1, d2, i1, i2);
    var t := Passed(Passed(s1, d1, i1), d2, i2);
    CloseStep(t, d1);
    RemovalKeepsConsistent(Exec(t, IfConfig(d1, false)), BrctlDelBr(d1));
    CloseStep(Closed(t, d1), d2);
    CloseBoth(s, d1, d2, i1, i2);
  }

  lemma BothOpenAndPass(s: Switch, d1: string, d2: string, i1: string, i2: string)
    requires Consistent(s) && i1 != i2
    ensures var s1 := Exec(Exec(s, BrctlAddBr(d1)), BrctlAddBr(d2));
      var s2 := Exec(Exec(s1, SwitchInterface(d1, i1)), SwitchInterface(d2, i2));
      var t := Passed(Passed(Opened(Opened(s, d1), d2), d1, i1), d2, i2);
      && Exec(Exec(s2, DelIf(d1, i1)), DelIf(d2, i2)) == Exec(Exec(s2, DelIf(d2, i2)), DelIf(d1, i1)) == t
      && Consistent(t)
  {
    OpenStep(s, d1);
    OpenStep(Opened(s, d1), d2);
    var s1 := Opened(Opened(s, d1), d2);
    PassStep(s1, d1, i1);
    PassKeepsConsistent(s1, d1, i1);
    PassStep(Passed(s1, d1, i1), d2, i2);
    PassKeepsConsistent(Passed(s1, d1, i1), d2, i2);
    var e1 := Exec(s1, SwitchInterface(d1, i1));
    Exchange(e1, d1, d2, i1, i2);
    ExchangeLeaves(Exec(e1, SwitchInterface(d2, i2)), d1, d2, i1, i2);
  }
}
