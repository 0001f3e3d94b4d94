/** What requests do to the interfaces themselves: their administrative states, their
    addresses and MTU, the devices there are, and the memberships in Linux bridges. */
module SwitchStates {
  import opened OvsTypes
  import opened RequestIds
  import opened Switch
  import opened SwitchSpec
  import opened SwitchTheorems

  // ----- Administrative states -----

  /** The devices whose state a request sets: the interface, and the parent bridge of any
      request but one for a bridge. */
  predicate Addressed(req: GatewayConfig, x: string) {
    x == req.ifName || (req.ifType != BRIDGE_IF_TYPE && req.parentBridge != "" && x == req.parentBridge)
  }

  predicate PortType(req: GatewayConfig) {
    req.ifType != BRIDGE_IF_TYPE && !LinkType(req)
  }

  /** The requests for which the switch workaround runs, and the devices that it works with
      besides its ports. */
  predicate WorkaroundRequest(env: Env, req: GatewayConfig) {
    && PortType(req) && env.model == TG3482G && req.ifCmd == IF_UP_CMD
    && (req.ifName == "nsgmii1.100" || req.ifName == "nsgmii1.101")
  }

  predicate WorkaroundDevice(env: Env, req: GatewayConfig, x: string) {
    WorkaroundRequest(env, req) && (x == "dummy100" || x == "dummy101" || x == "ethsw123")
  }

  predicate SameState(s: Switch, s': Switch, x: string) {
    (x in s'.admin <==> x in s.admin) && (x in s.admin ==> s'.admin[x] == s.admin[x])
  }

  predicate StateIs(s: Switch, x: string, up: bool) {
    x in s.admin && s.admin[x] == up
  }

  lemma CreateStates(s: Switch, b: string, ovs: bool)
    ensures var t := Create(s, b, ovs);
      t.admin == s.admin && s.links <= t.links <= s.links + {b} && t.addresses == s.addresses && t.mtus == s.mtus
  {
    if ovs {
      assert Create(s, b, ovs) == Exec(s, AddBr(b));
    } else {
      assert Create(s, b, ovs) == Exec(s, BrctlAddBr(b));
    }
  }

  lemma JoinStates(s: Switch, p: string, b: string, ovs: bool)
    ensures var t := Join(s, p, b, ovs);
      t.admin == s.admin && t.links == s.links && t.addresses == s.addresses && t.mtus == s.mtus
  {
  }

  lemma AdminSetStates(s: Switch, x: string, cmd: int)
    ensures var t := AdminSet(s, x, cmd);
      && t == s.(admin := t.admin)
      && (cmd == IF_UP_CMD && x in s.links ==> StateIs(t, x, true))
      && (cmd == IF_DOWN_CMD && x in s.links ==> StateIs(t, x, false))
      && (cmd != IF_UP_CMD && cmd != IF_DOWN_CMD ==> t == s)
      && (forall y :: y != x || x !in s.links ==> SameState(s, t, y))
  {
  }

  /** From state s to t the request's command reaches x, or nothing at all does. */
  predicate Follows(s: Switch, t: Switch, cmd: int, x: string, reached: bool) {
    && (reached && x in t.links && cmd == IF_UP_CMD ==> StateIs(t, x, true))
    && (reached && x in t.links && cmd == IF_DOWN_CMD ==> StateIs(t, x, false))
    && (!reached || x !in t.links || (cmd != IF_UP_CMD && cmd != IF_DOWN_CMD) ==> SameState(s, t, x))
  }

  lemma RehomedStates(s: Switch, p: string, b: string, cmd: int, ovs: bool, x: string)
    ensures var t := Rehomed(s, p, b, cmd, ovs);
      && s.links <= t.links <= s.links + {b} && t.addresses == s.addresses && t.mtus == s.mtus
      && Follows(s, t, cmd, x, x == b)
  {
    var s0 := Leave(s, p, b, cmd, ovs);
    if cmd != BR_REMOVE_CMD {
      var c := Create(s0, b, ovs);
      CreateStates(s0, b, ovs);
      AdminSetStates(c, b, cmd);
      JoinStates(AdminSet(c, b, cmd), p, b, ovs);
    }
  }

  lemma MovedStates(s: Switch, env: Env, p: string, b: string, cmd: int, x: string)
    ensures var t := Moved(s, env, p, b, cmd);
      && s.links <= t.links <= s.links + {b} && t.addresses == s.addresses && t.mtus == s.mtus
      && Follows(s, t, cmd, x, x == b)
  {
    RehomedStates(s, p, b, cmd, OvsManaged(b), x);
    EditsOnlyFlows(Rehomed(s, p, b, cmd, OvsManaged(b)), NewBridgeEdits(s, env, b, cmd));
  }

  /** Setting the state of p and then moving it to b reaches both. */
  lemma SetAndMoved(s: Switch, env: Env, p: string, b: string, cmd: int, x: string)
    ensures var t := Moved(AdminSet(s, p, cmd), env, p, b, cmd); Follows(s, t, cmd, x, x == p || x == b)
  {
    AdminSetStates(s, p, cmd);
    MovedStates(AdminSet(s, p, cmd), env, p, b, cmd, x);
  }

  lemma CycledStates(s: Switch, d: string, i: string, x: string)
    ensures var t := Cycled(s, d, i);
      (x != d ==> SameState(s, t, x)) && t.addresses == s.addresses && t.mtus == s.mtus
  {
  }

  lemma SwitchCycledStates(s: Switch, n: Names, p: string, x: string)
    requires SwitchPort(n, p)
    ensures var t := SwitchCycled(s, n, p);
      (x != n.d1 && x != n.d2 ==> SameState(s, t, x)) && t.addresses == s.addresses && t.mtus == s.mtus
  {
    if Restores(s, n, p) {
      var s0 := s.(ports := s.ports - {p});
      CycledStates(s0, n.d1, n.i1, x);
      CycledStates(Cycled(s0, n.d1, n.i1), n.d2, n.i2, x);
    } else {
      CycledStates(s, Dummy(n, p), p, x);
    }
  }

  lemma BackhaulStates(s: Switch, n: Names, x: string)
    ensures var t := BackhaulRestored(s, n);
      (x != n.backhaul ==> SameState(s, t, x)) && t.addresses == s.addresses && t.mtus == s.mtus
  {
  }

  lemma PumaStates(s: Switch, n: Names, p: string, x: string)
    requires SwitchPort(n, p)
    ensures var t := PumaSetUp(s, n, p);
      && (x != n.d1 && x != n.d2 && x != n.backhaul ==> SameState(s, t, x))
      && t.addresses == s.addresses && t.mtus == s.mtus
  {
    SwitchCycledStates(s, n, p, x);
    BackhaulStates(SwitchCycled(s, n, p), n, x);
  }

  lemma PortStates(s: Switch, env: Env, req: GatewayConfig, x: string)
    requires PortType(req) && req.ifCmd != IF_DELETE_CMD
    ensures var s' := PortDone(s, env, req);
      && (!WorkaroundDevice(env, req, x) ==> Follows(s, s', req.ifCmd, x, Addressed(req, x)))
      && (Addressed(req, x) && x in s'.links && req.ifCmd == IF_UP_CMD ==> StateIs(s', x, true))
  {
    var p, b, cmd := req.ifName, req.parentBridge, req.ifCmd;
    var s0 := if NeedsPuma(env, p, cmd) then PumaSetUp(s, PUMA, p) else s;
    AdminSetStates(s0, p, cmd);
    if b != "" {
      SetAndMoved(s0, env, p, b, cmd, x);
      EditsOnlyFlows(Moved(AdminSet(s0, p, cmd), env, p, b, cmd), PortEdits(env, p, b, cmd));
    }
    if NeedsPuma(env, p, cmd) { PumaStates(s, PUMA, p, x); }
  }

  lemma LinkStates(s: Switch, env: Env, req: GatewayConfig, create: bool, device: string, x: string)
    requires req.ifType != BRIDGE_IF_TYPE && req.ifCmd != IF_DELETE_CMD
    ensures Follows(s, LinkDone(s, env, req, create, device), req.ifCmd, x, Addressed(req, x))
  {
    var p, b, cmd := req.ifName, req.parentBridge, req.ifCmd;
    var s0 := if create then Exec(s, LinkAdd(device, req.parentIfname)) else s;
    assert s0.admin == s.admin;
    AdminSetStates(s0, p, cmd);
    if b != "" { SetAndMoved(s0, env, p, b, cmd, x); }
  }

  lemma ConfiguredStates(s: Switch, req: GatewayConfig, x: string)
    ensures var t := Configured(s, req); t.links == s.links && Follows(s, t, req.ifCmd, x, x == req.ifName)
  {
    var s1 := if req.inetAddr != "" then Exec(s, IfAddress(req.ifName, req.inetAddr, req.netmask)) else s;
    assert s1.admin == s.admin && s1.links == s.links;
    AdminSetStates(s1, req.ifName, req.ifCmd);
    assert Configured(s, req).admin == AdminSet(s1, req.ifName, req.ifCmd).admin;
  }

  lemma BridgeStates(s: Switch, env: Env, req: GatewayConfig, x: string)
    requires req.ifType == BRIDGE_IF_TYPE && req.ifCmd != IF_DELETE_CMD
    ensures Follows(s, BridgeDone(s, env, req), req.ifCmd, x, Addressed(req, x))
  {
    var s1 := Exec(s, AddBr(req.ifName));
    assert s1.admin == s.admin;
    ConfiguredStates(s1, req, x);
    EditsOnlyFlows(Configured(s1, req), BridgeEdits(env, req.parentBridge, req.ifCmd));
  }

  /** After any request that brings up, the interface and its named parent bridge are up if
      they exist; after one that brings down they are down; any other command changes no
      state, but for the deleted interface; and no state of another device changes, but
      for those of the switch workaround. */
  lemma AdministrativeStates(s: Switch, env: Env, req: GatewayConfig, x: string)
    ensures var s' := Done(s, env, req);
      && (req.ifCmd == IF_UP_CMD && Addressed(req, x) && x in s'.links ==> StateIs(s', x, true))
      && (req.ifCmd == IF_DOWN_CMD && Addressed(req, x) && x in s'.links ==> StateIs(s', x, false))
      && (req.ifCmd != IF_UP_CMD && req.ifCmd != IF_DOWN_CMD && !(req.ifCmd == IF_DELETE_CMD && x == req.ifName) ==>
            SameState(s, s', x))
      && (!Addressed(req, x) && !WorkaroundDevice(env, req, x) ==> SameState(s, s', x))
  {
    if req.ifCmd == IF_DELETE_CMD {
    } else if req.ifType == BRIDGE_IF_TYPE {
      BridgeStates(s, env, req, x);
    } else if req.ifType == VLAN_IF_TYPE {
      LinkStates(s, env, req, req.parentIfname != "", VlanDevice(env, req), x);
    } else if req.ifType == GRE_IF_TYPE {
      LinkStates(s, env, req, GreComplete(req), req.ifName, x);
    } else {
      PortStates(s, env, req, x);
    }
  }

  /** Dummy bridge d has served to make interface i, or its name was taken by a device of
      another kind, which is then brought down. */
  predicate Made(s: Switch, t: Switch, d: string, i: string) {
    if d in s.links && d !in s.linuxBridges then StateIs(t, d, false) else i in t.links
  }

  lemma CycledMakes(s: Switch, d: string, i: string)
    requires d != i
    ensures Made(s, Cycled(s, d, i), d, i)
  {
  }

  lemma CycledKeeps(s: Switch, d: string, i: string, x: string)
    requires x != d && x != i
    ensures var t := Cycled(s, d, i);
      && (x in t.links <==> x in s.links) && (x in t.linuxBridges <==> x in s.linuxBridges) && SameState(s, t, x)
  {
  }

  lemma SwitchCycledMakes(s: Switch, n: Names, p: string)
    requires Apart(n) && SwitchPort(n, p)
    ensures Made(s, SwitchCycled(s, n, p), Dummy(n, p), p)
  {
    if Restores(s, n, p) {
      var s0 := s.(ports := s.ports - {p});
      var s1 := Cycled(s0, n.d1, n.i1);
      if p == n.i1 {
        CycledMakes(s0, n.d1, n.i1);
        CycledKeeps(s1, n.d2, n.i2, n.i1);
        CycledKeeps(s1, n.d2, n.i2, n.d1);
      } else {
        CycledKeeps(s0, n.d1, n.i1, n.d2);
        CycledMakes(s1, n.d2, n.i2);
      }
    } else {
      CycledMakes(s, Dummy(n, p), p);
    }
  }

  lemma BackhaulUp(t: Switch, n: Names)
    ensures n.backhaul in t.links ==> StateIs(BackhaulRestored(t, n), n.backhaul, true)
    ensures BackhaulRestored(t, n).links == t.links
  {
  }

  /** The workaround brings the backhaul interface up, if that exists, and makes the
      interface of its port, unless the name of its dummy bridge is taken. */
  lemma WorkaroundStates(s: Switch, n: Names, p: string)
    requires Apart(n) && SwitchPort(n, p)
    ensures var t := PumaSetUp(s, n, p);
      (n.backhaul in s.links ==> StateIs(t, n.backhaul, true)) && Made(s, t, Dummy(n, p), p)
  {
    SwitchCycledFrame(s, n, p);
    SwitchCycledMakes(s, n, p);
    BackhaulUp(SwitchCycled(s, n, p), n);
    BackhaulStates(SwitchCycled(s, n, p), n, Dummy(n, p));
  }

  lemma FromPrepared(s: Switch, env: Env, req: GatewayConfig, x: string)
    requires PortType(req) && req.ifCmd == IF_UP_CMD
    ensures var t := Prepared(s, env, req.ifName, IF_UP_CMD); var s' := Done(s, env, req);
      && t.links <= s'.links
      && Follows(t, s', IF_UP_CMD, x, req.parentBridge != "" && x == req.parentBridge)
  {
    var p, b := req.ifName, req.parentBridge;
    var t := Prepared(s, env, p, IF_UP_CMD);
    if b != "" {
      MovedStates(t, env, p, b, IF_UP_CMD, x);
      EditsOnlyFlows(Moved(t, env, p, b, IF_UP_CMD), PortEdits(env, p, b, IF_UP_CMD));
    }
  }

  lemma WorkaroundPrepares(s: Switch, env: Env, req: GatewayConfig)
    requires WorkaroundRequest(env, req)
    ensures var t := Prepared(s, env, req.ifName, IF_UP_CMD);
      var d := if req.ifName == "nsgmii1.100" then "dummy100" else "dummy101";
      && ("ethsw123" in s.links ==> StateIs(t, "ethsw123", true))
      && (!(d in s.links && d !in s.linuxBridges) ==> req.ifName in t.links && StateIs(t, req.ifName, true))
  {
    PumaNamesApart();
    WorkaroundStates(s, PUMA, req.ifName);
    AdminSetStates(PumaSetUp(s, PUMA, req.ifName), req.ifName, IF_UP_CMD);
  }

  /** So after a request for which it runs the interface exists, and the backhaul interface
      is up if it existed, unless the name of the dummy bridge was taken. */
  lemma WorkaroundRuns(s: Switch, env: Env, req: GatewayConfig)
    requires WorkaroundRequest(env, req)
    ensures var s' := Done(s, env, req); var d := if req.ifName == "nsgmii1.100" then "dummy100" else "dummy101";
      && ("ethsw123" in s.links && req.parentBridge != "ethsw123" ==> StateIs(s', "ethsw123", true))
      && (!(d in s.links && d !in s.linuxBridges) ==> req.ifName in s'.links && StateIs(s', req.ifName, true))
  {
    WorkaroundPrepares(s, env, req);
    FromPrepared(s, env, req, "ethsw123");
    FromPrepared(s, env, req, req.ifName);
  }

  // ----- Addresses and MTU -----

  /** The address and the MTU that a bridge request sets, if the bridge is there. */
  predicate Set(s: Switch, s': Switch, req: GatewayConfig) {
    var b := req.ifName;
    && s'.addresses == (if req.inetAddr == "" then s.addresses else s.addresses[b := (req.inetAddr, req.netmask)])
    && s'.mtus == (if req.mtu == 0 then s.mtus else s.mtus[b := req.mtu])
  }

  lemma ConfiguredSets(s: Switch, req: GatewayConfig)
    ensures var t := Configured(s, req);
      && (req.ifName in s.links ==> Set(s, t, req))
      && (req.ifName !in s.links ==> t.addresses == s.addresses && t.mtus == s.mtus)
  {
    var s1 := if req.inetAddr != "" then Exec(s, IfAddress(req.ifName, req.inetAddr, req.netmask)) else s;
    AdminSetStates(s1, req.ifName, req.ifCmd);
  }

  lemma BridgeAddresses(s: Switch, env: Env, req: GatewayConfig)
    requires req.ifType == BRIDGE_IF_TYPE && req.ifCmd != IF_DELETE_CMD
    ensures var s' := Done(s, env, req);
      && (req.ifName in s'.links ==> Set(s, s', req))
      && (req.ifName !in s'.links ==> s'.addresses == s.addresses && s'.mtus == s.mtus)
  {
    var s1 := Exec(s, AddBr(req.ifName));
    assert s1.addresses == s.addresses && s1.mtus == s.mtus;
    ConfiguredSets(s1, req);
    EditsOnlyFlows(Configured(s1, req), BridgeEdits(env, req.parentBridge, req.ifCmd));
  }

  /** A bridge request sets the address and the MTU it gives, of its bridge alone, and no
      other request sets any. */
  lemma AddressesAndMtu(s: Switch, env: Env, req: GatewayConfig)
    ensures var s' := Done(s, env, req);
      if req.ifType == BRIDGE_IF_TYPE && req.ifCmd != IF_DELETE_CMD && req.ifName in s'.links then Set(s, s', req)
      else s'.addresses == s.addresses && s'.mtus == s.mtus
  {
    if req.ifType == BRIDGE_IF_TYPE {
      if req.ifCmd != IF_DELETE_CMD { BridgeAddresses(s, env, req); }
    } else if LinkType(req) {
      LinkAddresses(s, env, req);
    } else {
      PortAddresses(s, env, req);
    }
  }

  lemma LinkAddresses(s: Switch, env: Env, req: GatewayConfig)
    requires LinkType(req)
    ensures Done(s, env, req).addresses == s.addresses && Done(s, env, req).mtus == s.mtus
  {
    LinkDoneIs(s, env, req);
    var s1 := LinkMade(s, env, req);
    LinkAddIs(s, LinkDevice(env, req), req.parentIfname);
    assert s1.addresses == s.addresses && s1.mtus == s.mtus;
    MovedStates(s1, env, req.ifName, req.parentBridge, req.ifCmd, "");
  }

  lemma PortAddresses(s: Switch, env: Env, req: GatewayConfig)
    requires PortType(req)
    ensures Done(s, env, req).addresses == s.addresses && Done(s, env, req).mtus == s.mtus
  {
    var p, b, cmd := req.ifName, req.parentBridge, req.ifCmd;
    if cmd != IF_DELETE_CMD {
      if NeedsPuma(env, p, cmd) { PumaStates(s, PUMA, p, ""); }
      var s1 := Prepared(s, env, p, cmd);
      assert s1.addresses == s.addresses && s1.mtus == s.mtus;
      MovedStates(s1, env, p, b, cmd, "");
      EditsOnlyFlows(Moved(s1, env, p, b, cmd), PortEdits(env, p, b, cmd));
    }
  }

  // ----- Devices -----

  lemma BridgeRemoved(s: Switch, x: string)
    requires Consistent(s)
    ensures var s' := Exec(s, DelBr(x));
      && s'.bridges == s.bridges - {x} && s'.links == (if x in s.bridges then s.links - {x} else s.links)
      && s'.members == s.members && forall k :: k in s'.flows <==> k in s.flows && k.bridge != x
  {
    if x !in s.bridges { assert s.bridges - {x} == s.bridges; }
  }

  lemma LinkRemoved(s: Switch, x: string)
    requires Consistent(s)
    ensures var s' := Exec(s, LinkDel(x));
      && s'.links == (if x in s.bridges then s.links else s.links - {x})
      && (x !in s.bridges ==> x !in s'.members && x !in s'.linuxBridges)
      && s'.flows == s.flows && s'.bridges == s.bridges
  {
    if x !in s.links { assert s.links - {x} == s.links; }
  }

  /** After deletion the interface is gone, from its Linux bridge too, unless it is an OVS
      bridge that is not deleted as one; a deleted bridge is gone with its flows. No other
      device goes or comes. */
  lemma DeletionRemoves(s: Switch, env: Env, req: GatewayConfig)
    requires Consistent(s) && req.ifCmd == IF_DELETE_CMD
    ensures var s' := Done(s, env, req); var x := req.ifName;
      if req.ifType == BRIDGE_IF_TYPE
      then && s'.bridges == s.bridges - {x} && s'.links == (if x in s.bridges then s.links - {x} else s.links)
           && s'.members == s.members && forall k :: k in s'.flows <==> k in s.flows && k.bridge != x
      else && s'.links == (if x in s.bridges then s.links else s.links - {x})
           && (x !in s.bridges ==> x !in s'.members && x !in s'.linuxBridges)
           && s'.flows == s.flows && s'.bridges == s.bridges
  {
    if req.ifType == BRIDGE_IF_TYPE {
      BridgeRemoved(s, req.ifName);
    } else {
      LinkRemoved(s, req.ifName);
    }
  }

  /** A complete VLAN request whose parent exists leaves a device: by the interface's own
      name on one model, and else by the parent's name with the VLAN's number behind a
      dot. */
  lemma VlanDeviceIsThere(s: Switch, env: Env, req: GatewayConfig) returns (number: string)
    requires req.ifType == VLAN_IF_TYPE && req.ifCmd != IF_DELETE_CMD && req.vlanId >= 0
    requires req.parentIfname != "" && req.parentIfname in s.links
    ensures Atoi(number) == req.vlanId && forall i :: 0 <= i < |number| ==> IsDigit(number[i])
    ensures (if env.model == TG3482G then req.ifName else req.parentIfname + "." + number) in Done(s, env, req).links
  {
    number := Decimal(req.vlanId);
    AtoiDecimal(req.vlanId);
    LinkDoneIs(s, env, req);
    LinkAddIs(s, LinkDevice(env, req), req.parentIfname);
    MovedStates(LinkMade(s, env, req), env, req.ifName, req.parentBridge, req.ifCmd, "");
  }

  /** A GRE request makes its device exactly when its parent and both end points are given
      and the parent exists; a name that is not free, or is that of the parent bridge, is
      there all the same. */
  lemma GreDeviceIff(s: Switch, env: Env, req: GatewayConfig)
    requires req.ifType == GRE_IF_TYPE && req.ifCmd != IF_DELETE_CMD
    requires req.ifName !in s.links && req.ifName != req.parentBridge
    ensures req.ifName in Done(s, env, req).links <==>
      && req.parentIfname != "" && req.greLocalInetAddr != "" && req.greRemoteInetAddr != ""
      && req.parentIfname in s.links
  {
    LinkDoneIs(s, env, req);
    LinkAddIs(s, LinkDevice(env, req), req.parentIfname);
    MovedStates(LinkMade(s, env, req), env, req.ifName, req.parentBridge, req.ifCmd, "");
  }

  // ----- Linux bridges -----

  /** The four Xfinity Wifi bridges, and no others, are Linux bridges. */
  predicate XfinityBridge(b: string) {
    b == "brlan2" || b == "brlan3" || b == "brlan4" || b == "brlan5"
  }

  /** A free name for a parent bridge becomes a bridge of the right kind. */
  lemma ParentIsCreated(s: Switch, env: Env, req: GatewayConfig)
    requires req.ifType != BRIDGE_IF_TYPE && (req.ifCmd == IF_UP_CMD || req.ifCmd == IF_DOWN_CMD)
    requires var b := req.parentBridge; var t := BeforeMove(s, env, req);
      b != "" && b !in t.links && b !in t.ports && b !in t.bridges && b !in t.linuxBridges
    ensures var b, s' := req.parentBridge, Done(s, env, req);
      && (b in s'.linuxBridges <==> XfinityBridge(b)) && (b in s'.bridges <==> !XfinityBridge(b))
  {
    var p, b, cmd := req.ifName, req.parentBridge, req.ifCmd;
    var t := BeforeMove(s, env, req);
    if LinkType(req) {
      LinkDoneIs(s, env, req);
    } else {
      EditsOnlyFlows(Moved(t, env, p, b, cmd), PortEdits(env, p, b, cmd));
    }
    EditsOnlyFlows(Rehomed(t, p, b, cmd, OvsManaged(b)), NewBridgeEdits(t, env, b, cmd));
    RehomedCreates(t, p, b, cmd);
  }

  lemma RehomedCreates(t: Switch, p: string, b: string, cmd: int)
    requires cmd != BR_REMOVE_CMD && b !in t.links && b !in t.ports && b !in t.bridges && b !in t.linuxBridges
    ensures var u := Rehomed(t, p, b, cmd, OvsManaged(b));
      && (b in u.linuxBridges <==> XfinityBridge(b)) && (b in u.bridges <==> !XfinityBridge(b))
  {
    var ovs := OvsManaged(b);
    var s0 := Leave(t, p, b, cmd, ovs);
    if ovs {
      assert Create(s0, b, ovs) == Exec(s0, AddBr(b));
    } else {
      LinuxCreated(s0, b, cmd);
    }
  }

  predicate InLinuxBridge(s: Switch, p: string, b: string) {
    p in s.members && s.members[p] == b
  }

  /** Port p can end up in Linux bridge b. */
  predicate LinuxAttachable(s: Switch, p: string, b: string) {
    && p in s.links && p != b && p !in s.ports && p !in s.bridges && p !in s.linuxBridges
    && (b in s.links ==> b in s.linuxBridges)
  }

  lemma LinuxCreated(s: Switch, b: string, cmd: int)
    ensures var t := AdminSet(Create(s, b, false), b, cmd);
      && t.members == s.members && t.ports == s.ports && t.bridges == s.bridges && t.links == s.links + {b}
      && t.linuxBridges == if b in s.links then s.linuxBridges else s.linuxBridges + {b}
  {
    assert b in s.links ==> s.links + {b} == s.links;
  }

  lemma EnslavedMembers(s: Switch, t: Switch, p: string, b: string)
    requires Consistent(s) && t.ports == s.ports && t.bridges == s.bridges && t.links == s.links + {b}
    requires t.linuxBridges == if b in s.links then s.linuxBridges else s.linuxBridges + {b}
    ensures Enslaved(t, b, p).members ==
      if p !in t.members && LinuxAttachable(s, p, b) then t.members[p := b] else t.members
  {
  }

  lemma RehomedLinux(s: Switch, p: string, b: string, cmd: int)
    requires Consistent(s) && cmd != BR_REMOVE_CMD
    ensures var members := Detached(s.members, p, b, cmd);
      Rehomed(s, p, b, cmd, false).members ==
        if p !in members && LinuxAttachable(s, p, b) then members[p := b] else members
  {
    var s0 := Leave(s, p, b, cmd, false);
    LinuxCreated(s0, b, cmd);
    EnslavedMembers(s, AdminSet(Create(s0, b, false), b, cmd), p, b);
  }

  /** The memberships in Linux bridges after a port joined or left one: up moves it there if
      it can, down only if it is in none, removal takes it out of that bridge alone. */
  lemma RehomedMembers(s: Switch, p: string, b: string, cmd: int)
    requires Consistent(s)
    ensures var members := Rehomed(s, p, b, cmd, false).members;
      if cmd == BR_REMOVE_CMD
      then members == if InLinuxBridge(s, p, b) then s.members - {p} else s.members
      else if cmd == IF_UP_CMD
      then members == if InLinuxBridge(s, p, b) || LinuxAttachable(s, p, b) then s.members[p := b] else s.members - {p}
      else members == if p !in s.members && LinuxAttachable(s, p, b) then s.members[p := b] else s.members
  {
    if cmd != BR_REMOVE_CMD {
      RehomedLinux(s, p, b, cmd);
      DetachAttach(s.members, p, b);
    }
  }

  /** The state in which a request other than for a bridge comes to move its interface:
      after the workaround, or with the new link. */
  function BeforeMove(s: Switch, env: Env, req: GatewayConfig): Switch {
    if LinkType(req) then LinkMade(s, env, req) else Prepared(s, env, req.ifName, req.ifCmd)
  }

  /** Without the workaround, that is the state before the request but for the new link
      and the interface's state. */
  lemma BeforeMoveIs(s: Switch, env: Env, req: GatewayConfig)
    requires req.ifType != BRIDGE_IF_TYPE && !WorkaroundRequest(env, req)
    ensures var t := BeforeMove(s, env, req); var d := LinkDevice(env, req);
      t == s.(admin := t.admin,
              links := if d.Some? && req.parentIfname in s.links then s.links + {d.value} else s.links)
  {
    LinkAddIs(s, LinkDevice(env, req), req.parentIfname);
    if !LinkType(req) { assert LinkDevice(env, req) == None; }
  }

  /** So with a Linux parent bridge, and with another or none no membership in a Linux
      bridge changes after that state. */
  lemma LinuxMembership(s: Switch, env: Env, req: GatewayConfig)
    requires Consistent(s) && req.ifType != BRIDGE_IF_TYPE && req.ifCmd != IF_DELETE_CMD
    ensures var p, b, cmd := req.ifName, req.parentBridge, req.ifCmd; var t := BeforeMove(s, env, req);
      var members := Done(s, env, req).members;
      if b == "" || OvsManaged(b) then members == t.members
      else if cmd == BR_REMOVE_CMD
      then members == if InLinuxBridge(t, p, b) then t.members - {p} else t.members
      else if cmd == IF_UP_CMD
      then members == if InLinuxBridge(t, p, b) || LinuxAttachable(t, p, b) then t.members[p := b] else t.members - {p}
      else members == if p !in t.members && LinuxAttachable(t, p, b) then t.members[p := b] else t.members
  {
    var p, b, cmd := req.ifName, req.parentBridge, req.ifCmd;
    var t := BeforeMove(s, env, req);
    var ovs := OvsManaged(b);
    if LinkType(req) {
      LinkDoneIs(s, env, req);
      LinkMadeFrame(s, env, req);
    } else {
      PreparedKeepsConsistent(s, env, p, cmd);
      EditsOnlyFlows(Moved(t, env, p, b, cmd), PortEdits(env, p, b, cmd));
    }
    EditsOnlyFlows(Rehomed(t, p, b, cmd, ovs), NewBridgeEdits(t, env, b, cmd));
    if ovs { OvsMembers(t, p, b, cmd); } else { RehomedMembers(t, p, b, cmd); }
  }

  lemma OvsMembers(s: Switch, p: string, b: string, cmd: int)
    ensures Rehomed(s, p, b, cmd, true).members == s.members
  {
  }
}
