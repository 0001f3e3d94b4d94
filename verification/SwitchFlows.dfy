/** Which flow every request leaves for every match on every bridge. */
module SwitchFlows {
  import opened OvsTypes
  import opened Switch
  import opened SwitchSpec
  import opened SwitchTheorems
  import opened SwitchIdempotence
  import opened SwitchStates

  /** What a request wants of a flow: that it stays as it is, is gone, or does this. */
  datatype Wish = AsBefore | Gone | Does(action: FlowAction)

  /** The models whose Wifi driver needs flows, and those whose user interface does. */
  predicate WifiDriver(env: Env) {
    match env.model
    case CGM4331COM | CGM4981COM | SR203 => true
    case _ => false
  }

  predicate GuiGateway(env: Env) {
    match env.model
    case CGM4140COM | TG3482G | CGM4331COM | CGM4981COM | TG4482A => true
    case _ => false
  }

  /** The frames of the Wifi driver leave through the bridge: those of both Broadcom
      types, and of 802.1X unless the build leaves it to others. */
  function WifiWish(env: Env, b: string, cmd: int, m: Match): Wish {
    if m.EtherType? && (m.kind == 0x886c || m.kind == 0x88b7
                        || (m.kind == 0x888e && !(env.oneWifi || env.model == SR203)))
    then if cmd == BR_REMOVE_CMD then Gone else Does(OutputTo(b))
    else AsBefore
  }

  /** Requests to lan0's address are rewritten to its MAC address and go to the port; those
      to the cable modem are dropped. */
  function GuiWish(env: Env, p: string, cmd: int, m: Match): Wish {
    match m
    case ArpTo(ip) => if env.lan0Ip == Some(ip) then RewriteWish(env, p, cmd) else AsBefore
    case IpTo(ip) => if env.lan0Ip == Some(ip) then RewriteWish(env, p, cmd) else AsBefore
    case Ipv6To(ip) =>
      if env.cmIp == Some(ip) then if cmd == BR_REMOVE_CMD then Gone else Does(Drop) else AsBefore
    case EtherType(_) => AsBefore
  }

  function RewriteWish(env: Env, p: string, cmd: int): Wish {
    if cmd == BR_REMOVE_CMD || env.lan0Mac.None? then Gone else Does(Rewrite(env.lan0Mac.value, p))
  }

  /** The flows of the two special ports. */
  function PortWish(env: Env, p: string, b: string, cmd: int, m: Match): Wish {
    if b == "brlan0" && p == "llan0" then if GuiGateway(env) then GuiWish(env, p, cmd, m) else AsBefore
    else if b == "br106" && p == "wl0.3" then if WifiDriver(env) then WifiWish(env, b, cmd, m) else AsBefore
    else AsBefore
  }

  /** The flows of a request that is not for a bridge, with a parent bridge; `found` says
      whether that existed when it was to be joined. */
  function ParentWish(env: Env, req: GatewayConfig, found: bool, m: Match): Wish {
    var p, b, cmd := req.ifName, req.parentBridge, req.ifCmd;
    var port := if PortType(req) then PortWish(env, p, b, cmd, m) else AsBefore;
    if port == AsBefore && WifiDriver(env) && cmd != BR_REMOVE_CMD && !found then WifiWish(env, b, cmd, m) else port
  }

  function Wished(s: Switch, env: Env, req: GatewayConfig, key: FlowKey): Wish {
    if req.ifCmd == IF_DELETE_CMD then
      (if req.ifType == BRIDGE_IF_TYPE && key.bridge == req.ifName && req.ifName in s.bridges then Gone else AsBefore)
    else if req.parentBridge == "" || key.bridge != req.parentBridge then AsBefore
    else if req.ifType == BRIDGE_IF_TYPE then
      (if WifiDriver(env) then WifiWish(env, req.parentBridge, req.ifCmd, key.match_) else AsBefore)
    else ParentWish(env, req, req.parentBridge in BeforeMove(s, env, req).links, key.match_)
  }

  /** The flow is as wished; one that is to do something is there exactly if its bridge is. */
  predicate Granted(s: Switch, s': Switch, key: FlowKey, wish: Wish) {
    match wish
    case AsBefore => (key in s'.flows <==> key in s.flows) && (key in s.flows ==> s'.flows[key] == s.flows[key])
    case Gone => key !in s'.flows
    case Does(action) =>
      if key.bridge in s'.bridges then key in s'.flows && s'.flows[key] == action else key !in s'.flows
  }

  // ----- Edits -----

  /** Among the edits is the one that grants the wish. */
  predicate Asks(es: seq<FlowEdit>, key: FlowKey, wish: Wish) {
    match wish
    case AsBefore => forall e :: e in es ==> e.key != key
    case Gone => FlowEdit(key, None) in es
    case Does(action) => FlowEdit(key, Some(action)) in es
  }

  lemma {:induction false} EditsFrame(s: Switch, es: seq<FlowEdit>, key: FlowKey)
    requires forall e :: e in es ==> e.key != key
    ensures Granted(s, Edits(s, es), key, AsBefore)
    decreases |es|
  {
    if es != [] {
      assert es[0] in es;
      assert forall e :: e in es[1..] ==> e in es;
      EditsFrame(Edited(s, es[0]), es[1..], key);
    }
  }

  lemma EditsGrant(s: Switch, es: seq<FlowEdit>, key: FlowKey, wish: Wish)
    requires Compatible(es) && Asks(es, key, wish)
    ensures Granted(s, Edits(s, es), key, wish)
  {
    EditsMakeHold(s, es);
    EditsOnlyFlows(s, es);
    match wish
    case AsBefore => EditsFrame(s, es, key);
    case Gone => assert Holds(Edits(s, es), FlowEdit(key, None));
    case Does(action) => assert Holds(Edits(s, es), FlowEdit(key, Some(action)));
  }

  lemma WifiEditsWish(env: Env, b: string, cmd: int, key: FlowKey)
    requires b != ""
    ensures Asks(WifiEdits(env, b, cmd), key, if key.bridge == b then WifiWish(env, b, cmd, key.match_) else AsBefore)
  {
    var es := WifiEdits(env, b, cmd);
    assert es[0] in es && es[1] in es && (!Skips8021X(env) ==> es[2] in es);
  }

  lemma GuiEditsWish(env: Env, p: string, b: string, cmd: int, key: FlowKey)
    ensures Asks(AdminGuiEdits(env, p, b, cmd) + BlockEdits(env, b, cmd), key,
                   if key.bridge == b then GuiWish(env, p, cmd, key.match_) else AsBefore)
  {
    var gui, block := AdminGuiEdits(env, p, b, cmd), BlockEdits(env, b, cmd);
    var es := gui + block;
    assert gui != [] ==> gui[0] in es && gui[1] in es;
    assert block != [] ==> block[0] in es;
  }

  /** All edits of a request that is not for a bridge, with a parent bridge. */
  function ParentEdits(env: Env, req: GatewayConfig, found: bool): seq<FlowEdit> {
    var p, b, cmd := req.ifName, req.parentBridge, req.ifCmd;
    (if cmd == BR_REMOVE_CMD || found then [] else BridgeEdits(env, b, cmd))
    + (if PortType(req) then PortEdits(env, p, b, cmd) else [])
  }

  lemma SpecialNames()
    ensures BRLAN0 != BR106
  {
    assert |BRLAN0| == 6 && |BR106| == 5;
  }

  /** The wishes at a key on bridge b. */
  function On(b: string, key: FlowKey, wish: Wish): Wish {
    if key.bridge == b then wish else AsBefore
  }

  lemma PortEditsWish(env: Env, p: string, b: string, cmd: int, key: FlowKey)
    requires b != ""
    ensures Asks(PortEdits(env, p, b, cmd), key, On(b, key, PortWish(env, p, b, cmd, key.match_)))
  {
    SpecialNames();
    WifiEditsWish(env, b, cmd, key);
    GuiEditsWish(env, p, b, cmd, key);
  }

  lemma NewEditsWish(env: Env, b: string, cmd: int, key: FlowKey)
    requires b != ""
    ensures Asks(BridgeEdits(env, b, cmd), key,
                 On(b, key, if WifiDriver(env) then WifiWish(env, b, cmd, key.match_) else AsBefore))
  {
    WifiEditsWish(env, b, cmd, key);
  }

  /** Wishes for the same key that agree are asked for together. */
  lemma AsksJoin(es: seq<FlowEdit>, fs: seq<FlowEdit>, key: FlowKey, v: Wish, w: Wish)
    requires Asks(es, key, v) && Asks(fs, key, w)
    ensures Asks(es + fs, key, if w == AsBefore then v else w)
  {
    assert forall e :: e in es + fs <==> e in es || e in fs;
  }

  lemma ParentEditsWish(env: Env, req: GatewayConfig, found: bool, key: FlowKey)
    requires req.parentBridge != ""
    ensures Compatible(ParentEdits(env, req, found))
    ensures Asks(ParentEdits(env, req, found), key,
                 On(req.parentBridge, key, ParentWish(env, req, found, key.match_)))
  {
    var p, b, cmd := req.ifName, req.parentBridge, req.ifCmd;
    var first := if cmd == BR_REMOVE_CMD || found then [] else BridgeEdits(env, b, cmd);
    var second := if PortType(req) then PortEdits(env, p, b, cmd) else [];
    ParentEditsCompatible(env, req, found);
    NewEditsWish(env, b, cmd, key);
    PortEditsWish(env, p, b, cmd, key);
    var v := if cmd == BR_REMOVE_CMD || found || !WifiDriver(env) then AsBefore
             else On(b, key, WifiWish(env, b, cmd, key.match_));
    var w := if PortType(req) then On(b, key, PortWish(env, p, b, cmd, key.match_)) else AsBefore;
    assert Asks(first, key, v) && Asks(second, key, w);
    AsksJoin(first, second, key, v, w);
  }

  lemma ParentEditsCompatible(env: Env, req: GatewayConfig, found: bool)
    ensures Compatible(ParentEdits(env, req, found))
  {
    var p, b, cmd := req.ifName, req.parentBridge, req.ifCmd;
    var first := if cmd == BR_REMOVE_CMD || found then [] else BridgeEdits(env, b, cmd);
    RequestEditsCompatible(env, p, b, cmd, first);
    assert forall e :: e in first ==> e in first + PortEdits(env, p, b, cmd);
    assert first + [] == first;
  }

  // ----- Requests -----

  lemma RehomedFlows(s: Switch, p: string, b: string, cmd: int, ovs: bool)
    ensures Rehomed(s, p, b, cmd, ovs).flows == s.flows
  {
    var s0 := Leave(s, p, b, cmd, ovs);
    var c := Create(s0, b, ovs);
    if ovs {
      assert c == Exec(s0, AddBr(b));
    } else {
      assert c == Exec(s0, BrctlAddBr(b));
    }
    assert c.flows == s.flows && AdminSet(c, b, cmd).flows == s.flows;
  }

  lemma BeforeMoveFlows(s: Switch, env: Env, req: GatewayConfig)
    requires req.ifType != BRIDGE_IF_TYPE
    ensures BeforeMove(s, env, req).flows == s.flows
  {
    if LinkType(req) {
      LinkAddIs(s, LinkDevice(env, req), req.parentIfname);
    } else if NeedsPuma(env, req.ifName, req.ifCmd) {
      PumaNamesApart();
      PumaPorts(s, PUMA, req.ifName);
    }
  }

  lemma MoveIsEdits(s: Switch, env: Env, req: GatewayConfig)
    requires req.ifType != BRIDGE_IF_TYPE && req.ifCmd != IF_DELETE_CMD && req.parentBridge != ""
    ensures var t := BeforeMove(s, env, req); var b := req.parentBridge;
      Done(s, env, req)
      == Edits(Rehomed(t, req.ifName, b, req.ifCmd, OvsManaged(b)), ParentEdits(env, req, b in t.links))
  {
    var t := BeforeMove(s, env, req);
    var p, b, cmd := req.ifName, req.parentBridge, req.ifCmd;
    var u := Rehomed(t, p, b, cmd, OvsManaged(b));
    var first := NewBridgeEdits(t, env, b, cmd);
    if LinkType(req) {
      LinkDoneIs(s, env, req);
      assert first + [] == first;
    } else {
      EditsConcat(u, first, PortEdits(env, p, b, cmd));
    }
  }

  lemma ParentFlows(s: Switch, env: Env, req: GatewayConfig, key: FlowKey)
    requires req.ifType != BRIDGE_IF_TYPE && req.ifCmd != IF_DELETE_CMD && req.parentBridge != ""
    ensures Granted(s, Done(s, env, req), key, Wished(s, env, req, key))
  {
    var t := BeforeMove(s, env, req);
    var b, found := req.parentBridge, req.parentBridge in t.links;
    var u := Rehomed(t, req.ifName, b, req.ifCmd, OvsManaged(b));
    BeforeMoveFlows(s, env, req);
    RehomedFlows(t, req.ifName, b, req.ifCmd, OvsManaged(b));
    MoveIsEdits(s, env, req);
    ParentEditsWish(env, req, found, key);
    EditsGrant(u, ParentEdits(env, req, found), key, Wished(s, env, req, key));
  }

  lemma BridgeFlows(s: Switch, env: Env, req: GatewayConfig, key: FlowKey)
    requires req.ifType == BRIDGE_IF_TYPE && req.ifCmd != IF_DELETE_CMD
    ensures Granted(s, Done(s, env, req), key, Wished(s, env, req, key))
  {
    var b := req.parentBridge;
    var t := Configured(Exec(s, AddBr(req.ifName)), req);
    assert t.flows == s.flows;
    if b != "" {
      WifiEditsWish(env, b, req.ifCmd, key);
      WifiCompatible(env, b, req.ifCmd);
    }
    EditsGrant(t, BridgeEdits(env, b, req.ifCmd), key, Wished(s, env, req, key));
  }

  lemma WifiCompatible(env: Env, b: string, cmd: int)
    ensures Compatible(BridgeEdits(env, b, cmd))
  {
    assert BRLAN0[0] == 'b' && LLAN0[0] == 'l' && WL0_3[0] == 'w';
    RequestEditsCompatible(env, "", b, cmd, BridgeEdits(env, b, cmd));
    assert BridgeEdits(env, b, cmd) + [] == BridgeEdits(env, b, cmd);
  }

  /** After any request, every flow is as wished: nothing else is touched, the wished ones
      do exactly what is said, and those of a removed port or bridge are gone. */
  lemma FlowsAreAsWished(s: Switch, env: Env, req: GatewayConfig, key: FlowKey)
    requires Consistent(s)
    ensures Granted(s, Done(s, env, req), key, Wished(s, env, req, key))
  {
    if req.ifCmd == IF_DELETE_CMD {
      DeletionRemoves(s, env, req);
    } else if req.ifType == BRIDGE_IF_TYPE {
      BridgeFlows(s, env, req, key);
    } else if req.parentBridge != "" {
      ParentFlows(s, env, req, key);
    } else {
      BeforeMoveFlows(s, env, req);
      if LinkType(req) { LinkDoneIs(s, env, req); }
    }
  }

  // ----- Statuses -----

  /** A request fails in two cases only: a bridge is to be made without a parent named, on a
      model whose Wifi driver needs flows; or llan0 is to join or leave brlan0 where the
      cable modem's address is not known. In all others it succeeds. */
  lemma StatusesExactly(env: Env, req: GatewayConfig)
    ensures DoneStatus(env, req) == Failed <==>
      && req.ifCmd != IF_DELETE_CMD
      && if req.ifType == BRIDGE_IF_TYPE then WifiDriver(env) && req.parentBridge == ""
         else PortType(req) && req.parentBridge == "brlan0" && req.ifName == "llan0" && GuiGateway(env)
              && env.cmIp.None?
    ensures DoneStatus(env, req) != Failed ==> DoneStatus(env, req) == Success
  {
    SpecialNames();
  }
}
