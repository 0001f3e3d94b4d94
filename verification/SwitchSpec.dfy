/** What each request of the agent leaves behind, as functions on the switch. */
module SwitchSpec {
  import opened OvsTypes
  import opened RequestIds
  import opened Switch

  datatype Model =
    | UnknownModel | CGM4140COM | TG3482G | CGM4981COM | CGM4331COM | SR213 | SR300
    | SE501 | WNXL11BWL | SR203 | TG4482A

  /** What the agent learns from its environment: the model and build option read at
      start, and the answers to its queries while it acts; None is a failed query. */
  datatype Env = Env(
    model: Model,
    oneWifi: bool,
    lan0Ip: Option<string>,
    lan0Mac: Option<string>,
    cmIp: Option<string>)

  const BRLAN0: string := "brlan0"
  const LLAN0: string := "llan0"
  const BR106: string := "br106"
  const WL0_3: string := "wl0.3"

  const ETHER_TYPE_BRCM: nat := 0x886c
  const ETHER_TYPE_BRCM_AIRIQ: nat := 0x88b7
  const ETHER_TYPE_802_1X: nat := 0x888e

  /** The Xfinity Wifi bridges are Linux bridges, all others OVS bridges. */
  predicate OvsManaged(b: string) {
    b != "brlan2" && b != "brlan3" && b != "brlan4" && b != "brlan5"
  }

  predicate UpOrDown(cmd: int) {
    cmd == IF_UP_CMD || cmd == IF_DOWN_CMD
  }

  /** `ifconfig x up` or `down`, for the commands that set an interface's state. */
  function AdminSet(s: Switch, x: string, cmd: int): Switch {
    if UpOrDown(cmd) && x in s.links then s.(admin := s.admin[x := cmd == IF_UP_CMD]) else s
  }

  // ----- Flows -----

  /** A flow that is deleted and, with an action, set again. */
  datatype FlowEdit = FlowEdit(key: FlowKey, action: Option<FlowAction>)

  function Edited(s: Switch, e: FlowEdit): Switch {
    s.(flows := if e.action.Some? && e.key.bridge in s.bridges then s.flows[e.key := e.action.value]
                else s.flows - {e.key})
  }

  function Edits(s: Switch, es: seq<FlowEdit>): Switch
    decreases |es|
  {
    if es == [] then s else Edits(Edited(s, es[0]), es[1..])
  }

  lemma {:induction false} EditsConcat(s: Switch, es: seq<FlowEdit>, fs: seq<FlowEdit>)
    ensures Edits(s, es + fs) == Edits(Edits(s, es), fs)
    decreases |es|
  {
    if es == [] {
      assert es + fs == fs;
    } else {
      assert (es + fs)[1..] == es[1..] + fs;
      EditsConcat(Edited(s, es[0]), es[1..], fs);
    }
  }

  /** Flows are only deleted when the bridge is being removed. */
  function Unless(remove: bool, action: FlowAction): Option<FlowAction> {
    if remove then None else Some(action)
  }

  predicate Skips8021X(env: Env) {
    env.oneWifi || env.model == SR203
  }

  function WifiEdit(b: string, kind: nat, cmd: int): FlowEdit {
    FlowEdit(FlowKey(b, EtherType(kind)), Unless(cmd == BR_REMOVE_CMD, OutputTo(b)))
  }

  /** `ovs_setup_brcm_wifi_flows` for a named bridge. */
  function WifiEdits(env: Env, b: string, cmd: int): seq<FlowEdit> {
    [WifiEdit(b, ETHER_TYPE_BRCM, cmd), WifiEdit(b, ETHER_TYPE_BRCM_AIRIQ, cmd)]
    + if Skips8021X(env) then [] else [WifiEdit(b, ETHER_TYPE_802_1X, cmd)]
  }

  predicate WifiModel(env: Env) {
    env.model == CGM4331COM || env.model == CGM4981COM || env.model == SR203
  }

  /** `ovs_setup_bridge_flows`. */
  function BridgeEdits(env: Env, b: string, cmd: int): seq<FlowEdit> {
    if WifiModel(env) && b != "" then WifiEdits(env, b, cmd) else []
  }

  function BridgeFlowsStatus(env: Env, b: string): Status {
    if WifiModel(env) && b == "" then Failed else Success
  }

  /** `ovs_setup_admin_gui_access`. Without lan0's MAC address the old flows are
      deleted and no new ones are set. */
  function AdminGuiEdits(env: Env, p: string, b: string, cmd: int): seq<FlowEdit> {
    if env.lan0Ip.None? then []
    else
      var remove := cmd == BR_REMOVE_CMD || env.lan0Mac.None?;
      var action := if remove then None else Some(Rewrite(env.lan0Mac.value, p));
      [FlowEdit(FlowKey(b, ArpTo(env.lan0Ip.value)), action), FlowEdit(FlowKey(b, IpTo(env.lan0Ip.value)), action)]
  }

  /** `ovs_block_mso_ui_access`. */
  function BlockEdits(env: Env, b: string, cmd: int): seq<FlowEdit> {
    if env.cmIp.None? then []
    else [FlowEdit(FlowKey(b, Ipv6To(env.cmIp.value)), Unless(cmd == BR_REMOVE_CMD, Drop))]
  }

  predicate GuiModel(env: Env) {
    env.model == CGM4140COM || env.model == TG3482G || env.model == CGM4331COM
    || env.model == CGM4981COM || env.model == TG4482A
  }

  /** `ovs_setup_port_flows`. */
  function PortEdits(env: Env, p: string, b: string, cmd: int): seq<FlowEdit> {
    if b == BRLAN0 && p == LLAN0 then
      if GuiModel(env) then AdminGuiEdits(env, p, b, cmd) + BlockEdits(env, b, cmd) else []
    else if b == BR106 && p == WL0_3 then BridgeEdits(env, b, cmd)
    else []
  }

  /** The status of the admin GUI flows is overwritten by that of the blocking flow. */
  function PortFlowsStatus(env: Env, p: string, b: string): Status {
    if b == BRLAN0 && p == LLAN0 then (if GuiModel(env) && env.cmIp.None? then Failed else Success)
    else if b == BR106 && p == WL0_3 then BridgeFlowsStatus(env, b)
    else Success
  }

  // ----- Membership of a port in its parent bridge -----

  /** The memberships once p is detached from a bridge it must leave: bridge b on
      removal, any other bridge when it is brought up. */
  function Detached(m: map<string, string>, p: string, b: string, cmd: int): map<string, string> {
    if p in m && (if m[p] == b then cmd == BR_REMOVE_CMD else cmd == IF_UP_CMD) then m - {p} else m
  }

  function Leave(s: Switch, p: string, b: string, cmd: int, ovs: bool): Switch {
    if ovs then s.(ports := Detached(s.ports, p, b, cmd)) else s.(members := Detached(s.members, p, b, cmd))
  }

  function Create(s: Switch, b: string, ovs: bool): Switch {
    if ovs then Exec(s, AddBr(b)) else Exec(s, BrctlAddBr(b))
  }

  function Join(s: Switch, p: string, b: string, ovs: bool): Switch {
    if ovs then Exec(s, AddPort(b, p)) else Exec(s, AddIf(b, p))
  }

  /** `ovs_modifyParentBridge` up to the flows of a bridge it had to create. */
  function Rehomed(s: Switch, p: string, b: string, cmd: int, ovs: bool): Switch {
    var s0 := Leave(s, p, b, cmd, ovs);
    if cmd == BR_REMOVE_CMD then s0 else Join(AdminSet(Create(s0, b, ovs), b, cmd), p, b, ovs)
  }

  function NewBridgeEdits(s: Switch, env: Env, b: string, cmd: int): seq<FlowEdit> {
    if cmd == BR_REMOVE_CMD || b in s.links then [] else BridgeEdits(env, b, cmd)
  }

  /** `ovs_modifyParentBridge`. */
  function Moved(s: Switch, env: Env, p: string, b: string, cmd: int): Switch {
    Edits(Rehomed(s, p, b, cmd, OvsManaged(b)), NewBridgeEdits(s, env, b, cmd))
  }

  function MovedStatus(s: Switch, env: Env, b: string, cmd: int): Status {
    if cmd == BR_REMOVE_CMD || b in s.links then Success else BridgeFlowsStatus(env, b)
  }

  // ----- The Puma7 switch workaround -----

  /** The names it uses: two dummy bridges with the switch interface created in each,
      and the backhaul interface with its bridge. */
  datatype Names = Names(d1: string, i1: string, d2: string, i2: string, backhaul: string, backhaulBridge: string)

  const PUMA: Names := Names("dummy100", "nsgmii1.100", "dummy101", "nsgmii1.101", "ethsw123", "brebhaul")

  predicate Apart(n: Names) {
    && n.d1 != n.i1 && n.d1 != n.d2 && n.d1 != n.i2 && n.d1 != n.backhaul
    && n.i1 != n.d2 && n.i1 != n.i2 && n.i1 != n.backhaul
    && n.d2 != n.i2 && n.d2 != n.backhaul && n.i2 != n.backhaul && n.backhaul != n.backhaulBridge
    && n.backhaulBridge != n.d1 && n.backhaulBridge != n.d2 && n.backhaulBridge != n.i1 && n.backhaulBridge != n.i2
  }

  lemma PumaNamesApart()
    ensures Apart(PUMA)
  {
    assert "dummy100"[7] == '0' && "dummy101"[7] == '1' && "nsgmii1.100"[10] == '0' && "nsgmii1.101"[10] == '1';
    assert "dummy100"[0] == "dummy101"[0] == 'd' && "ethsw123"[0] == 'e' && "brebhaul"[0] == 'b';
    assert |"nsgmii1.100"| == |"nsgmii1.101"| == 11;
    assert |"dummy100"| == |"dummy101"| == |"ethsw123"| == |"brebhaul"| == 8;
  }

  predicate SwitchPort(n: Names, p: string) {
    p == n.i1 || p == n.i2
  }

  function Sibling(n: Names, p: string): string {
    if p == n.i1 then n.i2 else n.i1
  }

  function Dummy(n: Names, p: string): string {
    if p == n.i1 then n.d1 else n.d2
  }

  /** The net effect of creating the dummy bridge d, having the switch create
      interface i in it, taking i out again and deleting d. */
  function Cycled(s: Switch, d: string, i: string): Switch {
    if d in s.links && d !in s.linuxBridges then s.(admin := s.admin[d := false])
    else s.(links := s.links + {i} - {d}, linuxBridges := s.linuxBridges - {d},
            members := WithoutValue(s.members, d), admin := s.admin - {d})
  }

  lemma CycledFrame(s: Switch, d: string, i: string)
    ensures var t := Cycled(s, d, i);
      && t.bridges == s.bridges && t.flows == s.flows && t.ports == s.ports
      && (forall x :: x != d && x != i ==> (x in t.links <==> x in s.links))
  {
  }

  /** The other switch port exists and is in an OVS bridge, to which it returns. */
  predicate Restores(s: Switch, n: Names, p: string) {
    Sibling(n, p) in s.ports && Sibling(n, p) in s.links
  }

  /** `ovs_setupEthSwitch`, up to the backhaul. */
  function SwitchCycled(s: Switch, n: Names, p: string): Switch {
    if Restores(s, n, p) then Cycled(Cycled(s.(ports := s.ports - {p}), n.d1, n.i1), n.d2, n.i2)
    else Cycled(s, Dummy(n, p), p)
  }

  /** The cycles change no bridge or flow, take p from its bridge if the sibling is
      restored, and create and delete only devices of the switch. */
  lemma SwitchCycledFrame(s: Switch, n: Names, p: string)
    requires SwitchPort(n, p)
    ensures var t := SwitchCycled(s, n, p);
      && t.bridges == s.bridges && t.flows == s.flows
      && t.ports == (if Restores(s, n, p) then s.ports - {p} else s.ports)
      && (forall x :: x != n.d1 && x != n.d2 && x != n.i1 && x != n.i2 ==> (x in t.links <==> x in s.links))
  {
    if Restores(s, n, p) {
      var s0 := s.(ports := s.ports - {p});
      CycledFrame(s0, n.d1, n.i1);
      CycledFrame(Cycled(s0, n.d1, n.i1), n.d2, n.i2);
    } else {
      CycledFrame(s, Dummy(n, p), p);
    }
  }

  /** The backhaul interface, if it exists, is brought up and added to its bridge. */
  function BackhaulRestored(s: Switch, n: Names): Switch {
    if n.backhaul !in s.links then s
    else Exec(s.(admin := s.admin[n.backhaul := true]), AddPort(n.backhaulBridge, n.backhaul))
  }

  function PumaSetUp(s: Switch, n: Names, p: string): Switch {
    BackhaulRestored(SwitchCycled(s, n, p), n)
  }

  predicate NeedsPuma(env: Env, p: string, cmd: int) {
    env.model == TG3482G && SwitchPort(PUMA, p) && cmd == IF_UP_CMD
  }

  // ----- Requests -----

  function Prepared(s: Switch, env: Env, p: string, cmd: int): Switch {
    AdminSet(if NeedsPuma(env, p, cmd) then PumaSetUp(s, PUMA, p) else s, p, cmd)
  }

  /** `ovs_addPort`, for a request of any type but bridge, VLAN and GRE. */
  function PortDone(s: Switch, env: Env, req: GatewayConfig): Switch {
    var p, b, cmd := req.ifName, req.parentBridge, req.ifCmd;
    if cmd == IF_DELETE_CMD then Exec(s, LinkDel(p))
    else
      var s1 := Prepared(s, env, p, cmd);
      if b == "" then s1 else Edits(Moved(s1, env, p, b, cmd), PortEdits(env, p, b, cmd))
  }

  function PortStatus(env: Env, req: GatewayConfig): Status {
    if req.ifCmd == IF_DELETE_CMD || req.parentBridge == "" then Success
    else PortFlowsStatus(env, req.ifName, req.parentBridge)
  }

  /** The address, state and MTU of the requested interface. */
  function Configured(s: Switch, req: GatewayConfig): (r: Switch)
    ensures r == s.(addresses := r.addresses, admin := r.admin, mtus := r.mtus)
  {
    var s1 := if req.inetAddr != "" then Exec(s, IfAddress(req.ifName, req.inetAddr, req.netmask)) else s;
    var s2 := AdminSet(s1, req.ifName, req.ifCmd);
    if req.mtu != 0 then Exec(s2, IfMtu(req.ifName, req.mtu)) else s2
  }

  /** `ovs_createBridge`: the flows are set up for the parent bridge. */
  function BridgeDone(s: Switch, env: Env, req: GatewayConfig): Switch {
    if req.ifCmd == IF_DELETE_CMD then Exec(s, DelBr(req.ifName))
    else Edits(Configured(Exec(s, AddBr(req.ifName)), req), BridgeEdits(env, req.parentBridge, req.ifCmd))
  }

  function BridgeStatus(env: Env, req: GatewayConfig): Status {
    if req.ifCmd == IF_DELETE_CMD then Success else BridgeFlowsStatus(env, req.parentBridge)
  }

  function IntText(n: int): string {
    if n < 0 then "-" + Decimal(-n) else Decimal(n)
  }

  /** The device a VLAN request creates: `vconfig` chooses the name itself. */
  function VlanDevice(env: Env, req: GatewayConfig): string {
    if env.model == TG3482G then req.ifName else req.parentIfname + "." + IntText(req.vlanId)
  }

  predicate GreComplete(req: GatewayConfig) {
    req.parentIfname != "" && req.greLocalInetAddr != "" && req.greRemoteInetAddr != ""
  }

  /** `ovs_createVlan` and `ovs_createGRE`: the link is created, its state set, and
      the interface moved to its parent bridge. */
  function LinkDone(s: Switch, env: Env, req: GatewayConfig, create: bool, device: string): Switch {
    var p, b, cmd := req.ifName, req.parentBridge, req.ifCmd;
    if cmd == IF_DELETE_CMD then Exec(s, LinkDel(p))
    else
      var s1 := AdminSet(if create then Exec(s, LinkAdd(device, req.parentIfname)) else s, p, cmd);
      if b == "" then s1 else Moved(s1, env, p, b, cmd)
  }

  function Done(s: Switch, env: Env, req: GatewayConfig): Switch {
    if req.ifType == BRIDGE_IF_TYPE then BridgeDone(s, env, req)
    else if req.ifType == VLAN_IF_TYPE then LinkDone(s, env, req, req.parentIfname != "", VlanDevice(env, req))
    else if req.ifType == GRE_IF_TYPE then LinkDone(s, env, req, GreComplete(req), req.ifName)
    else PortDone(s, env, req)
  }

  /** The status of a VLAN or GRE request is that of setting up a new bridge's flows,
      which succeeds for a named bridge. */
  function DoneStatus(env: Env, req: GatewayConfig): Status {
    if req.ifType == BRIDGE_IF_TYPE then BridgeStatus(env, req)
    else if req.ifType == VLAN_IF_TYPE || req.ifType == GRE_IF_TYPE then Success
    else PortStatus(env, req)
  }
}
