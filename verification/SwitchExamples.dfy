/** A concrete switch and request for each of the switch's exceptions. */
module SwitchExamples {
  import opened OvsTypes
  import opened Switch
  import opened SwitchSpec
  import opened SwitchTheorems
  import opened SwitchIdempotence

  const OTHER_IF_TYPE: int := 0

  function Bare(links: set<string>, bridges: set<string>): Switch {
    Switch(links, bridges, map[], {}, map[], map[], map[], map[], map[])
  }

  function UpRequest(name: string, bridge: string, ifType: int): GatewayConfig {
    GatewayConfig(name, "", "", "", "", "", bridge, 0, 0, ifType, IF_UP_CMD)
  }

  const BACKHAUL_ENV: Env := Env(TG3482G, false, None, None, None)

  function BackhaulRequest(): GatewayConfig {
    UpRequest(PUMA.i1, PUMA.backhaulBridge, OTHER_IF_TYPE)
  }

  lemma StartIsTooEarly()
    ensures Consistent(Bare({PUMA.backhaul}, {}))
    ensures BackhaulTooEarly(Bare({PUMA.backhaul}, {}), BACKHAUL_ENV, PUMA.i1, PUMA.backhaulBridge)
  {
    PumaNamesApart();
  }

  lemma FirstRun()
    ensures var once := PortDone(Bare({PUMA.backhaul}, {}), BACKHAUL_ENV, BackhaulRequest());
      && once.ports == map[PUMA.i1 := PUMA.backhaulBridge]
      && PUMA.backhaul in once.links && PUMA.backhaul !in once.bridges && PUMA.backhaulBridge in once.bridges
  {
  }

  /** With the backhaul interface as the only device, bringing the first switch port up
      in the backhaul bridge leaves that interface out the first time, and attaches it
      the second time. */
  lemma SecondRunAttachesBackhaul()
    ensures var s := Bare({PUMA.backhaul}, {}); var once := PortDone(s, BACKHAUL_ENV, BackhaulRequest());
      && Consistent(s) && BackhaulTooEarly(s, BACKHAUL_ENV, PUMA.i1, PUMA.backhaulBridge)
      && once.ports == map[PUMA.i1 := PUMA.backhaulBridge]
      && PUMA.backhaul in PortDone(once, BACKHAUL_ENV, BackhaulRequest()).ports
  {
    PumaNamesApart();
    StartIsTooEarly();
    FirstRun();
    SecondRunAttaches(PortDone(Bare({PUMA.backhaul}, {}), BACKHAUL_ENV, BackhaulRequest()), BACKHAUL_ENV,
                       BackhaulRequest());
  }

  /** On a model with Wifi flows, creating bridge br0 with no parent named fails, and the
      bridge is there. */
  lemma BridgeIsThereThoughFailed()
    ensures var s := Bare({}, {}); var env := Env(CGM4331COM, false, None, None, None);
      var req := UpRequest("br0", "", BRIDGE_IF_TYPE);
      Consistent(s) && DoneStatus(env, req) == Failed && "br0" in Done(s, env, req).bridges
  {
    BridgeCreationStatus(Bare({}, {}), Env(CGM4331COM, false, None, None, None), UpRequest("br0", "", BRIDGE_IF_TYPE));
  }

  /** With the cable modem's address known and lan0's MAC address not, bringing llan0 up in
      brlan0 succeeds without the admin GUI flow. */
  lemma GuiFlowIsMissingThoughDone()
    ensures var s := Bare({BRLAN0}, {BRLAN0});
      var env := Env(CGM4331COM, false, Some("10.0.0.1"), None, Some("fd00::1"));
      var req := UpRequest(LLAN0, BRLAN0, OTHER_IF_TYPE); var s' := Done(s, env, req);
      && Consistent(s) && DoneStatus(env, req) == Success
      && BRLAN0 in s'.bridges && FlowKey(BRLAN0, ArpTo("10.0.0.1")) !in s'.flows
  {
    var s, env := Bare({BRLAN0}, {BRLAN0}), Env(CGM4331COM, false, Some("10.0.0.1"), None, Some("fd00::1"));
    var req := UpRequest(LLAN0, BRLAN0, OTHER_IF_TYPE);
    AdminGuiFailureIsMasked(s, env, req, "10.0.0.1");
    ParentStays(s, env, req);
  }

  /** An existing parent bridge stays. */
  lemma ParentStays(s: Switch, env: Env, req: GatewayConfig)
    requires req.parentBridge in s.bridges && !NeedsPuma(env, req.ifName, req.ifCmd)
    requires req.ifCmd == IF_UP_CMD && req.parentBridge != ""
    ensures req.parentBridge in PortDone(s, env, req).bridges
  {
    var p, b, ovs := req.ifName, req.parentBridge, OvsManaged(req.parentBridge);
    var s1 := Prepared(s, env, p, IF_UP_CMD);
    var s2 := Rehomed(s1, p, b, IF_UP_CMD, ovs);
    CreatedPorts(Leave(s1, p, b, IF_UP_CMD, ovs), b, IF_UP_CMD, ovs);
    assert b in s2.bridges;
    EditsOnlyFlows(s2, NewBridgeEdits(s1, env, b, IF_UP_CMD));
    EditsOnlyFlows(Moved(s1, env, p, b, IF_UP_CMD), PortEdits(env, p, b, IF_UP_CMD));
  }
}
