/** When a port that is brought up a second time is left as it is. */
module SwitchIdempotence {
  import opened OvsTypes
  import opened Switch
  import opened SwitchSpec
  import opened SwitchTheorems

  // ----- Flow edits that hold -----

  /** The edit would change nothing. */
  predicate Holds(s: Switch, e: FlowEdit) {
    if e.action.Some? && e.key.bridge in s.bridges then e.key in s.flows && s.flows[e.key] == e.action.value
    else e.key !in s.flows
  }

  ghost predicate AllHold(s: Switch, es: seq<FlowEdit>) {
    forall e :: e in es ==> Holds(s, e)
  }

  /** Edits of the same flow agree. */
  ghost predicate Compatible(es: seq<FlowEdit>) {
    forall e, f :: e in es && f in es && e.key == f.key ==> e == f
  }

  lemma HeldEditIsIdle(s: Switch, e: FlowEdit)
    requires Holds(s, e)
    ensures Edited(s, e) == s
  {
  }

  lemma {:induction false} HeldEditsAreIdle(s: Switch, es: seq<FlowEdit>)
    requires AllHold(s, es)
    ensures Edits(s, es) == s
    decreases |es|
  {
    if es != [] {
      HeldEditIsIdle(s, es[0]);
      HeldEditsAreIdle(s, es[1..]);
    }
  }

  /** An edit that holds goes on holding through edits compatible with it. */
  lemma {:induction false} HeldThrough(s: Switch, e: FlowEdit, es: seq<FlowEdit>)
    requires Holds(s, e) && forall f :: f in es && f.key == e.key ==> f == e
    ensures Holds(Edits(s, es), e)
    decreases |es|
  {
    if es != [] {
      assert es[0] in es;
      HeldThrough(Edited(s, es[0]), e, es[1..]);
    }
  }

  lemma {:induction false} EditsMakeHold(s: Switch, es: seq<FlowEdit>)
    requires Compatible(es)
    ensures AllHold(Edits(s, es), es)
    decreases |es|
  {
    if es != [] {
      var s1 := Edited(s, es[0]);
      assert Holds(s1, es[0]);
      assert forall f :: f in es[1..] ==> f in es;
      HeldThrough(s1, es[0], es[1..]);
      EditsMakeHold(s1, es[1..]);
    }
  }

  /** The kind of match tells the edits of a request apart. */
  function Slot(m: Match): nat {
    match m
    case ArpTo(_) => 0
    case IpTo(_) => 1
    case Ipv6To(_) => 2
    case EtherType(kind) => 3 + kind
  }

  ghost predicate FromSlots(es: seq<FlowEdit>, edit: nat -> FlowEdit) {
    forall e :: e in es ==> e == edit(Slot(e.key.match_))
  }

  lemma SlotsCompatible(es: seq<FlowEdit>, edit: nat -> FlowEdit)
    requires FromSlots(es, edit)
    ensures Compatible(es)
  {
  }

  /** The one edit a request can make for each kind of match. */
  function EditAt(env: Env, p: string, b: string, cmd: int, slot: nat): FlowEdit {
    var gui := AdminGuiEdits(env, p, b, cmd);
    var block := BlockEdits(env, b, cmd);
    if slot == 0 && gui != [] then gui[0]
    else if slot == 1 && gui != [] then gui[1]
    else if slot == 2 && block != [] then block[0]
    else WifiEdit(b, if slot < 3 then 0 else slot - 3, cmd)
  }

  lemma RequestEditsCompatible(env: Env, p: string, b: string, cmd: int, es: seq<FlowEdit>)
    requires es == [] || es == BridgeEdits(env, b, cmd)
    ensures Compatible(es + PortEdits(env, p, b, cmd))
  {
    var all := es + PortEdits(env, p, b, cmd);
    var edit := (slot: nat) => EditAt(env, p, b, cmd, slot);
    WifiSlots(env, p, b, cmd);
    GuiSlots(env, p, b, cmd);
    assert FromSlots(all, edit);
    SlotsCompatible(all, edit);
  }

  lemma WifiSlots(env: Env, p: string, b: string, cmd: int)
    ensures forall e :: e in BridgeEdits(env, b, cmd) ==> e == EditAt(env, p, b, cmd, Slot(e.key.match_))
  {
  }

  lemma GuiSlots(env: Env, p: string, b: string, cmd: int)
    ensures forall e :: e in AdminGuiEdits(env, p, b, cmd) + BlockEdits(env, b, cmd) ==>
      e == EditAt(env, p, b, cmd, Slot(e.key.match_))
  {
  }

  // ----- States that a request has settled -----

  predicate IsUp(s: Switch, x: string) {
    x in s.links ==> x in s.admin && s.admin[x]
  }

  /** Port p is at home in b, or cannot get there. */
  predicate Home(s: Switch, p: string, b: string, ovs: bool) {
    if ovs then
      && (p in s.ports ==> s.ports[p] == b)
      && (p in s.ports || p in s.bridges || b !in s.bridges)
    else
      && (p in s.members ==> s.members[p] == b)
      && (p in s.members || Enslaved(s, b, p) == s)
  }

  /** Bridge b exists, or cannot be created. */
  predicate Built(s: Switch, b: string, ovs: bool) {
    b in s.links || (ovs && b in s.ports)
  }

  /** A cycle of d and i would change nothing but the state of d, which is b then. */
  predicate CycleIdle(s: Switch, d: string, i: string, b: string) {
    && d !in s.linuxBridges
    && (if d in s.links then d == b || (d in s.admin && !s.admin[d]) else i in s.links && d !in s.admin)
  }

  predicate BackhaulIdle(s: Switch, n: Names) {
    n.backhaul in s.links ==>
      && IsUp(s, n.backhaul)
      && (n.backhaul in s.ports || n.backhaul in s.bridges || n.backhaulBridge !in s.bridges)
  }

  predicate PumaIdle(s: Switch, n: Names, p: string, b: string) {
    && (if Restores(s, n, p) then CycleIdle(s, n.d1, n.i1, b) && CycleIdle(s, n.d2, n.i2, b)
        else CycleIdle(s, Dummy(n, p), p, b))
    && BackhaulIdle(s, n)
  }

  /** The state differs from s at most in what the last steps of the request restore:
      p's OVS port and the administrative state of b. */
  ghost predicate Near(t: Switch, s: Switch, p: string, b: string) {
    && t == s.(ports := t.ports, admin := t.admin)
    && (t.ports == s.ports || t.ports == s.ports - {p})
    && (t.admin == s.admin || (b in s.links && t.admin == s.admin[b := false]))
  }

  lemma CycleIdleNear(t: Switch, s: Switch, d: string, i: string, p: string, b: string)
    requires Consistent(s) && CycleIdle(s, d, i, b) && Near(t, s, p, b) && d != i
    ensures Near(Cycled(t, d, i), s, p, b)
  {
    if d in s.links {
      if d != b { assert t.admin[d := false] == t.admin; }
      else { assert s.admin[b := false][b := false] == s.admin[b := false]; }
    } else {
      assert t.links + {i} - {d} == t.links;
      assert t.linuxBridges - {d} == t.linuxBridges;
      assert WithoutValue(t.members, d) == t.members;
      assert t.admin - {d} == t.admin;
    }
  }

  lemma SwitchCycledNear(s: Switch, n: Names, p: string, b: string)
    requires Consistent(s) && Apart(n) && SwitchPort(n, p) && PumaIdle(s, n, p, b)
    ensures Near(SwitchCycled(s, n, p), s, p, b)
  {
    if Restores(s, n, p) {
      var s0 := s.(ports := s.ports - {p});
      CycleIdleNear(s0, s, n.d1, n.i1, p, b);
      CycleIdleNear(Cycled(s0, n.d1, n.i1), s, n.d2, n.i2, p, b);
    } else {
      CycleIdleNear(s, s, Dummy(n, p), p, p, b);
    }
  }

  lemma BackhaulNear(t: Switch, s: Switch, n: Names, p: string, b: string)
    requires Apart(n) && SwitchPort(n, p) && BackhaulIdle(s, n) && Near(t, s, p, b) && IsUp(s, b)
    ensures Near(BackhaulRestored(t, n), s, p, b)
  {
  }

  /** From a state near a settled one, the rest of the request restores it. */
  lemma RehomedNear(t: Switch, s: Switch, p: string, b: string, ovs: bool)
    requires Near(t, s, p, b) && Consistent(s)
    requires IsUp(s, p) && IsUp(s, b) && Home(s, p, b, ovs) && Built(s, b, ovs)
    requires !ovs ==> t.ports == s.ports
    requires p == b ==> t.ports == s.ports
    ensures Rehomed(AdminSet(t, p, IF_UP_CMD), p, b, IF_UP_CMD, ovs) == s
  {
    var t1 := AdminSet(t, p, IF_UP_CMD);
    UpNear(t, s, p, b);
    var t2 := Leave(t1, p, b, IF_UP_CMD, ovs);
    assert t2 == t1;
    assert Create(t2, b, ovs) == t2;
    var t3 := AdminSet(t2, b, IF_UP_CMD);
    BridgeUp(t1, s, p, b);
    if ovs && p in s.ports && t.ports != s.ports {
      assert (s.ports - {p})[p := b] == s.ports;
    }
  }

  lemma UpNear(t: Switch, s: Switch, p: string, b: string)
    requires Near(t, s, p, b) && IsUp(s, p) && IsUp(s, b)
    ensures Near(AdminSet(t, p, IF_UP_CMD), s, p, b) && AdminSet(t, p, IF_UP_CMD).ports == t.ports
  {
  }

  lemma BridgeUp(t: Switch, s: Switch, p: string, b: string)
    requires Near(t, s, p, b) && IsUp(s, b)
    ensures AdminSet(t, b, IF_UP_CMD) == s.(ports := t.ports)
  {
    if b in s.links {
      assert s.admin[b := false][b := true] == s.admin && s.admin[b := true] == s.admin;
    }
  }

  // ----- The first request settles the state -----

  lemma CycledIsIdle(s: Switch, d: string, i: string, b: string)
    requires Consistent(s) && d != i
    ensures CycleIdle(Cycled(s, d, i), d, i, b)
  {
  }

  lemma CycleIdleThrough(s: Switch, d: string, i: string, d2: string, i2: string, b: string)
    requires CycleIdle(s, d, i, b) && d != d2 && d != i2 && i != d2
    ensures CycleIdle(Cycled(s, d2, i2), d, i, b)
  {
  }

  /** What the cycles leave, before the backhaul. */
  predicate CyclesIdle(s: Switch, n: Names, p: string, b: string) {
    if Restores(s, n, p) then CycleIdle(s, n.d1, n.i1, b) && CycleIdle(s, n.d2, n.i2, b)
    else CycleIdle(s, Dummy(n, p), p, b)
  }

  lemma BothCyclesSettle(s: Switch, n: Names, b: string)
    requires Consistent(s) && Apart(n)
    ensures var t := Cycled(Cycled(s, n.d1, n.i1), n.d2, n.i2);
      && CycleIdle(t, n.d1, n.i1, b) && CycleIdle(t, n.d2, n.i2, b)
      && (forall i :: (i == n.i1 || i == n.i2) && i in s.links ==> i in t.links)
  {
    CycledIsIdle(s, n.d1, n.i1, b);
    var s1 := Cycled(s, n.d1, n.i1);
    CycledKeepsConsistent(s, n.d1, n.i1);
    CycledIsIdle(s1, n.d2, n.i2, b);
    CycleIdleThrough(s1, n.d1, n.i1, n.d2, n.i2, b);
  }

  lemma SwitchCycledSettles(s: Switch, n: Names, p: string, b: string)
    requires Consistent(s) && Apart(n) && SwitchPort(n, p)
    ensures var t := SwitchCycled(s, n, p);
      && CyclesIdle(t, n, p, b) && (Restores(t, n, p) <==> Restores(s, n, p))
      && (n.backhaul in t.links <==> n.backhaul in s.links)
  {
    SwitchCycledFrame(s, n, p);
    if Restores(s, n, p) {
      WithoutPortConsistent(s, p);
      BothCyclesSettle(s.(ports := s.ports - {p}), n, b);
    } else {
      CycledIsIdle(s, Dummy(n, p), p, b);
      assert Sibling(n, p) in SwitchCycled(s, n, p).links <==> Sibling(n, p) in s.links by {
        CycledFrame(s, Dummy(n, p), p);
      }
    }
  }

  /** A cycle's idleness depends on little of the state. */
  lemma CycleIdleSame(t: Switch, u: Switch, d: string, i: string, b: string)
    requires CycleIdle(t, d, i, b)
    requires u.links == t.links && u.linuxBridges == t.linuxBridges
    requires d in u.admin <==> d in t.admin
    requires d in t.admin ==> u.admin[d] == t.admin[d]
    ensures CycleIdle(u, d, i, b)
  {
  }

  lemma BackhaulSettles(t: Switch, n: Names, p: string, b: string)
    requires Apart(n) && SwitchPort(n, p) && CyclesIdle(t, n, p, b)
    ensures var u := BackhaulRestored(t, n);
      && CyclesIdle(u, n, p, b) && BackhaulIdle(u, n) && (Restores(u, n, p) <==> Restores(t, n, p))
      && u.links == t.links && (p in u.ports ==> p in t.ports)
  {
    if n.backhaul in t.links {
      var u := BackhaulRestored(t, n);
      var t1 := t.(admin := t.admin[n.backhaul := true]);
      assert u == t1.(ports := u.ports);
      assert u.ports == t.ports || u.ports == t.ports[n.backhaul := n.backhaulBridge];
      if Restores(t, n, p) {
        CycleIdleSame(t, u, n.d1, n.i1, b);
        CycleIdleSame(t, u, n.d2, n.i2, b);
      } else {
        CycleIdleSame(t, u, Dummy(n, p), p, b);
      }
    }
  }

  lemma PreparationSettles(s: Switch, env: Env, p: string, b: string)
    requires Consistent(s)
    ensures var t := Prepared(s, env, p, IF_UP_CMD);
      && Consistent(t) && IsUp(t, p)
      && (NeedsPuma(env, p, IF_UP_CMD) ==>
            && PumaIdle(t, PUMA, p, b)
            && (Restores(t, PUMA, p) <==> Restores(s, PUMA, p))
            && (Restores(t, PUMA, p) ==> p !in t.ports)
            && (PUMA.backhaul in t.links <==> PUMA.backhaul in s.links))
  {
    PumaNamesApart();
    PreparedKeepsConsistent(s, env, p, IF_UP_CMD);
    if NeedsPuma(env, p, IF_UP_CMD) {
      SwitchCycledSettles(s, PUMA, p, b);
      SwitchCycledFrame(s, PUMA, p);
      BackhaulSettles(SwitchCycled(s, PUMA, p), PUMA, p, b);
      PumaIdleUp(PumaSetUp(s, PUMA, p), PUMA, p, b);
    }
  }

  lemma PumaIdleUp(t: Switch, n: Names, p: string, b: string)
    requires Apart(n) && SwitchPort(n, p) && PumaIdle(t, n, p, b)
    ensures PumaIdle(AdminSet(t, p, IF_UP_CMD), n, p, b)
  {
  }

  /** What joining the parent bridge leaves. */
  lemma RehomedSettles(t: Switch, p: string, b: string, ovs: bool)
    requires Consistent(t) && IsUp(t, p)
    ensures var u := Rehomed(t, p, b, IF_UP_CMD, ovs);
      IsUp(u, p) && IsUp(u, b) && Home(u, p, b, ovs) && Built(u, b, ovs)
  {
    var t0 := Leave(t, p, b, IF_UP_CMD, ovs);
    var t1 := AdminSet(Create(t0, b, ovs), b, IF_UP_CMD);
    LeaveKeepsConsistent(t, p, b, IF_UP_CMD, ovs);
    CreateSettles(t0, p, b, ovs);
    JoinSettles(t1, p, b, ovs);
  }

  lemma CreateSettles(t: Switch, p: string, b: string, ovs: bool)
    requires Consistent(t) && IsUp(t, p)
    requires ovs ==> (p in t.ports ==> t.ports[p] == b)
    requires !ovs ==> (p in t.members ==> t.members[p] == b)
    ensures var u := AdminSet(Create(t, b, ovs), b, IF_UP_CMD);
      && IsUp(u, p) && IsUp(u, b) && Built(u, b, ovs)
      && (ovs ==> (p in u.ports ==> u.ports[p] == b))
      && (!ovs ==> (p in u.members ==> u.members[p] == b))
  {
    var c := Create(t, b, ovs);
    var u := AdminSet(c, b, IF_UP_CMD);
    assert u == c.(admin := u.admin);
    CreatedIs(t, b, ovs);
    assert p in c.links ==> p in t.links || p == b;
  }

  lemma CreatedIs(t: Switch, b: string, ovs: bool)
    ensures var c := Create(t, b, ovs);
      && c == t.(links := c.links, bridges := c.bridges, linuxBridges := c.linuxBridges)
      && (c.links == t.links || c.links == t.links + {b})
      && (c.bridges == t.bridges || (ovs && b !in t.links && c.bridges == t.bridges + {b}))
      && (c.linuxBridges == t.linuxBridges || (!ovs && c.linuxBridges == t.linuxBridges + {b}))
      && (b in c.links || (ovs && (b in t.ports || b in t.bridges)))
  {
  }

  lemma JoinSettles(t: Switch, p: string, b: string, ovs: bool)
    requires IsUp(t, p) && IsUp(t, b) && Built(t, b, ovs)
    requires ovs ==> (p in t.ports ==> t.ports[p] == b)
    requires !ovs ==> (p in t.members ==> t.members[p] == b)
    ensures var u := Join(t, p, b, ovs);
      IsUp(u, p) && IsUp(u, b) && Home(u, p, b, ovs) && Built(u, b, ovs)
  {
  }

  /** The links, bridges and states that joining the parent bridge changes are b's. */
  ghost predicate OnlyTouches(t: Switch, u: Switch, p: string, b: string, ovs: bool) {
    && (u.links == t.links || u.links == t.links + {b})
    && (u.bridges == t.bridges || (ovs && b !in t.links && u.bridges == t.bridges + {b}))
    && (u.linuxBridges == t.linuxBridges || (!ovs && u.linuxBridges == t.linuxBridges + {b}))
    && (forall x :: x != b ==> (x in u.admin <==> x in t.admin))
    && (forall x :: x != b && x in t.admin ==> u.admin[x] == t.admin[x])
    && (b !in u.links ==> u.admin == t.admin)
    && (forall x :: x != p ==> (x in u.ports <==> x in t.ports))
    && (!ovs ==> u.ports == t.ports)
  }

  lemma JoinIs(t: Switch, p: string, b: string, ovs: bool)
    ensures var u := Join(t, p, b, ovs);
      && u == t.(ports := u.ports, members := u.members)
      && (u.ports == t.ports || (ovs && u.ports == t.ports[p := b]))
  {
  }

  lemma LeaveIs(t: Switch, p: string, b: string, ovs: bool)
    ensures var u := Leave(t, p, b, IF_UP_CMD, ovs);
      && u == t.(ports := u.ports, members := u.members)
      && (u.ports == t.ports || (ovs && u.ports == t.ports - {p}))
  {
  }

  lemma RehomedTouches(t: Switch, p: string, b: string, ovs: bool)
    ensures OnlyTouches(t, Rehomed(t, p, b, IF_UP_CMD, ovs), p, b, ovs)
  {
    var t0 := Leave(t, p, b, IF_UP_CMD, ovs);
    var t1 := Create(t0, b, ovs);
    var t2 := AdminSet(t1, b, IF_UP_CMD);
    var u := Join(t2, p, b, ovs);
    LeaveIs(t, p, b, ovs);
    CreatedIs(t0, b, ovs);
    JoinIs(t2, p, b, ovs);
    assert t2 == t1.(admin := t2.admin);
    assert t2.admin == t.admin || (b in t1.links && t2.admin == t.admin[b := true]);
  }

  lemma CycleIdleRehomed(t: Switch, u: Switch, d: string, i: string, p: string, b: string, ovs: bool)
    requires CycleIdle(t, d, i, b) && OnlyTouches(t, u, p, b, ovs) && (!ovs ==> b != d)
    ensures CycleIdle(u, d, i, b)
  {
  }

  /** The workaround's effects survive joining the parent bridge, unless that creates
      the backhaul bridge for a backhaul interface still to be attached. */
  lemma PumaIdleRehomed(t: Switch, u: Switch, n: Names, p: string, b: string, ovs: bool)
    requires Apart(n) && SwitchPort(n, p) && PumaIdle(t, n, p, b) && OnlyTouches(t, u, p, b, ovs)
    requires !ovs ==> b != n.d1 && b != n.d2 && b != n.i1 && b != n.i2 && b != n.backhaul && b != n.backhaulBridge
    requires IsUp(u, b) && (b in u.links && b !in t.links && ovs ==> b in u.bridges)
    requires Consistent(u) && Consistent(t) && (Restores(t, n, p) ==> p !in t.ports)
    ensures CyclesIdle(u, n, p, b) && (Restores(u, n, p) <==> Restores(t, n, p))
    ensures BackhaulIdle(u, n) <==>
      !(n.backhaul in t.links && b == n.backhaulBridge && b in u.bridges && b !in t.links
        && n.backhaul !in t.ports && n.backhaul !in t.bridges)
  {
    var q := Sibling(n, p);
    assert q in u.ports <==> q in t.ports;
    assert !(q in t.ports && q in u.links && q !in t.links);
    if Restores(t, n, p) {
      CycleIdleRehomed(t, u, n.d1, n.i1, p, b, ovs);
      CycleIdleRehomed(t, u, n.d2, n.i2, p, b, ovs);
    } else {
      CycleIdleRehomed(t, u, Dummy(n, p), p, p, b, ovs);
    }
  }

  // ----- The repeated request -----

  ghost predicate Settled(s: Switch, env: Env, p: string, b: string, ovs: bool) {
    && Consistent(s) && IsUp(s, p) && IsUp(s, b) && Home(s, p, b, ovs) && Built(s, b, ovs)
    && (NeedsPuma(env, p, IF_UP_CMD) ==> PumaIdle(s, PUMA, p, b))
    && (NeedsPuma(env, p, IF_UP_CMD) && !ovs && Restores(s, PUMA, p) ==> p !in s.ports)
  }

  lemma PumaNear(s: Switch, n: Names, p: string, b: string)
    requires Consistent(s) && Apart(n) && SwitchPort(n, p) && PumaIdle(s, n, p, b) && IsUp(s, b)
    ensures var t := PumaSetUp(s, n, p);
      Near(t, s, p, b) && (t.ports == s.ports || (Restores(s, n, p) && t.ports == s.ports - {p}))
  {
    SwitchCycledNear(s, n, p, b);
    SwitchCycledFrame(s, n, p);
    BackhaulNear(SwitchCycled(s, n, p), s, n, p, b);
    BackhaulKeepsPorts(SwitchCycled(s, n, p), s, n, p, b);
  }

  lemma BackhaulKeepsPorts(t: Switch, s: Switch, n: Names, p: string, b: string)
    requires Apart(n) && SwitchPort(n, p) && BackhaulIdle(s, n) && Near(t, s, p, b)
    ensures BackhaulRestored(t, n).ports == t.ports
  {
  }

  lemma SettledIsRehomed(s: Switch, env: Env, p: string, b: string, ovs: bool)
    requires Settled(s, env, p, b, ovs)
    ensures var t := Prepared(s, env, p, IF_UP_CMD);
      t.links == s.links && Rehomed(t, p, b, IF_UP_CMD, ovs) == s
  {
    PumaNamesApart();
    var t := if NeedsPuma(env, p, IF_UP_CMD) then PumaSetUp(s, PUMA, p) else s;
    if NeedsPuma(env, p, IF_UP_CMD) { PumaNear(s, PUMA, p, b); }
    assert Near(t, s, p, b);
    if p !in s.ports { assert s.ports - {p} == s.ports; }
    RehomedNear(t, s, p, b, ovs);
  }

  lemma SettledIsFixed(s: Switch, env: Env, req: GatewayConfig)
    requires req.ifCmd == IF_UP_CMD && req.parentBridge != ""
    requires Settled(s, env, req.ifName, req.parentBridge, OvsManaged(req.parentBridge))
    requires AllHold(s, NewBridgeEdits(s, env, req.parentBridge, IF_UP_CMD))
    requires AllHold(s, PortEdits(env, req.ifName, req.parentBridge, IF_UP_CMD))
    ensures PortDone(s, env, req) == s
  {
    var p, b := req.ifName, req.parentBridge;
    SettledIsRehomed(s, env, p, b, OvsManaged(b));
    HeldEditsAreIdle(s, NewBridgeEdits(s, env, b, IF_UP_CMD));
    HeldEditsAreIdle(s, PortEdits(env, p, b, IF_UP_CMD));
  }

  /** The request creates the backhaul bridge while the backhaul interface exists and
      is in no bridge: the first run comes too early to attach it. */
  predicate BackhaulTooEarly(s: Switch, env: Env, p: string, b: string) {
    && NeedsPuma(env, p, IF_UP_CMD) && b == PUMA.backhaulBridge
    && PUMA.backhaul in s.links && PUMA.backhaul !in s.ports && PUMA.backhaul !in s.bridges
    && b !in s.links && b !in s.ports
  }

  lemma PumaNamesOvs()
    ensures OvsManaged(PUMA.d1) && OvsManaged(PUMA.d2) && OvsManaged(PUMA.i1) && OvsManaged(PUMA.i2)
    ensures OvsManaged(PUMA.backhaul) && OvsManaged(PUMA.backhaulBridge)
  {
    assert |"brlan2"| == |"brlan3"| == |"brlan4"| == |"brlan5"| == 6;
    assert |PUMA.d1| == |PUMA.d2| == |PUMA.backhaul| == |PUMA.backhaulBridge| == 8 && |PUMA.i1| == |PUMA.i2| == 11;
  }

  /** Whether the backhaul bridge is there, and the backhaul interface attached, is the
      same before and after the preparation when the bridge is not there. */
  lemma PreparationKeepsBackhaul(s: Switch, n: Names, p: string)
    requires Apart(n) && SwitchPort(n, p) && n.backhaulBridge !in s.bridges
    ensures var t := PumaSetUp(s, n, p); var q := n.backhaulBridge;
      && (q in t.links <==> q in s.links) && t.bridges == s.bridges
      && (q in t.ports <==> q in s.ports)
      && (n.backhaul in t.ports <==> n.backhaul in s.ports)
  {
    SwitchCycledFrame(s, n, p);
  }

  /** Whether the backhaul bridge comes too late, before and after the preparation. */
  lemma TooEarlyAfterPreparation(s: Switch, env: Env, p: string, b: string)
    requires Consistent(s) && NeedsPuma(env, p, IF_UP_CMD)
    ensures var t := Prepared(s, env, p, IF_UP_CMD);
      BackhaulTooEarly(s, env, p, b) <==>
        && b == PUMA.backhaulBridge && PUMA.backhaul in t.links && PUMA.backhaul !in t.ports
        && PUMA.backhaul !in t.bridges
        && b !in t.links && b !in t.ports
  {
    PumaNamesApart();
    PreparationSettles(s, env, p, b);
    PumaBridges(s, PUMA, p);
    if PUMA.backhaulBridge !in s.bridges { PreparationKeepsBackhaul(s, PUMA, p); }
  }

  /** The first run, where the workaround is due. */
  lemma PumaRunSettles(s: Switch, env: Env, p: string, b: string, ovs: bool)
    requires Consistent(s) && ovs == OvsManaged(b) && NeedsPuma(env, p, IF_UP_CMD)
    ensures var t := Prepared(s, env, p, IF_UP_CMD); var u := Rehomed(t, p, b, IF_UP_CMD, ovs);
      && CyclesIdle(u, PUMA, p, b) && (Restores(u, PUMA, p) <==> Restores(t, PUMA, p))
      && (BackhaulIdle(u, PUMA) <==> !BackhaulTooEarly(s, env, p, b))
      && (BackhaulTooEarly(s, env, p, b) ==>
            PUMA.backhaul in u.links && PUMA.backhaul !in u.ports && PUMA.backhaul !in u.bridges
            && PUMA.backhaulBridge in u.bridges)
  {
    PumaNamesApart();
    PumaNamesOvs();
    var t := Prepared(s, env, p, IF_UP_CMD);
    var u := Rehomed(t, p, b, IF_UP_CMD, ovs);
    PreparationSettles(s, env, p, b);
    RehomedKeepsConsistent(t, p, b, IF_UP_CMD, ovs);
    RehomedSettles(t, p, b, ovs);
    RehomedTouches(t, p, b, ovs);
    NewBridge(t, p, b, ovs);
    PumaIdleRehomed(t, u, PUMA, p, b, ovs);
    TooEarlyAfterPreparation(s, env, p, b);
  }

  lemma FirstRunSettles(s: Switch, env: Env, p: string, b: string, ovs: bool)
    requires Consistent(s) && ovs == OvsManaged(b)
    ensures var u := Rehomed(Prepared(s, env, p, IF_UP_CMD), p, b, IF_UP_CMD, ovs);
      && Consistent(u)
      && (Settled(u, env, p, b, ovs) <==> !BackhaulTooEarly(s, env, p, b))
      && (BackhaulTooEarly(s, env, p, b) ==>
            PUMA.backhaul in u.links && PUMA.backhaul !in u.ports && PUMA.backhaul !in u.bridges
            && PUMA.backhaulBridge in u.bridges)
  {
    var t := Prepared(s, env, p, IF_UP_CMD);
    PreparationSettles(s, env, p, b);
    RehomedKeepsConsistent(t, p, b, IF_UP_CMD, ovs);
    RehomedSettles(t, p, b, ovs);
    RehomedTouches(t, p, b, ovs);
    if NeedsPuma(env, p, IF_UP_CMD) { PumaRunSettles(s, env, p, b, ovs); }
  }

  lemma PumaBridges(s: Switch, n: Names, p: string)
    requires SwitchPort(n, p)
    ensures PumaSetUp(s, n, p).bridges == s.bridges
  {
    SwitchCycledFrame(s, n, p);
  }

  /** When the parent bridge is created. */
  lemma NewBridge(t: Switch, p: string, b: string, ovs: bool)
    requires Consistent(t)
    ensures var u := Rehomed(t, p, b, IF_UP_CMD, ovs);
      && (b in u.links && b !in t.links && ovs ==> b in u.bridges)
      && (ovs && b != p && b !in t.links ==> (b in u.bridges <==> b !in t.ports))
  {
    CreatedPorts(Leave(t, p, b, IF_UP_CMD, ovs), b, IF_UP_CMD, ovs);
  }

  /** Whether a state is settled does not depend on the flows, apart from their bridges
      existing. */
  lemma FlowsAreFree(s: Switch, flows: map<FlowKey, FlowAction>, env: Env, p: string, b: string, ovs: bool)
    requires Consistent(s) && Consistent(s.(flows := flows))
    ensures Settled(s.(flows := flows), env, p, b, ovs) <==> Settled(s, env, p, b, ovs)
  {
  }

  lemma EditsKeepSettled(s: Switch, es: seq<FlowEdit>, env: Env, p: string, b: string, ovs: bool)
    requires Consistent(s)
    ensures Settled(Edits(s, es), env, p, b, ovs) <==> Settled(s, env, p, b, ovs)
  {
    EditsOnlyFlows(s, es);
    FlowsAreFree(s, Edits(s, es).flows, env, p, b, ovs);
  }

  /** A request without a parent bridge ends with the preparation, which a second run
      repeats without effect. */
  lemma PreparationIsIdempotent(s: Switch, env: Env, p: string)
    requires Consistent(s)
    ensures var t := Prepared(s, env, p, IF_UP_CMD); Prepared(t, env, p, IF_UP_CMD) == t
  {
    var t := Prepared(s, env, p, IF_UP_CMD);
    PreparationSettles(s, env, p, p);
    if NeedsPuma(env, p, IF_UP_CMD) {
      PumaNamesApart();
      PumaIsIdle(t, PUMA, p);
    } else if p in t.links {
      assert t.admin[p := true] == t.admin;
    }
  }

  lemma PumaIsIdle(t: Switch, n: Names, p: string)
    requires Consistent(t) && Apart(n) && SwitchPort(n, p) && PumaIdle(t, n, p, p) && IsUp(t, p)
    requires Restores(t, n, p) ==> p !in t.ports
    ensures AdminSet(PumaSetUp(t, n, p), p, IF_UP_CMD) == t
  {
    PumaNear(t, n, p, p);
    BridgeUp(PumaSetUp(t, n, p), t, p, p);
  }

  lemma JoinIsIdempotent(s: Switch, env: Env, req: GatewayConfig)
    requires Consistent(s) && req.ifCmd == IF_UP_CMD && req.parentBridge != ""
    ensures PortDone(PortDone(s, env, req), env, req) == PortDone(s, env, req)
            <==> !BackhaulTooEarly(s, env, req.ifName, req.parentBridge)
  {
    var p, b := req.ifName, req.parentBridge;
    var ovs := OvsManaged(b);
    var t := Prepared(s, env, p, IF_UP_CMD);
    var u := Rehomed(t, p, b, IF_UP_CMD, ovs);
    var first, second := NewBridgeEdits(t, env, b, IF_UP_CMD), PortEdits(env, p, b, IF_UP_CMD);
    var s' := PortDone(s, env, req);
    FirstRunSettles(s, env, p, b, ovs);
    EditsConcat(u, first, second);
    assert s' == Edits(u, first + second);
    EditsKeepSettled(u, first + second, env, p, b, ovs);
    EditsOnlyFlows(u, first + second);
    if BackhaulTooEarly(s, env, p, b) {
      SecondRunAttaches(s', env, req);
    } else {
      RequestEditsCompatible(env, p, b, IF_UP_CMD, first);
      EditsMakeHold(u, first + second);
      RehomedTouches(t, p, b, ovs);
      SettledIsFixed(s', env, req);
    }
  }

  /** Bringing a port up twice does the same as once, for bridges, memberships, links,
      states and flows, exactly unless the request creates the backhaul bridge while
      the backhaul interface waits for it. */
  lemma UpIsIdempotent(s: Switch, env: Env, req: GatewayConfig)
    requires Consistent(s) && req.ifCmd == IF_UP_CMD
    ensures PortDone(PortDone(s, env, req), env, req) == PortDone(s, env, req)
            <==> !BackhaulTooEarly(s, env, req.ifName, req.parentBridge)
  {
    if req.parentBridge == "" {
      assert |PUMA.backhaulBridge| == 8;
      PreparationIsIdempotent(s, env, req.ifName);
    } else {
      JoinIsIdempotent(s, env, req);
    }
  }

  lemma SecondRunAttaches(s: Switch, env: Env, req: GatewayConfig)
    requires req.ifCmd == IF_UP_CMD && req.parentBridge != "" && NeedsPuma(env, req.ifName, IF_UP_CMD)
    requires PUMA.backhaul in s.links && PUMA.backhaul !in s.ports && PUMA.backhaul !in s.bridges
    requires PUMA.backhaulBridge in s.bridges
    ensures PUMA.backhaul in PortDone(s, env, req).ports
  {
    PumaNamesApart();
    var p, b := req.ifName, req.parentBridge;
    var t := Prepared(s, env, p, IF_UP_CMD);
    assert PUMA.backhaul in t.ports by { PumaAttaches(s, PUMA, p); }
    RehomedTouches(t, p, b, OvsManaged(b));
    PortDonePorts(s, env, req);
  }

  lemma PumaAttaches(s: Switch, n: Names, p: string)
    requires Apart(n) && SwitchPort(n, p)
    requires n.backhaul in s.links && n.backhaul !in s.ports && n.backhaul !in s.bridges
    requires n.backhaulBridge in s.bridges
    ensures n.backhaul in PumaSetUp(s, n, p).ports
  {
    SwitchCycledFrame(s, n, p);
  }

  // ----- A failure that is not reported -----

  /** For llan0 in brlan0, the status speaks of the blocking flow alone: the request
      succeeds exactly when the cable modem's address is known, and the admin GUI flow
      is there exactly when lan0's MAC address is known. */
  lemma AdminGuiFailureIsMasked(s: Switch, env: Env, req: GatewayConfig, ip: string)
    requires req.ifCmd == IF_UP_CMD && req.ifName == LLAN0 && req.parentBridge == BRLAN0
    requires GuiModel(env) && env.lan0Ip == Some(ip)
    ensures PortStatus(env, req) == Success <==> env.cmIp.Some?
    ensures BRLAN0 in PortDone(s, env, req).bridges ==>
      (FlowKey(BRLAN0, ArpTo(ip)) in PortDone(s, env, req).flows <==> env.lan0Mac.Some?)
  {
    var before := Moved(Prepared(s, env, LLAN0, IF_UP_CMD), env, LLAN0, BRLAN0, IF_UP_CMD);
    var es := PortEdits(env, LLAN0, BRLAN0, IF_UP_CMD);
    RequestEditsCompatible(env, LLAN0, BRLAN0, IF_UP_CMD, []);
    assert [] + es == es;
    EditsMakeHold(before, es);
    assert es[0] in es && es[0].key == FlowKey(BRLAN0, ArpTo(ip)) && es[0].action.Some? == env.lan0Mac.Some?;
  }
}
