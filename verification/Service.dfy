/** The system with the switch: runs in which every result the agent reports is that
    of the switch action it ran. */
module Service {
  import opened OvsTypes
  import opened Codec
  import opened Connection
  import opened Peers
  import opened Protocol
  import opened ProtocolInvariant
  import opened ProtocolTheorems
  import opened Switch
  import opened SwitchSpec
  import SwitchTheorems

  /** The row the agent acts on in this step, if any. */
  function ActedRow(s: System, l: Label): Option<Json>
    requires Enabled(s, l)
  {
    if l.AgentDeliver? && Acts(s.agent, s.agent.conn.down[0]) then Some(s.agent.conn.down[0].row) else None
  }

  /** A step of the system with the switch: the agent applies the row's configuration
      to the switch, as its queries are answered at that time, and reports what the
      action returned. */
  ghost predicate SwitchStep(env: Env, s: System, sw: Switch, s': System, sw': Switch) {
    exists l :: Enabled(s, l) && s' == Step(s, l) && Switches(env, s, sw, l, sw')
  }

  ghost predicate Switches(env: Env, s: System, sw: Switch, l: Label, sw': Switch)
    requires Enabled(s, l)
  {
    match ActedRow(s, l)
    case None => sw' == sw
    case Some(row) => sw' == Done(sw, env, DecodeGateway(row)) && l.result == DoneStatus(env, DecodeGateway(row))
  }

  /** Step i of the run finds the environment envs[i]. */
  ghost predicate IsServiceRun(envs: seq<Env>, run: seq<System>, sws: seq<Switch>) {
    && run != [] && |sws| == |run| && |envs| == |run| && Init(run[0]) && Consistent(sws[0])
    && forall i :: 0 <= i < |run| - 1 ==> SwitchStep(envs[i], run[i], sws[i], run[i + 1], sws[i + 1])
  }

  lemma ServiceRunIsRun(envs: seq<Env>, run: seq<System>, sws: seq<Switch>)
    requires IsServiceRun(envs, run, sws)
    ensures IsRun(run)
  {
  }

  /** The environments of the first i steps in which the agent acted on a row. */
  function ActionEnvs(envs: seq<Env>, run: seq<System>, i: nat): seq<Env>
    requires i < |run| && |envs| == |run|
  {
    if i == 0 then []
    else if run[i].log.actions == run[i - 1].log.actions then ActionEnvs(envs, run, i - 1)
    else ActionEnvs(envs, run, i - 1) + [envs[i - 1]]
  }

  /** The switch once the rows in `actions` have been acted on, in order, each in its
      environment. */
  function AllDone(sw: Switch, es: seq<Env>, actions: seq<Uuid>, acted: map<Uuid, Action>): Switch
    requires |es| == |actions| && forall u :: u in actions ==> u in acted
    decreases |actions|
  {
    var n := |actions|;
    if n == 0 then sw
    else Done(AllDone(sw, es[..n - 1], actions[..n - 1], acted), es[n - 1], acted[actions[n - 1]].Config())
  }

  lemma {:induction false} AllDoneFrame(sw: Switch, es: seq<Env>, actions: seq<Uuid>,
                                        acted: map<Uuid, Action>, acted': map<Uuid, Action>)
    requires |es| == |actions| && forall u :: u in actions ==> u in acted && u in acted' && acted'[u] == acted[u]
    ensures AllDone(sw, es, actions, acted') == AllDone(sw, es, actions, acted)
    decreases |actions|
  {
    if actions != [] {
      AllDoneFrame(sw, es[..|actions| - 1], actions[..|actions| - 1], acted, acted');
    }
  }

  lemma AllDoneStep(sw: Switch, es: seq<Env>, actions: seq<Uuid>, acted: map<Uuid, Action>, at: nat)
    requires at < |actions| == |es| && forall u :: u in actions ==> u in acted
    ensures AllDone(sw, es[..at + 1], actions[..at + 1], acted)
            == Done(AllDone(sw, es[..at], actions[..at], acted), es[at], acted[actions[at]].Config())
  {
    assert actions[..at + 1][..at] == actions[..at] && es[..at + 1][..at] == es[..at];
  }

  lemma PositionOf(actions: seq<Uuid>, u: Uuid) returns (at: nat)
    requires u in actions
    ensures at < |actions| && actions[at] == u
  {
    at :| 0 <= at < |actions| && actions[at] == u;
  }

  /** Every result on record is that of the action on its row, in its environment, and
      the switch is what the recorded actions made of it. */
  ghost predicate SwitchOk(es: seq<Env>, first: Switch, log: History, sw: Switch) {
    Consistent(sw) && StatusesOk(es, log) && sw == AllDone(first, es, log.actions, log.acted)
  }

  ghost predicate StatusesOk(es: seq<Env>, log: History) {
    && |es| == |log.actions|
    && (forall u :: u in log.actions ==> u in log.acted)
    && (forall a :: 0 <= a < |es| ==>
          log.acted[log.actions[a]].status == DoneStatus(es[a], log.acted[log.actions[a]].Config()))
  }

  lemma StepActs(s: System, l: Label)
    requires Enabled(s, l)
    ensures var log, log' := s.log, Step(s, l).log;
      match ActedRow(s, l)
      case None => log'.actions == log.actions && log'.acted == log.acted
      case Some(row) =>
        var u := s.agent.conn.down[0].uuid;
        log'.actions == log.actions + [u] && log'.acted == log.acted[u := Action(row, l.result)]
  {
  }

  lemma AllDoneAppend(sw: Switch, es: seq<Env>, env: Env, actions: seq<Uuid>, u: Uuid,
                      acted: map<Uuid, Action>, acted': map<Uuid, Action>)
    requires |es| == |actions| && u in acted'
    requires forall v :: v in actions ==> v in acted && v in acted' && acted'[v] == acted[v]
    ensures AllDone(sw, es + [env], actions + [u], acted')
            == Done(AllDone(sw, es, actions, acted), env, acted'[u].Config())
  {
    AllDoneFrame(sw, es, actions, acted, acted');
    assert (actions + [u])[..|actions|] == actions && (es + [env])[..|actions|] == es;
  }

  lemma StatusesGrow(es: seq<Env>, env: Env, log: History, log': History, u: Uuid, a: Action)
    requires StatusesOk(es, log) && u !in log.acted && a.status == DoneStatus(env, a.Config())
    requires log'.actions == log.actions + [u] && log'.acted == log.acted[u := a]
    ensures StatusesOk(es + [env], log')
  {
    assert forall b :: 0 <= b < |es| ==> log.actions[b] in log.actions;
  }

  lemma ActionKeepsSwitch(es: seq<Env>, env: Env, first: Switch, log: History, log': History, sw: Switch,
                          u: Uuid, a: Action)
    requires SwitchOk(es, first, log, sw) && u !in log.acted
    requires log'.actions == log.actions + [u] && log'.acted == log.acted[u := a]
    requires a.status == DoneStatus(env, a.Config())
    ensures SwitchOk(es + [env], first, log', Done(sw, env, a.Config()))
  {
    SwitchTheorems.DoneKeepsConsistent(sw, env, a.Config());
    StatusesGrow(es, env, log, log', u, a);
    AllDoneAppend(first, es, env, log.actions, u, log.acted, log'.acted);
  }

  lemma ActsOnNewRow(s: System)
    requires Inv(s) && s.agent.conn.down != [] && Acts(s.agent, s.agent.conn.down[0])
    ensures s.agent.conn.down[0].uuid !in s.log.acted
  {
  }

  lemma ActingKeeps(es: seq<Env>, env: Env, first: Switch, s: System, sw: Switch, l: Label)
    requires Inv(s) && SwitchOk(es, first, s.log, sw) && Enabled(s, l) && ActedRow(s, l).Some?
    requires l.result == DoneStatus(env, DecodeGateway(ActedRow(s, l).value))
    ensures |Step(s, l).log.actions| == |s.log.actions| + 1
    ensures SwitchOk(es + [env], first, Step(s, l).log, Done(sw, env, DecodeGateway(ActedRow(s, l).value)))
  {
    StepActs(s, l);
    ActsOnNewRow(s);
    var m := s.agent.conn.down[0];
    ActionKeepsSwitch(es, env, first, s.log, Step(s, l).log, sw, m.uuid, Action(m.row, l.result));
  }

  lemma IdleKeeps(es: seq<Env>, first: Switch, s: System, sw: Switch, l: Label)
    requires SwitchOk(es, first, s.log, sw) && Enabled(s, l) && ActedRow(s, l).None?
    ensures Step(s, l).log.actions == s.log.actions && SwitchOk(es, first, Step(s, l).log, sw)
  {
    StepActs(s, l);
  }

  lemma SwitchStepKeeps(es: seq<Env>, env: Env, first: Switch, s: System, sw: Switch, s': System, sw': Switch)
    requires Inv(s) && SwitchOk(es, first, s.log, sw) && SwitchStep(env, s, sw, s', sw')
    ensures SwitchOk(if s'.log.actions == s.log.actions then es else es + [env], first, s'.log, sw')
  {
    var l :| Enabled(s, l) && s' == Step(s, l) && Switches(env, s, sw, l, sw');
    if ActedRow(s, l).Some? {
      ActingKeeps(es, env, first, s, sw, l);
    } else {
      IdleKeeps(es, first, s, sw, l);
    }
  }

  lemma ServiceStep(envs: seq<Env>, run: seq<System>, sws: seq<Switch>, i: nat)
    requires IsServiceRun(envs, run, sws) && i + 1 < |run|
    ensures Inv(run[i]) && SwitchStep(envs[i], run[i], sws[i], run[i + 1], sws[i + 1])
  {
    ServiceRunIsRun(envs, run, sws);
    RunInv(run, i);
  }

  lemma ServiceKeeps(envs: seq<Env>, run: seq<System>, sws: seq<Switch>, first: Switch, i: nat)
    requires IsServiceRun(envs, run, sws) && i + 1 < |run|
    requires SwitchOk(ActionEnvs(envs, run, i), first, run[i].log, sws[i])
    ensures SwitchOk(ActionEnvs(envs, run, i + 1), first, run[i + 1].log, sws[i + 1])
  {
    ServiceStep(envs, run, sws, i);
    SwitchStepKeeps(ActionEnvs(envs, run, i), envs[i], first, run[i], sws[i], run[i + 1], sws[i + 1]);
  }

  lemma ServiceStart(s: System, sw: Switch)
    requires Init(s) && Consistent(sw)
    ensures SwitchOk([], sw, s.log, sw)
  {
  }

  lemma {:induction false} ServiceInv(envs: seq<Env>, run: seq<System>, sws: seq<Switch>, i: nat)
    requires IsServiceRun(envs, run, sws) && i < |run|
    ensures SwitchOk(ActionEnvs(envs, run, i), sws[0], run[i].log, sws[i])
  {
    if i == 0 {
      ServiceStart(run[0], sws[0]);
    } else {
      ServiceInv(envs, run, sws, i - 1);
      ServiceKeeps(envs, run, sws, sws[0], i - 1);
    }
  }

  /** At any time the switch is the initial one with the configurations of distinct
      committed rows applied, in the order the agent acted on them, each in the
      environment the agent found then. */
  lemma SwitchIsItsHistory(envs: seq<Env>, run: seq<System>, sws: seq<Switch>, i: nat)
    requires IsServiceRun(envs, run, sws) && i < |run|
    ensures var log := run[i].log; var es := ActionEnvs(envs, run, i);
      && (forall u :: u in log.actions ==> u in log.acted && u in log.origins && u !in log.aborted)
      && (forall a, b :: 0 <= a < b < |log.actions| ==> log.actions[a] != log.actions[b])
      && |es| == |log.actions|
      && Consistent(sws[i]) && sws[i] == AllDone(sws[0], es, log.actions, log.acted)
  {
    ServiceRunIsRun(envs, run, sws);
    ServiceInv(envs, run, sws, i);
    AtMostOnce(run, i);
  }

  /** A request whose transaction completed was applied to the switch as it stood when
      its turn came, and its caller was told what that application returned, as long
      as no insert reply was delivered into a slot held by another transaction. What
      was applied is the configuration requested exactly when that one fits the C
      structure. */
  lemma RequestReachesTheSwitch(envs: seq<Env>, run: seq<System>, sws: seq<Switch>, i: nat, c: nat, n: nat)
    returns (at: nat)
    requires IsServiceRun(envs, run, sws) && i < |run| && c < |run[0].clients| && NoneMisdirected(run, i, c)
    requires n < |run[i].log.calls| && run[i].log.calls[n].client == c
    ensures var log := run[i].log; var call := log.calls[n]; var applied := DecodeGateway(EncodeGateway(call.config));
      var es := ActionEnvs(envs, run, i);
      && at < |log.actions| == |es| && log.actions[at] == call.uuid
      && call.uuid in log.origins && log.origins[call.uuid] == Origin(c, call.rid)
      && (forall u :: u in log.actions ==> u in log.acted)
      && AllDone(sws[0], es[..at + 1], log.actions[..at + 1], log.acted)
         == Done(AllDone(sws[0], es[..at], log.actions[..at], log.acted), es[at], applied)
      && call.status == DoneStatus(es[at], applied)
      && (applied == call.config <==> FitsGateway(call.config))
  {
    ServiceRunIsRun(envs, run, sws);
    ServiceInv(envs, run, sws, i);
    EndToEnd(run, i, c, n);
    ActedIsListed(run, i);
    at := PositionOf(run[i].log.actions, run[i].log.calls[n].uuid);
    AllDoneStep(sws[0], ActionEnvs(envs, run, i), run[i].log.actions, run[i].log.acted, at);
  }

  lemma NextLists(s: System, s': System)
    requires Next(s, s') && forall u :: u in s.log.acted ==> u in s.log.actions
    ensures forall u :: u in s'.log.acted ==> u in s'.log.actions
  {
    var l :| Enabled(s, l) && s' == Step(s, l);
    StepActs(s, l);
  }

  /** Every row with a recorded action is in the sequence of actions. */
  lemma {:induction false} ActedIsListed(run: seq<System>, i: nat)
    requires IsRun(run) && i < |run|
    ensures forall u :: u in run[i].log.acted ==> u in run[i].log.actions
  {
    if i > 0 {
      ActedIsListed(run, i - 1);
      assert Next(run[i - 1], run[i - 1 + 1]);
      NextLists(run[i - 1], run[i]);
    }
  }
}
