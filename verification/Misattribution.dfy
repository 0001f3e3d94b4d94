/** A run in which two tracked requests whose ids share a slot are in flight together,
    and the second one's caller is told the result of the first. */
module Misattribution {
  import opened OvsTypes
  import opened Codec
  import opened Connection
  import opened TransactionTable
  import opened Peers
  import opened Protocol
  import opened ProtocolInvariant
  import opened ProtocolTheorems

  const FRESH_CLIENT := Client(Conn(0, [], [], [], {}), EmptySlots(), [], false, None)

  function Begin(): System {
    System([FRESH_CLIENT], StartedAgent(0), Db(map[], map[], {}, map[], None),
           History(map[], map[], {}, {}, [], map[], [], map[], [], {}))
  }

  /** The run goes on by one step. */
  lemma Then(run: seq<System>, l: Label) returns (run': seq<System>)
    requires IsRun(run) && Enabled(run[|run| - 1], l)
    ensures IsRun(run') && run' == run + [Step(run[|run| - 1], l)]
  {
    run' := run + [Step(run[|run| - 1], l)];
    assert Next(run[|run| - 1], Step(run[|run| - 1], l));
    forall i | 0 <= i < |run'| - 1 ensures Next(run'[i], run'[i + 1]) {
      if i < |run| - 1 { assert Next(run[i], run[i + 1]); }
    }
  }

  /** Request 1 has been committed as row u, and its reply waits in the channel; n ids
      have been used. The agent has been told of the row. */
  ghost predicate Replied1(s: System, n: nat, u: Uuid, row: Json) {
    && |s.clients| == 1
    && var cl := s.clients[0];
    && cl.conn.nextId == n && cl.conn.up == [] && cl.conn.down == [InsertReply(1, u)]
    && cl.conn.receipts != [] && cl.conn.receipts[0] == Receipt(1, InsertReceipt, WriteCallback)
    && cl.monitors == [] && !cl.watching && cl.cleanup == None
    && (forall k :: 0 <= k < MAX_TABLE_SIZE && cl.table[k].Some? ==> cl.table[k].value.uuid == NO_UUID)
    && s.log.calls == [] && u in s.log.origins && s.log.origins[u] == Origin(0, 1)
    && s.agent.conn.nextId == 2 && s.agent.conn.up == [] && s.agent.monitors == [1]
    && s.agent.conn.down == [MonitorReply(2), GatewayNew(1, u, row)]
    && s.agent.conn.receipts == [Receipt(2, MonitorReceipt, DummyCallback)]
    && s.db.used == {u} && s.db.watchers == map[]
  }

  lemma FirstRequest(first: GatewayConfig, u: Uuid) returns (run: seq<System>)
    requires u != NO_UUID
    ensures IsRun(run) && Replied1(run[|run| - 1], 1, u, EncodeGateway(first))
  {
    run := [Begin()];
    assert InitClient(Begin().clients[0]) && Begin().agent == StartedAgent(0);
    AfterFirst(first, u);
    run := Then(run, Request(0, first, true, true, true));
    run := Then(run, ServeAgent(0, u, Commits));
    run := Then(run, ServeClient(0, 0, u, Commits, true));
  }

  lemma AfterFirst(first: GatewayConfig, u: Uuid)
    requires u != NO_UUID
    ensures var l0 := Request(0, first, true, true, true);
      var l1, l2 := ServeAgent(0, u, Commits), ServeClient(0, 0, u, Commits, true);
      && Enabled(Begin(), l0) && Enabled(Step(Begin(), l0), l1) && Enabled(Step(Step(Begin(), l0), l1), l2)
      && Replied1(Step(Step(Step(Begin(), l0), l1), l2), 1, u, EncodeGateway(first))
  {
    var s1 := Step(Begin(), Request(0, first, true, true, true));
    assert s1.clients[0].conn.up == [InsertGateway(1, EncodeGateway(first))];
    var s2 := Step(s1, ServeAgent(0, u, Commits));
    assert s2.db.agentMonitor == Some(1) && s2.agent.conn.down == [MonitorReply(2)] && s2.clients == s1.clients;
  }

  /** A request that is not tracked, and whose write fails, uses up an id. */
  lemma UseUpId(s: System, n: nat, u: Uuid, row: Json, config: GatewayConfig)
    requires Replied1(s, n, u, row) && n < 10
    ensures var l := Request(0, config, false, false, false);
      Enabled(s, l) && Replied1(Step(s, l), n + 1, u, row)
  {
  }

  lemma {:induction false} UseUpIds(run: seq<System>, n: nat, u: Uuid, row: Json,
                                    config: GatewayConfig) returns (run': seq<System>)
    requires IsRun(run) && Replied1(run[|run| - 1], n, u, row) && n <= 5
    ensures IsRun(run') && Replied1(run'[|run'| - 1], 5, u, row)
    decreases 5 - n
  {
    run' := run;
    if n < 5 {
      UseUpId(run[|run| - 1], n, u, row, config);
      run' := Then(run, Request(0, config, false, false, false));
      run' := UseUpIds(run', n + 1, u, row, config);
    }
  }

  /** Request 6 holds the slot in which the reply to request 1 looks for request 1. */
  lemma Collide(s: System, u: Uuid, row: Json, second: GatewayConfig)
    requires Replied1(s, 5, u, row)
    ensures var l := Request(0, second, true, true, true); var s' := Step(s, l);
      && Enabled(s, l) && Collided(s', u, row, second)
  {
  }

  ghost predicate Collided(s: System, u: Uuid, row: Json, second: GatewayConfig) {
    && |s.clients| == 1
    && var cl := s.clients[0];
    && cl.conn.nextId == 6 && cl.conn.up == [InsertGateway(6, EncodeGateway(second))]
    && cl.conn.down == [InsertReply(1, u)]
    && cl.conn.receipts != [] && cl.conn.receipts[0] == Receipt(1, InsertReceipt, WriteCallback)
    && cl.monitors == [] && !cl.watching && cl.cleanup == None
    && cl.table[1] == Some(Fresh(6, NO_UUID, true, second))
    && (forall k :: 0 <= k < MAX_TABLE_SIZE && cl.table[k].Some? ==> cl.table[k].value.uuid == NO_UUID)
    && s.log.calls == [] && u in s.log.origins && s.log.origins[u] == Origin(0, 1)
    && s.agent.conn.nextId == 2 && s.agent.conn.up == [] && s.agent.monitors == [1]
    && s.agent.conn.down == [MonitorReply(2), GatewayNew(1, u, row)]
    && s.agent.conn.receipts == [Receipt(2, MonitorReceipt, DummyCallback)]
    && s.db.used == {u} && s.db.watchers == map[]
  }

  /** Attribution holds up to this state, and the delivery that is possible next breaks
      it. */
  lemma MisdirectionIsReached(first: GatewayConfig, second: GatewayConfig, u: Uuid) returns (run: seq<System>)
    requires u != NO_UUID
    ensures IsRun(run)
    ensures var s := run[|run| - 1];
      && Collided(s, u, EncodeGateway(first), second)
      && Enabled(s, Deliver(0, true)) && Misdirects(s.clients[0])
      && Attributed(s.clients[0].table, 0, s.log)
      && !Attributed(Step(s, Deliver(0, true)).clients[0].table, 0, Step(s, Deliver(0, true)).log)
  {
    run := FirstRequest(first, u);
    run := UseUpIds(run, 1, u, EncodeGateway(first), first);
    Collide(run[|run| - 1], u, EncodeGateway(first), second);
    run := Then(run, Request(0, second, true, true, true));
    RunInv(run, |run| - 1);
    StepAttributesIff(run[|run| - 1], Deliver(0, true), 0);
  }

  // ----- And on to the wrong caller -----

  /** Row u's uuid sits in the transaction of request 6; the channels hold these. */
  ghost predicate Mixed(s: System, up: seq<Request>, down: seq<Message>, watchers: map<nat, nat>,
                        agentUp: seq<Request>, agentDown: seq<Message>, u: Uuid, second: GatewayConfig) {
    && |s.clients| == 1
    && var cl := s.clients[0];
    && cl.conn.nextId == 8 && cl.conn.up == up && cl.conn.down == down
    && cl.monitors == [7] && cl.cleanup == None
    && cl.table[1] == Some(Entry(6, u, UuidReceived, true, second, Unknown))
    && !Holds(cl.table, 0, u)
    && s.log.calls == [] && u in s.log.origins && s.log.origins[u] == Origin(0, 1)
    && s.agent.conn.nextId <= 3 && s.agent.conn.up == agentUp && s.agent.conn.down == agentDown
    && s.agent.monitors == [1]
    && s.db.used == {u} && s.db.watchers == watchers
  }

  lemma Misdirect(s: System, u: Uuid, row: Json, second: GatewayConfig)
    requires Collided(s, u, row, second) && u != NO_UUID
    ensures var s' := Step(s, Deliver(0, true));
      Mixed(s', [InsertGateway(6, EncodeGateway(second)), Monitor(8, 7, FeedbackTable)], [], map[],
            [], [MonitorReply(2), GatewayNew(1, u, row)], u, second)
      && s'.agent.conn.nextId == 2
  {
  }

  /** The second insert is refused, and the monitor request granted. */
  lemma Serve(s: System, u: Uuid, v: Uuid, row: Json, agentDown: seq<Message>, second: GatewayConfig)
    requires v != NO_UUID && v != u
    requires Mixed(s, [InsertGateway(6, row), Monitor(8, 7, FeedbackTable)], [], map[], [], agentDown, u, second)
    ensures var l1 := ServeClient(0, 0, v, Refuses, true); var l2 := ServeClient(0, 0, v, Commits, true);
      && Enabled(s, l1) && Enabled(Step(s, l1), l2)
      && Mixed(Step(Step(s, l1), l2), [], [ErrorReply(6), MonitorReply(8)], map[0 := 7], [], agentDown, u, second)
      && Step(Step(s, l1), l2).log == s.log && Step(Step(s, l1), l2).agent == s.agent
  {
    var s1 := Step(s, ServeClient(0, 0, v, Refuses, true));
    assert Mixed(s1, [Monitor(8, 7, FeedbackTable)], [ErrorReply(6)], map[], [], agentDown, u, second);
  }

  /** The agent acts on row u and answers it. */
  lemma Act(s: System, down: seq<Message>, u: Uuid, row: Json, result: Status, second: GatewayConfig)
    requires Mixed(s, [], down, map[0 := 7], [], [MonitorReply(2), GatewayNew(1, u, row)], u, second)
    requires s.agent.conn.nextId == 2
    ensures var l := AgentDeliver(result, true);
      && Enabled(s, l) && Enabled(Step(s, l), l)
      && var s' := Step(Step(s, l), l);
      && Mixed(s', [], down, map[0 := 7], [InsertFeedback(3, u, result)], [], u, second)
      && u in s'.log.acted && s'.log.acted[u] == Action(row, result)
  {
    var s1 := Step(s, AgentDeliver(result, true));
    assert s1.agent.conn.down == [GatewayNew(1, u, row)] && s1.agent.conn.nextId == 2;
  }

  lemma AnswerRow(s: System, down: seq<Message>, u: Uuid, f: Uuid, result: Status, second: GatewayConfig)
    requires Mixed(s, [], down, map[0 := 7], [InsertFeedback(3, u, result)], [], u, second)
    requires f != NO_UUID && f != u
    ensures var l := ServeAgent(0, f, Commits); var s' := Step(s, l);
      && Enabled(s, l) && s'.log.calls == [] && s'.log.acted == s.log.acted && s'.log.origins == s.log.origins
      && |s'.clients| == 1
      && s'.clients[0] == Notified(s.clients[0], 0, map[0 := 7], NewFeedback(f, FeedbackRow(u, result)))
      && s'.clients[0].conn.down == down + [FeedbackNew(7, f, u, result)]
  {
  }

  /** What a client takes other than insert replies and Feedback rows leaves its table
      and monitors alone. */
  lemma Skip(s: System)
    requires |s.clients| == 1 && s.clients[0].conn.down != [] && HasIds(s.clients[0].conn)
    requires s.clients[0].cleanup == None
    requires s.clients[0].conn.down[0].ErrorReply? || s.clients[0].conn.down[0].MonitorReply?
    ensures var l := Deliver(0, true); var cl := s.clients[0]; var s' := Step(s, l);
      && Enabled(s, l) && s'.log == s.log && |s'.clients| == 1
      && s'.clients[0].table == cl.table && s'.clients[0].monitors == cl.monitors && s'.clients[0].cleanup == None
      && s'.clients[0].conn.down == cl.conn.down[1..] && s'.clients[0].conn.nextId == cl.conn.nextId
  {
  }

  lemma CompleteWrongly(s: System, f: Uuid, u: Uuid, result: Status, second: GatewayConfig)
    requires |s.clients| == 1 && s.clients[0].conn.down == [FeedbackNew(7, f, u, result)]
    requires s.clients[0].monitors == [7]
    requires s.clients[0].table[1] == Some(Entry(6, u, UuidReceived, true, second, Unknown))
    requires !Holds(s.clients[0].table, 0, u)
    requires s.clients[0].cleanup == None && HasIds(s.clients[0].conn) && s.log.calls == []
    ensures var l := Deliver(0, true);
      && Enabled(s, l) && Step(s, l).log == s.log.(calls := [Call(0, 6, u, second, result, true)])
  {
    assert FindKey(s.clients[0].table, u) == Some(1);
  }

  /** The client takes the three messages that wait for it. */
  lemma TakeAll(run: seq<System>, f: Uuid, u: Uuid, result: Status, second: GatewayConfig) returns (run': seq<System>)
    requires IsRun(run)
    requires var s := run[|run| - 1];
      && |s.clients| == 1 && s.clients[0].monitors == [7]
      && s.clients[0].conn.down == [ErrorReply(6), MonitorReply(8), FeedbackNew(7, f, u, result)]
      && s.clients[0].table[1] == Some(Entry(6, u, UuidReceived, true, second, Unknown))
      && !Holds(s.clients[0].table, 0, u)
      && s.clients[0].cleanup == None && HasIds(s.clients[0].conn) && s.log.calls == []
    ensures IsRun(run')
    ensures run'[|run'| - 1].log == run[|run| - 1].log.(calls := [Call(0, 6, u, second, result, true)])
  {
    Skip(run[|run| - 1]);
    run' := Then(run, Deliver(0, true));
    Skip(run'[|run'| - 1]);
    run' := Then(run', Deliver(0, true));
    CompleteWrongly(run'[|run'| - 1], f, u, result, second);
    run' := Then(run', Deliver(0, true));
  }

  lemma MixedRun(first: GatewayConfig, second: GatewayConfig, u: Uuid, f: Uuid) returns (run: seq<System>)
    requires u != NO_UUID && f != NO_UUID && f != u
    ensures IsRun(run) && run[|run| - 1].agent.conn.nextId == 2
    ensures Mixed(run[|run| - 1], [], [ErrorReply(6), MonitorReply(8)], map[0 := 7], [],
                  [MonitorReply(2), GatewayNew(1, u, EncodeGateway(first))], u, second)
  {
    var row := EncodeGateway(first);
    run := MisdirectionIsReached(first, second, u);
    Misdirect(run[|run| - 1], u, row, second);
    run := Then(run, Deliver(0, true));
    Serve(run[|run| - 1], u, f, EncodeGateway(second), [MonitorReply(2), GatewayNew(1, u, row)], second);
    run := Then(run, ServeClient(0, 0, f, Refuses, true));
    run := Then(run, ServeClient(0, 0, f, Commits, true));
  }

  /** The run to the end: the callback of request 6 is called, with its configuration,
      for the row of request 1, on which the agent acted with request 1's
      configuration. */
  lemma SecondCallerIsToldTheFirstResult(first: GatewayConfig, second: GatewayConfig, u: Uuid, f: Uuid, result: Status)
    returns (run: seq<System>)
    requires u != NO_UUID && f != NO_UUID && f != u
    ensures IsRun(run)
    ensures var log := run[|run| - 1].log;
      && log.calls == [Call(0, 6, u, second, result, true)]
      && u in log.origins && log.origins[u] == Origin(0, 1)
      && u in log.acted && log.acted[u] == Action(EncodeGateway(first), result)
  {
    var row := EncodeGateway(first);
    run := MixedRun(first, second, u, f);
    Act(run[|run| - 1], [ErrorReply(6), MonitorReply(8)], u, row, result, second);
    run := Then(run, AgentDeliver(result, true));
    run := Then(run, AgentDeliver(result, true));
    AnswerRow(run[|run| - 1], [ErrorReply(6), MonitorReply(8)], u, f, result, second);
    run := Then(run, ServeAgent(0, f, Commits));
    run := TakeAll(run, f, u, result, second);
  }
}
