/** A run in which a request goes all the way: to the row, the action, the answer, the
    callback and the deletion of both rows. */
module CompleteRun {
  import opened OvsTypes
  import opened Codec
  import opened Connection
  import opened TransactionTable
  import opened Peers
  import opened Protocol
  import opened ProtocolInvariant
  import opened Misattribution

  /** Where the run stands: the channels of the only client and of the agent. */
  ghost predicate Stands(s: System, id: Rid, up: seq<Request>, down: seq<Message>,
                         agentId: Rid, agentUp: seq<Request>, agentDown: seq<Message>) {
    && |s.clients| == 1 && s.clients[0].conn.nextId == id && s.clients[0].conn.up == up
    && s.clients[0].conn.down == down && s.agent.conn.nextId == agentId && s.agent.conn.up == agentUp
    && s.agent.conn.down == agentDown && s.agent.monitors == [1]
  }

  /** What the client's table holds in the slot of id 1, and the rest of its state. */
  ghost predicate Holding(s: System, entry: Option<Entry<Uuid, GatewayConfig>>, monitors: seq<nat>,
                          cleanup: Option<Uuid>)
    requires |s.clients| == 1
  {
    && s.clients[0].table == EmptySlots<Uuid, GatewayConfig>()[1 := entry] && s.clients[0].monitors == monitors
    && s.clients[0].watching == (monitors != []) && s.clients[0].cleanup == cleanup
  }

  lemma Committing(config: GatewayConfig, u: Uuid) returns (run: seq<System>)
    requires u != NO_UUID
    ensures IsRun(run)
    ensures var s := run[|run| - 1]; var row := EncodeGateway(config);
      && Stands(s, 1, [], [InsertReply(1, u)], 2, [], [MonitorReply(2), GatewayNew(1, u, row)])
      && Holding(s, Some(Fresh(1, NO_UUID, true, config)), [], None)
      && s.clients[0].conn.receipts == [Receipt(1, InsertReceipt, WriteCallback)]
      && s.agent.conn.receipts == [Receipt(2, MonitorReceipt, DummyCallback)]
      && s.db == Db(map[u := row], map[], {u}, map[], Some(1)) && s.log.calls == []
  {
    run := [Begin()];
    assert InitClient(Begin().clients[0]) && Begin().agent == StartedAgent(0);
    run := Then(run, Request(0, config, true, true, true));
    AfterRequest(Begin(), config);
    AfterMonitor(run[|run| - 1], config, u);
    run := Then(run, ServeAgent(0, u, Commits));
    AfterCommit(run[|run| - 1], config, u);
    run := Then(run, ServeClient(0, 0, u, Commits, true));
  }

  lemma AfterRequest(s: System, config: GatewayConfig)
    requires s == Begin()
    ensures var s' := Step(s, Request(0, config, true, true, true));
      && Stands(s', 1, [InsertGateway(1, EncodeGateway(config))], [], 2, [Monitor(2, 1, GatewayConfigTable)], [])
      && Holding(s', Some(Fresh(1, NO_UUID, true, config)), [], None)
      && s'.clients[0].conn.receipts == [Receipt(1, InsertReceipt, WriteCallback)]
      && s'.agent.conn.receipts == [Receipt(2, MonitorReceipt, DummyCallback)]
      && s'.db == Db(map[], map[], {}, map[], None) && s'.log.calls == []
  {
  }

  lemma AfterMonitor(s: System, config: GatewayConfig, u: Uuid)
    requires Stands(s, 1, [InsertGateway(1, EncodeGateway(config))], [], 2, [Monitor(2, 1, GatewayConfigTable)], [])
    requires s.db == Db(map[], map[], {}, map[], None) && u != NO_UUID
    ensures var l := ServeAgent(0, u, Commits); Enabled(s, l) && var s' := Step(s, l);
      && Stands(s', 1, [InsertGateway(1, EncodeGateway(config))], [], 2, [], [MonitorReply(2)])
      && s'.clients == s.clients && s'.agent.conn.receipts == s.agent.conn.receipts && s'.log == s.log
      && s'.db == Db(map[], map[], {}, map[], Some(1))
  {
  }

  lemma AfterCommit(s: System, config: GatewayConfig, u: Uuid)
    requires Stands(s, 1, [InsertGateway(1, EncodeGateway(config))], [], 2, [], [MonitorReply(2)])
    requires s.db == Db(map[], map[], {}, map[], Some(1)) && u != NO_UUID
    ensures var l := ServeClient(0, 0, u, Commits, true); Enabled(s, l) && var s' := Step(s, l);
      && Stands(s', 1, [], [InsertReply(1, u)], 2, [], [MonitorReply(2), GatewayNew(1, u, EncodeGateway(config))])
      && s'.clients[0] == s.clients[0].(conn := s'.clients[0].conn)
      && s'.clients[0].conn.receipts == s.clients[0].conn.receipts && s'.agent.conn.receipts == s.agent.conn.receipts
      && s'.db == Db(map[u := EncodeGateway(config)], map[], {u}, map[], Some(1)) && s'.log.calls == s.log.calls
  {
  }

  // ----- The uuid, the monitor, the action -----

  lemma AfterReply(s: System, config: GatewayConfig, u: Uuid, down: seq<Message>)
    requires Stands(s, 1, [], [InsertReply(1, u)], 2, [], down)
    requires Holding(s, Some(Fresh(1, NO_UUID, true, config)), [], None)
    requires s.clients[0].conn.receipts == [Receipt(1, InsertReceipt, WriteCallback)]
    ensures var l := Deliver(0, true); Enabled(s, l) && var s' := Step(s, l);
      && Stands(s', 3, [Monitor(3, 2, FeedbackTable)], [], 2, [], down)
      && Holding(s', Some(Entry(1, u, UuidReceived, true, config, Unknown)), [2], None)
      && s'.clients[0].conn.receipts == [Receipt(3, MonitorReceipt, DummyCallback)]
      && s'.agent == s.agent && s'.db == s.db && s'.log.calls == s.log.calls
  {
    var cl := s.clients[0];
    var cl' := OnInserted(cl.(conn := Pop(cl.conn)), 1, u, true);
    assert cl'.conn.receipts == [Receipt(1, InsertReceipt, WriteCallback), Receipt(3, MonitorReceipt, DummyCallback)];
    assert Settle(cl'.conn, 1).receipts == [Receipt(3, MonitorReceipt, DummyCallback)];
  }

  lemma AfterWatch(s: System, f: Uuid, entry: Option<Entry<Uuid, GatewayConfig>>, down: seq<Message>)
    requires Stands(s, 3, [Monitor(3, 2, FeedbackTable)], [], 2, [], down) && Holding(s, entry, [2], None)
    requires f != NO_UUID && f !in s.db.used
    requires s.clients[0].conn.receipts == [Receipt(3, MonitorReceipt, DummyCallback)]
    ensures var l1, l2 := ServeClient(0, 0, f, Commits, true), Deliver(0, true);
      Enabled(s, l1) && Enabled(Step(s, l1), l2) && var s' := Step(Step(s, l1), l2);
      && Stands(s', 3, [], [], 2, [], down) && Holding(s', entry, [2], None)
      && s'.agent == s.agent && s'.db == s.db.(watchers := s.db.watchers[0 := 2]) && s'.log == s.log
  {
    var s1 := Step(s, ServeClient(0, 0, f, Commits, true));
    assert s1.clients[0].conn.down == [MonitorReply(3)] && s1.clients[0].conn.up == [];
  }

  lemma AfterAction(s: System, u: Uuid, row: Json, result: Status)
    requires Stands(s, 3, [], [], 2, [], [MonitorReply(2), GatewayNew(1, u, row)])
    requires s.agent.conn.receipts == [Receipt(2, MonitorReceipt, DummyCallback)]
    ensures var l := AgentDeliver(result, true);
      Enabled(s, l) && Enabled(Step(s, l), l) && var s' := Step(Step(s, l), l);
      && Stands(s', 3, [], [], 3, [InsertFeedback(3, u, result)], [])
      && s'.clients == s.clients && s'.db == s.db && s'.log.calls == s.log.calls
      && u in s'.log.acted && s'.log.acted[u] == Action(row, result)
  {
    var s1 := Step(s, AgentDeliver(result, true));
    assert Stands(s1, 3, [], [], 2, [], [GatewayNew(1, u, row)]);
  }

  lemma AfterAnswer(s: System, u: Uuid, f: Uuid, result: Status, entry: Option<Entry<Uuid, GatewayConfig>>)
    requires Stands(s, 3, [], [], 3, [InsertFeedback(3, u, result)], []) && Holding(s, entry, [2], None)
    requires s.db.watchers == map[0 := 2] && s.db.feedback == map[] && f != NO_UUID && f !in s.db.used
    ensures var l := ServeAgent(0, f, Commits); Enabled(s, l) && var s' := Step(s, l);
      && Stands(s', 3, [], [FeedbackNew(2, f, u, result)], 3, [], [InsertReply(3, f)]) && Holding(s', entry, [2], None)
      && s'.db == s.db.(feedback := map[f := FeedbackRow(u, result)], used := s.db.used + {f})
      && s'.log.calls == s.log.calls && s'.log.acted == s.log.acted
  {
    assert Step(s, ServeAgent(0, f, Commits)).clients[0]
           == Notified(s.clients[0], 0, s.db.watchers, NewFeedback(f, FeedbackRow(u, result)));
  }

  // ----- The callback and the deletions -----

  lemma AfterCallback(s: System, config: GatewayConfig, u: Uuid, f: Uuid, result: Status, agentDown: seq<Message>)
    requires Stands(s, 3, [], [FeedbackNew(2, f, u, result)], 3, [], agentDown) && u != NO_UUID
    requires Holding(s, Some(Entry(1, u, UuidReceived, true, config, Unknown)), [2], None) && s.log.calls == []
    ensures var l := Deliver(0, true); Enabled(s, l) && var s' := Step(s, l);
      && Stands(s', 3, [], [], 3, [], agentDown) && Holding(s', None, [2], Some(u))
      && s'.db == s.db && s'.log == s.log.(calls := [Call(0, 1, u, config, result, true)])
  {
    assert FindKey(s.clients[0].table, u) == Some(1);
    assert Cleared(s.clients[0].table, 1) == EmptySlots<Uuid, GatewayConfig>()[1 := None];
  }

  lemma AfterCleanup(s: System, u: Uuid, agentDown: seq<Message>)
    requires Stands(s, 3, [], [], 3, [], agentDown) && Holding(s, None, [2], Some(u))
    ensures var l := DeleteRows(0, true, true); Enabled(s, l) && var s' := Step(s, l);
      && Stands(s', 5, [DeleteGateway(4, u), DeleteFeedback(5, u)], [], 3, [], agentDown)
      && Holding(s', None, [2], None)
      && s'.db == s.db && s'.log.calls == s.log.calls && s'.log.acted == s.log.acted
  {
  }

  lemma AfterFirstDelete(s: System, u: Uuid, v: Uuid, row: Json, agentDown: seq<Message>)
    requires Stands(s, 5, [DeleteGateway(4, u), DeleteFeedback(5, u)], [], 3, [], agentDown)
    requires Holding(s, None, [2], None)
    requires s.db.gateway == map[u := row] && v != NO_UUID && v !in s.db.used
    ensures var l := ServeClient(0, 0, v, Commits, true); Enabled(s, l) && var s' := Step(s, l);
      && |s'.clients| == 1 && s'.clients[0].conn.up == [DeleteFeedback(5, u)] && Holding(s', None, [2], None)
      && s'.db == s.db.(gateway := map[]) && s'.log == s.log
  {
    assert map[u := row] - {u} == map[];
  }

  lemma AfterSecondDelete(s: System, u: Uuid, f: Uuid, v: Uuid, result: Status)
    requires |s.clients| == 1 && s.clients[0].conn.up == [DeleteFeedback(5, u)] && Holding(s, None, [2], None)
    requires s.db.feedback == map[f := FeedbackRow(u, result)] && v != NO_UUID && v !in s.db.used
    ensures var l := ServeClient(0, 0, v, Commits, true); Enabled(s, l) && var s' := Step(s, l);
      && |s'.clients| == 1 && s'.clients[0].conn.up == [] && Holding(s', None, [2], None)
      && s'.db == s.db.(feedback := map[]) && s'.log == s.log
  {
    var gone := set w | w in s.db.feedback && s.db.feedback[w].reqUuid == u;
    assert f in gone && s.db.feedback - gone == map[];
  }

  // ----- The run -----

  lemma Answering(config: GatewayConfig, u: Uuid, f: Uuid, result: Status) returns (run: seq<System>)
    requires u != NO_UUID && f != NO_UUID && f != u
    ensures IsRun(run)
    ensures var s := run[|run| - 1]; var row := EncodeGateway(config);
      && Stands(s, 3, [], [FeedbackNew(2, f, u, result)], 3, [], [InsertReply(3, f)])
      && Holding(s, Some(Entry(1, u, UuidReceived, true, config, Unknown)), [2], None)
      && s.db == Db(map[u := row], map[f := FeedbackRow(u, result)], {u, f}, map[0 := 2], Some(1)) && s.log.calls == []
      && u in s.log.acted && s.log.acted[u] == Action(row, result)
  {
    var entry := Some(Entry(1, u, UuidReceived, true, config, Unknown));
    var down := [MonitorReply(2), GatewayNew(1, u, EncodeGateway(config))];
    run := Committing(config, u);
    AfterReply(run[|run| - 1], config, u, down);
    run := Then(run, Deliver(0, true));
    AfterWatch(run[|run| - 1], f, entry, down);
    run := Then(run, ServeClient(0, 0, f, Commits, true));
    run := Then(run, Deliver(0, true));
    AfterAction(run[|run| - 1], u, EncodeGateway(config), result);
    run := Then(run, AgentDeliver(result, true));
    run := Then(run, AgentDeliver(result, true));
    AfterAnswer(run[|run| - 1], u, f, result, entry);
    run := Then(run, ServeAgent(0, f, Commits));
  }

  /** Whatever is requested and whatever the action results in: the agent acts on the
      encoded request, the callback gets its result once, both rows are deleted and the
      table is empty again. */
  lemma RequestGoesAllTheWay(config: GatewayConfig, u: Uuid, f: Uuid, v: Uuid, result: Status)
    returns (run: seq<System>)
    requires u != NO_UUID && f != NO_UUID && v != NO_UUID && f != u && v != u && v != f
    ensures IsRun(run)
    ensures var s := run[|run| - 1];
      && s.log.calls == [Call(0, 1, u, config, result, true)]
      && u in s.log.acted && s.log.acted[u] == Action(EncodeGateway(config), result)
      && s.db.gateway == map[] && s.db.feedback == map[]
      && |s.clients| == 1 && s.clients[0].table == EmptySlots() && s.clients[0].conn.up == []
  {
    run := Answering(config, u, f, result);
    AfterCallback(run[|run| - 1], config, u, f, result, [InsertReply(3, f)]);
    run := Then(run, Deliver(0, true));
    AfterCleanup(run[|run| - 1], u, [InsertReply(3, f)]);
    run := Then(run, DeleteRows(0, true, true));
    AfterFirstDelete(run[|run| - 1], u, v, EncodeGateway(config), [InsertReply(3, f)]);
    run := Then(run, ServeClient(0, 0, v, Commits, true));
    AfterSecondDelete(run[|run| - 1], u, f, v, result);
    run := Then(run, ServeClient(0, 0, v, Commits, true));
  }
}
