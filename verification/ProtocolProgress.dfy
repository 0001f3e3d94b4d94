/** What does not get lost: every update notification has a registered monitor, and every
    row stays on its way until the transaction that waits for it is completed. */
module ProtocolProgress {
  import opened OvsTypes
  import opened Codec
  import opened Connection
  import opened TransactionTable
  import opened Peers
  import opened Protocol
  import opened ProtocolInvariant
  import opened ProtocolTheorems

  // ----- Notifications are handled -----

  /** A client has at most one monitor, and watches exactly if it has it. The server knows
      it or is being asked for it; every other request and notification is for it. */
  ghost predicate WatchOk(cl: Client, c: nat, watchers: map<nat, nat>) {
    && (cl.watching <==> cl.monitors != []) && |cl.monitors| <= 1
    && (c in watchers ==> cl.monitors == [watchers[c]])
    && (forall j :: 0 <= j < |cl.conn.up| && cl.conn.up[j].Monitor? ==> cl.conn.up[j].monitorId in cl.monitors)
    && (forall j :: 0 <= j < |cl.conn.down| && !cl.conn.down[j].IsReply() ==> cl.conn.down[j].monitorId in cl.monitors)
    && (cl.monitors != [] ==> c in watchers || exists j :: 0 <= j < |cl.conn.up| && cl.conn.up[j].Monitor?)
  }

  /** Everything the agent monitors, asks for and is told of is under its one monitor. */
  ghost predicate AgentWatchOk(ag: Agent, agentMonitor: Option<nat>) {
    && (agentMonitor.Some? ==> agentMonitor.value in ag.monitors)
    && (forall j :: 0 <= j < |ag.conn.up| && ag.conn.up[j].Monitor? ==> ag.conn.up[j].monitorId in ag.monitors)
    && (forall j :: 0 <= j < |ag.conn.down| && !ag.conn.down[j].IsReply() ==> ag.conn.down[j].monitorId in ag.monitors)
  }

  ghost predicate AllWatchOk(s: System) {
    && AgentWatchOk(s.agent, s.db.agentMonitor)
    && forall c :: 0 <= c < |s.clients| ==> WatchOk(s.clients[c], c, s.db.watchers)
  }

  lemma SubmitWatches(cl: Client, c: nat, watchers: map<nat, nat>, config: GatewayConfig, tracked: bool,
                      callback: bool, sent: bool)
    requires WatchOk(cl, c, watchers)
    ensures WatchOk(Submit(cl, config, tracked, callback, sent), c, watchers)
  {
    var up, up' := cl.conn.up, Submit(cl, config, tracked, callback, sent).conn.up;
    assert forall j :: 0 <= j < |up| ==> up'[j] == up[j];
  }

  lemma CleanupWatches(cl: Client, c: nat, watchers: map<nat, nat>, sentGateway: bool, sentFeedback: bool)
    requires WatchOk(cl, c, watchers) && cl.cleanup.Some?
    ensures WatchOk(Cleanup(cl, sentGateway, sentFeedback), c, watchers)
  {
    var up, up' := cl.conn.up, Cleanup(cl, sentGateway, sentFeedback).conn.up;
    assert forall j :: 0 <= j < |up| ==> up'[j] == up[j];
    assert forall j :: |up| <= j < |up'| ==> !up'[j].Monitor?;
  }

  lemma TakeWatches(cl: Client, c: nat, watchers: map<nat, nat>)
    requires WatchOk(cl, c, watchers) && cl.conn.down != []
    ensures WatchOk(cl.(conn := Pop(cl.conn)), c, watchers)
  {
  }

  lemma StartWatches(cl: Client, c: nat, watchers: map<nat, nat>, sent: bool)
    requires WatchOk(cl, c, watchers) && !cl.watching
    ensures WatchOk(Watch(cl, sent), c, watchers)
  {
    var up, up' := cl.conn.up, Watch(cl, sent).conn.up;
    assert sent ==> up'[|up|].Monitor? && up'[|up|].monitorId == cl.conn.nextId + 1;
  }

  lemma SettleWatches(cl: Client, c: nat, watchers: map<nat, nat>, rid: Rid)
    requires WatchOk(cl, c, watchers)
    ensures WatchOk(cl.(conn := Settle(cl.conn, rid)), c, watchers)
  {
  }

  lemma ReplyWatches(cl: Client, c: nat, watchers: map<nat, nat>, sent: bool)
    requires WatchOk(cl, c, watchers) && cl.conn.down != [] && cl.conn.down[0].IsReply()
    ensures WatchOk(OnReply(cl, sent), c, watchers)
  {
    var m := cl.conn.down[0];
    var cl1 := cl.(conn := Pop(cl.conn));
    TakeWatches(cl, c, watchers);
    var f := Find(cl1.conn.receipts, m.rid);
    if f.Some? && m.Parses(cl1.conn.receipts[f.value].kind) {
      var r := cl1.conn.receipts[f.value];
      var cl2 := if r.callback.WriteCallback? && r.kind.InsertReceipt?
                 then OnInserted(cl1, m.rid, m.uuid, sent) else cl1;
      if cl2 != cl1 && !cl1.watching {
        StartWatches(cl1.(table := Updated(cl1.table, m.rid, m.uuid)), c, watchers, sent);
      }
      SettleWatches(cl2, c, watchers, m.rid);
    }
  }

  lemma UpdateWatches(cl: Client, c: nat, watchers: map<nat, nat>)
    requires WatchOk(cl, c, watchers) && cl.conn.down != [] && !cl.conn.down[0].IsReply()
    ensures WatchOk(OnUpdate(cl), c, watchers)
  {
    TakeWatches(cl, c, watchers);
  }

  lemma NotifyWatches(cl: Client, c: nat, watchers: map<nat, nat>, n: Notice)
    requires WatchOk(cl, c, watchers)
    ensures WatchOk(Notified(cl, c, watchers, n), c, watchers)
  {
  }

  lemma AnswerWatches(cl: Client, c: nat, at: nat, watchers: map<nat, nat>, m: Message)
    requires WatchOk(cl, c, watchers) && at < |cl.conn.up| && !cl.conn.up[at].Monitor? && m.IsReply()
    ensures WatchOk(cl.(conn := Answer(cl.conn, at, m)), c, watchers)
  {
    RestOf(cl.conn.up, at);
    if j :| 0 <= j < |cl.conn.up| && cl.conn.up[j].Monitor? {
      assert Answer(cl.conn, at, m).up[if j < at then j else j - 1].Monitor?;
    }
  }

  lemma GrantWatches(cl: Client, c: nat, at: nat, watchers: map<nat, nat>)
    requires WatchOk(cl, c, watchers) && at < |cl.conn.up| && cl.conn.up[at].Monitor?
    ensures var q := cl.conn.up[at];
      WatchOk(cl.(conn := Answer(cl.conn, at, MonitorReply(q.rid))), c, watchers[c := q.monitorId])
  {
    RestOf(cl.conn.up, at);
  }

  // ----- All steps -----

  ghost predicate ClientsWatch(clients: seq<Client>, watchers: map<nat, nat>) {
    forall c :: 0 <= c < |clients| ==> WatchOk(clients[c], c, watchers)
  }

  /** Only client c changes, and perhaps what the server knows of its monitor. */
  lemma OneWatches(clients: seq<Client>, watchers: map<nat, nat>, c: nat, cl: Client, watchers': map<nat, nat>)
    requires ClientsWatch(clients, watchers) && c < |clients| && WatchOk(cl, c, watchers')
    requires forall d :: d != c ==>
      (d in watchers' <==> d in watchers) && (d in watchers ==> watchers'[d] == watchers[d])
    ensures ClientsWatch(clients[c := cl], watchers')
  {
  }

  lemma NotifyAllWatch(clients: seq<Client>, watchers: map<nat, nat>, n: Notice)
    requires ClientsWatch(clients, watchers)
    ensures ClientsWatch(NotifyAll(clients, watchers, n), watchers)
  {
    forall c | 0 <= c < |clients| ensures WatchOk(Notified(clients[c], c, watchers, n), c, watchers) {
      NotifyWatches(clients[c], c, watchers, n);
    }
  }

  lemma RepliedWatch(clients: seq<Client>, watchers: map<nat, nat>, c: nat, at: nat, m: Message)
    requires ClientsWatch(clients, watchers) && c < |clients| && at < |clients[c].conn.up| && m.IsReply()
    requires !clients[c].conn.up[at].Monitor?
    ensures ClientsWatch(Replied(clients, c, at, m), watchers)
  {
    AnswerWatches(clients[c], c, at, watchers, m);
    OneWatches(clients, watchers, c, clients[c].(conn := Answer(clients[c].conn, at, m)), watchers);
  }

  lemma ServedMonitorWatches(s: System, c: nat, at: nat, uuid: Uuid, outcome: Outcome, replyFirst: bool)
    requires ClientsWatch(s.clients, s.db.watchers) && c < |s.clients| && at < |s.clients[c].conn.up|
    requires s.clients[c].conn.up[at].Monitor?
    ensures var s' := Served(s, c, at, uuid, outcome, replyFirst); ClientsWatch(s'.clients, s'.db.watchers)
  {
    var q := s.clients[c].conn.up[at];
    GrantWatches(s.clients[c], c, at, s.db.watchers);
    OneWatches(s.clients, s.db.watchers, c, s.clients[c].(conn := Answer(s.clients[c].conn, at, MonitorReply(q.rid))),
               s.db.watchers[c := q.monitorId]);
  }

  lemma ServedWatches(s: System, c: nat, at: nat, uuid: Uuid, outcome: Outcome, replyFirst: bool)
    requires ClientsWatch(s.clients, s.db.watchers) && c < |s.clients| && at < |s.clients[c].conn.up|
    requires !s.clients[c].conn.up[at].Monitor?
    ensures var s' := Served(s, c, at, uuid, outcome, replyFirst); ClientsWatch(s'.clients, s'.db.watchers)
  {
    var m := ServedClients(s, c, at, uuid, outcome, replyFirst);
    RepliedWatch(s.clients, s.db.watchers, c, at, m);
    NotifyAllWatch(s.clients, s.db.watchers, Gone(FeedbackTable));
    NotifyAllWatch(Replied(s.clients, c, at, m), s.db.watchers, Gone(FeedbackTable));
    RepliedWatch(NotifyAll(s.clients, s.db.watchers, Gone(FeedbackTable)), s.db.watchers, c, at, m);
  }

  /** The clients after the reply m, with a deletion announced behind it, before it or not. */
  ghost predicate ServedBy(s: System, c: nat, at: nat, m: Message, clients: seq<Client>)
    requires c < |s.clients| && at < |s.clients[c].conn.up|
  {
    || clients == Replied(s.clients, c, at, m)
    || clients == NotifyAll(Replied(s.clients, c, at, m), s.db.watchers, Gone(FeedbackTable))
    || clients == Replied(NotifyAll(s.clients, s.db.watchers, Gone(FeedbackTable)), c, at, m)
  }

  lemma ServedClients(s: System, c: nat, at: nat, uuid: Uuid, outcome: Outcome, replyFirst: bool) returns (m: Message)
    requires c < |s.clients| && at < |s.clients[c].conn.up| && !s.clients[c].conn.up[at].Monitor?
    ensures var s' := Served(s, c, at, uuid, outcome, replyFirst);
      && s'.db.watchers == s.db.watchers
      && m.IsReply() && ServedBy(s, c, at, m, s'.clients)
  {
    var q := s.clients[c].conn.up[at];
    var s' := Served(s, c, at, uuid, outcome, replyFirst);
    var gone := if q.DeleteFeedback? then set u | u in s.db.feedback && s.db.feedback[u].reqUuid == q.reqUuid else {};
    m := if outcome.Refuses? || q.InsertFeedback? then ErrorReply(q.rid)
             else if q.InsertGateway? then InsertReply(q.rid, uuid)
             else if q.DeleteFeedback? then DeleteReply(q.rid, |gone|)
             else DeleteReply(q.rid, if q.uuid in s.db.gateway then 1 else 0);
  }

  lemma AgentTakeWatches(ag: Agent, agentMonitor: Option<nat>, result: Status, sent: bool)
    requires AgentWatchOk(ag, agentMonitor) && ag.conn.down != []
    ensures AgentWatchOk(OnAgentMessage(ag, result, sent), agentMonitor)
  {
  }

  lemma NotifyAgentWatches(ag: Agent, db: Db, n: Notice)
    requires AgentWatchOk(ag, db.agentMonitor)
    ensures AgentWatchOk(NotifyAgent(ag, db, n), db.agentMonitor)
  {
  }

  /** What serving a client does to the agent. */
  lemma ServedAgentIs(s: System, c: nat, at: nat, uuid: Uuid, outcome: Outcome, replyFirst: bool)
    requires c < |s.clients| && at < |s.clients[c].conn.up|
    ensures var s' := Served(s, c, at, uuid, outcome, replyFirst); var q := s.clients[c].conn.up[at];
      && s'.db.agentMonitor == s.db.agentMonitor
      && (s'.agent == s.agent || s'.agent == NotifyAgent(s.agent, s.db, Gone(GatewayConfigTable))
          || (q.InsertGateway? && outcome.Commits? && s'.agent == NotifyAgent(s.agent, s.db, NewGateway(uuid, q.row))))
  {
  }

  lemma ServeClientWatches(s: System, c: nat, at: nat, uuid: Uuid, outcome: Outcome, replyFirst: bool)
    requires AllWatchOk(s) && c < |s.clients| && at < |s.clients[c].conn.up|
    ensures AllWatchOk(Served(s, c, at, uuid, outcome, replyFirst))
  {
    var q := s.clients[c].conn.up[at];
    if q.Monitor? {
      ServedMonitorWatches(s, c, at, uuid, outcome, replyFirst);
    } else {
      ServedWatches(s, c, at, uuid, outcome, replyFirst);
    }
    ServedAgentIs(s, c, at, uuid, outcome, replyFirst);
    NotifyAgentWatches(s.agent, s.db, Gone(GatewayConfigTable));
    if q.InsertGateway? { NotifyAgentWatches(s.agent, s.db, NewGateway(uuid, q.row)); }
  }

  lemma AgentAnswerWatches(ag: Agent, at: nat, agentMonitor: Option<nat>, m: Message)
    requires AgentWatchOk(ag, agentMonitor) && at < |ag.conn.up| && m.IsReply()
    ensures AgentWatchOk(ag.(conn := Answer(ag.conn, at, m)), agentMonitor)
    ensures ag.conn.up[at].Monitor? ==>
      AgentWatchOk(ag.(conn := Answer(ag.conn, at, m)), Some(ag.conn.up[at].monitorId))
  {
    RestOf(ag.conn.up, at);
  }

  lemma ServeAgentWatches(s: System, at: nat, uuid: Uuid, outcome: Outcome)
    requires AllWatchOk(s) && at < |s.agent.conn.up|
    ensures AllWatchOk(ServedAgent(s, at, uuid, outcome))
  {
    var q := s.agent.conn.up[at];
    AgentAnswerWatches(s.agent, at, s.db.agentMonitor, InsertReply(q.rid, uuid));
    AgentAnswerWatches(s.agent, at, s.db.agentMonitor, MonitorReply(q.rid));
    AgentAnswerWatches(s.agent, at, s.db.agentMonitor, ErrorReply(q.rid));
    if q.InsertFeedback? {
      NotifyAllWatch(s.clients, s.db.watchers, NewFeedback(uuid, FeedbackRow(q.reqUuid, q.status)));
    }
  }

  lemma ClientStepWatches(s: System, l: Label)
    requires Enabled(s, l) && AllWatchOk(s) && (l.Request? || l.GiveUp? || l.Deliver? || l.DeleteRows?)
    ensures AllWatchOk(Step(s, l))
  {
    var cl := s.clients[l.c];
    match l
    case Request(c, config, tracked, callback, sent) =>
      SubmitWatches(cl, c, s.db.watchers, config, tracked, callback, sent);
    case GiveUp(_, _) =>
    case Deliver(c, sent) =>
      if cl.conn.down[0].IsReply() {
        ReplyWatches(cl, c, s.db.watchers, sent);
      } else {
        UpdateWatches(cl, c, s.db.watchers);
      }
    case DeleteRows(c, sentGateway, sentFeedback) => CleanupWatches(cl, c, s.db.watchers, sentGateway, sentFeedback);
    case _ =>
  }

  lemma StepWatches(s: System, l: Label)
    requires Enabled(s, l) && AllWatchOk(s)
    ensures AllWatchOk(Step(s, l))
  {
    match l
    case AgentDeliver(result, sent) => AgentTakeWatches(s.agent, s.db.agentMonitor, result, sent);
    case ServeClient(c, at, uuid, outcome, replyFirst) => ServeClientWatches(s, c, at, uuid, outcome, replyFirst);
    case ServeAgent(at, uuid, outcome) => ServeAgentWatches(s, at, uuid, outcome);
    case _ => ClientStepWatches(s, l);
  }

  lemma InitWatches(s: System)
    requires Init(s)
    ensures AllWatchOk(s)
  {
    var start: Rid :| s.agent == StartedAgent(start);
    forall c | 0 <= c < |s.clients| ensures WatchOk(s.clients[c], c, s.db.watchers) {
      assert InitClient(s.clients[c]);
    }
  }

  lemma NextWatches(s: System, s': System)
    requires AllWatchOk(s) && Next(s, s')
    ensures AllWatchOk(s')
  {
    var l :| Enabled(s, l) && s' == Step(s, l);
    StepWatches(s, l);
  }

  lemma {:induction false} RunWatches(run: seq<System>, i: nat)
    requires IsRun(run) && i < |run|
    ensures AllWatchOk(run[i])
  {
    if i == 0 {
      InitWatches(run[0]);
    } else {
      RunWatches(run, i - 1);
      assert Next(run[i - 1], run[i - 1 + 1]);
      NextWatches(run[i - 1], run[i]);
    }
  }

  /** In every reachable state each update notification in a channel is for the monitor that
      its receiver has registered, so the agent acts on every new row it is told of; and a
      client that watches is known to the server as a watcher, or its request is pending,
      however writes fail. */
  lemma NotificationsAreHandled(run: seq<System>, i: nat)
    requires IsRun(run) && i < |run|
    ensures forall j :: 0 <= j < |run[i].agent.conn.down| && run[i].agent.conn.down[j].GatewayNew? ==>
      Acts(run[i].agent, run[i].agent.conn.down[j])
    ensures forall c :: 0 <= c < |run[i].clients| ==> var cl := run[i].clients[c];
      && (forall j :: 0 <= j < |cl.conn.down| && !cl.conn.down[j].IsReply() ==>
            cl.conn.down[j].monitorId in cl.monitors)
      && (cl.watching <==> c in run[i].db.watchers || exists j :: 0 <= j < |cl.conn.up| && cl.conn.up[j].Monitor?)
  {
    RunWatches(run, i);
  }

  // ----- No row is lost -----

  predicate AtAgent(s: System, u: Uuid) {
    exists j :: 0 <= j < |s.agent.conn.down| && s.agent.conn.down[j].GatewayNew? && s.agent.conn.down[j].uuid == u
  }

  predicate Answering(s: System, u: Uuid) {
    exists j :: 0 <= j < |s.agent.conn.up| && s.agent.conn.up[j].InsertFeedback? && s.agent.conn.up[j].reqUuid == u
  }

  predicate AtClient(down: seq<Message>, u: Uuid) {
    exists j :: 0 <= j < |down| && down[j].FeedbackNew? && down[j].reqUuid == u
  }

  /** Row u of client c waits for the agent, or its answer for the server, or the news of
      the answer for the client; or no transaction of the client waits for it any more. */
  ghost predicate OnItsWay(s: System, c: nat, u: Uuid)
    requires c < |s.clients|
  {
    AtAgent(s, u) || Answering(s, u) || AtClient(s.clients[c].conn.down, u) || Spent(s.log, s.clients[c].table, u)
  }

  /** The agent's Feedback rows are written and committed. */
  predicate AgentSucceeds(l: Label) {
    (l.AgentDeliver? ==> l.sent) && (l.ServeAgent? ==> l.outcome.Commits?)
  }

  lemma AppendedStays<T>(s: seq<T>, x: T, j: nat)
    requires j < |s|
    ensures (s + [x])[j] == s[j]
  {
  }

  lemma NotifiedKeepsDown(cl: Client, c: nat, watchers: map<nat, nat>, n: Notice, u: Uuid)
    requires AtClient(cl.conn.down, u)
    ensures AtClient(Notified(cl, c, watchers, n).conn.down, u)
  {
    var j :| 0 <= j < |cl.conn.down| && cl.conn.down[j].FeedbackNew? && cl.conn.down[j].reqUuid == u;
    if c in watchers { AppendedStays(cl.conn.down, n.For(watchers[c]), j); }
  }

  lemma AppendKeepsClient(down: seq<Message>, m: Message, u: Uuid)
    requires AtClient(down, u)
    ensures AtClient(down + [m], u)
  {
    var j :| 0 <= j < |down| && down[j].FeedbackNew? && down[j].reqUuid == u;
    AppendedStays(down, m, j);
  }

  /** The news reaches every watching client. */
  lemma NewsArrives(cl: Client, c: nat, watchers: map<nat, nat>, uuid: Uuid, u: Uuid, status: Status)
    requires c in watchers
    ensures AtClient(Notified(cl, c, watchers, NewFeedback(uuid, FeedbackRow(u, status))).conn.down, u)
  {
    var down := Notified(cl, c, watchers, NewFeedback(uuid, FeedbackRow(u, status))).conn.down;
    assert down[|cl.conn.down|].FeedbackNew? && down[|cl.conn.down|].reqUuid == u;
  }

  // ----- Step by step -----

  lemma SpentKeeps(s: System, l: Label, c: nat, u: Uuid)
    requires Inv(s) && Enabled(s, l) && c < |s.clients| && Mine(s.log, c, u) && Spent(s.log, s.clients[c].table, u)
    ensures Spent(Step(s, l).log, Step(s, l).clients[c].table, u)
  {
    assert ClientOk(s.clients[c], c, s.log);
    StepMovesSlots(s, l, c);
    ReceiptedGrows(s, l);
    SpentStays(s.log, Step(s, l).log, s.clients[c].table, Step(s, l).clients[c].table, Learned(s, l, c), u);
  }

  /** News taken off the channel leaves the row spent. */
  lemma NewsSpends(cl: Client, c: nat, log: History, watchers: map<nat, nat>, sent: bool)
    requires ClientOk(cl, c, log) && NO_UUID !in log.answered && WatchOk(cl, c, watchers)
    requires cl.conn.down != [] && cl.conn.down[0].FeedbackNew? && Mine(log, c, cl.conn.down[0].reqUuid)
    ensures Spent(log, OnMessage(cl, sent).table, cl.conn.down[0].reqUuid)
  {
    var u := cl.conn.down[0].reqUuid;
    assert DownOk(cl.conn.down, c, log);
    assert u in log.receipted;
    if Completes(cl, cl.conn.down[0]).Some? {
      CompletionSpends(cl, c, log, sent);
    } else {
      assert FindKey(cl.table, u).None?;
      assert OnMessage(cl, sent).table == cl.table;
    }
  }

  lemma TakenKeepsOthers(down: seq<Message>, u: Uuid)
    requires AtClient(down, u) && !(down[0].FeedbackNew? && down[0].reqUuid == u)
    ensures AtClient(down[1..], u)
  {
    var j :| 0 <= j < |down| && down[j].FeedbackNew? && down[j].reqUuid == u;
    assert down[1..][j - 1] == down[j];
  }

  lemma MessageTakesDown(cl: Client, sent: bool)
    requires cl.conn.down != []
    ensures OnMessage(cl, sent).conn.down == cl.conn.down[1..]
  {
  }

  lemma TakingKeepsNews(cl: Client, c: nat, log: History, watchers: map<nat, nat>, sent: bool, u: Uuid)
    requires ClientOk(cl, c, log) && NO_UUID !in log.answered && WatchOk(cl, c, watchers)
    requires cl.conn.down != [] && AtClient(cl.conn.down, u) && Mine(log, c, u)
    ensures AtClient(OnMessage(cl, sent).conn.down, u) || Spent(log, OnMessage(cl, sent).table, u)
  {
    MessageTakesDown(cl, sent);
    if cl.conn.down[0].FeedbackNew? && cl.conn.down[0].reqUuid == u {
      NewsSpends(cl, c, log, watchers, sent);
    } else {
      TakenKeepsOthers(cl.conn.down, u);
    }
  }

  lemma DeliverIs(s: System, d: nat, sent: bool, c: nat)
    requires Enabled(s, Deliver(d, sent)) && c < |s.clients|
    ensures Step(s, Deliver(d, sent)).clients[c] == if c == d then OnMessage(s.clients[c], sent) else s.clients[c]
  {
  }

  lemma DeliverKeepsWay(s: System, d: nat, sent: bool, c: nat, u: Uuid)
    requires Inv(s) && AllWatchOk(s) && Enabled(s, Deliver(d, sent)) && c < |s.clients| && Mine(s.log, c, u)
    requires AtClient(s.clients[c].conn.down, u)
    ensures OnItsWay(Step(s, Deliver(d, sent)), c, u)
  {
    DeliverIs(s, d, sent, c);
    if d == c {
      assert ClientOk(s.clients[c], c, s.log);
      TakingKeepsNews(s.clients[c], c, s.log, s.db.watchers, sent, u);
      ReceiptedGrows(s, Deliver(d, sent));
    }
  }

  lemma OwnStepsKeepDown(s: System, l: Label, c: nat)
    requires Enabled(s, l) && (l.Request? || l.GiveUp? || l.DeleteRows?) && c < |s.clients|
    ensures Step(s, l).clients[c].conn.down == s.clients[c].conn.down
  {
  }

  lemma AgentDeliverKeepsWay(s: System, result: Status, c: nat, u: Uuid)
    requires AllWatchOk(s) && Enabled(s, AgentDeliver(result, true)) && c < |s.clients|
    requires AtAgent(s, u) || Answering(s, u)
    ensures var s' := Step(s, AgentDeliver(result, true)); AtAgent(s', u) || Answering(s', u)
  {
    var ag, ag' := s.agent, OnAgentMessage(s.agent, result, true);
    assert ag'.conn.down == ag.conn.down[1..];
    if Answering(s, u) {
      var j :| 0 <= j < |ag.conn.up| && ag.conn.up[j].InsertFeedback? && ag.conn.up[j].reqUuid == u;
      assert ag'.conn.up[j] == ag.conn.up[j];
    } else {
      var j :| 0 <= j < |ag.conn.down| && ag.conn.down[j].GatewayNew? && ag.conn.down[j].uuid == u;
      if j > 0 {
        assert ag'.conn.down[j - 1] == ag.conn.down[j];
      } else {
        assert ag'.conn.up[|ag.conn.up|].InsertFeedback? && ag'.conn.up[|ag.conn.up|].reqUuid == u;
      }
    }
  }

  lemma ServeAgentDowns(s: System, at: nat, f: Uuid, c: nat)
    requires at < |s.agent.conn.up| && c < |s.clients|
    ensures var s' := ServedAgent(s, at, f, Commits); var q := s.agent.conn.up[at];
      && |s'.clients| == |s.clients| && s'.agent.conn.up == RemoveAt(s.agent.conn.up, at)
      && |s'.agent.conn.down| == |s.agent.conn.down| + 1
      && (forall j :: 0 <= j < |s.agent.conn.down| ==> s'.agent.conn.down[j] == s.agent.conn.down[j])
      && s'.clients[c] == (if q.InsertFeedback?
                           then Notified(s.clients[c], c, s.db.watchers,
                                         NewFeedback(f, FeedbackRow(q.reqUuid, q.status)))
                           else s.clients[c])
  {
  }

  lemma ServeAgentKeepsWay(s: System, at: nat, f: Uuid, c: nat, u: Uuid)
    requires at < |s.agent.conn.up| && c < |s.clients| && c in s.db.watchers
    requires AtAgent(s, u) || Answering(s, u) || AtClient(s.clients[c].conn.down, u)
    ensures var s' := ServedAgent(s, at, f, Commits);
      c < |s'.clients| && (AtAgent(s', u) || Answering(s', u) || AtClient(s'.clients[c].conn.down, u))
  {
    var s' := ServedAgent(s, at, f, Commits);
    var q := s.agent.conn.up[at];
    ServeAgentDowns(s, at, f, c);
    RestOf(s.agent.conn.up, at);
    if AtClient(s.clients[c].conn.down, u) {
      if q.InsertFeedback? {
        NotifiedKeepsDown(s.clients[c], c, s.db.watchers, NewFeedback(f, FeedbackRow(q.reqUuid, q.status)), u);
      }
    } else if Answering(s, u) {
      var j :| 0 <= j < |s.agent.conn.up| && s.agent.conn.up[j].InsertFeedback? && s.agent.conn.up[j].reqUuid == u;
      if j == at {
        NewsArrives(s.clients[c], c, s.db.watchers, f, u, q.status);
      } else {
        assert s'.agent.conn.up[if j < at then j else j - 1] == s.agent.conn.up[j];
      }
    } else {
      var j :| 0 <= j < |s.agent.conn.down| && s.agent.conn.down[j].GatewayNew? && s.agent.conn.down[j].uuid == u;
      assert s'.agent.conn.down[j] == s.agent.conn.down[j];
    }
  }

  lemma ServeClientKeepsNews(s: System, d: nat, at: nat, uuid: Uuid, outcome: Outcome, replyFirst: bool, c: nat,
                             u: Uuid)
    requires d < |s.clients| && at < |s.clients[d].conn.up| && c < |s.clients| && AtClient(s.clients[c].conn.down, u)
    ensures AtClient(Served(s, d, at, uuid, outcome, replyFirst).clients[c].conn.down, u)
  {
    var watchers := s.db.watchers;
    var s' := Served(s, d, at, uuid, outcome, replyFirst);
    if s.clients[d].conn.up[at].Monitor? {
      AppendKeepsClient(s.clients[c].conn.down, MonitorReply(s.clients[d].conn.up[at].rid), u);
    } else {
      var m := ServedClients(s, d, at, uuid, outcome, replyFirst);
      AppendKeepsClient(s.clients[c].conn.down, m, u);
      NotifiedKeepsDown(s.clients[c], c, watchers, Gone(FeedbackTable), u);
      NotifiedKeepsDown(Replied(s.clients, d, at, m)[c], c, watchers, Gone(FeedbackTable), u);
      AppendKeepsClient(Notified(s.clients[c], c, watchers, Gone(FeedbackTable)).conn.down, m, u);
    }
  }

  lemma ServeClientKeepsRow(s: System, d: nat, at: nat, uuid: Uuid, outcome: Outcome, replyFirst: bool, u: Uuid)
    requires d < |s.clients| && at < |s.clients[d].conn.up|
    ensures AtAgent(s, u) ==> AtAgent(Served(s, d, at, uuid, outcome, replyFirst), u)
    ensures Answering(s, u) ==> Answering(Served(s, d, at, uuid, outcome, replyFirst), u)
  {
    ServedAgentIs(s, d, at, uuid, outcome, replyFirst);
    if j :| 0 <= j < |s.agent.conn.down| && s.agent.conn.down[j].GatewayNew? && s.agent.conn.down[j].uuid == u {
      assert Served(s, d, at, uuid, outcome, replyFirst).agent.conn.down[j] == s.agent.conn.down[j];
    }
  }

  /** A row committed once the agent monitors the table sets out. */
  lemma CommitSetsOut(s: System, d: nat, at: nat, uuid: Uuid, replyFirst: bool)
    requires d < |s.clients| && at < |s.clients[d].conn.up| && s.clients[d].conn.up[at].InsertGateway?
    requires s.db.agentMonitor.Some?
    ensures AtAgent(Served(s, d, at, uuid, Commits, replyFirst), uuid)
  {
    var down := Served(s, d, at, uuid, Commits, replyFirst).agent.conn.down;
    assert down[|s.agent.conn.down|].GatewayNew? && down[|s.agent.conn.down|].uuid == uuid;
  }

  lemma StepKeepsWay(s: System, l: Label, c: nat, u: Uuid)
    requires Inv(s) && AllWatchOk(s) && Enabled(s, l) && AgentSucceeds(l)
    requires c < |s.clients| && c in s.db.watchers && Mine(s.log, c, u) && OnItsWay(s, c, u)
    ensures OnItsWay(Step(s, l), c, u)
  {
    if Spent(s.log, s.clients[c].table, u) {
      SpentKeeps(s, l, c, u);
    } else {
      match l
      case AgentDeliver(result, sent) =>
        if !AtClient(s.clients[c].conn.down, u) { AgentDeliverKeepsWay(s, result, c, u); }
      case ServeAgent(at, f, _) => ServeAgentKeepsWay(s, at, f, c, u);
      case ServeClient(d, at, uuid, outcome, replyFirst) =>
        ServeClientKeepsRow(s, d, at, uuid, outcome, replyFirst, u);
        if AtClient(s.clients[c].conn.down, u) { ServeClientKeepsNews(s, d, at, uuid, outcome, replyFirst, c, u); }
      case Deliver(d, sent) =>
        if AtClient(s.clients[c].conn.down, u) { DeliverKeepsWay(s, d, sent, c, u); }
      case _ => OwnStepsKeepDown(s, l, c);
    }
  }

  lemma StepKeepsWatchers(s: System, l: Label, c: nat)
    requires Enabled(s, l) && c in s.db.watchers && s.db.agentMonitor.Some?
    ensures c in Step(s, l).db.watchers && Step(s, l).db.agentMonitor.Some?
  {
  }

  /** Only serving an insert changes the origins of rows. */
  lemma StepOrigins(s: System, l: Label)
    requires Enabled(s, l)
    ensures var log, log' := s.log, Step(s, l).log;
      if l.ServeClient? && s.clients[l.c].conn.up[l.at].InsertGateway? && !l.outcome.Refuses?
      then && log'.origins.Keys == log.origins.Keys + {l.uuid}
           && (forall u :: u in log.origins && u != l.uuid ==> log'.origins[u] == log.origins[u])
           && log'.aborted == if l.outcome.Aborts? then log.aborted + {l.uuid} else log.aborted
      else log'.origins == log.origins && log'.aborted == log.aborted
  {
  }

  /** Which rows of client c are new after a step. */
  lemma StepMakesRow(s: System, l: Label, c: nat, u: Uuid)
    requires Enabled(s, l) && Mine(Step(s, l).log, c, u) && u !in Step(s, l).log.aborted
    requires forall v :: v in s.log.origins ==> v in s.db.used
    ensures || (Mine(s.log, c, u) && u !in s.log.aborted)
            || (l.ServeClient? && l.uuid == u && l.outcome.Commits? && s.clients[l.c].conn.up[l.at].InsertGateway?)
  {
    StepOrigins(s, l);
  }

  // ----- At rest -----

  ghost predicate AgentGood(s: System, s': System) {
    exists l :: Enabled(s, l) && s' == Step(s, l) && AgentSucceeds(l)
  }

  ghost predicate GoodAt(run: seq<System>, k: nat) {
    k + 1 < |run| && AgentGood(run[k], run[k + 1])
  }

  /** Client c watches and the agent monitors in state j, and up to state i all that the
      agent writes is written and committed. */
  ghost predicate WellServed(run: seq<System>, j: nat, i: nat, c: nat) {
    && IsRun(run) && j <= i < |run| && c < |run[0].clients| && c in run[j].db.watchers && run[j].db.agentMonitor.Some?
    && forall k :: j <= k < i ==> GoodAt(run, k)
  }

  /** All rows of client c but those known before are on their way. */
  ghost predicate RowsOnTheirWay(known: set<Uuid>, s: System, c: nat) {
    && c < |s.clients| && c in s.db.watchers && s.db.agentMonitor.Some?
    && forall u :: Mine(s.log, c, u) && u !in known && u !in s.log.aborted ==> OnItsWay(s, c, u)
  }

  lemma StepKeepsRows(known: set<Uuid>, s: System, l: Label, c: nat)
    requires Inv(s) && AllWatchOk(s) && Enabled(s, l) && AgentSucceeds(l) && RowsOnTheirWay(known, s, c)
    ensures RowsOnTheirWay(known, Step(s, l), c)
  {
    StepKeepsWatchers(s, l, c);
    var s' := Step(s, l);
    forall u | Mine(s'.log, c, u) && u !in known && u !in s'.log.aborted ensures OnItsWay(s', c, u) {
      StepMakesRow(s, l, c, u);
      if Mine(s.log, c, u) && u !in s.log.aborted {
        StepKeepsWay(s, l, c, u);
      } else {
        CommitSetsOut(s, l.c, l.at, u, l.replyFirst);
      }
    }
  }

  lemma GoodStepKeepsRows(known: set<Uuid>, s: System, s': System, c: nat)
    requires Inv(s) && AllWatchOk(s) && AgentGood(s, s') && RowsOnTheirWay(known, s, c)
    ensures RowsOnTheirWay(known, s', c)
  {
    var l :| Enabled(s, l) && s' == Step(s, l) && AgentSucceeds(l);
    StepKeepsRows(known, s, l, c);
  }

  lemma {:induction false} RunClients(run: seq<System>, i: nat)
    requires IsRun(run) && i < |run|
    ensures |run[i].clients| == |run[0].clients|
  {
    if i > 0 {
      RunClients(run, i - 1);
      assert Next(run[i - 1], run[i - 1 + 1]);
    }
  }

  lemma RowsBegin(s: System, c: nat)
    requires c < |s.clients| && c in s.db.watchers && s.db.agentMonitor.Some?
    ensures RowsOnTheirWay(s.log.origins.Keys, s, c)
  {
  }

  /** What is known of the k-th step. */
  ghost predicate StepFacts(run: seq<System>, k: nat) {
    k + 1 < |run| && Inv(run[k]) && AllWatchOk(run[k]) && AgentGood(run[k], run[k + 1])
  }

  lemma FactKeepsRows(known: set<Uuid>, run: seq<System>, k: nat, c: nat)
    requires StepFacts(run, k) && RowsOnTheirWay(known, run[k], c)
    ensures RowsOnTheirWay(known, run[k + 1], c)
  {
    GoodStepKeepsRows(known, run[k], run[k + 1], c);
  }

  lemma {:induction false} FactsKeepRows(known: set<Uuid>, run: seq<System>, j: nat, i: nat, c: nat)
    requires j <= i < |run| && RowsOnTheirWay(known, run[j], c)
    requires forall k :: j <= k < i ==> StepFacts(run, k)
    ensures RowsOnTheirWay(known, run[i], c)
    decreases i - j
  {
    if j < i {
      FactsKeepRows(known, run, j, i - 1, c);
      FactKeepsRows(known, run, i - 1, c);
    }
  }

  lemma RunFacts(run: seq<System>, k: nat)
    requires IsRun(run) && GoodAt(run, k)
    ensures StepFacts(run, k)
  {
    RunInv(run, k);
    RunWatches(run, k);
  }

  lemma RunKeepsRows(run: seq<System>, j: nat, i: nat, c: nat)
    requires WellServed(run, j, i, c)
    ensures RowsOnTheirWay(run[j].log.origins.Keys, run[i], c)
  {
    forall k | j <= k < i ensures StepFacts(run, k) {
      RunFacts(run, k);
    }
    RunClients(run, j);
    RowsBegin(run[j], c);
    FactsKeepRows(run[j].log.origins.Keys, run, j, i, c);
  }

  /** Nothing waits at rest. Once client c watches and the agent monitors, and while what the
      agent writes is written and committed: whenever the agent's channels and the channel
      to c are empty, no transaction of c carries the uuid of a row committed since, other
      than one whose commit failed. Every such transaction has been completed, or was given
      up by its caller; slot collisions and failed writes of any client do not matter. */
  lemma NothingWaitsAtRest(run: seq<System>, j: nat, i: nat, c: nat, k: nat)
    requires WellServed(run, j, i, c) && c < |run[i].clients| && k < MAX_TABLE_SIZE
    requires run[i].agent.conn.down == [] && run[i].agent.conn.up == [] && run[i].clients[c].conn.down == []
    requires run[i].clients[c].table[k].Some?
    ensures var u := run[i].clients[c].table[k].value.uuid;
      u == NO_UUID || u in run[j].log.origins || u in run[i].log.aborted
  {
    var s, u := run[i], run[i].clients[c].table[k].value.uuid;
    RunKeepsRows(run, j, i, c);
    RunInv(run, i);
    assert ClientOk(s.clients[c], c, s.log);
    if u != NO_UUID && u !in run[j].log.origins && u !in s.log.aborted {
      assert Mine(s.log, c, u) && OnItsWay(s, c, u);
      assert Holds(s.clients[c].table, k, u);
    }
  }
}
