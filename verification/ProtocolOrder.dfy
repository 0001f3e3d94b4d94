/** In which order the agent acts on the requests of one client. */
module ProtocolOrder {
  import opened OvsTypes
  import opened Codec
  import opened Connection
  import opened TransactionTable
  import opened Peers
  import opened Protocol
  import opened ProtocolInvariant
  import opened ProtocolTheorems

  /** Rows u and v, if both were requested by client c, were requested in this order. */
  predicate Before(log: History, c: nat, u: Uuid, v: Uuid) {
    Mine(log, c, u) && Mine(log, c, v) ==> log.origins[u].rid < log.origins[v].rid
  }

  ghost predicate ActionsOrdered(log: History, c: nat) {
    forall a, b :: 0 <= a < b < |log.actions| ==> Before(log, c, log.actions[a], log.actions[b])
  }

  /** The rows the agent has still to take come in order, after those it acted on. */
  ghost predicate DownOrdered(down: seq<Message>, log: History, c: nat) {
    && (forall i, j :: 0 <= i < j < |down| && down[i].GatewayNew? && down[j].GatewayNew? ==>
          Before(log, c, down[i].uuid, down[j].uuid))
    && (forall a, i :: 0 <= a < |log.actions| && 0 <= i < |down| && down[i].GatewayNew? ==>
          Before(log, c, log.actions[a], down[i].uuid))
  }

  /** Requests not served yet have later ids than those that made a row. */
  ghost predicate UpLater(k: Conn, log: History, c: nat) {
    forall u :: Mine(log, c, u) ==>
      && log.origins[u].rid <= k.nextId
      && forall j :: 0 <= j < |k.up| ==> log.origins[u].rid < k.up[j].rid
  }

  ghost predicate OrderOk(s: System, c: nat) {
    && c < |s.clients|
    && ActionsOrdered(s.log, c) && DownOrdered(s.agent.conn.down, s.log, c) && UpLater(s.clients[c].conn, s.log, c)
  }

  // ----- Steps of the clients -----

  /** The requests of a connection were there before, or are new. */
  ghost predicate UpGrows(k: Conn, k': Conn) {
    && k.nextId <= k'.nextId
    && forall j :: 0 <= j < |k'.up| ==> k'.up[j] in k.up || k'.up[j].rid > k.nextId
  }

  lemma UpGrowsKeeps(k: Conn, k': Conn, log: History, c: nat)
    requires UpLater(k, log, c) && UpGrows(k, k')
    ensures UpLater(k', log, c)
  {
  }

  lemma MessageGrows(cl: Client, sent: bool)
    requires cl.conn.down != []
    ensures UpGrows(cl.conn, OnMessage(cl, sent).conn)
  {
  }

  lemma CleanupGrows(k: Conn, uuid: Uuid, sentGateway: bool, sentFeedback: bool)
    ensures UpGrows(k, CleanupSends(k, uuid, sentGateway, sentFeedback))
  {
  }

  predicate ByClient(l: Label) {
    l.Request? || l.GiveUp? || l.Deliver? || l.DeleteRows?
  }

  lemma ClientStepGrows(s: System, l: Label, c: nat)
    requires Enabled(s, l) && ByClient(l) && c < |s.clients|
    ensures var s' := Step(s, l);
      && UpGrows(s.clients[c].conn, s'.clients[c].conn)
      && s'.agent == s.agent && s'.log.actions == s.log.actions && s'.log.origins == s.log.origins
  {
    if l.Deliver? {
      MessageGrows(s.clients[l.c], l.sent);
    } else if l.DeleteRows? {
      CleanupGrows(s.clients[l.c].conn, s.clients[l.c].cleanup.value, l.sentGateway, l.sentFeedback);
    }
  }

  /** The order reads the actions and the origins only. */
  lemma SameOrder(log: History, log': History, down: seq<Message>, k: Conn, c: nat)
    requires log'.actions == log.actions && log'.origins == log.origins
    requires ActionsOrdered(log, c) && DownOrdered(down, log, c) && UpLater(k, log, c)
    ensures ActionsOrdered(log', c) && DownOrdered(down, log', c) && UpLater(k, log', c)
  {
    assert forall u, v :: Before(log', c, u, v) == Before(log, c, u, v);
  }

  lemma ClientStepKeepsOrder(s: System, l: Label, c: nat)
    requires Enabled(s, l) && ByClient(l) && OrderOk(s, c)
    ensures OrderOk(Step(s, l), c)
  {
    ClientStepGrows(s, l, c);
    UpGrowsKeeps(s.clients[c].conn, Step(s, l).clients[c].conn, s.log, c);
    SameOrder(s.log, Step(s, l).log, s.agent.conn.down, Step(s, l).clients[c].conn, c);
  }

  // ----- Steps of the agent -----

  lemma ActKeepsOrder(ag: Agent, log: History, c: nat, result: Status, sent: bool)
    requires ag.conn.down != [] && ActionsOrdered(log, c) && DownOrdered(ag.conn.down, log, c)
    ensures var log' := AgentDelivered(log, ag, result);
      ActionsOrdered(log', c) && DownOrdered(OnAgentMessage(ag, result, sent).conn.down, log', c)
  {
    var log' := AgentDelivered(log, ag, result);
    assert OnAgentMessage(ag, result, sent).conn.down == ag.conn.down[1..];
    assert forall u, v :: Before(log', c, u, v) == Before(log, c, u, v);
  }

  lemma AgentStepKeepsOrder(s: System, c: nat, result: Status, sent: bool)
    requires Enabled(s, AgentDeliver(result, sent)) && OrderOk(s, c)
    ensures OrderOk(Step(s, AgentDeliver(result, sent)), c)
  {
    ActKeepsOrder(s.agent, s.log, c, result, sent);
    assert forall u :: Mine(Step(s, AgentDeliver(result, sent)).log, c, u) == Mine(s.log, c, u);
  }

  // ----- Steps of the server -----

  /** Every row the agent has acted on, or is still to take, is on record. */
  ghost predicate RowsRecorded(down: seq<Message>, log: History) {
    && (forall a :: 0 <= a < |log.actions| ==> log.actions[a] in log.origins)
    && (forall i :: 0 <= i < |down| && down[i].GatewayNew? ==> down[i].uuid in log.origins)
  }

  /** A row of client c's oldest request, or of another client, joins what the agent
      has to take. */
  lemma CommitKeepsOrder(down: seq<Message>, k: Conn, log: History, log': History, c: nat, d: nat, rid: Rid, m: Message)
    requires ActionsOrdered(log, c) && DownOrdered(down, log, c) && UpLater(k, log, c)
    requires m.GatewayNew? && m.uuid !in log.origins
    requires log' == log.(origins := log.origins[m.uuid := Origin(d, rid)], aborted := log'.aborted)
    requires RowsRecorded(down, log)
    requires d == c ==> forall u :: Mine(log, c, u) ==> log.origins[u].rid < rid
    ensures ActionsOrdered(log', c) && DownOrdered(down, log', c) && DownOrdered(down + [m], log', c)
  {
    assert forall u, v :: u in log.origins && v in log.origins ==> (Before(log', c, u, v) == Before(log, c, u, v));
    assert forall u :: u in log.origins ==> Before(log', c, u, m.uuid);
  }

  lemma CommitKeepsLater(k: Conn, k': Conn, log: History, log': History, c: nat, d: nat, rid: Rid, u: Uuid)
    requires UpLater(k, log, c) && u !in log.origins
    requires log' == log.(origins := log.origins[u := Origin(d, rid)], aborted := log'.aborted)
    requires k'.nextId == k.nextId && forall j :: 0 <= j < |k'.up| ==> k'.up[j] in k.up
    requires d == c ==> rid <= k.nextId && forall j :: 0 <= j < |k'.up| ==> rid < k'.up[j].rid
    ensures UpLater(k', log', c)
  {
  }

  /** What serving leaves of the counters, the channels and the history. */
  lemma ServedParts(s: System, d: nat, at: nat, uuid: Uuid, outcome: Outcome, replyFirst: bool, c: nat)
    requires d < |s.clients| && at < |s.clients[d].conn.up| && c < |s.clients|
    ensures var s' := Served(s, d, at, uuid, outcome, replyFirst); var q := s.clients[d].conn.up[at];
      && |s'.clients| == |s.clients| && s'.clients[c].conn.nextId == s.clients[c].conn.nextId
      && s'.clients[c].conn.up == (if c == d then RemoveAt(s.clients[c].conn.up, at) else s.clients[c].conn.up)
      && s'.log.actions == s.log.actions
      && (if q.InsertGateway? && !outcome.Refuses?
          then && s'.log == s.log.(origins := s.log.origins[uuid := Origin(d, q.rid)], aborted := s'.log.aborted)
               && (s'.agent == s.agent || s'.agent == NotifyAgent(s.agent, s.db, NewGateway(uuid, q.row)))
          else && s'.log == s.log
               && (s'.agent.conn.down == s.agent.conn.down
                   || exists id :: s'.agent.conn.down == s.agent.conn.down + [RowsGone(id, GatewayConfigTable)]))
  {
  }

  lemma InvRecords(s: System)
    requires Inv(s)
    ensures RowsRecorded(s.agent.conn.down, s.log) && forall u :: u in s.log.origins ==> u in s.db.used
    ensures forall c :: 0 <= c < |s.clients| ==> Sound(s.clients[c].conn)
  {
    forall c | 0 <= c < |s.clients| ensures Sound(s.clients[c].conn) {
      assert ClientOk(s.clients[c], c, s.log);
    }
  }

  lemma NotifyKeepsOrder(s: System, log': History, uuid: Uuid, row: Json, c: nat, d: nat, rid: Rid)
    requires OrderOk(s, c) && RowsRecorded(s.agent.conn.down, s.log)
    requires uuid !in s.log.origins
    requires log' == s.log.(origins := s.log.origins[uuid := Origin(d, rid)], aborted := log'.aborted)
    requires d == c ==> forall u :: Mine(s.log, c, u) ==> s.log.origins[u].rid < rid
    ensures ActionsOrdered(log', c) && DownOrdered(s.agent.conn.down, log', c)
    ensures DownOrdered(NotifyAgent(s.agent, s.db, NewGateway(uuid, row)).conn.down, log', c)
  {
    var id := if s.db.agentMonitor.Some? then s.db.agentMonitor.value else 0;
    CommitKeepsOrder(s.agent.conn.down, s.clients[c].conn, s.log, log', c, d, rid, GatewayNew(id, uuid, row));
  }

  lemma ServeInsertKeepsOrder(s: System, d: nat, at: nat, uuid: Uuid, outcome: Outcome, replyFirst: bool, c: nat)
    requires d < |s.clients| && at < |s.clients[d].conn.up| && s.clients[d].conn.up[at].InsertGateway?
    requires OrderOk(s, c) && RowsRecorded(s.agent.conn.down, s.log) && Sound(s.clients[d].conn)
    requires uuid !in s.log.origins && !outcome.Refuses? && (d == c ==> at == 0)
    ensures OrderOk(Served(s, d, at, uuid, outcome, replyFirst), c)
  {
    var s' := Served(s, d, at, uuid, outcome, replyFirst);
    var q := s.clients[d].conn.up[at];
    ServedParts(s, d, at, uuid, outcome, replyFirst, c);
    NotifyKeepsOrder(s, s'.log, uuid, q.row, c, d, q.rid);
    OldestFirst(s.clients[d].conn, at);
    CommitKeepsLater(s.clients[c].conn, s'.clients[c].conn, s.log, s'.log, c, d, q.rid, uuid);
  }

  lemma OldestFirst(k: Conn, at: nat)
    requires Sound(k) && at < |k.up|
    ensures var rest := RemoveAt(k.up, at);
      && k.up[at].rid <= k.nextId
      && forall j :: 0 <= j < |rest| ==> rest[j] in k.up && (at == 0 ==> k.up[at].rid < rest[j].rid)
  {
    InFlightIsListed(k);
    RestOf(k.up, at);
  }

  lemma ServeOtherKeepsOrder(s: System, d: nat, at: nat, uuid: Uuid, outcome: Outcome, replyFirst: bool, c: nat)
    requires d < |s.clients| && at < |s.clients[d].conn.up| && OrderOk(s, c)
    requires s.clients[d].conn.up[at].InsertGateway? ==> outcome.Refuses?
    ensures OrderOk(Served(s, d, at, uuid, outcome, replyFirst), c)
  {
    var s' := Served(s, d, at, uuid, outcome, replyFirst);
    ServedParts(s, d, at, uuid, outcome, replyFirst, c);
    RestOf(s.clients[d].conn.up, at);
    UpGrowsKeeps(s.clients[c].conn, s'.clients[c].conn, s.log, c);
  }

  lemma ServeClientKeepsOrder(s: System, d: nat, at: nat, uuid: Uuid, outcome: Outcome, replyFirst: bool, c: nat)
    requires Inv(s) && Enabled(s, ServeClient(d, at, uuid, outcome, replyFirst)) && OrderOk(s, c)
    requires d == c ==> at == 0
    ensures OrderOk(Served(s, d, at, uuid, outcome, replyFirst), c)
  {
    InvRecords(s);
    if s.clients[d].conn.up[at].InsertGateway? && !outcome.Refuses? {
      ServeInsertKeepsOrder(s, d, at, uuid, outcome, replyFirst, c);
    } else {
      ServeOtherKeepsOrder(s, d, at, uuid, outcome, replyFirst, c);
    }
  }

  lemma ServedAgentParts(s: System, at: nat, uuid: Uuid, outcome: Outcome, c: nat)
    requires at < |s.agent.conn.up| && c < |s.clients|
    ensures var s' := ServedAgent(s, at, uuid, outcome);
      && |s'.clients| == |s.clients| && s'.clients[c].conn.nextId == s.clients[c].conn.nextId
      && s'.clients[c].conn.up == s.clients[c].conn.up
      && s'.log.actions == s.log.actions && s'.log.origins == s.log.origins
      && exists m :: s'.agent.conn.down == s.agent.conn.down + [m] && m.IsReply()
  {
  }

  lemma ReplyKeepsDown(down: seq<Message>, m: Message, log: History, c: nat)
    requires DownOrdered(down, log, c) && m.IsReply()
    ensures DownOrdered(down + [m], log, c)
  {
  }

  lemma ServeAgentKeepsOrder(s: System, at: nat, uuid: Uuid, outcome: Outcome, c: nat)
    requires at < |s.agent.conn.up| && OrderOk(s, c)
    ensures OrderOk(ServedAgent(s, at, uuid, outcome), c)
  {
    var s' := ServedAgent(s, at, uuid, outcome);
    ServedAgentParts(s, at, uuid, outcome, c);
    var m :| s'.agent.conn.down == s.agent.conn.down + [m] && m.IsReply();
    ReplyKeepsDown(s.agent.conn.down, m, s.log, c);
    UpGrowsKeeps(s.clients[c].conn, s'.clients[c].conn, s.log, c);
    SameOrder(s.log, s'.log, s'.agent.conn.down, s'.clients[c].conn, c);
  }

  // ----- Runs -----

  /** The server serves client c's requests in the order in which they were sent. */
  predicate ServesInOrder(l: Label, c: nat) {
    l.ServeClient? && l.c == c ==> l.at == 0
  }

  lemma StepKeepsOrder(s: System, l: Label, c: nat)
    requires Inv(s) && Enabled(s, l) && OrderOk(s, c) && ServesInOrder(l, c)
    ensures OrderOk(Step(s, l), c)
  {
    match l
    case AgentDeliver(result, sent) => AgentStepKeepsOrder(s, c, result, sent);
    case ServeClient(d, at, uuid, outcome, replyFirst) =>
      ServeClientKeepsOrder(s, d, at, uuid, outcome, replyFirst, c);
    case ServeAgent(at, uuid, outcome) => ServeAgentKeepsOrder(s, at, uuid, outcome, c);
    case _ => ClientStepKeepsOrder(s, l, c);
  }

  ghost predicate OrderlyStep(s: System, s': System, c: nat) {
    exists l :: Enabled(s, l) && s' == Step(s, l) && ServesInOrder(l, c)
  }

  lemma OrderlyStepKeeps(s: System, s': System, c: nat)
    requires Inv(s) && OrderOk(s, c) && OrderlyStep(s, s', c)
    ensures OrderOk(s', c)
  {
    var l :| Enabled(s, l) && s' == Step(s, l) && ServesInOrder(l, c);
    StepKeepsOrder(s, l, c);
  }

  lemma InitOrder(s: System, c: nat)
    requires Init(s) && c < |s.clients|
    ensures OrderOk(s, c)
  {
  }

  lemma {:induction false} RunOrder(run: seq<System>, i: nat, c: nat)
    requires IsRun(run) && i < |run| && c < |run[0].clients|
    requires forall j :: 0 <= j < i ==> OrderlyStep(run[j], run[j + 1], c)
    ensures OrderOk(run[i], c)
  {
    if i == 0 {
      InitOrder(run[0], c);
    } else {
      RunOrder(run, i - 1, c);
      RunInv(run, i - 1);
      assert OrderlyStep(run[i - 1], run[i - 1 + 1], c);
      OrderlyStepKeeps(run[i - 1], run[i], c);
    }
  }

  /** The agent acts on the rows of one client in the order of that client's requests,
      as long as the server takes these in the order in which they were sent; the
      other clients' requests may be served in any order and come in between. */
  lemma ActionsInRequestOrder(run: seq<System>, i: nat, c: nat, a: nat, b: nat)
    requires IsRun(run) && i < |run| && c < |run[0].clients|
    requires forall j :: 0 <= j < i ==> OrderlyStep(run[j], run[j + 1], c)
    requires a < b < |run[i].log.actions|
    requires Mine(run[i].log, c, run[i].log.actions[a]) && Mine(run[i].log, c, run[i].log.actions[b])
    ensures var log := run[i].log; log.origins[log.actions[a]].rid < log.origins[log.actions[b]].rid
  {
    RunOrder(run, i, c);
    assert Before(run[i].log, c, run[i].log.actions[a], run[i].log.actions[b]);
  }
}
