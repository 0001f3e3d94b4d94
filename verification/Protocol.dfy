/** The whole system: any number of clients, one agent and one database server
    (RFC 7047), joined by FIFO connections. Every step is one API call, one
    message delivery, or one request served. */
module Protocol {
  import opened OvsTypes
  import opened Codec
  import opened Connection
  import opened TransactionTable
  import opened Peers

  datatype FeedbackRow = FeedbackRow(reqUuid: Uuid, status: Status)

  /** `watchers` and `agentMonitor` are the monitors the server knows of. */
  datatype Db = Db(
    gateway: map<Uuid, Json>,
    feedback: map<Uuid, FeedbackRow>,
    used: set<Uuid>,
    watchers: map<nat, nat>,
    agentMonitor: Option<nat>)

  datatype Origin = Origin(client: nat, rid: Rid)
  datatype Submission = Submission(config: GatewayConfig, row: Json)
  datatype Action = Action(row: Json, status: Status)
  {
    /** The configuration that `ovs_action_gateway_config` was run on. */
    function Config(): GatewayConfig {
      DecodeGateway(row)
    }
  }
  datatype Call = Call(client: nat, rid: Rid, uuid: Uuid, config: GatewayConfig, status: Status, callback: bool)

  /** What has happened so far; no step reads it.
      - requests: the configuration of every request, and the row it was encoded to;
      - origins: the request whose insert was given each Gateway_Config row's uuid;
      - aborted: those of these rows that were not committed;
      - receipted: the rows whose insert reply has reached its client;
      - actions, acted: the rows the agent acted on, in order, and what it did;
      - answers, answered: the rows for which a Feedback row was committed;
      - calls: the transactions completed, in order, with what the callback got;
      - deletes: the rows whose deletion a client asked for. */
  datatype History = History(
    requests: map<(nat, Rid), Submission>,
    origins: map<Uuid, Origin>,
    aborted: set<Uuid>,
    receipted: set<Uuid>,
    actions: seq<Uuid>,
    acted: map<Uuid, Action>,
    answers: seq<Uuid>,
    answered: map<Uuid, Status>,
    calls: seq<Call>,
    deletes: set<(nat, Uuid)>)

  datatype System = System(clients: seq<Client>, agent: Agent, db: Db, log: History)

  /** How the server ends a transaction. When the operation succeeds but the commit
      fails, the reply gives its result all the same, with the error behind it. */
  datatype Outcome = Commits | Refuses | Aborts

  datatype Label =
    | Request(c: nat, config: GatewayConfig, tracked: bool, callback: bool, sent: bool)
    | GiveUp(c: nat, rid: Rid)
    | Deliver(c: nat, sent: bool)
    | DeleteRows(c: nat, sentGateway: bool, sentFeedback: bool)
    | AgentDeliver(result: Status, sent: bool)
    | ServeClient(c: nat, at: nat, uuid: Uuid, outcome: Outcome, replyFirst: bool)
    | ServeAgent(at: nat, uuid: Uuid, outcome: Outcome)

  // Request ids stay below this bound, so that the decimal text of an id reads
  // back as the same signed integer and the counter does not wrap.
  const ID_LIMIT: nat := 0x8000_0000

  // ----- Initial states -----

  /** Each component starts its ids at its own number; the agent has sent its
      monitor request for the Gateway_Config table. */
  ghost predicate InitClient(cl: Client) {
    && cl.conn.receipts == [] && cl.conn.up == [] && cl.conn.down == [] && cl.conn.stranded == {}
    && cl.table == EmptySlots() && cl.monitors == [] && !cl.watching && cl.cleanup.None?
  }

  function StartedAgent(start: Rid): Agent {
    var request := Monitor(start + 2, start + 1, GatewayConfigTable);
    Agent(Register(Conn(start, [], [], [], {}), request, DummyCallback, true), [start + 1])
  }

  ghost predicate Init(s: System) {
    && (forall c :: 0 <= c < |s.clients| ==> InitClient(s.clients[c]))
    && (exists start :: s.agent == StartedAgent(start))
    && s.db == Db(map[], map[], {}, map[], None)
    && s.log == History(map[], map[], {}, {}, [], map[], [], map[], [], {})
  }

  // ----- Steps -----

  predicate HasIds(k: Conn) {
    k.nextId + 2 < ID_LIMIT
  }

  predicate Enabled(s: System, l: Label) {
    match l
    case Request(c, _, tracked, callback, _) =>
      c < |s.clients| && HasIds(s.clients[c].conn) && (callback ==> tracked)
    case GiveUp(c, rid) => c < |s.clients| && rid <= s.clients[c].conn.nextId
    case Deliver(c, _) =>
      c < |s.clients| && HasIds(s.clients[c].conn) && s.clients[c].conn.down != [] && s.clients[c].cleanup.None?
    case DeleteRows(c, _, _) =>
      c < |s.clients| && HasIds(s.clients[c].conn) && s.clients[c].cleanup.Some?
    case AgentDeliver(_, _) => HasIds(s.agent.conn) && s.agent.conn.down != []
    case ServeClient(c, at, uuid, _, _) =>
      c < |s.clients| && at < |s.clients[c].conn.up| && uuid != NO_UUID && uuid !in s.db.used
    case ServeAgent(at, uuid, _) => at < |s.agent.conn.up| && uuid != NO_UUID && uuid !in s.db.used
  }

  function Step(s: System, l: Label): (s': System)
    requires Enabled(s, l)
    ensures |s'.clients| == |s.clients|
  {
    match l
    case Request(c, config, tracked, callback, sent) =>
      var cl := s.clients[c];
      s.(clients := s.clients[c := Submit(cl, config, tracked, callback, sent)],
         log := s.log.(requests :=
           s.log.requests[(c, cl.conn.nextId + 1) := Submission(config, EncodeGateway(config))]))
    case GiveUp(c, rid) =>
      s.(clients := s.clients[c := Abandon(s.clients[c], rid)])
    case Deliver(c, sent) =>
      s.(clients := s.clients[c := OnMessage(s.clients[c], sent)],
         log := Delivered(s.log, c, s.clients[c]))
    case DeleteRows(c, sentGateway, sentFeedback) =>
      var cl := s.clients[c];
      s.(clients := s.clients[c := Cleanup(cl, sentGateway, sentFeedback)],
         log := s.log.(deletes := s.log.deletes + {(c, cl.cleanup.value)}))
    case AgentDeliver(result, sent) =>
      s.(agent := OnAgentMessage(s.agent, result, sent), log := AgentDelivered(s.log, s.agent, result))
    case ServeClient(c, at, uuid, outcome, replyFirst) => Served(s, c, at, uuid, outcome, replyFirst)
    case ServeAgent(at, uuid, outcome) => ServedAgent(s, at, uuid, outcome)
  }

  function Delivered(log: History, c: nat, cl: Client): History
    requires cl.conn.down != []
  {
    var m := cl.conn.down[0];
    if m.InsertReply? then log.(receipted := log.receipted + {m.uuid})
    else match Completes(cl, m)
      case None => log
      case Some(k) =>
        var e := cl.table[k].value;
        log.(calls := log.calls + [Call(c, e.id, m.reqUuid, e.config, m.status, e.callback)])
  }

  function AgentDelivered(log: History, ag: Agent, result: Status): History
    requires ag.conn.down != []
  {
    var m := ag.conn.down[0];
    if Acts(ag, m) then
      log.(actions := log.actions + [m.uuid],
           acted := log.acted[m.uuid := Action(m.row, result)])
    else log
  }

  /** The content of an update notification; `For(id)` addresses it to a monitor. */
  datatype Notice =
    | NewGateway(uuid: Uuid, gateway: Json)
    | NewFeedback(uuid: Uuid, feedback: FeedbackRow)
    | Gone(table: Table)
  {
    function For(id: nat): Message {
      match this
      case NewGateway(uuid, row) => GatewayNew(id, uuid, row)
      case NewFeedback(uuid, row) => FeedbackNew(id, uuid, row.reqUuid, row.status)
      case Gone(table) => RowsGone(id, table)
    }
  }

  function Notified(cl: Client, c: nat, watchers: map<nat, nat>, n: Notice): Client {
    if c in watchers then cl.(conn := Push(cl.conn, n.For(watchers[c]))) else cl
  }

  function NotifyAll(clients: seq<Client>, watchers: map<nat, nat>, n: Notice): (r: seq<Client>)
    ensures |r| == |clients|
    ensures forall c :: 0 <= c < |r| ==> r[c] == Notified(clients[c], c, watchers, n)
  {
    seq(|clients|, c requires 0 <= c < |clients| => Notified(clients[c], c, watchers, n))
  }

  function NotifyAgent(ag: Agent, db: Db, n: Notice): Agent {
    if db.agentMonitor.Some? then ag.(conn := Push(ag.conn, n.For(db.agentMonitor.value))) else ag
  }

  function Replied(clients: seq<Client>, c: nat, at: nat, m: Message): seq<Client>
    requires c < |clients| && at < |clients[c].conn.up|
  {
    clients[c := clients[c].(conn := Answer(clients[c].conn, at, m))]
  }

  /** The insert is answered with the uuid of a row that is never committed. */
  function Aborted(s: System, c: nat, at: nat, uuid: Uuid): System
    requires c < |s.clients| && at < |s.clients[c].conn.up|
  {
    var rid := s.clients[c].conn.up[at].rid;
    s.(clients := Replied(s.clients, c, at, InsertReply(rid, uuid)),
       db := s.db.(used := s.db.used + {uuid}),
       log := s.log.(origins := s.log.origins[uuid := Origin(c, rid)], aborted := s.log.aborted + {uuid}))
  }

  /** The server handles a pending request of client c, in any order. A client never
      inserts Feedback rows; such a request would be refused. */
  function Served(s: System, c: nat, at: nat, uuid: Uuid, outcome: Outcome, replyFirst: bool): System
    requires c < |s.clients| && at < |s.clients[c].conn.up|
  {
    var q := s.clients[c].conn.up[at];
    var refused := s.(clients := Replied(s.clients, c, at, ErrorReply(q.rid)));
    match q
    case InsertGateway(rid, row) =>
      if outcome.Refuses? then refused
      else if outcome.Aborts? then Aborted(s, c, at, uuid)
      else s.(clients := Replied(s.clients, c, at, InsertReply(rid, uuid)),
              agent := NotifyAgent(s.agent, s.db, NewGateway(uuid, row)),
              db := s.db.(gateway := s.db.gateway[uuid := row], used := s.db.used + {uuid}),
              log := s.log.(origins := s.log.origins[uuid := Origin(c, rid)]))
    case DeleteGateway(rid, target) =>
      if outcome.Refuses? then refused
      else if target !in s.db.gateway then s.(clients := Replied(s.clients, c, at, DeleteReply(rid, 0)))
      else if outcome.Aborts? then s.(clients := Replied(s.clients, c, at, DeleteReply(rid, 1)))
      else s.(clients := Replied(s.clients, c, at, DeleteReply(rid, 1)),
              agent := NotifyAgent(s.agent, s.db, Gone(GatewayConfigTable)),
              db := s.db.(gateway := s.db.gateway - {target}))
    case DeleteFeedback(rid, target) =>
      var gone := set u | u in s.db.feedback && s.db.feedback[u].reqUuid == target;
      if outcome.Refuses? then refused
      else if outcome.Aborts? then s.(clients := Replied(s.clients, c, at, DeleteReply(rid, |gone|)))
      else if gone == {} then s.(clients := Replied(s.clients, c, at, DeleteReply(rid, 0)))
      else
        var reply := DeleteReply(rid, |gone|);
        s.(clients := if replyFirst then NotifyAll(Replied(s.clients, c, at, reply), s.db.watchers, Gone(FeedbackTable))
                      else Replied(NotifyAll(s.clients, s.db.watchers, Gone(FeedbackTable)), c, at, reply),
           db := s.db.(feedback := s.db.feedback - gone))
    case Monitor(rid, id, _) =>
      s.(clients := Replied(s.clients, c, at, MonitorReply(rid)),
         db := s.db.(watchers := s.db.watchers[c := id]))
    case InsertFeedback(_, _, _) => refused
  }

  /** The server handles a pending request of the agent: an insert of a Feedback row
      or the monitor request. */
  function ServedAgent(s: System, at: nat, uuid: Uuid, outcome: Outcome): System
    requires at < |s.agent.conn.up|
  {
    var q := s.agent.conn.up[at];
    match q
    case InsertFeedback(rid, reqUuid, status) =>
      if outcome.Refuses? then s.(agent := s.agent.(conn := Answer(s.agent.conn, at, ErrorReply(rid))))
      else if outcome.Aborts? then
        s.(agent := s.agent.(conn := Answer(s.agent.conn, at, InsertReply(rid, uuid))),
           db := s.db.(used := s.db.used + {uuid}))
      else
        var row := FeedbackRow(reqUuid, status);
        s.(clients := NotifyAll(s.clients, s.db.watchers, NewFeedback(uuid, row)),
           agent := s.agent.(conn := Answer(s.agent.conn, at, InsertReply(rid, uuid))),
           db := s.db.(feedback := s.db.feedback[uuid := row], used := s.db.used + {uuid}),
           log := s.log.(answers := s.log.answers + [reqUuid],
                         answered := s.log.answered[reqUuid := status]))
    case Monitor(rid, id, _) =>
      s.(agent := s.agent.(conn := Answer(s.agent.conn, at, MonitorReply(rid))),
         db := s.db.(agentMonitor := Some(id)))
    case _ => s.(agent := s.agent.(conn := Answer(s.agent.conn, at, ErrorReply(q.rid))))
  }

  // ----- Runs -----

  ghost predicate Next(s: System, s': System) {
    exists l :: Enabled(s, l) && s' == Step(s, l)
  }

  /** A run starts in an initial state and goes on by steps, in any interleaving. */
  ghost predicate IsRun(run: seq<System>) {
    && run != [] && Init(run[0])
    && forall i :: 0 <= i < |run| - 1 ==> Next(run[i], run[i + 1])
  }
}
