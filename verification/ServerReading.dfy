/** What a server does with the messages that are written (RFC 7047, sections 4.1.3,
    4.1.5, 5.2.1 and 5.2.5), on tables known by name, and that this is what the protocol
    says it does with the requests. */
module ServerReading {
  import opened OvsTypes
  import opened Codec
  import opened Connection
  import opened Peers
  import opened RequestIds
  import opened Messages
  import opened Notifications
  import opened Protocol
  import opened ProtocolInvariant

  /** The rows of each table by uuid, and for one connection the monitor of each table. */
  datatype Store = Store(tables: map<string, map<Uuid, Json>>, monitors: map<string, string>)

  function Rows(st: Store, table: string): map<Uuid, Json> {
    if table in st.tables then st.tables[table] else map[]
  }

  /** A condition compares a column with a value; the uuid is a column of every row. */
  predicate Selects(uuid: Uuid, row: Json, column: string, value: Json) {
    if column == "_uuid" then value == JArray([JString("uuid"), JString(uuid)]) else Get(row, column) == Some(value)
  }

  function Remaining(rows: map<Uuid, Json>, column: string, value: Json): map<Uuid, Json> {
    map u | u in rows && !Selects(u, rows[u], column, value) :: rows[u]
  }

  /** Executing a message; `uuid` is the one the server gives an inserted row. */
  function Execute(st: Store, w: Wire, uuid: Uuid): Store {
    match w
    case Insert(_, table, row) => st.(tables := st.tables[table := Rows(st, table)[uuid := row]])
    case Delete(_, table, column, value) => st.(tables := st.tables[table := Remaining(Rows(st, table), column, value)])
    case Watch(_, monitorId, table) => st.(monitors := st.monitors[table := monitorId])
  }

  // ----- The protocol's database as such tables -----

  function FeedbackRows(feedback: map<Uuid, FeedbackRow>): map<Uuid, Json> {
    map u | u in feedback :: FeedbackContent(feedback[u].reqUuid, feedback[u].status)
  }

  function TablesOf(db: Db): map<string, map<Uuid, Json>> {
    map["Gateway_Config" := db.gateway, "Feedback" := FeedbackRows(db.feedback)]
  }

  /** The database, with the monitor that client c has asked for. */
  function ClientStore(db: Db, c: nat): Store {
    Store(TablesOf(db), if c in db.watchers then map["Feedback" := Decimal(db.watchers[c])] else map[])
  }

  function AgentStore(db: Db): Store {
    Store(TablesOf(db),
          if db.agentMonitor.Some? then map["Gateway_Config" := Decimal(db.agentMonitor.value)] else map[])
  }

  lemma NamesDiffer()
    ensures "Gateway_Config" != "Feedback" && "_uuid" != "req_uuid"
  {
    assert |"Gateway_Config"| == 14 && |"Feedback"| == 8 && |"_uuid"| == 5 && |"req_uuid"| == 8;
  }

  /** A Feedback row names the row it answers, and gives the status as the number it has
      among the statuses. */
  lemma FeedbackColumns(reqUuid: Uuid, status: Status)
    ensures Get(FeedbackContent(reqUuid, status), "req_uuid") == Some(JString(reqUuid))
    ensures Get(FeedbackContent(reqUuid, status), "status") ==
      Some(JInt(match status
                case Success => 0
                case Unknown => 1
                case Failed => 2
                case TimedOut => 3
                case TimedWaitError => 4))
  {
    assert |"req_uuid"| == 8 && |"status"| == 6;
    LookupAt(FeedbackMembers(Feedback(reqUuid, StatusCode(status))), 1);
  }

  lemma GatewayRemains(rows: map<Uuid, Json>, uuid: Uuid)
    ensures Remaining(rows, "_uuid", JArray([JString("uuid"), JString(uuid)])) == rows - {uuid}
  {
    forall u: Uuid | JArray([JString("uuid"), JString(u)]) == JArray([JString("uuid"), JString(uuid)])
      ensures u == uuid
    {
      assert [JString("uuid"), JString(u)][1] == [JString("uuid"), JString(uuid)][1];
    }
  }

  lemma FeedbackRemains(feedback: map<Uuid, FeedbackRow>, reqUuid: Uuid)
    ensures var gone := set u | u in feedback && feedback[u].reqUuid == reqUuid;
      Remaining(FeedbackRows(feedback), "req_uuid", JString(reqUuid)) == FeedbackRows(feedback - gone)
  {
    NamesDiffer();
    forall u | u in feedback
      ensures Selects(u, FeedbackRows(feedback)[u], "req_uuid", JString(reqUuid)) <==> feedback[u].reqUuid == reqUuid
    {
      FeedbackColumns(feedback[u].reqUuid, feedback[u].status);
    }
  }

  lemma TablesOfParts(db: Db)
    ensures forall rows :: TablesOf(db)["Gateway_Config" := rows] == TablesOf(db.(gateway := rows))
  {
    NamesDiffer();
  }

  // ----- Serving a request -----

  lemma InsertExecuted(db: Db, c: nat, id: string, row: Json, uuid: Uuid)
    ensures ClientStore(db.(gateway := db.gateway[uuid := row], used := db.used + {uuid}), c)
            == Execute(ClientStore(db, c), Insert(id, "Gateway_Config", row), uuid)
  {
    NamesDiffer();
    TablesOfParts(db);
  }

  lemma ServedInsert(s: System, c: nat, at: nat, uuid: Uuid, replyFirst: bool)
    requires c < |s.clients| && at < |s.clients[c].conn.up| && s.clients[c].conn.up[at].InsertGateway?
    ensures Served(s, c, at, uuid, Commits, replyFirst).db ==
      s.db.(gateway := s.db.gateway[uuid := s.clients[c].conn.up[at].row], used := s.db.used + {uuid})
  {
  }

  lemma ClientInsertExecuted(s: System, c: nat, at: nat, uuid: Uuid, replyFirst: bool, w: Wire)
    requires c < |s.clients| && at < |s.clients[c].conn.up| && s.clients[c].conn.up[at].InsertGateway?
    requires Meant(s.clients[c].conn.up[at]) == Some(w)
    ensures ClientStore(Served(s, c, at, uuid, Commits, replyFirst).db, c) == Execute(ClientStore(s.db, c), w, uuid)
  {
    ServedInsert(s, c, at, uuid, replyFirst);
    InsertExecuted(s.db, c, w.id, s.clients[c].conn.up[at].row, uuid);
  }

  lemma ClientDeleteExecuted(s: System, c: nat, at: nat, uuid: Uuid, replyFirst: bool, w: Wire)
    requires c < |s.clients| && at < |s.clients[c].conn.up| && s.clients[c].conn.up[at].DeleteGateway?
    requires Meant(s.clients[c].conn.up[at]) == Some(w)
    ensures ClientStore(Served(s, c, at, uuid, Commits, replyFirst).db, c) == Execute(ClientStore(s.db, c), w, uuid)
  {
    NamesDiffer();
    var q := s.clients[c].conn.up[at];
    GatewayRemains(s.db.gateway, q.uuid);
    assert q.uuid !in s.db.gateway ==> s.db.gateway - {q.uuid} == s.db.gateway;
    TablesOfParts(s.db);
  }

  function Answering(feedback: map<Uuid, FeedbackRow>, reqUuid: Uuid): set<Uuid> {
    set u | u in feedback && feedback[u].reqUuid == reqUuid
  }

  lemma ServedForget(s: System, c: nat, at: nat, uuid: Uuid, replyFirst: bool)
    requires c < |s.clients| && at < |s.clients[c].conn.up| && s.clients[c].conn.up[at].DeleteFeedback?
    ensures Served(s, c, at, uuid, Commits, replyFirst).db ==
      s.db.(feedback := s.db.feedback - Answering(s.db.feedback, s.clients[c].conn.up[at].reqUuid))
  {
    var gone := Answering(s.db.feedback, s.clients[c].conn.up[at].reqUuid);
    assert gone == {} ==> s.db.feedback - gone == s.db.feedback;
  }

  lemma ForgetExecuted(db: Db, c: nat, id: string, reqUuid: Uuid, uuid: Uuid)
    ensures ClientStore(db.(feedback := db.feedback - Answering(db.feedback, reqUuid)), c)
            == Execute(ClientStore(db, c), Delete(id, "Feedback", "req_uuid", JString(reqUuid)), uuid)
  {
    NamesDiffer();
    FeedbackRemains(db.feedback, reqUuid);
  }

  lemma ClientForgetExecuted(s: System, c: nat, at: nat, uuid: Uuid, replyFirst: bool, w: Wire)
    requires c < |s.clients| && at < |s.clients[c].conn.up| && s.clients[c].conn.up[at].DeleteFeedback?
    requires Meant(s.clients[c].conn.up[at]) == Some(w)
    ensures ClientStore(Served(s, c, at, uuid, Commits, replyFirst).db, c) == Execute(ClientStore(s.db, c), w, uuid)
  {
    ServedForget(s, c, at, uuid, replyFirst);
    ForgetExecuted(s.db, c, w.id, s.clients[c].conn.up[at].reqUuid, uuid);
  }

  lemma ClientMonitorExecuted(s: System, c: nat, at: nat, uuid: Uuid, replyFirst: bool, w: Wire)
    requires c < |s.clients| && at < |s.clients[c].conn.up| && s.clients[c].conn.up[at].Monitor?
    requires s.clients[c].conn.up[at].table == FeedbackTable && Meant(s.clients[c].conn.up[at]) == Some(w)
    ensures ClientStore(Served(s, c, at, uuid, Commits, replyFirst).db, c) == Execute(ClientStore(s.db, c), w, uuid)
  {
    var id := Decimal(s.clients[c].conn.up[at].monitorId);
    OneMonitor(ClientStore(s.db, c).monitors, "Feedback", id);
  }

  lemma OneMonitor(monitors: map<string, string>, table: string, id: string)
    requires monitors.Keys <= {table}
    ensures monitors[table := id] == map[table := id]
  {
  }

  /** A request that is refused, or whose commit fails, changes no table and no monitor; a
      monitor request is always granted. */
  lemma UncommittedChangesNothing(s: System, c: nat, at: nat, uuid: Uuid, outcome: Outcome, replyFirst: bool)
    requires c < |s.clients| && at < |s.clients[c].conn.up| && !outcome.Commits?
    requires !s.clients[c].conn.up[at].Monitor?
    ensures ClientStore(Served(s, c, at, uuid, outcome, replyFirst).db, c) == ClientStore(s.db, c)
  {
  }

  /** In every reachable state, what a client has written for a pending request is a
      message that the server can read, under the request's id, and executing it does to
      the two tables and to the client's monitor exactly what serving the request does. */
  lemma ClientWritesWhatIsServed(run: seq<System>, i: nat, c: nat, at: nat, uuid: Uuid, replyFirst: bool,
                                 socket: Socket, n: nat)
    requires IsRun(run) && i < |run| && c < |run[i].clients| && at < |run[i].clients[c].conn.up|
    requires socket.Valid() && n < |socket.sent| && socket.sent[n] == run[i].clients[c].conn.up[at]
    ensures n < |socket.written| && ReadMessage(socket.written[n]).Some?
    ensures var w := ReadMessage(socket.written[n]).value; var s := run[i];
      && w.id == Decimal(s.clients[c].conn.up[at].rid)
      && ClientStore(Served(s, c, at, uuid, Commits, replyFirst).db, c) == Execute(ClientStore(s.db, c), w, uuid)
  {
    var s := run[i];
    RunInv(run, i);
    assert ClientOk(s.clients[c], c, s.log);
    assert UpOk(s.clients[c].conn.up, c, s.log);
    ReadsEach(socket.written, socket.sent, n);
    var q := s.clients[c].conn.up[at];
    var w := Meant(q).value;
    match q {
      case InsertGateway(_, _) => ClientInsertExecuted(s, c, at, uuid, replyFirst, w);
      case DeleteGateway(_, _) => ClientDeleteExecuted(s, c, at, uuid, replyFirst, w);
      case DeleteFeedback(_, _) => ClientForgetExecuted(s, c, at, uuid, replyFirst, w);
      case Monitor(_, _, _) => ClientMonitorExecuted(s, c, at, uuid, replyFirst, w);
      case InsertFeedback(_, _, _) => assert false;
    }
  }

  lemma AnswerExecuted(db: Db, id: string, reqUuid: Uuid, status: Status, uuid: Uuid)
    ensures AgentStore(db.(feedback := db.feedback[uuid := FeedbackRow(reqUuid, status)], used := db.used + {uuid}))
            == Execute(AgentStore(db), Insert(id, "Feedback", FeedbackContent(reqUuid, status)), uuid)
  {
    FeedbackRowAdded(db.feedback, uuid, reqUuid, status);
    FeedbackTableOf(db, db.feedback[uuid := FeedbackRow(reqUuid, status)]);
  }

  lemma FeedbackRowAdded(feedback: map<Uuid, FeedbackRow>, uuid: Uuid, reqUuid: Uuid, status: Status)
    ensures FeedbackRows(feedback[uuid := FeedbackRow(reqUuid, status)])
            == FeedbackRows(feedback)[uuid := FeedbackContent(reqUuid, status)]
  {
  }

  lemma FeedbackTableOf(db: Db, feedback: map<Uuid, FeedbackRow>)
    ensures TablesOf(db)["Feedback" := FeedbackRows(feedback)] == TablesOf(db.(feedback := feedback))
    ensures "Feedback" in TablesOf(db) && TablesOf(db)["Feedback"] == FeedbackRows(db.feedback)
  {
    NamesDiffer();
  }

  lemma AgentExecuted(s: System, at: nat, uuid: Uuid, w: Wire)
    requires at < |s.agent.conn.up| && Meant(s.agent.conn.up[at]) == Some(w)
    requires var q := s.agent.conn.up[at]; q.InsertFeedback? || (q.Monitor? && q.table == GatewayConfigTable)
    ensures AgentStore(ServedAgent(s, at, uuid, Commits).db) == Execute(AgentStore(s.db), w, uuid)
  {
    var q := s.agent.conn.up[at];
    if q.InsertFeedback? {
      AnswerExecuted(s.db, w.id, q.reqUuid, q.status, uuid);
    } else {
      OneMonitor(AgentStore(s.db).monitors, "Gateway_Config", Decimal(q.monitorId));
    }
  }

  /** The same for what the agent has written. */
  lemma AgentWritesWhatIsServed(run: seq<System>, i: nat, at: nat, uuid: Uuid, socket: Socket, n: nat)
    requires IsRun(run) && i < |run| && at < |run[i].agent.conn.up|
    requires socket.Valid() && n < |socket.sent| && socket.sent[n] == run[i].agent.conn.up[at]
    ensures n < |socket.written| && ReadMessage(socket.written[n]).Some?
    ensures var w := ReadMessage(socket.written[n]).value; var s := run[i];
      && w.id == Decimal(s.agent.conn.up[at].rid)
      && AgentStore(ServedAgent(s, at, uuid, Commits).db) == Execute(AgentStore(s.db), w, uuid)
  {
    RunInv(run, i);
    ReadsEach(socket.written, socket.sent, n);
    AgentExecuted(run[i], at, uuid, Meant(run[i].agent.conn.up[at]).value);
  }

  /** The readings, one by one. */
  lemma {:induction false} ReadsEach(msgs: seq<Json>, requests: seq<Request>, n: nat)
    requires Readings(msgs) == Meanings(requests) && n < |requests|
    ensures |msgs| == |requests| && ReadMessage(msgs[n]) == Meant(requests[n])
    decreases |requests|
  {
    ReadingsLength(msgs);
    MeaningsLength(requests);
    var k := |requests| - 1;
    assert Readings(msgs)[k] == ReadMessage(msgs[k]) && Meanings(requests)[k] == Meant(requests[k]);
    if n < k {
      assert Readings(msgs[..k]) == Readings(msgs)[..k] && Meanings(requests[..k]) == Meanings(requests)[..k];
      ReadsEach(msgs[..k], requests[..k], n);
    }
  }

  lemma {:induction false} ReadingsLength(msgs: seq<Json>)
    ensures |Readings(msgs)| == |msgs|
    decreases |msgs|
  {
    if msgs != [] { ReadingsLength(msgs[..|msgs| - 1]); }
  }

  lemma {:induction false} MeaningsLength(requests: seq<Request>)
    ensures |Meanings(requests)| == |requests|
    decreases |requests|
  {
    if requests != [] { MeaningsLength(requests[..|requests| - 1]); }
  }
}
