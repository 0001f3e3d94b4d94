/** The invariant of the whole system, and the proof that every step keeps it. */
module ProtocolInvariant {
  import opened OvsTypes
  import opened Codec
  import opened Connection
  import opened TransactionTable
  import opened Peers
  import opened Protocol

  // ----- What holds of one client -----

  /** Row `uuid` was created by a request of client c. */
  predicate Mine(log: History, c: nat, uuid: Uuid) {
    uuid in log.origins && log.origins[uuid].client == c
  }

  /** Entries sit in their own slot, carry the configuration of their request, and
      hold only uuids the client learned from its own insert replies, each in at
      most one slot. */
  ghost predicate TableOk(t: Slots<Uuid, GatewayConfig>, next: Rid, c: nat, log: History) {
    && (forall k :: 0 <= k < MAX_TABLE_SIZE && t[k].Some? ==>
          var e := t[k].value;
          && Key(e.id) == k && e.id <= next
          && (c, e.id) in log.requests && log.requests[(c, e.id)].config == e.config
          && (e.uuid != NO_UUID ==> Mine(log, c, e.uuid) && e.uuid in log.receipted))
    && (forall j, k :: 0 <= j < k < MAX_TABLE_SIZE && t[j].Some? && t[k].Some? && t[j].value.uuid != NO_UUID ==>
          t[j].value.uuid != t[k].value.uuid)
  }

  ghost predicate UpOk(up: seq<Request>, c: nat, log: History) {
    forall i :: 0 <= i < |up| ==>
      var q := up[i];
      && !q.InsertFeedback? && (q.Monitor? ==> q.table == FeedbackTable)
      && (q.InsertGateway? ==> (c, q.rid) in log.requests && q.row == log.requests[(c, q.rid)].row)
      && (q.DeleteGateway? ==> (c, q.uuid) in log.deletes)
      && (q.DeleteFeedback? ==> (c, q.reqUuid) in log.deletes)
  }

  predicate ReplyBefore(down: seq<Message>, n: nat, log: History, uuid: Uuid)
    requires uuid in log.origins
  {
    exists j :: 0 <= j < n && j < |down| && down[j] == InsertReply(log.origins[uuid].rid, uuid)
  }

  /** Causal order: a Feedback update for the client's own row comes after the
      reply that tells the client the row's uuid. */
  ghost predicate DownOk(down: seq<Message>, c: nat, log: History) {
    && (forall i :: 0 <= i < |down| ==> !down[i].GatewayNew?)
    && (forall i :: 0 <= i < |down| && down[i].InsertReply? ==>
          && down[i].uuid in log.origins
          && log.origins[down[i].uuid] == Origin(c, down[i].rid)
          && down[i].uuid !in log.receipted)
    && (forall i, j :: 0 <= i < j < |down| && down[i].InsertReply? && down[j].InsertReply? ==>
          down[i].uuid != down[j].uuid)
    && (forall i :: 0 <= i < |down| && down[i].FeedbackNew? ==>
          && down[i].reqUuid in log.answered
          && log.answered[down[i].reqUuid] == down[i].status
          && (Mine(log, c, down[i].reqUuid) && down[i].reqUuid !in log.receipted ==>
                ReplyBefore(down, i, log, down[i].reqUuid)))
    && (forall u :: Mine(log, c, u) && u !in log.receipted ==> ReplyBefore(down, |down|, log, u))
  }

  /** The client learned `uuid` from its own insert reply, and its transaction is
      gone from the table. */
  ghost predicate Retired(t: Slots<Uuid, GatewayConfig>, c: nat, log: History, uuid: Uuid) {
    && Mine(log, c, uuid) && uuid in log.receipted && uuid in log.answered
    && forall k :: 0 <= k < MAX_TABLE_SIZE && t[k].Some? ==> t[k].value.uuid != uuid
  }

  ghost predicate RetiredOk(t: Slots<Uuid, GatewayConfig>, cleanup: Option<Uuid>, c: nat, log: History) {
    && (cleanup.Some? ==> Retired(t, c, log, cleanup.value))
    && (forall u :: (c, u) in log.deletes ==> Retired(t, c, log, u))
  }

  /** Every completed transaction is gone for good, was given the configuration of
      its own request, and a status the agent answered. */
  ghost predicate CallsOk(t: Slots<Uuid, GatewayConfig>, next: Rid, c: nat, log: History) {
    forall i :: 0 <= i < |log.calls| && log.calls[i].client == c ==>
      var call := log.calls[i];
      && call.rid <= next
      && (forall k :: 0 <= k < MAX_TABLE_SIZE && t[k].Some? ==> t[k].value.id != call.rid)
      && (c, call.rid) in log.requests && log.requests[(c, call.rid)].config == call.config
      && Mine(log, c, call.uuid)
      && call.uuid in log.answered && log.answered[call.uuid] == call.status
  }

  ghost predicate TablePartOk(t: Slots<Uuid, GatewayConfig>, next: Rid, cleanup: Option<Uuid>, c: nat, log: History) {
    TableOk(t, next, c, log) && CallsOk(t, next, c, log) && RetiredOk(t, cleanup, c, log)
  }

  ghost predicate ConnPartOk(k: Conn, c: nat, log: History) {
    && Sound(k)
    && UpOk(k.up, c, log)
    && DownOk(k.down, c, log)
    && (forall rid :: (c, rid) in log.requests ==> rid <= k.nextId)
  }

  ghost predicate ClientOk(cl: Client, c: nat, log: History) {
    ConnPartOk(cl.conn, c, log) && TablePartOk(cl.table, cl.conn.nextId, cl.cleanup, c, log)
  }

  // ----- What holds of the agent and the database -----

  /** The row the request behind `uuid` asked for. */
  function RowOf(log: History, uuid: Uuid): Json
    requires uuid in log.origins && (log.origins[uuid].client, log.origins[uuid].rid) in log.requests
  {
    log.requests[(log.origins[uuid].client, log.origins[uuid].rid)].row
  }

  ghost predicate OriginsOk(n: nat, used: set<Uuid>, rows: map<Uuid, Json>, log: History) {
    && NO_UUID !in log.origins
    && (forall u :: u in log.origins ==> u in used)
    && (forall u :: u in log.origins ==>
          && log.origins[u].client < n
          && (log.origins[u].client, log.origins[u].rid) in log.requests)
    && (forall u :: u in log.receipted ==> u in log.origins)
    && (forall u :: u in log.origins ==> u in rows || u in log.aborted || (log.origins[u].client, u) in log.deletes)
    && (forall u :: u in log.aborted ==> u in log.origins)
  }

  ghost predicate AgentDownOk(down: seq<Message>, log: History)
    requires forall u :: u in log.origins ==> (log.origins[u].client, log.origins[u].rid) in log.requests
  {
    && (forall i :: 0 <= i < |down| && down[i].GatewayNew? ==>
          && down[i].uuid in log.origins && down[i].uuid !in log.aborted && down[i].uuid !in log.acted
          && down[i].row == RowOf(log, down[i].uuid))
    && (forall i, j :: 0 <= i < j < |down| && down[i].GatewayNew? && down[j].GatewayNew? ==>
          down[i].uuid != down[j].uuid)
  }

  ghost predicate AgentUpOk(up: seq<Request>, log: History) {
    && (forall i :: 0 <= i < |up| ==> up[i].InsertFeedback? || (up[i].Monitor? && up[i].table == GatewayConfigTable))
    && (forall i :: 0 <= i < |up| && up[i].InsertFeedback? ==>
          && up[i].reqUuid in log.acted && up[i].reqUuid !in log.answered
          && log.acted[up[i].reqUuid].status == up[i].status)
    && (forall i, j :: 0 <= i < j < |up| && up[i].InsertFeedback? && up[j].InsertFeedback? ==>
          up[i].reqUuid != up[j].reqUuid)
  }

  /** The agent acts on a row at most once, on what its request asked for, and at
      most one Feedback row answers it, with the result of that action. */
  ghost predicate ActionsOk(log: History)
    requires forall u :: u in log.origins ==> (log.origins[u].client, log.origins[u].rid) in log.requests
  {
    && (forall i :: 0 <= i < |log.actions| ==> log.actions[i] in log.acted)
    && (forall i, j :: 0 <= i < j < |log.actions| ==> log.actions[i] != log.actions[j])
    && (forall u :: u in log.acted ==>
          u in log.origins && u !in log.aborted && log.acted[u].row == RowOf(log, u))
    && (forall i :: 0 <= i < |log.answers| ==> log.answers[i] in log.answered)
    && (forall i, j :: 0 <= i < j < |log.answers| ==> log.answers[i] != log.answers[j])
    && (forall u :: u in log.answered ==> u in log.acted && log.acted[u].status == log.answered[u])
  }

  ghost predicate CallsDistinct(calls: seq<Call>) {
    forall i, j :: 0 <= i < j < |calls| && calls[i].client == calls[j].client ==> calls[i].rid != calls[j].rid
  }

  ghost predicate CoreOk(ag: Agent, n: nat, used: set<Uuid>, rows: map<Uuid, Json>, log: History) {
    && Sound(ag.conn)
    && OriginsOk(n, used, rows, log)
    && AgentDownOk(ag.conn.down, log)
    && AgentUpOk(ag.conn.up, log)
    && ActionsOk(log)
    && CallsDistinct(log.calls)
  }

  ghost predicate ClientsOk(clients: seq<Client>, log: History) {
    forall c :: 0 <= c < |clients| ==> ClientOk(clients[c], c, log)
  }

  ghost predicate Inv(s: System) {
    CoreOk(s.agent, |s.clients|, s.db.used, s.db.gateway, s.log) && ClientsOk(s.clients, s.log)
  }

  lemma InitClientOk(cl: Client, c: nat, log: History)
    requires InitClient(cl) && log == History(map[], map[], {}, {}, [], map[], [], map[], [], {})
    ensures ClientOk(cl, c, log)
  {
  }

  lemma InitAgentOk(start: Rid)
    ensures Sound(StartedAgent(start).conn)
  {
    RegisterKeeps(Conn(start, [], [], [], {}), Monitor(start + 2, start + 1, GatewayConfigTable), DummyCallback, true);
  }

  lemma InitCoreOk(ag: Agent, n: nat, start: Rid, log: History)
    requires ag == StartedAgent(start) && log == History(map[], map[], {}, {}, [], map[], [], map[], [], {})
    ensures CoreOk(ag, n, {}, map[], log)
  {
    InitAgentOk(start);
  }

  lemma InitOk(s: System)
    requires Init(s)
    ensures Inv(s)
  {
    var start: Rid :| s.agent == StartedAgent(start);
    InitCoreOk(s.agent, |s.clients|, start, s.log);
    forall c | 0 <= c < |s.clients| ensures ClientOk(s.clients[c], c, s.log) {
      InitClientOk(s.clients[c], c, s.log);
    }
  }

  // ----- Frame: steps that do not concern client c -----

  /** The history grew, but not about client c. */
  ghost predicate GrowsElsewhere(log: History, log': History, c: nat) {
    && (forall rid :: (c, rid) in log.requests <==> (c, rid) in log'.requests)
    && (forall rid :: (c, rid) in log.requests ==> log'.requests[(c, rid)] == log.requests[(c, rid)])
    && (forall u :: u in log.origins ==> u in log'.origins && log'.origins[u] == log.origins[u])
    && (forall u :: u in log'.origins && u !in log.origins ==> log'.origins[u].client != c)
    && log.receipted <= log'.receipted
    && (forall u :: u in log'.receipted && u !in log.receipted ==> !Mine(log, c, u))
    && (forall u :: u in log.answered ==> u in log'.answered && log'.answered[u] == log.answered[u])
    && (forall u :: (c, u) in log.deletes <==> (c, u) in log'.deletes)
    && |log.calls| <= |log'.calls| && log'.calls[..|log.calls|] == log.calls
    && (forall i :: |log.calls| <= i < |log'.calls| ==> log'.calls[i].client != c)
  }

  lemma Frame(cl: Client, c: nat, log: History, log': History)
    requires ClientOk(cl, c, log) && GrowsElsewhere(log, log', c)
    ensures ClientOk(cl, c, log')
  {
    assert forall u :: Mine(log, c, u) <==> Mine(log', c, u);
    assert forall i :: 0 <= i < |log.calls| ==> log'.calls[i] == log.calls[i];
    FrameDown(cl.conn.down, c, log, log');
  }

  lemma FrameDown(down: seq<Message>, c: nat, log: History, log': History)
    requires DownOk(down, c, log) && GrowsElsewhere(log, log', c)
    ensures DownOk(down, c, log')
  {
    assert forall u :: Mine(log, c, u) <==> Mine(log', c, u);
    forall n, u | Mine(log, c, u) && ReplyBefore(down, n, log, u)
      ensures ReplyBefore(down, n, log', u)
    {
    }
  }

  // ----- The table -----

  lemma ClearTable(t: Slots<Uuid, GatewayConfig>, next: Rid, cleanup: Option<Uuid>, c: nat, log: History, key: nat)
    requires key < MAX_TABLE_SIZE
    requires TableOk(t, next, c, log) && RetiredOk(t, cleanup, c, log) && CallsOk(t, next, c, log)
    ensures TableOk(Cleared(t, key), next, c, log)
    ensures RetiredOk(Cleared(t, key), cleanup, c, log)
    ensures CallsOk(Cleared(t, key), next, c, log)
  {
  }

  lemma CounterGrows(t: Slots<Uuid, GatewayConfig>, next: Rid, next': Rid, c: nat, log: History)
    requires TableOk(t, next, c, log) && CallsOk(t, next, c, log) && next <= next'
    ensures TableOk(t, next', c, log) && CallsOk(t, next', c, log)
  {
  }

  // ----- Request and GiveUp -----

  /** A request of client c was recorded under a new id; nothing else changed. */
  ghost predicate Recorded(log: History, log': History, c: nat, rid: Rid) {
    && (c, rid) !in log.requests && (c, rid) in log'.requests
    && log' == log.(requests := log.requests[(c, rid) := log'.requests[(c, rid)]])
  }

  /** All parts of ClientOk survive the recording of a request. */
  lemma RecordedKeeps(cl: Client, c: nat, log: History, log': History, rid: Rid)
    requires ClientOk(cl, c, log) && Recorded(log, log', c, rid)
    ensures UpOk(cl.conn.up, c, log') && DownOk(cl.conn.down, c, log')
    ensures TablePartOk(cl.table, cl.conn.nextId, cl.cleanup, c, log')
  {
    assert forall u :: Mine(log, c, u) <==> Mine(log', c, u);
    SameRows(cl.conn.down, c, log, log');
  }

  /** DownOk reads only the rows' origins, receipts and answers. */
  lemma SameRows(down: seq<Message>, c: nat, log: History, log': History)
    requires DownOk(down, c, log)
    requires log'.origins == log.origins && log'.receipted == log.receipted && log'.answered == log.answered
    ensures DownOk(down, c, log')
  {
  }

  lemma InsertTablePart(t: Slots<Uuid, GatewayConfig>, next: Rid, cleanup: Option<Uuid>, c: nat, log: History,
                        e: Entry<Uuid, GatewayConfig>)
    requires TablePartOk(t, next, cleanup, c, log)
    requires e.id == next + 1 && e.uuid == NO_UUID && NO_UUID !in log.origins
    requires (c, e.id) in log.requests && log.requests[(c, e.id)].config == e.config
    ensures TablePartOk(Inserted(t, e), next + 1, cleanup, c, log)
  {
  }

  lemma ClearTablePart(t: Slots<Uuid, GatewayConfig>, next: Rid, cleanup: Option<Uuid>, c: nat, log: History, key: nat)
    requires key < MAX_TABLE_SIZE && TablePartOk(t, next, cleanup, c, log)
    ensures TablePartOk(Cleared(t, key), next, cleanup, c, log)
  {
  }

  lemma SubmitTable(t: Slots<Uuid, GatewayConfig>, next: Rid, cleanup: Option<Uuid>, c: nat, log: History,
                    config: GatewayConfig, tracked: bool, callback: bool, sent: bool)
    requires TablePartOk(t, next, cleanup, c, log) && NO_UUID !in log.origins
    requires (c, next + 1) in log.requests && log.requests[(c, next + 1)].config == config
    ensures TablePartOk(SubmitSlots(t, next + 1, config, tracked, callback, sent), next + 1, cleanup, c, log)
  {
    var e := Fresh(next + 1, NO_UUID, callback, config);
    var t1 := if tracked then Inserted(t, e) else t;
    assert TablePartOk(t1, next + 1, cleanup, c, log) by {
      if tracked {
        InsertTablePart(t, next, cleanup, c, log, e);
      } else {
        CounterGrows(t, next, next + 1, c, log);
      }
    }
    ClearTablePart(t1, next + 1, cleanup, c, log, Key(next + 1));
  }

  lemma SubmitUp(up: seq<Request>, c: nat, log: History, q: Request)
    requires UpOk(up, c, log) && q.InsertGateway?
    requires (c, q.rid) in log.requests && q.row == log.requests[(c, q.rid)].row
    ensures UpOk(up + [q], c, log)
  {
  }

  /** The new request joins the channel and its receipt the list. */
  lemma SubmitConn(k: Conn, c: nat, log: History, q: Request, cb: ReceiptCallback, sent: bool)
    requires Sound(k) && UpOk(k.up, c, log) && DownOk(k.down, c, log) && q.rid == k.nextId + 1
    requires forall rid :: (c, rid) in log.requests ==> rid <= q.rid
    requires q.InsertGateway? && (c, q.rid) in log.requests && q.row == log.requests[(c, q.rid)].row
    ensures ConnPartOk(Register(k, q, cb, sent), c, log)
  {
    RegisterKeeps(k, q, cb, sent);
    SubmitUp(k.up, c, log, q);
  }

  lemma SubmitRowParts(cl: Client, config: GatewayConfig, row: Json, tracked: bool, callback: bool, sent: bool)
    ensures var rid := cl.conn.nextId + 1; var cl' := SubmitRow(cl, config, row, tracked, callback, sent);
      && cl'.conn == Register(cl.conn, InsertGateway(rid, row), if tracked then WriteCallback else DummyCallback, sent)
      && cl'.conn.nextId == rid && cl'.cleanup == cl.cleanup
      && cl'.table == SubmitSlots(cl.table, rid, config, tracked, callback, sent)
  {
  }

  lemma SubmitKeepsParts(cl: Client, c: nat, log: History, config: GatewayConfig, row: Json,
                         tracked: bool, callback: bool, sent: bool)
    requires Sound(cl.conn) && UpOk(cl.conn.up, c, log) && DownOk(cl.conn.down, c, log)
    requires forall rid :: (c, rid) in log.requests ==> rid <= cl.conn.nextId + 1
    requires TablePartOk(cl.table, cl.conn.nextId, cl.cleanup, c, log) && NO_UUID !in log.origins
    requires (c, cl.conn.nextId + 1) in log.requests && log.requests[(c, cl.conn.nextId + 1)] == Submission(config, row)
    ensures ClientOk(SubmitRow(cl, config, row, tracked, callback, sent), c, log)
  {
    var q := InsertGateway(cl.conn.nextId + 1, row);
    var cb := if tracked then WriteCallback else DummyCallback;
    SubmitTable(cl.table, cl.conn.nextId, cl.cleanup, c, log, config, tracked, callback, sent);
    SubmitConn(cl.conn, c, log, q, cb, sent);
    SubmitRowParts(cl, config, row, tracked, callback, sent);
  }

  /** Only client c changed, and the history grew only about it. */
  lemma OneClient(clients: seq<Client>, c: nat, cl: Client, log: History, log': History)
    requires ClientsOk(clients, log) && c < |clients|
    requires ClientOk(cl, c, log')
    requires forall d :: 0 <= d < |clients| && d != c ==> GrowsElsewhere(log, log', d)
    ensures ClientsOk(clients[c := cl], log')
  {
    var clients' := clients[c := cl];
    forall d | 0 <= d < |clients'| ensures ClientOk(clients'[d], d, log') {
      if d != c { Frame(clients[d], d, log, log'); }
    }
  }

  lemma RecordedElsewhere(log: History, log': History, c: nat, rid: Rid, d: nat)
    requires Recorded(log, log', c, rid) && d != c
    ensures GrowsElsewhere(log, log', d)
  {
  }

  lemma SubmitKeepsClients(clients: seq<Client>, c: nat, log: History, log': History, config: GatewayConfig, row: Json,
                           tracked: bool, callback: bool, sent: bool)
    requires ClientsOk(clients, log) && c < |clients| && NO_UUID !in log.origins
    requires Recorded(log, log', c, clients[c].conn.nextId + 1)
    requires log'.requests[(c, clients[c].conn.nextId + 1)] == Submission(config, row)
    ensures ClientsOk(clients[c := SubmitRow(clients[c], config, row, tracked, callback, sent)], log')
  {
    var rid := clients[c].conn.nextId + 1;
    assert ClientOk(clients[c], c, log);
    RecordedKeeps(clients[c], c, log, log', rid);
    SubmitKeepsParts(clients[c], c, log', config, row, tracked, callback, sent);
    forall d | 0 <= d < |clients| && d != c ensures GrowsElsewhere(log, log', d) {
      RecordedElsewhere(log, log', c, rid, d);
    }
    OneClient(clients, c, SubmitRow(clients[c], config, row, tracked, callback, sent), log, log');
  }

  lemma NewIdIsUnrecorded(clients: seq<Client>, c: nat, log: History)
    requires ClientsOk(clients, log) && c < |clients|
    ensures (c, clients[c].conn.nextId + 1) !in log.requests
  {
  }

  lemma RequestKeepsCore(ag: Agent, n: nat, used: set<Uuid>, rows: map<Uuid, Json>, log: History, log': History,
                         c: nat, rid: Rid)
    requires CoreOk(ag, n, used, rows, log) && Recorded(log, log', c, rid)
    ensures CoreOk(ag, n, used, rows, log')
  {
    assert forall u :: u in log.origins ==> RowOf(log', u) == RowOf(log, u);
  }

  lemma SameLogElsewhere(log: History, d: nat)
    ensures GrowsElsewhere(log, log, d)
  {
  }

  lemma GiveUpKeepsClients(s: System, c: nat, rid: Rid)
    requires ClientsOk(s.clients, s.log) && Enabled(s, GiveUp(c, rid))
    ensures ClientsOk(Step(s, GiveUp(c, rid)).clients, s.log)
  {
    var cl := s.clients[c];
    assert ClientOk(cl, c, s.log);
    ClearTable(cl.table, cl.conn.nextId, cl.cleanup, c, s.log, Key(rid));
    forall d ensures GrowsElsewhere(s.log, s.log, d) { SameLogElsewhere(s.log, d); }
    OneClient(s.clients, c, Abandon(cl, rid), s.log, s.log);
  }

  // ----- Deliver -----

  /** The client took the oldest message; if it was an insert reply, its row counts
      as receipted. */
  ghost predicate Took(m: Message, log: History, log': History) {
    log' == log.(receipted := if m.InsertReply? then log.receipted + {m.uuid} else log.receipted)
  }

  lemma PopDown(down: seq<Message>, c: nat, log: History, log': History)
    requires DownOk(down, c, log) && down != [] && Took(down[0], log, log')
    ensures DownOk(down[1..], c, log')
  {
  }

  /** Learning that a row is receipted disturbs nothing that the client holds. */
  lemma TookKeeps(cl: Client, c: nat, log: History, log': History, m: Message)
    requires UpOk(cl.conn.up, c, log) && TablePartOk(cl.table, cl.conn.nextId, cl.cleanup, c, log)
    requires Took(m, log, log')
    ensures UpOk(cl.conn.up, c, log') && TablePartOk(cl.table, cl.conn.nextId, cl.cleanup, c, log')
  {
    assert forall u :: Mine(log, c, u) <==> Mine(log', c, u);
  }

  /** A newly learned uuid is stored in one slot, where no other slot holds it. */
  lemma UpdateTable(t: Slots<Uuid, GatewayConfig>, next: Rid, cleanup: Option<Uuid>, c: nat,
                    log: History, log': History, m: Message)
    requires TablePartOk(t, next, cleanup, c, log) && TablePartOk(t, next, cleanup, c, log')
    requires Took(m, log, log') && m.InsertReply? && m.uuid != NO_UUID
    requires Mine(log, c, m.uuid) && m.uuid !in log.receipted
    ensures TablePartOk(Updated(t, m.rid, m.uuid), next, cleanup, c, log')
  {
    var t' := Updated(t, m.rid, m.uuid);
    assert forall k :: 0 <= k < MAX_TABLE_SIZE && t[k].Some? ==> t[k].value.uuid != m.uuid;
    assert forall u :: Retired(t, c, log, u) ==> u != m.uuid;
    assert TableOk(t', next, c, log');
    assert CallsOk(t', next, c, log');
    UpdateRetired(t, cleanup, c, log, log', m);
  }

  lemma UpdateRetired(t: Slots<Uuid, GatewayConfig>, cleanup: Option<Uuid>, c: nat,
                      log: History, log': History, m: Message)
    requires RetiredOk(t, cleanup, c, log) && Took(m, log, log') && m.InsertReply? && m.uuid !in log.receipted
    ensures RetiredOk(Updated(t, m.rid, m.uuid), cleanup, c, log')
  {
  }

  /** Registering and sending a request other than an insert. */
  lemma RegisterKeepsConn(k: Conn, c: nat, log: History, q: Request, sent: bool)
    requires ConnPartOk(k, c, log) && q.rid > k.nextId
    requires (q.Monitor? && q.table == FeedbackTable) || (q.DeleteGateway? && (c, q.uuid) in log.deletes)
             || (q.DeleteFeedback? && (c, q.reqUuid) in log.deletes)
    ensures ConnPartOk(Register(k, q, DummyCallback, sent), c, log)
  {
    RegisterKeeps(k, q, DummyCallback, sent);
    assert UpOk(Register(k, q, DummyCallback, sent).up, c, log);
  }

  lemma SettleKeepsClient(cl: Client, c: nat, log: History, rid: Rid)
    requires ClientOk(cl, c, log) && rid in cl.conn.stranded
    ensures ClientOk(cl.(conn := Settle(cl.conn, rid)), c, log)
  {
    SettleKeeps(cl.conn, rid);
  }

  lemma PopKeepsClient(cl: Client, c: nat, log: History, log': History)
    requires ClientOk(cl, c, log) && cl.conn.down != [] && Took(cl.conn.down[0], log, log')
    ensures ClientOk(cl.(conn := Pop(cl.conn)), c, log')
  {
    PopKeeps(cl.conn);
    PopDown(cl.conn.down, c, log, log');
    TookKeeps(cl, c, log, log', cl.conn.down[0]);
  }

  lemma WatchKeepsClient(cl: Client, c: nat, log: History, sent: bool)
    requires ClientOk(cl, c, log)
    ensures ClientOk(Watch(cl, sent), c, log)
    ensures cl.conn.stranded <= Watch(cl, sent).conn.stranded
  {
    var q := Monitor(cl.conn.nextId + 2, cl.conn.nextId + 1, FeedbackTable);
    RegisterKeepsConn(cl.conn, c, log, q, sent);
    CounterGrows(cl.table, cl.conn.nextId, q.rid, c, log);
    assert Watch(cl, sent).conn == Register(cl.conn, q, DummyCallback, sent);
  }

  lemma UpdatedKeepsClient(cl: Client, c: nat, log: History, log': History, m: Message)
    requires ClientOk(cl, c, log')
    requires TablePartOk(cl.table, cl.conn.nextId, cl.cleanup, c, log)
    requires Took(m, log, log') && m.InsertReply? && m.uuid != NO_UUID
    requires Mine(log, c, m.uuid) && m.uuid !in log.receipted
    ensures ClientOk(cl.(table := Updated(cl.table, m.rid, m.uuid)), c, log')
  {
    UpdateTable(cl.table, cl.conn.nextId, cl.cleanup, c, log, log', m);
  }

  lemma InsertedKeepsClient(cl: Client, c: nat, log: History, log': History, m: Message, sent: bool)
    requires ClientOk(cl, c, log')
    requires TablePartOk(cl.table, cl.conn.nextId, cl.cleanup, c, log)
    requires Took(m, log, log') && m.InsertReply? && m.uuid != NO_UUID
    requires Mine(log, c, m.uuid) && m.uuid !in log.receipted
    ensures ClientOk(OnInserted(cl, m.rid, m.uuid, sent), c, log')
    ensures cl.conn.stranded <= OnInserted(cl, m.rid, m.uuid, sent).conn.stranded
  {
    var cl1 := cl.(table := Updated(cl.table, m.rid, m.uuid));
    UpdatedKeepsClient(cl, c, log, log', m);
    WatchKeepsClient(cl1, c, log', sent);
  }

  lemma ReplyKeepsClient(cl: Client, c: nat, log: History, log': History, sent: bool)
    requires ClientOk(cl, c, log) && NO_UUID !in log.origins
    requires cl.conn.down != [] && cl.conn.down[0].IsReply() && Took(cl.conn.down[0], log, log')
    ensures ClientOk(OnReply(cl, sent), c, log')
  {
    var m := cl.conn.down[0];
    var cl1 := cl.(conn := Pop(cl.conn));
    PopKeepsClient(cl, c, log, log');
    var f := Find(cl1.conn.receipts, m.rid);
    if f.Some? && m.Parses(cl1.conn.receipts[f.value].kind) {
      var cl2 := cl1;
      if cl1.conn.receipts[f.value].callback.WriteCallback? && cl1.conn.receipts[f.value].kind.InsertReceipt? {
        InsertedKeepsClient(cl1, c, log, log', m, sent);
        cl2 := OnInserted(cl1, m.rid, m.uuid, sent);
      }
      SettleKeepsClient(cl2, c, log', m.rid);
    }
  }

  /** Completing a transaction: the slot is emptied and the call recorded. */
  lemma CompleteTable(cl: Client, c: nat, log: History, log': History, k: nat, req: Uuid)
    requires TablePartOk(cl.table, cl.conn.nextId, cl.cleanup, c, log)
    requires k < MAX_TABLE_SIZE && Holds(cl.table, k, req) && req != NO_UUID && req in log.answered
    requires cl.cleanup.None?
    requires var e := cl.table[k].value;
      log' == log.(calls := log.calls + [Call(c, e.id, req, e.config, log.answered[req], e.callback)])
    ensures TablePartOk(Cleared(cl.table, k), cl.conn.nextId, Some(req), c, log')
  {
  }

  lemma CompleteDistinct(cl: Client, c: nat, log: History, k: nat, call: Call)
    requires CallsOk(cl.table, cl.conn.nextId, c, log) && CallsDistinct(log.calls)
    requires k < MAX_TABLE_SIZE && cl.table[k].Some? && call.client == c && call.rid == cl.table[k].value.id
    ensures CallsDistinct(log.calls + [call])
  {
  }

  lemma UpdateKeepsClient(cl: Client, c: nat, log: History, log': History)
    requires ClientOk(cl, c, log) && NO_UUID !in log.answered && cl.cleanup.None?
    requires cl.conn.down != [] && !cl.conn.down[0].IsReply()
    requires log' == Delivered(log, c, cl)
    ensures ClientOk(OnUpdate(cl), c, log')
  {
    var m := cl.conn.down[0];
    var cl1 := cl.(conn := Pop(cl.conn));
    PopKeepsClient(cl, c, log, log);
    var f := Completes(cl, m);
    if f.Some? {
      CompleteTable(cl, c, log, log', f.value, m.reqUuid);
      assert DownOk(cl1.conn.down, c, log') by { SameRows(cl1.conn.down, c, log, log'); }
    }
  }

  lemma DeliveredElsewhere(cl: Client, c: nat, log: History, d: nat)
    requires cl.conn.down != [] && d != c
    requires cl.conn.down[0].InsertReply? ==> Mine(log, c, cl.conn.down[0].uuid)
    ensures GrowsElsewhere(log, Delivered(log, c, cl), d)
  {
  }

  lemma MessageKeepsClient(cl: Client, c: nat, log: History, sent: bool)
    requires ClientOk(cl, c, log) && NO_UUID !in log.origins && NO_UUID !in log.answered && cl.cleanup.None?
    requires cl.conn.down != []
    ensures ClientOk(OnMessage(cl, sent), c, Delivered(log, c, cl))
  {
    var log' := Delivered(log, c, cl);
    if cl.conn.down[0].IsReply() {
      ReplyKeepsClient(cl, c, log, log', sent);
    } else {
      UpdateKeepsClient(cl, c, log, log');
    }
  }

  lemma DeliverKeepsClients(s: System, c: nat, sent: bool)
    requires ClientsOk(s.clients, s.log) && NO_UUID !in s.log.origins && NO_UUID !in s.log.answered
    requires Enabled(s, Deliver(c, sent))
    ensures var s' := Step(s, Deliver(c, sent)); ClientsOk(s'.clients, s'.log)
  {
    var cl := s.clients[c];
    var log' := Delivered(s.log, c, cl);
    assert ClientOk(cl, c, s.log);
    MessageKeepsClient(cl, c, s.log, sent);
    forall d | 0 <= d < |s.clients| && d != c ensures GrowsElsewhere(s.log, log', d) {
      DeliveredElsewhere(cl, c, s.log, d);
    }
    OneClient(s.clients, c, OnMessage(cl, sent), s.log, log');
  }

  /** The agent and database parts do not read the calls, and of the receipted
      rows only that they exist. */
  lemma DeliveredKeepsCore(ag: Agent, n: nat, used: set<Uuid>, rows: map<Uuid, Json>, log: History, log': History)
    requires CoreOk(ag, n, used, rows, log) && CallsDistinct(log'.calls)
    requires log' == log.(receipted := log'.receipted, calls := log'.calls)
    requires forall u :: u in log'.receipted ==> u in log.origins
    ensures CoreOk(ag, n, used, rows, log')
  {
    assert forall u :: u in log.origins ==> RowOf(log', u) == RowOf(log, u);
  }

  lemma DeliverKeepsCore(ag: Agent, n: nat, used: set<Uuid>, rows: map<Uuid, Json>, cl: Client, c: nat, log: History)
    requires CoreOk(ag, n, used, rows, log) && ClientOk(cl, c, log) && cl.conn.down != []
    ensures CoreOk(ag, n, used, rows, Delivered(log, c, cl))
  {
    var log' := Delivered(log, c, cl);
    var f := Completes(cl, cl.conn.down[0]);
    assert CallsDistinct(log'.calls) by {
      if !cl.conn.down[0].InsertReply? && f.Some? {
        CompleteDistinct(cl, c, log, f.value, log'.calls[|log.calls|]);
      }
    }
    assert forall u :: u in log'.receipted ==> u in log.origins;
    DeliveredKeepsCore(ag, n, used, rows, log, log');
  }

  // ----- DeleteRows -----

  lemma RequestedDeletion(cl: Client, c: nat, log: History, uuid: Uuid)
    requires ClientOk(cl, c, log) && cl.cleanup == Some(uuid)
    ensures ClientOk(cl, c, log.(deletes := log.deletes + {(c, uuid)}))
  {
    var log' := log.(deletes := log.deletes + {(c, uuid)});
    assert forall u :: Mine(log, c, u) <==> Mine(log', c, u);
    SameRows(cl.conn.down, c, log, log');
    assert forall u :: Retired(cl.table, c, log, u) ==> Retired(cl.table, c, log', u);
  }

  lemma CleanupKeepsConn(k: Conn, c: nat, log: History, uuid: Uuid, sentGateway: bool, sentFeedback: bool)
    requires ConnPartOk(k, c, log) && (c, uuid) in log.deletes
    ensures ConnPartOk(CleanupSends(k, uuid, sentGateway, sentFeedback), c, log)
  {
    var q1 := DeleteGateway(k.nextId + 1, uuid);
    var k1 := Register(k, q1, DummyCallback, sentGateway);
    var q2 := DeleteFeedback(k1.nextId + 1, uuid);
    assert CleanupSends(k, uuid, sentGateway, sentFeedback)
           == if sentGateway then Register(k1, q2, DummyCallback, sentFeedback) else k1;
    assert ConnPartOk(k1, c, log) by { RegisterKeepsConn(k, c, log, q1, sentGateway); }
    if sentGateway {
      RegisterKeepsConn(k1, c, log, q2, sentFeedback);
    }
  }

  lemma CleanupKeepsClient(cl: Client, c: nat, log: History, sentGateway: bool, sentFeedback: bool)
    requires ClientOk(cl, c, log) && cl.cleanup.Some?
    ensures ClientOk(Cleanup(cl, sentGateway, sentFeedback), c,
                     log.(deletes := log.deletes + {(c, cl.cleanup.value)}))
  {
    var uuid := cl.cleanup.value;
    var log' := log.(deletes := log.deletes + {(c, uuid)});
    RequestedDeletion(cl, c, log, uuid);
    CleanupKeepsConn(cl.conn, c, log', uuid, sentGateway, sentFeedback);
    CounterGrows(cl.table, cl.conn.nextId, Cleanup(cl, sentGateway, sentFeedback).conn.nextId, c, log');
  }

  lemma DeletedElsewhere(log: History, c: nat, uuid: Uuid, d: nat)
    requires d != c
    ensures GrowsElsewhere(log, log.(deletes := log.deletes + {(c, uuid)}), d)
  {
  }

  lemma DeleteRowsKeepsClients(clients: seq<Client>, c: nat, log: History, sentGateway: bool, sentFeedback: bool)
    requires ClientsOk(clients, log) && c < |clients| && clients[c].cleanup.Some?
    ensures ClientsOk(clients[c := Cleanup(clients[c], sentGateway, sentFeedback)],
                      log.(deletes := log.deletes + {(c, clients[c].cleanup.value)}))
  {
    var cl := clients[c];
    var log' := log.(deletes := log.deletes + {(c, cl.cleanup.value)});
    CleanupKeepsClient(cl, c, log, sentGateway, sentFeedback);
    forall d | 0 <= d < |clients| && d != c ensures GrowsElsewhere(log, log', d) {
      DeletedElsewhere(log, c, cl.cleanup.value, d);
    }
    OneClient(clients, c, Cleanup(cl, sentGateway, sentFeedback), log, log');
  }

  lemma DeleteRowsKeepsCore(ag: Agent, n: nat, used: set<Uuid>, rows: map<Uuid, Json>, log: History, c: nat, uuid: Uuid)
    requires CoreOk(ag, n, used, rows, log)
    ensures CoreOk(ag, n, used, rows, log.(deletes := log.deletes + {(c, uuid)}))
  {
    var log' := log.(deletes := log.deletes + {(c, uuid)});
    assert forall u :: u in log.origins ==> RowOf(log', u) == RowOf(log, u);
  }

  // ----- AgentDeliver -----

  lemma AgentKeepsClients(clients: seq<Client>, log: History, ag: Agent, result: Status)
    requires ClientsOk(clients, log) && ag.conn.down != []
    ensures ClientsOk(clients, AgentDelivered(log, ag, result))
  {
  }

  lemma AgentConnKeeps(ag: Agent, result: Status, sent: bool)
    requires Sound(ag.conn) && ag.conn.down != []
    ensures Sound(OnAgentMessage(ag, result, sent).conn)
  {
    var m := ag.conn.down[0];
    var k1 := Pop(ag.conn);
    PopKeeps(ag.conn);
    AgentConnIs(ag, result, sent);
    if m.IsReply() {
      SettleKeeps(k1, m.rid);
    } else if Acts(ag, m) {
      RegisterKeeps(k1, InsertFeedback(k1.nextId + 1, m.uuid, result), DummyCallback, sent);
    }
  }

  lemma AgentConnIs(ag: Agent, result: Status, sent: bool)
    requires ag.conn.down != []
    ensures var m := ag.conn.down[0]; var k1 := Pop(ag.conn); var k' := OnAgentMessage(ag, result, sent).conn;
      if m.IsReply() then k' == k1 || k' == Settle(k1, m.rid)
      else if Acts(ag, m) then k' == Register(k1, InsertFeedback(k1.nextId + 1, m.uuid, result), DummyCallback, sent)
      else k' == k1
  {
  }

  lemma AgentActs(ag: Agent, log: History, result: Status, sent: bool)
    requires ag.conn.down != [] && Acts(ag, ag.conn.down[0])
    requires forall u :: u in log.origins ==> (log.origins[u].client, log.origins[u].rid) in log.requests
    requires AgentDownOk(ag.conn.down, log) && AgentUpOk(ag.conn.up, log) && ActionsOk(log)
    ensures var ag' := OnAgentMessage(ag, result, sent); var log' := AgentDelivered(log, ag, result);
      AgentDownOk(ag'.conn.down, log') && AgentUpOk(ag'.conn.up, log') && ActionsOk(log')
  {
  }

  lemma AgentSkips(ag: Agent, log: History, result: Status, sent: bool)
    requires ag.conn.down != [] && !Acts(ag, ag.conn.down[0])
    requires forall u :: u in log.origins ==> (log.origins[u].client, log.origins[u].rid) in log.requests
    requires AgentDownOk(ag.conn.down, log) && AgentUpOk(ag.conn.up, log)
    ensures var ag' := OnAgentMessage(ag, result, sent);
      AgentDownOk(ag'.conn.down, log) && AgentUpOk(ag'.conn.up, log)
  {
  }

  lemma AgentKeepsCore(ag: Agent, n: nat, used: set<Uuid>, rows: map<Uuid, Json>, log: History, result: Status,
                       sent: bool)
    requires CoreOk(ag, n, used, rows, log) && ag.conn.down != []
    ensures CoreOk(OnAgentMessage(ag, result, sent), n, used, rows, AgentDelivered(log, ag, result))
  {
    AgentConnKeeps(ag, result, sent);
    if Acts(ag, ag.conn.down[0]) {
      AgentActs(ag, log, result, sent);
    } else {
      AgentSkips(ag, log, result, sent);
    }
  }

  // ----- The database server -----

  lemma AnswerKeepsConn(k: Conn, at: nat, c: nat, log: History, m: Message)
    requires ConnPartOk(k, c, log) && at < |k.up|
    requires m.IsReply() && m.rid == k.up[at].rid && m.Answers(k.up[at].Kind()) && !m.InsertReply?
    ensures ConnPartOk(Answer(k, at, m), c, log)
  {
    AnswerKeeps(k, at, m);
    DownGrows(k.down, c, log, m);
    RestOf(k.up, at);
    assert UpOk(RemoveAt(k.up, at), c, log);
  }

  lemma DownGrows(down: seq<Message>, c: nat, log: History, m: Message)
    requires DownOk(down, c, log)
    requires !m.GatewayNew? && !m.InsertReply? && !m.FeedbackNew?
    ensures DownOk(down + [m], c, log)
  {
    ReplyBeforeGrows(down, log, m);
  }

  lemma ReplyBeforeGrows(down: seq<Message>, log: History, m: Message)
    ensures forall n: nat, u :: u in log.origins && ReplyBefore(down, n, log, u) ==> ReplyBefore(down + [m], n, log, u)
  {
    forall n: nat, u | u in log.origins && ReplyBefore(down, n, log, u)
      ensures ReplyBefore(down + [m], n, log, u)
    {
      var j :| 0 <= j < n && j < |down| && down[j] == InsertReply(log.origins[u].rid, u);
      assert (down + [m])[j] == down[j];
    }
  }

  lemma GoneKeepsConn(k: Conn, c: nat, log: History, id: nat)
    requires ConnPartOk(k, c, log)
    ensures ConnPartOk(Push(k, RowsGone(id, FeedbackTable)), c, log)
  {
    PushKeeps(k, RowsGone(id, FeedbackTable));
    DownGrows(k.down, c, log, RowsGone(id, FeedbackTable));
  }

  /** An insert of client c was given a row uuid. */
  ghost predicate Assigned(log: History, log': History, c: nat, rid: Rid, uuid: Uuid) {
    && uuid !in log.origins && uuid !in log.receipted && uuid !in log.acted
    && (c, rid) in log.requests
    && log' == log.(origins := log.origins[uuid := Origin(c, rid)], aborted := log'.aborted)
  }

  lemma AssignedElsewhere(log: History, log': History, c: nat, rid: Rid, uuid: Uuid, d: nat)
    requires Assigned(log, log', c, rid, uuid) && d != c
    ensures GrowsElsewhere(log, log', d)
  {
  }

  lemma AssignedDown(down: seq<Message>, c: nat, log: History, log': History, rid: Rid, uuid: Uuid)
    requires DownOk(down, c, log) && Assigned(log, log', c, rid, uuid) && uuid !in log.answered
    ensures DownOk(down + [InsertReply(rid, uuid)], c, log')
  {
    var m := InsertReply(rid, uuid);
    var down' := down + [m];
    ReplyBeforeGrows(down, log, m);
    forall n, u | u in log.origins && ReplyBefore(down', n, log, u) ensures ReplyBefore(down', n, log', u) {
    }
    assert down'[|down|] == m;
    assert ReplyBefore(down', |down'|, log', uuid);
  }

  lemma AssignedTable(t: Slots<Uuid, GatewayConfig>, next: Rid, cleanup: Option<Uuid>, up: seq<Request>, c: nat,
                       log: History, log': History, rid: Rid, uuid: Uuid)
    requires TablePartOk(t, next, cleanup, c, log) && UpOk(up, c, log) && Assigned(log, log', c, rid, uuid)
    ensures TablePartOk(t, next, cleanup, c, log') && UpOk(up, c, log')
  {
  }

  lemma AssignedKeepsClient(cl: Client, at: nat, c: nat, log: History, log': History, uuid: Uuid)
    requires ClientOk(cl, c, log) && at < |cl.conn.up| && cl.conn.up[at].InsertGateway?
    requires Assigned(log, log', c, cl.conn.up[at].rid, uuid) && uuid !in log.answered
    ensures ClientOk(cl.(conn := Answer(cl.conn, at, InsertReply(cl.conn.up[at].rid, uuid))), c, log')
  {
    var q := cl.conn.up[at];
    AnswerKeeps(cl.conn, at, InsertReply(q.rid, uuid));
    AssignedDown(cl.conn.down, c, log, log', q.rid, uuid);
    AssignedTable(cl.table, cl.conn.nextId, cl.cleanup, cl.conn.up, c, log, log', q.rid, uuid);
    RestOf(cl.conn.up, at);
    assert UpOk(RemoveAt(cl.conn.up, at), c, log');
  }

  lemma ReplyKeepsClients(clients: seq<Client>, c: nat, at: nat, log: History, m: Message)
    requires ClientsOk(clients, log) && c < |clients| && at < |clients[c].conn.up|
    requires m.IsReply() && m.rid == clients[c].conn.up[at].rid && m.Answers(clients[c].conn.up[at].Kind())
    requires !m.InsertReply?
    ensures ClientsOk(Replied(clients, c, at, m), log)
  {
    assert ClientOk(clients[c], c, log);
    AnswerKeepsConn(clients[c].conn, at, c, log, m);
    OneClient(clients, c, clients[c].(conn := Answer(clients[c].conn, at, m)), log, log);
  }

  lemma GoneKeepsClients(clients: seq<Client>, watchers: map<nat, nat>, log: History)
    requires ClientsOk(clients, log)
    ensures ClientsOk(NotifyAll(clients, watchers, Gone(FeedbackTable)), log)
  {
    forall c | 0 <= c < |clients|
      ensures ClientOk(Notified(clients[c], c, watchers, Gone(FeedbackTable)), c, log)
    {
      assert ClientOk(clients[c], c, log);
      if c in watchers { GoneKeepsConn(clients[c].conn, c, log, watchers[c]); }
    }
  }

  lemma AssignKeepsClients(clients: seq<Client>, c: nat, at: nat, log: History, log': History, uuid: Uuid)
    requires ClientsOk(clients, log) && c < |clients|
    requires at < |clients[c].conn.up| && clients[c].conn.up[at].InsertGateway?
    requires Assigned(log, log', c, clients[c].conn.up[at].rid, uuid) && uuid !in log.answered
    ensures ClientsOk(Replied(clients, c, at, InsertReply(clients[c].conn.up[at].rid, uuid)), log')
  {
    var rid := clients[c].conn.up[at].rid;
    assert ClientOk(clients[c], c, log);
    AssignedKeepsClient(clients[c], at, c, log, log', uuid);
    forall d | 0 <= d < |clients| && d != c ensures GrowsElsewhere(log, log', d) {
      AssignedElsewhere(log, log', c, rid, uuid, d);
    }
    OneClient(clients, c, clients[c].(conn := Answer(clients[c].conn, at, InsertReply(rid, uuid))), log, log');
  }

  lemma AgentPushKeeps(ag: Agent, db: Db, log: History, n: Notice)
    requires Sound(ag.conn)
    requires forall u :: u in log.origins ==> (log.origins[u].client, log.origins[u].rid) in log.requests
    requires AgentDownOk(ag.conn.down, log)
    requires n.NewGateway? ==>
      n.uuid in log.origins && n.uuid !in log.aborted && n.uuid !in log.acted && n.gateway == RowOf(log, n.uuid)
    requires n.NewGateway? ==>
      forall i :: 0 <= i < |ag.conn.down| && ag.conn.down[i].GatewayNew? ==> ag.conn.down[i].uuid != n.uuid
    ensures var ag' := NotifyAgent(ag, db, n);
      Sound(ag'.conn) && AgentDownOk(ag'.conn.down, log) && ag'.conn.up == ag.conn.up && ag'.monitors == ag.monitors
  {
    if db.agentMonitor.Some? {
      PushKeeps(ag.conn, n.For(db.agentMonitor.value));
    }
  }

  lemma CommitOrigins(n: nat, used: set<Uuid>, rows: map<Uuid, Json>, log: History, log': History, c: nat, rid: Rid,
                      uuid: Uuid, row: Json)
    requires OriginsOk(n, used, rows, log) && Assigned(log, log', c, rid, uuid)
    requires c < n && uuid != NO_UUID && log'.aborted == log.aborted
    ensures OriginsOk(n, used + {uuid}, rows[uuid := row], log')
  {
  }

  lemma CommitActions(down: seq<Message>, up: seq<Request>, log: History, log': History, c: nat, rid: Rid, uuid: Uuid)
    requires forall u :: u in log.origins ==> (log.origins[u].client, log.origins[u].rid) in log.requests
    requires Assigned(log, log', c, rid, uuid) && log'.aborted == log.aborted
    requires AgentDownOk(down, log) && AgentUpOk(up, log) && ActionsOk(log)
    ensures AgentDownOk(down, log') && AgentUpOk(up, log') && ActionsOk(log')
  {
    assert forall u :: u in log.origins ==> u in log'.origins && RowOf(log', u) == RowOf(log, u);
  }

  lemma CommitKeepsCore(ag: Agent, n: nat, db: Db, log: History, log': History, c: nat, rid: Rid, uuid: Uuid, row: Json)
    requires CoreOk(ag, n, db.used, db.gateway, log) && Assigned(log, log', c, rid, uuid)
    requires c < n && uuid != NO_UUID && log.requests[(c, rid)].row == row && log'.aborted == log.aborted
    ensures CoreOk(NotifyAgent(ag, db, NewGateway(uuid, row)), n, db.used + {uuid}, db.gateway[uuid := row], log')
  {
    CommitOrigins(n, db.used, db.gateway, log, log', c, rid, uuid, row);
    CommitActions(ag.conn.down, ag.conn.up, log, log', c, rid, uuid);
    AgentPushKeeps(ag, db, log', NewGateway(uuid, row));
  }

  lemma ForgetKeepsCore(ag: Agent, n: nat, db: Db, log: History, c: nat, target: Uuid)
    requires CoreOk(ag, n, db.used, db.gateway, log) && Mine(log, c, target) && (c, target) in log.deletes
    ensures CoreOk(NotifyAgent(ag, db, Gone(GatewayConfigTable)), n, db.used, db.gateway - {target}, log)
  {
    AgentPushKeeps(ag, db, log, Gone(GatewayConfigTable));
  }

  lemma ServeClientKeeps(s: System, c: nat, at: nat, uuid: Uuid, outcome: Outcome, replyFirst: bool)
    requires Inv(s) && Enabled(s, ServeClient(c, at, uuid, outcome, replyFirst))
    ensures Inv(Served(s, c, at, uuid, outcome, replyFirst))
  {
    var q := s.clients[c].conn.up[at];
    assert ClientOk(s.clients[c], c, s.log);
    assert UpOk(s.clients[c].conn.up, c, s.log);
    if q.Monitor? {
      ReplyKeepsClients(s.clients, c, at, s.log, MonitorReply(q.rid));
    } else if outcome.Refuses? {
      ReplyKeepsClients(s.clients, c, at, s.log, ErrorReply(q.rid));
    } else if q.InsertGateway? && outcome.Aborts? {
      AbortKeeps(s, c, at, uuid);
    } else if outcome.Aborts? {
      AbortedDeleteKeeps(s, c, at, uuid, replyFirst);
    } else if q.InsertGateway? {
      ServeInsert(s, c, at, uuid, replyFirst);
    } else if q.DeleteGateway? {
      assert Retired(s.clients[c].table, c, s.log, q.uuid);
      ReplyKeepsClients(s.clients, c, at, s.log, DeleteReply(q.rid, 0));
      ReplyKeepsClients(s.clients, c, at, s.log, DeleteReply(q.rid, 1));
      ForgetKeepsCore(s.agent, |s.clients|, s.db, s.log, c, q.uuid);
    } else {
      ServeDeleteFeedback(s, c, at, uuid, replyFirst);
    }
  }

  /** What the invariant says of a request and of a row uuid that is not in use. */
  lemma InvAssigns(s: System, c: nat, at: nat, uuid: Uuid)
    requires Inv(s) && c < |s.clients| && at < |s.clients[c].conn.up| && s.clients[c].conn.up[at].InsertGateway?
    requires uuid !in s.db.used
    ensures var q := s.clients[c].conn.up[at];
      && (c, q.rid) in s.log.requests && s.log.requests[(c, q.rid)].row == q.row
      && uuid !in s.log.origins && uuid !in s.log.receipted && uuid !in s.log.acted && uuid !in s.log.answered
  {
    assert ClientOk(s.clients[c], c, s.log);
    assert UpOk(s.clients[c].conn.up, c, s.log);
  }

  lemma AbortKeepsCore(ag: Agent, n: nat, used: set<Uuid>, rows: map<Uuid, Json>, log: History, log': History, c: nat,
                       rid: Rid, uuid: Uuid)
    requires CoreOk(ag, n, used, rows, log) && Assigned(log, log', c, rid, uuid)
    requires c < n && uuid != NO_UUID && log'.aborted == log.aborted + {uuid}
    ensures CoreOk(ag, n, used + {uuid}, rows, log')
  {
    assert forall u :: u in log.origins ==> u in log'.origins && RowOf(log', u) == RowOf(log, u);
  }

  lemma AbortKeeps(s: System, c: nat, at: nat, uuid: Uuid)
    requires Inv(s) && c < |s.clients| && at < |s.clients[c].conn.up| && s.clients[c].conn.up[at].InsertGateway?
    requires uuid != NO_UUID && uuid !in s.db.used
    ensures Inv(Aborted(s, c, at, uuid))
  {
    var q := s.clients[c].conn.up[at];
    var log' := Aborted(s, c, at, uuid).log;
    InvAssigns(s, c, at, uuid);
    AssignKeepsClients(s.clients, c, at, s.log, log', uuid);
    AbortKeepsCore(s.agent, |s.clients|, s.db.used, s.db.gateway, s.log, log', c, q.rid, uuid);
  }

  /** A deletion that is not committed is only answered. */
  lemma AbortedDeleteIs(s: System, c: nat, at: nat, uuid: Uuid, replyFirst: bool) returns (count: nat)
    requires Enabled(s, ServeClient(c, at, uuid, Aborts, replyFirst))
    requires s.clients[c].conn.up[at].Kind().DeleteReceipt?
    ensures Served(s, c, at, uuid, Aborts, replyFirst)
            == s.(clients := Replied(s.clients, c, at, DeleteReply(s.clients[c].conn.up[at].rid, count)))
  {
    var q := s.clients[c].conn.up[at];
    count := if q.DeleteGateway? then if q.uuid in s.db.gateway then 1 else 0
             else |set u | u in s.db.feedback && s.db.feedback[u].reqUuid == q.reqUuid|;
  }

  lemma AbortedDeleteKeeps(s: System, c: nat, at: nat, uuid: Uuid, replyFirst: bool)
    requires Inv(s) && Enabled(s, ServeClient(c, at, uuid, Aborts, replyFirst))
    requires s.clients[c].conn.up[at].Kind().DeleteReceipt?
    ensures Inv(Served(s, c, at, uuid, Aborts, replyFirst))
  {
    var count := AbortedDeleteIs(s, c, at, uuid, replyFirst);
    ReplyKeepsClients(s.clients, c, at, s.log, DeleteReply(s.clients[c].conn.up[at].rid, count));
  }

  lemma ServedInsertIs(s: System, c: nat, at: nat, uuid: Uuid, replyFirst: bool)
    requires c < |s.clients| && at < |s.clients[c].conn.up| && s.clients[c].conn.up[at].InsertGateway?
    ensures var q := s.clients[c].conn.up[at];
      Served(s, c, at, uuid, Commits, replyFirst)
      == s.(clients := Replied(s.clients, c, at, InsertReply(q.rid, uuid)),
            agent := NotifyAgent(s.agent, s.db, NewGateway(uuid, q.row)),
            db := s.db.(gateway := s.db.gateway[uuid := q.row], used := s.db.used + {uuid}),
            log := s.log.(origins := s.log.origins[uuid := Origin(c, q.rid)]))
  {
  }

  lemma ServeInsert(s: System, c: nat, at: nat, uuid: Uuid, replyFirst: bool)
    requires Inv(s) && Enabled(s, ServeClient(c, at, uuid, Commits, replyFirst))
    requires s.clients[c].conn.up[at].InsertGateway?
    ensures Inv(Served(s, c, at, uuid, Commits, replyFirst))
  {
    var q := s.clients[c].conn.up[at];
    var log' := s.log.(origins := s.log.origins[uuid := Origin(c, q.rid)]);
    InvAssigns(s, c, at, uuid);
    AssignKeepsClients(s.clients, c, at, s.log, log', uuid);
    CommitKeepsCore(s.agent, |s.clients|, s.db, s.log, log', c, q.rid, uuid, q.row);
    ServedInsertIs(s, c, at, uuid, replyFirst);
  }

  /** The invariant does not read the Feedback rows. */
  lemma FeedbackRowsAreFree(s: System, clients: seq<Client>, feedback: map<Uuid, FeedbackRow>)
    requires CoreOk(s.agent, |s.clients|, s.db.used, s.db.gateway, s.log)
    requires ClientsOk(clients, s.log) && |clients| == |s.clients|
    ensures Inv(s.(clients := clients, db := s.db.(feedback := feedback)))
  {
  }

  lemma ServedDeleteFeedbackIs(s: System, c: nat, at: nat, uuid: Uuid, replyFirst: bool)
    returns (clients: seq<Client>, feedback: map<Uuid, FeedbackRow>, reply: Message)
    requires c < |s.clients| && at < |s.clients[c].conn.up| && s.clients[c].conn.up[at].DeleteFeedback?
    ensures Served(s, c, at, uuid, Commits, replyFirst)
            == s.(clients := clients, db := s.db.(feedback := feedback))
    ensures reply.DeleteReply? && reply.rid == s.clients[c].conn.up[at].rid
    ensures || clients == Replied(s.clients, c, at, reply)
            || clients == NotifyAll(Replied(s.clients, c, at, reply), s.db.watchers, Gone(FeedbackTable))
            || clients == Replied(NotifyAll(s.clients, s.db.watchers, Gone(FeedbackTable)), c, at, reply)
  {
    var q := s.clients[c].conn.up[at];
    var gone := set u | u in s.db.feedback && s.db.feedback[u].reqUuid == q.reqUuid;
    var s' := Served(s, c, at, uuid, Commits, replyFirst);
    clients, feedback, reply := s'.clients, s'.db.feedback, DeleteReply(q.rid, |gone|);
  }

  lemma ServeDeleteFeedback(s: System, c: nat, at: nat, uuid: Uuid, replyFirst: bool)
    requires Inv(s) && Enabled(s, ServeClient(c, at, uuid, Commits, replyFirst))
    requires s.clients[c].conn.up[at].DeleteFeedback?
    ensures Inv(Served(s, c, at, uuid, Commits, replyFirst))
  {
    var clients, feedback, reply := ServedDeleteFeedbackIs(s, c, at, uuid, replyFirst);
    ReplyKeepsClients(s.clients, c, at, s.log, reply);
    ReplyAndNotify(s.clients, c, at, s.db.watchers, s.log, reply);
    FeedbackRowsAreFree(s, clients, feedback);
  }

  lemma ReplyAndNotify(clients: seq<Client>, c: nat, at: nat, watchers: map<nat, nat>, log: History, m: Message)
    requires ClientsOk(clients, log) && c < |clients| && at < |clients[c].conn.up|
    requires m.DeleteReply? && m.rid == clients[c].conn.up[at].rid && clients[c].conn.up[at].DeleteFeedback?
    ensures ClientsOk(NotifyAll(Replied(clients, c, at, m), watchers, Gone(FeedbackTable)), log)
    ensures ClientsOk(Replied(NotifyAll(clients, watchers, Gone(FeedbackTable)), c, at, m), log)
  {
    ReplyKeepsClients(clients, c, at, log, m);
    GoneKeepsClients(Replied(clients, c, at, m), watchers, log);
    GoneKeepsClients(clients, watchers, log);
    ReplyKeepsClients(NotifyAll(clients, watchers, Gone(FeedbackTable)), c, at, log, m);
  }

  /** A Feedback row was committed for row `uuid`. */
  ghost predicate Answered(log: History, log': History, uuid: Uuid, status: Status) {
    && uuid !in log.answered && uuid in log.acted && log.acted[uuid].status == status
    && log' == log.(answers := log.answers + [uuid], answered := log.answered[uuid := status])
  }

  lemma AnsweredKeepsClient(cl: Client, c: nat, log: History, log': History, id: nat, uuid: Uuid, req: Uuid,
                            status: Status)
    requires ClientOk(cl, c, log') && req in log'.answered && log'.answered[req] == status
    ensures ClientOk(cl.(conn := Push(cl.conn, FeedbackNew(id, uuid, req, status))), c, log')
  {
    var m := FeedbackNew(id, uuid, req, status);
    PushKeeps(cl.conn, m);
    ReplyBeforeGrows(cl.conn.down, log', m);
  }

  lemma AnsweredKeepsClients(clients: seq<Client>, watchers: map<nat, nat>, log: History, log': History,
                             uuid: Uuid, req: Uuid, status: Status)
    requires ClientsOk(clients, log) && Answered(log, log', req, status)
    ensures ClientsOk(NotifyAll(clients, watchers, NewFeedback(uuid, FeedbackRow(req, status))), log')
  {
    forall c | 0 <= c < |clients|
      ensures ClientOk(Notified(clients[c], c, watchers, NewFeedback(uuid, FeedbackRow(req, status))), c, log')
    {
      Frame(clients[c], c, log, log');
      if c in watchers { AnsweredKeepsClient(clients[c], c, log, log', watchers[c], uuid, req, status); }
    }
  }

  lemma AgentAnswerKeeps(ag: Agent, at: nat, log: History, m: Message)
    requires Sound(ag.conn) && at < |ag.conn.up| && AgentUpOk(ag.conn.up, log)
    requires forall u :: u in log.origins ==> (log.origins[u].client, log.origins[u].rid) in log.requests
    requires AgentDownOk(ag.conn.down, log)
    requires m.IsReply() && m.rid == ag.conn.up[at].rid && m.Answers(ag.conn.up[at].Kind())
    ensures Sound(Answer(ag.conn, at, m)) && AgentUpOk(RemoveAt(ag.conn.up, at), log)
    ensures AgentDownOk(ag.conn.down + [m], log)
  {
    AnswerKeeps(ag.conn, at, m);
    RestOf(ag.conn.up, at);
  }

  lemma AnsweredUp(up: seq<Request>, at: nat, log: History, log': History)
    requires AgentUpOk(up, log) && at < |up| && up[at].InsertFeedback?
    requires Answered(log, log', up[at].reqUuid, up[at].status)
    ensures AgentUpOk(RemoveAt(up, at), log')
  {
    RestOf(up, at);
  }

  lemma AnsweredLog(log: History, log': History, n: nat, used: set<Uuid>, rows: map<Uuid, Json>,
                    uuid: Uuid, req: Uuid, status: Status)
    requires OriginsOk(n, used, rows, log) && ActionsOk(log) && Answered(log, log', req, status)
    ensures ActionsOk(log') && OriginsOk(n, used + {uuid}, rows, log')
  {
  }

  lemma AnsweredKeepsCore(ag: Agent, at: nat, n: nat, used: set<Uuid>, rows: map<Uuid, Json>, log: History,
                          log': History, uuid: Uuid)
    requires CoreOk(ag, n, used, rows, log) && at < |ag.conn.up| && ag.conn.up[at].InsertFeedback?
    requires Answered(log, log', ag.conn.up[at].reqUuid, ag.conn.up[at].status)
    ensures CoreOk(ag.(conn := Answer(ag.conn, at, InsertReply(ag.conn.up[at].rid, uuid))), n, used + {uuid}, rows,
                   log')
  {
    AgentAnswerKeeps(ag, at, log, InsertReply(ag.conn.up[at].rid, uuid));
    AnsweredUp(ag.conn.up, at, log, log');
    AnsweredLog(log, log', n, used, rows, uuid, ag.conn.up[at].reqUuid, ag.conn.up[at].status);
    assert AgentDownOk(ag.conn.down + [InsertReply(ag.conn.up[at].rid, uuid)], log');
  }

  lemma ServeAgentKeeps(s: System, at: nat, uuid: Uuid, outcome: Outcome)
    requires Inv(s) && Enabled(s, ServeAgent(at, uuid, outcome))
    ensures Inv(ServedAgent(s, at, uuid, outcome))
  {
    var q := s.agent.conn.up[at];
    if q.InsertFeedback? && outcome.Commits? {
      var log' := s.log.(answers := s.log.answers + [q.reqUuid], answered := s.log.answered[q.reqUuid := q.status]);
      AnsweredKeepsClients(s.clients, s.db.watchers, s.log, log', uuid, q.reqUuid, q.status);
      AnsweredKeepsCore(s.agent, at, |s.clients|, s.db.used, s.db.gateway, s.log, log', uuid);
    } else if q.InsertFeedback? && outcome.Aborts? {
      AgentAnswerKeeps(s.agent, at, s.log, InsertReply(q.rid, uuid));
    } else if q.Monitor? {
      AgentAnswerKeeps(s.agent, at, s.log, MonitorReply(q.rid));
    } else {
      AgentAnswerKeeps(s.agent, at, s.log, ErrorReply(q.rid));
    }
  }

  // ----- All steps, all runs -----

  lemma RequestKeeps(s: System, l: Label)
    requires Inv(s) && Enabled(s, l) && l.Request?
    ensures Inv(Step(s, l))
  {
    var rid := s.clients[l.c].conn.nextId + 1;
    var log' := Step(s, l).log;
    RequestStepIs(s, l);
    NewIdIsUnrecorded(s.clients, l.c, s.log);
    SubmitKeepsClients(s.clients, l.c, s.log, log', l.config, EncodeGateway(l.config), l.tracked, l.callback, l.sent);
    RequestKeepsCore(s.agent, |s.clients|, s.db.used, s.db.gateway, s.log, log', l.c, rid);
  }

  lemma RequestStepIs(s: System, l: Label)
    requires Enabled(s, l) && l.Request?
    ensures var row := EncodeGateway(l.config); var s' := Step(s, l);
      && s' == s.(clients := s.clients[l.c := SubmitRow(s.clients[l.c], l.config, row, l.tracked, l.callback, l.sent)],
                  log := s'.log)
      && s'.log == s.log.(requests :=
           s.log.requests[(l.c, s.clients[l.c].conn.nextId + 1) := Submission(l.config, row)])
  {
  }

  lemma DeliverKeeps(s: System, l: Label)
    requires Inv(s) && Enabled(s, l) && l.Deliver?
    ensures Inv(Step(s, l))
  {
    DeliverKeepsClients(s, l.c, l.sent);
    assert ClientOk(s.clients[l.c], l.c, s.log);
    DeliverKeepsCore(s.agent, |s.clients|, s.db.used, s.db.gateway, s.clients[l.c], l.c, s.log);
  }

  lemma DeleteRowsKeeps(s: System, l: Label)
    requires Inv(s) && Enabled(s, l) && l.DeleteRows?
    ensures Inv(Step(s, l))
  {
    DeleteRowsKeepsClients(s.clients, l.c, s.log, l.sentGateway, l.sentFeedback);
    DeleteRowsKeepsCore(s.agent, |s.clients|, s.db.used, s.db.gateway, s.log, l.c, s.clients[l.c].cleanup.value);
  }

  lemma AgentDeliverKeeps(s: System, l: Label)
    requires Inv(s) && Enabled(s, l) && l.AgentDeliver?
    ensures Inv(Step(s, l))
  {
    AgentKeepsClients(s.clients, s.log, s.agent, l.result);
    AgentKeepsCore(s.agent, |s.clients|, s.db.used, s.db.gateway, s.log, l.result, l.sent);
  }

  lemma StepKeeps(s: System, l: Label)
    requires Inv(s) && Enabled(s, l)
    ensures Inv(Step(s, l))
  {
    match l
    case Request(_, _, _, _, _) => RequestKeeps(s, l);
    case GiveUp(c, rid) => GiveUpKeepsClients(s, c, rid);
    case Deliver(_, _) => DeliverKeeps(s, l);
    case DeleteRows(_, _, _) => DeleteRowsKeeps(s, l);
    case AgentDeliver(_, _) => AgentDeliverKeeps(s, l);
    case ServeClient(c, at, uuid, outcome, replyFirst) => ServeClientKeeps(s, c, at, uuid, outcome, replyFirst);
    case ServeAgent(at, uuid, outcome) => ServeAgentKeeps(s, at, uuid, outcome);
  }

  lemma NextKeeps(s: System, s': System)
    requires Inv(s) && Next(s, s')
    ensures Inv(s')
  {
    var l :| Enabled(s, l) && s' == Step(s, l);
    StepKeeps(s, l);
  }

  lemma {:induction false} RunInv(run: seq<System>, i: nat)
    requires IsRun(run) && i < |run|
    ensures Inv(run[i])
  {
    if i == 0 {
      InitOk(run[0]);
    } else {
      RunInv(run, i - 1);
      assert Next(run[i - 1], run[i - 1 + 1]);
      NextKeeps(run[i - 1], run[i]);
    }
  }
}
