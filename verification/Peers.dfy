/** What one message delivery or API call does to a client process and to the
    agent process, as functions on their state. */
module Peers {
  import opened OvsTypes
  import opened Codec
  import opened Connection
  import opened TransactionTable

  /** A client component. `monitors` is its monitor list, whose registrations all
      carry the Feedback callback; `watching` is the handle's monitorFeedback.
      `cleanup` holds the uuid of a transaction that the listener thread has
      completed but whose rows it has not deleted yet: while its callback runs,
      the component may submit further requests. */
  datatype Client = Client(
    conn: Conn,
    table: Slots<Uuid, GatewayConfig>,
    monitors: seq<nat>,
    watching: bool,
    cleanup: Option<Uuid>)

  /** The agent process; its monitor list carries the Gateway_Config callback. */
  datatype Agent = Agent(conn: Conn, monitors: seq<nat>)

  // ----- API calls -----

  /** The table after a request: a tracked request gets a transaction, and after a
      failed write the slot of the request id is emptied, even when the request was
      not tracked. */
  function SubmitSlots(t: Slots<Uuid, GatewayConfig>, rid: Rid, config: GatewayConfig,
                       tracked: bool, callback: bool, sent: bool): Slots<Uuid, GatewayConfig> {
    var t1 := if tracked then Inserted(t, Fresh(rid, NO_UUID, callback, config)) else t;
    if sent then t1 else Deleted(t1, rid)
  }

  /** `handle_transact_insert_request` up to the wait. A request is tracked when it
      has a callback or blocks. */
  function Submit(cl: Client, config: GatewayConfig, tracked: bool, callback: bool, sent: bool): Client {
    SubmitRow(cl, config, EncodeGateway(config), tracked, callback, sent)
  }

  /** The same, with the row that the configuration is encoded as. */
  function SubmitRow(cl: Client, config: GatewayConfig, row: Json, tracked: bool, callback: bool, sent: bool): Client {
    var rid := cl.conn.nextId + 1;
    cl.(conn := Register(cl.conn, InsertGateway(rid, row), if tracked then WriteCallback else DummyCallback, sent),
        table := SubmitSlots(cl.table, rid, config, tracked, callback, sent))
  }

  /** `delete_transaction`, called when a blocked request fails. */
  function Abandon(cl: Client, rid: Rid): Client {
    cl.(table := Deleted(cl.table, rid))
  }

  /** `mon_list_remove`: only the head of the list is ever removed. */
  function DropMonitor(ms: seq<nat>, id: nat): seq<nat> {
    if ms != [] && ms[0] == id then ms[1..] else ms
  }

  /** `send_monitor_feedback_request`. */
  function Watch(cl: Client, sent: bool): Client {
    var id := cl.conn.nextId + 1;
    cl.(conn := Register(cl.conn, Monitor(id + 1, id, FeedbackTable), DummyCallback, sent),
        monitors := if sent then cl.monitors + [id] else DropMonitor(cl.monitors + [id], id),
        watching := sent)
  }

  // ----- Deliveries to a client -----

  /** `ovs_agent_api_write_callback`. */
  function OnInserted(cl: Client, rid: Rid, uuid: Uuid, sent: bool): Client {
    if cl.table[Key(rid)].None? then cl
    else
      var cl' := cl.(table := Updated(cl.table, rid, uuid));
      if cl'.watching then cl' else Watch(cl', sent)
  }

  /** `receipt_list_process`: the receipt is found and the result parsed, the
      callback runs, and then the receipt is removed. */
  function OnReply(cl: Client, sent: bool): Client
    requires cl.conn.down != [] && cl.conn.down[0].IsReply()
  {
    var m := cl.conn.down[0];
    var cl1 := cl.(conn := Pop(cl.conn));
    match Find(cl1.conn.receipts, m.rid)
    case None => cl1
    case Some(i) =>
      var r := cl1.conn.receipts[i];
      if !m.Parses(r.kind) then cl1
      else
        var cl2 := if r.callback.WriteCallback? && r.kind.InsertReceipt?
                   then OnInserted(cl1, m.rid, m.uuid, sent) else cl1;
        cl2.(conn := Settle(cl2.conn, m.rid))
  }

  /** The slot a Feedback update completes, if any. */
  function Completes(cl: Client, m: Message): (r: Option<nat>)
    ensures r.Some? ==> m.FeedbackNew? && r.value < MAX_TABLE_SIZE && Holds(cl.table, r.value, m.reqUuid)
  {
    if m.FeedbackNew? && m.monitorId in cl.monitors then FindKey(cl.table, m.reqUuid) else None
  }

  /** `ovs_agent_api_monitor_feedback_callback` up to the user's callback. Updates
      without a new row are discarded. */
  function OnUpdate(cl: Client): Client
    requires cl.conn.down != [] && !cl.conn.down[0].IsReply()
  {
    var m := cl.conn.down[0];
    var cl1 := cl.(conn := Pop(cl.conn));
    match Completes(cl, m)
    case None => cl1
    case Some(k) => cl1.(table := Cleared(cl.table, k), cleanup := Some(m.reqUuid))
  }

  function OnMessage(cl: Client, sent: bool): Client
    requires cl.conn.down != []
  {
    if cl.conn.down[0].IsReply() then OnReply(cl, sent) else OnUpdate(cl)
  }

  /** The rest of the Feedback callback: both rows are deleted, the second only if
      the first request could be sent. */
  function CleanupSends(k: Conn, uuid: Uuid, sentGateway: bool, sentFeedback: bool): Conn {
    var k1 := Register(k, DeleteGateway(k.nextId + 1, uuid), DummyCallback, sentGateway);
    if sentGateway
    then Register(k1, DeleteFeedback(k1.nextId + 1, uuid), DummyCallback, sentFeedback) else k1
  }

  function Cleanup(cl: Client, sentGateway: bool, sentFeedback: bool): Client
    requires cl.cleanup.Some?
  {
    cl.(conn := CleanupSends(cl.conn, cl.cleanup.value, sentGateway, sentFeedback), cleanup := None)
  }

  // ----- Deliveries to the agent -----

  /** The rows for which the agent runs the switch action. */
  predicate Acts(ag: Agent, m: Message) {
    m.GatewayNew? && m.monitorId in ag.monitors
  }

  /** `gwconf_mon_cb`: the action's result goes into a Feedback row that names the
      row it answers. The request is not tracked. */
  function OnAgentMessage(ag: Agent, result: Status, sent: bool): Agent
    requires ag.conn.down != []
  {
    var m := ag.conn.down[0];
    var k1 := Pop(ag.conn);
    if m.IsReply() then
      match Find(k1.receipts, m.rid)
      case None => ag.(conn := k1)
      case Some(i) => if m.Parses(k1.receipts[i].kind) then ag.(conn := Settle(k1, m.rid)) else ag.(conn := k1)
    else if Acts(ag, m) then
      ag.(conn := Register(k1, InsertFeedback(k1.nextId + 1, m.uuid, result), DummyCallback, sent))
    else ag.(conn := k1)
  }
}
