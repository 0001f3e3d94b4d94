/** The agent as one process: the switch actions, the receipt list, the monitor list
    and the socket. Every method is proved to do to this object what the corresponding
    step does to the agent of the protocol. */
module AgentProcess {
  import opened OvsTypes
  import opened Codec
  import opened Connection
  import opened Peers
  import opened Protocol
  import opened RequestIds
  import opened ReceiptList
  import opened MonitorList
  import opened Rendering
  import opened Component
  import opened Switch
  import opened SwitchSpec
  import opened SwitchAgent
  import opened Messages
  import opened Framing
  import opened Updates
  import opened Notifications
  import SwitchTheorems

  ghost predicate AllDummies(rs: seq<Receipt>) {
    forall i :: 0 <= i < |rs| ==> rs[i].callback.DummyCallback?
  }

  /** Taking a reply leaves the agent the receipts that dispatching it does. */
  lemma AgentReplyParts(ag: Agent, result: Status, sent: bool)
    requires ag.conn.down != [] && ag.conn.down[0].IsReply() && AllDummies(ag.conn.receipts)
    ensures var ag' := OnAgentMessage(ag, result, sent); var rs := ag.conn.receipts;
      && ag'.conn.receipts == AfterReply(rs, ag.conn.down[0], []) && AllDummies(ag'.conn.receipts)
      && ag'.conn.nextId == ag.conn.nextId && ag'.monitors == ag.monitors && ag'.conn.up == ag.conn.up
  {
  }

  /** What the agent's step does with an update that is not a reply, part by part. */
  lemma AgentUpdateParts(ag: Agent, result: Status, sent: bool)
    requires ag.conn.down != [] && !ag.conn.down[0].IsReply() && AllDummies(ag.conn.receipts)
    ensures var ag' := OnAgentMessage(ag, result, sent); var rs := ag.conn.receipts; var id := ag.conn.nextId;
      && var acts := Acts(ag, ag.conn.down[0]);
      && ag'.conn.receipts == AfterAction(rs, acts, id) && AllDummies(ag'.conn.receipts)
      && ag'.conn.nextId == (if acts then id + 1 else id) && ag'.monitors == ag.monitors
      && ag'.conn.up == ag.conn.up + AnswerSends(ag.conn.down[0], acts, id + 1, result, sent)
  {
  }

  /** What the agent writes because of message m: one Feedback row for a row it acts on. */
  function AnswerSends(m: Message, acts: bool, id: nat, result: Status, sent: bool): seq<Request>
    requires acts ==> m.GatewayNew?
  {
    if acts && sent then [InsertFeedback(id, m.uuid, result)] else []
  }

  /** What taking the next message does outside the process: if it is a new row of its
      monitor, the switch action is run on the row's configuration, and its result
      written as a Feedback row that names the row, if the write succeeds; otherwise
      nothing. `sends` is what is written, and what the agent of the protocol sends. */
  ghost predicate Takes(ag: Agent, result: Status, sent: bool, env: Env, sw: Switch, sw': Switch, sends: seq<Request>)
    requires ag.conn.down != []
  {
    var m := ag.conn.down[0];
    && OnAgentMessage(ag, result, sent).conn.up == ag.conn.up + sends
    && if m.GatewayNew? && m.monitorId in ag.monitors
       then && result == DoneStatus(env, DecodeGateway(m.row))
            && sw' == Done(sw, env, DecodeGateway(m.row))
            && sends == if sent then [InsertFeedback(ag.conn.nextId + 1, m.uuid, result)] else []
       else sw' == sw && sends == []
  }

  lemma UpdateTakes(ag: Agent, result: Status, acted: bool, sent: bool, env: Env, sw: Switch, sw': Switch)
    requires ag.conn.down != [] && !ag.conn.down[0].IsReply() && AllDummies(ag.conn.receipts)
    requires acted == Acts(ag, ag.conn.down[0])
    requires acted ==>
      && result == DoneStatus(env, DecodeGateway(ag.conn.down[0].row))
      && sw' == Done(sw, env, DecodeGateway(ag.conn.down[0].row))
    requires !acted ==> sw' == sw
    ensures Takes(ag, result, sent, env, sw, sw', AnswerSends(ag.conn.down[0], acted, ag.conn.nextId + 1, result, sent))
  {
    AgentUpdateParts(ag, result, sent);
  }

  lemma ReplyTakes(ag: Agent, result: Status, sent: bool, env: Env, sw: Switch)
    requires ag.conn.down != [] && ag.conn.down[0].IsReply()
    ensures Takes(ag, result, sent, env, sw, sw, [])
  {
    assert OnAgentMessage(ag, result, sent).conn.up == ag.conn.up;
  }

  function AfterAction(rs: seq<Receipt>, acts: bool, id: nat): seq<Receipt> {
    if acts then rs + [Receipt(id + 1, InsertReceipt, DummyCallback)] else rs
  }

  lemma StartedParts(start: Rid)
    ensures var ag := StartedAgent(start);
      && ag.conn.receipts == [] + [Receipt(start + 2, MonitorReceipt, DummyCallback)] && AllDummies(ag.conn.receipts)
      && ag.conn.nextId == start + 2 && ag.monitors == WatchedIds([], start + 1, true)
      && ag.conn.up == [Monitor(start + 2, start + 1, GatewayConfigTable)]
  {
  }

  class Process {
    const actions: Actions
    const receipts: Receipts<ReceiptCallback>
    const monitors: Monitors<MonitorCallback>
    const socket: Socket
    var id: nat

    /** This process is in the state of the protocol's agent ag. */
    ghost predicate Shows(ag: Agent)
      reads this, actions, receipts, receipts.repr, monitors, monitors.repr, socket
    {
      && ReceiptsAre(receipts, ag.conn.receipts) && MonitorsAre(monitors, ag.monitors, GatewayCallback)
      && id == ag.conn.nextId && AllDummies(ag.conn.receipts) && Consistent(actions.sw)
      && socket.Valid()
    }

    constructor (start: nat, env: Env, sw: Switch)
      requires Consistent(sw)
      ensures fresh(actions) && fresh(receipts) && fresh(receipts.repr) && fresh(monitors) && fresh(monitors.repr)
      ensures actions.env == env && actions.sw == sw && fresh(socket) && socket.sent == []
      ensures Shows(Agent(Conn(start, [], [], [], {}), []))
    {
      actions := new Actions(env, sw);
      receipts := new Receipts<ReceiptCallback>();
      monitors := new Monitors<MonitorCallback>();
      socket := new Socket();
      id := start;
    }

    /** `ovsdb_monitor` for the Gateway_Config table, apart from the receipt. */
    method WatchGateways()
      requires MonitorsAre(monitors, [], GatewayCallback) && socket.Valid() && id + 2 < ID_SPACE
      modifies this`id, monitors, monitors.repr, socket
      ensures MonitorsAre(monitors, WatchedIds([], old(id) + 1, true), GatewayCallback) && id == old(id) + 2
      ensures socket.Valid() && socket.sent == old(socket.sent) + [Monitor(id, id - 1, GatewayConfigTable)]
    {
      AddMonitor(monitors, id + 1, GatewayCallback, true, []);
      id := id + 2;
      socket.Write(Monitor(id, id - 1, GatewayConfigTable), true);
    }

    /** The agent's first request. */
    method Start(ghost start: nat)
      requires Shows(Agent(Conn(start, [], [], [], {}), [])) && socket.sent == [] && start + 2 < ID_SPACE
      modifies this`id, receipts, receipts.repr, monitors, monitors.repr, socket
      ensures Shows(StartedAgent(start)) && socket.sent == StartedAgent(start).conn.up
    {
      StartedParts(start);
      AddReceipt(receipts, Receipt(id + 2, MonitorReceipt, DummyCallback), []);
      WatchGateways();
    }

    /** `receipt_list_process`: none of the agent's receipts has a callback of its own. */
    method TakeReply(rid: string, result: Json, ghost ignored: Members, ghost ag: Agent,
                     ghost status: Status, ghost sent: bool)
      requires Shows(ag) && ag.conn.down != [] && id + 2 < ID_SPACE
      requires ag.conn.down[0].IsReply() && Fits(ag.conn.down[0])
      requires rid == Decimal(ag.conn.down[0].rid) && result == ResultOf(ag.conn.down[0], ignored)
      modifies receipts, receipts.repr
      ensures Shows(OnAgentMessage(ag, status, sent))
    {
      AgentReplyParts(ag, status, sent);
      var _ := DispatchReply(receipts, rid, result, false, id, ag.conn.down[0], ignored, ag.conn.receipts);
    }

    method Act(config: GatewayConfig) returns (result: Status)
      requires Consistent(actions.sw)
      modifies actions
      ensures result == DoneStatus(actions.env, config)
      ensures actions.sw == Done(old(actions.sw), actions.env, config) && Consistent(actions.sw)
    {
      SwitchTheorems.DoneKeepsConsistent(actions.sw, actions.env, config);
      result := actions.Perform(config);
    }

    method SendFeedback(uuid: Uuid, result: Status, sent: bool, ghost rs: seq<Receipt>)
      requires ReceiptsAre(receipts, rs) && id + 1 < ID_SPACE && socket.Valid()
      modifies this`id, receipts, receipts.repr, socket
      ensures id == old(id) + 1 && ReceiptsAre(receipts, AfterAction(rs, true, old(id)))
      ensures socket.Valid()
      ensures socket.sent == old(socket.sent) + (if sent then [InsertFeedback(id, uuid, result)] else [])
    {
      id := NextId(id);
      AddReceipt(receipts, Receipt(id, InsertReceipt, DummyCallback), rs);
      socket.Write(InsertFeedback(id, uuid, result), sent);
    }

    /** `gwconf_mon_cb`, if it is invoked: the switch action runs on the row, and its
        result is inserted as a Feedback row that names the row. */
    method RunGatewayCallback(row: Option<Row>, sent: bool, ghost rs: seq<Receipt>) returns (result: Status)
      requires ReceiptsAre(receipts, rs) && Consistent(actions.sw) && id + 1 < ID_SPACE && socket.Valid()
      modifies this`id, receipts, receipts.repr, actions, socket
      ensures ReceiptsAre(receipts, AfterAction(rs, row.Some?, old(id)))
      ensures id == (if row.Some? then old(id) + 1 else old(id))
      ensures Consistent(actions.sw) && socket.Valid()
      ensures row.None? ==> actions.sw == old(actions.sw) && socket.sent == old(socket.sent)
      ensures row.Some? ==>
        && result == DoneStatus(actions.env, row.value.Gateway())
        && actions.sw == Done(old(actions.sw), actions.env, row.value.Gateway())
        && socket.sent == old(socket.sent) +
             (if sent then [InsertFeedback(id, ClipUuid(row.value.uuid), result)] else [])
    {
      result := Success;
      if row.Some? {
        result := Act(row.value.Gateway());
        SendFeedback(ClipUuid(row.value.uuid), result, sent, rs);
      }
    }

    /** What an update leads to, part by part. */
    method HandleUpdate(params: seq<Json>, sent: bool, ghost m: Message, ghost gone: Members,
                        ghost rs: seq<Receipt>, ghost ids: seq<nat>)
      returns (result: Status, acted: bool)
      requires ReceiptsAre(receipts, rs) && MonitorsAre(monitors, ids, GatewayCallback) && Consistent(actions.sw)
      requires NoneNew(gone) && id + 1 < ID_SPACE && socket.Valid()
      requires (m.GatewayNew? || m.RowsGone?) && Fits(m) && params == UpdateParams(m, gone)
      modifies this`id, receipts, receipts.repr, actions, socket
      ensures acted <==> m.GatewayNew? && m.monitorId in ids
      ensures ReceiptsAre(receipts, AfterAction(rs, acted, old(id))) && id == (if acted then old(id) + 1 else old(id))
      ensures Consistent(actions.sw) && socket.Valid()
      ensures acted ==>
        && result == DoneStatus(actions.env, DecodeGateway(m.row))
        && actions.sw == Done(old(actions.sw), actions.env, DecodeGateway(m.row))
      ensures !acted ==> actions.sw == old(actions.sw)
      ensures socket.sent == old(socket.sent) + AnswerSends(m, acted, old(id) + 1, result, sent)
    {
      var row := HandOut(monitors, params, m, gone, ids, GatewayCallback);
      result := RunGatewayCallback(row, sent, rs);
      acted := row.Some?;
    }

    /** An update, from its parameters. The agent acts on each new row, and announced
        deletions do nothing. Its monitor covers the Gateway_Config table only. */
    method TakeUpdate(params: seq<Json>, sent: bool, ghost gone: Members, ghost ag: Agent)
      returns (result: Status, ghost sends: seq<Request>)
      requires Shows(ag) && ag.conn.down != [] && NoneNew(gone) && id + 1 < ID_SPACE
      requires var m := ag.conn.down[0]; (m.GatewayNew? || m.RowsGone?) && Fits(m) && params == UpdateParams(m, gone)
      modifies this`id, receipts, receipts.repr, actions, socket
      ensures Shows(OnAgentMessage(ag, result, sent))
      ensures Takes(ag, result, sent, actions.env, old(actions.sw), actions.sw, sends)
      ensures socket.sent == old(socket.sent) + sends
    {
      var acted;
      result, acted := HandleUpdate(params, sent, ag.conn.down[0], gone, ag.conn.receipts, ag.monitors);
      sends := AnswerSends(ag.conn.down[0], acted, ag.conn.nextId + 1, result, sent);
      UpdateTakes(ag, result, acted, sent, actions.env, old(actions.sw), actions.sw);
      AgentUpdateParts(ag, result, sent);
    }

    /** One message of the channel, as the listener receives it: on a new row the switch
        action runs and its result is written as a Feedback row for it, and nothing else
        changes the switch or is written. `rows` are what a reply carries besides what
        the code reads, or the deleted rows of an update. */
    method TakeMessage(msg: Json, sent: bool, ghost rows: Members, ghost ag: Agent)
      returns (ghost result: Status, ghost sends: seq<Request>)
      requires Shows(ag) && ag.conn.down != [] && id + 2 < ID_SPACE
      requires !ag.conn.down[0].FeedbackNew? && Fits(ag.conn.down[0]) && (ag.conn.down[0].IsReply() || NoneNew(rows))
      requires msg == WireOf(ag.conn.down[0], rows)
      modifies this`id, receipts, receipts.repr, actions, socket
      ensures Shows(OnAgentMessage(ag, result, sent))
      ensures Takes(ag, result, sent, actions.env, old(actions.sw), actions.sw, sends)
      ensures socket.sent == old(socket.sent) + sends
    {
      ClassifyWire(ag.conn.down[0], rows);
      match Classify(msg) {
        case Reply(rid, reply) =>
          result, sends := Success, [];
          TakeReply(rid.value, reply.value, rows, ag, result, sent);
          ReplyTakes(ag, result, sent, actions.env, actions.sw);
        case Update(params) =>
          result, sends := TakeUpdate(params, sent, rows, ag);
      }
    }
  }
}
