/** A client component as one process: the request API over the transaction manager,
    the receipt list, the monitor list and the socket. Every method is proved to do
    to this object what the corresponding step does to a client of the protocol. */
module Component {
  import opened OvsTypes
  import opened Codec
  import opened Connection
  import opened TransactionTable
  import opened Peers
  import Protocol
  import opened RequestIds
  import opened Ownership
  import opened TransactionManager
  import opened ReceiptList
  import opened MonitorList
  import opened Rendering
  import opened Waiting
  import opened Messages
  import opened Framing
  import opened Updates
  import opened Notifications

  // ----- The parts of a process, and what each of them shows -----

  ghost predicate TableIs(m: Manager<GatewayConfig>, t: Slots<Uuid, GatewayConfig>)
    reads m, m.elements
  {
    m.Ready() && m.elements[..] == t
  }

  ghost predicate ReceiptsAre(l: Receipts<ReceiptCallback>, rs: seq<Receipt>)
    reads l, l.repr
  {
    l.Valid() && l.contents == Rendered(rs)
  }

  ghost predicate MonitorsAre(l: Monitors<MonitorCallback>, ids: seq<nat>, cb: MonitorCallback)
    reads l, l.repr
  {
    l.Valid() && l.contents == RenderedMonitors(ids, cb)
  }

  /** `receipt_list_add` for a generated id. */
  method AddReceipt(l: Receipts<ReceiptCallback>, r: Receipt, ghost rs: seq<Receipt>)
    requires ReceiptsAre(l, rs) && r.rid < ID_SPACE
    modifies l, l.repr
    ensures ReceiptsAre(l, rs + [r]) && fresh(l.repr - old(l.repr))
  {
    DecimalFits(r.rid);
    assert ClipUuid(Decimal(r.rid)) == Decimal(r.rid);
    RenderedAppend(rs, r);
    var _ := l.Add(Some(Decimal(r.rid)), KindOf(r.kind), r.callback);
  }

  /** `insert_transaction` for a generated id. */
  method Track(m: Manager<GatewayConfig>, rid: Rid, callback: bool, config: GatewayConfig,
               ghost t: Slots<Uuid, GatewayConfig>)
    requires TableIs(m, t)
    modifies m`freed, m`accepted, m.elements
    ensures TableIs(m, Inserted(t, Fresh(rid, NO_UUID, callback, config)))
  {
    AtoiDecimal(rid);
    var _ := m.InsertTransaction(Some(Decimal(rid)), callback, config);
    assert Inserted(Cleared(t, Key(rid)), Fresh(rid, NO_UUID, callback, config))
           == Inserted(t, Fresh(rid, NO_UUID, callback, config));
  }

  /** `delete_transaction` for a generated id. */
  method Drop(m: Manager<GatewayConfig>, rid: Rid, ghost t: Slots<Uuid, GatewayConfig>)
    requires TableIs(m, t)
    modifies m`freed, m.elements
    ensures TableIs(m, Deleted(t, rid))
  {
    AtoiDecimal(rid);
    var _ := m.DeleteTransaction(Some(Decimal(rid)));
  }

  /** `update_transaction` with a row's uuid. */
  method StoreUuid(m: Manager<GatewayConfig>, rid: string, uuid: Uuid, ghost id: Rid, ghost t: Slots<Uuid,
                   GatewayConfig>)
    requires TableIs(m, t) && |uuid| <= MAX_UUID_LEN && rid == Decimal(id)
    modifies m.elements
    ensures TableIs(m, Updated(t, id, uuid))
  {
    AtoiDecimal(id);
    assert ClipUuid(uuid) == uuid;
    var _ := m.UpdateTransaction(Some(rid), Some(uuid));
  }

  /** The same, if a uuid is given. */
  method StoreGiven(m: Manager<GatewayConfig>, rid: string, written: Option<Uuid>, ghost id: Rid,
                    ghost t: Slots<Uuid, GatewayConfig>)
    requires TableIs(m, t) && rid == Decimal(id) && (written.Some? ==> |written.value| <= MAX_UUID_LEN)
    modifies m.elements
    ensures TableIs(m, if written.Some? then Updated(t, id, written.value) else t)
  {
    if written.Some? {
      StoreUuid(m, rid, written.value, id, t);
    }
  }

  /** `mon_list_add`, undone by `mon_list_remove` when the request cannot be sent. */
  method AddMonitor(l: Monitors<MonitorCallback>, id: nat, cb: MonitorCallback, sent: bool, ghost ids: seq<nat>)
    requires MonitorsAre(l, ids, cb) && id < ID_SPACE
    modifies l, l.repr
    ensures MonitorsAre(l, WatchedIds(ids, id, sent), cb) && fresh(l.repr - old(l.repr))
  {
    DecimalFits(id);
    assert ClipUuid(Decimal(id)) == Decimal(id);
    var _ := l.Add(Decimal(id), cb);
    RenderedMonitorsAppend(ids, cb, id);
    if !sent {
      DecimalInjective((ids + [id])[0], id);
      var _ := l.Remove(Some(Decimal(id)));
    }
  }

  /** A reply's id and result go to its receipt. `watch` says whether the write
      callback would register the receipt of a monitor request; returned is the uuid
      the write callback is given, if it runs. */
  method DispatchReply(l: Receipts<ReceiptCallback>, rid: string, result: Json, watch: bool, id: Rid,
                       ghost m: Message, ghost ignored: Members, ghost rs: seq<Receipt>)
    returns (written: Option<Uuid>)
    requires ReceiptsAre(l, rs) && m.IsReply() && Fits(m) && id + 2 < ID_SPACE
    requires rid == Decimal(m.rid) && result == ResultOf(m, ignored)
    modifies l, l.repr
    ensures written == Written(rs, m)
    ensures ReceiptsAre(l, AfterReply(rs, m, WatchReceipts(written.Some? && watch, id)))
  {
    AfterReplyRendered(rs, m, ignored, watch, id);
    ghost var d := Dispatched(l.contents, rid, Some(result));
    if d.Some? { AddedFits((d.value.callback, d.value.parsed), watch, id); }
    var adds := (cb: ReceiptCallback, parsed: Parsed) => Added((cb, parsed), watch, id);
    var _, called := l.Process(Some(rid), Some(result), adds);
    assert called == CalledFor(rs, m, ignored);
    written := GivenUuid(called);
  }

  /** What the callback of a completed transaction is given. */
  ghost function CallbackRuns(t: Slots<Uuid, GatewayConfig>, uuid: Uuid,
                              status: Status): seq<Completion<GatewayConfig>> {
    match FindKey(t, uuid)
    case None => []
    case Some(k) => if t[k].value.callback then [Completion(t[k].value.id, status, t[k].value.config)] else []
  }

  /** These are the calls that the protocol records when its client takes the row: what
      is proved of recorded calls is true of the callbacks run. */
  lemma CallbacksAreCalls(cl: Client, c: nat, log: Protocol.History)
    requires cl.conn.down != [] && !cl.conn.down[0].IsReply()
    ensures var m := cl.conn.down[0]; var calls := Protocol.Delivered(log, c, cl).calls; var n := |log.calls|;
      if Completes(cl, m).None? then calls == log.calls
      else && calls == log.calls + [calls[n]] && calls[n].client == c && calls[n].uuid == m.reqUuid
           && CallbackRuns(cl.table, m.reqUuid, m.status)
              == if calls[n].callback then [Completion(calls[n].rid, calls[n].status, calls[n].config)] else []
  {
  }

  /** `complete_transaction` with a Feedback row's values. */
  method FinishTransaction(m: Manager<GatewayConfig>, uuid: Uuid, status: Status, ghost t: Slots<Uuid, GatewayConfig>)
    returns (ok: bool)
    requires TableIs(m, t) && |uuid| <= MAX_UUID_LEN
    modifies m`accepted, m`held, m`freed, m`ran, m.elements
    ensures var f := FindKey(t, uuid);
      ok == f.Some? && TableIs(m, if f.Some? then Cleared(t, f.value) else t)
    ensures m.ran == old(m.ran) + CallbackRuns(t, uuid, status)
  {
    assert ClipUuid(uuid) == uuid;
    ok := m.CompleteTransaction(Some(uuid), status, []);
  }

  /** `ovsdb_parse_params`: the row handed to a callback, if any. An update of the
      protocol has at most one new row. */
  method HandOut(l: Monitors<MonitorCallback>, params: seq<Json>, ghost m: Message, ghost gone: Members,
                 ghost ids: seq<nat>, ghost cb: MonitorCallback)
    returns (row: Option<Row>)
    requires MonitorsAre(l, ids, cb) && !m.IsReply() && Fits(m) && NoneNew(gone) && params == UpdateParams(m, gone)
    ensures row == if m.monitorId in ids then HandedRow(m) else None
  {
    var dispatcher := new Dispatcher(l);
    var _ := dispatcher.ParseParams(params);
    UpdateInvokes(m, gone, ids, cb);
    row := if dispatcher.invoked == [] then None else Some(dispatcher.invoked[0].row);
  }

  class Api {
    const handle: Handle
    const manager: Manager<GatewayConfig>
    const receipts: Receipts<ReceiptCallback>
    const monitors: Monitors<MonitorCallback>
    const socket: Socket
    var id: nat
    var watching: bool

    /** This process is in the state of the protocol's client cl. */
    ghost predicate Shows(cl: Client)
      reads this, manager, manager.elements, receipts, receipts.repr, monitors, monitors.repr, socket
    {
      && TableIs(manager, cl.table) && ReceiptsAre(receipts, cl.conn.receipts)
      && MonitorsAre(monitors, cl.monitors, FeedbackCallback)
      && id == cl.conn.nextId && watching == cl.watching && socket.Valid()
    }

    /** `ovs_agent_api_init`: ids start from the component's own number. */
    constructor (start: nat)
      requires start < ID_SPACE
      ensures fresh(manager) && fresh(manager.elements) && fresh(receipts) && fresh(monitors)
      ensures fresh(handle) && !handle.blocked && fresh(socket) && socket.sent == []
      ensures Shows(Client(Conn(start, [], [], [], {}), EmptySlots(), [], false, None))
    {
      var m := new Manager<GatewayConfig>();
      m.Init();
      manager := m;
      receipts := new Receipts<ReceiptCallback>();
      monitors := new Monitors<MonitorCallback>();
      handle := new Handle();
      socket := new Socket();
      id, watching := start, false;
    }

    /** `receipt_list_add` followed by `ovsdb_socket_write`. */
    method RegisterAndSend(q: Request, cb: ReceiptCallback, sent: bool, ghost k: Conn)
      requires ReceiptsAre(receipts, k.receipts) && q.rid < ID_SPACE && socket.Valid() && InUse(q)
      modifies socket, this`id, receipts, receipts.repr
      ensures ReceiptsAre(receipts, Register(k, q, cb, sent).receipts) && id == q.rid
      ensures socket.Valid() && socket.sent == old(socket.sent) + (if sent then [q] else [])
      ensures fresh(receipts.repr - old(receipts.repr))
    {
      AddReceipt(receipts, Receipt(q.rid, q.Kind(), cb), k.receipts);
      id := q.rid;
      socket.Write(q, sent);
    }

    /** A request that blocks or has a callback gets a transaction. */
    method TrackRequest(rid: Rid, config: GatewayConfig, block: bool, callback: bool, ghost t: Slots<Uuid,
                        GatewayConfig>)
      requires TableIs(manager, t)
      modifies handle, manager`freed, manager`accepted, manager.elements
      ensures TableIs(manager, if callback || block then Inserted(t, Fresh(rid, NO_UUID, callback, config)) else t)
      ensures handle.blocked == if callback || block then block else old(handle.blocked)
    {
      if callback || block {
        handle.blocked := block;
        Track(manager, rid, callback, config, t);
      }
    }

    /** A failed write clears the flag and deletes the transaction of the id. */
    method AfterWrite(rid: Rid, sent: bool, ghost t: Slots<Uuid, GatewayConfig>)
      requires TableIs(manager, t)
      modifies handle, manager`freed, manager.elements
      ensures TableIs(manager, if sent then t else Deleted(t, rid))
      ensures handle.blocked == (sent && old(handle.blocked))
    {
      if !sent {
        if handle.blocked {
          handle.blocked := false;
        }
        Drop(manager, rid, t);
      }
    }

    /** `ovsdb_write`, and what a failure of it leads to. */
    method WriteRequest(q: Request, cb: ReceiptCallback, sent: bool, ghost k: Conn, ghost t: Slots<Uuid, GatewayConfig>)
      requires ReceiptsAre(receipts, k.receipts) && TableIs(manager, t) && q.rid < ID_SPACE
      requires socket.Valid() && InUse(q)
      modifies socket, this`id, handle, receipts, receipts.repr, manager`freed, manager.elements
      ensures ReceiptsAre(receipts, Register(k, q, cb, sent).receipts) && id == q.rid
      ensures TableIs(manager, if sent then t else Deleted(t, q.rid))
      ensures socket.Valid() && socket.sent == old(socket.sent) + (if sent then [q] else [])
      ensures handle.blocked == (sent && old(handle.blocked))
    {
      RegisterAndSend(q, cb, sent, k);
      AfterWrite(q.rid, sent, t);
    }

    /** A request whose row is given. */
    method InsertRow(config: GatewayConfig, row: Json, block: bool, callback: bool, sent: bool,
                     ghost k: Conn, ghost t: Slots<Uuid, GatewayConfig>)
      returns (rid: Rid)
      requires ReceiptsAre(receipts, k.receipts) && TableIs(manager, t) && id + 1 < ID_SPACE && socket.Valid()
      modifies socket, this`id, handle, receipts, receipts.repr
      modifies manager`freed, manager`accepted, manager.elements
      ensures rid == id == old(id) + 1
      ensures var cb := if callback || block then WriteCallback else DummyCallback;
        ReceiptsAre(receipts, Register(k, InsertGateway(rid, row), cb, sent).receipts)
      ensures TableIs(manager, SubmitSlots(t, rid, config, callback || block, callback, sent))
      ensures socket.Valid() && socket.sent == old(socket.sent) + (if sent then [InsertGateway(rid, row)] else [])
      ensures handle.blocked == (sent && if callback || block then block else old(handle.blocked))
    {
      rid := NextId(id);
      assert rid == id + 1;
      TrackRequest(rid, config, block, callback, t);
      WriteRequest(InsertGateway(rid, row), if callback || block then WriteCallback else DummyCallback, sent, k,
                   if callback || block then Inserted(t, Fresh(rid, NO_UUID, callback, config)) else t);
    }

    /** `handle_transact_insert_request` up to the wait: `sent` is the outcome of the
        write. */
    method InsertRequest(config: GatewayConfig, block: bool, callback: bool, sent: bool, ghost cl: Client)
      returns (rid: Rid)
      requires Shows(cl) && id + 1 < ID_SPACE
      modifies socket, this`id, handle, receipts, receipts.repr
      modifies manager`freed, manager`accepted, manager.elements
      ensures rid == old(id) + 1
      ensures Shows(Submit(cl, config, callback || block, callback, sent))
      ensures socket.Valid()
      ensures socket.sent == old(socket.sent) + (if sent then [InsertGateway(rid, EncodeGateway(config))] else [])
      ensures handle.blocked == (sent && if callback || block then block else old(handle.blocked))
    {
      var row := BuildGatewayRow(config);
      rid := InsertRow(config, row, block, callback, sent, cl.conn, cl.table);
    }

    /** `send_monitor_feedback_request`, apart from the receipt, if the write callback
        goes on to it. */
    method StartWatching(watches: bool, sent: bool, ghost ids: seq<nat>)
      requires MonitorsAre(monitors, ids, FeedbackCallback) && socket.Valid() && id + 2 < ID_SPACE
      modifies socket, this`id, this`watching, monitors, monitors.repr
      ensures MonitorsAre(monitors, MonitorsAfter(watches, ids, old(id), sent), FeedbackCallback)
      ensures id == (if watches then old(id) + 2 else old(id)) && watching == (if watches then sent else old(watching))
      ensures socket.Valid() && socket.sent == old(socket.sent) + WatchSends(watches, old(id), sent)
    {
      if watches {
        AddMonitor(monitors, id + 1, FeedbackCallback, sent, ids);
        id := id + 2;
        watching := sent;
        socket.Write(Monitor(id, id - 1, FeedbackTable), sent);
      }
    }

    /** `ovs_agent_api_write_callback`, if the reply runs it, apart from the receipt it
        registers: the uuid is stored, and the Feedback table watched if `watch`. */
    method RunWriteCallback(rid: string, written: Option<Uuid>, watch: bool, sent: bool,
                            ghost key: Rid, ghost t: Slots<Uuid, GatewayConfig>, ghost ids: seq<nat>)
      requires TableIs(manager, t) && MonitorsAre(monitors, ids, FeedbackCallback) && socket.Valid()
      requires id + 2 < ID_SPACE && rid == Decimal(key) && (written.Some? ==> |written.value| <= MAX_UUID_LEN)
      modifies socket, this`id, this`watching, monitors, monitors.repr, manager.elements
      ensures TableIs(manager, if written.Some? then Updated(t, key, written.value) else t)
      ensures MonitorsAre(monitors, MonitorsAfter(written.Some? && watch, ids, old(id), sent), FeedbackCallback)
      ensures id == (if written.Some? && watch then old(id) + 2 else old(id))
      ensures watching == (if written.Some? && watch then sent else old(watching))
      ensures socket.Valid() && socket.sent == old(socket.sent) + WatchSends(written.Some? && watch, old(id), sent)
    {
      StoreGiven(manager, rid, written, key, t);
      StartWatching(written.Some? && watch, sent, ids);
    }

    /** What a reply leads to, part by part. */
    method HandleReply(rid: string, result: Json, watch: bool, sent: bool, ghost m: Message, ghost ignored: Members,
                       ghost t: Slots<Uuid, GatewayConfig>, ghost rs: seq<Receipt>, ghost ids: seq<nat>)
      returns (writes: bool)
      requires TableIs(manager, t) && ReceiptsAre(receipts, rs) && MonitorsAre(monitors, ids, FeedbackCallback)
      requires m.IsReply() && Fits(m) && id + 2 < ID_SPACE && socket.Valid()
      requires rid == Decimal(m.rid) && result == ResultOf(m, ignored)
      modifies socket, this`id, this`watching, receipts, receipts.repr, monitors, monitors.repr, manager.elements
      ensures writes == Writes(rs, m)
      ensures ReceiptsAre(receipts, AfterReply(rs, m, WatchReceipts(writes && watch, old(id))))
      ensures TableIs(manager, if writes then Updated(t, m.rid, m.uuid) else t)
      ensures MonitorsAre(monitors, MonitorsAfter(writes && watch, ids, old(id), sent), FeedbackCallback)
      ensures id == (if writes && watch then old(id) + 2 else old(id))
      ensures watching == (if writes && watch then sent else old(watching))
      ensures socket.Valid() && socket.sent == old(socket.sent) + WatchSends(writes && watch, old(id), sent)
    {
      var written := DispatchReply(receipts, rid, result, watch, id, m, ignored, rs);
      RunWriteCallback(rid, written, watch, sent, m.rid, t, ids);
      writes := written.Some?;
    }

    /** The same, for a process that shows cl and is to show cl'. */
    method MoveByReply(rid: string, result: Json, watch: bool, sent: bool, ghost m: Message, ghost ignored: Members,
                       ghost cl: Client, ghost cl': Client)
      returns (writes: bool)
      requires Shows(cl) && m.IsReply() && Fits(m) && id + 2 < ID_SPACE && watch == WouldWatch(cl, m.rid)
      requires rid == Decimal(m.rid) && result == ResultOf(m, ignored) && MovedByReply(cl, cl', m, sent)
      modifies socket, this`id, this`watching, receipts, receipts.repr, monitors, monitors.repr, manager.elements
      ensures Shows(cl')
      ensures writes == Writes(cl.conn.receipts, m)
      ensures socket.sent == old(socket.sent) + WatchSends(writes && watch, old(id), sent)
    {
      writes := HandleReply(rid, result, watch, sent, m, ignored, cl.table, cl.conn.receipts, cl.monitors);
    }

    /** `receipt_list_process` for a reply, whose write callback may go on to watch the
        Feedback table; `sent` is the outcome of that request's write, and `sends` what
        was written. */
    method TakeReply(rid: string, result: Json, sent: bool, ghost ignored: Members, ghost cl: Client)
      returns (ghost sends: seq<Request>)
      requires Shows(cl) && cl.conn.down != [] && id + 2 < ID_SPACE
      requires cl.conn.down[0].IsReply() && Fits(cl.conn.down[0])
      requires rid == Decimal(cl.conn.down[0].rid) && result == ResultOf(cl.conn.down[0], ignored)
      modifies socket, this`id, this`watching, receipts, receipts.repr, monitors, monitors.repr, manager.elements
      ensures Shows(OnReply(cl, sent))
      ensures socket.sent == old(socket.sent) + sends && OnReply(cl, sent).conn.up == cl.conn.up + sends
    {
      AtoiDecimal(cl.conn.down[0].rid);
      var watch := manager.elements[Key(Atoi(rid))].Some? && !watching;
      OnReplyParts(cl, sent);
      var writes := MoveByReply(rid, result, watch, sent, cl.conn.down[0], ignored, cl, OnReply(cl, sent));
      sends := WatchSends(writes && watch, old(id), sent);
    }

    /** `ovs_agent_api_monitor_feedback_callback`, if it is invoked, up to and including
        the user's callback. Rows of other tables are ignored. */
    method RunFeedbackCallback(row: Option<Row>, ghost t: Slots<Uuid, GatewayConfig>) returns (completed: bool)
      requires TableIs(manager, t)
      modifies manager`accepted, manager`held, manager`freed, manager`ran, manager.elements
      ensures var answer := if row.Some? && row.value.table == FeedbackTable then Some(row.value.Answer()) else None;
        var f := if answer.Some? then FindKey(t, answer.value.reqUuid) else None;
        && completed == f.Some? && TableIs(manager, if f.Some? then Cleared(t, f.value) else t)
        && manager.ran == old(manager.ran) +
             (if completed then CallbackRuns(t, answer.value.reqUuid, StatusOfCode(answer.value.status)) else [])
    {
      completed := false;
      if row.Some? && row.value.table == FeedbackTable {
        var feedback := row.value.Answer();
        completed := FinishTransaction(manager, feedback.reqUuid, StatusOfCode(feedback.status), t);
      }
    }

    /** An update, from its parameters: `completed` says whether a transaction was
        completed, and so whether DeleteRows follows. Announced deletions do nothing. */
    method TakeUpdate(params: seq<Json>, ghost gone: Members, ghost cl: Client) returns (completed: bool)
      requires Shows(cl) && cl.conn.down != [] && NoneNew(gone)
      requires var m := cl.conn.down[0]; !m.IsReply() && Fits(m) && params == UpdateParams(m, gone)
      modifies manager`accepted, manager`held, manager`freed, manager`ran, manager.elements
      ensures Shows(OnUpdate(cl))
      ensures completed <==> Completes(cl, cl.conn.down[0]).Some?
      ensures manager.ran == old(manager.ran) + var m := cl.conn.down[0];
        if completed then CallbackRuns(cl.table, m.reqUuid, m.status) else []
    {
      var row := HandOut(monitors, params, cl.conn.down[0], gone, cl.monitors, FeedbackCallback);
      if cl.conn.down[0].FeedbackNew? { AnswerReadsBack(cl.conn.down[0]); }
      completed := RunFeedbackCallback(row, cl.table);
    }

    /** One message of the channel, as the listener receives it: a Feedback row that
        completes a transaction runs its callback with the row's own status, and nothing
        else runs a callback; what is written is what the protocol's client sends. `rows`
        are what a reply carries besides what the code reads, or the deleted rows of an
        update. */
    method TakeMessage(msg: Json, sent: bool, ghost rows: Members, ghost cl: Client)
      returns (completed: bool, ghost sends: seq<Request>)
      requires Shows(cl) && cl.conn.down != [] && id + 2 < ID_SPACE
      requires Fits(cl.conn.down[0]) && (cl.conn.down[0].IsReply() || NoneNew(rows))
      requires msg == WireOf(cl.conn.down[0], rows)
      modifies socket, this`id, this`watching, receipts, receipts.repr, monitors, monitors.repr
      modifies manager`accepted, manager`held, manager`freed, manager`ran, manager.elements
      ensures Shows(OnMessage(cl, sent))
      ensures completed <==> Completes(cl, cl.conn.down[0]).Some?
      ensures manager.ran == old(manager.ran) + var m := cl.conn.down[0];
        if completed then CallbackRuns(cl.table, m.reqUuid, m.status) else []
      ensures socket.sent == old(socket.sent) + sends && OnMessage(cl, sent).conn.up == cl.conn.up + sends
    {
      ClassifyWire(cl.conn.down[0], rows);
      completed := false;
      match Classify(msg) {
        case Reply(rid, result) =>
          sends := TakeReply(rid.value, result.value, sent, rows, cl);
        case Update(params) =>
          completed := TakeUpdate(params, rows, cl);
          sends := [];
      }
    }

    /** `ovsdb_delete`, which makes rs' of rs and `goal` of what has been sent. */
    method SendDelete(q: Request, sent: bool, ghost rs: seq<Receipt>, ghost rs': seq<Receipt>, ghost goal: seq<Request>)
      requires ReceiptsAre(receipts, rs) && socket.Valid() && q.rid < ID_SPACE
      requires (q.DeleteGateway? || q.DeleteFeedback?) && rs' == rs + [Receipt(q.rid, DeleteReceipt, DummyCallback)]
      requires goal == socket.sent + (if sent then [q] else [])
      modifies socket, this`id, receipts, receipts.repr
      ensures ReceiptsAre(receipts, rs') && id == q.rid && socket.Valid() && socket.sent == goal
      ensures fresh(receipts.repr - old(receipts.repr))
    {
      AddReceipt(receipts, Receipt(q.rid, DeleteReceipt, DummyCallback), rs);
      id := q.rid;
      socket.Write(q, sent);
    }

    /** The two delete requests; the second only if the first could be sent. */
    method SendDeletes(uuid: Uuid, sentGateway: bool, sentFeedback: bool, ghost rs: seq<Receipt>)
      requires ReceiptsAre(receipts, rs) && id + 2 < ID_SPACE && socket.Valid()
      modifies socket, this`id, receipts, receipts.repr
      ensures ReceiptsAre(receipts, rs + DeleteReceipts(old(id), sentGateway))
      ensures id == if sentGateway then old(id) + 2 else old(id) + 1
      ensures socket.Valid() && socket.sent == old(socket.sent) + DeleteSends(old(id), uuid, sentGateway, sentFeedback)
    {
      var first := DeleteGateway(NextId(id), uuid);
      var second := DeleteFeedback(NextId(first.rid), uuid);
      assert first.rid == id + 1 && second.rid == id + 2;
      ghost var rs1 := rs + [Receipt(id + 1, DeleteReceipt, DummyCallback)];
      ghost var rs2 := rs + DeleteReceipts(id, sentGateway);
      ghost var goal1 := socket.sent + (if sentGateway then [first] else []);
      ghost var goal2 := socket.sent + DeleteSends(id, uuid, sentGateway, sentFeedback);
      DeletePartsJoin(rs, socket.sent, id, uuid, sentGateway, sentFeedback);
      SendDelete(first, sentGateway, rs, rs1, goal1);
      if sentGateway {
        SendDelete(second, sentFeedback, rs1, rs2, goal2);
      }
    }

    /** The rest of the Feedback callback: both rows are deleted and then a blocked
        caller is woken; each step is left out if the one before failed. */
    method DeleteRows(uuid: Uuid, sentGateway: bool, sentFeedback: bool, ghost cl: Client)
      returns (ghost sends: seq<Request>)
      requires Shows(cl) && cl.cleanup == Some(uuid) && id + 2 < ID_SPACE
      modifies socket, this`id, handle, receipts, receipts.repr
      ensures Shows(Cleanup(cl, sentGateway, sentFeedback))
      ensures socket.sent == old(socket.sent) + sends
      ensures Cleanup(cl, sentGateway, sentFeedback).conn.up == cl.conn.up + sends
      ensures handle.blocked == (old(handle.blocked) && !(sentGateway && sentFeedback))
    {
      CleanupParts(cl.conn, uuid, sentGateway, sentFeedback);
      sends := DeleteSends(id, uuid, sentGateway, sentFeedback);
      SendDeletes(uuid, sentGateway, sentFeedback, cl.conn.receipts);
      if sentGateway && sentFeedback {
        var _ := handle.SignalCompletion();
      }
    }

    /** `delete_transaction` after a wait that did not succeed. */
    method GiveUp(rid: Rid, ghost cl: Client)
      requires Shows(cl)
      modifies manager`freed, manager.elements
      ensures Shows(Abandon(cl, rid))
    {
      Drop(manager, rid, cl.table);
    }

    /** The end of `handle_transact_insert_request` for a request that blocks, with the
        wakeups its wait goes through; cl is the client once the wait is over. The call
        returns true only if the wait succeeded, and else its transaction is deleted. */
    method AwaitCompletion(rid: Rid, wakeups: seq<Wake>, ghost cl: Client) returns (ok: bool)
      requires Shows(cl) && (handle.blocked ==> exists n :: 0 <= n < |wakeups| && Ends(wakeups[n]))
      modifies handle, manager`freed, manager.elements
      ensures ok <==> Waited(old(handle.blocked), wakeups) == Success
      ensures Shows(if ok then cl else Abandon(cl, rid)) && !handle.blocked
    {
      var status, _ := handle.WaitForCompletion(wakeups);
      ok := status == Success;
      if !ok {
        GiveUp(rid, cl);
      }
    }
  }
}
