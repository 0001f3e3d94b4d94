/** How the server's messages appear on the wire, and that the listener makes of each
    of them what the protocol does. */
module Notifications {
  import opened OvsTypes
  import opened Codec
  import opened Connection
  import opened RequestIds
  import opened MonitorList
  import opened Rendering
  import opened Messages
  import opened Framing
  import opened Updates

  // ----- Updates -----

  /** Deleted rows are announced without new content (RFC 7047, section 4.1.6). */
  ghost predicate NoneNew(gone: Members) {
    forall i :: 0 <= i < |gone| ==> !IsNew(gone[i])
  }

  function NewContent(uuid: Uuid, content: Json): Members {
    [(uuid, JObject([("new", content)]))]
  }

  /** The Feedback row that the agent's insert made. */
  function FeedbackContent(reqUuid: Uuid, status: Status): Json {
    EncodeFeedback(Feedback(reqUuid, StatusCode(status)))
  }

  function UpdatedTable(m: Message): string
    requires !m.IsReply()
  {
    if m.GatewayNew? || (m.RowsGone? && m.table == GatewayConfigTable) then GATEWAY_CONFIG_NAME else FEEDBACK_NAME
  }

  /** The rows of an update; `gone` are those that a deletion announces. */
  function UpdatedRows(m: Message, gone: Members): Members
    requires !m.IsReply()
  {
    match m
    case GatewayNew(_, uuid, row) => NewContent(uuid, row)
    case FeedbackNew(_, uuid, reqUuid, status) => NewContent(uuid, FeedbackContent(reqUuid, status))
    case RowsGone(_, _) => gone
  }

  function UpdateParams(m: Message, gone: Members): seq<Json>
    requires !m.IsReply()
  {
    [JString(Decimal(m.monitorId)), JObject([(UpdatedTable(m), JObject(UpdatedRows(m, gone)))])]
  }

  /** The row handed to the callback, if the monitor has one. */
  function HandedRow(m: Message): Option<Row>
    requires !m.IsReply()
  {
    match m
    case GatewayNew(_, uuid, row) => Some(Row(uuid, GatewayConfigTable, row))
    case FeedbackNew(_, uuid, reqUuid, status) => Some(Row(uuid, FeedbackTable, FeedbackContent(reqUuid, status)))
    case RowsGone(_, _) => None
  }

  /** Uuids are at most 36 characters, and counts are 32-bit integers. */
  predicate Fits(m: Message) {
    && (m.InsertReply? || m.GatewayNew? || m.FeedbackNew? ==> |m.uuid| <= MAX_UUID_LEN)
    && (m.FeedbackNew? ==> |m.reqUuid| <= MAX_UUID_LEN)
    && (m.DeleteReply? ==> IsInt32(m.count))
  }

  /** Rows without new content are never handed over. */
  lemma {:induction false} GoneRowsAreNotHandedOver(table: string, gone: Members, ok: Status, status: Status)
    requires NoneNew(gone)
    ensures HandOver(table, gone, ok, status).rows == []
  {
    if gone != [] {
      assert !IsNew(gone[0]);
      GoneRowsAreNotHandedOver(table, gone[1..], ok, Success);
    }
  }

  lemma NewRowIsHandedOver(table: string, uuid: Uuid, content: Json, ok: Status)
    requires Known(table) && |uuid| <= MAX_UUID_LEN
    ensures var h := HandOver(table, NewContent(uuid, content), ok, Failed);
      h.rows == [Row(uuid, if table == GATEWAY_CONFIG_NAME then GatewayConfigTable else FeedbackTable, content)]
  {
    var rows := NewContent(uuid, content);
    KeysDiffer();
    assert ParseTable(table, rows[0].0, content).Some?;
    assert rows[1..] == [];
  }

  /** An update hands exactly its new row to the callback registered for its monitor,
      and nothing if it announces deletions or the monitor is not registered. */
  lemma UpdateInvokes(m: Message, gone: Members, ids: seq<nat>, cb: MonitorCallback)
    requires !m.IsReply() && Fits(m) && NoneNew(gone)
    ensures var row := HandedRow(m);
      HandedByParams(RenderedMonitors(ids, cb), Decimal(m.monitorId), UpdateParams(m, gone)[1..], Success).0
      == if m.monitorId in ids && row.Some? then [Invocation(cb, row.value)] else []
  {
    var list := RenderedMonitors(ids, cb);
    var callback := CallbackFor(list, Decimal(m.monitorId));
    var ok := if callback.Some? then Success else Failed;
    var update := UpdateParams(m, gone)[1];
    assert UpdateParams(m, gone)[1..] == [update] && [update][1..] == [];
    FindMonitor(ids, cb, m.monitorId);
    CallbacksAre(ids, cb, m.monitorId);
    HandedFromUpdate(m, gone, ok);
    InvocationsAre(callback, HandedOf(update, ok).rows);
  }

  lemma {:induction false} CallbacksAre(ids: seq<nat>, cb: MonitorCallback, id: nat)
    ensures var f := FirstFor(RenderedMonitors(ids, cb), Decimal(id));
      f.Some? ==> RenderedMonitors(ids, cb)[f.value].callback == cb
  {
    if ids != [] {
      CallbacksAre(ids[1..], cb, id);
    }
  }

  lemma HandedFromUpdate(m: Message, gone: Members, ok: Status)
    requires !m.IsReply() && Fits(m) && NoneNew(gone)
    ensures HandedOf(UpdateParams(m, gone)[1], ok).rows == if HandedRow(m).Some? then [HandedRow(m).value] else []
  {
    KeysDiffer();
    match m
    case GatewayNew(_, uuid, row) => NewRowIsHandedOver(GATEWAY_CONFIG_NAME, uuid, row, ok);
    case FeedbackNew(_, uuid, reqUuid, status) =>
      NewRowIsHandedOver(FEEDBACK_NAME, uuid, FeedbackContent(reqUuid, status), ok);
    case RowsGone(_, _) => GoneRowsAreNotHandedOver(UpdatedTable(m), gone, ok, Failed);
  }

  /** What the Feedback callback reads in its row is what the agent reported. */
  lemma AnswerReadsBack(m: Message)
    requires m.FeedbackNew? && Fits(m)
    ensures HandedRow(m).value.Answer() == Feedback(m.reqUuid, StatusCode(m.status))
    ensures StatusOfCode(StatusCode(m.status)) == m.status
  {
    FeedbackRoundTrip(Feedback(m.reqUuid, StatusCode(m.status)));
  }

  // ----- Whole messages -----

  /** `rows` are what the code ignores in a reply, or the deleted rows of an update. */
  function WireOf(m: Message, rows: Members): Json {
    if m.IsReply() then JObject([("id", JString(Decimal(m.rid))), ("result", ResultOf(m, rows)), ("error", JNull)])
    else JObject([("id", JNull), ("method", JString("update")), ("params", JArray(UpdateParams(m, rows)))])
  }

  function HandledAs(m: Message, rows: Members): Handling {
    if m.IsReply() then Reply(Some(Decimal(m.rid)), Some(ResultOf(m, rows))) else Update(UpdateParams(m, rows))
  }

  /** The listener takes a message for a reply with its id and result, or for an update
      with its parameters. */
  lemma ClassifyWire(m: Message, rows: Members)
    ensures Classify(WireOf(m, rows)) == HandledAs(m, rows)
  {
    KeysDiffer();
    var ms := WireOf(m, rows).members;
    assert |"id"| == 2 && |"result"| == 6 && |"method"| == 6 && |"params"| == 6;
    LookupAt(ms, 0);
    LookupAt(ms, 1);
    LookupAt(ms, 2);
  }

  /** The messages of a channel, printed one behind the other into the received buffer,
      are dispatched one by one, in order, as what they are. */
  lemma ChannelIsDispatched(load: Loader, text: Json -> string, down: seq<Message>, rows: seq<Members>,
                            wires: seq<Json>,
                            outcome: Handling -> Status)
    requires Consumes(load) && ReadsBack(load, text, wires) && down != []
    requires |rows| == |wires| == |down| && forall i :: 0 <= i < |down| ==> wires[i] == WireOf(down[i], rows[i])
    ensures var d := Dispatches(load, Printed(text, wires), outcome);
      |d.handled| == |down| && forall i :: 0 <= i < |down| ==> d.handled[i] == HandledAs(down[i], rows[i])
  {
    forall i | 0 <= i < |down| ensures Classify(wires[i]) == HandledAs(down[i], rows[i]) {
      ClassifyWire(down[i], rows[i]);
    }
    ConcatenationIsDispatched(load, text, wires, outcome);
  }
}
