/** How the protocol's ids, receipts and replies appear in the C structures: ids as
    decimal text, receipts as list entries, replies as JSON results. */
module Rendering {
  import opened OvsTypes
  import opened Codec
  import opened Connection
  import opened TransactionTable
  import opened Peers
  import opened RequestIds
  import opened ReceiptList
  import opened MonitorList

  /** The callback of the clients' monitors, and that of the agent's. */
  datatype MonitorCallback = FeedbackCallback | GatewayCallback

  function KindOf(kind: ReceiptKind): ResultKind {
    match kind
    case InsertReceipt => InsertResult
    case MonitorReceipt => MonitorResult
    case DeleteReceipt => DeleteResult
  }

  /** A receipt as the list stores it. */
  function Stored(r: Receipt): Pending<ReceiptCallback> {
    Pending(Decimal(r.rid), KindOf(r.kind), r.callback)
  }

  function Rendered(rs: seq<Receipt>): (list: seq<Pending<ReceiptCallback>>)
    ensures |list| == |rs|
  {
    if rs == [] then [] else [Stored(rs[0])] + Rendered(rs[1..])
  }

  function RenderedMonitors(ids: seq<nat>, cb: MonitorCallback): (list: seq<Registration<MonitorCallback>>)
    ensures |list| == |ids|
  {
    if ids == [] then [] else [Registration(Decimal(ids[0]), cb)] + RenderedMonitors(ids[1..], cb)
  }

  lemma {:induction false} RenderedAppend(rs: seq<Receipt>, r: Receipt)
    ensures Rendered(rs + [r]) == Rendered(rs) + [Stored(r)]
  {
    if rs != [] {
      assert (rs + [r])[1..] == rs[1..] + [r];
      RenderedAppend(rs[1..], r);
    }
  }

  lemma {:induction false} RenderedMonitorsAppend(ids: seq<nat>, cb: MonitorCallback, id: nat)
    ensures RenderedMonitors(ids + [id], cb) == RenderedMonitors(ids, cb) + [Registration(Decimal(id), cb)]
  {
    if ids != [] {
      assert (ids + [id])[1..] == ids[1..] + [id];
      RenderedMonitorsAppend(ids[1..], cb, id);
    }
  }

  lemma {:induction false} RenderedWithout(rs: seq<Receipt>, i: nat)
    requires i < |rs|
    ensures Rendered(RemoveAt(rs, i)) == Without(Rendered(rs), i)
  {
    if i == 0 {
      assert RemoveAt(rs, i) == rs[1..];
    } else {
      assert RemoveAt(rs, i)[1..] == RemoveAt(rs[1..], i - 1);
      RenderedWithout(rs[1..], i - 1);
    }
  }

  /** The result member of a reply on the wire. `ignored` is what the code does not look
      at: the initial rows in the reply to a monitor request (RFC 7047, section 4.1.5),
      or the error behind the outcome of an operation whose commit failed (section
      4.1.3). */
  function ResultOf(m: Message, ignored: Members): Json
    requires m.IsReply()
  {
    match m
    case InsertReply(_, uuid) => if ignored == [] then InsertOk(uuid) else Behind(InsertOk(uuid), JObject(ignored))
    case DeleteReply(_, count) => if ignored == [] then DeleteOk(count) else Behind(DeleteOk(count), JObject(ignored))
    case MonitorReply(_) => JObject(ignored)
    case ErrorReply(_) => Refusal("error")
  }

  /** Looking up the text of an id among the stored receipts finds what looking up
      the id finds. */
  lemma {:induction false} FindRendered(rs: seq<Receipt>, rid: Rid)
    ensures FirstMatch(Rendered(rs), Decimal(rid)) == Find(rs, rid)
    ensures Find(rs, rid).Some? ==> Rendered(rs)[Find(rs, rid).value] == Stored(rs[Find(rs, rid).value])
  {
    if rs != [] {
      DecimalInjective(rs[0].rid, rid);
      FindRendered(rs[1..], rid);
    }
  }

  lemma {:induction false} FindMonitor(ids: seq<nat>, cb: MonitorCallback, id: nat)
    ensures FirstFor(RenderedMonitors(ids, cb), Decimal(id)).Some? <==> id in ids
  {
    if ids != [] {
      DecimalInjective(ids[0], id);
      FindMonitor(ids[1..], cb, id);
      assert id in ids <==> id == ids[0] || id in ids[1..];
    }
  }

  /** The parser of a receipt's kind accepts a reply's result exactly when the
      protocol says so. */
  lemma ParsesAgree(m: Message, ignored: Members, kind: ReceiptKind)
    requires m.IsReply() && (m.DeleteReply? ==> IsInt32(m.count))
    ensures ParseResult(KindOf(kind), Some(ResultOf(m, ignored))).Some? <==> m.Parses(kind)
    ensures kind.InsertReceipt? && m.InsertReply? ==>
      ParseResult(KindOf(kind), Some(ResultOf(m, ignored))) == Some(InsertedRow(m.uuid))
  {
    var uuid, count := if m.InsertReply? then m.uuid else "", if m.DeleteReply? then m.count else 0;
    ResultsReadBack(uuid, count, "error");
    FailedCommitReadsAsSuccess(uuid, count, JObject(ignored));
  }

  /** The list finds and dispatches a reply as the protocol does. */
  lemma DispatchAgrees(rs: seq<Receipt>, m: Message, ignored: Members)
    requires m.IsReply() && (m.DeleteReply? ==> IsInt32(m.count))
    ensures var d := Dispatched(Rendered(rs), Decimal(m.rid), Some(ResultOf(m, ignored))); var f := Find(rs, m.rid);
      && (d.Some? <==> f.Some? && m.Parses(rs[f.value].kind))
      && (d.Some? ==>
            && d.value.at == f.value && d.value.callback == rs[f.value].callback
            && (d.value.parsed.InsertedRow? <==> rs[f.value].kind.InsertReceipt?)
            && (rs[f.value].kind.InsertReceipt? ==> d.value.parsed == InsertedRow(m.uuid)))
  {
    FindRendered(rs, m.rid);
    var f := Find(rs, m.rid);
    if f.Some? {
      ParsesAgree(m, ignored, rs[f.value].kind);
    }
  }

  // ----- A reply, part by part -----

  /** The write callback runs for reply m. */
  predicate Writes(rs: seq<Receipt>, m: Message)
    requires m.IsReply()
  {
    var f := Find(rs, m.rid);
    f.Some? && m.InsertReply? && rs[f.value].callback.WriteCallback? && rs[f.value].kind.InsertReceipt?
  }

  /** The uuid the write callback is given for reply m, if it runs; and the one that
      an invocation of a receipt's callback gives it. */
  function Written(rs: seq<Receipt>, m: Message): Option<Uuid>
    requires m.IsReply()
  {
    if Writes(rs, m) then Some(m.uuid) else None
  }

  function GivenUuid(called: Option<(ReceiptCallback, Parsed)>): Option<Uuid> {
    if called.Some? && called.value.0.WriteCallback? && called.value.1.InsertedRow?
    then Some(called.value.1.uuid) else None
  }

  /** What a write callback adds to the receipts, if it goes on to watch the Feedback
      table while the counter is at id, what becomes of the monitors, and what is
      written. */
  function WatchReceipts(watches: bool, id: nat): seq<Receipt> {
    if watches then [Receipt(id + 2, MonitorReceipt, DummyCallback)] else []
  }

  function WatchedIds(ids: seq<nat>, id: nat, sent: bool): seq<nat> {
    if sent then ids + [id] else DropMonitor(ids + [id], id)
  }

  function MonitorsAfter(watches: bool, ids: seq<nat>, id: nat, sent: bool): seq<nat> {
    if watches then WatchedIds(ids, id + 1, sent) else ids
  }

  function WatchSends(watches: bool, id: nat, sent: bool): seq<Request> {
    if watches && sent then [Monitor(id + 2, id + 1, FeedbackTable)] else []
  }

  /** The receipt list after reply m, whose callback registered `added`. */
  function AfterReply(rs: seq<Receipt>, m: Message, added: seq<Receipt>): seq<Receipt>
    requires m.IsReply()
  {
    var f := Find(rs, m.rid);
    if f.Some? && m.Parses(rs[f.value].kind) then RemoveAt(rs, f.value) + added else rs
  }

  /** The entries that an invoked callback adds to the list. */
  function Added(called: (ReceiptCallback, Parsed), watch: bool, id: nat): seq<Pending<ReceiptCallback>> {
    Rendered(WatchReceipts(GivenUuid(Some(called)).Some? && watch, id))
  }

  lemma AddedFits(called: (ReceiptCallback, Parsed), watch: bool, id: nat)
    requires id + 2 < ID_SPACE
    ensures forall a :: a in Added(called, watch, id) ==> |a.rid| <= MAX_UUID_LEN
  {
    DecimalFits(id + 2);
  }

  /** The invocation that a reply leads to. */
  function CalledFor(rs: seq<Receipt>, m: Message, ignored: Members): Option<(ReceiptCallback, Parsed)>
    requires m.IsReply()
  {
    match Dispatched(Rendered(rs), Decimal(m.rid), Some(ResultOf(m, ignored)))
    case None => None
    case Some(d) => Some((d.callback, d.parsed))
  }

  /** Dispatching a reply gives the write callback the uuid it should, and leaves the
      list that renders the receipts after it. */
  lemma AfterReplyRendered(rs: seq<Receipt>, m: Message, ignored: Members, watch: bool, id: nat)
    requires m.IsReply() && (m.DeleteReply? ==> IsInt32(m.count))
    ensures var d := Dispatched(Rendered(rs), Decimal(m.rid), Some(ResultOf(m, ignored)));
      var called := CalledFor(rs, m, ignored);
      && Written(rs, m) == GivenUuid(called)
      && Rendered(AfterReply(rs, m, WatchReceipts(GivenUuid(called).Some? && watch, id)))
         == (if d.None? then Rendered(rs) else Without(Rendered(rs), d.value.at) + Added(called.value, watch, id))
  {
    DispatchAgrees(rs, m, ignored);
    var f := Find(rs, m.rid);
    if f.Some? {
      RenderedWithout(rs, f.value);
      RenderedAppend(RemoveAt(rs, f.value), Receipt(id + 2, MonitorReceipt, DummyCallback));
      assert RemoveAt(rs, f.value) + [] == RemoveAt(rs, f.value);
    }
  }

  lemma {:induction false} FindAppended(rs: seq<Receipt>, r: Receipt, rid: Rid)
    requires Find(rs, rid).Some?
    ensures Find(rs + [r], rid) == Find(rs, rid)
  {
    assert (rs + [r])[0] == rs[0];
    if rs[0].rid != rid {
      assert (rs + [r])[1..] == rs[1..] + [r];
      FindAppended(rs[1..], r, rid);
    }
  }

  lemma RemoveFromAppended(rs: seq<Receipt>, r: Receipt, i: nat)
    requires i < |rs|
    ensures RemoveAt(rs + [r], i) == RemoveAt(rs, i) + [r]
  {
  }

  /** The write callback, if it runs, goes on to watch the Feedback table. */
  predicate WouldWatch(cl: Client, rid: Rid) {
    cl.table[Key(rid)].Some? && !cl.watching
  }

  lemma OnInsertedParts(cl: Client, rid: Rid, uuid: Uuid, sent: bool)
    ensures var cl' := OnInserted(cl, rid, uuid, sent); var id := cl.conn.nextId; var watches := WouldWatch(cl, rid);
      && cl'.table == Updated(cl.table, rid, uuid)
      && cl'.conn.receipts == cl.conn.receipts + WatchReceipts(watches, id)
      && cl'.conn.nextId == (if watches then id + 2 else id)
      && cl'.monitors == MonitorsAfter(watches, cl.monitors, id, sent)
      && cl'.watching == (if watches then sent else cl.watching)
      && cl'.conn.up == cl.conn.up + WatchSends(watches, id, sent)
  {
  }

  /** Taking reply m moves a client from cl to cl', part by part. */
  predicate MovedByReply(cl: Client, cl': Client, m: Message, sent: bool)
    requires m.IsReply()
  {
    var rs := cl.conn.receipts;
    var id := cl.conn.nextId;
    var watches := Writes(rs, m) && WouldWatch(cl, m.rid);
    && cl'.table == (if Writes(rs, m) then Updated(cl.table, m.rid, m.uuid) else cl.table)
    && cl'.conn.receipts == AfterReply(rs, m, WatchReceipts(watches, id))
    && cl'.conn.nextId == (if watches then id + 2 else id)
    && cl'.monitors == MonitorsAfter(watches, cl.monitors, id, sent)
    && cl'.watching == (if watches then sent else cl.watching)
    && cl'.conn.up == cl.conn.up + WatchSends(watches, id, sent)
  }

  /** What the protocol's step does with a reply, in terms of the parts. */
  lemma OnReplyParts(cl: Client, sent: bool)
    requires cl.conn.down != [] && cl.conn.down[0].IsReply()
    ensures MovedByReply(cl, OnReply(cl, sent), cl.conn.down[0], sent)
  {
    var m := cl.conn.down[0];
    var rs := cl.conn.receipts;
    if Writes(rs, m) {
      var request := Receipt(cl.conn.nextId + 2, MonitorReceipt, DummyCallback);
      var cl1 := cl.(conn := Pop(cl.conn));
      var cl2 := OnInserted(cl1, m.rid, m.uuid, sent);
      assert OnReply(cl, sent) == cl2.(conn := Settle(cl2.conn, m.rid));
      OnInsertedParts(cl1, m.rid, m.uuid, sent);
      FindAppended(rs, request, m.rid);
      RemoveFromAppended(rs, request, Find(rs, m.rid).value);
    }
  }

  // ----- The two deletions, part by part -----

  function DeleteSends(id: nat, uuid: Uuid, sentGateway: bool, sentFeedback: bool): seq<Request> {
    if !sentGateway then []
    else if !sentFeedback then [DeleteGateway(id + 1, uuid)]
    else [DeleteGateway(id + 1, uuid), DeleteFeedback(id + 2, uuid)]
  }

  function DeleteReceipts(id: nat, sentGateway: bool): seq<Receipt> {
    if sentGateway then [Receipt(id + 1, DeleteReceipt, DummyCallback), Receipt(id + 2, DeleteReceipt, DummyCallback)]
    else [Receipt(id + 1, DeleteReceipt, DummyCallback)]
  }

  /** The first request and then the second make the two together. */
  lemma DeletePartsJoin(rs: seq<Receipt>, sent: seq<Request>, id: nat, uuid: Uuid, sentGateway: bool,
                        sentFeedback: bool)
    ensures var rs1 := rs + [Receipt(id + 1, DeleteReceipt, DummyCallback)];
      && rs + DeleteReceipts(id, false) == rs1
      && rs + DeleteReceipts(id, true) == rs1 + [Receipt(id + 2, DeleteReceipt, DummyCallback)]
    ensures sent + DeleteSends(id, uuid, false, sentFeedback) == sent + []
    ensures sent + DeleteSends(id, uuid, true, sentFeedback)
            == sent + [DeleteGateway(id + 1, uuid)] + (if sentFeedback then [DeleteFeedback(id + 2, uuid)] else [])
  {
  }

  lemma CleanupParts(k: Conn, uuid: Uuid, sentGateway: bool, sentFeedback: bool)
    ensures var k' := CleanupSends(k, uuid, sentGateway, sentFeedback);
      && k'.receipts == k.receipts + DeleteReceipts(k.nextId, sentGateway)
      && k'.nextId == (if sentGateway then k.nextId + 2 else k.nextId + 1)
      && k'.up == k.up + DeleteSends(k.nextId, uuid, sentGateway, sentFeedback)
  {
  }
}
