/** One connection to the database server: the id counter and receipt list of the
    process that owns it, and the two FIFO channels. Requests are registered in
    the receipt list before they are written to the socket. */
module Connection {
  import opened OvsTypes
  import opened Codec

  type Rid = nat
  // Row uuids as text; an entry that has no uuid yet holds the empty text.
  type Uuid = string
  const NO_UUID: Uuid := ""

  datatype ReceiptKind = InsertReceipt | MonitorReceipt | DeleteReceipt
  datatype ReceiptCallback = WriteCallback | DummyCallback
  datatype Receipt = Receipt(rid: Rid, kind: ReceiptKind, callback: ReceiptCallback)

  datatype Request =
    | InsertGateway(rid: Rid, row: Json)
    | InsertFeedback(rid: Rid, reqUuid: Uuid, status: Status)
    | DeleteGateway(rid: Rid, uuid: Uuid)
    | DeleteFeedback(rid: Rid, reqUuid: Uuid)
    | Monitor(rid: Rid, monitorId: nat, table: Table)
  {
    function Kind(): ReceiptKind {
      match this
      case InsertGateway(_, _) => InsertReceipt
      case InsertFeedback(_, _, _) => InsertReceipt
      case DeleteGateway(_, _) => DeleteReceipt
      case DeleteFeedback(_, _) => DeleteReceipt
      case Monitor(_, _, _) => MonitorReceipt
    }
  }

  datatype Message =
    | InsertReply(rid: Rid, uuid: Uuid)
    | DeleteReply(rid: Rid, count: nat)
    | MonitorReply(rid: Rid)
    | ErrorReply(rid: Rid)
    | GatewayNew(monitorId: nat, uuid: Uuid, row: Json)
    | FeedbackNew(monitorId: nat, uuid: Uuid, reqUuid: Uuid, status: Status)
    | RowsGone(monitorId: nat, table: Table)
  {
    predicate IsReply() {
      InsertReply? || DeleteReply? || MonitorReply? || ErrorReply?
    }

    /** `ovsdb_parse_result`: whether the parser of this receipt kind accepts the
        result. The monitor parser accepts anything; an error has neither a uuid
        nor a count. */
    predicate Parses(kind: ReceiptKind)
      requires IsReply()
    {
      match kind
      case InsertReceipt => InsertReply?
      case DeleteReceipt => DeleteReply?
      case MonitorReceipt => true
    }

    /** The replies the server gives to a request of this kind. */
    predicate Answers(kind: ReceiptKind)
      requires IsReply()
    {
      match kind
      case InsertReceipt => InsertReply? || ErrorReply?
      case DeleteReceipt => DeleteReply? || ErrorReply?
      case MonitorReceipt => MonitorReply?
    }
  }

  /** `stranded` is a history variable: the ids of receipts that no reply will
      ever remove, because the write failed or the result did not parse. */
  datatype Conn = Conn(
    nextId: Rid,
    receipts: seq<Receipt>,
    up: seq<Request>,
    down: seq<Message>,
    stranded: set<Rid>)

  // ----- The receipt list -----

  function Find(rs: seq<Receipt>, rid: Rid): (r: Option<nat>)
    ensures r.Some? ==> r.value < |rs| && rs[r.value].rid == rid
    ensures r.Some? ==> forall i :: 0 <= i < r.value ==> rs[i].rid != rid
    ensures r.None? ==> forall i :: 0 <= i < |rs| ==> rs[i].rid != rid
  {
    if rs == [] then None
    else if rs[0].rid == rid then Some(0)
    else match Find(rs[1..], rid)
      case None => None
      case Some(i) => Some(i + 1)
  }

  function RemoveAt<T>(s: seq<T>, i: nat): seq<T>
    requires i < |s|
  {
    s[..i] + s[i + 1..]
  }

  // ----- Steps of a connection -----

  /** `receipt_list_add` and then `ovsdb_socket_write`; `ok` says whether the
      write succeeded. */
  function Register(k: Conn, q: Request, cb: ReceiptCallback, ok: bool): Conn {
    k.(nextId := q.rid,
       receipts := k.receipts + [Receipt(q.rid, q.Kind(), cb)],
       up := if ok then k.up + [q] else k.up,
       stranded := if ok then k.stranded else k.stranded + {q.rid})
  }

  /** The server takes a pending request and answers it. */
  function Answer(k: Conn, at: nat, m: Message): Conn
    requires at < |k.up|
  {
    k.(up := RemoveAt(k.up, at), down := k.down + [m])
  }

  /** The server sends a monitor update. */
  function Push(k: Conn, m: Message): Conn {
    k.(down := k.down + [m])
  }

  /** The process takes the oldest message. A reply whose receipt is not removed
      afterwards leaves that receipt stranded. */
  function Pop(k: Conn): Conn
    requires k.down != []
  {
    k.(down := k.down[1..],
       stranded := if k.down[0].IsReply() then k.stranded + {k.down[0].rid} else k.stranded)
  }

  /** The receipt of a reply is removed once its callback has returned. */
  function Settle(k: Conn, rid: Rid): Conn {
    match Find(k.receipts, rid)
    case None => k
    case Some(i) => k.(receipts := RemoveAt(k.receipts, i), stranded := k.stranded - {rid})
  }

  // ----- Reply coverage -----

  predicate Listed(rs: seq<Receipt>, rid: Rid, kind: ReceiptKind) {
    exists i :: 0 <= i < |rs| && rs[i].rid == rid && rs[i].kind == kind
  }

  predicate RequestOut(k: Conn, rid: Rid) {
    exists i :: 0 <= i < |k.up| && k.up[i].rid == rid
  }

  predicate ReplyIn(k: Conn, rid: Rid) {
    exists i :: 0 <= i < |k.down| && k.down[i].IsReply() && k.down[i].rid == rid
  }

  /** Receipts and requests are in the order of their ids; the ids in flight are
      distinct. */
  ghost predicate Ordered(k: Conn) {
    && (forall i, j :: 0 <= i < j < |k.receipts| ==> k.receipts[i].rid < k.receipts[j].rid)
    && (forall i :: 0 <= i < |k.receipts| ==> k.receipts[i].rid <= k.nextId)
    && (forall i, j :: 0 <= i < j < |k.up| ==> k.up[i].rid < k.up[j].rid)
    && (forall i, j :: 0 <= i < j < |k.down| && k.down[i].IsReply() && k.down[j].IsReply() ==>
          k.down[i].rid != k.down[j].rid)
    && (forall i, j :: 0 <= i < |k.down| && 0 <= j < |k.up| && k.down[i].IsReply() ==>
          k.down[i].rid != k.up[j].rid)
  }

  /** What is in flight has a receipt, which is not stranded. */
  ghost predicate InFlightListed(k: Conn) {
    && (forall i :: 0 <= i < |k.up| ==>
          Listed(k.receipts, k.up[i].rid, k.up[i].Kind()) && k.up[i].rid !in k.stranded)
    && (forall i :: 0 <= i < |k.down| && k.down[i].IsReply() ==>
          (exists kind :: Listed(k.receipts, k.down[i].rid, kind) && k.down[i].Answers(kind))
          && k.down[i].rid !in k.stranded)
  }

  /** Every receipt is of something in flight, or stranded. */
  ghost predicate ReceiptsExplained(k: Conn) {
    && (forall i :: 0 <= i < |k.receipts| ==>
          k.receipts[i].rid in k.stranded || RequestOut(k, k.receipts[i].rid)
          || ReplyIn(k, k.receipts[i].rid))
    && (forall rid :: rid in k.stranded ==> exists kind :: Listed(k.receipts, rid, kind))
  }

  ghost predicate Covered(k: Conn) {
    InFlightListed(k) && ReceiptsExplained(k)
  }

  /** Every request or reply in flight has exactly one receipt, of its own kind,
      and every other receipt is stranded. */
  ghost predicate Sound(k: Conn) {
    Ordered(k) && Covered(k)
  }

  lemma RegisterKeeps(k: Conn, q: Request, cb: ReceiptCallback, ok: bool)
    requires Sound(k) && k.nextId < q.rid
    ensures Sound(Register(k, q, cb, ok))
  {
    InFlightIsListed(k);
    assert Ordered(Register(k, q, cb, ok));
    RegisterKeepsCover(k, q, cb, ok);
  }

  lemma RegisterKeepsCover(k: Conn, q: Request, cb: ReceiptCallback, ok: bool)
    requires Sound(k) && k.nextId < q.rid
    ensures Covered(Register(k, q, cb, ok))
  {
    RegisterListsInFlight(k, q, cb, ok);
    RegisterExplains(k, q, cb, ok);
  }

  lemma RegisterListsInFlight(k: Conn, q: Request, cb: ReceiptCallback, ok: bool)
    requires Sound(k) && k.nextId < q.rid
    ensures InFlightListed(Register(k, q, cb, ok))
  {
    var k' := Register(k, q, cb, ok);
    InFlightIsListed(k);
    ListedGrows(k.receipts, Receipt(q.rid, q.Kind(), cb));
    assert k'.receipts[|k.receipts|] == Receipt(q.rid, q.Kind(), cb);
    assert Listed(k'.receipts, q.rid, q.Kind());
    assert q.rid !in k.stranded;
  }

  lemma RegisterExplains(k: Conn, q: Request, cb: ReceiptCallback, ok: bool)
    requires Sound(k) && k.nextId < q.rid
    ensures ReceiptsExplained(Register(k, q, cb, ok))
  {
    var k' := Register(k, q, cb, ok);
    ListedGrows(k.receipts, Receipt(q.rid, q.Kind(), cb));
    assert k'.receipts[|k.receipts|] == Receipt(q.rid, q.Kind(), cb);
    assert Listed(k'.receipts, q.rid, q.Kind());
    forall i | 0 <= i < |k'.receipts|
      ensures k'.receipts[i].rid in k'.stranded || RequestOut(k', k'.receipts[i].rid) || ReplyIn(k', k'.receipts[i].rid)
    {
      ReceiptStaysCovered(k, q, cb, ok, i);
    }
  }

  lemma ReceiptStaysCovered(k: Conn, q: Request, cb: ReceiptCallback, ok: bool, i: nat)
    requires Covered(k) && i < |Register(k, q, cb, ok).receipts|
    ensures var k' := Register(k, q, cb, ok); var rid := k'.receipts[i].rid;
      rid in k'.stranded || RequestOut(k', rid) || ReplyIn(k', rid)
  {
    var k' := Register(k, q, cb, ok);
    if i == |k.receipts| {
      if ok { assert k'.up[|k.up|] == q; }
    } else {
      var rid := k.receipts[i].rid;
      if RequestOut(k, rid) {
        var j :| 0 <= j < |k.up| && k.up[j].rid == rid;
        assert k'.up[j].rid == rid;
      }
    }
  }

  lemma ListedGrows(rs: seq<Receipt>, r: Receipt)
    ensures forall rid, kind :: Listed(rs, rid, kind) ==> Listed(rs + [r], rid, kind)
  {
    forall rid, kind | Listed(rs, rid, kind) ensures Listed(rs + [r], rid, kind) {
      var i :| 0 <= i < |rs| && rs[i].rid == rid && rs[i].kind == kind;
      assert (rs + [r])[i] == rs[i];
    }
  }

  /** Ids in flight are at most the counter. */
  lemma InFlightIsListed(k: Conn)
    requires Sound(k)
    ensures forall i :: 0 <= i < |k.up| ==> k.up[i].rid <= k.nextId
    ensures forall i :: 0 <= i < |k.down| && k.down[i].IsReply() ==> k.down[i].rid <= k.nextId
    ensures forall rid :: rid in k.stranded ==> rid <= k.nextId
  {
  }

  /** Whichever request is answered, the matching is kept. */
  lemma AnswerKeeps(k: Conn, at: nat, m: Message)
    requires Sound(k) && at < |k.up|
    requires m.IsReply() && m.rid == k.up[at].rid && m.Answers(k.up[at].Kind())
    ensures Sound(Answer(k, at, m))
  {
    AnswerKeepsOrder(k, at, m);
    AnswerKeepsCover(k, at, m);
  }

  lemma RestOf<T>(s: seq<T>, at: nat)
    requires at < |s|
    ensures |RemoveAt(s, at)| == |s| - 1
    ensures forall j :: 0 <= j < |s| - 1 ==> RemoveAt(s, at)[j] == s[if j < at then j else j + 1]
  {
  }

  lemma AnswerKeepsOrder(k: Conn, at: nat, m: Message)
    requires Ordered(k) && at < |k.up| && m.IsReply() && m.rid == k.up[at].rid
    ensures Ordered(Answer(k, at, m))
  {
    RestOf(k.up, at);
  }

  lemma AnswerKeepsCover(k: Conn, at: nat, m: Message)
    requires Sound(k) && at < |k.up|
    requires m.IsReply() && m.rid == k.up[at].rid && m.Answers(k.up[at].Kind())
    ensures Covered(Answer(k, at, m))
  {
    AnswerListsInFlight(k, at, m);
    forall i | 0 <= i < |k.receipts|
      ensures var k', rid := Answer(k, at, m), k.receipts[i].rid;
        rid in k'.stranded || RequestOut(k', rid) || ReplyIn(k', rid)
    {
      AnswerExplains(k, at, m, k.receipts[i].rid);
    }
  }

  lemma AnswerListsInFlight(k: Conn, at: nat, m: Message)
    requires Sound(k) && at < |k.up|
    requires m.IsReply() && m.rid == k.up[at].rid && m.Answers(k.up[at].Kind())
    ensures InFlightListed(Answer(k, at, m))
  {
    var k' := Answer(k, at, m);
    RestOf(k.up, at);
    assert Listed(k'.receipts, m.rid, k.up[at].Kind());
    assert k'.down[|k.down|] == m;
  }

  lemma AnswerExplains(k: Conn, at: nat, m: Message, rid: Rid)
    requires at < |k.up| && m.IsReply() && m.rid == k.up[at].rid
    requires rid in k.stranded || RequestOut(k, rid) || ReplyIn(k, rid)
    ensures var k' := Answer(k, at, m); rid in k'.stranded || RequestOut(k', rid) || ReplyIn(k', rid)
  {
    var k' := Answer(k, at, m);
    RestOf(k.up, at);
    assert k'.down[|k.down|] == m;
    if RequestOut(k, rid) {
      var j :| 0 <= j < |k.up| && k.up[j].rid == rid;
      if j != at { assert k'.up[if j < at then j else j - 1].rid == rid; }
    } else if ReplyIn(k, rid) {
      ReplyStays(k, m, rid);
    }
  }

  lemma ReplyStays(k: Conn, m: Message, rid: Rid)
    requires ReplyIn(k, rid)
    ensures ReplyIn(Push(k, m), rid)
  {
    var j :| 0 <= j < |k.down| && k.down[j].IsReply() && k.down[j].rid == rid;
    assert Push(k, m).down[j] == k.down[j];
  }

  lemma PushKeeps(k: Conn, m: Message)
    requires Sound(k) && !m.IsReply()
    ensures Sound(Push(k, m))
  {
    forall i | 0 <= i < |k.receipts|
      ensures k.receipts[i].rid in k.stranded || RequestOut(Push(k, m), k.receipts[i].rid)
              || ReplyIn(Push(k, m), k.receipts[i].rid)
    {
      var rid := k.receipts[i].rid;
      if ReplyIn(k, rid) { ReplyStays(k, m, rid); }
      assert RequestOut(k, rid) ==> RequestOut(Push(k, m), rid);
    }
  }

  lemma PopKeeps(k: Conn)
    requires Sound(k) && k.down != []
    ensures Sound(Pop(k))
    ensures k.down[0].IsReply() ==>
      exists kind :: Listed(k.receipts, k.down[0].rid, kind) && k.down[0].Answers(kind)
  {
    var k' := Pop(k);
    forall i | 0 <= i < |k.receipts|
      ensures k.receipts[i].rid in k'.stranded || RequestOut(k', k.receipts[i].rid) || ReplyIn(k', k.receipts[i].rid)
    {
      var rid := k.receipts[i].rid;
      if ReplyIn(k, rid) {
        var j :| 0 <= j < |k.down| && k.down[j].IsReply() && k.down[j].rid == rid;
        if j > 0 { assert k'.down[j - 1] == k.down[j]; }
      }
      assert RequestOut(k, rid) ==> RequestOut(k', rid);
    }
  }

  lemma SettleKeeps(k: Conn, rid: Rid)
    requires Sound(k) && rid in k.stranded
    ensures Sound(Settle(k, rid))
  {
    var f := Find(k.receipts, rid);
    if f.Some? {
      var i := f.value;
      var k' := Settle(k, rid);
      RemovalShifts(k.receipts, i);
      RemovalKeepsOthers(k.receipts, i);
      assert Ordered(k');
      forall j | 0 <= j < |k'.receipts|
        ensures k'.receipts[j].rid in k'.stranded || RequestOut(k', k'.receipts[j].rid)
                || ReplyIn(k', k'.receipts[j].rid)
      {
        var r := k'.receipts[j].rid;
        assert r != rid && (r in k.stranded || RequestOut(k, r) || ReplyIn(k, r));
        assert RequestOut(k, r) ==> RequestOut(k', r);
        assert ReplyIn(k, r) ==> ReplyIn(k', r);
      }
      forall j | 0 <= j < |k'.down| && k'.down[j].IsReply()
        ensures exists kind :: Listed(k'.receipts, k'.down[j].rid, kind) && k'.down[j].Answers(kind)
      {
        var kind :| Listed(k.receipts, k.down[j].rid, kind) && k.down[j].Answers(kind);
        assert Listed(k'.receipts, k'.down[j].rid, kind);
      }
      assert Covered(k');
    }
  }

  /** Removing a receipt shifts the later ones down, and leaves no other receipt
      with its id. */
  lemma RemovalShifts(rs: seq<Receipt>, i: nat)
    requires i < |rs|
    requires forall a, b :: 0 <= a < b < |rs| ==> rs[a].rid < rs[b].rid
    ensures |RemoveAt(rs, i)| == |rs| - 1
    ensures forall j :: 0 <= j < |rs| - 1 ==> RemoveAt(rs, i)[j] == rs[if j < i then j else j + 1]
    ensures forall j :: 0 <= j < |rs| - 1 ==> RemoveAt(rs, i)[j].rid != rs[i].rid
    ensures forall a, b :: 0 <= a < b < |rs| - 1 ==> RemoveAt(rs, i)[a].rid < RemoveAt(rs, i)[b].rid
  {
  }

  lemma RemovalKeepsOthers(rs: seq<Receipt>, i: nat)
    requires i < |rs|
    ensures forall rid, kind :: rid != rs[i].rid && Listed(rs, rid, kind) ==> Listed(RemoveAt(rs, i), rid, kind)
  {
    forall rid, kind | rid != rs[i].rid && Listed(rs, rid, kind)
      ensures Listed(RemoveAt(rs, i), rid, kind)
    {
      var a :| 0 <= a < |rs| && rs[a].rid == rid && rs[a].kind == kind;
      assert RemoveAt(rs, i)[if a < i then a else a - 1] == rs[a];
    }
  }
}
