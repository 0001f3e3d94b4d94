/** The messages sent to the database server, built member by member, and what a
    server that reads them by RFC 7047 (sections 4.1.3, 4.1.5, 5.2.1 and 5.2.5) takes
    them for. */
module Messages {
  import opened OvsTypes
  import opened Codec
  import opened Connection
  import opened RequestIds

  // ----- Reading a message, as the server does -----

  datatype Wire =
    | Insert(id: string, table: string, row: Json)
    | Delete(id: string, table: string, column: string, value: Json)
    | Watch(id: string, monitorId: string, table: string)

  function ReadMessage(msg: Json): Option<Wire> {
    match (Get(msg, "id"), Get(msg, "method"), Get(msg, "params"))
    case (Some(JString(id)), Some(JString(name)), Some(JArray(params))) =>
      if params == [] || params[0] != JString(DATABASE) then None
      else if name == "transact" && |params| == 2 then ReadOperation(id, params[1])
      else if name == "monitor" && |params| == 3 then ReadMonitor(id, params[1], params[2])
      else None
    case _ => None
  }

  function ReadMonitor(id: string, monitorId: Json, tables: Json): Option<Wire> {
    match (monitorId, tables)
    case (JString(text), JObject(members)) =>
      if |members| == 1 then Some(Watch(id, text, members[0].0)) else None
    case _ => None
  }

  function ReadOperation(id: string, op: Json): Option<Wire> {
    match (Get(op, "op"), Get(op, "table"))
    case (Some(JString(name)), Some(JString(table))) =>
      if name == "insert" then
        match Get(op, "row")
        case Some(row) => Some(Insert(id, table, row))
        case None => None
      else if name == "delete" then ReadCondition(id, table, Get(op, "where"))
      else None
    case _ => None
  }

  /** A delete selects the rows whose column equals the value. */
  function ReadCondition(id: string, table: string, where_: Option<Json>): Option<Wire> {
    match where_
    case Some(JArray(conditions)) =>
      if |conditions| != 1 then None
      else
        (match conditions[0]
         case JArray(c) =>
           if |c| == 3 && c[0].JString? && c[1] == JString("==") then Some(Delete(id, table, c[0].text, c[2])) else None
         case _ => None)
    case _ => None
  }

  // ----- What is meant -----

  function TableName(table: Table): Option<string> {
    match table
    case GatewayConfigTable => Some(GATEWAY_CONFIG_NAME)
    case FeedbackTable => Some(FEEDBACK_NAME)
    case NotifyTable => None
    case LogbookTable => None
  }

  /** The integer of a status. */
  function StatusCode(status: Status): int {
    match status
    case Success => 0
    case Unknown => 1
    case Failed => 2
    case TimedOut => 3
    case TimedWaitError => 4
  }

  /** The status of an integer; the agent sends no other ones. */
  function StatusOfCode(code: int): Status {
    if code == 0 then Success
    else if code == 2 then Failed
    else if code == 3 then TimedOut
    else if code == 4 then TimedWaitError
    else Unknown
  }

  function UuidValue(uuid: string): Json {
    JArray([JString("uuid"), JString(uuid)])
  }

  /** What the server is to take a request of the protocol for; only the two tables
      in use have requests. */
  function Meant(q: Request): Option<Wire> {
    var id := Decimal(q.rid);
    match q
    case InsertGateway(_, row) => Some(Insert(id, GATEWAY_CONFIG_NAME, row))
    case InsertFeedback(_, reqUuid, status) =>
      Some(Insert(id, FEEDBACK_NAME, EncodeFeedback(Feedback(reqUuid, StatusCode(status)))))
    case DeleteGateway(_, uuid) => Some(Delete(id, GATEWAY_CONFIG_NAME, "_uuid", UuidValue(uuid)))
    case DeleteFeedback(_, reqUuid) => Some(Delete(id, FEEDBACK_NAME, "req_uuid", JString(reqUuid)))
    case Monitor(_, monitorId, table) =>
      match TableName(table)
      case None => None
      case Some(name) => Some(Watch(id, Decimal(monitorId), name))
  }

  /** Monitor requests are for one of the two tables in use. */
  predicate InUse(q: Request) {
    q.Monitor? ==> q.table == GatewayConfigTable || q.table == FeedbackTable
  }

  lemma KeysDiffer()
    ensures "id" != "method" && "id" != "params" && "method" != "params"
    ensures "op" != "table" && "op" != "row" && "op" != "where" && "table" != "row" && "table" != "where"
    ensures "transact" != "monitor" && "insert" != "delete" && "_uuid" != "uuid" && "req_uuid" != "_uuid"
    ensures "req_uuid" != "uuid"
    ensures GATEWAY_CONFIG_NAME != FEEDBACK_NAME
  {
    assert |"id"| == 2 && |"method"| == 6 && |"params"| == 6 && "method"[0] != "params"[0];
    assert |"op"| == 2 && |"table"| == 5 && |"row"| == 3 && |"where"| == 5 && "table"[0] != "where"[0];
    assert |"transact"| == 8 && |"monitor"| == 7 && "insert"[0] != "delete"[0];
    assert |"_uuid"| == 5 && |"uuid"| == 4 && |"req_uuid"| == 8;
    assert |GATEWAY_CONFIG_NAME| == 14 && |FEEDBACK_NAME| == 8;
  }

  /** No two requests of the protocol are taken for the same thing. */
  lemma MeantIsInjective(q: Request, r: Request)
    requires Meant(q).Some? && Meant(q) == Meant(r)
    ensures q == r
  {
    KeysDiffer();
    DecimalInjective(q.rid, r.rid);
    if q.Monitor? {
      DecimalInjective(q.monitorId, r.monitorId);
    } else if q.InsertFeedback? {
      assert EncodeFeedback(Feedback(q.reqUuid, StatusCode(q.status))).members[1].1 == JInt(StatusCode(q.status));
    }
  }

  // ----- Building -----

  lemma ReadTransact(ms: Members, id: string, operation: Json)
    requires Lookup(ms, "id") == Some(JString(id)) && Lookup(ms, "method") == Some(JString("transact"))
    requires Lookup(ms, "params") == Some(JArray([JString(DATABASE), operation]))
    ensures ReadMessage(JObject(ms)) == ReadOperation(id, operation)
  {
  }

  class JsonObject {
    var members: Members

    constructor ()
      ensures members == []
    {
      members := [];
    }

    /** `json_object_set_new`. */
    method Set(key: string, value: Json)
      modifies this
      ensures members == Put(old(members), key, value)
      ensures forall k :: Lookup(members, k) == if k == key then Some(value) else Lookup(old(members), k)
    {
      members := Put(members, key, value);
      forall k ensures Lookup(members, k) == if k == key then Some(value) else Lookup(old(members), k) {
        PutThenLookup(old(members), key, value, k);
      }
    }
  }

  class JsonArray {
    var items: seq<Json>

    constructor ()
      ensures items == []
    {
      items := [];
    }

    /** `json_array_append_new`. */
    method Append(item: Json)
      modifies this
      ensures items == old(items) + [item]
    {
      items := items + [item];
    }
  }

  /** Sets the next column of a row. */
  method SetColumn(row: JsonObject, key: string, value: Json, ghost config: GatewayConfig, ghost i: nat)
    requires i < 12 && row.members == GatewayMembers(config)[..i] && GatewayMembers(config)[i] == (key, value)
    modifies row
    ensures row.members == GatewayMembers(config)[..i + 1]
  {
    GatewayKeysDistinct(config);
    PutIsAppend(row.members, key, value);
    row.Set(key, value);
  }

  /** The row of `gc_insert_to_json`, set column by column. */
  method BuildGatewayRow(config: GatewayConfig) returns (json: Json)
    ensures json == EncodeGateway(config)
  {
    var row := new JsonObject();
    SetColumn(row, "gre_ifname", JString("null"), config, 0);
    SetColumn(row, "if_name", JString(config.ifName), config, 1);
    SetColumn(row, "if_type", JInt(config.ifType), config, 2);
    SetColumn(row, "if_cmd", JInt(config.ifCmd), config, 3);
    SetColumn(row, "inet_addr", JString(config.inetAddr), config, 4);
    SetColumn(row, "netmask", JString(config.netmask), config, 5);
    SetColumn(row, "gre_remote_inet_addr", JString(config.greRemoteInetAddr), config, 6);
    SetColumn(row, "gre_local_inet_addr", JString(config.greLocalInetAddr), config, 7);
    SetColumn(row, "parent_ifname", JString(config.parentIfname), config, 8);
    SetColumn(row, "mtu", JInt(config.mtu), config, 9);
    SetColumn(row, "parent_bridge", JString(config.parentBridge), config, 10);
    SetColumn(row, "vlan_id", JInt(config.vlanId), config, 11);
    return JObject(row.members);
  }

  /** The row of `fb_insert_to_json`. */
  method BuildFeedbackRow(f: Feedback) returns (json: Json)
    ensures json == EncodeFeedback(f)
  {
    assert |"req_uuid"| == 8 && |"status"| == 6;
    var row := new JsonObject();
    row.Set("req_uuid", JString(f.reqUuid));
    row.Set("status", JInt(f.status));
    PutIsAppend([("req_uuid", JString(f.reqUuid))], "status", JInt(f.status));
    return JObject(row.members);
  }

  lemma {:induction false} PutIsAppend(ms: Members, key: string, value: Json)
    requires forall i :: 0 <= i < |ms| ==> ms[i].0 != key
    ensures Put(ms, key, value) == ms + [(key, value)]
  {
    if ms != [] {
      PutIsAppend(ms[1..], key, value);
    }
  }

  /** The operation of `gc_insert_to_json` and `fb_insert_to_json`. */
  method BuildInsertOperation(rid: string, table: string, row: Json) returns (operation: Json)
    ensures ReadOperation(rid, operation) == Some(Insert(rid, table, row))
  {
    KeysDiffer();
    var op := new JsonObject();
    op.Set("op", JString("insert"));
    op.Set("table", JString(table));
    op.Set("row", row);
    return JObject(op.members);
  }

  /** The message around it. */
  method BuildInsert(table: string, row: Json, uniqueId: string) returns (msg: Json)
    ensures ReadMessage(msg) == Some(Insert(uniqueId, table, row))
  {
    KeysDiffer();
    var main := new JsonObject();
    var params := new JsonArray();
    params.Append(JString(DATABASE));
    var operation := BuildInsertOperation(uniqueId, table, row);
    params.Append(operation);
    main.Set("method", JString("transact"));
    main.Set("id", JString(uniqueId));
    main.Set("params", JArray(params.items));
    assert params.items == [JString(DATABASE), operation];
    ReadTransact(main.members, uniqueId, operation);
    return JObject(main.members);
  }

  /** `ovsdb_monitor_to_json`: all columns of the table. */
  method BuildMonitor(table: Table, rid: string, uniqueId: string) returns (msg: Option<Json>)
    ensures TableName(table).None? ==> msg == None
    ensures TableName(table).Some? ==>
      msg.Some? && ReadMessage(msg.value) == Some(Watch(rid, uniqueId, TableName(table).value))
  {
    KeysDiffer();
    if TableName(table).None? { return None; }
    var main := new JsonObject();
    var params := new JsonArray();
    var tables := new JsonObject();
    params.Append(JString(DATABASE));
    params.Append(JString(uniqueId));
    tables.Set(TableName(table).value, JObject([]));
    params.Append(JObject(tables.members));
    main.Set("method", JString("monitor"));
    main.Set("params", JArray(params.items));
    main.Set("id", JString(rid));
    return Some(JObject(main.members));
  }

  /** A row is selected by its uuid under either name of that column, and otherwise by
      a text column. */
  function Selection(key: string, value: string): (string, Json) {
    if key == "uuid" || key == "_uuid" then ("_uuid", UuidValue(value)) else (key, JString(value))
  }

  /** The operation of `ovsdb_delete_to_json`. */
  method BuildDeleteOperation(rid: string, table: string, key: string, value: string) returns (operation: Json)
    ensures var (column, selected) := Selection(key, value);
      ReadOperation(rid, operation) == Some(Delete(rid, table, column, selected))
  {
    KeysDiffer();
    var op := new JsonObject();
    op.Set("op", JString("delete"));
    op.Set("table", JString(table));
    var condition;
    if key == "uuid" || key == "_uuid" {
      condition := [JString("_uuid"), JString("=="), UuidValue(value)];
    } else {
      condition := [JString(key), JString("=="), JString(value)];
    }
    op.Set("where", JArray([JArray(condition)]));
    return JObject(op.members);
  }

  /** `ovsdb_delete_to_json`. The parameters are already a member of the message when
      the operation is appended to them; the message holds a reference to them, so the
      member follows. */
  method BuildDelete(table: Table, rid: string, key: string, value: string) returns (msg: Option<Json>)
    ensures TableName(table).None? ==> msg == None
    ensures var (column, selected) := Selection(key, value);
      TableName(table).Some? ==>
        msg.Some? && ReadMessage(msg.value) == Some(Delete(rid, TableName(table).value, column, selected))
  {
    KeysDiffer();
    if TableName(table).None? { return None; }
    var main := new JsonObject();
    var params := new JsonArray();
    params.Append(JString(DATABASE));
    main.Set("method", JString("transact"));
    main.Set("params", JArray(params.items));
    var operation := BuildDeleteOperation(rid, TableName(table).value, key, value);
    params.Append(operation);
    main.Set("params", JArray(params.items));
    main.Set("id", JString(rid));
    assert params.items == [JString(DATABASE), operation];
    ReadTransact(main.members, rid, operation);
    return Some(JObject(main.members));
  }

  /** Every request of the protocol is written as a message that the server takes for
      exactly that request. */
  method BuildRequest(q: Request) returns (msg: Option<Json>)
    ensures Meant(q).None? ==> msg == None
    ensures Meant(q).Some? ==> msg.Some? && ReadMessage(msg.value) == Meant(q)
  {
    KeysDiffer();
    var id := Decimal(q.rid);
    match q {
      case InsertGateway(_, row) =>
        var m := BuildInsert(GATEWAY_CONFIG_NAME, row, id);
        msg := Some(m);
      case InsertFeedback(_, reqUuid, status) =>
        var row := BuildFeedbackRow(Feedback(reqUuid, StatusCode(status)));
        var m := BuildInsert(FEEDBACK_NAME, row, id);
        msg := Some(m);
      case DeleteGateway(_, uuid) => msg := BuildDelete(GatewayConfigTable, id, "uuid", uuid);
      case DeleteFeedback(_, reqUuid) => msg := BuildDelete(FeedbackTable, id, "req_uuid", reqUuid);
      case Monitor(_, monitorId, table) => msg := BuildMonitor(table, id, Decimal(monitorId));
    }
  }

  // ----- The socket -----

  /** What a server reads in the messages, and what the requests mean, one by one. */
  ghost function Readings(msgs: seq<Json>): seq<Option<Wire>> {
    if msgs == [] then [] else Readings(msgs[..|msgs| - 1]) + [ReadMessage(msgs[|msgs| - 1])]
  }

  ghost function Meanings(requests: seq<Request>): seq<Option<Wire>> {
    if requests == [] then [] else Meanings(requests[..|requests| - 1]) + [Meant(requests[|requests| - 1])]
  }

  lemma WriteReadsBack(msgs: seq<Json>, requests: seq<Request>, msg: Json, q: Request)
    requires Readings(msgs) == Meanings(requests) && ReadMessage(msg) == Meant(q)
    ensures Readings(msgs + [msg]) == Meanings(requests + [q])
  {
    assert (msgs + [msg])[..|msgs|] == msgs && (requests + [q])[..|requests|] == requests;
  }

  /** The messages written so far, and the requests they were written for. */
  class Socket {
    var written: seq<Json>
    ghost var sent: seq<Request>

    /** A server takes the messages for exactly these requests. */
    ghost predicate Valid()
      reads this
    {
      Readings(written) == Meanings(sent)
    }

    constructor ()
      ensures Valid() && sent == []
    {
      written, sent := [], [];
    }

    /** Building a request's message, and `ovsdb_socket_write`, which may fail. */
    method Write(q: Request, ok: bool)
      requires Valid() && InUse(q)
      modifies this
      ensures Valid() && sent == old(sent) + (if ok then [q] else [])
    {
      var msg := BuildRequest(q);
      if ok {
        WriteReadsBack(written, sent, msg.value, q);
        written, sent := written + [msg.value], sent + [q];
      }
    }
  }
}
