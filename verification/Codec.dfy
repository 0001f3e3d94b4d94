/** Rows and results as JSON trees: the row encoders and decoders, and the receipt
    parsers. */
module Codec {
  import opened OvsTypes

  datatype Json =
    | JNull
    | JBool(b: bool)
    | JInt(n: int)
    | JString(text: string)
    | JArray(items: seq<Json>)
    | JObject(members: seq<(string, Json)>)

  type Members = seq<(string, Json)>

  const DATABASE: string := "Open_vSwitch"
  const GATEWAY_CONFIG_NAME: string := "Gateway_Config"
  const FEEDBACK_NAME: string := "Feedback"

  // ----- JSON objects -----

  /** `json_object_get`: absent keys and values that are not objects give None. */
  function Get(j: Json, key: string): Option<Json> {
    if j.JObject? then Lookup(j.members, key) else None
  }

  function Lookup(ms: Members, key: string): Option<Json> {
    if ms == [] then None
    else if ms[0].0 == key then Some(ms[0].1)
    else Lookup(ms[1..], key)
  }

  /** `json_object_set_new`: replaces the value of an existing key in place and
      appends a new key at the end. */
  function Put(ms: Members, key: string, value: Json): Members {
    if ms == [] then [(key, value)]
    else if ms[0].0 == key then [(key, value)] + ms[1..]
    else [ms[0]] + Put(ms[1..], key, value)
  }

  /** `json_array_get`: None out of range or when the value is not an array. */
  function At(j: Json, i: nat): Option<Json> {
    if j.JArray? && i < |j.items| then Some(j.items[i]) else None
  }

  /** Only the entry that was set changes. */
  lemma {:induction false} PutThenLookup(ms: Members, key: string, value: Json, other: string)
    ensures Lookup(Put(ms, key, value), other) ==
            if other == key then Some(value) else Lookup(ms, other)
  {
    if ms == [] {
    } else if ms[0].0 == key {
      assert ([(key, value)] + ms[1..])[1..] == ms[1..];
    } else {
      PutThenLookup(ms[1..], key, value, other);
      assert ([ms[0]] + Put(ms[1..], key, value))[1..] == Put(ms[1..], key, value);
    }
  }

  // ----- Gateway_Config rows -----

  function GatewayMembers(c: GatewayConfig): Members {
    [("gre_ifname", JString("null")),
     ("if_name", JString(c.ifName)),
     ("if_type", JInt(c.ifType)),
     ("if_cmd", JInt(c.ifCmd)),
     ("inet_addr", JString(c.inetAddr)),
     ("netmask", JString(c.netmask)),
     ("gre_remote_inet_addr", JString(c.greRemoteInetAddr)),
     ("gre_local_inet_addr", JString(c.greLocalInetAddr)),
     ("parent_ifname", JString(c.parentIfname)),
     ("mtu", JInt(c.mtu)),
     ("parent_bridge", JString(c.parentBridge)),
     ("vlan_id", JInt(c.vlanId))]
  }

  function EncodeGateway(c: GatewayConfig): Json {
    JObject(GatewayMembers(c))
  }

  /** `json_fetch_string` followed by the bounded copy into a zeroed field. */
  function FetchText(row: Json, key: string, size: nat): (r: string)
    requires size > 0
    ensures |r| < size
  {
    match Get(row, key)
    case Some(JString(s)) => Clip(s, size - 1)
    case _ => ""
  }

  /** `(int) json_integer_value(json_object_get(row, key))`. */
  function FetchInt(row: Json, key: string): (r: int)
    ensures IsInt32(r)
  {
    match Get(row, key)
    case Some(JInt(n)) => ToInt32(n)
    case _ => 0
  }

  function DecodeGateway(row: Json): GatewayConfig {
    GatewayConfig(
      FetchText(row, "if_name", MAX_NAME_SIZE),
      FetchText(row, "inet_addr", MAX_NAME_SIZE),
      FetchText(row, "netmask", MAX_NAME_SIZE),
      FetchText(row, "gre_remote_inet_addr", MAX_NAME_SIZE),
      FetchText(row, "gre_local_inet_addr", MAX_NAME_SIZE),
      FetchText(row, "parent_ifname", MAX_NAME_SIZE),
      FetchText(row, "parent_bridge", MAX_NAME_SIZE),
      FetchInt(row, "mtu"),
      FetchInt(row, "vlan_id"),
      FetchInt(row, "if_type"),
      FetchInt(row, "if_cmd"))
  }

  /** The configurations that fit the C structure. */
  predicate FitsGateway(c: GatewayConfig) {
    && |c.ifName| < MAX_NAME_SIZE && |c.inetAddr| < MAX_NAME_SIZE
    && |c.netmask| < MAX_NAME_SIZE && |c.greRemoteInetAddr| < MAX_NAME_SIZE
    && |c.greLocalInetAddr| < MAX_NAME_SIZE && |c.parentIfname| < MAX_NAME_SIZE
    && |c.parentBridge| < MAX_NAME_SIZE
    && IsInt32(c.mtu) && IsInt32(c.vlanId) && IsInt32(c.ifType) && IsInt32(c.ifCmd)
  }

  lemma {:induction false} LookupAt(ms: Members, i: nat)
    requires i < |ms|
    requires forall k :: 0 <= k < i ==> ms[k].0 != ms[i].0
    ensures Lookup(ms, ms[i].0) == Some(ms[i].1)
  {
    if i > 0 {
      LookupAt(ms[1..], i - 1);
    }
  }

  predicate DistinctKeys(ms: Members) {
    forall i, j :: 0 <= i < j < |ms| ==> ms[i].0 != ms[j].0
  }

  lemma GatewayKeysDistinct(c: GatewayConfig)
    ensures DistinctKeys(GatewayMembers(c))
  {
    var ms := GatewayMembers(c);
    // Equal lengths occur only among if_name/if_type/netmask/vlan_id and among
    // parent_ifname/parent_bridge.
    assert ms[1].0[3] == 'n' && ms[2].0[3] == 't' && ms[5].0[3] == 'm' && ms[11].0[3] == 'n';
    assert ms[1].0[0] == 'i' && ms[11].0[0] == 'v';
    assert ms[8].0[7] == 'i' && ms[10].0[7] == 'b';
    assert |ms[0].0| == 10 && |ms[3].0| == 6 && |ms[4].0| == 9 && |ms[6].0| == 20;
    assert |ms[7].0| == 19 && |ms[9].0| == 3 && |ms[8].0| == 13 && |ms[10].0| == 13;
  }

  lemma GatewayLookups(c: GatewayConfig)
    ensures forall i :: 0 <= i < 12 ==>
      Get(EncodeGateway(c), GatewayMembers(c)[i].0) == Some(GatewayMembers(c)[i].1)
  {
    GatewayKeysDistinct(c);
    forall i | 0 <= i < 12
      ensures Get(EncodeGateway(c), GatewayMembers(c)[i].0) == Some(GatewayMembers(c)[i].1)
    {
      LookupAt(GatewayMembers(c), i);
    }
  }

  lemma FetchColumns(c: GatewayConfig)
    ensures var row := EncodeGateway(c);
      && Get(row, "if_name") == Some(JString(c.ifName)) && Get(row, "if_type") == Some(JInt(c.ifType))
      && Get(row, "if_cmd") == Some(JInt(c.ifCmd)) && Get(row, "inet_addr") == Some(JString(c.inetAddr))
      && Get(row, "netmask") == Some(JString(c.netmask)) && Get(row, "mtu") == Some(JInt(c.mtu))
      && Get(row, "gre_remote_inet_addr") == Some(JString(c.greRemoteInetAddr))
      && Get(row, "gre_local_inet_addr") == Some(JString(c.greLocalInetAddr))
      && Get(row, "parent_ifname") == Some(JString(c.parentIfname))
      && Get(row, "parent_bridge") == Some(JString(c.parentBridge))
      && Get(row, "vlan_id") == Some(JInt(c.vlanId))
  {
    var ms := GatewayMembers(c);
    GatewayLookups(c);
    assert ms[1].0 == "if_name" && ms[2].0 == "if_type" && ms[3].0 == "if_cmd";
    assert ms[4].0 == "inet_addr" && ms[5].0 == "netmask" && ms[6].0 == "gre_remote_inet_addr";
    assert ms[7].0 == "gre_local_inet_addr" && ms[8].0 == "parent_ifname" && ms[9].0 == "mtu";
    assert ms[10].0 == "parent_bridge" && ms[11].0 == "vlan_id";
  }

  /** What decoding an encoded configuration yields, whatever the configuration:
      every field cut to its buffer, every integer cast to 32 bits. */
  lemma DecodeEncodeGateway(c: GatewayConfig)
    ensures DecodeGateway(EncodeGateway(c)) ==
      GatewayConfig(Clip(c.ifName, 15), Clip(c.inetAddr, 15), Clip(c.netmask, 15),
        Clip(c.greRemoteInetAddr, 15), Clip(c.greLocalInetAddr, 15),
        Clip(c.parentIfname, 15), Clip(c.parentBridge, 15),
        ToInt32(c.mtu), ToInt32(c.vlanId), ToInt32(c.ifType), ToInt32(c.ifCmd))
  {
    FetchColumns(c);
  }

  /** A configuration survives the wire exactly when it fits the C structure. */
  lemma GatewayRoundTrip(c: GatewayConfig)
    ensures DecodeGateway(EncodeGateway(c)) == c <==> FitsGateway(c)
  {
    DecodeEncodeGateway(c);
  }

  /** Whatever row arrives, the decoder fills the structure within its bounds,
      and sending the decoded configuration on changes nothing more. */
  lemma GatewayDecodeIsStable(row: Json)
    ensures FitsGateway(DecodeGateway(row))
    ensures DecodeGateway(EncodeGateway(DecodeGateway(row))) == DecodeGateway(row)
  {
    GatewayRoundTrip(DecodeGateway(row));
  }

  /** The row has no member of this name that holds a text, or an integer. */
  ghost predicate NoText(row: Json, key: string) {
    forall t :: Get(row, key) != Some(JString(t))
  }

  ghost predicate NoInt(row: Json, key: string) {
    forall n :: Get(row, key) != Some(JInt(n))
  }

  /** Every column that is missing or of another type leaves its own field empty or zero. */
  lemma MissingColumns(row: Json)
    ensures var c := DecodeGateway(row);
      && (NoText(row, "if_name") ==> c.ifName == "") && (NoText(row, "inet_addr") ==> c.inetAddr == "")
      && (NoText(row, "netmask") ==> c.netmask == "")
      && (NoText(row, "gre_remote_inet_addr") ==> c.greRemoteInetAddr == "")
      && (NoText(row, "gre_local_inet_addr") ==> c.greLocalInetAddr == "")
      && (NoText(row, "parent_ifname") ==> c.parentIfname == "")
      && (NoText(row, "parent_bridge") ==> c.parentBridge == "")
      && (NoInt(row, "mtu") ==> c.mtu == 0) && (NoInt(row, "vlan_id") ==> c.vlanId == 0)
      && (NoInt(row, "if_type") ==> c.ifType == 0) && (NoInt(row, "if_cmd") ==> c.ifCmd == 0)
    ensures var f := DecodeFeedback(row);
      (NoText(row, "req_uuid") ==> f.reqUuid == "") && (NoInt(row, "status") ==> f.status == 0)
  {
  }

  // ----- Feedback rows -----

  function FeedbackMembers(f: Feedback): Members {
    [("req_uuid", JString(f.reqUuid)), ("status", JInt(f.status))]
  }

  function EncodeFeedback(f: Feedback): Json {
    JObject(FeedbackMembers(f))
  }

  function DecodeFeedback(row: Json): Feedback {
    Feedback(FetchText(row, "req_uuid", MAX_UUID_LEN + 1), FetchInt(row, "status"))
  }

  predicate FitsFeedback(f: Feedback) {
    |f.reqUuid| <= MAX_UUID_LEN && IsInt32(f.status)
  }

  lemma FeedbackRoundTrip(f: Feedback)
    ensures DecodeFeedback(EncodeFeedback(f)) == f <==> FitsFeedback(f)
  {
    var ms := FeedbackMembers(f);
    assert ms[0].0 == "req_uuid" && ms[1].0 == "status" && |ms[0].0| == 8 && |ms[1].0| == 6;
    LookupAt(ms, 0);
    LookupAt(ms, 1);
  }

  lemma FeedbackDecodeIsStable(row: Json)
    ensures FitsFeedback(DecodeFeedback(row))
    ensures DecodeFeedback(EncodeFeedback(DecodeFeedback(row))) == DecodeFeedback(row)
  {
    FeedbackRoundTrip(DecodeFeedback(row));
  }

  // ----- Results of requests -----

  datatype ResultKind = InsertResult | MonitorResult | MonitorCancelResult | DeleteResult

  datatype Parsed = InsertedRow(uuid: string) | MonitorStarted | MonitorCancelled | DeletedRows(count: int)

  /** `ovsdb_parse_result`: the parser is chosen by the kind of the receipt. */
  function ParseResult(kind: ResultKind, result: Option<Json>): Option<Parsed> {
    match result
    case None => None
    case Some(j) =>
      match kind
      case InsertResult => ParseInsert(j)
      case MonitorResult => Some(MonitorStarted)
      case MonitorCancelResult => Some(MonitorCancelled)
      case DeleteResult => ParseDelete(j)
  }

  /** The result must be an array whose first element maps "uuid" to a pair that
      starts with the text "uuid"; the second text of the pair is the row's uuid. */
  function ParseInsert(j: Json): Option<Parsed> {
    match At(j, 0)
    case None => None
    case Some(first) =>
      match Get(first, "uuid")
      case Some(JArray(pair)) =>
        if |pair| >= 2 && pair[0] == JString("uuid") && pair[1].JString? then Some(InsertedRow(pair[1].text)) else None
      case _ => None
  }

  function ParseDelete(j: Json): Option<Parsed> {
    match At(j, 0)
    case None => None
    case Some(first) =>
      match Get(first, "count")
      case Some(JInt(n)) => Some(DeletedRows(ToInt32(n)))
      case _ => None
  }

  /** The server's results, and the error it reports in their place. */
  function InsertOk(uuid: string): Json {
    JArray([JObject([("uuid", JArray([JString("uuid"), JString(uuid)]))])])
  }

  function DeleteOk(count: int): Json {
    JArray([JObject([("count", JInt(count))])])
  }

  function Refusal(text: string): Json {
    JArray([JObject([("error", JString(text))])])
  }

  /** Each parser reads back what the server reports to a request of its own kind,
      and an insert or delete parser accepts neither an error nor the other's
      result. The monitor parsers accept anything. */
  lemma ResultsReadBack(uuid: string, count: int, text: string)
    requires IsInt32(count)
    ensures ParseResult(InsertResult, Some(InsertOk(uuid))) == Some(InsertedRow(uuid))
    ensures ParseResult(DeleteResult, Some(DeleteOk(count))) == Some(DeletedRows(count))
    ensures ParseResult(InsertResult, Some(Refusal(text))) == None
    ensures ParseResult(DeleteResult, Some(Refusal(text))) == None
    ensures ParseResult(InsertResult, Some(DeleteOk(count))) == None
    ensures ParseResult(DeleteResult, Some(InsertOk(uuid))) == None
  {
    assert |"uuid"| == 4 && |"error"| == 5 && |"count"| == 5 && "error"[0] != "count"[0];
    assert Get(Refusal(text).items[0], "uuid") == None && Get(Refusal(text).items[0], "count") == None by {
      assert Lookup(Refusal(text).items[0].members[1..], "uuid") == None;
      assert Lookup(Refusal(text).items[0].members[1..], "count") == None;
    }
    assert Get(DeleteOk(count).items[0], "uuid") == None by {
      assert Lookup(DeleteOk(count).items[0].members[1..], "uuid") == None;
    }
    assert Get(InsertOk(uuid).items[0], "count") == None by {
      assert Lookup(InsertOk(uuid).items[0].members[1..], "count") == None;
    }
  }

  /** A result with one more element behind it, as for a transaction whose commit
      failed. */
  function Behind(result: Json, last: Json): Json
    requires result.JArray?
  {
    JArray(result.items + [last])
  }

  /** The parsers look at the first element alone: a transaction whose operation
      succeeded and whose commit failed is taken for a success. */
  lemma FailedCommitReadsAsSuccess(uuid: string, count: int, error: Json)
    requires IsInt32(count)
    ensures ParseResult(InsertResult, Some(Behind(InsertOk(uuid), error))) == Some(InsertedRow(uuid))
    ensures ParseResult(DeleteResult, Some(Behind(DeleteOk(count), error))) == Some(DeletedRows(count))
    ensures ParseResult(InsertResult, Some(Behind(DeleteOk(count), error))) == None
    ensures ParseResult(DeleteResult, Some(Behind(InsertOk(uuid), error))) == None
  {
    ResultsReadBack(uuid, count, "");
    assert Behind(InsertOk(uuid), error).items[0] == InsertOk(uuid).items[0];
    assert Behind(DeleteOk(count), error).items[0] == DeleteOk(count).items[0];
  }
}
