/** Dispatching monitor updates to the registered callbacks. */
module Updates {
  import opened OvsTypes
  import opened Codec
  import opened MonitorList

  /** A row of a known table, with the uuid it is stored under. The structure that
      the callback receives is Gateway() or Answer(), by table. */
  datatype Row = Row(uuid: string, table: Table, content: Json)
  {
    function Gateway(): GatewayConfig {
      DecodeGateway(content)
    }

    function Answer(): Feedback {
      DecodeFeedback(content)
    }
  }

  /** `parse_table`: rows of other tables cannot be decoded; any row of a known table
      can. */
  function ParseTable(table: string, uuid: string, row: Json): Option<Row> {
    if table == GATEWAY_CONFIG_NAME then Some(Row(ClipUuid(uuid), GatewayConfigTable, row))
    else if table == FEEDBACK_NAME then Some(Row(ClipUuid(uuid), FeedbackTable, row))
    else None
  }

  predicate IsNew(row: (string, Json)) {
    Get(row.1, "new").Some?
  }

  /** The rows handed to the callback, in order, and the final status. `ok` is the
      status of a hand-over, `status` that of the rows before. */
  datatype Handed = Handed(rows: seq<Row>, status: Status)

  function HandOver(table: string, rows: Members, ok: Status, status: Status): Handed {
    if rows == [] then Handed([], status)
    else match Get(rows[0].1, "new")
      case None => HandOver(table, rows[1..], ok, Success)
      case Some(content) =>
        match ParseTable(table, rows[0].0, content)
        case None => Handed([], Failed)
        case Some(row) =>
          var rest := HandOver(table, rows[1..], ok, ok);
          Handed([row] + rest.rows, rest.status)
  }

  /** The rows of one table in an update object, which must have a single table. */
  function HandedOf(update: Json, ok: Status): Handed {
    if !update.JObject? || |update.members| != 1 then Handed([], Failed)
    else
      var (table, content) := update.members[0];
      HandOver(table, if content.JObject? then content.members else [], ok, Failed)
  }

  datatype Invocation<K> = Invocation(callback: K, row: Row)

  function Invocations<K>(callback: Option<K>, rows: seq<Row>): seq<Invocation<K>> {
    if callback.None? || rows == [] then []
    else [Invocation(callback.value, rows[0])] + Invocations(callback, rows[1..])
  }

  /** With a callback registered every row invokes it once, otherwise none does. */
  lemma {:induction false} InvocationsAre<K>(callback: Option<K>, rows: seq<Row>)
    ensures var r := Invocations(callback, rows);
      && (callback.Some? ==>
            |r| == |rows| && forall i :: 0 <= i < |rows| ==> r[i] == Invocation(callback.value, rows[i]))
      && (callback.None? ==> r == [])
  {
    if callback.Some? && rows != [] {
      InvocationsAre(callback, rows[1..]);
    }
  }

  lemma InvocationsSplit<K>(callback: Option<K>, row: Row, rows: seq<Row>)
    ensures Invocations(callback, [row] + rows) == Invocations(callback, [row]) + Invocations(callback, rows)
  {
    assert ([row] + rows)[1..] == rows && [row][1..] == [];
    assert Invocations(callback, [row][1..]) == [];
  }

  /** Handing over one row moves it from what is ahead to what is done. */
  lemma HandedStep<K>(callback: Option<K>, row: Row, ahead: seq<Row>, invoked: seq<Invocation<K>>, decoded: seq<Row>)
    ensures invoked + Invocations(callback, [row] + ahead)
            == (invoked + Invocations(callback, [row])) + Invocations(callback, ahead)
    ensures decoded + ([row] + ahead) == (decoded + [row]) + ahead
  {
    InvocationsSplit(callback, row, ahead);
  }

  /** The callback registered under a monitor's uuid. */
  function CallbackFor<K>(list: seq<Registration<K>>, uuid: string): Option<K> {
    match FirstFor(list, uuid)
    case None => None
    case Some(i) => Some(list[i].callback)
  }

  /** What the parameters of an update notification hand over: the first is the
      monitor's uuid, each further one an update object. */
  function HandedByParams<K>(list: seq<Registration<K>>, uuid: string, updates: seq<Json>, status: Status)
    : (seq<Invocation<K>>, Status)
  {
    if updates == [] then ([], status)
    else if !updates[0].JObject? then ([], Failed)
    else
      var callback := CallbackFor(list, uuid);
      var h := HandedOf(updates[0], if callback.Some? then Success else Failed);
      var rest := HandedByParams(list, uuid, updates[1..], h.status);
      (Invocations(callback, h.rows) + rest.0, rest.1)
  }

  class Dispatcher<K> {
    const monitors: Monitors<K>
    var invoked: seq<Invocation<K>>
    // What the decoder has allocated so far: an allocation is known by its position.
    ghost var decoded: seq<Row>
    // The allocations freed, in order.
    ghost var freed: seq<nat>

    constructor (monitors: Monitors<K>)
      ensures this.monitors == monitors && invoked == [] && decoded == [] && AllFreed()
    {
      this.monitors := monitors;
      invoked, decoded, freed := [], [], [];
    }

    /** Every allocation has been freed exactly once, in the order of allocation. */
    ghost predicate AllFreed()
      reads this
    {
      |freed| == |decoded| && forall i :: 0 <= i < |freed| ==> freed[i] == i
    }

    /** The callback is run on a decoded row, and the row's configuration freed. */
    method HandRow(uuid: string, row: Row) returns (status: Status)
      requires monitors.Valid() && AllFreed()
      modifies this
      ensures var callback := CallbackFor(monitors.contents, uuid);
        && status == (if callback.Some? then Success else Failed)
        && invoked == old(invoked) + Invocations(callback, [row])
      ensures decoded == old(decoded) + [row] && AllFreed()
    {
      decoded := decoded + [row];
      ghost var allocation := |decoded| - 1;
      var called;
      status, called := monitors.Process(uuid);
      if called.Some? {
        invoked := invoked + [Invocation(called.value, row)];
      }
      freed := freed + [allocation];
    }

    /** The loop over the rows of an update's table. */
    method HandRows(uuid: string, table: string, rows: Members) returns (status: Status)
      requires monitors.Valid() && AllFreed()
      modifies this
      ensures var callback := CallbackFor(monitors.contents, uuid);
        var h := HandOver(table, rows, if callback.Some? then Success else Failed, Failed);
        && status == h.status
        && invoked == old(invoked) + Invocations(callback, h.rows)
        && decoded == old(decoded) + h.rows && AllFreed()
    {
      ghost var callback := CallbackFor(monitors.contents, uuid);
      ghost var ok := if callback.Some? then Success else Failed;
      ghost var rest := HandOver(table, rows, ok, Failed);
      ghost var invokedAtEnd, decodedAtEnd, statusAtEnd :=
        invoked + Invocations(callback, rest.rows), decoded + rest.rows, rest.status;
      status := Failed;
      var i := 0;
      while i < |rows|
        invariant 0 <= i <= |rows|
        invariant rest == HandOver(table, rows[i..], ok, status) && rest.status == statusAtEnd
        invariant invoked + Invocations(callback, rest.rows) == invokedAtEnd
        invariant decoded + rest.rows == decodedAtEnd && AllFreed()
      {
        assert rows[i..][0] == rows[i] && rows[i..][1..] == rows[i + 1..];
        var content := Get(rows[i].1, "new");
        if content.None? {
          status := Success;
          rest := HandOver(table, rows[i + 1..], ok, Success);
        } else {
          var row := ParseTable(table, rows[i].0, content.value);
          if row.None? { return Failed; }
          ghost var next := HandOver(table, rows[i + 1..], ok, ok);
          assert rest.rows == [row.value] + next.rows;
          HandedStep(callback, row.value, next.rows, invoked, decoded);
          rest := next;
          status := HandRow(uuid, row.value);
        }
        i := i + 1;
      }
    }

    /** `ovsdb_parse_monitor_update`. */
    method ParseMonitorUpdate(uuid: string, update: Json) returns (status: Status)
      requires monitors.Valid() && AllFreed()
      modifies this
      ensures var callback := CallbackFor(monitors.contents, uuid);
        var h := HandedOf(update, if callback.Some? then Success else Failed);
        && status == h.status
        && invoked == old(invoked) + Invocations(callback, h.rows)
        && decoded == old(decoded) + h.rows && AllFreed()
    {
      if !update.JObject? || |update.members| != 1 {
        return Failed;
      }
      var (table, content) := update.members[0];
      status := HandRows(uuid, table, if content.JObject? then content.members else []);
    }

    /** `ovsdb_parse_params`: a failed update does not stop the later ones, a parameter
        of the wrong type does. */
    method ParseParams(params: seq<Json>) returns (status: Status)
      requires monitors.Valid() && AllFreed()
      modifies this
      ensures params != [] && params[0].JString? ==>
        var h := HandedByParams(monitors.contents, params[0].text, params[1..], Success);
        status == h.1 && invoked == old(invoked) + h.0
      ensures params != [] && !params[0].JString? ==> status == Failed && invoked == old(invoked)
      ensures params == [] ==> status == Success && invoked == old(invoked)
      ensures AllFreed()
    {
      status := Success;
      if params == [] { return; }
      if !params[0].JString? { return Failed; }
      status := HandUpdates(params[0].text, params[1..]);
    }

    /** The loop over the update objects behind the monitor's uuid. */
    method HandUpdates(uuid: string, updates: seq<Json>) returns (status: Status)
      requires monitors.Valid() && AllFreed()
      modifies this
      ensures var h := HandedByParams(monitors.contents, uuid, updates, Success);
        status == h.1 && invoked == old(invoked) + h.0
      ensures AllFreed()
    {
      ghost var list := monitors.contents;
      ghost var all := HandedByParams(list, uuid, updates, Success);
      ghost var rest := all;
      status := Success;
      var index := 0;
      while index < |updates|
        invariant 0 <= index <= |updates|
        invariant rest == HandedByParams(list, uuid, updates[index..], status)
        invariant invoked + rest.0 == old(invoked) + all.0 && rest.1 == all.1
        invariant AllFreed()
      {
        assert updates[index..][0] == updates[index] && updates[index..][1..] == updates[index + 1..];
        if !updates[index].JObject? { return Failed; }
        status := ParseMonitorUpdate(uuid, updates[index]);
        rest := HandedByParams(list, uuid, updates[index + 1..], status);
        index := index + 1;
      }
    }
  }

  // ----- Which rows are handed over -----

  /** The rows that carry new content, in order. */
  function NewRows(rows: Members): Members {
    if rows == [] then []
    else if IsNew(rows[0]) then [rows[0]] + NewRows(rows[1..])
    else NewRows(rows[1..])
  }

  predicate Known(table: string) {
    table == GATEWAY_CONFIG_NAME || table == FEEDBACK_NAME
  }

  /** In a table the decoder knows, exactly the rows with new content are handed over,
      once each and in order; deletions never are. In any other table none is, and
      the first row with new content ends the update in failure. */
  lemma {:induction false} NewRowsAreHandedOver(table: string, rows: Members, ok: Status, status: Status)
    ensures var h := HandOver(table, rows, ok, status); var news := NewRows(rows);
      && (Known(table) ==>
            && |h.rows| == |news|
            && forall i :: 0 <= i < |news| ==>
                 IsNew(news[i]) && Some(h.rows[i]) == ParseTable(table, news[i].0, Get(news[i].1, "new").value))
      && (!Known(table) ==> h.rows == [] && (news != [] ==> h.status == Failed))
  {
    if rows != [] {
      NewRowsAreHandedOver(table, rows[1..], ok, if IsNew(rows[0]) then ok else Success);
    }
  }

  /** The status of the rows of a table is that of the last: of the hand-over if it is new,
      success if it is not; in an unknown table a new row anywhere makes it a failure. */
  lemma {:induction false} StatusOfRows(table: string, rows: Members, ok: Status, status: Status)
    ensures HandOver(table, rows, ok, status).status ==
      if rows == [] then status
      else if !Known(table) && (exists i :: 0 <= i < |rows| && IsNew(rows[i])) then Failed
      else if IsNew(rows[|rows| - 1]) then ok else Success
  {
    if rows != [] {
      StatusOfRows(table, rows[1..], ok, if IsNew(rows[0]) then ok else Success);
      assert forall i :: 0 < i < |rows| ==> rows[1..][i - 1] == rows[i];
      assert (exists i :: 0 <= i < |rows| && IsNew(rows[i])) <==>
             IsNew(rows[0]) || exists i :: 0 <= i < |rows[1..]| && IsNew(rows[1..][i]);
    }
  }

  /** All rows that the update objects of a notification carry. */
  function RowsOfAll(updates: seq<Json>, ok: Status): seq<Row> {
    if updates == [] then [] else HandedOf(updates[0], ok).rows + RowsOfAll(updates[1..], ok)
  }

  lemma {:induction false} InvocationsJoin<K>(callback: Option<K>, rows: seq<Row>, more: seq<Row>)
    ensures Invocations(callback, rows + more) == Invocations(callback, rows) + Invocations(callback, more)
  {
    if rows == [] {
      assert rows + more == more;
    } else if callback.Some? {
      assert (rows + more)[1..] == rows[1..] + more;
      InvocationsJoin(callback, rows[1..], more);
    }
  }

  /** The n update objects before the first parameter of another type, if there is one, are
      all handed over, in order, whichever of them fail; then such a parameter fails the
      notification, and without one its status is that of the last update. */
  lemma {:induction false} AllUpdatesAreHanded<K>(list: seq<Registration<K>>, uuid: string, updates: seq<Json>,
                                                  status: Status, n: nat)
    requires n <= |updates| && forall i :: 0 <= i < n ==> updates[i].JObject?
    requires n < |updates| ==> !updates[n].JObject?
    ensures var callback := CallbackFor(list, uuid); var ok := if callback.Some? then Success else Failed;
      var h := HandedByParams(list, uuid, updates, status);
      && h.0 == Invocations(callback, RowsOfAll(updates[..n], ok))
      && h.1 == if n < |updates| then Failed else if n == 0 then status else HandedOf(updates[n - 1], ok).status
  {
    if n > 0 {
      var callback := CallbackFor(list, uuid);
      var ok := if callback.Some? then Success else Failed;
      var h := HandedOf(updates[0], ok);
      assert updates[1..][..n - 1] == updates[..n][1..];
      AllUpdatesAreHanded(list, uuid, updates[1..], h.status, n - 1);
      InvocationsJoin(callback, h.rows, RowsOfAll(updates[..n][1..], ok));
    }
  }

  /** Whatever a row holds, the structures handed over fit their buffers. */
  lemma HandedRowsFit(row: Row)
    ensures FitsGateway(row.Gateway()) && FitsFeedback(row.Answer())
  {
    GatewayDecodeIsStable(row.content);
    FeedbackDecodeIsStable(row.content);
  }

  /** NewRows drops rows without new content and nothing else. */
  lemma {:induction false} NewRowsKeepsAllNew(rows: Members, row: (string, Json))
    ensures row in NewRows(rows) <==> row in rows && IsNew(row)
  {
    if rows != [] {
      NewRowsKeepsAllNew(rows[1..], row);
      assert row in rows <==> row == rows[0] || row in rows[1..];
    }
  }
}
