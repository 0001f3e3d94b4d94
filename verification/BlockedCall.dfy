/** A component that makes blocking requests, one at a time, and others: its calling
    thread, its listener thread and the flag between them. Nothing is assumed about the
    messages that arrive. */
module BlockedCall {
  import opened OvsTypes
  import opened Connection
  import opened TransactionTable
  import opened Peers
  import opened Waiting

  /** Where the calling thread is. `Sent` is the time between the write and the start
      of the wait. */
  datatype Phase =
    | Idle
    | Sent(rid: Rid)
    | Waiting(rid: Rid)
    | Returned(rid: Rid, ok: bool)

  /** `completing` is the id of the transaction whose rows the listener is about to
      delete, meaningful while the client has a cleanup; `done` are the ids of the
      transactions that completed and for which both deletes were sent. */
  datatype Caller = Caller(client: Client, blocked: bool, phase: Phase, completing: Rid, done: set<Rid>)

  /** `Call` is a request that blocks, `Post` one that does not: it is tracked exactly
      if it has a callback. */
  datatype Event =
    | Call(config: GatewayConfig, callback: bool, sent: bool)
    | Post(config: GatewayConfig, callback: bool, sent: bool)
    | Enter
    | WakeUp(result: WakeResult)
    | Receive(m: Message, sent: bool)
    | Finish(sentGateway: bool, sentFeedback: bool)

  predicate InCall(s: Caller) {
    s.phase.Sent? || s.phase.Waiting?
  }

  predicate Possible(s: Caller, e: Event) {
    match e
    case Call(_, _, _) => !InCall(s)
    case Post(_, _, _) => true
    case Enter => s.phase.Sent?
    case WakeUp(_) => s.phase.Waiting?
    case Receive(_, _) => s.client.cleanup.None?
    case Finish(_, _) => s.client.cleanup.Some?
  }

  /** The call returns false after deleting the transaction of its own id. */
  function GivenUp(s: Caller, rid: Rid): Caller {
    s.(client := Abandon(s.client, rid), phase := Returned(rid, false))
  }

  function Happen(s: Caller, e: Event): Caller
    requires Possible(s, e)
  {
    match e
    case Call(config, callback, sent) =>
      var rid := s.client.conn.nextId + 1;
      var cl := Submit(s.client, config, true, callback, sent);
      if sent then s.(client := cl, blocked := true, phase := Sent(rid))
      else s.(client := cl, blocked := false, phase := Returned(rid, false))
    case Post(config, callback, sent) =>
      s.(client := Submit(s.client, config, callback, callback, sent),
         blocked := s.blocked && !callback && sent)
    case Enter =>
      if s.blocked then s.(phase := Waiting(s.phase.rid)) else GivenUp(s, s.phase.rid)
    case WakeUp(result) =>
      if result != Woken then GivenUp(s.(blocked := false), s.phase.rid)
      else if s.blocked then s
      else s.(phase := Returned(s.phase.rid, true))
    case Receive(m, sent) =>
      var cl := Arrived(s.client, m);
      var f := Completes(cl, m);
      s.(client := OnMessage(cl, sent), completing := if f.Some? then cl.table[f.value].value.id else s.completing)
    case Finish(sentGateway, sentFeedback) =>
      var s' := s.(client := Cleanup(s.client, sentGateway, sentFeedback));
      if sentGateway && sentFeedback
      then s'.(blocked := false, done := s.done + {s.completing}) else s'
  }

  /** Message m is the next one the client takes. */
  function Arrived(cl: Client, m: Message): Client {
    cl.(conn := cl.conn.(down := [m] + cl.conn.down))
  }

  // ----- Runs -----

  ghost predicate Init(s: Caller) {
    s.client.table == EmptySlots() && s.client.cleanup.None? && !s.blocked && s.phase == Idle && s.done == {}
    && s.completing == 0
  }

  ghost predicate IsRun(run: seq<Caller>, events: seq<Event>) {
    && |run| == |events| + 1 && Init(run[0])
    && forall i :: 0 <= i < |events| ==> Possible(run[i], events[i]) && run[i + 1] == Happen(run[i], events[i])
  }

  ghost predicate NoTransaction(t: Slots<Uuid, GatewayConfig>) {
    forall k :: 0 <= k < MAX_TABLE_SIZE ==> t[k].None?
  }

  /** Blocking requests are made while no transaction is live and the listener is not
      between completing one and signalling; and no other request is made meanwhile. */
  ghost predicate CallsUndisturbed(run: seq<Caller>, events: seq<Event>)
    requires |run| == |events| + 1
  {
    forall i :: 0 <= i < |events| ==>
      && (events[i].Call? ==> run[i].client.cleanup.None? && NoTransaction(run[i].client.table))
      && (events[i].Post? ==> !InCall(run[i]))
  }

  /** No transaction has this id. */
  ghost predicate Absent(t: Slots<Uuid, GatewayConfig>, rid: Rid) {
    forall k :: 0 <= k < MAX_TABLE_SIZE && t[k].Some? ==> t[k].value.id != rid
  }

  /** During a call the table holds at most its transaction, the cleanup in progress is
      of that call or of none, and a clear flag means that the call's transaction has
      completed with both deletes sent. A call that returned true completed; the
      transaction of one that returned false is gone for good. */
  ghost predicate Inv(s: Caller) {
    && (InCall(s) ==> forall k :: 0 <= k < MAX_TABLE_SIZE && s.client.table[k].Some? ==>
          k == Key(s.phase.rid) && s.client.table[k].value.id == s.phase.rid)
    && (InCall(s) && s.client.cleanup.Some? ==>
          s.completing == s.phase.rid && s.client.table[Key(s.phase.rid)].None?)
    && (InCall(s) && !s.blocked ==> s.phase.rid in s.done && s.client.table[Key(s.phase.rid)].None?)
    && (s.phase != Idle ==> s.phase.rid <= s.client.conn.nextId)
    && (s.phase.Returned? ==> if s.phase.ok then s.phase.rid in s.done else Absent(s.client.table, s.phase.rid))
  }

  lemma ReceiveTable(cl: Client, m: Message, sent: bool)
    ensures var cl0 := Arrived(cl, m); var cl' := OnMessage(cl0, sent); var f := Completes(cl0, m);
      && (f.Some? ==> cl'.table == Cleared(cl.table, f.value) && cl.table[f.value].Some?)
      && (f.None? ==> cl'.cleanup == cl.cleanup)
      && (f.None? ==> forall k :: 0 <= k < MAX_TABLE_SIZE ==>
            && cl'.table[k].Some? == cl.table[k].Some?
            && (cl.table[k].Some? ==> cl'.table[k].value.id == cl.table[k].value.id))
  {
  }

  lemma ReceiveCounts(cl: Client, m: Message, sent: bool)
    ensures OnMessage(Arrived(cl, m), sent).conn.nextId >= cl.conn.nextId
  {
  }

  lemma CleanupCounts(cl: Client, sentGateway: bool, sentFeedback: bool)
    requires cl.cleanup.Some?
    ensures var cl' := Cleanup(cl, sentGateway, sentFeedback);
      cl'.conn.nextId >= cl.conn.nextId && cl'.table == cl.table
  {
  }

  lemma HappenKeeps(s: Caller, e: Event)
    requires Inv(s) && Possible(s, e) && (e.Post? ==> !InCall(s))
    requires e.Call? ==> s.client.cleanup.None? && NoTransaction(s.client.table)
    ensures Inv(Happen(s, e))
  {
    match e
    case Receive(m, sent) => ReceiveKeeps(s, m, sent);
    case Call(config, callback, sent) => CallKeeps(s, config, callback, sent);
    case Post(config, callback, sent) => PostKeeps(s, config, callback, sent);
    case Finish(sentGateway, sentFeedback) => CleanupCounts(s.client, sentGateway, sentFeedback);
    case _ =>
  }

  lemma CallKeeps(s: Caller, config: GatewayConfig, callback: bool, sent: bool)
    requires Inv(s) && Possible(s, Call(config, callback, sent))
    requires s.client.cleanup.None? && NoTransaction(s.client.table)
    ensures Inv(Happen(s, Call(config, callback, sent)))
  {
  }

  lemma PostKeeps(s: Caller, config: GatewayConfig, callback: bool, sent: bool)
    requires Inv(s) && !InCall(s)
    ensures Inv(Happen(s, Post(config, callback, sent)))
  {
  }

  lemma ReceiveKeeps(s: Caller, m: Message, sent: bool)
    requires Inv(s) && Possible(s, Receive(m, sent))
    ensures Inv(Happen(s, Receive(m, sent)))
  {
    ReceiveTable(s.client, m, sent);
    ReceiveCounts(s.client, m, sent);
  }

  lemma {:induction false} RunInv(run: seq<Caller>, events: seq<Event>, i: nat)
    requires IsRun(run, events) && CallsUndisturbed(run, events) && i < |run|
    ensures Inv(run[i])
  {
    if i > 0 {
      RunInv(run, events, i - 1);
      assert run[i - 1 + 1] == Happen(run[i - 1], events[i - 1]);
      HappenKeeps(run[i - 1], events[i - 1]);
    }
  }

  /** A blocked request that returns true has completed, with both deletes sent; the
      transaction of one that returns false is gone for good. This holds for every
      sequence of messages, wakeups, write failures and other requests, as long as
      blocking requests are made while no transaction is live or being cleaned up, and
      no other request is made during one. */
  lemma BlockedResult(run: seq<Caller>, events: seq<Event>, i: nat)
    requires IsRun(run, events) && CallsUndisturbed(run, events) && i < |run|
    requires run[i].phase.Returned?
    ensures run[i].phase.ok ==> run[i].phase.rid in run[i].done
    ensures !run[i].phase.ok ==> Absent(run[i].client.table, run[i].phase.rid)
  {
    RunInv(run, events, i);
  }

  // ----- Components whose requests all block -----

  /** Only the call in progress has a transaction. */
  ghost predicate OnlyOwn(s: Caller) {
    forall k :: 0 <= k < MAX_TABLE_SIZE && s.client.table[k].Some? ==>
      InCall(s) && k == Key(s.phase.rid) && s.client.table[k].value.id == s.phase.rid
  }

  lemma HappenKeepsOwn(s: Caller, e: Event)
    requires OnlyOwn(s) && Possible(s, e) && !e.Post?
    requires InCall(s) && !s.blocked ==> s.client.table[Key(s.phase.rid)].None?
    ensures OnlyOwn(Happen(s, e))
  {
    if e.Receive? { ReceiveTable(s.client, e.m, e.sent); }
  }

  ghost predicate AllBlock(run: seq<Caller>, events: seq<Event>, n: nat)
    requires |run| == |events| + 1 && n <= |events|
  {
    forall i :: 0 <= i < n ==> !events[i].Post? && (events[i].Call? ==> run[i].client.cleanup.None?)
  }

  lemma {:induction false} AllBlockingInv(run: seq<Caller>, events: seq<Event>, n: nat)
    requires IsRun(run, events) && n < |run| && AllBlock(run, events, n)
    ensures Inv(run[n]) && OnlyOwn(run[n])
  {
    if n > 0 {
      AllBlockingInv(run, events, n - 1);
      assert run[n - 1 + 1] == Happen(run[n - 1], events[n - 1]);
      HappenKeeps(run[n - 1], events[n - 1]);
      HappenKeepsOwn(run[n - 1], events[n - 1]);
    }
  }

  /** If all requests block, it is enough that none is made during the cleanup of an
      earlier one: no transaction is live then. */
  lemma AllBlockingIsUndisturbed(run: seq<Caller>, events: seq<Event>)
    requires IsRun(run, events) && AllBlock(run, events, |events|)
    ensures CallsUndisturbed(run, events)
  {
    forall i | 0 <= i < |events| && events[i].Call? ensures NoTransaction(run[i].client.table) {
      AllBlockingInv(run, events, i);
    }
  }

  // ----- The conditions cannot be dropped -----

  /** Ids used so far are at most the counter. This needs no condition. */
  ghost predicate Bounded(s: Caller) {
    && (forall rid :: rid in s.done ==> rid <= s.client.conn.nextId)
    && s.completing <= s.client.conn.nextId
    && (forall k :: 0 <= k < MAX_TABLE_SIZE && s.client.table[k].Some? ==>
          s.client.table[k].value.id <= s.client.conn.nextId)
  }

  lemma CallBounds(s: Caller, e: Event)
    requires Bounded(s) && Possible(s, e) && (e.Call? || e.Post?)
    ensures Bounded(Happen(s, e))
  {
  }

  lemma HappenBounds(s: Caller, e: Event)
    requires Bounded(s) && Possible(s, e)
    ensures Bounded(Happen(s, e))
  {
    if e.Call? || e.Post? {
      CallBounds(s, e);
    } else if e.Receive? {
      ReceiveTable(s.client, e.m, e.sent);
      ReceiveCounts(s.client, e.m, e.sent);
    }
  }

  lemma {:induction false} RunBounded(run: seq<Caller>, events: seq<Event>, i: nat)
    requires IsRun(run, events) && i < |run|
    ensures Bounded(run[i])
  {
    if i > 0 {
      RunBounded(run, events, i - 1);
      assert run[i - 1 + 1] == Happen(run[i - 1], events[i - 1]);
      HappenBounds(run[i - 1], events[i - 1]);
    }
  }

  /** From every reachable state in which an earlier transaction is being cleaned up,
      a new blocked request can return true although its own transaction never
      completed: the signal is not tied to a request. */
  lemma EarlierCleanupMisleads(run: seq<Caller>, events: seq<Event>, i: nat, config: GatewayConfig)
    requires IsRun(run, events) && i < |run|
    requires !InCall(run[i]) && run[i].client.cleanup.Some?
    ensures var s1 := Happen(run[i], Call(config, true, true));
      && Possible(s1, Enter)
      && var s2 := Happen(s1, Enter);
      && Possible(s2, Finish(true, true))
      && var s3 := Happen(s2, Finish(true, true));
      && Possible(s3, WakeUp(Woken))
      && var s4 := Happen(s3, WakeUp(Woken));
      && s4.phase == Returned(run[i].client.conn.nextId + 1, true)
      && s4.phase.rid !in s4.done
      && s4.client.table[Key(s4.phase.rid)].Some? && s4.client.table[Key(s4.phase.rid)].value.id == s4.phase.rid
  {
    RunBounded(run, events, i);
  }

  // ----- Such states are reached -----

  function Extended(run: seq<Caller>, e: Event): seq<Caller>
    requires run != [] && Possible(run[|run| - 1], e)
  {
    run + [Happen(run[|run| - 1], e)]
  }

  lemma ExtendedIsRun(run: seq<Caller>, events: seq<Event>, e: Event)
    requires IsRun(run, events) && Possible(run[|run| - 1], e)
    ensures IsRun(Extended(run, e), events + [e])
  {
  }

  /** The state after one blocked call whose reply and Feedback row both arrive before
      the wait begins. */
  lemma AnsweredBeforeTheWait(config: GatewayConfig, u: Uuid) returns (run: seq<Caller>, events: seq<Event>)
    requires u != NO_UUID
    ensures IsRun(run, events)
    ensures var s := run[|run| - 1]; s.phase == Sent(1) && s.blocked && s.client.cleanup == Some(u)
  {
    var start := Caller(Client(Conn(0, [], [], [], {}), EmptySlots(), [], false, None), false, Idle, 0, {});
    events := [Call(config, true, true), Receive(InsertReply(1, u), true),
               Receive(FeedbackNew(2, "f", u, Success), true)];
    FirstCall(start, config);
    var s1 := Happen(start, events[0]);
    FirstReply(s1.client, u);
    var s2 := Happen(s1, events[1]);
    FirstAnswer(s2, u);
    run := [start, s1, s2, Happen(s2, events[2])];
  }

  lemma FirstCall(s: Caller, config: GatewayConfig)
    requires s.client == Client(Conn(0, [], [], [], {}), EmptySlots(), [], false, None) && s.phase == Idle
    ensures var s1 := Happen(s, Call(config, true, true));
      && s1.client.conn.receipts == [Receipt(1, InsertReceipt, WriteCallback)] && s1.client.conn.nextId == 1
      && s1.client.table == EmptySlots<Uuid, GatewayConfig>()[1 := Some(Fresh(1, NO_UUID, true, config))]
      && !s1.client.watching && s1.client.monitors == [] && s1.client.cleanup == None
      && s1.phase == Sent(1) && s1.blocked
  {
  }

  lemma FirstAnswer(s: Caller, u: Uuid)
    requires s.client.monitors == [2] && s.client.cleanup == None && FindKey(s.client.table, u) == Some(1)
    ensures var s1 := Happen(s, Receive(FeedbackNew(2, "f", u, Success), true));
      s1.client.cleanup == Some(u) && s1.phase == s.phase && s1.blocked == s.blocked
  {
  }

  lemma FirstReply(cl: Client, u: Uuid)
    requires cl.conn.receipts == [Receipt(1, InsertReceipt, WriteCallback)] && cl.conn.nextId == 1
    requires cl.table[1].Some? && cl.table[1].value.id == 1 && !cl.watching && cl.monitors == []
    ensures var cl' := OnMessage(Arrived(cl, InsertReply(1, u)), true);
      && cl'.table == cl.table[1 := Some(cl.table[1].value.(uuid := u, state := UuidReceived))]
      && cl'.monitors == [2] && cl'.cleanup == cl.cleanup
  {
  }

  /** The wait of that call times out, and a second call is made before the rows of the
      first are deleted: it returns true although its own transaction is still in the
      table. */
  lemma BlockedCallMisleads(first: GatewayConfig, second: GatewayConfig, u: Uuid)
    returns (run: seq<Caller>, events: seq<Event>)
    requires u != NO_UUID
    ensures IsRun(run, events)
    ensures var s := run[|run| - 1];
      && s.phase.Returned? && s.phase.ok && s.phase.rid !in s.done
      && exists k :: 0 <= k < MAX_TABLE_SIZE && s.client.table[k].Some? && s.client.table[k].value.id == s.phase.rid
  {
    run, events := AnsweredBeforeTheWait(first, u);
    run, events := Then(run, events, Enter);
    run, events := Then(run, events, WakeUp(TimeUp));
    EarlierCleanupMisleads(run, events, |run| - 1, second);
    run, events := Then(run, events, Call(second, true, true));
    run, events := Then(run, events, Enter);
    run, events := Then(run, events, Finish(true, true));
    run, events := Then(run, events, WakeUp(Woken));
  }

  lemma Then(run: seq<Caller>, events: seq<Event>, e: Event) returns (run': seq<Caller>, events': seq<Event>)
    requires IsRun(run, events) && Possible(run[|run| - 1], e)
    ensures IsRun(run', events') && run' == Extended(run, e) && events' == events + [e]
  {
    ExtendedIsRun(run, events, e);
    run', events' := Extended(run, e), events + [e];
  }

  lemma FirstPost(s: Caller, config: GatewayConfig)
    requires s.phase == Waiting(1) && s.done == {} && s.client.conn.nextId == 1
    requires s.client.table[1].Some? && s.client.table[1].value.id == 1
    ensures var s1 := Happen(s, Post(config, true, true)); var s2 := Happen(s1, WakeUp(Woken));
      && s2.phase == Returned(1, true) && s2.done == {}
      && s2.client.table[1].Some? && s2.client.table[1].value.id == 1
  {
  }

  /** A call waits; a request with a callback, made by another thread, clears the flag,
      and a spurious wakeup lets the call return true although its transaction is still
      in the table. */
  lemma OtherRequestMisleads(first: GatewayConfig, second: GatewayConfig)
    returns (run: seq<Caller>, events: seq<Event>)
    ensures IsRun(run, events)
    ensures var s := run[|run| - 1];
      && s.phase == Returned(1, true) && 1 !in s.done
      && s.client.table[1].Some? && s.client.table[1].value.id == 1
  {
    var start := Caller(Client(Conn(0, [], [], [], {}), EmptySlots(), [], false, None), false, Idle, 0, {});
    run, events := [start], [];
    FirstCall(start, first);
    run, events := Then(run, events, Call(first, true, true));
    run, events := Then(run, events, Enter);
    FirstPost(run[|run| - 1], second);
    run, events := Then(run, events, Post(second, true, true));
    run, events := Then(run, events, WakeUp(Woken));
  }
}
