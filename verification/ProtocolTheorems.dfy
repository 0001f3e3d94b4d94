/** What every run of the system guarantees, and when. */
module ProtocolTheorems {
  import opened OvsTypes
  import opened Codec
  import opened Connection
  import opened TransactionTable
  import opened Peers
  import opened Protocol
  import opened ProtocolInvariant

  // ----- Causal order -----

  /** Wherever a Feedback update for client c's own row stands in the channel to c,
      the client has either taken the insert reply for that row already or finds it
      at an earlier position. */
  lemma CausalOrder(run: seq<System>, i: nat, c: nat, j: nat)
    requires IsRun(run) && i < |run| && c < |run[i].clients|
    requires j < |run[i].clients[c].conn.down| && run[i].clients[c].conn.down[j].FeedbackNew?
    requires Mine(run[i].log, c, run[i].clients[c].conn.down[j].reqUuid)
    ensures var s := run[i]; var down := s.clients[c].conn.down; var u := down[j].reqUuid;
      u in s.log.receipted
      || exists k :: 0 <= k < j && down[k] == InsertReply(s.log.origins[u].rid, u)
  {
    RunInv(run, i);
    assert ClientOk(run[i].clients[c], c, run[i].log);
    assert DownOk(run[i].clients[c].conn.down, c, run[i].log);
  }

  // ----- Deletions -----

  /** The updates that announce deleted rows change no transaction and trigger no
      action, at a client or at the agent. That the code hands no row of such an update
      to a callback is proved in Notifications. */
  lemma DeletionsAreInert(s: System, l: Label)
    requires Enabled(s, l)
    requires (l.Deliver? && s.clients[l.c].conn.down[0].RowsGone?)
             || (l.AgentDeliver? && s.agent.conn.down[0].RowsGone?)
    ensures var s' := Step(s, l);
      && s'.log == s.log && s'.db == s.db
      && (forall c :: 0 <= c < |s.clients| ==>
            s'.clients[c].table == s.clients[c].table && s'.clients[c].conn.up == s.clients[c].conn.up)
      && s'.agent.conn.up == s.agent.conn.up
  {
  }

  // ----- Client isolation -----

  // ----- What the server's steps leave alone -----

  /** The clients differ in their connections only. */
  ghost predicate OnlyConns(clients: seq<Client>, clients': seq<Client>) {
    |clients'| == |clients|
    && forall c :: 0 <= c < |clients| ==> clients'[c] == clients[c].(conn := clients'[c].conn)
  }

  lemma NotifyTouchesConns(clients: seq<Client>, c: nat, at: nat, watchers: map<nat, nat>, m: Message, n: Notice)
    requires c < |clients| && at < |clients[c].conn.up|
    ensures OnlyConns(clients, NotifyAll(clients, watchers, n))
    ensures OnlyConns(clients, NotifyAll(Replied(clients, c, at, m), watchers, n))
    ensures NotifyAll(clients, watchers, n)[c].conn.up == clients[c].conn.up
    ensures OnlyConns(clients, Replied(NotifyAll(clients, watchers, n), c, at, m))
  {
  }

  lemma ServeClientTouchesConns(s: System, c: nat, at: nat, uuid: Uuid, outcome: Outcome, replyFirst: bool)
    requires c < |s.clients| && at < |s.clients[c].conn.up|
    ensures OnlyConns(s.clients, Served(s, c, at, uuid, outcome, replyFirst).clients)
  {
    var q := s.clients[c].conn.up[at];
    if q.DeleteFeedback? {
      var gone := set u | u in s.db.feedback && s.db.feedback[u].reqUuid == q.reqUuid;
      NotifyTouchesConns(s.clients, c, at, s.db.watchers, DeleteReply(q.rid, |gone|), Gone(FeedbackTable));
    }
  }

  lemma ServeClientLog(s: System, c: nat, at: nat, uuid: Uuid, outcome: Outcome, replyFirst: bool)
    requires c < |s.clients| && at < |s.clients[c].conn.up|
    ensures var log' := Served(s, c, at, uuid, outcome, replyFirst).log;
      && log' == s.log.(origins := log'.origins, aborted := log'.aborted)
      && forall u :: u in s.log.origins && u != uuid ==> u in log'.origins && log'.origins[u] == s.log.origins[u]
  {
  }

  lemma ServeTouchesConns(s: System, l: Label)
    requires Enabled(s, l) && (l.ServeClient? || l.ServeAgent?)
    ensures var s' := Step(s, l);
      && OnlyConns(s.clients, s'.clients)
      && s'.log.calls == s.log.calls && s'.log.deletes == s.log.deletes
      && (forall u :: u in s.log.origins && u in s.db.used ==>
            u in s'.log.origins && s'.log.origins[u] == s.log.origins[u])
  {
    if l.ServeClient? {
      ServeClientTouchesConns(s, l.c, l.at, l.uuid, l.outcome, l.replyFirst);
      ServeClientLog(s, l.c, l.at, l.uuid, l.outcome, l.replyFirst);
    }
  }

  /** A transaction of client c was completed with this uuid. */
  predicate Completed(log: History, c: nat, uuid: Uuid) {
    exists i :: 0 <= i < |log.calls| && log.calls[i].client == c && log.calls[i].uuid == uuid
  }

  /** Rows are deleted, or about to be, only after a completion with their uuid. */
  ghost predicate CleanupsFollow(s: System) {
    && (forall c :: 0 <= c < |s.clients| && s.clients[c].cleanup.Some? ==>
          Completed(s.log, c, s.clients[c].cleanup.value))
    && (forall c, u :: (c, u) in s.log.deletes ==> Completed(s.log, c, u))
  }

  lemma CompletedStays(log: History, log': History)
    requires |log.calls| <= |log'.calls| && log'.calls[..|log.calls|] == log.calls
    ensures forall c, u :: Completed(log, c, u) ==> Completed(log', c, u)
  {
    forall c, u | Completed(log, c, u) ensures Completed(log', c, u) {
      var i :| 0 <= i < |log.calls| && log.calls[i].client == c && log.calls[i].uuid == u;
      assert log'.calls[i] == log.calls[i];
    }
  }

  lemma CleanupStep(s: System, l: Label)
    requires Enabled(s, l) && !l.Deliver?
    ensures var s' := Step(s, l);
      && |s'.clients| == |s.clients| && s'.log.calls == s.log.calls
      && (forall c :: 0 <= c < |s.clients| && s'.clients[c].cleanup.Some? ==>
            s'.clients[c].cleanup == s.clients[c].cleanup)
      && (forall c, u :: (c, u) in s'.log.deletes && (c, u) !in s.log.deletes ==>
            c < |s.clients| && s.clients[c].cleanup == Some(u))
  {
    if l.ServeClient? || l.ServeAgent? {
      ServeTouchesConns(s, l);
    }
  }

  lemma ReplyKeepsCleanup(cl: Client, sent: bool)
    requires cl.conn.down != [] && cl.conn.down[0].IsReply()
    ensures OnReply(cl, sent).cleanup == cl.cleanup
  {
  }

  lemma CompletionStep(s: System, l: Label)
    requires Enabled(s, l) && l.Deliver?
    ensures var s' := Step(s, l); var f := Completes(s.clients[l.c], s.clients[l.c].conn.down[0]);
      && s'.log.deletes == s.log.deletes && s'.clients == s.clients[l.c := s'.clients[l.c]]
      && (f.None? ==> s'.clients[l.c].cleanup.None? && s'.log.calls == s.log.calls)
      && (f.Some? ==>
            && |s'.log.calls| == |s.log.calls| + 1 && s'.log.calls[..|s.log.calls|] == s.log.calls
            && s'.log.calls[|s.log.calls|].client == l.c
            && s'.clients[l.c].cleanup == Some(s'.log.calls[|s.log.calls|].uuid))
  {
    if s.clients[l.c].conn.down[0].IsReply() { ReplyKeepsCleanup(s.clients[l.c], l.sent); }
  }

  lemma StepFollows(s: System, l: Label)
    requires Enabled(s, l) && CleanupsFollow(s)
    ensures CleanupsFollow(Step(s, l))
  {
    if l.Deliver? { CompletionStep(s, l); } else { CleanupStep(s, l); }
    CompletedStays(s.log, Step(s, l).log);
  }

  lemma NextFollows(s: System, s': System)
    requires CleanupsFollow(s) && Next(s, s')
    ensures CleanupsFollow(s')
  {
    var l :| Enabled(s, l) && s' == Step(s, l);
    StepFollows(s, l);
  }

  lemma InitFollows(s: System)
    requires Init(s)
    ensures CleanupsFollow(s)
  {
    forall c | 0 <= c < |s.clients| ensures s.clients[c].cleanup.None? {
      assert InitClient(s.clients[c]);
    }
  }

  lemma {:induction false} RunFollows(run: seq<System>, i: nat)
    requires IsRun(run) && i < |run|
    ensures CleanupsFollow(run[i])
  {
    if i == 0 {
      InitFollows(run[0]);
    } else {
      RunFollows(run, i - 1);
      assert Next(run[i - 1], run[i - 1 + 1]);
      NextFollows(run[i - 1], run[i]);
    }
  }

  /** A client asks only for the deletion of rows whose uuid one of its own insert
      replies returned, after the agent answered them and one of its transactions was
      completed with that uuid; from then on none of its transactions carries it. No
      assumption is made on slot collisions. */
  lemma ClientIsolation(run: seq<System>, i: nat, c: nat, uuid: Uuid)
    requires IsRun(run) && i < |run| && c < |run[i].clients|
    requires (c, uuid) in run[i].log.deletes
    ensures var s := run[i];
      && uuid in s.log.origins && s.log.origins[uuid].client == c
      && uuid in s.log.receipted
      && uuid in s.log.answered
      && Completed(s.log, c, uuid)
      && forall k :: 0 <= k < MAX_TABLE_SIZE ==> !Holds(s.clients[c].table, k, uuid)
  {
    RunInv(run, i);
    RunFollows(run, i);
    assert ClientOk(run[i].clients[c], c, run[i].log);
    assert Retired(run[i].clients[c].table, c, run[i].log, uuid);
  }

  /** Deletion requests on the wire are those recorded, so the rows of another
      client are never among them. */
  lemma DeletesOnTheWire(run: seq<System>, i: nat, c: nat, j: nat)
    requires IsRun(run) && i < |run| && c < |run[i].clients| && j < |run[i].clients[c].conn.up|
    ensures var q := run[i].clients[c].conn.up[j];
      && (q.DeleteGateway? ==> Mine(run[i].log, c, q.uuid))
      && (q.DeleteFeedback? ==> Mine(run[i].log, c, q.reqUuid))
  {
    RunInv(run, i);
    assert ClientOk(run[i].clients[c], c, run[i].log);
    assert UpOk(run[i].clients[c].conn.up, c, run[i].log);
    var q := run[i].clients[c].conn.up[j];
    if q.DeleteGateway? { assert Retired(run[i].clients[c].table, c, run[i].log, q.uuid); }
    if q.DeleteFeedback? { assert Retired(run[i].clients[c].table, c, run[i].log, q.reqUuid); }
  }

  /** A committed Gateway_Config row leaves the database only because the client
      that requested it asked for its deletion. */
  lemma RowsStayUntilOwnerDeletes(run: seq<System>, i: nat, uuid: Uuid)
    requires IsRun(run) && i < |run| && uuid in run[i].log.origins && uuid !in run[i].log.aborted
    ensures uuid in run[i].db.gateway || (run[i].log.origins[uuid].client, uuid) in run[i].log.deletes
  {
    RunInv(run, i);
  }

  /** Although every watching client sees every Feedback row, an update completes a
      transaction only at the client that owns the row it answers. */
  lemma OnlyOwnerCompletes(run: seq<System>, i: nat, c: nat)
    requires IsRun(run) && i < |run| && c < |run[i].clients| && run[i].clients[c].conn.down != []
    requires Completes(run[i].clients[c], run[i].clients[c].conn.down[0]).Some?
    ensures Mine(run[i].log, c, run[i].clients[c].conn.down[0].reqUuid)
  {
    RunInv(run, i);
    var cl := run[i].clients[c];
    assert ClientOk(cl, c, run[i].log);
    assert cl.conn.down[0].reqUuid in run[i].log.answered;
  }

  // ----- At most once -----

  /** Row u's uuid has been learned, and no slot holds it. */
  predicate Spent(log: History, t: Slots<Uuid, GatewayConfig>, u: Uuid) {
    u in log.receipted && forall k :: 0 <= k < MAX_TABLE_SIZE ==> !Holds(t, k, u)
  }

  /** The uuids of completed transactions are spent, and no two completions share one. */
  ghost predicate CallsSpent(s: System) {
    && (forall i :: 0 <= i < |s.log.calls| ==>
          && s.log.calls[i].client < |s.clients|
          && Spent(s.log, s.clients[s.log.calls[i].client].table, s.log.calls[i].uuid))
    && (forall i, j :: 0 <= i < j < |s.log.calls| ==> s.log.calls[i].uuid != s.log.calls[j].uuid)
  }

  /** What a step leaves in the slots of client c: nothing new, or a transaction that
      waits for its uuid, or the uuid of the insert reply just taken. */
  ghost predicate SlotsMove(t: Slots<Uuid, GatewayConfig>, t': Slots<Uuid, GatewayConfig>, learned: Option<Uuid>) {
    forall k :: 0 <= k < MAX_TABLE_SIZE && t'[k].Some? ==>
      || t'[k] == t[k]
      || t'[k].value.uuid == NO_UUID
      || learned == Some(t'[k].value.uuid)
  }

  function Learned(s: System, l: Label, c: nat): Option<Uuid>
    requires Enabled(s, l)
  {
    if l.Deliver? && l.c == c && s.clients[c].conn.down[0].InsertReply?
    then Some(s.clients[c].conn.down[0].uuid) else None
  }

  lemma DeliverMovesSlots(cl: Client, sent: bool)
    requires cl.conn.down != []
    ensures var m := cl.conn.down[0];
      SlotsMove(cl.table, OnMessage(cl, sent).table, if m.InsertReply? then Some(m.uuid) else None)
  {
  }

  lemma StepMovesSlots(s: System, l: Label, c: nat)
    requires Enabled(s, l) && c < |s.clients|
    ensures SlotsMove(s.clients[c].table, Step(s, l).clients[c].table, Learned(s, l, c))
  {
    if l.Deliver? {
      DeliverMovesSlots(s.clients[l.c], l.sent);
    } else if l.ServeClient? || l.ServeAgent? {
      ServeTouchesConns(s, l);
    }
  }

  lemma SpentStays(log: History, log': History, t: Slots<Uuid, GatewayConfig>, t': Slots<Uuid, GatewayConfig>,
                   learned: Option<Uuid>, u: Uuid)
    requires Spent(log, t, u) && SlotsMove(t, t', learned) && log.receipted <= log'.receipted
    requires u != NO_UUID && learned != Some(u)
    ensures Spent(log', t', u)
  {
    forall k | 0 <= k < MAX_TABLE_SIZE ensures !Holds(t', k, u) {
      assert !Holds(t, k, u);
    }
  }

  lemma CompletionSpends(cl: Client, c: nat, log: History, sent: bool)
    requires ClientOk(cl, c, log) && NO_UUID !in log.answered && cl.conn.down != []
    requires Completes(cl, cl.conn.down[0]).Some?
    ensures Spent(log, OnMessage(cl, sent).table, cl.conn.down[0].reqUuid)
  {
    assert cl.conn.down[0].reqUuid in log.answered;
  }

  lemma ReceiptedGrows(s: System, l: Label)
    requires Enabled(s, l)
    ensures s.log.receipted <= Step(s, l).log.receipted
  {
    if l.ServeClient? { ServeClientLog(s, l.c, l.at, l.uuid, l.outcome, l.replyFirst); }
  }

  /** The calls already recorded stay spent. */
  lemma StepKeepsSpent(s: System, l: Label, i: nat)
    requires Inv(s) && Enabled(s, l) && CallsSpent(s) && i < |s.log.calls|
    ensures var call := s.log.calls[i]; Spent(Step(s, l).log, Step(s, l).clients[call.client].table, call.uuid)
  {
    var call := s.log.calls[i];
    var cl := s.clients[call.client];
    assert ClientOk(cl, call.client, s.log);
    StepMovesSlots(s, l, call.client);
    ReceiptedGrows(s, l);
    var s' := Step(s, l);
    SpentStays(s.log, s'.log, cl.table, s'.clients[call.client].table, Learned(s, l, call.client), call.uuid);
  }

  lemma KnownStaySpent(s: System, l: Label)
    requires Inv(s) && Enabled(s, l) && CallsSpent(s)
    ensures forall i :: 0 <= i < |s.log.calls| ==>
      Spent(Step(s, l).log, Step(s, l).clients[s.log.calls[i].client].table, s.log.calls[i].uuid)
  {
    forall i | 0 <= i < |s.log.calls|
      ensures Spent(Step(s, l).log, Step(s, l).clients[s.log.calls[i].client].table, s.log.calls[i].uuid)
    {
      StepKeepsSpent(s, l, i);
    }
  }

  /** The calls grew by at most one, whose uuid is spent and new among them. */
  ghost predicate CallsGrow(s: System, s': System) {
    var n := |s.log.calls|;
    || s'.log.calls == s.log.calls
    || (&& |s'.log.calls| == n + 1 && s'.log.calls[..n] == s.log.calls
        && s'.log.calls[n].client < |s'.clients|
        && Spent(s'.log, s'.clients[s'.log.calls[n].client].table, s'.log.calls[n].uuid)
        && forall i :: 0 <= i < n ==> s.log.calls[i].uuid != s'.log.calls[n].uuid)
  }

  lemma CallsGrowSpent(s: System, s': System)
    requires CallsSpent(s) && |s'.clients| == |s.clients| && CallsGrow(s, s')
    requires forall i :: 0 <= i < |s.log.calls| ==>
               Spent(s'.log, s'.clients[s.log.calls[i].client].table, s.log.calls[i].uuid)
    ensures CallsSpent(s')
  {
    assert forall i :: 0 <= i < |s.log.calls| ==> s'.log.calls[i] == s.log.calls[i];
  }

  lemma CompletedIsNew(s: System, c: nat, k: nat, u: Uuid)
    requires CallsSpent(s) && ClientsOk(s.clients, s.log) && c < |s.clients|
    requires k < MAX_TABLE_SIZE && Holds(s.clients[c].table, k, u) && Mine(s.log, c, u)
    ensures forall i :: 0 <= i < |s.log.calls| ==> s.log.calls[i].uuid != u
  {
    forall i | 0 <= i < |s.log.calls| ensures s.log.calls[i].uuid != u {
      assert ClientOk(s.clients[s.log.calls[i].client], s.log.calls[i].client, s.log);
    }
  }

  /** Taking Feedback row u would spend it, for the first time. */
  ghost predicate SpendsNew(s: System, cl: Client, u: Uuid) {
    && Spent(s.log, cl.table, u)
    && forall i :: 0 <= i < |s.log.calls| ==> s.log.calls[i].uuid != u
  }

  lemma CompletionFacts(s: System, c: nat, sent: bool)
    requires Inv(s) && CallsSpent(s) && c < |s.clients| && s.clients[c].conn.down != []
    requires Completes(s.clients[c], s.clients[c].conn.down[0]).Some?
    ensures SpendsNew(s, OnMessage(s.clients[c], sent), s.clients[c].conn.down[0].reqUuid)
  {
    var cl := s.clients[c];
    assert ClientOk(cl, c, s.log);
    CompletionSpends(cl, c, s.log, sent);
    assert cl.conn.down[0].reqUuid in s.log.answered;
    CompletedIsNew(s, c, Completes(cl, cl.conn.down[0]).value, cl.conn.down[0].reqUuid);
  }

  lemma CompletionLogs(s: System, c: nat, sent: bool)
    requires Enabled(s, Deliver(c, sent)) && Completes(s.clients[c], s.clients[c].conn.down[0]).Some?
    ensures var s' := Step(s, Deliver(c, sent)); var n := |s.log.calls|;
      && |s'.log.calls| == n + 1 && s'.log.calls[..n] == s.log.calls && s'.log.calls[n].client == c
      && s'.log.calls[n].uuid == s.clients[c].conn.down[0].reqUuid
      && s'.log.receipted == s.log.receipted && s'.clients[c] == OnMessage(s.clients[c], sent)
  {
  }

  lemma DeliverGrows(s: System, c: nat, sent: bool)
    requires Enabled(s, Deliver(c, sent))
    requires Completes(s.clients[c], s.clients[c].conn.down[0]).Some? ==>
               SpendsNew(s, OnMessage(s.clients[c], sent), s.clients[c].conn.down[0].reqUuid)
    ensures CallsGrow(s, Step(s, Deliver(c, sent)))
  {
    if Completes(s.clients[c], s.clients[c].conn.down[0]).Some? {
      CompletionLogs(s, c, sent);
    } else {
      CompletionStep(s, Deliver(c, sent));
    }
  }

  lemma DeliverSpends(s: System, c: nat, sent: bool)
    requires Inv(s) && Enabled(s, Deliver(c, sent)) && CallsSpent(s)
    ensures CallsGrow(s, Step(s, Deliver(c, sent)))
  {
    if Completes(s.clients[c], s.clients[c].conn.down[0]).Some? { CompletionFacts(s, c, sent); }
    DeliverGrows(s, c, sent);
  }

  lemma StepSpends(s: System, l: Label)
    requires Inv(s) && Enabled(s, l) && CallsSpent(s)
    ensures CallsSpent(Step(s, l))
  {
    KnownStaySpent(s, l);
    if l.Deliver? {
      DeliverSpends(s, l.c, l.sent);
    } else {
      CleanupStep(s, l);
    }
    CallsGrowSpent(s, Step(s, l));
  }

  lemma NextSpends(s: System, s': System)
    requires Inv(s) && CallsSpent(s) && Next(s, s')
    ensures CallsSpent(s')
  {
    var l :| Enabled(s, l) && s' == Step(s, l);
    StepSpends(s, l);
  }

  lemma InitSpends(s: System)
    requires Init(s)
    ensures CallsSpent(s)
  {
  }

  lemma {:induction false} RunSpends(run: seq<System>, i: nat)
    requires IsRun(run) && i < |run|
    ensures CallsSpent(run[i])
  {
    if i == 0 {
      InitSpends(run[0]);
    } else {
      RunSpends(run, i - 1);
      RunInv(run, i - 1);
      assert Next(run[i - 1], run[i - 1 + 1]);
      NextSpends(run[i - 1], run[i]);
    }
  }

  /** The agent acts on every row at most once and answers it at most once; every
      transaction completes at most once, and every row completes at most one. Only
      committed rows are acted on, only acted rows are answered, only answered rows
      complete a transaction. */
  lemma AtMostOnce(run: seq<System>, i: nat)
    requires IsRun(run) && i < |run|
    ensures var log := run[i].log;
      && (forall a, b :: 0 <= a < b < |log.actions| ==> log.actions[a] != log.actions[b])
      && (forall a, b :: 0 <= a < b < |log.answers| ==> log.answers[a] != log.answers[b])
      && (forall a, b :: 0 <= a < b < |log.calls| && log.calls[a].client == log.calls[b].client ==>
            log.calls[a].rid != log.calls[b].rid)
      && (forall a, b :: 0 <= a < b < |log.calls| ==> log.calls[a].uuid != log.calls[b].uuid)
      && (forall a :: 0 <= a < |log.actions| ==> log.actions[a] in log.origins && log.actions[a] !in log.aborted)
      && (forall a :: 0 <= a < |log.answers| ==> log.answers[a] in log.acted)
      && (forall a :: 0 <= a < |log.calls| ==> log.calls[a].uuid in log.answered)
  {
    RunInv(run, i);
    RunSpends(run, i);
    forall a | 0 <= a < |run[i].log.calls| ensures run[i].log.calls[a].uuid in run[i].log.answered {
      assert ClientOk(run[i].clients[run[i].log.calls[a].client], run[i].log.calls[a].client, run[i].log);
    }
  }

  /** An insert whose commit failed is reported as an inserted row, and its uuid enters
      the transaction like any other; but the row is never acted on or answered, so no
      transaction ever completes with it and nobody asks for its deletion. */
  lemma AbortedNeverCompletes(run: seq<System>, i: nat, uuid: Uuid)
    requires IsRun(run) && i < |run| && uuid in run[i].log.aborted
    ensures var log := run[i].log;
      && uuid in log.origins && uuid !in log.acted && uuid !in log.answered
      && (forall n :: 0 <= n < |log.calls| ==> log.calls[n].uuid != uuid)
      && (forall c :: 0 <= c < |run[i].clients| ==> (c, uuid) !in log.deletes)
  {
    AtMostOnce(run, i);
    RunInv(run, i);
    forall c | 0 <= c < |run[i].clients| ensures (c, uuid) !in run[i].log.deletes {
      assert ClientOk(run[i].clients[c], c, run[i].log);
    }
  }

  // ----- Reply coverage -----

  /** Requests and replies in flight have a receipt of their own kind, no two
      receipts share an id, and every receipt belongs to a request or reply in
      flight or is stranded by a failed write or an unparsable result. */
  ghost predicate RepliesCovered(k: Conn) {
    && (forall i :: 0 <= i < |k.up| ==> Listed(k.receipts, k.up[i].rid, k.up[i].Kind()))
    && (forall i :: 0 <= i < |k.down| && k.down[i].IsReply() ==>
          exists kind :: Listed(k.receipts, k.down[i].rid, kind) && k.down[i].Answers(kind))
    && (forall i, j :: 0 <= i < j < |k.receipts| ==> k.receipts[i].rid != k.receipts[j].rid)
    && (forall rid :: (exists kind :: Listed(k.receipts, rid, kind)) <==>
          rid in k.stranded || RequestOut(k, rid) || ReplyIn(k, rid))
    && (forall rid :: !(RequestOut(k, rid) && ReplyIn(k, rid)))
    && (forall rid :: rid in k.stranded ==> !RequestOut(k, rid) && !ReplyIn(k, rid))
  }

  lemma SoundCovers(k: Conn)
    requires Sound(k)
    ensures RepliesCovered(k)
  {
  }

  lemma ReplyCoverage(run: seq<System>, i: nat)
    requires IsRun(run) && i < |run|
    ensures RepliesCovered(run[i].agent.conn)
    ensures forall c :: 0 <= c < |run[i].clients| ==> RepliesCovered(run[i].clients[c].conn)
  {
    RunInv(run, i);
    SoundCovers(run[i].agent.conn);
    forall c | 0 <= c < |run[i].clients| ensures RepliesCovered(run[i].clients[c].conn) {
      assert ClientOk(run[i].clients[c], c, run[i].log);
      SoundCovers(run[i].clients[c].conn);
    }
  }

  // ----- Attribution -----

  /** Every uuid a transaction of client c carries, or was completed with, is that
      of the row its own request created. */
  ghost predicate Attributed(t: Slots<Uuid, GatewayConfig>, c: nat, log: History) {
    && (forall k :: 0 <= k < MAX_TABLE_SIZE && t[k].Some? && t[k].value.uuid != NO_UUID ==>
          t[k].value.uuid in log.origins && log.origins[t[k].value.uuid].rid == t[k].value.id)
    && (forall i :: 0 <= i < |log.calls| && log.calls[i].client == c ==>
          log.calls[i].uuid in log.origins && log.origins[log.calls[i].uuid].rid == log.calls[i].rid)
  }

  /** The next message for c is the insert reply of a tracked request whose slot is
      occupied by a transaction with another id. */
  predicate Misdirects(cl: Client) {
    && cl.conn.down != [] && cl.conn.down[0].InsertReply?
    && var rid := cl.conn.down[0].rid; var f := Find(cl.conn.receipts, rid);
    && f.Some? && cl.conn.receipts[f.value].callback.WriteCallback?
    && cl.table[Key(rid)].Some? && cl.table[Key(rid)].value.id != rid
  }

  /** The receipt found for a reply is of a kind whose parser the reply was made for. */
  lemma ReplyFindsItsReceipt(k: Conn)
    requires Sound(k) && k.down != [] && k.down[0].IsReply()
    ensures var f := Find(k.receipts, k.down[0].rid);
      f.Some? && k.down[0].Answers(k.receipts[f.value].kind)
  {
  }

  lemma UpdateAttributesIff(t: Slots<Uuid, GatewayConfig>, c: nat, log: History, log': History, rid: Rid, uuid: Uuid)
    requires Attributed(t, c, log) && log'.origins == log.origins && log'.calls == log.calls
    requires uuid != NO_UUID && uuid in log.origins && log.origins[uuid].rid == rid
    ensures Attributed(Updated(t, rid, uuid), c, log') <==> t[Key(rid)].None? || t[Key(rid)].value.id == rid
  {
    if t[Key(rid)].Some? {
      assert Updated(t, rid, uuid)[Key(rid)].value.uuid == uuid;
    }
  }

  lemma CompleteAttributes(t: Slots<Uuid, GatewayConfig>, c: nat, log: History, log': History, k: nat, call: Call)
    requires Attributed(t, c, log) && k < MAX_TABLE_SIZE && Holds(t, k, call.uuid) && call.uuid != NO_UUID
    requires call.rid == t[k].value.id
    requires log' == log.(calls := log.calls + [call])
    ensures Attributed(Cleared(t, k), c, log')
  {
  }

  lemma ReplyAttributesIff(cl: Client, c: nat, log: History, sent: bool)
    requires Sound(cl.conn) && DownOk(cl.conn.down, c, log) && Attributed(cl.table, c, log)
    requires NO_UUID !in log.origins && cl.conn.down != [] && cl.conn.down[0].IsReply()
    ensures Attributed(OnReply(cl, sent).table, c, Delivered(log, c, cl)) <==> !Misdirects(cl)
  {
    var m := cl.conn.down[0];
    ReplyFindsItsReceipt(cl.conn);
    if m.InsertReply? { UpdateAttributesIff(cl.table, c, log, Delivered(log, c, cl), m.rid, m.uuid); }
  }

  lemma UpdateAttributes(cl: Client, c: nat, log: History)
    requires DownOk(cl.conn.down, c, log) && Attributed(cl.table, c, log)
    requires NO_UUID !in log.answered && cl.conn.down != [] && !cl.conn.down[0].IsReply()
    ensures Attributed(OnUpdate(cl).table, c, Delivered(log, c, cl))
  {
    var f := Completes(cl, cl.conn.down[0]);
    if f.Some? {
      var log' := Delivered(log, c, cl);
      CompleteAttributes(cl.table, c, log, log', f.value, log'.calls[|log.calls|]);
    }
  }

  lemma DeliverAttributesIff(cl: Client, c: nat, log: History, sent: bool)
    requires Sound(cl.conn) && DownOk(cl.conn.down, c, log) && Attributed(cl.table, c, log)
    requires NO_UUID !in log.origins && NO_UUID !in log.answered && cl.conn.down != []
    ensures Attributed(OnMessage(cl, sent).table, c, Delivered(log, c, cl)) <==> !Misdirects(cl)
  {
    if cl.conn.down[0].IsReply() {
      ReplyAttributesIff(cl, c, log, sent);
    } else {
      UpdateAttributes(cl, c, log);
    }
  }

  /** The history grew without new calls for client c. */
  lemma QuietAttributes(t: Slots<Uuid, GatewayConfig>, t': Slots<Uuid, GatewayConfig>, c: nat, log: History,
                        log': History)
    requires Attributed(t, c, log)
    requires forall k :: 0 <= k < MAX_TABLE_SIZE && t'[k].Some? ==> t'[k] == t[k] || t'[k].value.uuid == NO_UUID
    requires forall u :: u in log.origins ==> u in log'.origins && log'.origins[u] == log.origins[u]
    requires |log.calls| <= |log'.calls| && forall i :: 0 <= i < |log.calls| ==> log'.calls[i] == log.calls[i]
    requires forall i :: |log.calls| <= i < |log'.calls| ==> log'.calls[i].client != c
    ensures Attributed(t', c, log')
  {
  }

  lemma OthersAttribute(s: System, l: Label, c: nat)
    requires Enabled(s, l) && c < |s.clients| && Attributed(s.clients[c].table, c, s.log)
    requires forall u :: u in s.log.origins ==> u in s.db.used
    requires !(l.Deliver? && l.c == c)
    ensures Attributed(Step(s, l).clients[c].table, c, Step(s, l).log)
  {
    var t := s.clients[c].table;
    if l.ServeClient? || l.ServeAgent? {
      ServeTouchesConns(s, l);
    }
    QuietAttributes(t, Step(s, l).clients[c].table, c, s.log, Step(s, l).log);
  }

  lemma DeliverStepAttributesIff(s: System, c: nat, sent: bool)
    requires Enabled(s, Deliver(c, sent)) && Attributed(s.clients[c].table, c, s.log)
    requires ClientOk(s.clients[c], c, s.log) && NO_UUID !in s.log.origins && NO_UUID !in s.log.answered
    ensures var s' := Step(s, Deliver(c, sent));
      Attributed(s'.clients[c].table, c, s'.log) <==> !Misdirects(s.clients[c])
  {
    DeliverAttributesIff(s.clients[c], c, s.log, sent);
  }

  /** A step breaks the attribution of client c exactly when it delivers to c an
      insert reply whose slot is held by another transaction. */
  lemma StepAttributesIff(s: System, l: Label, c: nat)
    requires Inv(s) && Enabled(s, l) && c < |s.clients| && Attributed(s.clients[c].table, c, s.log)
    ensures var s' := Step(s, l);
      Attributed(s'.clients[c].table, c, s'.log) <==> !(l.Deliver? && l.c == c && Misdirects(s.clients[c]))
  {
    if l.Deliver? && l.c == c {
      assert ClientOk(s.clients[c], c, s.log);
      DeliverStepAttributesIff(s, c, l.sent);
    } else {
      OthersAttribute(s, l, c);
    }
  }

  /** A step that delivers no reply to client c into a slot held by another
      transaction. */
  ghost predicate AttributingStep(s: System, s': System, c: nat) {
    exists l :: Enabled(s, l) && s' == Step(s, l) && !(l.Deliver? && l.c == c && Misdirects(s.clients[c]))
  }

  /** No step of the run up to state i delivers such a reply; one may wait in the
      channel all the same, until its slot is free again. */
  ghost predicate NoneMisdirected(run: seq<System>, i: nat, c: nat)
    requires i < |run|
  {
    forall j :: 0 <= j < i ==> AttributingStep(run[j], run[j + 1], c)
  }

  lemma NextAttributes(s: System, s': System, c: nat)
    requires Inv(s) && AttributingStep(s, s', c) && c < |s.clients| && Attributed(s.clients[c].table, c, s.log)
    ensures c < |s'.clients| && Attributed(s'.clients[c].table, c, s'.log)
  {
    var l :| Enabled(s, l) && s' == Step(s, l) && !(l.Deliver? && l.c == c && Misdirects(s.clients[c]));
    StepAttributesIff(s, l, c);
  }

  lemma {:induction false} RunAttributed(run: seq<System>, i: nat, c: nat)
    requires IsRun(run) && i < |run| && c < |run[0].clients| && NoneMisdirected(run, i, c)
    ensures c < |run[i].clients| && Attributed(run[i].clients[c].table, c, run[i].log)
  {
    if i > 0 {
      RunAttributed(run, i - 1, c);
      RunInv(run, i - 1);
      assert AttributingStep(run[i - 1], run[i - 1 + 1], c);
      NextAttributes(run[i - 1], run[i], c);
    } else {
      assert InitClient(run[0].clients[c]);
    }
  }

  ghost predicate Encoded(log: History) {
    forall key :: key in log.requests ==> log.requests[key].row == EncodeGateway(log.requests[key].config)
  }

  lemma StepEncodes(s: System, l: Label)
    requires Enabled(s, l) && Encoded(s.log)
    ensures Encoded(Step(s, l).log)
  {
  }

  lemma NextEncodes(s: System, s': System)
    requires Next(s, s') && Encoded(s.log)
    ensures Encoded(s'.log)
  {
    var l :| Enabled(s, l) && s' == Step(s, l);
    StepEncodes(s, l);
  }

  /** The row of every request is the encoding of its configuration. */
  lemma {:induction false} RunEncodes(run: seq<System>, i: nat)
    requires IsRun(run) && i < |run|
    ensures Encoded(run[i].log)
  {
    if i > 0 {
      RunEncodes(run, i - 1);
      assert Next(run[i - 1], run[i - 1 + 1]);
      NextEncodes(run[i - 1], run[i]);
    }
  }

  /** End to end: as long as no insert reply is delivered into a slot held by another
      transaction, every completed transaction of client c was answered for the row
      of its own request, the agent acted on exactly that row, the status is the
      result of that action, and the configuration the action was run on is the very
      one requested exactly when that one fits the C structure. */
  lemma EndToEnd(run: seq<System>, i: nat, c: nat, n: nat)
    requires IsRun(run) && i < |run| && c < |run[0].clients| && NoneMisdirected(run, i, c)
    requires n < |run[i].log.calls| && run[i].log.calls[n].client == c
    ensures var log := run[i].log; var call := log.calls[n];
      && call.uuid in log.origins && log.origins[call.uuid] == Origin(c, call.rid)
      && call.uuid in log.acted
      && log.acted[call.uuid].row == EncodeGateway(call.config)
      && log.acted[call.uuid].status == call.status
      && (log.acted[call.uuid].Config() == call.config <==> FitsGateway(call.config))
  {
    RunInv(run, i);
    RunAttributed(run, i, c);
    RunEncodes(run, i);
    assert ClientOk(run[i].clients[c], c, run[i].log);
    GatewayRoundTrip(run[i].log.calls[n].config);
  }

  /** With or without collisions, the status a transaction is completed with is the
      result of an action on some row of the same client. */
  lemma StatusIsAnActionResult(run: seq<System>, i: nat, c: nat, n: nat)
    requires IsRun(run) && i < |run| && c < |run[i].clients|
    requires n < |run[i].log.calls| && run[i].log.calls[n].client == c
    ensures var log := run[i].log; var call := log.calls[n];
      && call.uuid in log.origins && log.origins[call.uuid].client == c
      && call.uuid in log.acted && log.acted[call.uuid].status == call.status
      && (c, call.rid) in log.requests && log.requests[(c, call.rid)].config == call.config
  {
    RunInv(run, i);
    assert ClientOk(run[i].clients[c], c, run[i].log);
  }

  /** No tracked request that a reply may still answer shares its slot with a
      transaction of another id. The requests whose write failed, or whose result did
      not parse, are stranded and do not matter. */
  predicate SlotsUnshared(cl: Client) {
    forall i, k :: 0 <= i < |cl.conn.receipts| && 0 <= k < MAX_TABLE_SIZE
                   && cl.conn.receipts[i].callback.WriteCallback? && cl.conn.receipts[i].rid !in cl.conn.stranded
                   && cl.table[k].Some? && Key(cl.conn.receipts[i].rid) == Key(cl.table[k].value.id) ==>
      cl.conn.receipts[i].rid == cl.table[k].value.id
  }

  lemma UnsharedNeverMisdirects(cl: Client, c: nat, log: History)
    requires ClientOk(cl, c, log) && SlotsUnshared(cl)
    ensures !Misdirects(cl)
  {
  }

  /** So attribution holds over every run in which the ids pending or live at client c
      never share a slot. */
  lemma UnsharedRunAttributed(run: seq<System>, i: nat, c: nat)
    requires IsRun(run) && i < |run| && c < |run[0].clients|
    requires forall j :: 0 <= j < i ==> c < |run[j].clients| && SlotsUnshared(run[j].clients[c])
    ensures c < |run[i].clients| && Attributed(run[i].clients[c].table, c, run[i].log)
  {
    forall j | 0 <= j < i ensures AttributingStep(run[j], run[j + 1], c) {
      RunInv(run, j);
      assert ClientOk(run[j].clients[c], c, run[j].log);
      UnsharedNeverMisdirects(run[j].clients[c], c, run[j].log);
      assert Next(run[j], run[j + 1]);
    }
    RunAttributed(run, i, c);
  }

  /** Slots are unshared while all ids in use lie in a window of five. */
  lemma WindowUnshared(cl: Client, low: nat)
    requires forall i :: 0 <= i < |cl.conn.receipts| && cl.conn.receipts[i].callback.WriteCallback?
                         && cl.conn.receipts[i].rid !in cl.conn.stranded ==>
               low <= cl.conn.receipts[i].rid < low + MAX_TABLE_SIZE
    requires forall k :: 0 <= k < MAX_TABLE_SIZE && cl.table[k].Some? ==>
               low <= cl.table[k].value.id < low + MAX_TABLE_SIZE
    ensures SlotsUnshared(cl)
  {
  }
}
