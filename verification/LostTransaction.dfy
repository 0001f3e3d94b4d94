/** A transaction that another request's failed write takes out of the table, and what
    becomes of the request. */
module LostTransaction {
  import opened OvsTypes
  import opened Codec
  import opened Connection
  import opened TransactionTable
  import opened Peers
  import opened Protocol
  import opened ProtocolTheorems
  import opened Misattribution

  /** A request that is not tracked, and whose write fails, leaves the table as it was
      exactly when the slot of its id is free. */
  lemma UntrackedFailureIsHarmlessIff(s: System, c: nat, config: GatewayConfig)
    requires Enabled(s, Request(c, config, false, false, false))
    ensures Step(s, Request(c, config, false, false, false)).clients[c].table == s.clients[c].table
            <==> s.clients[c].table[Key(s.clients[c].conn.nextId + 1)].None?
  {
    var t := s.clients[c].table;
    assert Deleted(t, s.clients[c].conn.nextId + 1)[Key(s.clients[c].conn.nextId + 1)] == None;
  }

  /** Request `rid` of client c has been made, and has no transaction any more. */
  ghost predicate Lost(s: System, c: nat, rid: Rid) {
    && c < |s.clients| && rid <= s.clients[c].conn.nextId
    && forall k :: 0 <= k < MAX_TABLE_SIZE && s.clients[c].table[k].Some? ==> s.clients[c].table[k].value.id != rid
  }

  ghost predicate Told(log: History, c: nat, rid: Rid) {
    exists n :: 0 <= n < |log.calls| && log.calls[n].client == c && log.calls[n].rid == rid
  }

  lemma MessageKeepsLost(cl: Client, rid: Rid, sent: bool)
    requires cl.conn.down != []
    ensures OnMessage(cl, sent).conn.nextId >= cl.conn.nextId
    ensures (forall k :: 0 <= k < MAX_TABLE_SIZE && cl.table[k].Some? ==> cl.table[k].value.id != rid) ==>
      forall k :: 0 <= k < MAX_TABLE_SIZE && OnMessage(cl, sent).table[k].Some? ==>
        OnMessage(cl, sent).table[k].value.id != rid
  {
  }

  lemma StepKeepsLost(s: System, l: Label, c: nat, rid: Rid)
    requires Enabled(s, l) && Lost(s, c, rid)
    ensures Lost(Step(s, l), c, rid)
  {
    if l.Deliver? {
      MessageKeepsLost(s.clients[l.c], rid, l.sent);
    } else if l.ServeClient? || l.ServeAgent? {
      ServeKeepsIds(s, l, c);
    }
  }

  lemma ServeKeepsIds(s: System, l: Label, c: nat)
    requires Enabled(s, l) && (l.ServeClient? || l.ServeAgent?) && c < |s.clients|
    ensures Step(s, l).clients[c].conn.nextId == s.clients[c].conn.nextId
    ensures Step(s, l).clients[c].table == s.clients[c].table
  {
    ServeTouchesConns(s, l);
  }

  lemma LostIsNotTold(s: System, l: Label, c: nat, rid: Rid)
    requires Enabled(s, l) && Lost(s, c, rid) && !Told(s.log, c, rid)
    ensures !Told(Step(s, l).log, c, rid)
  {
    if l.ServeClient? || l.ServeAgent? { ServeTouchesConns(s, l); }
  }

  /** Its caller has not been told, and will not be. */
  ghost predicate Untold(s: System, c: nat, rid: Rid) {
    Lost(s, c, rid) && !Told(s.log, c, rid)
  }

  lemma NextKeepsUntold(s: System, s': System, c: nat, rid: Rid)
    requires Next(s, s') && Untold(s, c, rid)
    ensures Untold(s', c, rid)
  {
    var l :| Enabled(s, l) && s' == Step(s, l);
    StepKeepsLost(s, l, c, rid);
    LostIsNotTold(s, l, c, rid);
  }

  /** The k-th step of a run is one. */
  ghost predicate NextAt(run: seq<System>, k: nat) {
    k + 1 < |run| && Next(run[k], run[k + 1])
  }

  lemma {:induction false} StepsKeepUntold(run: seq<System>, i: nat, j: nat, c: nat, rid: Rid)
    requires i <= j < |run| && Untold(run[i], c, rid) && forall k :: i <= k < j ==> NextAt(run, k)
    ensures Untold(run[j], c, rid)
    decreases j - i
  {
    if i < j {
      StepsKeepUntold(run, i, j - 1, c, rid);
      assert NextAt(run, j - 1);
      NextKeepsUntold(run[j - 1], run[j], c, rid);
    }
  }

  /** Whatever happens, such a request is never completed: its caller is not told. */
  lemma LostIsNeverTold(run: seq<System>, i: nat, j: nat, c: nat, rid: Rid)
    requires IsRun(run) && i <= j < |run| && Lost(run[i], c, rid) && !Told(run[i].log, c, rid)
    ensures Lost(run[j], c, rid) && !Told(run[j].log, c, rid)
  {
    forall k | i <= k < j ensures NextAt(run, k) {
      assert Next(run[k], run[k + 1]);
    }
    StepsKeepUntold(run, i, j, c, rid);
  }

  /** Request 1 waits for its reply, and n ids have been used. */
  ghost predicate Waits1(s: System, n: nat, first: GatewayConfig) {
    && |s.clients| == 1 && s.clients[0].conn.nextId == n && s.log.calls == []
    && s.clients[0].table == EmptySlots<Uuid, GatewayConfig>()[1 := Some(Fresh(1, NO_UUID, true, first))]
    && s.clients[0].conn.up == [InsertGateway(1, EncodeGateway(first))]
  }

  lemma StartWaiting(first: GatewayConfig) returns (run: seq<System>)
    ensures IsRun(run) && Waits1(run[|run| - 1], 1, first)
  {
    run := [Begin()];
    assert InitClient(Begin().clients[0]) && Begin().agent == StartedAgent(0);
    run := Then(run, Request(0, first, true, true, true));
  }

  lemma FailHarmlessly(s: System, n: nat, first: GatewayConfig, config: GatewayConfig)
    requires Waits1(s, n, first) && 1 <= n < 5
    ensures var l := Request(0, config, false, false, false);
      Enabled(s, l) && Waits1(Step(s, l), n + 1, first)
  {
    var s' := Step(s, Request(0, config, false, false, false));
    assert s'.clients[0].table == s.clients[0].table;
  }

  lemma {:induction false} FailUpTo5(run: seq<System>, n: nat, first: GatewayConfig,
                                     config: GatewayConfig) returns (run': seq<System>)
    requires IsRun(run) && Waits1(run[|run| - 1], n, first) && 1 <= n <= 5
    ensures IsRun(run') && Waits1(run'[|run'| - 1], 5, first)
    decreases 5 - n
  {
    run' := run;
    if n < 5 {
      FailHarmlessly(run[|run| - 1], n, first, config);
      run' := Then(run, Request(0, config, false, false, false));
      run' := FailUpTo5(run', n + 1, first, config);
    }
  }

  lemma FailHarmfully(s: System, first: GatewayConfig, config: GatewayConfig)
    requires Waits1(s, 5, first)
    ensures var l := Request(0, config, false, false, false);
      && Enabled(s, l) && Step(s, l).clients[0].table == EmptySlots() && Step(s, l).log.calls == []
      && Step(s, l).clients[0].conn.up == s.clients[0].conn.up && |Step(s, l).clients| == 1
      && Step(s, l).clients[0].conn.nextId == 6
  {
    var s' := Step(s, Request(0, config, false, false, false));
    assert s'.clients[0].table == s.clients[0].table[1 := None];
  }

  /** A run in which request 1 is written and waits with its transaction in the table,
      until the untracked request 6 fails to be written: the transaction is gone,
      and the caller of request 1 will not be told, although the request is still on its
      way. */
  lemma TrackedRequestIsLost(first: GatewayConfig, config: GatewayConfig) returns (run: seq<System>)
    ensures IsRun(run) && |run| > 1
    ensures var s, s' := run[|run| - 2], run[|run| - 1];
      && Waits1(s, 5, first) && s' == Step(s, Request(0, config, false, false, false))
      && s'.clients[0].conn.up == [InsertGateway(1, EncodeGateway(first))]
      && Lost(s', 0, 1) && !Told(s'.log, 0, 1)
  {
    run := StartWaiting(first);
    run := FailUpTo5(run, 1, first, config);
    FailHarmfully(run[|run| - 1], first, config);
    run := Then(run, Request(0, config, false, false, false));
  }
}
