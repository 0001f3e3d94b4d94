/** Which result a blocked call returns, and what it means that one has completed, in
    terms of the events of a run. */
module BlockedOutcome {
  import opened OvsTypes
  import opened Connection
  import opened TransactionTable
  import opened Peers
  import opened Waiting
  import opened BlockedCall

  // ----- The result -----

  /** Event a is the last blocking request before state i. */
  ghost predicate LastCall(events: seq<Event>, a: nat, i: nat) {
    a < i <= |events| && events[a].Call? && forall j :: a < j < i ==> !events[j].Call?
  }

  /** The wait begins with the flag set. */
  predicate EntersSet(run: seq<Caller>, events: seq<Event>, e: nat)
    requires e < |events| < |run|
  {
    events[e].Enter? && run[e].blocked
  }

  /** The waiter wakes up without a time-out or an error and finds the flag clear. */
  predicate WokenClear(run: seq<Caller>, events: seq<Event>, w: nat)
    requires w < |events| < |run|
  {
    events[w] == WakeUp(Woken) && !run[w].blocked
  }

  /** What the call made at event a has gone through up to state i. */
  ghost predicate CallState(run: seq<Caller>, events: seq<Event>, a: nat, i: nat)
    requires |run| == |events| + 1 && LastCall(events, a, i)
  {
    && run[i].phase != Idle && run[i].phase.rid == run[a].client.conn.nextId + 1
    && (run[i].phase.Sent? ==> forall j :: a < j < i ==> !events[j].Enter? && !events[j].WakeUp?)
    && (run[i].phase.Waiting? ==>
          && (exists e :: a < e < i && EntersSet(run, events, e))
          && (forall j :: a < j < i && events[j].Enter? ==> run[j].blocked)
          && (forall j :: a < j < i && events[j].WakeUp? ==> events[j].result == Woken && run[j].blocked))
    && (run[i].phase.Returned? && run[i].phase.ok ==>
          && (exists e, w :: a < e < w < i && EntersSet(run, events, e) && WokenClear(run, events, w))
          && (forall j :: a < j < i && events[j].Enter? ==> run[j].blocked))
    && (run[i].phase.Returned? && !run[i].phase.ok ==> forall w :: a < w < i ==> !WokenClear(run, events, w))
  }

  lemma CallBegins(run: seq<Caller>, events: seq<Event>, a: nat)
    requires IsRun(run, events) && a < |events| && events[a].Call?
    ensures CallState(run, events, a, a + 1)
  {
    assert run[a + 1] == Happen(run[a], events[a]);
  }

  lemma OtherEventsKeepPhase(s: Caller, e: Event)
    requires Possible(s, e) && (e.Post? || e.Receive? || e.Finish?)
    ensures Happen(s, e).phase == s.phase
  {
  }

  lemma CallGoesOn(run: seq<Caller>, events: seq<Event>, a: nat, i: nat)
    requires IsRun(run, events) && i < |events| && LastCall(events, a, i) && CallState(run, events, a, i)
    requires !events[i].Call?
    ensures CallState(run, events, a, i + 1)
  {
    assert run[i + 1] == Happen(run[i], events[i]);
    if events[i].Enter? {
      assert run[i].blocked ==> EntersSet(run, events, i);
    } else if events[i].WakeUp? {
      assert WokenClear(run, events, i) <==> events[i].result == Woken && !run[i].blocked;
    } else {
      OtherEventsKeepPhase(run[i], events[i]);
    }
  }

  lemma {:induction false} CallStates(run: seq<Caller>, events: seq<Event>, a: nat, i: nat)
    requires IsRun(run, events) && LastCall(events, a, i)
    ensures CallState(run, events, a, i)
    decreases i
  {
    if i == a + 1 {
      CallBegins(run, events, a);
    } else {
      CallStates(run, events, a, i - 1);
      CallGoesOn(run, events, a, i - 1);
    }
  }

  /** Over every run, a call returns true exactly when it entered its wait with the flag
      set and a wakeup found it clear; if it enters with the flag already clear, even
      because its transaction has completed, it returns false. */
  lemma ReturnsTrueIff(run: seq<Caller>, events: seq<Event>, a: nat, i: nat)
    requires IsRun(run, events) && LastCall(events, a, i) && run[i].phase.Returned?
    ensures run[i].phase.rid == run[a].client.conn.nextId + 1
    ensures run[i].phase.ok <==>
      exists e, w :: a < e < w < i && EntersSet(run, events, e) && WokenClear(run, events, w)
    ensures (exists e :: a < e < i && events[e].Enter? && !run[e].blocked) ==> !run[i].phase.ok
  {
    CallStates(run, events, a, i);
  }

  /** The flag is set only while a call is under way: a call sets it, and everything that
      ends one leaves it clear. */
  lemma {:induction false} FlagOnlyInCall(run: seq<Caller>, events: seq<Event>, i: nat)
    requires IsRun(run, events) && i < |run|
    ensures run[i].blocked ==> InCall(run[i])
  {
    if i > 0 {
      FlagOnlyInCall(run, events, i - 1);
      assert run[i - 1 + 1] == Happen(run[i - 1], events[i - 1]);
    }
  }

  /** A request without a callback that another thread fails to write clears the flag as
      well: a call that waits can then be woken although it has not completed. */
  lemma FailedPostMisleads(s: Caller, config: GatewayConfig)
    requires s.phase.Waiting? && s.phase.rid !in s.done
    ensures var s1 := Happen(s, Post(config, false, false));
      && Possible(s1, WakeUp(Woken))
      && Happen(s1, WakeUp(Woken)).phase == Returned(s.phase.rid, true)
      && s.phase.rid !in Happen(s1, WakeUp(Woken)).done
    ensures Happen(s, Post(config, false, true)).blocked == s.blocked
  {
  }

  // ----- The wait is the one of the handle -----

  /** The wakeups between two states of a run, as the waiter sees them. */
  function Wakeups(run: seq<Caller>, events: seq<Event>, from: nat, to: nat): seq<Wake>
    requires from <= to <= |events| < |run|
  {
    if from == to then []
    else Wakeups(run, events, from, to - 1)
         + if events[to - 1].WakeUp? then [Wake(!run[to - 1].blocked, events[to - 1].result)] else []
  }

  lemma {:induction false} WaitedAppend(blocked: bool, ws: seq<Wake>, w: Wake)
    requires forall n :: 0 <= n < |ws| ==> !Ends(ws[n])
    ensures Waited(blocked, ws + [w]) == if blocked && Ends(w) then StatusOf(w.result) else Failed
  {
    if blocked {
      if ws == [] {
        assert ([] + [w])[1..] == [];
      } else {
        assert (ws + [w])[1..] == ws[1..] + [w];
        WaitedAppend(true, ws[1..], w);
      }
    }
  }

  /** While the call waits none of its wakeups has ended the wait; once it has returned,
      they are what the handle's wait turns into the result. */
  ghost predicate WaitState(run: seq<Caller>, events: seq<Event>, e: nat, i: nat)
    requires e < i <= |events| < |run|
  {
    var ws := Wakeups(run, events, e, i);
    && (run[i].phase.Waiting? ==> run[e].blocked && forall n :: 0 <= n < |ws| ==> !Ends(ws[n]))
    && (run[i].phase.Returned? ==>
          && (run[e].blocked ==> exists n :: 0 <= n < |ws| && Ends(ws[n]))
          && (run[i].phase.ok <==> Waited(run[e].blocked, ws) == Success))
    && !run[i].phase.Sent? && !run[i].phase.Idle?
  }

  lemma WaitBegins(run: seq<Caller>, events: seq<Event>, e: nat)
    requires IsRun(run, events) && e < |events| && events[e].Enter?
    ensures WaitState(run, events, e, e + 1)
  {
    assert run[e + 1] == Happen(run[e], events[e]);
    assert Wakeups(run, events, e, e + 1) == Wakeups(run, events, e, e) + [];
  }

  lemma WaitGoesOn(run: seq<Caller>, events: seq<Event>, e: nat, i: nat)
    requires IsRun(run, events) && e < i < |events| && WaitState(run, events, e, i) && !events[i].Call?
    ensures WaitState(run, events, e, i + 1)
  {
    assert run[i + 1] == Happen(run[i], events[i]);
    var ws := Wakeups(run, events, e, i);
    if events[i].WakeUp? {
      var w := Wake(!run[i].blocked, events[i].result);
      assert Wakeups(run, events, e, i + 1) == ws + [w] && (ws + [w])[|ws|] == w;
      WaitedAppend(run[e].blocked, ws, w);
    } else {
      assert Wakeups(run, events, e, i + 1) == ws + [] == ws;
      OtherEventsKeepPhase(run[i], events[i]);
    }
  }

  /** The result of a call that waits is that of `Handle.WaitForCompletion`, entered with
      the flag as it is then and going through the wakeups of the run. */
  lemma {:induction false} WaitIsTheHandles(run: seq<Caller>, events: seq<Event>, e: nat, i: nat)
    requires IsRun(run, events) && e < i <= |events| && events[e].Enter?
    requires forall j :: e < j < i ==> !events[j].Call?
    ensures WaitState(run, events, e, i)
    decreases i
  {
    if i == e + 1 {
      WaitBegins(run, events, e);
    } else {
      WaitIsTheHandles(run, events, e, i - 1);
      WaitGoesOn(run, events, e, i - 1);
    }
  }

  /** The step by which a call returns changes the client only if it returns false: then
      the transaction of its id is deleted. */
  lemma ReturningStep(run: seq<Caller>, events: seq<Event>, r: nat)
    requires IsRun(run, events) && r < |events| && InCall(run[r]) && run[r + 1].phase.Returned?
    ensures run[r + 1].phase.rid == run[r].phase.rid
    ensures run[r + 1].client ==
      if run[r + 1].phase.ok then run[r].client else Abandon(run[r].client, run[r].phase.rid)
  {
    assert run[r + 1] == Happen(run[r], events[r]);
    if events[r].Post? || events[r].Receive? || events[r].Finish? { OtherEventsKeepPhase(run[r], events[r]); }
  }

  // ----- What it means to have completed -----

  /** Event k hands the component a Feedback row for uuid u, and this completes the
      transaction of request rid. */
  ghost predicate CompletesAt(run: seq<Caller>, events: seq<Event>, k: nat, rid: Rid, u: Uuid)
    requires k < |events| < |run|
  {
    && events[k].Receive? && events[k].m.FeedbackNew? && events[k].m.reqUuid == u
    && var f := Completes(Arrived(run[k].client, events[k].m), events[k].m);
    && f.Some? && Holds(run[k].client.table, f.value, u) && run[k].client.table[f.value].value.id == rid
  }

  /** At event l both deletes are written for uuid u, the row of the request first. */
  ghost predicate DeletesAt(run: seq<Caller>, events: seq<Event>, l: nat, up: seq<Request>, u: Uuid)
    requires l < |events| < |run|
  {
    var p := |run[l].client.conn.up|;
    && events[l].Finish? && events[l].sentGateway && events[l].sentFeedback
    && p + 1 < |up| && up[p].DeleteGateway? && up[p].uuid == u && up[p + 1].DeleteFeedback? && up[p + 1].reqUuid == u
  }

  /** Event k completes the request, and event l deletes the rows. */
  ghost predicate DoneBy(run: seq<Caller>, events: seq<Event>, k: nat, l: nat, rid: Rid, up: seq<Request>, u: Uuid) {
    k < l < |events| < |run| && CompletesAt(run, events, k, rid, u) && DeletesAt(run, events, l, up, u)
  }

  /** Requests, once written, stay. */
  lemma HappenWrites(s: Caller, e: Event)
    requires Possible(s, e)
    ensures s.client.conn.up <= Happen(s, e).client.conn.up
  {
    if e.Receive? { ReceiveWrites(s.client, e.m, e.sent); }
  }

  lemma ReceiveWrites(cl: Client, m: Message, sent: bool)
    ensures cl.conn.up <= OnMessage(Arrived(cl, m), sent).conn.up
  {
  }

  lemma FinishWrites(s: Caller, u: Uuid)
    requires s.client.cleanup == Some(u)
    ensures var up, up' := s.client.conn.up, Happen(s, Finish(true, true)).client.conn.up;
      && |up'| == |up| + 2 && up'[|up|].DeleteGateway? && up'[|up|].uuid == u
      && up'[|up| + 1].DeleteFeedback? && up'[|up| + 1].reqUuid == u
  {
  }

  /** Every request in `done` is, by events before n, given the requests written. */
  ghost predicate DoneByEvents(run: seq<Caller>, events: seq<Event>, n: nat, done: set<Rid>, up: seq<Request>) {
    forall rid :: rid in done ==> exists k: nat, l: nat, u :: l < n && DoneBy(run, events, k, l, rid, up, u)
  }

  ghost predicate DoneOk(run: seq<Caller>, events: seq<Event>, i: nat)
    requires i <= |events| < |run|
  {
    && (run[i].client.cleanup.Some? ==>
          exists k :: 0 <= k < i && CompletesAt(run, events, k, run[i].completing, run[i].client.cleanup.value))
    && DoneByEvents(run, events, i, run[i].done, run[i].client.conn.up)
  }

  lemma CleanupBegins(s: Caller, m: Message, sent: bool)
    requires Possible(s, Receive(m, sent))
    ensures var s' := Happen(s, Receive(m, sent)); var f := Completes(Arrived(s.client, m), m);
      && s'.done == s.done
      && (f.None? ==> s'.client.cleanup.None?)
      && (f.Some? ==> m.FeedbackNew? && s'.client.cleanup == Some(m.reqUuid) && s.client.table[f.value].Some?
                      && Holds(s.client.table, f.value, m.reqUuid) && s'.completing == s.client.table[f.value].value.id)
  {
    ReceiveTable(s.client, m, sent);
  }

  lemma DoneGrows(run: seq<Caller>, events: seq<Event>, n: nat, done: set<Rid>, up: seq<Request>, up': seq<Request>)
    requires DoneByEvents(run, events, n, done, up) && up <= up'
    ensures DoneByEvents(run, events, n + 1, done, up')
  {
    forall rid | rid in done
      ensures exists k: nat, l: nat, u :: l < n + 1 && DoneBy(run, events, k, l, rid, up', u)
    {
      var k: nat, l: nat, u :| l < n && DoneBy(run, events, k, l, rid, up, u);
      assert DoneBy(run, events, k, l, rid, up', u);
    }
  }

  lemma FinishDone(run: seq<Caller>, events: seq<Event>, i: nat)
    requires IsRun(run, events) && i < |events| && events[i].Finish? && DoneOk(run, events, i)
    ensures DoneOk(run, events, i + 1)
  {
    assert run[i + 1] == Happen(run[i], events[i]);
    HappenWrites(run[i], events[i]);
    DoneGrows(run, events, i, run[i].done, run[i].client.conn.up, run[i + 1].client.conn.up);
    if events[i].sentGateway && events[i].sentFeedback {
      var u := run[i].client.cleanup.value;
      FinishWrites(run[i], u);
      var k :| 0 <= k < i && CompletesAt(run, events, k, run[i].completing, u);
      assert DoneBy(run, events, k, i, run[i].completing, run[i + 1].client.conn.up, u);
    }
  }

  lemma OtherDone(run: seq<Caller>, events: seq<Event>, i: nat)
    requires IsRun(run, events) && i < |events| && !events[i].Finish? && DoneOk(run, events, i)
    ensures DoneOk(run, events, i + 1)
  {
    assert run[i + 1] == Happen(run[i], events[i]);
    HappenWrites(run[i], events[i]);
    DoneGrows(run, events, i, run[i].done, run[i].client.conn.up, run[i + 1].client.conn.up);
    if events[i].Receive? {
      CleanupBegins(run[i], events[i].m, events[i].sent);
      if run[i + 1].client.cleanup.Some? {
        assert CompletesAt(run, events, i, run[i + 1].completing, run[i + 1].client.cleanup.value);
      }
    } else if run[i].client.cleanup.Some? {
      var k :| 0 <= k < i && CompletesAt(run, events, k, run[i].completing, run[i].client.cleanup.value);
      assert CompletesAt(run, events, k, run[i + 1].completing, run[i + 1].client.cleanup.value);
    }
  }

  lemma {:induction false} RunDone(run: seq<Caller>, events: seq<Event>, i: nat)
    requires IsRun(run, events) && i < |run|
    ensures DoneOk(run, events, i)
  {
    if i > 0 {
      RunDone(run, events, i - 1);
      if events[i - 1].Finish? {
        FinishDone(run, events, i - 1);
      } else {
        OtherDone(run, events, i - 1);
      }
    }
  }

  /** A call that returns true, made and left undisturbed, has completed in the full
      sense: a Feedback row for some uuid completed its own transaction, and after that
      the deletion of both rows was written, of the request's row first. */
  lemma TrueMeansDeleted(run: seq<Caller>, events: seq<Event>, i: nat) returns (k: nat, l: nat, u: Uuid)
    requires IsRun(run, events) && CallsUndisturbed(run, events) && i < |run|
    requires run[i].phase.Returned? && run[i].phase.ok
    ensures l < i && DoneBy(run, events, k, l, run[i].phase.rid, run[i].client.conn.up, u)
  {
    BlockedResult(run, events, i);
    RunDone(run, events, i);
    k, l, u :| l < i && DoneBy(run, events, k, l, run[i].phase.rid, run[i].client.conn.up, u);
  }

  /** Deletions are written in pairs: one of a Feedback row directly follows one of the
      row it answers. */
  ghost predicate Paired(up: seq<Request>, from: nat) {
    forall j :: from <= j < |up| && up[j].DeleteFeedback? ==>
      j > from && up[j - 1].DeleteGateway? && up[j - 1].uuid == up[j].reqUuid
  }

  lemma ReceivePairs(cl: Client, m: Message, sent: bool)
    ensures var up' := OnMessage(Arrived(cl, m), sent).conn.up;
      up' == cl.conn.up || exists id, mid :: up' == cl.conn.up + [Monitor(id, mid, FeedbackTable)]
  {
  }

  lemma FinishPairs(k: Conn, u: Uuid, sentGateway: bool, sentFeedback: bool, from: nat)
    requires from <= |k.up| && Paired(k.up, from)
    ensures Paired(CleanupSends(k, u, sentGateway, sentFeedback).up, from)
  {
  }

  lemma HappenPairs(s: Caller, e: Event, from: nat)
    requires Possible(s, e) && from <= |s.client.conn.up| && Paired(s.client.conn.up, from)
    ensures Paired(Happen(s, e).client.conn.up, from)
  {
    if e.Receive? {
      ReceivePairs(s.client, e.m, e.sent);
    } else if e.Finish? {
      FinishPairs(s.client.conn, s.client.cleanup.value, e.sentGateway, e.sentFeedback, from);
    }
  }

  lemma {:induction false} DeletionsArePaired(run: seq<Caller>, events: seq<Event>, i: nat)
    requires IsRun(run, events) && i < |run|
    ensures run[0].client.conn.up <= run[i].client.conn.up
    ensures Paired(run[i].client.conn.up, |run[0].client.conn.up|)
  {
    if i > 0 {
      DeletionsArePaired(run, events, i - 1);
      assert run[i - 1 + 1] == Happen(run[i - 1], events[i - 1]);
      HappenWrites(run[i - 1], events[i - 1]);
      HappenPairs(run[i - 1], events[i - 1], |run[0].client.conn.up|);
    }
  }

  // ----- A call that succeeds -----

  lemma AnswerAwaited(s: Caller, u: Uuid)
    requires s.phase == Waiting(1) && s.blocked && s.client.cleanup == None && s.client.monitors == [2]
    requires FindKey(s.client.table, u) == Some(1) && s.client.table[1].value.id == 1
    ensures var s1 := Happen(s, Receive(FeedbackNew(2, "f", u, Success), true));
      && Possible(s, Receive(FeedbackNew(2, "f", u, Success), true)) && Possible(s1, Finish(true, true))
      && var s2 := Happen(s1, Finish(true, true));
      && Possible(s2, WakeUp(Woken)) && Happen(s2, WakeUp(Woken)).phase == Returned(1, true)
  {
  }

  lemma ReplyAwaited(s: Caller, u: Uuid)
    requires s.phase == Waiting(1) && s.blocked && s.client.cleanup == None && u != NO_UUID
    requires s.client.conn.receipts == [Receipt(1, InsertReceipt, WriteCallback)] && s.client.conn.nextId == 1
    requires s.client.table[0].None? && s.client.table[1].Some? && s.client.table[1].value.id == 1
    requires !s.client.watching && s.client.monitors == []
    ensures var s1 := Happen(s, Receive(InsertReply(1, u), true));
      && s1.phase == s.phase && s1.blocked && s1.client.cleanup == None && s1.client.monitors == [2]
      && FindKey(s1.client.table, u) == Some(1) && s1.client.table[1].value.id == 1
  {
    FirstReply(s.client, u);
  }

  lemma CallWaits(config: GatewayConfig) returns (run: seq<Caller>, events: seq<Event>)
    ensures IsRun(run, events) && events != [] && events[0] == Call(config, true, true)
    ensures var s := run[|run| - 1];
      && s.phase == Waiting(1) && s.blocked && s.client.cleanup == None
      && s.client.conn.receipts == [Receipt(1, InsertReceipt, WriteCallback)] && s.client.conn.nextId == 1
      && s.client.table[0].None? && s.client.table[1].Some? && s.client.table[1].value.id == 1
      && !s.client.watching && s.client.monitors == []
  {
    var start := Caller(Client(Conn(0, [], [], [], {}), EmptySlots(), [], false, None), false, Idle, 0, {});
    run, events := [start], [];
    FirstCall(start, config);
    run, events := Then(run, events, Call(config, true, true));
    run, events := Then(run, events, Enter);
  }

  /** A call whose reply and Feedback row arrive while it waits returns true once both
      deletes are written. */
  lemma CallSucceeds(config: GatewayConfig, u: Uuid) returns (run: seq<Caller>, events: seq<Event>)
    requires u != NO_UUID
    ensures IsRun(run, events) && events != [] && events[0] == Call(config, true, true)
    ensures run[|run| - 1].phase == Returned(1, true)
  {
    run, events := CallWaits(config);
    ReplyAwaited(run[|run| - 1], u);
    run, events := Then(run, events, Receive(InsertReply(1, u), true));
    AnswerAwaited(run[|run| - 1], u);
    run, events := Then(run, events, Receive(FeedbackNew(2, "f", u, Success), true));
    run, events := Then(run, events, Finish(true, true));
    run, events := Then(run, events, WakeUp(Woken));
  }
}
