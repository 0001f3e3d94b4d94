/** Who owns the configurations handed to the transaction manager. */
module Ownership {
  import opened OvsTypes
  import opened TransactionTable

  type TextSlots<C> = Slots<string, C>

  /** What a completed transaction's callback was given. */
  datatype Completion<C> = Completion(id: nat, status: Status, config: C)

  /** The table together with the configurations it has accepted, the ones of the
      transactions being completed (innermost last), the ones freed so far, and the
      callbacks run so far. */
  datatype Ledger<C> = Ledger(
    table: TextSlots<C>,
    accepted: seq<C>,
    held: seq<C>,
    freed: seq<C>,
    ran: seq<Completion<C>>)

  /** An operation on the transaction manager; `nested` are the operations that the
      completed transaction's callback performs. */
  datatype Act<C> =
    | Insert(id: nat, callback: bool, config: C)
    | Update(id: nat, uuid: string)
    | Delete(id: nat)
    | Complete(uuid: string, status: Status, nested: seq<Act<C>>)

  function SlotConfigs<C>(slot: Option<Entry<string, C>>): seq<C> {
    if slot.Some? then [slot.value.config] else []
  }

  /** `destroy_transaction` of whatever the slot holds. */
  function Freed<C>(l: Ledger<C>, key: nat): Ledger<C>
    requires key < MAX_TABLE_SIZE
  {
    l.(table := Cleared(l.table, key), freed := l.freed + SlotConfigs(l.table[key]))
  }

  function Perform<C>(l: Ledger<C>, a: Act<C>): (r: Ledger<C>)
    ensures r.held == l.held
    decreases a
  {
    match a
    case Insert(id, callback, config) =>
      var l1 := Freed(l, Key(id));
      l1.(table := Inserted(l1.table, Fresh(id, "", callback, config)), accepted := l.accepted + [config])
    case Update(id, uuid) => l.(table := Updated(l.table, id, ClipUuid(uuid)))
    case Delete(id) => Freed(l, Key(id))
    case Complete(uuid, status, nested) =>
      match FindKey(l.table, ClipUuid(uuid))
      case None => l
      case Some(k) =>
        var l1 := Taken(l, k, status);
        var l2 := if l.table[k].value.callback then PerformAll(l1, nested) else l1;
        Released(l2)
  }

  function PerformAll<C>(l: Ledger<C>, acts: seq<Act<C>>): (r: Ledger<C>)
    ensures r.held == l.held
    decreases acts
  {
    if acts == [] then l else PerformAll(Perform(l, acts[0]), acts[1..])
  }

  /** The transaction leaves the table, and its callback, if any, is called. */
  function Taken<C>(l: Ledger<C>, k: nat, status: Status): Ledger<C>
    requires k < MAX_TABLE_SIZE && l.table[k].Some?
  {
    var e := l.table[k].value;
    l.(table := Cleared(l.table, k), held := l.held + [e.config],
       ran := if e.callback then l.ran + [Completion(e.id, status, e.config)] else l.ran)
  }

  /** The transaction being completed is destroyed. */
  function Released<C>(l: Ledger<C>): Ledger<C>
    requires l.held != []
  {
    l.(held := l.held[..|l.held| - 1], freed := l.freed + [l.held[|l.held| - 1]])
  }

  /** `deinit_transaction_manager`. */
  function Drained<C>(l: Ledger<C>): Ledger<C> {
    l.(table := EmptySlots(),
       freed := l.freed + SlotConfigs(l.table[0]) + SlotConfigs(l.table[1]) + SlotConfigs(l.table[2])
                + SlotConfigs(l.table[3]) + SlotConfigs(l.table[4]))
  }

  // ----- Conservation -----

  /** How often x occurs. */
  ghost function Count<C>(s: seq<C>, x: C): nat {
    if s == [] then 0 else Count(s[..|s| - 1], x) + Is(s[|s| - 1], x)
  }

  ghost function Is<C>(y: C, x: C): nat {
    if y == x then 1 else 0
  }

  ghost function InSlot<C>(slot: Option<Entry<string, C>>, x: C): nat {
    if slot.Some? then Is(slot.value.config, x) else 0
  }

  ghost function Live<C>(t: TextSlots<C>, x: C): nat {
    InSlot(t[0], x) + InSlot(t[1], x) + InSlot(t[2], x) + InSlot(t[3], x) + InSlot(t[4], x)
  }

  /** A configuration was accepted as often as it now sits in slots, is held by
      transactions being completed, and has been freed, together. */
  ghost predicate Conserved<C>(l: Ledger<C>, x: C) {
    Count(l.accepted, x) == Live(l.table, x) + Count(l.held, x) + Count(l.freed, x)
  }

  lemma CountAppend<C>(s: seq<C>, y: C, x: C)
    ensures Count(s + [y], x) == Count(s, x) + Is(y, x)
  {
    assert (s + [y])[..|s|] == s;
  }

  lemma CountSlot<C>(s: seq<C>, slot: Option<Entry<string, C>>, x: C)
    ensures Count(s + SlotConfigs(slot), x) == Count(s, x) + InSlot(slot, x)
  {
    if slot.Some? {
      CountAppend(s, slot.value.config, x);
    } else {
      assert s + SlotConfigs(slot) == s;
    }
  }

  lemma LiveAfterSet<C>(t: TextSlots<C>, k: nat, slot: Option<Entry<string, C>>, x: C)
    requires k < MAX_TABLE_SIZE
    ensures Live(t[k := slot], x) + InSlot(t[k], x) == Live(t, x) + InSlot(slot, x)
  {
  }

  lemma FreedConserves<C>(l: Ledger<C>, key: nat, x: C)
    requires key < MAX_TABLE_SIZE && Conserved(l, x)
    ensures Conserved(Freed(l, key), x)
  {
    LiveAfterSet(l.table, key, None, x);
    CountSlot(l.freed, l.table[key], x);
  }

  lemma TakenConserves<C>(l: Ledger<C>, k: nat, status: Status, x: C)
    requires k < MAX_TABLE_SIZE && l.table[k].Some? && Conserved(l, x)
    ensures Conserved(Taken(l, k, status), x)
  {
    LiveAfterSet(l.table, k, None, x);
    CountAppend(l.held, l.table[k].value.config, x);
  }

  lemma ReleasedConserves<C>(l: Ledger<C>, x: C)
    requires l.held != [] && Conserved(l, x)
    ensures Conserved(Released(l), x)
  {
  }

  lemma {:induction false} PerformConserves<C>(l: Ledger<C>, a: Act<C>, x: C)
    requires Conserved(l, x)
    ensures Conserved(Perform(l, a), x)
    decreases a
  {
    match a
    case Insert(id, callback, config) =>
      FreedConserves(l, Key(id), x);
      LiveAfterSet(Freed(l, Key(id)).table, Key(id), Some(Fresh(id, "", callback, config)), x);
      CountAppend(l.accepted, config, x);
    case Update(id, uuid) =>
      LiveAfterSet(l.table, Key(id), Updated(l.table, id, ClipUuid(uuid))[Key(id)], x);
    case Delete(id) => FreedConserves(l, Key(id), x);
    case Complete(uuid, status, nested) =>
      var f := FindKey(l.table, ClipUuid(uuid));
      if f.Some? {
        var l1 := Taken(l, f.value, status);
        TakenConserves(l, f.value, status, x);
        PerformAllConserves(l1, nested, x);
        ReleasedConserves(if l.table[f.value].value.callback then PerformAll(l1, nested) else l1, x);
      }
  }

  /** Conservation over any sequence of operations, including evictions, deletions
      that hit another transaction's slot, and callbacks that call back in. */
  lemma {:induction false} PerformAllConserves<C>(l: Ledger<C>, acts: seq<Act<C>>, x: C)
    requires Conserved(l, x)
    ensures Conserved(PerformAll(l, acts), x)
    decreases acts
  {
    if acts != [] {
      PerformConserves(l, acts[0], x);
      PerformAllConserves(Perform(l, acts[0]), acts[1..], x);
    }
  }

  // ----- Whole runs -----

  function Start<C>(): Ledger<C> {
    Ledger(EmptySlots(), [], [], [], [])
  }

  lemma RunConserves<C>(acts: seq<Act<C>>, x: C)
    ensures Conserved(PerformAll(Start(), acts), x) && PerformAll(Start<C>(), acts).held == []
  {
    PerformAllConserves(Start(), acts, x);
  }

  lemma CountBound<C>(l: Ledger<C>, x: C)
    requires Conserved(l, x) && x in l.freed
    requires forall a, b :: 0 <= a < b < |l.accepted| ==> l.accepted[a] != l.accepted[b]
    ensures Count(l.freed, x) == 1 && Live(l.table, x) == 0 && x in l.accepted
  {
    CountDistinct(l.accepted, x);
    CountIn(l.accepted, x);
    CountIn(l.freed, x);
  }

  /** With fresh configurations, no configuration is freed twice, none that still
      sits in a slot has been freed, and only accepted ones are freed. */
  lemma FreedOnce<C>(acts: seq<Act<C>>, l: Ledger<C>, i: nat, j: nat)
    requires l == PerformAll(Start(), acts) && i < j < |l.freed|
    requires forall a, b :: 0 <= a < b < |l.accepted| ==> l.accepted[a] != l.accepted[b]
    ensures l.freed[i] != l.freed[j] && l.freed[i] in l.accepted
    ensures forall k :: 0 <= k < MAX_TABLE_SIZE && l.table[k].Some? ==> l.table[k].value.config != l.freed[i]
  {
    RunConserves(acts, l.freed[i]);
    CountBound(l, l.freed[i]);
    CountTwice(l.freed, i, j);
    NoneLive(l.table, l.freed[i]);
  }

  lemma HeldIsNotFreed<C>(l: Ledger<C>, x: C)
    requires Conserved(l, x) && x in l.held
    requires forall a, b :: 0 <= a < b < |l.accepted| ==> l.accepted[a] != l.accepted[b]
    ensures x !in l.freed && Live(l.table, x) == 0
  {
    CountIn(l.held, x);
    CountIn(l.freed, x);
    CountDistinct(l.accepted, x);
  }

  lemma FreedAfterCallback<C>(l: Ledger<C>, uuid: string, status: Status, nested: seq<Act<C>>)
    requires FindKey(l.table, ClipUuid(uuid)).Some?
    ensures var k := FindKey(l.table, ClipUuid(uuid)).value; var e := l.table[k].value;
      e.callback ==> Perform(l, Complete(uuid, status, nested)).freed
                     == PerformAll(Taken(l, k, status), nested).freed + [e.config]
  {
    var k := FindKey(l.table, ClipUuid(uuid)).value;
    var l1 := Taken(l, k, status);
    assert PerformAll(l1, nested).held == l1.held && l1.held[|l1.held| - 1] == l.table[k].value.config;
  }

  lemma TakenHolds<C>(l: Ledger<C>, k: nat, status: Status, nested: seq<Act<C>>)
    requires k < MAX_TABLE_SIZE && l.table[k].Some?
    ensures l.table[k].value.config in PerformAll(Taken(l, k, status), nested).held
  {
    var l1 := Taken(l, k, status);
    assert l1.held[|l.held|] == l.table[k].value.config;
  }

  /** With fresh configurations, the one that a callback is given is neither freed nor in a
      slot at any time while the callback runs, whatever that does; it is freed when the
      callback has returned. */
  lemma CallbackKeepsItsConfig<C>(acts: seq<Act<C>>, l: Ledger<C>, uuid: string, status: Status,
                                  nested: seq<Act<C>>, n: nat)
    requires l == PerformAll(Start(), acts) && FindKey(l.table, ClipUuid(uuid)).Some? && n <= |nested|
    requires var accepted := PerformAll(Taken(l, FindKey(l.table, ClipUuid(uuid)).value, status), nested[..n]).accepted;
      forall a, b :: 0 <= a < b < |accepted| ==> accepted[a] != accepted[b]
    ensures var k := FindKey(l.table, ClipUuid(uuid)).value; var e := l.table[k].value;
      var during := PerformAll(Taken(l, k, status), nested[..n]);
      && (e.callback ==> Taken(l, k, status).ran == l.ran + [Completion(e.id, status, e.config)])
      && e.config !in during.freed && Live(during.table, e.config) == 0
    ensures var k := FindKey(l.table, ClipUuid(uuid)).value; var e := l.table[k].value;
      e.callback ==> Perform(l, Complete(uuid, status, nested)).freed
                     == PerformAll(Taken(l, k, status), nested).freed + [e.config]
  {
    var k := FindKey(l.table, ClipUuid(uuid)).value;
    var x := l.table[k].value.config;
    RunConserves(acts, x);
    TakenConserves(l, k, status, x);
    PerformAllConserves(Taken(l, k, status), nested[..n], x);
    TakenHolds(l, k, status, nested[..n]);
    HeldIsNotFreed(PerformAll(Taken(l, k, status), nested[..n]), x);
    FreedAfterCallback(l, uuid, status, nested);
  }

  lemma NoneLive<C>(t: TextSlots<C>, x: C)
    requires Live(t, x) == 0
    ensures forall k :: 0 <= k < MAX_TABLE_SIZE && t[k].Some? ==> t[k].value.config != x
  {
  }

  lemma {:induction false} CountDistinct<C>(s: seq<C>, x: C)
    requires forall a, b :: 0 <= a < b < |s| ==> s[a] != s[b]
    ensures Count(s, x) <= 1
  {
    if s != [] {
      var rest := s[..|s| - 1];
      CountDistinct(rest, x);
      CountIn(rest, x);
    }
  }

  lemma {:induction false} CountIn<C>(s: seq<C>, x: C)
    ensures Count(s, x) > 0 <==> x in s
  {
    if s != [] {
      CountIn(s[..|s| - 1], x);
      assert s == s[..|s| - 1] + [s[|s| - 1]];
    }
  }

  lemma {:induction false} CountTwice<C>(s: seq<C>, i: nat, j: nat)
    requires i < j < |s|
    ensures Count(s, s[i]) >= if s[i] == s[j] then 2 else 1
  {
    var rest := s[..|s| - 1];
    CountIn(rest, s[i]);
    if j < |s| - 1 {
      CountTwice(rest, i, j);
    } else {
      assert s[i] == rest[i];
    }
  }

  lemma DrainedConserves<C>(l: Ledger<C>, x: C)
    requires Conserved(l, x) && l.held == []
    ensures Count(Drained(l).freed, x) == Count(l.accepted, x)
  {
    var t := l.table;
    var f1 := l.freed + SlotConfigs(t[0]);
    var f2 := f1 + SlotConfigs(t[1]);
    var f3 := f2 + SlotConfigs(t[2]);
    var f4 := f3 + SlotConfigs(t[3]);
    CountSlot(l.freed, t[0], x);
    CountSlot(f1, t[1], x);
    CountSlot(f2, t[2], x);
    CountSlot(f3, t[3], x);
    CountSlot(f4, t[4], x);
  }

  /** After deinitialisation every configuration has been freed exactly as often as
      it was accepted, and no slot holds one. */
  lemma DeinitFreesAll<C>(acts: seq<Act<C>>, x: C)
    ensures var l := Drained(PerformAll(Start(), acts));
      Count(l.freed, x) == Count(l.accepted, x) && l.table == EmptySlots()
  {
    RunConserves(acts, x);
    DrainedConserves(PerformAll(Start(), acts), x);
  }

  // ----- The table inside the ledger -----

  /** The table operation behind an act; a callback is a sequence of further acts. */
  function AsOp<C>(a: Act<C>): Op<string, C> {
    match a
    case Insert(id, callback, config) => InsertOp(id, callback, config)
    case Update(id, uuid) => UpdateOp(id, ClipUuid(uuid))
    case Delete(id) => DeleteOp(id)
    case Complete(uuid, _, _) => CompleteOp(ClipUuid(uuid))
  }

  /** The ledger's table takes exactly the steps whose refinement of a map is proved
      for the table alone; a callback's acts follow the completion. */
  lemma PerformStepsTable<C>(l: Ledger<C>, a: Act<C>)
    ensures !a.Complete? ==> Perform(l, a).table == TableStep(l.table, AsOp(a), "").0
    ensures a.Complete? ==>
      match TableStep(l.table, AsOp(a), "").1.entry
      case None => Perform(l, a) == l
      case Some(e) =>
        var k := FindKey(l.table, ClipUuid(a.uuid)).value;
        var l1 := Taken(l, k, a.status);
        l1.table == TableStep(l.table, AsOp(a), "").0
        && Perform(l, a).table == (if e.callback then PerformAll(l1, a.nested).table else l1.table)
  {
  }
}
