/** The transaction manager: the slot array, changed in place. */
module TransactionManager {
  import opened OvsTypes
  import opened TransactionTable
  import opened RequestIds
  import opened Ownership

  /** `elements` is null before initialisation and after deinitialisation. The ghost
      fields record what has been accepted, held, freed and called back so far; the
      methods are proved against the Ledger these make up with the slots. */
  class Manager<C> {
    var elements: array?<Option<Entry<string, C>>>
    ghost var accepted: seq<C>
    ghost var held: seq<C>
    ghost var freed: seq<C>
    ghost var ran: seq<Completion<C>>

    ghost predicate Ready()
      reads this
    {
      elements != null && elements.Length == MAX_TABLE_SIZE
    }

    ghost function Now(): Ledger<C>
      requires Ready()
      reads this, elements
    {
      Ledger(elements[..], accepted, held, freed, ran)
    }

    constructor ()
      ensures elements == null && accepted == [] && held == [] && freed == [] && ran == []
    {
      elements := null;
      accepted, held, freed, ran := [], [], [], [];
    }

    /** `init_transaction_manager`: an initialised table is left alone. */
    method Init()
      requires elements != null ==> Ready()
      modifies this`elements
      ensures Ready()
      ensures old(elements) != null ==> elements == old(elements) && Now() == old(Now())
      ensures old(elements) == null ==> fresh(elements) && Now().table == EmptySlots<string, C>()
    {
      if elements != null { return; }
      var table := new Option<Entry<string, C>>[MAX_TABLE_SIZE];
      for i := 0 to table.Length
        invariant forall k :: 0 <= k < i ==> table[k] == None
      {
        table[i] := None;
      }
      elements := table;
      assert elements[..] == EmptySlots<string, C>();
    }

    /** `deinit_transaction_manager`: every slot is destroyed, in order. */
    method Deinit()
      requires elements != null ==> Ready()
      modifies this, elements
      ensures elements == null
      ensures accepted == old(accepted) && held == old(held) && ran == old(ran)
      ensures old(elements) != null ==> freed == old(Drained(Now())).freed
      ensures old(elements) == null ==> freed == old(freed)
    {
      if elements == null { return; }
      ghost var l := Now();
      var i := 0;
      while i < elements.Length
        invariant 0 <= i <= MAX_TABLE_SIZE && elements == old(elements) && Ready()
        invariant elements[..] == old(elements[..])
        invariant accepted == old(accepted) && held == old(held) && ran == old(ran)
        invariant freed == FreedUpTo(l, i)
      {
        if elements[i].Some? {
          freed := freed + [elements[i].value.config];
        } else {
          assert FreedUpTo(l, i + 1) == FreedUpTo(l, i);
        }
        i := i + 1;
      }
      FreedUpToAll(l);
      elements := null;
    }

    /** `find_transaction_key`: a scan for the first slot with this uuid. */
    method FindTransactionKey(uuid: string) returns (found: bool, key: nat)
      requires Ready()
      ensures FindKey(Now().table, ClipUuid(uuid)) == if found then Some(key) else None
      ensures found ==> key < MAX_TABLE_SIZE
    {
      var i := 0;
      while i < elements.Length
        invariant 0 <= i <= MAX_TABLE_SIZE
        invariant forall k :: 0 <= k < i ==> !Holds(Now().table, k, ClipUuid(uuid))
      {
        if elements[i].Some? && elements[i].value.uuid == ClipUuid(uuid) {
          assert Holds(Now().table, i, ClipUuid(uuid));
          return true, i;
        }
        i := i + 1;
      }
      return false, 0;
    }

    /** `remove_transaction_table`. */
    method RemoveSlot(key: nat) returns (removed: Option<Entry<string, C>>)
      requires Ready() && key < MAX_TABLE_SIZE
      modifies elements
      ensures removed == old(elements[key])
      ensures elements[..] == old(elements[..])[key := None]
    {
      removed := elements[key];
      elements[key] := None;
    }

    /** `destroy_transaction` on a slot just removed: frees the configuration. */
    ghost method Destroy(removed: Option<Entry<string, C>>)
      modifies this`freed
      ensures freed == old(freed) + SlotConfigs(removed)
    {
      freed := freed + SlotConfigs(removed);
    }

    /** `insert_transaction`: evicts whatever holds the slot of the id. */
    method InsertTransaction(rid: Option<string>, callback: bool, config: C) returns (ok: bool)
      requires Ready()
      modifies this`freed, this`accepted, elements
      ensures Ready() && ok == rid.Some?
      ensures Now() == if ok then Perform(old(Now()), Insert(Atoi(rid.value), callback, config)) else old(Now())
    {
      if rid.None? { return false; }
      var id := Atoi(rid.value);
      var key := Key(id);
      accepted := accepted + [config];
      if elements[key].Some? {
        var evicted := RemoveSlot(key);
        Destroy(evicted);
      }
      elements[key] := Some(Entry(id, "", InitState, callback, config, Unknown));
      ok := true;
      assert elements[..] == Inserted(Cleared(old(Now()).table, key), Fresh(id, "", callback, config));
      assert old(freed) + SlotConfigs(None) == old(freed);
    }

    /** `update_transaction`: stores the uuid in the slot of the id, whoever holds it. */
    method UpdateTransaction(rid: Option<string>, uuid: Option<string>) returns (ok: bool)
      requires Ready()
      modifies elements
      ensures Ready()
      ensures ok == (rid.Some? && uuid.Some? && old(Now()).table[Key(Atoi(rid.value))].Some?)
      ensures Now() == if ok then Perform(old(Now()), Update(Atoi(rid.value), uuid.value)) else old(Now())
    {
      if rid.None? || uuid.None? { return false; }
      var key := Key(Atoi(rid.value));
      if elements[key].None? { return false; }
      elements[key] := Some(elements[key].value.(uuid := ClipUuid(uuid.value), state := UuidReceived));
      ok := true;
      assert elements[..] == Updated(old(Now()).table, Atoi(rid.value), ClipUuid(uuid.value));
    }

    /** `delete_transaction`: destroys whatever holds the slot of the id. */
    method DeleteTransaction(rid: Option<string>) returns (ok: bool)
      requires Ready()
      modifies this`freed, elements
      ensures Ready()
      ensures ok == (rid.Some? && old(Now()).table[Key(Atoi(rid.value))].Some?)
      ensures Now() == if rid.Some? then Perform(old(Now()), Delete(Atoi(rid.value))) else old(Now())
    {
      if rid.None? { return false; }
      var removed := RemoveSlot(Key(Atoi(rid.value)));
      Destroy(removed);
      ok := removed.Some?;
    }

    /** `complete_transaction`: the transaction leaves the table, its callback runs,
        with the manager's methods open to it, and then it is destroyed. `nested` is
        what that callback does. */
    method CompleteTransaction(uuid: Option<string>, status: Status, nested: seq<Act<C>>) returns (ok: bool)
      requires Ready()
      modifies this`accepted, this`held, this`freed, this`ran, elements
      ensures Ready()
      ensures ok == (uuid.Some? && FindKey(old(Now()).table, ClipUuid(uuid.value)).Some?)
      ensures Now() == if uuid.Some? then Perform(old(Now()), Complete(uuid.value, status, nested)) else old(Now())
      decreases nested, 1
    {
      if uuid.None? { return false; }
      var found, key := FindTransactionKey(uuid.value);
      if !found { return false; }
      var removed := RemoveSlot(key);
      var e := removed.value;
      held := held + [e.config];
      if e.callback {
        ran := ran + [Completion(e.id, status, e.config)];
      }
      assert Now() == Taken(old(Now()), key, status);
      if e.callback {
        RunCallback(nested);
      }
      assert held == old(held) + [e.config];
      held := held[..|held| - 1];
      Destroy(removed);
      ok := true;
    }

    /** The user's callback: calls back into the manager. */
    method RunCallback(nested: seq<Act<C>>)
      requires Ready()
      modifies this`accepted, this`held, this`freed, this`ran, elements
      ensures Ready()
      ensures Now() == PerformAll(old(Now()), nested)
      decreases nested, 0
    {
      if nested != [] {
        match nested[0] {
          case Insert(id, callback, config) =>
            AtoiDecimal(id);
            var _ := InsertTransaction(Some(Decimal(id)), callback, config);
          case Update(id, uuid) =>
            AtoiDecimal(id);
            var _ := UpdateTransaction(Some(Decimal(id)), Some(uuid));
          case Delete(id) =>
            AtoiDecimal(id);
            var _ := DeleteTransaction(Some(Decimal(id)));
          case Complete(uuid, status, inner) =>
            var _ := CompleteTransaction(Some(uuid), status, inner);
        }
        RunCallback(nested[1..]);
      }
    }
  }

  /** What has been freed once the first n slots are destroyed. */
  ghost function FreedUpTo<C>(l: Ledger<C>, n: nat): seq<C>
    requires n <= MAX_TABLE_SIZE
  {
    if n == 0 then l.freed else FreedUpTo(l, n - 1) + SlotConfigs(l.table[n - 1])
  }

  lemma FreedUpToAll<C>(l: Ledger<C>)
    ensures FreedUpTo(l, MAX_TABLE_SIZE) == Drained(l).freed
  {
    assert FreedUpTo(l, 1) == l.freed + SlotConfigs(l.table[0]);
    assert FreedUpTo(l, 2) == FreedUpTo(l, 1) + SlotConfigs(l.table[1]);
    assert FreedUpTo(l, 3) == FreedUpTo(l, 2) + SlotConfigs(l.table[2]);
    assert FreedUpTo(l, 4) == FreedUpTo(l, 3) + SlotConfigs(l.table[3]);
  }
}
