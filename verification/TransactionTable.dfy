/** The direct-mapped transaction table, as a value: five slots, indexed by the
    request id modulo five. Neither lookup nor removal compares the id stored in
    the slot. The uuid and configuration types are parameters. */
module TransactionTable {
  import opened OvsTypes

  const MAX_TABLE_SIZE: nat := 5

  datatype TxState = InitState | UuidReceived | Completed

  datatype Entry<U, C> = Entry(
    id: nat,
    uuid: U,
    state: TxState,
    callback: bool,
    config: C,
    status: Status)

  type Slots<U, C> = t: seq<Option<Entry<U, C>>> | |t| == MAX_TABLE_SIZE
    witness [None, None, None, None, None]

  function EmptySlots<U, C>(): Slots<U, C> {
    [None, None, None, None, None]
  }

  /** `hash_code`. */
  function Key(id: nat): nat {
    id % MAX_TABLE_SIZE
  }

  /** The entry `create_transaction` builds. */
  function Fresh<U, C>(id: nat, noUuid: U, callback: bool, config: C): Entry<U, C> {
    Entry(id, noUuid, InitState, callback, config, Unknown)
  }

  function Inserted<U, C>(t: Slots<U, C>, e: Entry<U, C>): Slots<U, C> {
    t[Key(e.id) := Some(e)]
  }

  function Updated<U, C>(t: Slots<U, C>, id: nat, uuid: U): Slots<U, C> {
    match t[Key(id)]
    case None => t
    case Some(e) => t[Key(id) := Some(e.(uuid := uuid, state := UuidReceived))]
  }

  function Cleared<U, C>(t: Slots<U, C>, key: nat): Slots<U, C>
    requires key < MAX_TABLE_SIZE
  {
    t[key := None]
  }

  function Deleted<U, C>(t: Slots<U, C>, id: nat): Slots<U, C> {
    Cleared(t, Key(id))
  }

  predicate Holds<U(==), C>(t: Slots<U, C>, key: nat, uuid: U)
    requires key < MAX_TABLE_SIZE
  {
    t[key].Some? && t[key].value.uuid == uuid
  }

  /** `find_transaction_key`: the first slot whose uuid matches. */
  function FindKey<U(==), C>(t: Slots<U, C>, uuid: U): (r: Option<nat>)
    ensures r.Some? ==> r.value < MAX_TABLE_SIZE && Holds(t, r.value, uuid)
    ensures r.Some? ==> forall k :: 0 <= k < r.value ==> !Holds(t, k, uuid)
    ensures r.None? ==> forall k :: 0 <= k < MAX_TABLE_SIZE ==> !Holds(t, k, uuid)
  {
    if Holds(t, 0, uuid) then Some(0)
    else if Holds(t, 1, uuid) then Some(1)
    else if Holds(t, 2, uuid) then Some(2)
    else if Holds(t, 3, uuid) then Some(3)
    else if Holds(t, 4, uuid) then Some(4)
    else None
  }

  // ----- The map the table stands for -----

  type Model<U, C> = map<nat, Entry<U, C>>

  /** Every entry sits in the slot of its own id. */
  ghost predicate InPlace<U, C>(t: Slots<U, C>) {
    forall k :: 0 <= k < MAX_TABLE_SIZE && t[k].Some? ==> Key(t[k].value.id) == k
  }

  predicate Has<U, C>(t: Slots<U, C>, id: nat) {
    t[Key(id)].Some? && t[Key(id)].value.id == id
  }

  ghost function Ids<U, C>(t: Slots<U, C>): set<nat> {
    set k | 0 <= k < MAX_TABLE_SIZE && t[k].Some? :: t[k].value.id
  }

  ghost function Abs<U, C>(t: Slots<U, C>): (m: Model<U, C>)
    requires InPlace(t)
    ensures forall id :: id in m <==> Has(t, id)
    ensures forall id :: id in m ==> Has(t, id) && m[id] == t[Key(id)].value
  {
    map id | id in Ids(t) :: t[Key(id)].value
  }

  datatype Op<U, C> =
    | InsertOp(id: nat, callback: bool, config: C)
    | UpdateOp(id: nat, uuid: U)
    | DeleteOp(id: nat)
    | CompleteOp(uuid: U)

  /** What the caller of an operation sees. */
  datatype Out<U, C> = Done(ok: bool) | Gave(entry: Option<Entry<U, C>>)

  function TableStep<U(==), C>(t: Slots<U, C>, op: Op<U, C>, noUuid: U): (Slots<U, C>, Out<U, C>) {
    match op
    case InsertOp(id, callback, config) => (Inserted(t, Fresh(id, noUuid, callback, config)), Done(true))
    case UpdateOp(id, uuid) => (Updated(t, id, uuid), Done(t[Key(id)].Some?))
    case DeleteOp(id) => (Deleted(t, id), Done(t[Key(id)].Some?))
    case CompleteOp(uuid) =>
      match FindKey(t, uuid)
      case None => (t, Gave(None))
      case Some(k) => (Cleared(t, k), Gave(t[k]))
  }

  /** The same operations on a map from ids to transactions. Which of several
      transactions with one uuid is completed is left open. */
  ghost predicate MapStep<U, C>(m: Model<U, C>, op: Op<U, C>, noUuid: U, out: Out<U, C>, m': Model<U, C>) {
    match op
    case InsertOp(id, callback, config) => out == Done(true) && m' == m[id := Fresh(id, noUuid, callback, config)]
    case UpdateOp(id, uuid) =>
      && out == Done(id in m)
      && m' == (if id in m then m[id := m[id].(uuid := uuid, state := UuidReceived)] else m)
    case DeleteOp(id) => out == Done(id in m) && m' == m - {id}
    case CompleteOp(uuid) =>
      if exists id :: id in m && m[id].uuid == uuid
      then exists id :: id in m && m[id].uuid == uuid && out == Gave(Some(m[id])) && m' == m - {id}
      else out == Gave(None) && m' == m
  }

  /** The slot of the operation's id is free or its own. */
  predicate OwnSlot<U, C>(t: Slots<U, C>, op: Op<U, C>) {
    op.CompleteOp? || t[Key(op.id)].None? || t[Key(op.id)].value.id == op.id
  }

  lemma StepStaysInPlace<U, C>(t: Slots<U, C>, op: Op<U, C>, noUuid: U)
    requires InPlace(t)
    ensures InPlace(TableStep(t, op, noUuid).0)
  {
  }

  lemma InsertRefinesIff<U, C>(t: Slots<U, C>, e: Entry<U, C>)
    requires InPlace(t)
    ensures InPlace(Inserted(t, e))
    ensures Abs(Inserted(t, e)) == Abs(t)[e.id := e] <==> t[Key(e.id)].None? || t[Key(e.id)].value.id == e.id
  {
    var t' := Inserted(t, e);
    assert forall id :: Key(id) != Key(e.id) ==> t'[Key(id)] == t[Key(id)];
    if t[Key(e.id)].Some? && t[Key(e.id)].value.id != e.id {
      var other := t[Key(e.id)].value.id;
      assert other in Abs(t) && other !in Abs(t');
    }
  }

  lemma UpdateRefinesIff<U, C>(t: Slots<U, C>, id: nat, uuid: U)
    requires InPlace(t)
    ensures InPlace(Updated(t, id, uuid))
    ensures (t[Key(id)].Some? == (id in Abs(t)) &&
             Abs(Updated(t, id, uuid)) ==
               (if id in Abs(t) then Abs(t)[id := Abs(t)[id].(uuid := uuid, state := UuidReceived)] else Abs(t)))
            <==> t[Key(id)].None? || t[Key(id)].value.id == id
  {
  }

  lemma DeleteRefinesIff<U, C>(t: Slots<U, C>, id: nat)
    requires InPlace(t)
    ensures InPlace(Deleted(t, id))
    ensures (t[Key(id)].Some? == (id in Abs(t)) && Abs(Deleted(t, id)) == Abs(t) - {id})
            <==> t[Key(id)].None? || t[Key(id)].value.id == id
  {
  }

  /** An operation does what it would do on the map exactly when the slot of its id
      is free or its own. */
  lemma StepRefinesIff<U, C>(t: Slots<U, C>, op: Op<U, C>, noUuid: U)
    requires InPlace(t)
    ensures InPlace(TableStep(t, op, noUuid).0)
    ensures MapStep(Abs(t), op, noUuid, TableStep(t, op, noUuid).1, Abs(TableStep(t, op, noUuid).0)) <==> OwnSlot(t, op)
  {
    match op
    case InsertOp(id, callback, config) => InsertRefinesIff(t, Fresh(id, noUuid, callback, config));
    case UpdateOp(id, uuid) => UpdateRefinesIff(t, id, uuid);
    case DeleteOp(id) => DeleteRefinesIff(t, id);
    case CompleteOp(uuid) =>
      StepStaysInPlace(t, op, noUuid);
      CompleteRefines(t, uuid, noUuid);
  }

  lemma CompleteRefines<U, C>(t: Slots<U, C>, uuid: U, noUuid: U)
    requires InPlace(t) && InPlace(TableStep(t, CompleteOp(uuid), noUuid).0)
    ensures MapStep(Abs(t), CompleteOp(uuid), noUuid, TableStep(t, CompleteOp(uuid), noUuid).1,
                    Abs(TableStep(t, CompleteOp(uuid), noUuid).0))
  {
    var m := Abs(t);
    var t' := TableStep(t, CompleteOp(uuid), noUuid).0;
    match FindKey(t, uuid)
    case None =>
      assert forall id :: id in m ==> !Holds(t, Key(id), uuid);
    case Some(k) =>
      var id := t[k].value.id;
      assert id in m && m[id].uuid == uuid;
      assert Abs(t') == m - {id};
  }

  // ----- Runs -----

  function TableRun<U(==), C>(t: Slots<U, C>, ops: seq<Op<U, C>>, noUuid: U): (Slots<U, C>, seq<Out<U, C>>)
    decreases |ops|
  {
    if ops == [] then (t, [])
    else
      var (t1, out) := TableStep(t, ops[0], noUuid);
      var (t2, outs) := TableRun(t1, ops[1..], noUuid);
      (t2, [out] + outs)
  }

  ghost predicate MapRun<U(!new), C(!new)>(m: Model<U, C>, ops: seq<Op<U, C>>, noUuid: U, outs: seq<Out<U, C>>,
                           m': Model<U, C>)
    decreases |ops|
  {
    if ops == [] then outs == [] && m' == m
    else
      && outs != []
      && exists m1 :: MapStep(m, ops[0], noUuid, outs[0], m1) && MapRun(m1, ops[1..], noUuid, outs[1..], m')
  }

  /** No two of the ids share a slot. */
  ghost predicate Injective(ids: set<nat>) {
    forall a, b :: a in ids && b in ids && Key(a) == Key(b) ==> a == b
  }

  ghost predicate UsesIds<U, C>(ops: seq<Op<U, C>>, ids: set<nat>) {
    forall i :: 0 <= i < |ops| && !ops[i].CompleteOp? ==> ops[i].id in ids
  }

  /** As long as the ids in use are injective modulo five, callers cannot tell the
      table from a map keyed by request id. */
  lemma {:induction false} RunRefines<U(!new), C(!new)>(t: Slots<U, C>, ops: seq<Op<U, C>>, noUuid: U, ids: set<nat>)
    requires InPlace(t) && Injective(ids) && Abs(t).Keys <= ids && UsesIds(ops, ids)
    ensures InPlace(TableRun(t, ops, noUuid).0)
    ensures MapRun(Abs(t), ops, noUuid, TableRun(t, ops, noUuid).1, Abs(TableRun(t, ops, noUuid).0))
    decreases |ops|
  {
    if ops != [] {
      var op := ops[0];
      var t1 := TableStep(t, op, noUuid).0;
      assert OwnSlot(t, op) by {
        if !op.CompleteOp? && t[Key(op.id)].Some? {
          assert t[Key(op.id)].value.id in Abs(t);
        }
      }
      StepRefinesIff(t, op, noUuid);
      assert Abs(t1).Keys <= ids;
      RunRefines(t1, ops[1..], noUuid, ids);
      var outs := TableRun(t, ops, noUuid).1;
      assert outs[0] == TableStep(t, op, noUuid).1 && outs[1..] == TableRun(t1, ops[1..], noUuid).1;
    }
  }

  lemma WindowInjective(low: nat)
    ensures Injective({low, low + 1, low + 2, low + 3, low + 4})
  {
  }

  /** Two ids five apart, with the first reply arriving after the second request:
      the completion for the first row hands out the second configuration. */
  lemma CollidingIdsMisattribute<U, C>(noUuid: U, uuid: U, first: C, second: C)
    requires uuid != noUuid
    ensures TableRun(EmptySlots(),
                     [InsertOp(1, true, first), InsertOp(6, true, second), UpdateOp(1, uuid), CompleteOp(uuid)],
                     noUuid).1
            == [Done(true), Done(true), Done(true), Gave(Some(Entry(6, uuid, UuidReceived, true, second, Unknown)))]
  {
    var ops: seq<Op<U, C>> :=
      [InsertOp(1, true, first), InsertOp(6, true, second), UpdateOp(1, uuid), CompleteOp(uuid)];
    var t0: Slots<U, C> := EmptySlots();
    var t1 := TableStep(t0, ops[0], noUuid).0;
    var t2 := TableStep(t1, ops[1], noUuid).0;
    var t3 := TableStep(t2, ops[2], noUuid).0;
    var t4 := TableStep(t3, ops[3], noUuid).0;
    assert FindKey(t3, uuid) == Some(1);
    assert TableRun(t4, [], noUuid).1 == [];
    RunUnfolds(t3, ops[3], [], noUuid);
    RunUnfolds(t2, ops[2], [ops[3]], noUuid);
    RunUnfolds(t1, ops[1], [ops[2], ops[3]], noUuid);
    RunUnfolds(t0, ops[0], [ops[1], ops[2], ops[3]], noUuid);
    assert ops == [ops[0]] + [ops[1], ops[2], ops[3]];
    assert [ops[1], ops[2], ops[3]] == [ops[1]] + [ops[2], ops[3]];
    assert [ops[2], ops[3]] == [ops[2]] + [ops[3]] && [ops[3]] == [ops[3]] + [];
  }

  lemma RunUnfolds<U, C>(t: Slots<U, C>, op: Op<U, C>, ops: seq<Op<U, C>>, noUuid: U)
    ensures TableRun(t, [op] + ops, noUuid).1 ==
            [TableStep(t, op, noUuid).1] + TableRun(TableStep(t, op, noUuid).0, ops, noUuid).1
  {
    assert ([op] + ops)[1..] == ops;
  }

  /** The empty uuid completes a transaction exactly when one still waits for its
      uuid. */
  lemma EmptyUuidCompletesIff<U, C>(t: Slots<U, C>, noUuid: U)
    ensures TableStep(t, CompleteOp(noUuid), noUuid).1 != Gave(None) <==>
            exists k :: 0 <= k < MAX_TABLE_SIZE && Holds(t, k, noUuid)
  {
  }
}
