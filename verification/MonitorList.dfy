/** The list of monitor registrations. */
module MonitorList {
  import opened OvsTypes
  import opened Nodes

  /** `K` identifies the callback. */
  datatype Registration<K> = Registration(uuid: string, callback: K)

  /** The index of the first registration under this uuid. */
  function FirstFor<K>(list: seq<Registration<K>>, uuid: string): (r: Option<nat>)
    ensures r.Some? ==> r.value < |list| && list[r.value].uuid == uuid
    ensures r.Some? ==> forall i :: 0 <= i < r.value ==> list[i].uuid != uuid
    ensures r.None? ==> forall i :: 0 <= i < |list| ==> list[i].uuid != uuid
  {
    if list == [] then None
    else if list[0].uuid == uuid then Some(0)
    else match FirstFor(list[1..], uuid)
      case None => None
      case Some(i) => Some(i + 1)
  }

  lemma FirstForIs<K>(list: seq<Registration<K>>, uuid: string, n: nat)
    requires n < |list| && list[n].uuid == uuid
    requires forall i :: 0 <= i < n ==> list[i].uuid != uuid
    ensures FirstFor(list, uuid) == Some(n)
  {
  }

  predicate AtHead<K>(list: seq<Registration<K>>, uuid: string) {
    list != [] && list[0].uuid == uuid
  }

  class Monitors<K> {
    var head: Node?<Registration<K>>
    ghost var nodes: seq<Node<Registration<K>>>
    ghost var contents: seq<Registration<K>>
    ghost var repr: set<Node<Registration<K>>>

    ghost predicate Valid()
      reads this, repr
    {
      && (forall i :: 0 <= i < |nodes| ==> nodes[i] in repr)
      && Chain(head, nodes) && Carry(nodes, contents)
    }

    constructor ()
      ensures Valid() && contents == [] && repr == {}
    {
      head := null;
      nodes, contents, repr := [], [], {};
    }

    /** `mon_list_add`. */
    method Add(uuid: string, callback: K) returns (status: Status)
      requires Valid()
      modifies this, repr
      ensures Valid() && fresh(repr - old(repr))
      ensures status == Success
      ensures contents == old(contents) + [Registration(ClipUuid(uuid), callback)]
    {
      var node := new Node(Registration(ClipUuid(uuid), callback));
      assert Valid();
      if head == null {
        head := node;
      } else {
        var temp := head;
        ghost var i := 0;
        while temp.next != null
          invariant i < |nodes| && temp == nodes[i]
          decreases |nodes| - i
        {
          temp := temp.next;
          i := i + 1;
        }
        temp.next := node;
      }
      nodes, contents, repr := nodes + [node], contents + [node.item], repr + {node};
      return Success;
    }

    /** `mon_list_process`: returns the callback invoked, if any. The list does not
        change, so later updates reach the same callback. */
    method Process(uuid: string) returns (status: Status, called: Option<K>)
      requires Valid()
      ensures var f := FirstFor(contents, uuid);
        if f.Some? then status == Success && called == Some(contents[f.value].callback)
        else status == Failed && called == None
    {
      var temp := head;
      ghost var i := 0;
      while temp != null
        invariant i <= |nodes| && temp == (if i < |nodes| then nodes[i] else null)
        invariant forall k :: 0 <= k < i ==> contents[k].uuid != uuid
        decreases |nodes| - i
      {
        if temp.item.uuid == uuid {
          FirstForIs(contents, uuid, i);
          return Success, Some(temp.item.callback);
        }
        temp := temp.next;
        i := i + 1;
      }
      return Failed, None;
    }

    /** `mon_list_remove`: the head is removed if it matches. The loop over the rest
        starts with `next` NULL, which is its exit condition, so no other
        registration is ever looked at. */
    method Remove(uuid: Option<string>) returns (status: Status)
      requires Valid()
      modifies this
      ensures Valid() && repr == old(repr)
      ensures status == (if uuid.Some? && AtHead(old(contents), uuid.value) then Success else Failed)
      ensures contents == if status == Success then old(contents)[1..] else old(contents)
    {
      if uuid.None? || head == null { return Failed; }
      if head.item.uuid == uuid.value {
        head := head.next;
        nodes, contents := nodes[1..], contents[1..];
        return Success;
      }
      return Failed;
    }

    /** `mon_list_clear`. */
    method Clear() returns (status: Status)
      requires Valid()
      modifies this
      ensures Valid() && contents == [] && repr == old(repr) && status == Success
    {
      var curr := head;
      ghost var i := 0;
      while curr != null
        invariant i <= |nodes| && curr == (if i < |nodes| then nodes[i] else null)
        decreases |nodes| - i
      {
        curr := curr.next;
        i := i + 1;
      }
      head := null;
      nodes, contents := [], [];
      return Success;
    }
  }

  // ----- Histories -----

  datatype MonOp<K> = AddOp(uuid: string, callback: K) | RemoveOp(uuid: string) | ClearOp

  /** What one operation does to the contents, as the methods above promise. */
  function Applied<K>(list: seq<Registration<K>>, op: MonOp<K>): seq<Registration<K>> {
    match op
    case AddOp(uuid, callback) => list + [Registration(ClipUuid(uuid), callback)]
    case RemoveOp(uuid) => if AtHead(list, uuid) then list[1..] else list
    case ClearOp => []
  }

  function Run<K>(ops: seq<MonOp<K>>): seq<Registration<K>> {
    if ops == [] then [] else Applied(Run(ops[..|ops| - 1]), ops[|ops| - 1])
  }

  /** The registrations made since the last clear, in order. */
  function Registered<K>(ops: seq<MonOp<K>>): seq<Registration<K>> {
    if ops == [] then []
    else
      var before := Registered(ops[..|ops| - 1]);
      match ops[|ops| - 1]
      case AddOp(uuid, callback) => before + [Registration(ClipUuid(uuid), callback)]
      case RemoveOp(_) => before
      case ClearOp => []
  }

  /** How many removals have succeeded since the last clear. */
  function Removals<K>(ops: seq<MonOp<K>>): nat {
    if ops == [] then 0
    else
      var before := Removals(ops[..|ops| - 1]);
      match ops[|ops| - 1]
      case AddOp(_, _) => before
      case RemoveOp(uuid) => if AtHead(Run(ops[..|ops| - 1]), uuid) then before + 1 else before
      case ClearOp => 0
  }

  /** After any history the list is the registrations since the last clear, in order,
      without as many of the oldest as removals have succeeded: removal only ever
      takes the oldest survivor. */
  lemma {:induction false} HistoryIsAQueue<K>(ops: seq<MonOp<K>>)
    ensures Removals(ops) <= |Registered(ops)|
    ensures Run(ops) == Registered(ops)[Removals(ops)..]
  {
    if ops != [] {
      HistoryIsAQueue(ops[..|ops| - 1]);
    }
  }

  predicate Registers<K>(list: seq<Registration<K>>, uuid: string) {
    exists i :: 0 <= i < |list| && list[i].uuid == uuid
  }

  /** With distinct uuids, a removal leaves its uuid unregistered exactly when the
      uuid was not registered at all or stood at the head. */
  lemma RemovalWorksIff<K>(list: seq<Registration<K>>, uuid: string)
    requires forall i, j :: 0 <= i < j < |list| ==> list[i].uuid != list[j].uuid
    ensures !Registers(Applied(list, RemoveOp(uuid)), uuid) <==> !Registers(list, uuid) || AtHead(list, uuid)
  {
  }

  /** A registration behind another one survives its own removal. */
  lemma SecondSurvivesRemoval<K>(first: K, second: K)
    ensures Run([AddOp("1001", first), AddOp("1004", second), RemoveOp("1004")])
            == [Registration("1001", first), Registration("1004", second)]
  {
    var ops: seq<MonOp<K>> := [AddOp("1001", first), AddOp("1004", second), RemoveOp("1004")];
    assert ops[..2] == [AddOp("1001", first), AddOp("1004", second)];
    assert ops[..2][..1] == [AddOp("1001", first)] && ops[..2][..1][..0] == [];
    assert Run(ops[..2][..1]) == [Registration("1001", first)];
    assert "1001"[3] != "1004"[3];
  }

  /** A registration is reached again under the uuid it was made with exactly when
      the uuid fits the key buffer. */
  lemma ReachedAgainIff<K>(uuid: string, callback: K)
    ensures Registers(Applied([], AddOp(uuid, callback)), uuid) <==> |uuid| <= MAX_UUID_LEN
  {
    var list := Applied([], AddOp(uuid, callback));
    assert list == [Registration(ClipUuid(uuid), callback)];
    if |uuid| <= MAX_UUID_LEN { assert list[0].uuid == uuid; }
  }
}
