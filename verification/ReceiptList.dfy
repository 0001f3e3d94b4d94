/** The list of receipts awaiting replies. A receipt's callback may register further
    receipts while the receipt itself is still linked. */
module ReceiptList {
  import opened OvsTypes
  import opened Codec
  import opened Nodes

  /** `K` identifies the callback. */
  datatype Pending<K> = Pending(rid: string, kind: ResultKind, callback: K)

  /** The index of the first entry with this id. */
  function FirstMatch<K>(list: seq<Pending<K>>, rid: string): (r: Option<nat>)
    ensures r.Some? ==> r.value < |list| && list[r.value].rid == rid
    ensures r.Some? ==> forall i :: 0 <= i < r.value ==> list[i].rid != rid
    ensures r.None? ==> forall i :: 0 <= i < |list| ==> list[i].rid != rid
  {
    if list == [] then None
    else if list[0].rid == rid then Some(0)
    else match FirstMatch(list[1..], rid)
      case None => None
      case Some(i) => Some(i + 1)
  }

  lemma FirstMatchIs<K>(list: seq<Pending<K>>, rid: string, n: nat)
    requires n < |list| && list[n].rid == rid
    requires forall i :: 0 <= i < n ==> list[i].rid != rid
    ensures FirstMatch(list, rid) == Some(n)
  {
  }

  datatype Dispatch<K> = Dispatch(at: nat, callback: K, parsed: Parsed)

  /** The callback to run for a reply, with what it is given: that of the first entry
      with the reply's id, if the result parses as that entry's kind. */
  function Dispatched<K>(list: seq<Pending<K>>, rid: string, result: Option<Json>): (r: Option<Dispatch<K>>)
    ensures r.Some? ==> r.value.at < |list|
  {
    match FirstMatch(list, rid)
    case None => None
    case Some(n) =>
      match ParseResult(list[n].kind, result)
      case None => None
      case Some(p) => Some(Dispatch(n, list[n].callback, p))
  }

  function Without<T>(s: seq<T>, n: nat): seq<T>
    requires n < |s|
  {
    s[..n] + s[n + 1..]
  }

  lemma AddsSplit<T>(s: seq<T>, adds: seq<T>)
    requires adds != []
    ensures s + [adds[0]] + adds[1..] == s + adds
  {
  }

  lemma WithoutPrefix<T>(s: seq<T>, t: seq<T>, n: nat)
    requires n < |s|
    ensures Without(s + t, n) == Without(s, n) + t
  {
  }

  class Receipts<K> {
    var head: Node?<Pending<K>>
    ghost var nodes: seq<Node<Pending<K>>>
    ghost var contents: seq<Pending<K>>
    ghost var repr: set<Node<Pending<K>>>

    ghost predicate Valid()
      reads this, repr
    {
      && (forall i :: 0 <= i < |nodes| ==> nodes[i] in repr)
      && Chain(head, nodes) && Carry(nodes, contents)
    }

    constructor ()
      ensures Valid() && contents == [] && repr == {}
    {
      head := null;
      nodes, contents, repr := [], [], {};
    }

    /** `receipt_list_add`: walks to the last node and links a new one behind it. */
    method Add(rid: Option<string>, kind: ResultKind, callback: K) returns (status: Status)
      requires Valid()
      modifies this, repr
      ensures Valid() && fresh(repr - old(repr))
      ensures status == (if rid.Some? then Success else Failed)
      ensures rid.None? ==> nodes == old(nodes)
      ensures rid.Some? ==> |nodes| == |old(nodes)| + 1 && old(nodes) <= nodes
      ensures contents == if rid.Some? then old(contents) + [Pending(ClipUuid(rid.value), kind, callback)]
                            else old(contents)
    {
      if rid.None? { return Failed; }
      var node := new Node(Pending(ClipUuid(rid.value), kind, callback));
      assert Valid();
      if head == null {
        head := node;
      } else {
        var temp := head;
        ghost var i := 0;
        while temp.next != null
          invariant i < |nodes| && temp == nodes[i]
          decreases |nodes| - i
        {
          temp := temp.next;
          i := i + 1;
        }
        assert i == |nodes| - 1;
        temp.next := node;
      }
      nodes, contents, repr := nodes + [node], contents + [node.item], repr + {node};
      return Success;
    }

    /** What the callback of a receipt does to this list: it registers receipts. */
    method RunCallback(adds: seq<Pending<K>>)
      requires Valid()
      requires forall i :: 0 <= i < |adds| ==> |adds[i].rid| <= MAX_UUID_LEN
      modifies this, repr
      ensures Valid() && fresh(repr - old(repr))
      ensures |nodes| == |old(nodes)| + |adds| && old(nodes) <= nodes
      ensures contents == old(contents) + adds
    {
      if adds != [] {
        var _ := Add(Some(adds[0].rid), adds[0].kind, adds[0].callback);
        assert Pending(ClipUuid(adds[0].rid), adds[0].kind, adds[0].callback) == adds[0];
        RunCallback(adds[1..]);
        AddsSplit(old(contents), adds);
      }
    }

    /** Unlinks and frees the head. */
    method UnlinkHead()
      requires Valid() && head != null
      modifies this
      ensures Valid() && repr == old(repr) && contents == Without(old(contents), 0)
    {
      head := head.next;
      nodes, contents := nodes[1..], Without(contents, 0);
    }

    /** Unlinks and frees the node behind `curr`. */
    method UnlinkAfter(curr: Node<Pending<K>>, next: Node<Pending<K>>, ghost i: nat)
      requires Valid() && i + 1 < |nodes| && nodes[i] == curr && nodes[i + 1] == next
      modifies this, curr
      ensures Valid() && repr == old(repr)
      ensures contents == Without(old(contents), i + 1)
    {
      curr.next := next.next;
      nodes, contents := nodes[..i + 1] + nodes[i + 2..], Without(contents, i + 1);
    }

    /** The callback of a node runs, registering `added`, and then the node is
        unlinked and freed. */
    method Deliver(curr: Node?<Pending<K>>, next: Node<Pending<K>>, ghost i: nat, added: seq<Pending<K>>)
      requires Valid() && i < |nodes| && next == nodes[i] && curr == (if i == 0 then null else nodes[i - 1])
      requires forall a :: a in added ==> |a.rid| <= MAX_UUID_LEN
      modifies this, repr
      ensures Valid() && fresh(repr - old(repr))
      ensures contents == Without(old(contents), i) + added
    {
      RunCallback(added);
      ghost var contents1 := contents;
      assert curr == (if i == 0 then null else nodes[i - 1]) && next == nodes[i];
      if curr == null {
        UnlinkHead();
      } else {
        UnlinkAfter(curr, next, i - 1);
      }
      assert contents == Without(contents1, i);
      WithoutPrefix(old(contents), added, i);
    }

    /** The walk of `receipt_list_process` behind a head that does not match. */
    method Scan(rid: string) returns (curr: Node?<Pending<K>>, next: Node?<Pending<K>>, ghost i: nat)
      requires Valid() && head != null && head.item.rid != rid
      ensures next == null <==> FirstMatch(contents, rid) == None
      ensures next != null ==> i + 1 < |nodes| && curr == nodes[i] && next == nodes[i + 1]
                               && FirstMatch(contents, rid) == Some(i + 1)
    {
      curr := head;
      next := curr.next;
      i := 0;
      while next != null
        invariant i < |nodes| && curr == nodes[i] && next == curr.next
        invariant forall k :: 0 <= k <= i ==> nodes[k].item.rid != rid
        decreases |nodes| - i
      {
        if next.item.rid == rid {
          FirstMatchIs(contents, rid, i + 1);
          return;
        }
        curr := curr.next;
        next := curr.next;
        i := i + 1;
      }
    }

    /** `receipt_list_process`. `adds` says which receipts a callback registers, given
        itself and what it is passed. Exactly the first entry with the id is removed,
        after the callback has returned; the others keep their order, and everything
        the callback registered stays. If no entry has the id, or the result does not
        parse, the list is unchanged and no callback runs. */
    method Process(rid: Option<string>, result: Option<Json>, adds: (K, Parsed) -> seq<Pending<K>>)
      returns (status: Status, called: Option<(K, Parsed)>)
      requires Valid()
      requires rid.Some? && Dispatched(contents, rid.value, result).Some? ==>
        var d := Dispatched(contents, rid.value, result).value;
        forall a :: a in adds(d.callback, d.parsed) ==> |a.rid| <= MAX_UUID_LEN
      modifies this, repr
      ensures Valid() && fresh(repr - old(repr))
      ensures var d := if rid.None? then None else Dispatched(old(contents), rid.value, result);
        if d.None? then status == Failed && called == None && contents == old(contents)
        else
          && status == Success && called == Some((d.value.callback, d.value.parsed))
          && contents == Without(old(contents), d.value.at) + adds(d.value.callback, d.value.parsed)
    {
      if rid.None? || head == null { return Failed, None; }
      var curr: Node?<Pending<K>>, next: Node?<Pending<K>> := null, head;
      ghost var i: nat := 0;
      if head.item.rid == rid.value {
        FirstMatchIs(contents, rid.value, 0);
      } else {
        curr, next, i := Scan(rid.value);
        if next == null { return Failed, None; }
        i := i + 1;
      }
      var parsed := ParseResult(next.item.kind, result);
      if parsed.None? { return Failed, None; }
      called := Some((next.item.callback, parsed.value));
      Deliver(curr, next, i, adds(next.item.callback, parsed.value));
      return Success, called;
    }

    /** `receipt_list_clear`. */
    method Clear() returns (status: Status)
      requires Valid()
      modifies this
      ensures Valid() && contents == [] && repr == old(repr) && status == Success
    {
      var curr := head;
      ghost var i := 0;
      while curr != null
        invariant i <= |nodes| && curr == (if i < |nodes| then nodes[i] else null)
        decreases |nodes| - i
      {
        curr := curr.next;
        i := i + 1;
      }
      head := null;
      nodes, contents := [], [];
      return Success;
    }
  }

  /** A receipt is found again under the id it was added with exactly when the id
      fits the key buffer. */
  lemma FoundAgainIff<K>(rid: string, kind: ResultKind, callback: K)
    ensures FirstMatch([Pending(ClipUuid(rid), kind, callback)], rid).Some? <==> |rid| <= MAX_UUID_LEN
  {
    if |rid| > MAX_UUID_LEN { assert |ClipUuid(rid)| != |rid|; }
  }
}
