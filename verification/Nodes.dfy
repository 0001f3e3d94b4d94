/** Singly linked nodes, and the sequence of items a chain of them stands for. */
module Nodes {

  class Node<T> {
    var item: T
    var next: Node?<T>

    constructor (item: T)
      ensures this.item == item && next == null
    {
      this.item := item;
      next := null;
    }
  }

  /** The nodes from `head` on are exactly `nodes`, in this order. */
  ghost predicate Chain<T>(head: Node?<T>, nodes: seq<Node<T>>)
    reads nodes
  {
    && head == (if nodes == [] then null else nodes[0])
    && (forall i {:trigger nodes[i].next} :: 0 <= i < |nodes| - 1 ==> nodes[i].next == nodes[i + 1])
    && (nodes != [] ==> nodes[|nodes| - 1].next == null)
    && (forall i, j :: 0 <= i < j < |nodes| ==> nodes[i] != nodes[j])
  }

  /** The nodes carry these items. */
  ghost predicate Carry<T>(nodes: seq<Node<T>>, items: seq<T>)
    reads nodes
  {
    && |nodes| == |items|
    && forall i :: 0 <= i < |nodes| ==> nodes[i].item == items[i]
  }
}
