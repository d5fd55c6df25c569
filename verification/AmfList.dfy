/** The doubly linked list under AMF objects and arrays: relinked nodes that stand for a plain sequence. */
module AmfList {
  import opened Wrappers

  class Node<T> {
    var data: T
    var prev: Node?<T>
    var next: Node?<T>

    constructor (data: T)
      ensures this.data == data && prev == null && next == null
    {
      this.data, prev, next := data, null, null;
    }
  }

  /** Neighbours point at each other. */
  ghost predicate Linked<T>(nodes: seq<Node<T>>)
    reads nodes
  {
    forall i | 0 <= i < |nodes| :: LinkedAt(nodes, i)
  }

  /** A node between its neighbours. */
  ghost predicate LinkedAt<T>(nodes: seq<Node<T>>, i: nat)
    requires i < |nodes|
    reads nodes
  {
    && nodes[i].prev == (if i == 0 then null else nodes[i - 1])
    && nodes[i].next == (if i + 1 == |nodes| then null else nodes[i + 1])
  }

  ghost predicate Distinct<T>(nodes: seq<Node<T>>) {
    forall i, j | 0 <= i < j < |nodes| :: nodes[i] != nodes[j]
  }

  class List<T> {
    var size: nat
    var first: Node?<T>
    var last: Node?<T>
    ghost var nodes: seq<Node<T>>
    /** The data in list order. */
    ghost var contents: seq<T>

    ghost predicate Valid()
      reads this, nodes
    {
      && size == |nodes| == |contents|
      && first == (if nodes == [] then null else nodes[0])
      && last == (if nodes == [] then null else nodes[|nodes| - 1])
      && Distinct(nodes) && Linked(nodes)
      && forall i | 0 <= i < |nodes| :: nodes[i].data == contents[i]
    }

    constructor ()
      ensures Valid() && nodes == [] && contents == []
    {
      size, first, last, nodes, contents := 0, null, null, [], [];
    }

    /** amf_list_push. */
    method Push(data: T)
      requires Valid()
      modifies this, nodes
      ensures Valid() && contents == old(contents) + [data]
      ensures |nodes| == |old(nodes)| + 1 && nodes[..|nodes| - 1] == old(nodes) && fresh(nodes[|nodes| - 1])
    {
      var node := new Node(data);
      ghost var n := |nodes|;
      if size == 0 {
        first, last := node, node;
      } else {
        last.next := node;
        node.prev := last;
        last := node;
      }
      size := size + 1;
      nodes, contents := nodes + [node], contents + [data];
      forall i | 0 <= i < |nodes| ensures LinkedAt(nodes, i) {
        assert i < n ==> old(LinkedAt(nodes, i));
      }
    }

    /** amf_list_delete: the neighbours of a node are linked to each other. */
    method Delete(node: Node?<T>, ghost i: nat) returns (data: Option<T>)
      requires Valid() && (node != null ==> i < |nodes| && nodes[i] == node)
      modifies this, nodes
      ensures Valid()
      ensures node == null ==> data == None && contents == old(contents) && nodes == old(nodes)
      ensures node != null ==> data == Some(old(contents)[i]) && nodes == old(nodes)[..i] + old(nodes)[i + 1..]
      ensures node != null ==> contents == old(contents)[..i] + old(contents)[i + 1..]
    {
      if node == null {
        return None;
      }
      assert LinkedAt(nodes, i);
      if node.next != null {
        node.next.prev := node.prev;
      }
      if node.prev != null {
        node.prev.next := node.next;
      }
      if node == first {
        first := node.next;
      }
      if node == last {
        last := node.prev;
      }
      data := Some(node.data);
      size := size - 1;
      nodes, contents := nodes[..i] + nodes[i + 1..], contents[..i] + contents[i + 1..];
      ghost var before := old(nodes);
      forall k | 0 <= k < |nodes| ensures LinkedAt(nodes, k) {
        assert old(LinkedAt(nodes, if k < i then k else k + 1));
        assert nodes[k] == before[if k < i then k else k + 1];
      }
    }

    /** amf_list_pop. */
    method Pop() returns (data: Option<T>)
      requires Valid()
      modifies this, nodes
      ensures Valid()
      ensures old(contents) == [] ==> data == None && contents == []
      ensures old(contents) != [] ==> data.Some? && old(contents) == contents + [data.value]
    {
      ghost var n := if nodes == [] then 0 else |nodes| - 1;
      data := Delete(last, n);
      assert old(contents) != [] ==> contents == old(contents)[..n];
    }

    /** amf_list_get_at. */
    method GetAt(n: nat) returns (node: Node?<T>)
      requires Valid()
      ensures node == (if n < |contents| then nodes[n] else null)
      ensures n < |contents| ==> nodes[n].data == contents[n]
    {
      if n >= size {
        return null;
      }
      node := first;
      for i := 0 to n
        invariant node == nodes[i]
      {
        assert LinkedAt(nodes, i);
        node := node.next;
      }
    }

    /**
     * amf_list_insert_before: the list stays sound exactly if the node is not the first one, whose back link is not
     * set.
     */
    method InsertBefore(node: Node<T>, ghost i: nat, data: T)
      requires Valid() && i < |nodes| && nodes[i] == node
      modifies this, nodes
      ensures contents == old(contents)[..i] + [data] + old(contents)[i..]
      ensures Valid() <==> i > 0
    {
      var inserted := new Node(data);
      assert LinkedAt(nodes, i);
      inserted.next := node;
      inserted.prev := node.prev;
      if node.prev != null {
        node.prev.next := inserted;
        node.prev := inserted;
      } else {
        first := inserted;
      }
      size := size + 1;
      ghost var before := nodes;
      nodes, contents := nodes[..i] + [inserted] + nodes[i..], contents[..i] + [data] + contents[i..];
      if i == 0 {
        assert nodes[1] == node && !LinkedAt(nodes, 1);
      } else {
        forall k | 0 <= k < |nodes| ensures LinkedAt(nodes, k) {
          assert k != i ==>
            old(LinkedAt(nodes, if k < i then k else k - 1))
            && nodes[k] == before[if k < i then k else k - 1];
        }
      }
    }

    /** amf_list_insert_after: likewise, exactly if the node is not the last one. */
    method InsertAfter(node: Node<T>, ghost i: nat, data: T)
      requires Valid() && i < |nodes| && nodes[i] == node
      modifies this, nodes
      ensures contents == old(contents)[..i + 1] + [data] + old(contents)[i + 1..]
      ensures Valid() <==> i + 1 < |old(nodes)|
    {
      var inserted := new Node(data);
      assert LinkedAt(nodes, i);
      inserted.next := node.next;
      inserted.prev := node;
      if node.next != null {
        node.next.prev := inserted;
        node.next := inserted;
      } else {
        last := inserted;
      }
      size := size + 1;
      ghost var before := nodes;
      nodes, contents := nodes[..i + 1] + [inserted] + nodes[i + 1..], contents[..i + 1] + [data] + contents[i + 1..];
      if i + 1 == |before| {
        assert nodes[i] == node && !LinkedAt(nodes, i);
      } else {
        forall k | 0 <= k < |nodes| ensures LinkedAt(nodes, k) {
          assert k != i + 1 ==>
            old(LinkedAt(nodes, if k <= i then k else k - 1))
            && nodes[k] == before[if k <= i then k else k - 1];
        }
      }
    }
  }
}
