// The intrusive doubly linked list that the sources write out once per element
// type: TS_SECTION_LIST, TS_STREAM_LIST and DECRYPTOR_LIST.

module LinkedLists {

  class Node<T> {
    var prev: Node?<T>
    var next: Node?<T>
    var value: T

    constructor (value: T)
      ensures this.value == value && prev == null && next == null
    {
      this.value := value;
      prev, next := null, null;
    }
  }

  /** A sequence without its k-th element. */
  ghost function Cut<T>(s: seq<T>, k: nat): (r: seq<T>)
    requires k < |s|
    ensures r == s[..k] + s[k + 1..] && |r| == |s| - 1
    ensures forall i {:trigger r[i]} | 0 <= i < |r| :: r[i] == if i < k then s[i] else s[i + 1]
  {
    s[..k] + s[k + 1..]
  }

  class List<T> {
    var head: Node?<T>
    var tail: Node?<T>
    var count: int
    ghost var nodes: seq<Node<T>>

    ghost predicate Valid()
      reads this, nodes`prev, nodes`next
    {
      && count == |nodes|
      && (nodes == [] ==> head == null && tail == null)
      && (nodes != [] ==> head == nodes[0] && tail == nodes[|nodes| - 1])
      && (forall i {:trigger nodes[i].prev} | 0 <= i < |nodes| ::
            nodes[i].prev == if i == 0 then null else nodes[i - 1])
      && (forall i {:trigger nodes[i].next} | 0 <= i < |nodes| ::
            nodes[i].next == if i == |nodes| - 1 then null else nodes[i + 1])
      && (forall i, j | 0 <= i < j < |nodes| :: nodes[i] != nodes[j])
    }

    constructor ()
      ensures Valid() && nodes == []
    {
      head, tail, count, nodes := null, null, 0, [];
    }

    method PutTail(e: Node<T>)
      requires Valid() && e !in nodes
      modifies this, nodes`next, e`prev, e`next
      ensures Valid() && nodes == old(nodes) + [e]
    {
      if tail != null {
        e.prev := tail;
        e.next := null;
        tail.next := e;
        tail := e;
        count := count + 1;
      } else {
        e.prev := null;
        e.next := null;
        head := e;
        tail := e;
        count := 1;
      }
      nodes := nodes + [e];
    }

    method GetHead() returns (e: Node?<T>)
      requires Valid()
      modifies this, nodes`prev, nodes`next
      ensures Valid()
      ensures e == null <==> old(nodes) == []
      ensures e == null ==> nodes == []
      ensures e != null ==> old(nodes) == [e] + nodes && e.prev == null && e.next == null
    {
      e := head;
      if e == null {
        return;
      }
      head := e.next;
      if head != null {
        head.prev := null;
        count := count - 1;
      } else {
        tail := null;
        count := 0;
      }
      e.next := null;
      nodes := nodes[1..];
    }

    method Unlink(e: Node<T>, ghost k: nat)
      requires Valid() && k < |nodes| && nodes[k] == e
      modifies this, nodes`prev, nodes`next
      ensures Valid()
      ensures nodes == old(nodes[..k]) + old(nodes[k + 1..])
    {
      hide Cut;
      var prev, next := e.prev, e.next;
      if prev != null {
        prev.next := next;
      } else {
        head := next;
      }
      if next != null {
        next.prev := prev;
      } else {
        tail := prev;
      }
      count := count - 1;
      nodes := Cut(nodes, k);
    }

    /** Empties the list; the nodes are freed one by one from the head. */
    method Clear() returns (ghost freed: seq<Node<T>>)
      requires Valid()
      modifies this
      ensures Valid() && nodes == [] && freed == old(nodes)
    {
      freed := [];
      var e := head;
      while e != null
        invariant |freed| <= |nodes| && freed == nodes[..|freed|]
        invariant e == if |freed| < |nodes| then nodes[|freed|] else null
        decreases |nodes| - |freed|
      {
        var n := e.next;
        freed := freed + [e];
        e := n;
      }
      head, tail, count, nodes := null, null, 0, [];
    }
  }

  lemma {:induction false} DistinctFitsSet<T>(nodes: seq<Node<T>>, s: set<Node<T>>)
    requires forall i, j | 0 <= i < j < |nodes| :: nodes[i] != nodes[j]
    requires forall e | e in nodes :: e in s
    ensures |nodes| <= |s|
    decreases |nodes|
  {
    if nodes != [] {
      var e := nodes[0];
      forall f | f in nodes[1..] ensures f in s - {e} {
        assert f in nodes;
      }
      DistinctFitsSet(nodes[1..], s - {e});
    }
  }
}
