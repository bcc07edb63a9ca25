/** The hand-written doubly linked list of idle connections, on the heap. */
module IdleLists {
  import opened PoolModel

  class PoolConn {
    const c: Conn
    var t: Time
    const created: Time
    var next: PoolConn?
    var prev: PoolConn?

    constructor (c: Conn, created: Time)
      ensures this.c == c && t == 0 && this.created == created && next == null && prev == null
    {
      this.c, this.t, this.created, this.next, this.prev := c, 0, created, null, null;
    }

    function ToEntry(): Entry
      reads `t
    {
      Entry(c, t, created)
    }
  }

  /** Each node's links are mutually inverse, with null at both ends. */
  ghost predicate Chained(nodes: seq<PoolConn>)
    reads nodes
  {
    && (forall i, j :: 0 <= i < j < |nodes| ==> nodes[i] != nodes[j])
    && (forall i {:trigger nodes[i].next} :: 0 <= i < |nodes| ==>
        nodes[i].next == if i + 1 < |nodes| then nodes[i + 1] else null)
    && (forall i {:trigger nodes[i].prev} :: 0 <= i < |nodes| ==> nodes[i].prev == if i > 0 then nodes[i - 1] else null)
  }

  class IdleList {
    var count: int
    var front: PoolConn?
    var back: PoolConn?
    ghost var nodes: seq<PoolConn>    // the nodes, front to back
    ghost var entries: seq<Entry>     // what they hold

    ghost predicate Valid()
      reads this, nodes
    {
      && count == |nodes|
      && front == (if nodes == [] then null else nodes[0])
      && back == (if nodes == [] then null else nodes[|nodes| - 1])
      && Chained(nodes)
      && |entries| == |nodes|
      && (forall i :: 0 <= i < |nodes| ==> nodes[i].ToEntry() == entries[i])
    }

    constructor ()
      ensures Valid() && nodes == [] && entries == []
    {
      count, front, back, nodes, entries := 0, null, null, [], [];
    }

    method PushFront(pc: PoolConn)
      requires Valid() && pc !in nodes
      modifies this, pc`next, pc`prev, nodes`prev
      ensures Valid() && nodes == [pc] + old(nodes) && entries == [pc.ToEntry()] + old(entries)
    {
      pc.next := front;
      pc.prev := null;
      if count == 0 {
        back := pc;
      } else {
        front.prev := pc;
      }
      front := pc;
      count := count + 1;
      nodes, entries := [pc] + nodes, [pc.ToEntry()] + entries;
    }

    method PopFront()
      requires Valid() && nodes != []
      modifies this, nodes`next, nodes`prev
      ensures Valid() && nodes == old(nodes)[1..] && entries == old(entries)[1..]
      ensures old(front).next == null && old(front).prev == null && old(front) !in nodes
    {
      var pc := front;
      count := count - 1;
      if count == 0 {
        front, back := null, null;
      } else {
        assert nodes[0].next == nodes[1];
        pc.next.prev := null;
        front := pc.next;
      }
      pc.next, pc.prev := null, null;
      nodes, entries := nodes[1..], entries[1..];
    }

    method PopBack()
      requires Valid() && nodes != []
      modifies this, nodes`next, nodes`prev
      ensures Valid() && nodes == old(nodes)[..|old(nodes)| - 1] && entries == old(entries)[..|old(nodes)| - 1]
      ensures old(back).next == null && old(back).prev == null && old(back) !in nodes
    {
      var pc := back;
      count := count - 1;
      if count == 0 {
        front, back := null, null;
      } else {
        assert nodes[count].prev == nodes[count - 1];
        pc.prev.next := null;
        back := pc.prev;
      }
      pc.next, pc.prev := null, null;
      nodes, entries := nodes[..|nodes| - 1], entries[..|nodes| - 1];
    }

    /** Close's detaching of the whole list; the chain itself stays linked. */
    method Detach() returns (first: PoolConn?, ghost chain: seq<PoolConn>)
      requires Valid()
      modifies this
      ensures Valid() && nodes == [] && entries == []
      ensures chain == old(nodes) && Chained(chain) && first == old(front)
    {
      first, chain := front, nodes;
      count := 0;
      front, back := null, null;
      nodes, entries := [], [];
    }
  }

  /** Close's walk along `next`: it calls Close on each node of a chain once, front to back. */
  method Walk(first: PoolConn?, ghost chain: seq<PoolConn>) returns (closed: seq<Conn>)
    requires Chained(chain) && first == (if chain == [] then null else chain[0])
    ensures |closed| == |chain| && forall i :: 0 <= i < |chain| ==> closed[i] == chain[i].c
  {
    var pc := first;
    closed := [];
    while pc != null
      invariant |closed| <= |chain|
      invariant pc == if |closed| < |chain| then chain[|closed|] else null
      invariant forall i :: 0 <= i < |closed| ==> closed[i] == chain[i].c
      decreases |chain| - |closed|
    {
      assert chain[|closed|].next == if |closed| + 1 < |chain| then chain[|closed| + 1] else null;
      closed := closed + [pc.c];
      pc := pc.next;
    }
  }
}
