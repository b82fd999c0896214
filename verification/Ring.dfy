/** The circular linked ring of buffer headers: a bounded FIFO, and its destruction. */
module Ring {
  import opened Basics

  class Node<T> {
    var forw: Node?<T>
    var data: Option<T>    // None is NULL: what is queued is never NULL

    constructor ()
      ensures forw == null && data == None
    {
      forw, data := null, None;
    }
  }

  /** The nodes that are allocated: reading or freeing any other node is an error. */
  class Memory<T> {
    ghost var live: set<Node<T>>

    constructor (ghost nodes: set<Node<T>>)
      ensures live == nodes
    {
      live := nodes;
    }

    method Next(n: Node<T>) returns (next: Node?<T>)
      requires n in live
      ensures next == n.forw
    {
      next := n.forw;
    }

    method Free(n: Node<T>)
      requires n in live
      modifies this
      ensures live == old(live) - {n}
    {
      live := live - {n};
    }
  }

  class Ring<T> {
    var first: Node?<T>
    var last: Node?<T>
    var nelem: int
    ghost var nodes: seq<Node<T>>    // from `first` on, along the links
    ghost var contents: seq<T>

    /** The link after nodes[i]; the last one leads back. */
    ghost function After(i: nat): Node<T>
      requires i < |nodes|
      reads `nodes
    {
      if i + 1 < |nodes| then nodes[i + 1] else nodes[0]
    }

    ghost predicate Linked(n: nat)
      requires n <= |nodes|
      reads `nodes, nodes
    {
      && (forall i, j :: 0 <= i < j < |nodes| ==> nodes[i] != nodes[j])
      && (forall i :: 0 <= i < n ==> nodes[i].forw == After(i))
    }

    /** The occupied nodes are an arc from `first` up to `last`, holding the contents in order. */
    ghost predicate Valid()
      reads this, nodes
    {
      && |nodes| == RING_SLOTS && Linked(RING_SLOTS)
      && |contents| == nelem <= RING_SLOTS
      && first == nodes[0]
      && last == (if nelem < RING_SLOTS then nodes[nelem] else nodes[0])
      && (forall k :: 0 <= k < RING_SLOTS ==> nodes[k].data == if k < nelem then Some(contents[k]) else None)
    }

    constructor ()
      ensures Valid() && contents == [] && fresh(nodes) && |nodes| == 9
    {
      var head := new Node<T>();
      first, last, nelem := head, head, 0;
      nodes, contents := [head], [];
      new;
      var current := head;
      for i := 0 to MAX_QUEUE_ELEMENTS - 2
        invariant |nodes| == i + 1 && nodes[0] == head && current == nodes[i]
        invariant fresh(nodes) && Linked(i) && contents == [] && nelem == 0 && first == last == head
        invariant forall k :: 0 <= k <= i ==> nodes[k].data == None
      {
        var newelem := new Node<T>();
        current.forw := newelem;
        nodes := nodes + [newelem];
        current := newelem;
      }
      current.forw := first;
    }

    /** Appends, or does nothing at all when the ring is full. */
    method Enqueue(x: T)
      requires Valid()
      modifies this, nodes
      ensures Valid() && contents == Enqueued(old(contents), x) && nodes == old(nodes)
      ensures contents == if old(|contents|) < 9 then old(contents) + [x] else old(contents)
    {
      if last.data.Some? {
        return;
      }
      last.data := Some(x);
      last := last.forw;
      nelem := nelem + 1;
      contents := contents + [x];
    }

    /** Removes the head, or answers NULL. */
    method Dequeue() returns (x: Option<T>)
      requires Valid()
      modifies this, nodes
      ensures Valid()
      ensures old(contents) == [] ==> x == None && contents == [] && nodes == old(nodes)
      ensures old(contents) != [] ==> x == Some(old(contents)[0]) && contents == old(contents)[1..]
      ensures old(contents) != [] ==> nodes == old(nodes)[1..] + [old(nodes)[0]]
    {
      if first.data == None {
        return None;
      }
      x := first.data;
      first.data := None;
      first := first.forw;
      nelem := nelem - 1;
      contents := contents[1..];
      nodes := nodes[1..] + [nodes[0]];
    }

    method GetNelem() returns (n: int)
      requires Valid()
      ensures n == |contents|
    {
      n := nelem;
    }

    /** Frees every node once, and reads none that is freed. */
    method Deinit(heap: Memory<T>)
      requires Valid() && forall n :: n in nodes ==> n in heap.live
      modifies `first, heap
      ensures first == null
      ensures forall n :: n in heap.live <==> n in old(heap.live) && n !in nodes
    {
      ghost var live := heap.live;
      var current := first;
      for i := 0 to MAX_QUEUE_ELEMENTS - 2
        invariant current == first == nodes[i]
        invariant forall n :: n in heap.live <==> n in live && n !in nodes[..i]
      {
        if current != null {
          current := heap.Next(current);
          heap.Free(first);
          first := current;
        }
      }
      if first != null {
        heap.Free(first);
        first := null;
      }
    }
  }

  const MAX_QUEUE_ELEMENTS: nat := 10
}
