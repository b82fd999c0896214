/**
 What one call of the port functions does to the buffers when no other thread
 interferes: sending, returning and flushing.  FlushProtocol and TunnelExchange
 take the same functions apart, step by step, for every interleaving.  The ring is
 its contents here; the class of module Ring implements the two operations on it.
 */
module PortBuffers {
  import opened Basics
  import opened TunnelExchange

  class Header {
    var inputPort: nat
    var outputPort: nat

    constructor (inputPort: nat, outputPort: nat)
      ensures this.inputPort == inputPort && this.outputPort == outputPort
    {
      this.inputPort, this.outputPort := inputPort, outputPort;
    }
  }

  /** The fields of the component a port looks at, and what it gave back to the client. */
  class Component {
    var state: OmxState
    var transient: Transient
    var mgmtSem: nat
    var flushCond: nat
    var processed: seq<Header>

    constructor ()
      ensures state == Loaded && transient == NoTransient && mgmtSem == 0 && flushCond == 0 && processed == []
    {
      state, transient, mgmtSem, flushCond, processed := Loaded, NoTransient, 0, 0, [];
    }
  }

  class Port {
    const index: nat
    const isInput: bool
    const component: Component
    var queue: seq<Header>      // pBufferQueue
    var sem: nat                // pBufferSem
    var enabled: bool
    var disabling: bool
    var flushed: bool
    var tunneled: bool
    var supplier: bool
    var peer: Port?
    var peerIndex: nat
    var numFlushed: nat

    constructor (index: nat, isInput: bool, component: Component)
      ensures this.index == index && this.isInput == isInput && this.component == component
      ensures queue == [] && sem == 0 && enabled && !flushed && !tunneled
    {
      this.index, this.isInput, this.component := index, isInput, component;
      queue := [];
      sem, enabled, disabling, flushed, tunneled, supplier, peer, peerIndex, numFlushed := 0, true, false, false, false, false, null, 0, 0;
    }

    ghost function Guards(): Ctl reads this, component { Ctl(component.state, component.transient, enabled, disabling) }

    /** The port a header names for this end. */
    function Named(h: Header): nat reads h { if isInput then h.inputPort else h.outputPort }

    ghost function Verdict(h: Header): Verdict
      reads this, component, h
    {
      Judge(Guards(), Named(h) == index, tunneled, supplier, flushed)
    }

    /** `queue`, which drops the header when the ring is full. */
    method Enqueue(h: Header)
      modifies `queue
      ensures queue == Enqueued(old(queue), h)
    {
      if |queue| < RING_SLOTS {
        queue := queue + [h];
      }
    }

    /** The header names this port, and the component has a buffer management thread. */
    ghost predicate Serves(h: Header)
      reads this, component, h
    {
      && (if isInput then h.inputPort == index else h.outputPort == index)
      && (component.state == Idle || component.state == Executing || component.state == Pause)
    }

    /** Closed to new buffers: disabled or about to be, or on the way to Idle at the end that does not supply. */
    ghost predicate Closed()
      reads this, component
    {
      || !enabled
      || (disabling && !(tunneled && supplier))
      || (component.transient == ExecutingToIdle && tunneled && !supplier)
    }

    /**
     A header for another port, a component that is Invalid or manages no buffers,
     a closed port, and a flush of a port that does not supply: each has its error
     code and no effect.  A supplier takes its buffers back under flush and while
     it is being disabled, but the manager is not told; otherwise it is.
     */
    method SendBufferFunction(h: Header) returns (err: OmxError)
      modifies `sem, `queue, component`mgmtSem
      ensures (if isInput then h.inputPort != index else h.outputPort != index) ==> err == ErrorBadPortIndex
      ensures (if isInput then h.inputPort == index else h.outputPort == index) ==>
                && (component.state == Invalid ==> err == ErrorInvalidState)
                && (component.state == Loaded || component.state == WaitForResources ==> err == ErrorIncorrectStateOperation)
      ensures old(Serves(h)) ==>
                err == if old(Closed()) || (flushed && !supplier) then ErrorIncorrectStateOperation else ErrorNone
      ensures err != ErrorNone ==> queue == old(queue) && sem == old(sem) && component.mgmtSem == old(component.mgmtSem)
      ensures err == ErrorNone ==>
                && queue == (if old(|queue|) < 9 then old(queue) + [h] else old(queue)) && sem == old(sem) + 1
                && component.mgmtSem == old(component.mgmtSem) + if flushed || (disabling && tunneled && supplier) then 0 else 1
      ensures old(Verdict(h)).Refused? ==>
                err == old(Verdict(h)).err && err != ErrorNone && unchanged(`queue, `sem) && component.mgmtSem == old(component.mgmtSem)
      ensures old(Verdict(h)).Accepted? ==>
                err == ErrorNone && queue == Enqueued(old(queue), h) && sem == old(sem) + 1
                && component.mgmtSem == old(component.mgmtSem) + Bit(old(Verdict(h)).signal)
    {
      if Named(h) != index {
        return ErrorBadPortIndex;
      }
      if component.state == Invalid {
        return ErrorInvalidState;
      }
      if component.state != Executing && component.state != Pause && component.state != Idle {
        return ErrorIncorrectStateOperation;
      }
      if !enabled || (disabling && !(tunneled && supplier))
         || (component.transient == ExecutingToIdle && tunneled && !supplier) {
        return ErrorIncorrectStateOperation;
      }
      if !flushed && !(disabling && tunneled && supplier) {
        Enqueue(h);
        sem := sem + 1;
        component.mgmtSem := component.mgmtSem + 1;
      } else if supplier {
        Enqueue(h);
        sem := sem + 1;
      } else {
        return ErrorIncorrectStateOperation;
      }
      return ErrorNone;
    }

    /** A tunnelled port has a peer, in another component. */
    ghost predicate Linked()
      reads this
    {
      tunneled ==> peer != null && peer != this && peer.component != component
    }

    /** A supplier keeps what its peer refuses; a non-supplier loses it. */
    method ReturnBufferFunction(h: Header)
      requires Linked()
      modifies `queue, `sem, `numFlushed, component`processed
      modifies if tunneled && !supplier then {h} else {}
      modifies if tunneled then {peer} else {}, if tunneled then {peer.component} else {}
      ensures !tunneled ==> component.processed == old(component.processed) + [h] && unchanged(`queue, `sem, `numFlushed)
      ensures tunneled ==> component.processed == old(component.processed)
      ensures tunneled && supplier && flushed ==>
                && queue == Enqueued(old(queue), h) && sem == old(sem) && numFlushed == old(numFlushed) + 1
                && peer.queue == old(peer.queue)
      ensures tunneled && supplier && !flushed && old(peer.Verdict(h)).Accepted? ==>
                && peer.queue == Enqueued(old(peer.queue), h) && peer.sem == old(peer.sem) + 1 && unchanged(`queue, `sem, `numFlushed)
      ensures tunneled && supplier && !flushed && old(peer.Verdict(h)).Refused? ==>
                && peer.queue == old(peer.queue) && peer.sem == old(peer.sem)
                && queue == Enqueued(old(queue), h) && sem == old(sem) + 1 && unchanged(`numFlushed)
      ensures tunneled && !supplier ==>
                && h.inputPort == (if isInput then index else old(peerIndex)) && h.outputPort == (if isInput then old(peerIndex) else index)
                && unchanged(`queue, `sem, `numFlushed)
                && peer.queue == (if old(PeerTakes(h)) then Enqueued(old(peer.queue), h) else old(peer.queue))
                && peer.sem == old(peer.sem) + Bit(old(PeerTakes(h)))
    {
      if tunneled && !supplier {
        if isInput {
          h.outputPort, h.inputPort := peerIndex, index;
        } else {
          h.inputPort, h.outputPort := peerIndex, index;
        }
        var _ := peer.SendBufferFunction(h);
      } else if tunneled && supplier && !flushed {
        var err := peer.SendBufferFunction(h);
        if err != ErrorNone {
          Enqueue(h);
          sem := sem + 1;
        }
      } else if !tunneled {
        component.processed := component.processed + [h];
      } else {
        Enqueue(h);
        numFlushed := numFlushed + 1;
      }
    }

    /** The peer accepts a header that names both ends. */
    ghost predicate PeerTakes(h: Header)
      requires Linked() && tunneled
      reads this, peer, peer.component
    {
      Judge(peer.Guards(), (if peer.isInput == isInput then index else peerIndex) == peer.index,
            peer.tunneled, peer.supplier, peer.flushed).Accepted?
    }

    /** Every header queued here would be taken by the peer, which has room for all of them. */
    ghost predicate PeerTakesAll()
      requires Linked() && tunneled
      reads this, peer, peer.component, queue
    {
      |peer.queue| + |queue| <= RING_SLOTS && forall h :: h in queue ==> peer.Verdict(h).Accepted?
    }

    /** One turn of the loop that empties the ring: each header goes where its port sends it. */
    method FlushOne() returns (found: bool)
      requires Linked() && 0 < sem && |queue| <= RING_SLOTS
      modifies `queue, `sem, component`processed
      modifies if tunneled && !supplier then {peer, peer.component} else {}
      ensures found == (old(queue) != []) && sem == old(sem) - 1
      ensures !found ==> queue == []
      ensures found && !(tunneled && supplier) ==> old(queue) == [old(queue)[0]] + queue
      ensures found && tunneled && supplier ==> queue == old(queue)[1..] + [old(queue)[0]]
      ensures component.processed == old(component.processed) + if found && !tunneled then [old(queue)[0]] else []
      ensures tunneled && !supplier && !found ==> peer.queue == old(peer.queue) && peer.sem == old(peer.sem)
      ensures tunneled && !supplier && found && old(PeerTakesAll()) ==>
                peer.queue == old(peer.queue) + [old(queue)[0]] && peer.sem == old(peer.sem) + 1 && PeerTakesAll()
    {
      sem := sem - 1;
      if queue == [] {
        return false;    // dequeue answers NULL, which the code passes on
      }
      found := true;
      var h := queue[0];
      queue := queue[1..];
      if tunneled && !supplier {
        ghost var takes := PeerTakesAll();
        var _ := peer.SendBufferFunction(h);
        if takes {
          forall g | g in queue ensures peer.Verdict(g).Accepted? {
            assert old(peer.Verdict(g)).Accepted?;
          }
        }
      } else if tunneled && supplier {
        Enqueue(h);
      } else {
        component.processed := component.processed + [h];
      }
    }

    /** More units than headers: a supplier puts each header back, so that its ring runs dry only if it is empty. */
    ghost predicate FindsNothing()
      reads this
    {
      if tunneled && supplier then sem > 0 && queue == [] else sem > |queue|
    }

    /** What n turns of that loop have done. */
    twostate predicate Moved(n: nat)
      reads this, component
    {
      var q := old(queue);
      if tunneled && supplier then queue == Rotated(q, n) && component.processed == old(component.processed)
      else n <= |q| && queue == q[n..] && component.processed == old(component.processed) + if tunneled then [] else q[..n]
    }

    /** The loop that empties the ring, one turn for each unit of the semaphore. */
    method FlushRing() returns (found: bool)
      requires Linked() && |queue| <= RING_SLOTS
      modifies `queue, `sem, component`processed
      modifies if tunneled && !supplier then {peer, peer.component} else {}
      ensures found == !old(FindsNothing()) && (found ==> sem == 0)
      ensures Moved(if found then old(sem) else old(|queue|))
      ensures tunneled && !supplier && old(PeerTakesAll()) ==>
                var n := if found then old(sem) else old(|queue|);
                peer.queue == old(peer.queue) + old(queue)[..n] && peer.sem == old(peer.sem) + n
    {
      ghost var n, moved: seq<Header> := 0, [];
      found := true;
      while sem > 0
        invariant found && Linked() && 0 <= n <= old(sem) && sem == old(sem) - n
        invariant tunneled && supplier ==> queue == Rotated(old(queue), n) && (n > 0 ==> queue != []) && moved == []
        invariant !(tunneled && supplier) ==> |moved| == n && old(queue) == moved + queue
        invariant component.processed == old(component.processed) + if tunneled then [] else moved
        invariant tunneled && !supplier && old(PeerTakesAll()) ==>
                    PeerTakesAll() && peer.queue == old(peer.queue) + moved && peer.sem == old(peer.sem) + n
        decreases sem
      {
        ghost var before := queue;
        found := FlushOne();
        if !found {
          return;
        }
        if !(tunneled && supplier) {
          assert moved + before == moved + [before[0]] + queue;
          moved := moved + [before[0]];
        }
        n := n + 1;
      }
    }

    /**
     FlushProcessingBuffers once the manager is parked, for whatever the semaphore
     and the ring hold: when it meets NULL, when it waits for buffers of a supplier
     that have not come back, and what it has moved.
     */
    method FlushProcessingBuffers(numAssigned: nat) returns (r: FlushResult)
      requires Linked() && |queue| <= RING_SLOTS
      modifies `queue, `sem, `flushed, component`processed, component`mgmtSem, component`flushCond
      modifies if tunneled && !supplier then {peer, peer.component} else {}
      ensures r == if old(FindsNothing()) then DequeuedNull
                   else if tunneled && supplier && old(|queue|) != numAssigned then WaitsForBuffers else Flushed
      ensures flushed == (r != Flushed) && component.mgmtSem == 0 && (r != DequeuedNull ==> sem == 0)
      ensures component.flushCond == old(component.flushCond) + Bit(r == Flushed)
      ensures Moved(if r == DequeuedNull then old(|queue|) else old(sem))
      ensures tunneled && !supplier && old(PeerTakesAll()) ==>
                var n := if r == DequeuedNull then old(|queue|) else old(sem);
                peer.queue == old(peer.queue) + old(queue)[..n] && peer.sem == old(peer.sem) + n
      ensures tunneled && supplier && old(sem) <= old(|queue|) ==> queue == old(queue)[old(sem)..] + old(queue)[..old(sem)]
    {
      ghost var q, n := queue, sem;
      if n <= |q| { RotatedOnce(q, n); }
      flushed := true;
      component.mgmtSem := 0;
      var found := FlushRing();
      if !found {
        return DequeuedNull;
      }
      if tunneled && supplier {
        if |queue| != numAssigned {
          return WaitsForBuffers;    // tsem_down, with no unit left
        }
        sem := 0;
      }
      flushed := false;
      component.flushCond := component.flushCond + 1;
      return Flushed;
    }
  }

  /** How FlushProcessingBuffers gets on: it finishes, meets NULL, or waits for the buffers still away. */
  datatype FlushResult = Flushed | DequeuedNull | WaitsForBuffers

  /** n times the first one goes to the end. */
  function Rotated<T>(q: seq<T>, n: nat): (r: seq<T>)
    ensures |r| == |q|
  {
    if n == 0 || q == [] then q
    else
      var r := Rotated(q, n - 1);
      r[1..] + [r[0]]
  }

  /** Nothing is lost or doubled. */
  lemma {:induction false} RotatedKeeps<T>(q: seq<T>, n: nat)
    ensures multiset(Rotated(q, n)) == multiset(q)
  {
    if n > 0 && q != [] {
      RotatedKeeps(q, n - 1);
      var r := Rotated(q, n - 1);
      assert r == [r[0]] + r[1..];
    }
  }

  /** Within one turn the front is at the end; a full turn changes nothing. */
  lemma {:induction false} RotatedOnce<T>(q: seq<T>, n: nat)
    requires n <= |q|
    ensures Rotated(q, n) == q[n..] + q[..n]
  {
    if n > 0 {
      RotatedOnce(q, n - 1);
      assert q[..n] == q[..n - 1] + [q[n - 1]] && q[n - 1..] == [q[n - 1]] + q[n..];
    }
  }
}
