/**
 The slots of a port: the client's AllocateBuffer, UseBuffer and FreeBuffer, and
 a supplier's AllocateTunnelBuffer and FreeTunnelBuffer, which drive the UseBuffer
 and FreeBuffer of the peer.
 */
module BufferSlots {
  import opened Basics

  /** The first index holding b; the length when there is none. */
  function First(s: seq<bool>, b: bool): (k: nat)
    ensures k <= |s| && (forall j :: 0 <= j < k ==> s[j] != b) && (k < |s| ==> s[k] == b)
  {
    if s == [] || s[0] == b then 0 else 1 + First(s[1..], b)
  }

  /** Turns the first slot that is not b into b. */
  function Turn(s: seq<bool>, b: bool): seq<bool> {
    var k := First(s, !b);
    if k < |s| then s[k := b] else s
  }

  function NumBusy(s: seq<bool>): nat {
    if s == [] then 0 else Bit(s[0]) + NumBusy(s[1..])
  }

  lemma {:induction false} NumBusyOfUpdate(s: seq<bool>, k: nat, b: bool)
    requires k < |s|
    ensures NumBusy(s[k := b]) == NumBusy(s) - Bit(s[k]) + Bit(b)
  {
    if k == 0 {
      assert s[0 := b][1..] == s[1..];
    } else {
      assert s[k := b][1..] == s[1..][k - 1 := b];
      NumBusyOfUpdate(s[1..], k - 1, b);
    }
  }

  lemma {:induction false} NumBusyExtremes(s: seq<bool>)
    ensures NumBusy(s) <= |s|
    ensures NumBusy(s) == |s| <==> First(s, false) == |s|
    ensures NumBusy(s) == 0 <==> First(s, true) == |s|
  {
    if s == [] {
    } else {
      NumBusyExtremes(s[1..]);
    }
  }

  /** Where the memory of a header and of its data block is. */
  datatype Header = Header(addr: nat, data: nat)

  /** A slot's status flags: HEADER_ALLOCATED goes with every slot but a tunnel supplier's. */
  datatype Slot = Free | Allocated(header: bool) | Assigned

  /** The heap: what is live, an address never handed out before, and whether ever something was freed that was not live. */
  class Memory {
    var next: nat
    var live: set<nat>
    var misused: bool

    ghost predicate Bounded() reads this { forall a :: a in live ==> a < next }

    ghost predicate Valid() reads this { Bounded() && !misused }

    constructor ()
      ensures Valid() && live == {}
    {
      next, live, misused := 0, {}, false;
    }

    method Alloc() returns (a: nat)
      requires Valid()
      modifies this
      ensures Valid() && a == old(next) && next == a + 1 && live == old(live) + {a}
    {
      a := next;
      next, live := next + 1, live + {a};
    }

    method Free(a: nat)
      requires Bounded()
      modifies this
      ensures Bounded() && next == old(next) && live == old(live) - {a}
      ensures misused == (old(misused) || a !in old(live))
    {
      misused := misused || a !in live;
      live := live - {a};
    }
  }

  function Busy(slots: seq<Slot>): (b: seq<bool>)
    ensures |b| == |slots|
  {
    seq(|slots|, i requires 0 <= i < |slots| => slots[i] != Free)
  }

  lemma BusyOfUpdate(slots: seq<Slot>, k: nat, x: Slot)
    requires k < |slots|
    ensures Busy(slots[k := x]) == Busy(slots)[k := x != Free]
  {}

  lemma FirstIs(slots: seq<Slot>, k: nat, b: bool)
    requires k <= |slots| && (forall j :: 0 <= j < k ==> (slots[j] != Free) != b) && (k < |slots| ==> (slots[k] != Free) == b)
    ensures First(Busy(slots), b) == k
  {
    assert forall j :: 0 <= j < |slots| ==> Busy(slots)[j] == (slots[j] != Free);
  }

  lemma {:induction false} FirstOf(b: seq<bool>, x: bool)
    ensures First(b, x) <= |b| && (First(b, x) < |b| ==> b[First(b, x)] == x) && forall j :: 0 <= j < First(b, x) ==> b[j] != x
  {
    if b != [] && b[0] != x {
      FirstOf(b[1..], x);
      forall j | 0 <= j < First(b, x) ensures b[j] != x { if j > 0 { assert b[1..][j - 1] != x; } }
    }
  }

  lemma FirstFree(slots: seq<Slot>)
    ensures var k := First(Busy(slots), false);
            k <= |slots| && (k < |slots| ==> slots[k] == Free) && forall j :: 0 <= j < k ==> slots[j] != Free
  {
    FirstOf(Busy(slots), false);
    assert forall j :: 0 <= j < |slots| ==> Busy(slots)[j] == (slots[j] != Free);
  }

  /** TUNNEL_USE_BUFFER_RETRY */
  const RETRIES: nat := 20

  /**
   Slots from `from` on, as many as `at` says, are filled at both ends, the others
   free.  Slot i's data block, the peer's header for it and the supplier's header
   for it are the three addresses from at[i] on.
   */
  ghost predicate Lockstep(slots: seq<Slot>, storage: seq<Option<Header>>, peerSlots: seq<Slot>, peerStorage: seq<Option<Header>>,
                           from: nat, at: seq<nat>)
  {
    && from <= |at| <= |slots| == |storage| && |at| <= |peerSlots| == |peerStorage|
    && (forall i :: 0 <= i < |slots| ==>
          if from <= i < |at| then slots[i] == Allocated(false) && storage[i] == Some(Header(at[i] + 2, at[i])) else slots[i] == Free)
    && (forall i :: 0 <= i < |peerSlots| ==>
          if from <= i < |at| then peerSlots[i] == Assigned && peerStorage[i] == Some(Header(at[i] + 1, at[i]))
          else peerSlots[i] == Free)
  }

  lemma LockstepGrows(slots: seq<Slot>, storage: seq<Option<Header>>, peerSlots: seq<Slot>, peerStorage: seq<Option<Header>>,
                      slots': seq<Slot>, storage': seq<Option<Header>>, peerSlots': seq<Slot>, peerStorage': seq<Option<Header>>,
                      at: seq<nat>, data: nat)
    requires Lockstep(slots, storage, peerSlots, peerStorage, 0, at) && |at| < |slots| && |at| < |peerSlots|
    requires slots' == slots[|at| := Allocated(false)] && storage' == storage[|at| := Some(Header(data + 2, data))]
    requires peerSlots' == peerSlots[|at| := Assigned] && peerStorage' == peerStorage[|at| := Some(Header(data + 1, data))]
    ensures Lockstep(slots', storage', peerSlots', peerStorage', 0, at + [data])
  {}

  lemma FreeFrom(slots: seq<Slot>, storage: seq<Option<Header>>, peerSlots: seq<Slot>, peerStorage: seq<Option<Header>>,
                 at: seq<nat>, i: nat)
    requires Lockstep(slots, storage, peerSlots, peerStorage, 0, at) && i < |slots|
    ensures slots[i] == Free <==> i >= |at|
  {}

  lemma LockstepShrinks(slots: seq<Slot>, storage: seq<Option<Header>>, peerSlots: seq<Slot>, peerStorage: seq<Option<Header>>,
                        from: nat, at: seq<nat>)
    requires Lockstep(slots, storage, peerSlots, peerStorage, from, at) && from < |at|
    ensures Lockstep(slots[from := Free], storage, peerSlots[from := Free], peerStorage, from + 1, at)
  {}

  class Port {
    const index: nat
    const supplier: bool           // tunnelled and supplier
    const bufferSize: nat
    const slots: array<Slot>       // bBufferStateAllocated, of length nBufferCountActual
    const storage: array<Option<Header>>
    var numAssigned: int
    var populated: bool
    var full: bool
    var empty: bool
    var allocSem: nat
    var queue: seq<Header>
    var mayFill: bool              // Loaded to Idle, or being enabled
    var mayFree: bool              // Idle to Loaded, or being disabled
    var complaints: nat            // ErrorPortUnpopulated events

    constructor (index: nat, supplier: bool, bufferSize: nat, count: nat)
      requires count > 0
      ensures Valid() && fresh(slots) && fresh(storage) && slots.Length == count
      ensures this.index == index && this.supplier == supplier && this.bufferSize == bufferSize
      ensures numAssigned == 0 && !full && queue == [] && allocSem == 0
    {
      this.index, this.supplier, this.bufferSize := index, supplier, bufferSize;
      slots, storage := new Slot[count](_ => Free), new Option<Header>[count](_ => None);
      numAssigned, populated, full, empty, allocSem, queue := 0, false, false, true, 0, [];
      mayFill, mayFree, complaints := false, false, 0;
      new;
      assert First(Busy(slots[..]), true) == count;
      NumBusyExtremes(Busy(slots[..]));
    }

    /** The slots that are not free; the count and the flags say how many they are. */
    ghost function B(): seq<bool> reads slots { Busy(slots[..]) }

    ghost predicate Valid()
      reads this, slots, storage
    {
      && slots.Length == storage.Length > 0
      && numAssigned == NumBusy(B())
      && (full <==> numAssigned == slots.Length)
      && (full ==> populated)
      && (numAssigned == 0 ==> empty && !populated)
      && (forall i :: 0 <= i < slots.Length && slots[i] != Free ==> storage[i].Some?)
    }

    /** How AllocateBuffer and UseBuffer answer. */
    ghost function FillError(portIndex: nat, size: nat): OmxError
      reads this, slots
    {
      if portIndex != index || supplier then ErrorBadPortIndex
      else if !mayFill || size < bufferSize then ErrorIncorrectStateTransition
      else if First(B(), false) == slots.Length then ErrorInsufficientResources
      else ErrorNone
    }

    /** Beyond the guards it is a matter of a free slot, and that slot is the first. */
    lemma FillErrorIs(portIndex: nat, size: nat)
      requires Valid()
      ensures portIndex == index && !supplier && mayFill && size >= bufferSize ==>
                FillError(portIndex, size) ==
                if exists k :: 0 <= k < slots.Length && slots[k] == Free then ErrorNone else ErrorInsufficientResources
      ensures FillError(portIndex, size) == ErrorNone ==>
                exists k :: 0 <= k < slots.Length && First(B(), false) == k && slots[k] == Free
                  && forall j :: 0 <= j < k ==> slots[j] != Free
    {
      FirstFree(slots[..]);
    }

    /** The first free slot is taken. */
    twostate predicate OneMore(new h: Header, x: Slot)
      reads this, slots, storage
    {
      var k := First(old(B()), false);
      && k < slots.Length == storage.Length
      && slots[..] == old(slots[..])[k := x] && storage[..] == old(storage[..])[k := Some(h)]
      && B() == Turn(old(B()), true)
      && numAssigned == old(numAssigned) + 1
      && unchanged(`mayFill, `mayFree, `complaints, `queue)
    }

    /** Fills slot k, the first free one. */
    method Fill(k: nat, h: Header, x: Slot)
      requires Valid() && k < slots.Length && k == First(B(), false) && x != Free
      modifies `numAssigned, `populated, `full, slots, storage
      ensures Valid() && OneMore(h, x)
    {
      NumBusyOfUpdate(B(), k, true);
      NumBusyExtremes(B());
      BusyOfUpdate(slots[..], k, x);
      slots[k], storage[k] := x, Some(h);
      numAssigned := numAssigned + 1;
      if slots.Length == numAssigned {
        populated, full := true, true;
      }
    }

    /** A client brings the data block; the port gives it a header and keeps one of its own. */
    method UseBuffer(heap: Memory, portIndex: nat, size: nat, data: nat) returns (err: OmxError, hdr: Option<Header>)
      requires Valid() && heap.Valid()
      modifies `numAssigned, `populated, `full, `empty, `allocSem, slots, storage, heap
      ensures Valid() && heap.Valid() && err == old(FillError(portIndex, size))
      ensures portIndex != index || supplier ==> err == ErrorBadPortIndex
      ensures portIndex == index && !supplier && (!mayFill || size < bufferSize) ==> err == ErrorIncorrectStateTransition
      ensures err != ErrorNone ==> hdr == None && unchanged(this, slots, storage, heap)
      ensures err == ErrorNone ==>
                var a := old(heap.next);
                && OneMore(Header(a, data), Assigned) && hdr == Some(Header(a + 1, data)) && !empty
                && allocSem == old(allocSem) + Bit(full)
                && heap.next == a + 2 && heap.live == old(heap.live) + {a, a + 1}
    {
      hdr := None;
      if portIndex != index || supplier {
        return ErrorBadPortIndex, None;
      }
      if !mayFill || size < bufferSize {
        return ErrorIncorrectStateTransition, None;
      }
      for i := 0 to slots.Length
        invariant Valid() && forall j :: 0 <= j < i ==> slots[j] != Free
        invariant unchanged(this, slots, storage, heap)
      {
        if slots[i] == Free {
          FirstIs(slots[..], i, false);
          var own := heap.Alloc();
          var given := heap.Alloc();
          Fill(i, Header(own, data), Assigned);
          if slots.Length == numAssigned {
            allocSem := allocSem + 1;
          }
          empty := false;
          return ErrorNone, Some(Header(given, data));
        }
      }
      FirstIs(slots[..], slots.Length, false);
      return ErrorInsufficientResources, None;
    }

    /** The port allocates the data block and one header, which the client shares. */
    method AllocateBuffer(heap: Memory, portIndex: nat, size: nat) returns (err: OmxError, hdr: Option<Header>)
      requires Valid() && heap.Valid()
      modifies `numAssigned, `populated, `full, `allocSem, slots, storage, heap
      ensures Valid() && heap.Valid() && err == old(FillError(portIndex, size))
      ensures portIndex != index || supplier ==> err == ErrorBadPortIndex
      ensures portIndex == index && !supplier && (!mayFill || size < bufferSize) ==> err == ErrorIncorrectStateTransition
      ensures portIndex == index && !supplier && mayFill && size >= bufferSize ==>
                err == if exists k :: 0 <= k < slots.Length && old(slots[k]) == Free then ErrorNone else ErrorInsufficientResources
      ensures err == ErrorNone ==>
                var a := old(heap.next);
                exists k :: 0 <= k < slots.Length && old(slots[k]) == Free && (forall j :: 0 <= j < k ==> old(slots[j]) != Free)
                  && slots[k] == Allocated(true) && storage[k] == Some(Header(a, a + 1))
                  && forall j :: 0 <= j < slots.Length && j != k ==> slots[j] == old(slots[j])
      ensures err == ErrorNone ==>
                numAssigned == old(numAssigned) + 1 && allocSem == old(allocSem) + if numAssigned == slots.Length then 1 else 0
      ensures err != ErrorNone ==> hdr == None && unchanged(this, slots, storage, heap)
      ensures err == ErrorNone ==>
                var a := old(heap.next);
                && OneMore(Header(a, a + 1), Allocated(true)) && hdr == Some(Header(a, a + 1))
                && allocSem == old(allocSem) + Bit(full)
                && heap.next == a + 2 && heap.live == old(heap.live) + {a, a + 1}
    {
      hdr := None;
      if portIndex != index || supplier {
        return ErrorBadPortIndex, None;
      }
      if !mayFill || size < bufferSize {
        return ErrorIncorrectStateTransition, None;
      }
      for i := 0 to slots.Length
        invariant Valid() && forall j :: 0 <= j < i ==> slots[j] != Free
        invariant unchanged(this, slots, storage, heap)
      {
        if slots[i] == Free {
          FirstIs(slots[..], i, false);
          var header := heap.Alloc();
          var data := heap.Alloc();
          Fill(i, Header(header, data), Allocated(true));
          if slots.Length == numAssigned {
            allocSem := allocSem + 1;
          }
          return ErrorNone, Some(Header(header, data));
        }
      }
      FirstIs(slots[..], slots.Length, false);
      return ErrorInsufficientResources, None;
    }

    /** The memory that freeing the first busy slot gives back: the data block or the header passed, and the port's own. */
    ghost function Released(hdr: Header): set<nat>
      requires Valid()
      reads this, slots, storage
    {
      var k := First(B(), true);
      if k == slots.Length then {}
      else match slots[k]
           case Free => {}
           case Allocated(header) => {storage[k].value.data} + if header then {storage[k].value.addr} else {}
           case Assigned => {hdr.addr, storage[k].value.addr}
    }

    /** What would be freed is live, and the two blocks are different. */
    ghost predicate SafeToFree(heap: Memory, hdr: Header)
      requires Valid()
      reads this, slots, storage, heap
    {
      var k := First(B(), true);
      && Released(hdr) <= heap.live
      && (k < slots.Length && slots[k] != Allocated(false) ==>
            storage[k].value.addr != if slots[k] == Assigned then hdr.addr else storage[k].value.data)
    }

    /** Frees what slot k, the first busy one, stands for. */
    method Release(heap: Memory, k: nat, hdr: Header)
      requires Valid() && heap.Bounded() && k < slots.Length && k == First(B(), true)
      modifies heap
      ensures heap.Bounded() && heap.next == old(heap.next) && heap.live == old(heap.live) - Released(hdr)
      ensures heap.misused == (old(heap.misused) || !old(SafeToFree(heap, hdr)))
    {
      if slots[k] == Assigned {
        heap.Free(hdr.addr);
        heap.Free(storage[k].value.addr);
      } else {
        heap.Free(storage[k].value.data);
        if slots[k].header {
          heap.Free(storage[k].value.addr);
        }
      }
    }

    /** Empties slot k, the first busy one. */
    method Empty(k: nat)
      requires Valid() && k < slots.Length && k == First(B(), true)
      modifies `numAssigned, `populated, `full, `empty, slots
      ensures Valid() && slots[..] == old(slots[..])[k := Free] && B() == Turn(old(B()), false)
      ensures numAssigned == old(numAssigned) - 1
    {
      NumBusyOfUpdate(B(), k, false);
      NumBusyExtremes(B());
      BusyOfUpdate(slots[..], k, Free);
      full := false;
      slots[k] := Free;
      numAssigned := numAssigned - 1;
      if numAssigned == 0 {
        populated, empty := false, true;
      }
    }

    /** Frees and empties slot k, the first busy one. */
    method FreeFirst(heap: Memory, k: nat, hdr: Header)
      requires Valid() && heap.Bounded() && k < slots.Length && k == First(B(), true)
      modifies `numAssigned, `populated, `full, `empty, `allocSem, slots, heap
      ensures Valid() && heap.Bounded() && heap.next == old(heap.next) && heap.live == old(heap.live) - old(Released(hdr))
      ensures heap.misused == (old(heap.misused) || !old(SafeToFree(heap, hdr)))
      ensures slots[..] == old(slots[..])[k := Free] && B() == Turn(old(B()), false)
      ensures numAssigned == old(numAssigned) - 1 && allocSem == old(allocSem) + Bit(numAssigned == 0)
    {
      Release(heap, k, hdr);
      Empty(k);
      if numAssigned == 0 {
        allocSem := allocSem + 1;
      }
    }

    /**
     Whatever header is passed, the first busy slot is the one freed.  The heap is
     misused exactly when what that slot stands for, with the header passed, is not
     two different live blocks.
     */
    method FreeBuffer(heap: Memory, portIndex: nat, hdr: Header) returns (err: OmxError)
      requires Valid() && heap.Bounded()
      modifies `numAssigned, `populated, `full, `empty, `allocSem, `complaints, slots, heap
      ensures Valid() && heap.Bounded() && heap.next == old(heap.next)
      ensures heap.misused == (old(heap.misused) || (err == ErrorNone && !old(SafeToFree(heap, hdr))))
      ensures err == if portIndex != index || supplier then ErrorBadPortIndex
                     else if First(old(B()), true) == slots.Length then ErrorInsufficientResources else ErrorNone
      ensures portIndex == index && !supplier ==>
                (err == ErrorNone <==> exists k :: 0 <= k < slots.Length && old(slots[k]) != Free)
      ensures err == ErrorNone ==>
                exists k :: 0 <= k < slots.Length && old(slots[k]) != Free && (forall j :: 0 <= j < k ==> old(slots[j]) == Free)
                  && slots[k] == Free && (forall j :: 0 <= j < slots.Length && j != k ==> slots[j] == old(slots[j]))
                  && heap.live == old(heap.live) -
                       if old(slots[k]) == Assigned then {hdr.addr, old(storage[k]).value.addr}
                       else if old(slots[k]) == Allocated(true) then {old(storage[k]).value.data, old(storage[k]).value.addr}
                       else {old(storage[k]).value.data}
      ensures err != ErrorNone ==> unchanged(`numAssigned, `full, `allocSem, slots, heap)
      ensures complaints == old(complaints) + Bit(err != ErrorBadPortIndex && !mayFree)
      ensures err == ErrorNone ==>
                && slots[..] == old(slots[..])[First(old(B()), true) := Free] && B() == Turn(old(B()), false)
                && numAssigned == old(numAssigned) - 1 && allocSem == old(allocSem) + Bit(numAssigned == 0)
                && heap.live == old(heap.live) - old(Released(hdr))
    {
      if portIndex != index || supplier {
        return ErrorBadPortIndex;
      }
      if !mayFree {
        complaints := complaints + 1;
      }
      for i := 0 to slots.Length
        invariant Valid() && forall j :: 0 <= j < i ==> slots[j] == Free
        invariant unchanged(`numAssigned, `full, `allocSem, slots, storage, heap) && complaints == old(complaints) + Bit(!mayFree)
      {
        if slots[i] != Free {
          FirstIs(slots[..], i, true);
          FreeFirst(heap, i, hdr);
          return ErrorNone;
        }
      }
      FirstIs(slots[..], slots.Length, true);
      return ErrorInsufficientResources;
    }

    /** Both ends of a tunnel in lockstep, and counting alike. */
    ghost predicate Paired(peer: Port, from: nat, at: seq<nat>)
      reads this, slots, storage, peer, peer.slots, peer.storage
    {
      && numAssigned == peer.numAssigned == |at| - from
      && Lockstep(slots[..], storage[..], peer.slots[..], peer.storage[..], from, at)
    }

    ghost predicate Apart(peer: Port) {
      this != peer && slots != peer.slots && storage != peer.storage && supplier && !peer.supplier
    }

    /** The supplier asks its peer to use a data block until the peer is ready or the retries are used up. */
    method OfferBuffer(heap: Memory, peer: Port, data: nat, ready: nat -> bool, numRetry0: nat, attempt0: nat)
      returns (err: OmxError, hdr: Option<Header>, numRetry: nat, attempt: nat)
      requires peer.Valid() && heap.Valid() && !peer.supplier && numRetry0 < RETRIES
      modifies peer, peer.slots, peer.storage, heap
      ensures peer.Valid() && heap.Valid() && numRetry0 <= numRetry <= RETRIES
      ensures attempt == attempt0 + numRetry - numRetry0 + 1 - Bit(numRetry == RETRIES)
      ensures unchanged(peer`complaints, peer`queue, peer`mayFree)
      ensures forall a :: attempt0 <= a < attempt0 + numRetry - numRetry0 ==> !ready(a)
      ensures err == if numRetry == RETRIES then ErrorIncorrectStateTransition
                     else if First(old(peer.B()), false) == peer.slots.Length then ErrorInsufficientResources else ErrorNone
      ensures numRetry < RETRIES ==> ready(attempt - 1)
      ensures err != ErrorNone ==> unchanged(peer.slots, peer.storage, heap, peer`numAssigned, peer`full, peer`empty, peer`allocSem)
      ensures err == ErrorNone ==>
                var a := old(heap.next); var k := First(old(peer.B()), false);
                && k < peer.slots.Length && hdr == Some(Header(a + 1, data))
                && peer.slots[..] == old(peer.slots[..])[k := Assigned]
                && peer.storage[..] == old(peer.storage[..])[k := Some(Header(a, data))]
                && peer.numAssigned == old(peer.numAssigned) + 1
                && peer.allocSem == old(peer.allocSem) + Bit(peer.full)
                && heap.next == a + 2 && heap.live == old(heap.live) + {a, a + 1}
    {
      err, hdr, numRetry, attempt := ErrorIncorrectStateTransition, None, numRetry0, attempt0;
      while numRetry < RETRIES
        invariant peer.Valid() && heap.Valid() && numRetry0 <= numRetry <= RETRIES && attempt == attempt0 + numRetry - numRetry0
        invariant forall a :: attempt0 <= a < attempt ==> !ready(a)
        invariant err == ErrorIncorrectStateTransition
        invariant unchanged(peer.slots, peer.storage, heap)
        invariant unchanged(peer`complaints, peer`queue, peer`mayFree, peer`numAssigned, peer`full, peer`empty, peer`allocSem)
        decreases RETRIES - numRetry
      {
        peer.mayFill := ready(attempt);    // by now the peer's client may have asked it to become Idle
        err, hdr := peer.UseBuffer(heap, peer.index, if bufferSize < peer.bufferSize then peer.bufferSize else bufferSize, data);
        if err == ErrorIncorrectStateTransition {
          numRetry, attempt := numRetry + 1, attempt + 1;
        } else {
          attempt := attempt + 1;
          return;
        }
      }
    }

    /** Both ends are filled as `at` says, m of the slots by earlier calls; the others' headers have been queued. */
    ghost predicate Reached(heap: Memory, peer: Port, at: seq<nat>, m: nat, q: seq<Header>, sem: nat)
      reads this, slots, storage, peer, peer.slots, peer.storage, heap
    {
      && Valid() && peer.Valid() && heap.Valid() && Paired(peer, 0, at)
      && m <= |at| && queue == AllEnqueued(q, at[m..])
      && peer.allocSem == sem + Bit(m < |at| == peer.slots.Length)
    }

    /** What has been queued: behind what was there, the headers of the new slots in order, as many as nine in all allow. */
    lemma QueueSays(heap: Memory, peer: Port, at: seq<nat>, m: nat, q: seq<Header>, sem: nat)
      requires Reached(heap, peer, at, m, q, sem) && |q| <= 9
      ensures |queue| == (if |q| + |at| - m <= 9 then |q| + |at| - m else 9) && q <= queue && |at| == numAssigned
      ensures forall j :: |q| <= j < |queue| ==> m + j - |q| < slots.Length && storage[m + j - |q|] == Some(queue[j])
    {
      assert forall j :: 0 <= j < |at| - m ==> at[m..][j] == at[m + j];
    }

    /** The supplier keeps the header its peer gave it, and queues it: the two ends are in lockstep again. */
    method Keep(ghost heap: Memory, peer: Port, i: nat, h: Header, ghost ps: seq<Slot>, ghost pt: seq<Option<Header>>,
                ghost at: seq<nat>, ghost m: nat, ghost data: nat, ghost q: seq<Header>, ghost sem: nat)
      requires heap.Valid() && peer.Valid() && peer.allocSem == sem + Bit(i + 1 == peer.slots.Length)
      requires Valid() && Apart(peer) && m <= i == |at| < slots.Length && i < |ps| && numAssigned == i && peer.numAssigned == i + 1
      requires Lockstep(slots[..], storage[..], ps, pt, 0, at) && h == Header(data + 2, data)
      requires queue == AllEnqueued(q, at[m..])
      requires peer.slots[..] == ps[i := Assigned] && peer.storage[..] == pt[i := Some(Header(data + 1, data))]
      modifies `numAssigned, `populated, `full, `queue, slots, storage
      ensures Reached(heap, peer, at + [data], m, q, sem)
    {
      FirstIs(slots[..], i, false);
      Fill(i, h, Allocated(false));
      OneMoreEnqueued(q, at[m..], data);
      assert (at + [data])[m..] == at[m..] + [data];
      if |queue| < RING_SLOTS {
        queue := queue + [h];
      }
      LockstepGrows(old(slots[..]), old(storage[..]), ps, pt, slots[..], storage[..], peer.slots[..], peer.storage[..], at, data);
    }

    /** A new data block is offered to the peer, or given back. */
    method OfferNew(heap: Memory, peer: Port, i: nat, ready: nat -> bool, numRetry0: nat, attempt0: nat, ghost own: nat, ghost n: nat)
      returns (err: OmxError, hdr: Option<Header>, numRetry: nat, attempt: nat)
      requires peer.Valid() && heap.Valid() && !peer.supplier && numRetry0 < RETRIES && i < own
      requires InAll(ready, n, i, own, peer.slots.Length, numRetry0, attempt0)
      requires i <= peer.slots.Length && forall j :: 0 <= j < peer.slots.Length ==> (peer.slots[j] == Free <==> i <= j)
      requires peer.numAssigned == i
      modifies peer, peer.slots, peer.storage, heap
      ensures peer.Valid() && heap.Valid() && (numRetry < RETRIES || err == ErrorIncorrectStateTransition)
      ensures err != ErrorNone ==>
                && unchanged(peer.slots, peer.storage, peer`numAssigned, peer`allocSem) && heap.live == old(heap.live)
                && heap.next == old(heap.next) + 1 && n == i
      ensures err == ErrorNone ==>
                var a := old(heap.next);
                && i < peer.slots.Length && hdr == Some(Header(a + 2, a))
                && peer.slots[..] == old(peer.slots[..])[i := Assigned]
                && peer.storage[..] == old(peer.storage[..])[i := Some(Header(a + 1, a))]
                && peer.numAssigned == i + 1 && peer.allocSem == old(peer.allocSem) + Bit(i + 1 == peer.slots.Length)
                && heap.next == a + 3 && heap.live == old(heap.live) + {a, a + 1, a + 2}
                && InAll(ready, n, i + 1, own, peer.slots.Length, numRetry, attempt)
    {
      FirstIs(peer.slots[..], i, false);
      var data := heap.Alloc();
      err, hdr, numRetry, attempt := OfferBuffer(heap, peer, data, ready, numRetry0, attempt0);
      InAllNext(ready, n, i, own, peer.slots.Length, numRetry0, attempt0, numRetry - numRetry0);
      if err != ErrorNone {
        heap.Free(data);
        assert heap.live == old(heap.live);
      } else {
        assert peer.full <==> i + 1 == peer.slots.Length;
      }
    }

    /** One slot of AllocateTunnelBuffer, the first free one at both ends. */
    method AllocateOne(heap: Memory, peer: Port, ready: nat -> bool, numRetry0: nat, attempt0: nat, ghost n: nat, i: nat,
                       ghost at: seq<nat>, ghost m: nat, ghost q: seq<Header>, ghost sem: nat)
      returns (err: OmxError, numRetry: nat, attempt: nat, ghost now: seq<nat>)
      requires Apart(peer) && i == |at| < slots.Length && numRetry0 < RETRIES
      requires Reached(heap, peer, at, m, q, sem)
      requires InAll(ready, n, i, slots.Length, peer.slots.Length, numRetry0, attempt0)
      modifies `numAssigned, `populated, `full, `queue, slots, storage, peer, peer.slots, peer.storage, heap
      ensures now == if err == ErrorNone then at + [old(heap.next)] else at
      ensures Reached(heap, peer, now, m, q, sem)
      ensures var a := old(heap.next); heap.live == old(heap.live) + if err == ErrorNone then {a, a + 1, a + 2} else {}
      ensures if err == ErrorNone then InAll(ready, n, i + 1, slots.Length, peer.slots.Length, numRetry, attempt) else n == i
      ensures numRetry < RETRIES || err == ErrorIncorrectStateTransition
      ensures heap.next == old(heap.next) + if err == ErrorNone then 3 else 1
    {
      ghost var ps, pt, a := peer.slots[..], peer.storage[..], heap.next;
      var hdr: Option<Header>;
      err, hdr, numRetry, attempt := OfferNew(heap, peer, i, ready, numRetry0, attempt0, slots.Length, n);
      now := at;
      if err == ErrorNone {
        Keep(heap, peer, i, hdr.value, ps, pt, at, m, a, q, sem);
        now := at + [a];
      }
    }

    /** How AllocateTunnelBuffer answers before it looks at the slots. */
    ghost function TunnelError(portIndex: nat): OmxError
      reads this
    {
      if portIndex != index || !supplier then ErrorBadPortIndex
      else if !mayFill then ErrorIncorrectStateTransition
      else ErrorNone
    }

    /**
     Fills both ends slot by slot, in lockstep, from the first slot earlier calls
     have left free; `at` is where they put the blocks of the others.  `ready` says
     at which attempts the peer can take buffers; the refusals of all slots together
     may be at most 19.
     */
    method AllocateTunnelBuffer(heap: Memory, peer: Port, portIndex: nat, ready: nat -> bool, ghost at: seq<nat>) returns (err: OmxError)
      requires Valid() && peer.Valid() && heap.Valid() && (supplier ==> Apart(peer))
      requires Paired(peer, 0, at)
      modifies `numAssigned, `populated, `full, `queue, slots, storage, peer, peer.slots, peer.storage, heap
      ensures Valid() && peer.Valid() && heap.Valid()
      ensures old(TunnelError(portIndex)) != ErrorNone ==>
                err == old(TunnelError(portIndex)) && unchanged(this, slots, storage, peer, peer.slots, peer.storage, heap)
      ensures portIndex != index || !supplier ==> err == ErrorBadPortIndex
      ensures portIndex == index && supplier && !mayFill ==> err == ErrorIncorrectStateTransition
      ensures portIndex == index && supplier && mayFill ==>
                var want, room := slots.Length - |at|, peer.slots.Length - |at|;
                err == ErrorNone <==> want == 0 || (want <= room && Ready(ready, 0, want + 19) >= want)
      ensures old(TunnelError(portIndex)) == ErrorNone ==>
                var m := |at|;
                var n := Served(ready, slots.Length - m, peer.slots.Length - m, 0, 0);
                var at' := at + Blocks(old(heap.next), n);
                && (err == ErrorNone <==> m + n == slots.Length)
                && Reached(heap, peer, at', m, old(queue), old(peer.allocSem))
                && Added(heap.live, old(heap.live), old(heap.next), old(heap.next) + 3 * n) && heap.next >= old(heap.next) + 3 * n
                && (full <==> m + n == slots.Length) && (peer.full <==> m + n == peer.slots.Length)
    {
      if portIndex != index || !supplier {
        return ErrorBadPortIndex;
      }
      if !mayFill {
        return ErrorIncorrectStateTransition;
      }
      err := FillBoth(heap, peer, ready, at);
      ServedWithinTwenty(ready, slots.Length - |at|, peer.slots.Length - |at|);
    }

    /** The slots, once the guards are passed. */
    method FillBoth(heap: Memory, peer: Port, ready: nat -> bool, ghost at: seq<nat>) returns (err: OmxError)
      requires Valid() && peer.Valid() && heap.Valid() && Apart(peer) && Paired(peer, 0, at)
      modifies `numAssigned, `populated, `full, `queue, slots, storage, peer, peer.slots, peer.storage, heap
      ensures var m := |at|;
              var n := Served(ready, slots.Length - m, peer.slots.Length - m, 0, 0);
              var at' := at + Blocks(old(heap.next), n);
              && (err == ErrorNone <==> m + n == slots.Length)
              && Reached(heap, peer, at', m, old(queue), old(peer.allocSem))
              && Added(heap.live, old(heap.live), old(heap.next), old(heap.next) + 3 * n) && heap.next >= old(heap.next) + 3 * n
    {
      assert at[|at|..] == [];
      ghost var n := |at| + Served(ready, slots.Length - |at|, peer.slots.Length - |at|, 0, 0);
      ghost var now;
      err, now := AllocateAll(heap, peer, ready, n, at, heap.live, queue, peer.allocSem);
    }

    /** The loop has seen i slots: `now` is where the blocks are, those it has added from b on. */
    ghost predicate Filling(heap: Memory, peer: Port, i: nat, now: seq<nat>, at: seq<nat>, b: nat, base: set<nat>, q: seq<Header>, sem: nat)
      reads this, slots, storage, peer, peer.slots, peer.storage, heap
    {
      && |now| == (if i < |at| then |at| else i) && now == at + Blocks(b, |now| - |at|)
      && Reached(heap, peer, now, |at|, q, sem)
      && heap.next == b + 3 * (|now| - |at|) && Added(heap.live, base, b, heap.next)
    }

    /** One turn of the loop: a busy slot is left alone. */
    method AllocateAt(heap: Memory, peer: Port, ready: nat -> bool, numRetry0: nat, attempt0: nat, ghost n: nat, i: nat,
                      ghost was: seq<nat>, ghost at: seq<nat>, ghost b: nat, ghost base: set<nat>, ghost q: seq<Header>, ghost sem: nat)
      returns (err: OmxError, numRetry: nat, attempt: nat, ghost now: seq<nat>)
      requires Apart(peer) && i < slots.Length && numRetry0 < RETRIES && Filling(heap, peer, i, was, at, b, base, q, sem)
      requires InAll(ready, n, |was|, slots.Length, peer.slots.Length, numRetry0, attempt0)
      modifies `numAssigned, `populated, `full, `queue, slots, storage, peer, peer.slots, peer.storage, heap
      ensures err == ErrorNone ==> Filling(heap, peer, i + 1, now, at, b, base, q, sem)
      ensures err == ErrorNone ==> numRetry < RETRIES && InAll(ready, n, |now|, slots.Length, peer.slots.Length, numRetry, attempt)
      ensures err != ErrorNone ==> now == was && |was| == n < slots.Length && Reached(heap, peer, was, |at|, q, sem)
      ensures err != ErrorNone ==> heap.next == old(heap.next) + 1 && Added(heap.live, base, b, old(heap.next))
    {
      FreeFrom(slots[..], storage[..], peer.slots[..], peer.storage[..], was, i);
      err, numRetry, attempt, now := ErrorNone, numRetry0, attempt0, was;
      if slots[i] == Free {
        OneMoreBlock(at, b, i - |at|);
        err, numRetry, attempt, now := AllocateOne(heap, peer, ready, numRetry0, attempt0, n, i, was, |at|, q, sem);
        if err == ErrorNone { AddedOne(old(heap.live), heap.live, base, b, old(heap.next)); }
      }
    }

    method AllocateAll(heap: Memory, peer: Port, ready: nat -> bool,
                       ghost n: nat, ghost at: seq<nat>, ghost base: set<nat>, ghost q: seq<Header>, ghost sem: nat)
      returns (err: OmxError, ghost now: seq<nat>)
      requires Apart(peer) && Reached(heap, peer, at, |at|, q, sem) && Added(heap.live, base, heap.next, heap.next)
      requires InAll(ready, n, |at|, slots.Length, peer.slots.Length, 0, 0)
      modifies `numAssigned, `populated, `full, `queue, slots, storage, peer, peer.slots, peer.storage, heap
      ensures Reached(heap, peer, now, |at|, q, sem)
      ensures n >= |at| && Added(heap.live, base, old(heap.next), old(heap.next) + 3 * (n - |at|))
      ensures n >= |at| && now == at + Blocks(old(heap.next), n - |at|) && heap.next >= old(heap.next) + 3 * (n - |at|)
      ensures err == ErrorNone <==> n == slots.Length
    {
      ghost var b := heap.next;
      now := at;
      assert at + Blocks(b, 0) == at;
      var numRetry: nat, attempt: nat := 0, 0;
      for i := 0 to slots.Length
        invariant Filling(heap, peer, i, now, at, b, base, q, sem)
        invariant numRetry < RETRIES && InAll(ready, n, |now|, slots.Length, peer.slots.Length, numRetry, attempt)
      {
        err, numRetry, attempt, now := AllocateAt(heap, peer, ready, numRetry, attempt, n, i, now, at, b, base, q, sem);
        if err != ErrorNone {
          return;
        }
      }
      return ErrorNone, now;
    }

    /**
     Frees both ends slot by slot: every data block, the peer's header for it and
     the supplier's header for it, each once.
     */
    method FreeTunnelBuffer(heap: Memory, peer: Port, portIndex: nat, ghost at: seq<nat>, ghost base: set<nat>)
      returns (err: OmxError)
      requires Valid() && peer.Valid() && heap.Valid() && (supplier ==> Apart(peer))
      requires Paired(peer, 0, at) && Live(heap.live, base, 0, at) && Spaced(at, base)
      modifies `numAssigned, `populated, `full, `empty, `complaints, slots, peer, peer.slots, heap
      ensures Valid() && peer.Valid() && heap.Valid()
      ensures err == if portIndex != index || !supplier then ErrorBadPortIndex else ErrorNone
      ensures err != ErrorNone ==> unchanged(this, slots, peer, peer.slots, heap)
      ensures err == ErrorNone ==>
                && complaints == old(complaints) + Bit(!mayFree) && numAssigned == 0 && peer.numAssigned == 0
                && heap.live == base
                && peer.allocSem == old(peer.allocSem) + Bit(at != [])
    {
      if portIndex != index || !supplier {
        return ErrorBadPortIndex;
      }
      if !mayFree {
        complaints := complaints + 1;
      }
      ghost var sem := peer.allocSem;
      for i := 0 to slots.Length
        invariant Emptying(heap, peer, i, at, base, sem) && complaints == old(complaints) + Bit(!mayFree)
      {
        FreeAt(heap, peer, i, at, base, sem);
      }
      return ErrorNone;
    }

    /** The loop has seen i slots: those from there on are still filled. */
    ghost predicate Emptying(heap: Memory, peer: Port, i: nat, at: seq<nat>, base: set<nat>, sem: nat)
      reads this, slots, storage, peer, peer.slots, peer.storage, heap
    {
      && Valid() && peer.Valid() && heap.Valid()
      && Paired(peer, if i < |at| then i else |at|, at) && Live(heap.live, base, if i < |at| then i else |at|, at)
      && peer.allocSem == sem + Bit(0 < |at| <= i)
    }

    /** One turn of the loop: a free slot is left alone. */
    method FreeAt(heap: Memory, peer: Port, i: nat, ghost at: seq<nat>, ghost base: set<nat>, ghost sem: nat)
      requires Apart(peer) && i < slots.Length && Emptying(heap, peer, i, at, base, sem) && Spaced(at, base)
      modifies `numAssigned, `populated, `full, `empty, slots, peer, peer.slots, heap
      ensures Emptying(heap, peer, i + 1, at, base, sem)
    {
      if slots[i] != Free {
        FreeOne(heap, peer, i, at, base);
      }
    }

    /** The data block and the peer's slot i, the first busy one; the peer's FreeBuffer never asks for a retry. */
    method FreeAtPeer(heap: Memory, peer: Port, ghost i: nat, h: Header, ghost own: nat)
      requires peer.Valid() && heap.Valid() && !peer.supplier
      requires i < peer.slots.Length && First(peer.B(), true) == i && peer.slots[i] == Assigned
      requires forall j :: 0 <= j < peer.slots.Length && peer.slots[j] != Free ==>
                 peer.slots[j] == Assigned && peer.storage[j].value.addr != h.addr
      requires peer.storage[i].value.addr == own && h.data != h.addr && h.data != own && {h.data, h.addr, own} <= heap.live
      modifies peer, peer.slots, heap
      ensures peer.Valid() && heap.Valid() && peer.slots[..] == old(peer.slots[..])[i := Free]
      ensures heap.live == old(heap.live) - {h.data} - {h.addr, own}
      ensures peer.numAssigned == old(peer.numAssigned) - 1 && peer.allocSem == old(peer.allocSem) + Bit(peer.numAssigned == 0)
    {
      heap.Free(h.data);
      var err := peer.FreeBuffer(heap, peer.index, h);
    }

    /** One slot of FreeTunnelBuffer. */
    method FreeOne(heap: Memory, peer: Port, i: nat, ghost at: seq<nat>, ghost base: set<nat>)
      requires Valid() && peer.Valid() && heap.Valid() && Apart(peer)
      requires i < |at| && Paired(peer, i, at) && Live(heap.live, base, i, at) && Spaced(at, base)
      modifies `numAssigned, `populated, `full, `empty, slots, peer, peer.slots, heap
      ensures Valid() && peer.Valid() && heap.Valid() && Paired(peer, i + 1, at)
      ensures Live(heap.live, base, i + 1, at)
      ensures peer.allocSem == old(peer.allocSem) + Bit(i + 1 == |at|)
    {
      ghost var ss, ps := slots[..], peer.slots[..];
      FirstIs(ss, i, true);
      FirstIs(ps, i, true);
      BlockIsLive(heap.live, base, i, at);
      FreeAtPeer(heap, peer, i, storage[i].value, at[i] + 1);
      LiveShrinks(old(heap.live), heap.live, base, i, at);
      Empty(i);
      LockstepShrinks(ss, storage[..], ps, peer.storage[..], i, at);
    }
  }

  /** Where n new blocks are, the first at b. */
  function Blocks(b: nat, n: nat): seq<nat> { seq(n, j requires 0 <= j => b + 3 * j) }

  lemma OneMoreBlock(at: seq<nat>, b: nat, n: int)
    requires n >= 0
    ensures at + Blocks(b, n + 1) == at + Blocks(b, n) + [b + 3 * n]
  {}

  /** What is live is `base` and the addresses from lo up to hi. */
  ghost predicate Added(live: set<nat>, base: set<nat>, lo: nat, hi: nat) {
    forall a :: a in live <==> a in base || lo <= a < hi
  }

  lemma AddedOne(live: set<nat>, live': set<nat>, base: set<nat>, lo: nat, hi: nat)
    requires lo <= hi && Added(live, base, lo, hi) && live' == live + {hi, hi + 1, hi + 2}
    ensures Added(live', base, lo, hi + 3)
  {}

  /** Address a belongs to one of the blocks from `from` on. */
  ghost predicate Within(from: nat, at: seq<nat>, a: nat) { exists i :: from <= i < |at| && at[i] <= a < at[i] + 3 }

  /** What is live is `base` and the blocks from `from` on. */
  ghost predicate Live(live: set<nat>, base: set<nat>, from: nat, at: seq<nat>) {
    forall a :: a in live <==> a in base || Within(from, at, a)
  }

  /** The blocks do not overlap, and are not in `base`. */
  ghost predicate Spaced(at: seq<nat>, base: set<nat>) {
    && (forall i, j :: 0 <= i < j < |at| ==> at[i] + 3 <= at[j])
    && (forall a :: a in base ==> !Within(0, at, a))
  }

  lemma BlockIsLive(live: set<nat>, base: set<nat>, from: nat, at: seq<nat>)
    requires from < |at| && Live(live, base, from, at)
    ensures {at[from], at[from] + 1, at[from] + 2} <= live
  {
    assert Within(from, at, at[from]) && Within(from, at, at[from] + 1) && Within(from, at, at[from] + 2);
  }

  lemma LiveShrinks(live: set<nat>, live': set<nat>, base: set<nat>, from: nat, at: seq<nat>)
    requires from < |at| && Live(live, base, from, at) && Spaced(at, base)
    requires live' == live - {at[from]} - {at[from] + 2, at[from] + 1}
    ensures Live(live', base, from + 1, at)
  {
    forall a: nat ensures a in live' <==> a in base || Within(from + 1, at, a) {
      assert at[from] <= a < at[from] + 3 ==> Within(0, at, a) && !Within(from + 1, at, a);
      assert Within(from, at, a) <==> at[from] <= a < at[from] + 3 || Within(from + 1, at, a);
    }
  }

  /** What one call adds to what the calls before it have left. */
  lemma LiveOn(live: set<nat>, live': set<nat>, base: set<nat>, at: seq<nat>, b: nat, n: nat)
    requires Live(live, base, 0, at) && Added(live', live, b, b + 3 * n)
    ensures Live(live', base, 0, at + Blocks(b, n))
  {
    var all := at + Blocks(b, n);
    forall a: nat ensures Within(0, all, a) <==> Within(0, at, a) || b <= a < b + 3 * n {
      if Within(0, at, a) {
        var i :| 0 <= i < |at| && at[i] <= a < at[i] + 3;
        assert all[i] == at[i];
      }
      if b <= a < b + 3 * n {
        var j := (a - b) / 3;
        assert all[|at| + j] == b + 3 * j;
      }
      if Within(0, all, a) {
        var i :| 0 <= i < |all| && all[i] <= a < all[i] + 3;
        assert i < |at| ==> at[i] == all[i];
        assert i >= |at| ==> all[i] == b + 3 * (i - |at|);
      }
    }
  }

  /** The supplier's ring with the headers for new blocks: as many as there is room for, in slot order. */
  function AllEnqueued(queue: seq<Header>, at: seq<nat>): seq<Header> {
    var room := if |queue| < RING_SLOTS then RING_SLOTS - |queue| else 0;
    queue + seq(if |at| < room then |at| else room, i requires 0 <= i < |at| => Header(at[i] + 2, at[i]))
  }

  lemma OneMoreEnqueued(queue: seq<Header>, at: seq<nat>, data: nat)
    ensures Enqueued(AllEnqueued(queue, at), Header(data + 2, data)) == AllEnqueued(queue, at + [data])
  {}

  lemma AllFree(slots: seq<Slot>)
    requires NumBusy(Busy(slots)) == 0
    ensures forall i :: 0 <= i < |slots| ==> slots[i] == Free
  {
    NumBusyExtremes(Busy(slots));
    assert forall i :: 0 <= i < |slots| ==> Busy(slots)[i] == (slots[i] != Free);
  }

  /**
   How many slots the supplier gets served, wanting `want` more of a peer with
   `room` more: refusals count over all slots together.
   */
  function Served(ready: nat -> bool, want: nat, room: nat, retries: nat, attempt: nat): nat
    decreases want + (if retries < RETRIES then RETRIES - retries else 0)
  {
    if want == 0 || retries >= RETRIES then 0
    else if !ready(attempt) then Served(ready, want, room, retries + 1, attempt + 1)
    else if room == 0 then 0
    else 1 + Served(ready, want - 1, room - 1, retries, attempt + 1)
  }

  /** With i slots filled already, n get served in all. */
  ghost predicate InAll(ready: nat -> bool, n: nat, i: nat, want: nat, room: nat, retries: nat, attempt: nat) {
    i <= want && i <= room && n == i + Served(ready, want - i, room - i, retries, attempt)
  }

  lemma {:induction false} SkipRefusals(ready: nat -> bool, want: nat, room: nat, retries: nat, attempt: nat, n: nat)
    requires want > 0 && retries + n <= RETRIES && forall a :: attempt <= a < attempt + n ==> !ready(a)
    ensures Served(ready, want, room, retries, attempt) == Served(ready, want, room, retries + n, attempt + n)
    decreases n
  {
    if n > 0 {
      SkipRefusals(ready, want, room, retries + 1, attempt + 1, n - 1);
    }
  }

  /** What n refusals, and the answer after them, leave to be served. */
  lemma ServedNext(ready: nat -> bool, want: nat, room: nat, retries: nat, attempt: nat, n: nat)
    requires want > 0 && retries + n <= RETRIES && forall a :: attempt <= a < attempt + n ==> !ready(a)
    ensures retries + n == RETRIES || (ready(attempt + n) && room == 0) ==> Served(ready, want, room, retries, attempt) == 0
    ensures retries + n < RETRIES && ready(attempt + n) && room > 0 ==>
              Served(ready, want, room, retries, attempt) == 1 + Served(ready, want - 1, room - 1, retries + n, attempt + n + 1)
  {
    SkipRefusals(ready, want, room, retries, attempt, n);
  }

  lemma InAllNext(ready: nat -> bool, n: nat, i: nat, want: nat, room: nat, retries: nat, attempt: nat, refused: nat)
    requires InAll(ready, n, i, want, room, retries, attempt) && i < want
    requires retries + refused <= RETRIES && forall a :: attempt <= a < attempt + refused ==> !ready(a)
    ensures retries + refused == RETRIES || (ready(attempt + refused) && i == room) ==> n == i
    ensures retries + refused < RETRIES && ready(attempt + refused) && i < room ==>
              InAll(ready, n, i + 1, want, room, retries + refused, attempt + refused + 1)
  {
    ServedNext(ready, want - i, room - i, retries, attempt, refused);
  }

  /** At how many of the n attempts from a on the peer is ready. */
  function Ready(ready: nat -> bool, a: nat, n: nat): (r: nat)
    ensures r <= n
    decreases n
  {
    if n == 0 then 0 else Bit(ready(a)) + Ready(ready, a + 1, n - 1)
  }

  /**
   Exactly when every slot is served: the peer has as many slots, and is ready at
   enough of the first attempts, of which nineteen may be refused in all.
   */
  lemma {:induction false} ServedInFullExactly(ready: nat -> bool, want: nat, room: nat, retries: nat, attempt: nat)
    requires retries < RETRIES && want > 0
    ensures Served(ready, want, room, retries, attempt) == want <==>
            want <= room && Ready(ready, attempt, want + RETRIES - 1 - retries) >= want
    decreases want + RETRIES - retries
  {
    if !ready(attempt) {
      if retries + 1 < RETRIES { ServedInFullExactly(ready, want, room, retries + 1, attempt + 1); }
    } else if room > 0 && want > 1 {
      ServedInFullExactly(ready, want - 1, room - 1, retries, attempt + 1);
    }
  }

  /** With no refusals yet, nineteen are allowed. */
  lemma ServedWithinTwenty(ready: nat -> bool, want: nat, room: nat)
    ensures Served(ready, want, room, 0, 0) == want <==> want == 0 || (want <= room && Ready(ready, 0, want + 19) >= want)
  {
    if want > 0 { ServedInFullExactly(ready, want, room, 0, 0); }
  }

  /** Blocks put behind one another, above all that is live, do not overlap. */
  lemma SpacedOn(at: seq<nat>, base: set<nat>, b: nat, n: nat)
    requires Spaced(at, base) && (forall i :: 0 <= i < |at| ==> at[i] + 3 <= b) && (forall a :: a in base ==> a < b)
    ensures Spaced(at + Blocks(b, n), base) && forall i :: 0 <= i < |at| + n ==> (at + Blocks(b, n))[i] + 3 <= b + 3 * n
  {
    var all := at + Blocks(b, n);
    forall a | a in base ensures !Within(0, all, a) {
      forall i | 0 <= i < |all| ensures !(all[i] <= a < all[i] + 3) {
        if i < |at| { assert at[i] == all[i] && !Within(0, at, a); }
      }
    }
  }

  /** Depopulating undoes populating, however many attempts it takes, and whether or not the tunnel is filled in the end. */
  method PopulateAndDepopulate(heap: Memory, sup: Port, peer: Port, attempts: seq<nat -> bool>)
    requires sup.Valid() && peer.Valid() && heap.Valid() && sup.Apart(peer)
    requires sup.numAssigned == 0 && peer.numAssigned == 0
    modifies sup, sup.slots, sup.storage, peer, peer.slots, peer.storage, heap
    ensures sup.Valid() && peer.Valid() && heap.Valid() && sup.numAssigned == 0 && peer.numAssigned == 0
    ensures heap.live == old(heap.live)
  {
    AllFree(sup.slots[..]);
    AllFree(peer.slots[..]);
    ghost var base, at: seq<nat> := heap.live, [];
    for k := 0 to |attempts|
      invariant sup.Valid() && peer.Valid() && heap.Valid() && sup.Paired(peer, 0, at)
      invariant Live(heap.live, base, 0, at) && Spaced(at, base)
      invariant (forall i :: 0 <= i < |at| ==> at[i] + 3 <= heap.next) && (forall a :: a in base ==> a < heap.next)
    {
      at := PopulateMore(heap, sup, peer, attempts[k], at, base);
    }
    var _ := sup.FreeTunnelBuffer(heap, peer, sup.index, at, base);
  }

  /** One attempt of it. */
  method PopulateMore(heap: Memory, sup: Port, peer: Port, ready: nat -> bool, ghost at: seq<nat>, ghost base: set<nat>)
    returns (ghost at': seq<nat>)
    requires sup.Valid() && peer.Valid() && heap.Valid() && sup.Apart(peer) && sup.Paired(peer, 0, at)
    requires Live(heap.live, base, 0, at) && Spaced(at, base)
    requires (forall i :: 0 <= i < |at| ==> at[i] + 3 <= heap.next) && (forall a :: a in base ==> a < heap.next)
    modifies sup, sup.slots, sup.storage, peer, peer.slots, peer.storage, heap
    ensures sup.Valid() && peer.Valid() && heap.Valid() && sup.Paired(peer, 0, at')
    ensures Live(heap.live, base, 0, at') && Spaced(at', base)
    ensures (forall i :: 0 <= i < |at'| ==> at'[i] + 3 <= heap.next) && (forall a :: a in base ==> a < heap.next)
  {
    ghost var n := Served(ready, sup.slots.Length - |at|, peer.slots.Length - |at|, 0, 0);
    SpacedOn(at, base, heap.next, n);
    at' := at;
    var err := sup.AllocateTunnelBuffer(heap, peer, sup.index, ready, at);
    if old(sup.TunnelError(sup.index)) == ErrorNone {
      at' := at + Blocks(old(heap.next), n);
      LiveOn(old(heap.live), heap.live, base, at, old(heap.next), n);
    }
  }
}
