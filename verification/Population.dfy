/**
 The handshake through pAllocSem by which a component waits until its ports are
 populated, or empty again, over any number of cycles between Loaded and Idle.
 The client fills and frees slots while the message thread walks the ports.
 */
module Population {
  import opened Basics
  import opened BufferSlots

  /** One port: its slots (busy or free), nNumAssignedBuffers, bIsFullOfBuffers and pAllocSem. */
  datatype Gate = Gate(enabled: bool, supplier: bool, slots: seq<bool>, count: int, full: bool, sem: nat)

  /** Where the message thread is: settled, or at port i of the walk in DoStateSet. */
  datatype Pc = AtLoaded | Filling(i: nat) | AtIdle | Emptying(i: nat)

  datatype State = State(transient: Transient, pc: Pc, ports: seq<Gate>)

  datatype Action =
    | SendIdle | SendLoaded           // SendCommand
    | Msg                             // one port of the walk
    | FillSlot(p: nat) | FreeSlot(p: nat)     // AllocateBuffer or UseBuffer, FreeBuffer
    | Wander(t: Transient)            // from Idle to Executing, and back

  /** AllocateBuffer and UseBuffer, of a size that is large enough. */
  function Filled(g: Gate, transient: Transient): Gate {
    if g.supplier || transient != LoadedToIdle || First(g.slots, false) == |g.slots| then g
    else
      var full := g.count + 1 == |g.slots|;
      g.(slots := Turn(g.slots, true), count := g.count + 1, full := g.full || full, sem := g.sem + Bit(full))
  }

  function Freed(g: Gate): Gate {
    if g.supplier || First(g.slots, true) == |g.slots| then g
    else g.(slots := Turn(g.slots, false), count := g.count - 1, full := false, sem := g.sem + Bit(g.count == 1))
  }

  function AllSlots(g: Gate, busy: bool): seq<bool> { seq(|g.slots|, i => busy) }

  /** What the walk from Loaded to Idle does at one port; a tunnelled supplier allocates its buffers itself. */
  function WalkFill(g: Gate): Gate
    requires g.enabled && !g.supplier ==> g.sem > 0
  {
    if !g.enabled then g
    else if g.supplier then g.(slots := AllSlots(g, true), count := g.count + |g.slots| - NumBusy(g.slots), full := true)
    else g.(sem := g.sem - 1)
  }

  /** What the walk from Idle to Loaded does at one port. */
  function WalkEmpty(g: Gate): Gate
    requires g.enabled && !g.supplier ==> g.sem > 0
  {
    if g.supplier then g.(slots := AllSlots(g, false), count := g.count - NumBusy(g.slots), full := g.full && NumBusy(g.slots) == 0)
    else if g.enabled then g.(sem := g.sem - 1)
    else g
  }

  /** The message thread has to wait at port i. */
  predicate Waits(s: State) {
    (s.pc.Filling? || s.pc.Emptying?) && s.pc.i < |s.ports|
    && s.ports[s.pc.i].enabled && !s.ports[s.pc.i].supplier && s.ports[s.pc.i].sem == 0
  }

  predicate Enabled(s: State, a: Action) {
    match a
    case SendIdle => s.pc.AtLoaded? || s.pc.Filling?
    case SendLoaded => s.pc.AtIdle? || s.pc.Emptying?
    case Msg => (s.pc.Filling? || s.pc.Emptying?) && !Waits(s)
    case FillSlot(p) => p < |s.ports|
    case FreeSlot(p) => p < |s.ports|
    case Wander(t) => s.pc.AtIdle? && (t == NoTransient || t == ExecutingToIdle)
  }

  /** SendCommand to Idle while the component is Loaded marks every slot free, whatever it was. */
  function Step(s: State, a: Action): State
    requires Enabled(s, a)
  {
    match a
    case SendIdle =>
      s.(transient := LoadedToIdle, pc := if s.pc.AtLoaded? then Filling(0) else s.pc,
         ports := seq(|s.ports|, p requires 0 <= p < |s.ports| => s.ports[p].(slots := AllSlots(s.ports[p], false))))
    case SendLoaded => s.(transient := IdleToLoaded, pc := if s.pc.AtIdle? then Emptying(0) else s.pc)
    case Msg =>
      var i := s.pc.i;
      if s.pc.Filling? then
        if i >= |s.ports| then s.(pc := AtIdle)
        else s.(ports := s.ports[i := WalkFill(s.ports[i])], pc := Filling(i + 1))
      else
        if i >= |s.ports| then s.(pc := AtLoaded)
        else s.(ports := s.ports[i := WalkEmpty(s.ports[i])], pc := Emptying(i + 1))
    case FillSlot(p) => s.(ports := s.ports[p := Filled(s.ports[p], s.transient)])
    case FreeSlot(p) => s.(ports := s.ports[p := Freed(s.ports[p])])
    case Wander(t) => s.(transient := t)
  }

  /** One state command at a time; buffers only for enabled ports, and freed only on the way to Loaded. */
  predicate Disciplined(s: State, a: Action)
    requires Enabled(s, a)
  {
    match a
    case SendIdle => s.pc.AtLoaded?
    case SendLoaded => s.pc.AtIdle?
    case FillSlot(p) => s.ports[p].enabled
    case FreeSlot(p) => s.ports[p].enabled && s.pc.Emptying?
    case _ => true
  }

  predicate CanRun(s: State, acts: seq<Action>)
    decreases |acts|
  {
    acts == [] || (Enabled(s, acts[0]) && Disciplined(s, acts[0]) && CanRun(Step(s, acts[0]), acts[1..]))
  }

  function Run(s: State, acts: seq<Action>): State
    requires CanRun(s, acts)
    decreases |acts|
  {
    if acts == [] then s else Run(Step(s, acts[0]), acts[1..])
  }

  /** A component just created. */
  predicate Init(s: State) {
    && s.pc.AtLoaded? && s.transient == NoTransient
    && forall p :: 0 <= p < |s.ports| ==>
         var g := s.ports[p]; |g.slots| > 0 && NumBusy(g.slots) == 0 && g.count == 0 && !g.full && g.sem == 0
  }

  ghost predicate Reachable(s: State) {
    exists s0: State, acts: seq<Action> :: Init(s0) && CanRun(s0, acts) && Run(s0, acts) == s
  }

  // ---------------------------------------------------------------------------
  // The inductive invariant
  // ---------------------------------------------------------------------------

  predicate Counted(g: Gate) {
    |g.slots| > 0 && g.count == NumBusy(g.slots) && (g.full <==> g.count == |g.slots|)
  }

  /** What holds of port p, by how far the message thread is. */
  predicate GateInv(pc: Pc, p: nat, g: Gate) {
    && Counted(g)
    && if !g.enabled then g.count == 0 && g.sem == 0
       else match pc
            case AtLoaded => g.count == 0 && g.sem == 0
            case Filling(i) =>
              if p < i then g.full && g.sem == 0
              else if g.supplier then g.count == 0 && g.sem == 0
              else g.sem == Bit(g.full)
            case AtIdle => g.full && g.sem == 0
            case Emptying(i) =>
              if p < i then g.count == 0 && g.sem == 0
              else if g.supplier then g.full && g.sem == 0
              else g.sem == Bit(g.count == 0)
  }

  predicate TransientInv(s: State) {
    match s.pc
    case AtLoaded => s.transient != LoadedToIdle
    case Filling(i) => s.transient == LoadedToIdle && i <= |s.ports|
    case AtIdle => s.transient != IdleToLoaded
    case Emptying(i) => s.transient == IdleToLoaded && i <= |s.ports|
  }

  ghost predicate Inv(s: State) {
    TransientInv(s) && forall p :: 0 <= p < |s.ports| ==> GateInv(s.pc, p, s.ports[p])
  }

  /** Filling and freeing a slot keep the count right, whatever the rest of the state. */
  lemma CountsKept(g: Gate, transient: Transient)
    requires Counted(g)
    ensures Counted(Filled(g, transient)) && Counted(Freed(g))
  {
    NumBusyExtremes(g.slots);
    var k, j := First(g.slots, false), First(g.slots, true);
    if k < |g.slots| { NumBusyOfUpdate(g.slots, k, true); }
    if j < |g.slots| { NumBusyOfUpdate(g.slots, j, false); }
  }

  lemma {:induction false} UniformCount(n: nat, busy: bool)
    ensures NumBusy(seq(n, i => busy)) == if busy then n else 0
  {
    var s := seq(n, i => busy);
    NumBusyExtremes(s);
    assert forall j :: 0 <= j < n ==> s[j] == busy;
  }

  lemma GateKept(s: State, a: Action, p: nat)
    requires Inv(s) && Enabled(s, a) && Disciplined(s, a) && p < |s.ports|
    ensures p < |Step(s, a).ports| && GateInv(Step(s, a).pc, p, Step(s, a).ports[p])
  {
    var g := s.ports[p];
    CountsKept(g, s.transient);
    NumBusyExtremes(g.slots);
    UniformCount(|g.slots|, true);
    UniformCount(|g.slots|, false);
  }

  lemma {:induction false} RunKeeps(s: State, acts: seq<Action>)
    requires Inv(s) && CanRun(s, acts)
    ensures Inv(Run(s, acts))
    decreases |acts|
  {
    if acts == [] {
    } else {
      var t := Step(s, acts[0]);
      forall p | 0 <= p < |t.ports| ensures GateInv(t.pc, p, t.ports[p]) { GateKept(s, acts[0], p); }
      RunKeeps(t, acts[1..]);
    }
  }

  lemma ReachableInv(s: State)
    requires Reachable(s)
    ensures Inv(s)
  {
    var s0: State, acts: seq<Action> :| Init(s0) && CanRun(s0, acts) && Run(s0, acts) == s;
    RunKeeps(s0, acts);
  }

  // ---------------------------------------------------------------------------
  // What every run keeps
  // ---------------------------------------------------------------------------

  /** Counts and flags are right; at Idle every enabled port is full, at Loaded every port empty, and pAllocSem is 0. */
  predicate Clean(s: State) {
    forall p :: 0 <= p < |s.ports| ==> CleanAt(s.pc, s.ports[p])
  }

  predicate CleanAt(pc: Pc, g: Gate) {
    && g.count == NumBusy(g.slots) && (g.full <==> NumBusy(g.slots) == |g.slots|)
    && (pc.AtIdle? ==> g.full == g.enabled && g.sem == 0)
    && (pc.AtLoaded? ==> g.count == 0 && g.sem == 0)
  }

  lemma InvIsClean(s: State)
    requires Inv(s)
    ensures Clean(s)
  {}

  /**
   In every reachable state the count is the number of busy slots and the flag
   says whether that is all of them; Idle is reached with every enabled port full,
   Loaded with every port empty, and with every pAllocSem back at 0.
   */
  lemma CyclesAreClean(s: State)
    requires Reachable(s)
    ensures Clean(s)
  {
    ReachableInv(s);
    InvIsClean(s);
  }

  /** The message thread waits exactly while the port it is at is not full, or not yet empty. */
  lemma WaitsExactly(s: State)
    requires Reachable(s) && (s.pc.Filling? || s.pc.Emptying?) && s.pc.i < |s.ports|
    requires s.ports[s.pc.i].enabled && !s.ports[s.pc.i].supplier
    ensures Waits(s) <==> NumBusy(s.ports[s.pc.i].slots) != if s.pc.Filling? then |s.ports[s.pc.i].slots| else 0
  {
    ReachableInv(s);
  }

  /** The message thread can get past this port on its way to Idle, if need be once the client has filled it. */
  predicate Passable(g: Gate) {
    Counted(g) && (g.enabled && !g.supplier ==> g.sem > 0 || !g.full)
  }

  /** On its way to Idle the message thread can get past every port still ahead. */
  predicate Walkable(s: State) {
    && s.pc.Filling? && s.pc.i <= |s.ports| && s.transient == LoadedToIdle
    && forall q :: s.pc.i <= q < |s.ports| ==> Passable(s.ports[q])
  }

  /** Port p is behind the message thread, or its semaphore will let it pass without another buffer. */
  predicate Settled(s: State, p: nat)
    requires s.pc.Filling?
  {
    p < |s.ports| && (p < s.pc.i || (s.ports[p].enabled && !s.ports[p].supplier && s.ports[p].sem > 0))
  }

  /** One step of the walk: the client fills a slot of the port the message thread waits at, or the thread goes on. */
  lemma {:induction false} WalkStep(s: State, p: nat) returns (a: Action)
    requires Walkable(s)
    ensures Enabled(s, a) && Disciplined(s, a)
    ensures var t := Step(s, a);
            if s.pc.i >= |s.ports| then t.pc.AtIdle? && t.ports == s.ports
            else
              && Walkable(t) && |t.ports| == |s.ports|
              && (t.pc.i > s.pc.i || (t.pc == s.pc && t.ports[s.pc.i].count > s.ports[s.pc.i].count))
              && |t.ports[s.pc.i].slots| == |s.ports[s.pc.i].slots|
              && (Settled(s, p) ==> Settled(t, p) && t.ports[p].full == s.ports[p].full && t.ports[p].enabled == s.ports[p].enabled)
  {
    a := if Waits(s) then FillSlot(s.pc.i) else Msg;
    if s.pc.i < |s.ports| {
      var g := s.ports[s.pc.i];
      CountsKept(g, s.transient);
      NumBusyExtremes(g.slots);
    }
  }

  /** The walk can be brought to its end, and leaves the ports that are settled as full as they are. */
  lemma {:induction false} WalkOn(s: State, p: nat) returns (acts: seq<Action>)
    requires Walkable(s)
    ensures CanRun(s, acts)
    ensures var t := Run(s, acts);
            && t.pc.AtIdle? && |t.ports| == |s.ports|
            && (Settled(s, p) ==> t.ports[p].full == s.ports[p].full && t.ports[p].enabled == s.ports[p].enabled)
    decreases |s.ports| - s.pc.i, if s.pc.i < |s.ports| then |s.ports[s.pc.i].slots| - s.ports[s.pc.i].count else 0
  {
    var a := WalkStep(s, p);
    var t := Step(s, a);
    if t.pc.AtIdle? {
      assert [a][1..] == [];
      acts := [a];
    } else {
      NumBusyExtremes(t.ports[s.pc.i].slots);
      var rest := WalkOn(t, p);
      assert ([a] + rest)[1..] == rest;
      acts := [a] + rest;
    }
  }

  /** The walk from Loaded to Idle can always be brought to its end. */
  lemma IdleIsReached(s: State) returns (acts: seq<Action>)
    requires Inv(s) && s.pc.Filling?
    ensures CanRun(s, acts) && Run(s, acts).pc.AtIdle?
  {
    acts := WalkOn(s, 0);
  }

  /** So can the walk back. */
  lemma {:induction false} LoadedIsReached(s: State) returns (acts: seq<Action>)
    requires Inv(s) && s.pc.Emptying?
    ensures CanRun(s, acts) && Run(s, acts).pc.AtLoaded?
    decreases |s.ports| - s.pc.i, if s.pc.i < |s.ports| then s.ports[s.pc.i].count else 0
  {
    var a := if Waits(s) then FreeSlot(s.pc.i) else Msg;
    var t := Step(s, a);
    forall p | 0 <= p < |t.ports| ensures GateInv(t.pc, p, t.ports[p]) { GateKept(s, a, p); }
    if s.pc.i < |s.ports| { NumBusyExtremes(s.ports[s.pc.i].slots); }
    if t.pc.AtLoaded? {
      assert [a][1..] == [];
      acts := [a];
    } else {
      var rest := LoadedIsReached(t);
      assert ([a] + rest)[1..] == rest;
      acts := [a] + rest;
    }
  }

  // ---------------------------------------------------------------------------
  // Where the code relies on its client
  // ---------------------------------------------------------------------------

  /** No disciplined continuation leaves a port uncounted, or reaches Idle or Loaded with the wrong ports full. */
  ghost predicate StaysClean(s: State) {
    forall acts :: CanRun(s, acts) ==> Clean(Run(s, acts))
  }

  lemma InvStaysClean(s: State)
    requires Inv(s)
    ensures StaysClean(s)
  {
    forall acts | CanRun(s, acts) ensures Clean(Run(s, acts)) {
      RunKeeps(s, acts);
      InvIsClean(Run(s, acts));
    }
  }

  /** What a free leaves of its port. */
  lemma FreedGate(s: State, p: nat)
    requires Inv(s) && p < |s.ports| && s.ports[p].enabled && !s.ports[p].supplier && s.ports[p].count > 0
    ensures var g, h := s.ports[p], Step(s, FreeSlot(p)).ports[p];
            && Counted(h) && !h.full && h.count == g.count - 1 && h.sem == g.sem + Bit(g.count == 1)
            && h.enabled && !h.supplier && |h.slots| == |g.slots|
    ensures forall q :: 0 <= q < |s.ports| && q != p ==> Step(s, FreeSlot(p)).ports[q] == s.ports[q]
  {
    CountsKept(s.ports[p], s.transient);
    NumBusyExtremes(s.ports[p].slots);
  }

  /** A free at the wrong time lets the component become Idle with the port not full. */
  lemma {:induction false} FreeBreaks(s: State, p: nat) returns (acts: seq<Action>)
    requires Inv(s) && p < |s.ports| && s.ports[p].enabled && !s.ports[p].supplier && s.ports[p].count > 0
    requires s.pc.AtIdle? || (s.pc.Filling? && (p < s.pc.i || s.ports[p].count == 1 || s.ports[p].full))
    ensures var t := Step(s, FreeSlot(p)); CanRun(t, acts) && !Clean(Run(t, acts))
  {
    FreedGate(s, p);
    var t := Step(s, FreeSlot(p));
    if s.pc.AtIdle? {
      acts := [];
      assert !CleanAt(t.pc, t.ports[p]);
    } else {
      acts := WalkOn(t, p);
      assert !CleanAt(Run(t, acts).pc, Run(t, acts).ports[p]);
    }
  }

  /**
   FreeBuffer frees at any time.  Exactly when no continuation comes to grief: on
   the way to Loaded, or on the way to Idle at a port still ahead that is neither
   full nor left empty.
   */
  lemma FreeIsSafeExactly(s: State, p: nat)
    requires Reachable(s) && p < |s.ports| && s.ports[p].enabled && !s.ports[p].supplier && s.ports[p].count > 0
    ensures StaysClean(Step(s, FreeSlot(p))) <==>
            s.pc.Emptying? || (s.pc.Filling? && p >= s.pc.i && 1 < s.ports[p].count < |s.ports[p].slots|)
  {
    ReachableInv(s);
    FreedGate(s, p);
    if s.pc.Emptying? || (s.pc.Filling? && p >= s.pc.i && 1 < s.ports[p].count < |s.ports[p].slots|) {
      InvStaysClean(Step(s, FreeSlot(p)));
    } else {
      NumBusyExtremes(s.ports[p].slots);
      var acts := FreeBreaks(s, p);
    }
  }

  /** A second command to Idle forgets the slots filled since the first; exactly when that does no harm. */
  lemma RepeatedIdleIsSafeExactly(s: State)
    requires Reachable(s) && s.pc.Filling?
    ensures StaysClean(Step(s, SendIdle)) <==> forall p :: 0 <= p < |s.ports| ==> s.ports[p].count == 0
  {
    ReachableInv(s);
    var t := Step(s, SendIdle);
    forall p | 0 <= p < |s.ports|
      ensures (GateInv(t.pc, p, t.ports[p]) <==> s.ports[p].count == 0) && (s.ports[p].count != 0 ==> !CleanAt(t.pc, t.ports[p]))
    {
      UniformCount(|s.ports[p].slots|, false);
    }
    if forall p :: 0 <= p < |s.ports| ==> s.ports[p].count == 0 {
      InvStaysClean(t);
    } else {
      assert CanRun(t, []) && !Clean(Run(t, []));
    }
  }
}
