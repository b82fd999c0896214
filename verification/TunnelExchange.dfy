/**
 The exchange of buffers through a tunnel: a supplier port, the peer's port, the
 manager and message threads of both components, flushes of either port, and the
 supplier's commands to Idle, Pause and Executing.

 FlushProtocol establishes that a message thread empties a port only while the
 manager of its component is parked with none of the port's buffers; here that
 handshake is a flag and the manager's place `Parked`.  Ring calls, semaphore
 calls and tests are single steps.
 */
module TunnelExchange {
  import opened Basics

  /** What SendBufferFunction looks at before it queues a buffer. */
  datatype Ctl = Ctl(state: OmxState, transient: Transient, enabled: bool, disabling: bool)

  /** The answer of SendBufferFunction: refuse, or queue and raise pBufferSem, with or without bMgmtSem. */
  datatype Verdict = Refused(err: OmxError) | Accepted(signal: bool)

  /** The guards of SendBufferFunction, in their order, for a header with the right version. */
  function Judge(c: Ctl, rightPort: bool, tunneled: bool, supplier: bool, flushing: bool): Verdict {
    if !rightPort then Refused(ErrorBadPortIndex)
    else if c.state == Invalid then Refused(ErrorInvalidState)
    else if c.state != Executing && c.state != Pause && c.state != Idle then Refused(ErrorIncorrectStateOperation)
    else if !c.enabled || (c.disabling && !(tunneled && supplier))
            || (c.transient == ExecutingToIdle && tunneled && !supplier) then Refused(ErrorIncorrectStateOperation)
    else if !flushing && !(c.disabling && tunneled && supplier) then Accepted(true)
    else if supplier then Accepted(false)
    else Refused(ErrorIncorrectStateOperation)
  }

  /** Enabled, and in a state that has a buffer management thread. */
  predicate Active(c: Ctl) { c.enabled && (c.state == Idle || c.state == Executing || c.state == Pause) }

  /** The key to conservation: an active supplier takes back any buffer of its own. */
  lemma SupplierNeverRefuses(c: Ctl, flushing: bool)
    ensures Active(c) <==> Judge(c, true, true, true, flushing).Accepted?
  {}

  /** Exactly when the other end refuses. */
  lemma PeerRefuses(c: Ctl, flushing: bool)
    ensures Judge(c, true, true, false, flushing).Refused? <==>
            !Active(c) || c.disabling || flushing || c.transient == ExecutingToIdle
  {}

  /** Where either manager is, as far as its end of the tunnel goes. */
  datatype MgrPc =
    | Running
    | Deq                 // between tsem_down and dequeue on its own port
    | Call                // in ReturnBufferFunction; a supplier tests its own flush flag
    | Offer               // the other end's SendBufferFunction decides
    | QueueOther | UpOther
    | QueueOwn | UpOwn    // a supplier whose buffer was refused
    | Requeue             // a supplier under flush keeps the buffer
    | Parked

  predicate Local(m: MgrPc) { m.Running? || m.Deq? || m.Parked? }

  datatype Move = TakeOne | ReturnOne | SeeFlush

  /** The commands the supplier's message thread takes; the flush of Executing to Idle is part of ToIdle. */
  datatype Command = Flush | ToIdle | ToPause | ToExecuting

  /**
   The supplier's message thread: FlushProcessingBuffers, the end of a command to
   Idle, the test made at Pause to Executing, and the semaphores raised after a
   flush, at Idle to Executing and after that test.
   */
  datatype SupFlush =
    | SIdle | SWait | STest | SDeq | SPut | SCount | SDownWait | SReset | SClear | SLeave
    | SRead | SCompare(nelem: nat) | SSignal(owed: nat)

  /** The peer's message thread. */
  datatype PeerFlush = PIdle | PWait | PTest | PDeq | POffer | PQueue | PUp | PClear

  /** One end: the ring, pBufferSem, the manager, and what the message thread took from the ring. */
  datatype End = End(ctl: Ctl, ring: seq<nat>, sem: nat, held: Held, mgr: MgrPc, flag: bool, hand: Held)

  datatype State = State(
    bufs: seq<nat>,       // the buffers of the tunnel
    tunnelBufs: nat,      // nNumTunnelBuffer of the supplier
    sup: End, sMsg: SupFlush,
    leaving: bool,        // the flush under way is that of a command to Idle
    peer: End, pMsg: PeerFlush,
    broken: bool)         // a thread has dequeued NULL and gone on with it

  datatype Action =
    | SupMgr(move: Move)
    | PeerMgr(move: Move)
    | SupMsg
    | PeerMsg
    | SupCmd(cmd: Command)
    | SupCtl(c: Ctl)      // what else the guards of the supplier see
    | PeerCtl(c: Ctl)     // all that the guards of the peer see

  predicate MgrEnabled(e: End, move: Move) {
    match e.mgr
    case Running =>
      (match move
       case TakeOne => e.held.Nothing? && e.sem > 0
       case ReturnOne => e.held.Buffer?
       case SeeFlush => e.flag)
    case Parked => !e.flag
    case _ => true
  }

  /** What both managers do alike: take a buffer, enter ReturnBufferFunction, park, go on. */
  function MgrLocal(e: End, move: Move): End
    requires MgrEnabled(e, move) && Local(e.mgr)
  {
    match e.mgr
    case Running =>
      (match move
       case TakeOne => e.(sem := e.sem - 1, mgr := Deq)
       case ReturnOne => e.(mgr := Call)
       case SeeFlush => e.(mgr := if e.held.Buffer? then Call else Parked))
    case Deq => if e.ring == [] then e.(mgr := Running) else e.(ring := e.ring[1..], held := Buffer(e.ring[0]), mgr := Running)
    case Parked => e.(mgr := Running)
  }

  /** `queue` on a port, by whichever thread. */
  function Queue(e: End, h: Held): End { if h.Buffer? then e.(ring := Enqueued(e.ring, h.buf)) else e }

  /** ReturnBufferFunction at the supplier. */
  function SupReturnStep(s: State): State
    requires !Local(s.sup.mgr)
  {
    var e := s.sup;
    match e.mgr
    case Call => s.(sup := e.(mgr := if e.flag then Requeue else Offer))
    case Offer =>
      s.(sup := e.(mgr := if Judge(s.peer.ctl, true, true, false, s.peer.flag).Accepted? then QueueOther else QueueOwn))
    case QueueOther => s.(sup := e.(held := Nothing, mgr := UpOther), peer := Queue(s.peer, e.held))
    case UpOther => s.(sup := e.(mgr := Running), peer := s.peer.(sem := s.peer.sem + 1))
    case QueueOwn => s.(sup := Queue(e, e.held).(held := Nothing, mgr := UpOwn))
    case UpOwn => s.(sup := e.(sem := e.sem + 1, mgr := Running))
    case Requeue => s.(sup := Queue(e, e.held).(held := Nothing, mgr := Running))
  }

  function SupMgrStep(s: State, move: Move): State
    requires MgrEnabled(s.sup, move)
  {
    if Local(s.sup.mgr) then s.(sup := MgrLocal(s.sup, move)) else SupReturnStep(s)
  }

  /** ReturnBufferFunction at the peer, which ignores a refusal: the buffer would be lost. */
  function PeerReturnStep(s: State): State
    requires !Local(s.peer.mgr)
  {
    var e := s.peer;
    match e.mgr
    case Call => s.(peer := e.(mgr := Offer))
    case Offer =>
      if Judge(s.sup.ctl, true, true, true, s.sup.flag).Accepted? then s.(peer := e.(mgr := QueueOther))
      else s.(peer := e.(held := Nothing, mgr := Running))
    case QueueOther => s.(peer := e.(held := Nothing, mgr := UpOther), sup := Queue(s.sup, e.held))
    case UpOther => s.(peer := e.(mgr := Running), sup := s.sup.(sem := s.sup.sem + 1))
    case _ => s
  }

  function PeerMgrStep(s: State, move: Move): State
    requires MgrEnabled(s.peer, move)
  {
    if Local(s.peer.mgr) then s.(peer := MgrLocal(s.peer, move)) else PeerReturnStep(s)
  }

  /** A command comes to the message thread. */
  predicate SupCmdEnabled(s: State, cmd: Command) {
    s.sMsg.SIdle? &&
    match cmd
    case Flush => true
    case ToIdle => s.sup.ctl.state != Idle
    case ToPause => s.sup.ctl.state != Pause
    case ToExecuting => s.sup.ctl.state != Executing
  }

  function SetState(s: State, state: OmxState): State { s.(sup := s.sup.(ctl := s.sup.ctl.(state := state))) }

  function SupCmdStep(s: State, cmd: Command): State
    requires SupCmdEnabled(s, cmd)
  {
    match cmd
    case Flush => s.(sup := s.sup.(flag := true), sMsg := SWait, leaving := false)
    case ToIdle =>
      if s.sup.ctl.state == Executing then s.(sup := s.sup.(flag := true), sMsg := SWait, leaving := true) else SetState(s, Idle)
    case ToPause => SetState(s, Pause)
    case ToExecuting => SetState(s, Executing).(sMsg := if s.sup.ctl.state == Idle then SSignal(s.tunnelBufs) else SRead)
  }

  predicate SupMsgEnabled(s: State) {
    match s.sMsg
    case SIdle => false
    case SWait => s.sup.mgr.Parked?
    case SDownWait => s.sup.sem > 0
    case _ => true
  }

  function SupFlushStep(s: State): State
    requires SupMsgEnabled(s) && SupFlushing(s.sMsg)
  {
    var e := s.sup;
    match s.sMsg
    case SWait => s.(sMsg := STest)
    case STest => if e.sem > 0 then s.(sup := e.(sem := e.sem - 1), sMsg := SDeq) else s.(sMsg := SCount)
    case SDeq =>
      if e.ring == [] then s.(broken := true, sMsg := STest)
      else s.(sup := e.(ring := e.ring[1..], hand := Buffer(e.ring[0])), sMsg := SPut)
    case SPut => s.(sup := Queue(e, e.hand).(hand := Nothing), sMsg := STest)
    case SCount => s.(sMsg := if |e.ring| == |s.bufs| then SReset else SDownWait)
    case SDownWait => s.(sup := e.(sem := e.sem - 1), sMsg := SCount)
    case SReset => s.(sup := e.(sem := 0), sMsg := SClear)
    case SClear => s.(sup := e.(flag := false), sMsg := if s.leaving then SLeave else SSignal(s.tunnelBufs))
  }

  function SupStateStep(s: State): State
    requires SupMsgEnabled(s) && !SupFlushing(s.sMsg)
  {
    match s.sMsg
    case SLeave => SetState(s, Idle).(sMsg := SIdle, leaving := false)
    case SRead => s.(sMsg := SCompare(|s.sup.ring|))
    case SCompare(nelem) => s.(sMsg := if nelem == s.sup.sem + |s.bufs| then SSignal(|s.bufs|) else SIdle)
    case SSignal(owed) =>
      if owed == 0 then s.(sMsg := SIdle) else s.(sup := s.sup.(sem := s.sup.sem + 1), sMsg := SSignal(owed - 1))
  }

  function SupMsgStep(s: State): State
    requires SupMsgEnabled(s)
  {
    if SupFlushing(s.sMsg) then SupFlushStep(s) else SupStateStep(s)
  }

  predicate PeerMsgEnabled(s: State) { s.pMsg.PWait? ==> s.peer.mgr.Parked? }

  function PeerMsgStep(s: State): State
    requires PeerMsgEnabled(s)
  {
    var e := s.peer;
    match s.pMsg
    case PIdle => s.(peer := e.(flag := true), pMsg := PWait)
    case PWait => s.(pMsg := PTest)
    case PTest => if e.sem > 0 then s.(peer := e.(sem := e.sem - 1), pMsg := PDeq) else s.(pMsg := PClear)
    case PDeq =>
      if e.ring == [] then s.(broken := true, pMsg := PTest)
      else s.(peer := e.(ring := e.ring[1..], hand := Buffer(e.ring[0])), pMsg := POffer)
    case POffer =>
      if Judge(s.sup.ctl, true, true, true, s.sup.flag).Accepted? then s.(pMsg := PQueue)
      else s.(peer := e.(hand := Nothing), pMsg := PTest)
    case PQueue => s.(sup := Queue(s.sup, e.hand), peer := e.(hand := Nothing), pMsg := PUp)
    case PUp => s.(sup := s.sup.(sem := s.sup.sem + 1), pMsg := PTest)
    case PClear => s.(peer := e.(flag := false), pMsg := PIdle)
  }

  predicate Enabled(s: State, a: Action) {
    match a
    case SupMgr(move) => MgrEnabled(s.sup, move)
    case PeerMgr(move) => MgrEnabled(s.peer, move)
    case SupMsg => SupMsgEnabled(s)
    case PeerMsg => PeerMsgEnabled(s)
    case SupCmd(cmd) => SupCmdEnabled(s, cmd)
    case SupCtl(c) => Active(c) && c.state == s.sup.ctl.state
    case PeerCtl(c) => true
  }

  function Step(s: State, a: Action): State
    requires Enabled(s, a)
  {
    match a
    case SupMgr(move) => SupMgrStep(s, move)
    case PeerMgr(move) => PeerMgrStep(s, move)
    case SupMsg => SupMsgStep(s)
    case PeerMsg => PeerMsgStep(s)
    case SupCmd(cmd) => SupCmdStep(s, cmd)
    case SupCtl(c) => s.(sup := s.sup.(ctl := c))
    case PeerCtl(c) => s.(peer := s.peer.(ctl := c))
  }

  predicate CanRun(s: State, acts: seq<Action>)
    decreases |acts|
  {
    acts == [] || (Enabled(s, acts[0]) && CanRun(Step(s, acts[0]), acts[1..]))
  }

  function Run(s: State, acts: seq<Action>): State
    requires CanRun(s, acts)
    decreases |acts|
  {
    if acts == [] then s else Run(Step(s, acts[0]), acts[1..])
  }

  predicate Distinct(bufs: seq<nat>) { forall i, j :: 0 <= i < j < |bufs| ==> bufs[i] != bufs[j] }

  /** The tunnel is populated, and the supplier is Idle. */
  predicate Init(s: State) {
    && |s.bufs| <= RING_SLOTS && Distinct(s.bufs) && !s.leaving
    && Active(s.sup.ctl) && s.sup.ctl.state == Idle
    && s.sup == End(s.sup.ctl, s.bufs, 0, Nothing, Running, false, Nothing) && s.sMsg == SIdle
    && s.peer == End(s.peer.ctl, [], 0, Nothing, Running, false, Nothing) && s.pMsg == PIdle
    && !s.broken
  }

  /** Threads that have queued a buffer at the supplier and not raised its semaphore yet. */
  function Late(s: State): nat { Bit(s.peer.mgr.UpOther?) + Bit(s.pMsg.PUp?) + Bit(s.sup.mgr.UpOwn?) }

  /** The semaphores that follow a reset: the restart, and in Idle that of the next command to Executing as well. */
  function Due(s: State): nat { s.tunnelBufs + IdleDue(s) }
  function IdleDue(s: State): nat { if s.sup.ctl.state == Idle then s.tunnelBufs else 0 }

  /**
   What a run has to respect: a flush resets the semaphore while few enough threads
   are between `queue` and `tsem_up` at the supplier's port; Pause to Executing
   raises it only with all buffers home, and no thread there or about to dequeue;
   and Pause is not left for Idle, after which the restart comes without a reset.
   */
  predicate Timely(s: State, a: Action) {
    && (a.SupMsg? && s.sMsg.SReset? ==> Late(s) + Due(s) <= |s.bufs|)
    && (a.SupMsg? && s.sMsg.SCompare? && s.sMsg.nelem == s.sup.sem + |s.bufs| ==>
          Late(s) == 0 && !s.sup.mgr.Deq? && |s.sup.ring| == |s.bufs|)
    && (a == SupCmd(ToIdle) && s.sup.ctl.state == Pause ==> s.tunnelBufs == 0)
  }

  predicate TimelyRun(s: State, acts: seq<Action>)
    requires CanRun(s, acts)
    decreases |acts|
  {
    acts == [] || (Timely(s, acts[0]) && TimelyRun(Step(s, acts[0]), acts[1..]))
  }

  // ---------------------------------------------------------------------------
  // The inductive invariant
  // ---------------------------------------------------------------------------

  /** The supplier's flag is up. */
  predicate SupFlushing(m: SupFlush) { m.SWait? || SupDraining(m) }
  predicate SupDraining(m: SupFlush) {
    m.STest? || m.SDeq? || m.SPut? || m.SCount? || m.SDownWait? || m.SReset? || m.SClear?
  }
  predicate PeerDraining(m: PeerFlush) { !m.PIdle? && !m.PWait? }

  predicate HoldsRight(e: End) {
    && (e.mgr.Call? || e.mgr.Offer? || e.mgr.QueueOther? || e.mgr.QueueOwn? || e.mgr.Requeue? ==> e.held.Buffer?)
    && (e.mgr.Deq? || e.mgr.UpOther? || e.mgr.UpOwn? || e.mgr.Parked? ==> e.held.Nothing?)
  }

  predicate SupRight(e: End, m: SupFlush) {
    && Active(e.ctl) && HoldsRight(e)
    && (e.flag <==> SupFlushing(m))
    && (SupDraining(m) ==> e.mgr.Parked?)
    && (m.SRead? || m.SCompare? ==> e.ctl.state == Executing)
    && (e.hand.Buffer? <==> m.SPut?)
  }

  predicate PeerRight(e: End, m: PeerFlush) {
    && HoldsRight(e) && !e.mgr.QueueOwn? && !e.mgr.UpOwn? && !e.mgr.Requeue?
    && (e.flag <==> !m.PIdle?)
    && (PeerDraining(m) ==> e.mgr.Parked?)
    && (e.hand.Buffer? <==> m.POffer? || m.PQueue?)
  }

  predicate Control(s: State) { |s.bufs| <= RING_SLOTS && SupRight(s.sup, s.sMsg) && PeerRight(s.peer, s.pMsg) }

  /** Tokens that will come without another reset. */
  function Owed(s: State): nat {
    IdleDue(s) + match s.sMsg
      case SSignal(owed) => owed
      case SClear => s.tunnelBufs
      case SLeave => s.tunnelBufs
      case _ => 0
  }

  /** Semaphore tokens, those in use and those still to come, are covered by buffers in the ring. */
  predicate SemBound(s: State) {
    s.sup.sem + Late(s) + Bit(s.sup.mgr.Deq?) + Bit(s.sMsg.SDeq?) + Owed(s) <= |s.sup.ring|
  }

  /** Every buffer is in some ring or hand, and all are home when a flush of the supplier ends. */
  predicate Places(s: State) {
    && |s.sup.ring| + |s.peer.ring| + |Hand(s.sup.held)| + |Hand(s.peer.held)| + |Hand(s.sup.hand)| + |Hand(s.peer.hand)|
       == |s.bufs|
    && (s.sMsg.SReset? || s.sMsg.SClear? ==> |s.sup.ring| == |s.bufs|)
    && (s.sMsg.SCompare? ==> s.sMsg.nelem <= |s.bufs|)
  }

  /** The peer's tokens are exact, and a supplier that waits for its buffers will be woken. */
  predicate Tokens(s: State) {
    && s.peer.sem + Bit(s.sup.mgr.UpOther?) + Bit(s.peer.mgr.Deq?) + Bit(s.pMsg.PDeq?) == |s.peer.ring|
    && (s.sMsg.SClear? ==> s.sup.sem + Late(s) <= 1)
    && (s.sMsg.SDownWait? ==> |s.sup.ring| < |s.bufs| || s.sup.sem + Late(s) > 0)
  }

  /** What every run keeps, and what every timely run keeps besides. */
  predicate Steady(s: State) { Control(s) && Places(s) && Tokens(s) }
  predicate Sound(s: State) { Steady(s) && SemBound(s) && !s.broken }

  function Count(q: seq<nat>, b: nat): nat {
    if q == [] then 0 else Bit(q[0] == b) + Count(q[1..], b)
  }

  /** In how many places at one end buffer b is: ring, manager, message thread. */
  function Copies(e: End, b: nat): nat {
    Count(e.ring, b) + Bit(e.held == Buffer(b)) + Bit(e.hand == Buffer(b))
  }

  function Total(s: State, b: nat): nat { Copies(s.sup, b) + Copies(s.peer, b) }

  /** What a manager does alike at both ends neither makes nor loses a buffer or a token. */
  lemma LocalAccounts(e: End, move: Move)
    requires MgrEnabled(e, move) && Local(e.mgr) && HoldsRight(e)
    ensures var f := MgrLocal(e, move);
            && f == e.(ring := f.ring, sem := f.sem, held := f.held, mgr := f.mgr)
            && HoldsRight(f) && (Local(f.mgr) || f.mgr.Call?) && (e.mgr.Parked? ==> !e.flag)
            && |f.ring| + |Hand(f.held)| == |e.ring| + |Hand(e.held)|
            && (e.mgr.Deq? ==> |f.ring| <= |e.ring|)
            && (e.mgr.Deq? && e.ring == [] ==> f.ring == [] && f.sem == e.sem && !f.mgr.Deq?)
            && (!e.mgr.Deq? || e.ring != [] ==> f.sem + Bit(f.mgr.Deq?) - |f.ring| == e.sem + Bit(e.mgr.Deq?) - |e.ring|)
            && (!e.mgr.Deq? ==> f.ring == e.ring)
  {}

  lemma {:induction false} SupReturnKeepsControl(s: State)
    requires Control(s) && !Local(s.sup.mgr)
    ensures Control(SupReturnStep(s))
  {
    var t := SupReturnStep(s);
    assert t == s.(sup := t.sup, peer := t.peer);
  }

  lemma {:induction false} SupReturnKeepsPlaces(s: State)
    requires Steady(s) && !Local(s.sup.mgr)
    ensures Places(SupReturnStep(s))
  {}

  lemma {:induction false} SupReturnKeepsTokens(s: State)
    requires Steady(s) && !Local(s.sup.mgr)
    ensures Tokens(SupReturnStep(s))
  {}

  lemma {:induction false} SupReturnKeepsBound(s: State)
    requires Sound(s) && !Local(s.sup.mgr)
    ensures SemBound(SupReturnStep(s)) && !SupReturnStep(s).broken
  {}

  lemma {:induction false} SupMgrKeeps(s: State, move: Move)
    requires Steady(s) && MgrEnabled(s.sup, move)
    ensures Steady(SupMgrStep(s, move))
  {
    if Local(s.sup.mgr) {
      LocalAccounts(s.sup, move);
    } else {
      SupReturnKeepsControl(s);
      SupReturnKeepsPlaces(s);
      SupReturnKeepsTokens(s);
    }
  }

  lemma {:induction false} SupMgrKeepsBound(s: State, move: Move)
    requires Sound(s) && MgrEnabled(s.sup, move)
    ensures SemBound(SupMgrStep(s, move)) && !SupMgrStep(s, move).broken
  {
    if Local(s.sup.mgr) {
      LocalAccounts(s.sup, move);
    } else {
      SupReturnKeepsBound(s);
    }
  }

  lemma {:induction false} PeerReturnKeepsControl(s: State)
    requires Control(s) && !Local(s.peer.mgr)
    ensures Control(PeerReturnStep(s))
  {
    var t := PeerReturnStep(s);
    assert t == s.(sup := t.sup, peer := t.peer);
  }

  lemma {:induction false} PeerReturnKeepsPlaces(s: State)
    requires Steady(s) && !Local(s.peer.mgr)
    ensures Places(PeerReturnStep(s))
  {}

  lemma {:induction false} PeerReturnKeepsTokens(s: State)
    requires Steady(s) && !Local(s.peer.mgr)
    ensures Tokens(PeerReturnStep(s))
  {}

  lemma {:induction false} PeerReturnKeepsBound(s: State)
    requires Sound(s) && !Local(s.peer.mgr)
    ensures SemBound(PeerReturnStep(s)) && !PeerReturnStep(s).broken
  {}

  lemma {:induction false} PeerMgrKeeps(s: State, move: Move)
    requires Steady(s) && MgrEnabled(s.peer, move)
    ensures Steady(PeerMgrStep(s, move))
  {
    if Local(s.peer.mgr) {
      LocalAccounts(s.peer, move);
    } else {
      PeerReturnKeepsControl(s);
      PeerReturnKeepsPlaces(s);
      PeerReturnKeepsTokens(s);
    }
  }

  lemma {:induction false} PeerMgrKeepsBound(s: State, move: Move)
    requires Sound(s) && MgrEnabled(s.peer, move)
    ensures SemBound(PeerMgrStep(s, move)) && !PeerMgrStep(s, move).broken
  {
    if Local(s.peer.mgr) {
      LocalAccounts(s.peer, move);
    } else {
      PeerReturnKeepsBound(s);
    }
  }

  lemma {:induction false} SupFlushKeepsControl(s: State)
    requires Control(s) && SupMsgEnabled(s) && SupFlushing(s.sMsg)
    ensures Control(SupFlushStep(s))
  {
    var t := SupFlushStep(s);
    assert t == s.(sup := t.sup, sMsg := t.sMsg, broken := t.broken);
    assert t.sup.ctl == s.sup.ctl && t.sup.mgr == s.sup.mgr && t.sup.held == s.sup.held;
  }

  lemma {:induction false} SupFlushKeepsPlaces(s: State)
    requires Control(s) && Places(s) && SupMsgEnabled(s) && SupFlushing(s.sMsg)
    ensures Places(SupFlushStep(s))
  {}

  lemma {:induction false} SupFlushKeepsTokens(s: State)
    requires Steady(s) && SupMsgEnabled(s) && SupFlushing(s.sMsg)
    ensures Tokens(SupFlushStep(s))
  {}

  lemma {:induction false} SupFlushKeepsBound(s: State)
    requires Sound(s) && SupMsgEnabled(s) && SupFlushing(s.sMsg) && Timely(s, SupMsg)
    ensures SemBound(SupFlushStep(s)) && !SupFlushStep(s).broken
  {}

  lemma {:induction false} SupStateKeeps(s: State)
    requires Steady(s) && SupMsgEnabled(s) && !SupFlushing(s.sMsg)
    ensures Steady(SupStateStep(s))
  {
    var t := SupStateStep(s);
    assert t == s.(sup := s.sup.(ctl := t.sup.ctl, sem := t.sup.sem), sMsg := t.sMsg, leaving := t.leaving);
    assert !SupFlushing(t.sMsg) && Active(t.sup.ctl) && (t.sMsg.SCompare? ==> t.sMsg.nelem == |s.sup.ring|);
  }

  lemma {:induction false} SupStateKeepsBound(s: State)
    requires Sound(s) && SupMsgEnabled(s) && !SupFlushing(s.sMsg) && Timely(s, SupMsg)
    ensures SemBound(SupStateStep(s)) && !SupStateStep(s).broken
  {
    var t := SupStateStep(s);
    assert t == s.(sup := s.sup.(ctl := t.sup.ctl, sem := t.sup.sem), sMsg := t.sMsg, leaving := t.leaving);
    assert t.sup.sem + Owed(t) <= s.sup.sem + Owed(s) || t.sup.sem + Owed(t) == |s.sup.ring|;
  }

  lemma {:induction false} SupMsgKeeps(s: State)
    requires Steady(s) && SupMsgEnabled(s)
    ensures Steady(SupMsgStep(s))
  {
    if SupFlushing(s.sMsg) {
      SupFlushKeepsControl(s);
      SupFlushKeepsPlaces(s);
      SupFlushKeepsTokens(s);
    } else {
      SupStateKeeps(s);
    }
  }

  lemma {:induction false} SupMsgKeepsBound(s: State)
    requires Sound(s) && SupMsgEnabled(s) && Timely(s, SupMsg)
    ensures SemBound(SupMsgStep(s)) && !SupMsgStep(s).broken
  {
    if SupFlushing(s.sMsg) { SupFlushKeepsBound(s); } else { SupStateKeepsBound(s); }
  }

  lemma {:induction false} SupCmdKeeps(s: State, cmd: Command)
    requires Steady(s) && SupCmdEnabled(s, cmd)
    ensures Steady(SupCmdStep(s, cmd))
  {}

  lemma {:induction false} SupCmdKeepsBound(s: State, cmd: Command)
    requires Sound(s) && SupCmdEnabled(s, cmd) && Timely(s, SupCmd(cmd))
    ensures SemBound(SupCmdStep(s, cmd)) && !SupCmdStep(s, cmd).broken
  {}

  /** What each step of the peer's message thread does to the supplier's end. */
  lemma {:induction false} PeerMsgAtSupplier(s: State)
    requires Steady(s) && PeerMsgEnabled(s)
    ensures var t := PeerMsgStep(s);
            && t.sMsg == s.sMsg && t.leaving == s.leaving && t.bufs == s.bufs && t.tunnelBufs == s.tunnelBufs
            && (t.broken ==> s.broken || (s.pMsg.PDeq? && s.peer.ring == []))
            && t.sup == (match s.pMsg
                         case PQueue => s.sup.(ring := s.sup.ring + [s.peer.hand.buf])
                         case PUp => s.sup.(sem := s.sup.sem + 1)
                         case _ => s.sup)
  {}

  lemma {:induction false} PeerMsgKeeps(s: State)
    requires Steady(s) && PeerMsgEnabled(s)
    ensures Steady(PeerMsgStep(s))
  {
    PeerMsgAtSupplier(s);
    if s.pMsg.POffer? { SupplierNeverRefuses(s.sup.ctl, s.sup.flag); }
  }

  lemma {:induction false} PeerMsgKeepsBound(s: State)
    requires Sound(s) && PeerMsgEnabled(s)
    ensures SemBound(PeerMsgStep(s)) && !PeerMsgStep(s).broken
  {
    PeerMsgAtSupplier(s);
    if s.pMsg.POffer? { SupplierNeverRefuses(s.sup.ctl, s.sup.flag); }
  }

  lemma {:induction false} CountAppend(q: seq<nat>, x: nat, b: nat)
    ensures Count(q + [x], b) == Count(q, b) + Bit(x == b)
  {
    if q == [] {
      assert q + [x] == [x];
    } else {
      assert (q + [x])[1..] == q[1..] + [x];
      CountAppend(q[1..], x, b);
    }
  }

  lemma {:induction false} MgrLocalMoves(e: End, move: Move, b: nat)
    requires MgrEnabled(e, move) && Local(e.mgr) && HoldsRight(e)
    ensures Copies(MgrLocal(e, move), b) == Copies(e, b)
  {}

  lemma {:induction false} SupMgrMoves(s: State, move: Move, b: nat)
    requires Steady(s) && MgrEnabled(s.sup, move)
    ensures Total(SupMgrStep(s, move), b) == Total(s, b)
  {
    var e := s.sup;
    if Local(e.mgr) { MgrLocalMoves(e, move, b); }
    if e.held.Buffer? {
      CountAppend(e.ring, e.held.buf, b);
      CountAppend(s.peer.ring, e.held.buf, b);
    }
  }

  lemma {:induction false} PeerMgrMoves(s: State, move: Move, b: nat)
    requires Steady(s) && MgrEnabled(s.peer, move)
    ensures Total(PeerMgrStep(s, move), b) == Total(s, b)
  {
    var e := s.peer;
    if Local(e.mgr) { MgrLocalMoves(e, move, b); }
    if e.mgr.Offer? { SupplierNeverRefuses(s.sup.ctl, s.sup.flag); }
    if e.held.Buffer? { CountAppend(s.sup.ring, e.held.buf, b); }
  }

  lemma {:induction false} SupFlushMoves(s: State, b: nat)
    requires Steady(s) && SupMsgEnabled(s) && SupFlushing(s.sMsg)
    ensures Total(SupFlushStep(s), b) == Total(s, b)
  {
    if s.sup.hand.Buffer? { CountAppend(s.sup.ring, s.sup.hand.buf, b); }
  }

  lemma {:induction false} SupMsgMoves(s: State, b: nat)
    requires Steady(s) && SupMsgEnabled(s)
    ensures Total(SupMsgStep(s), b) == Total(s, b)
  {
    if SupFlushing(s.sMsg) { SupFlushMoves(s, b); }
  }

  lemma {:induction false} PeerMsgMoves(s: State, b: nat)
    requires Steady(s) && PeerMsgEnabled(s)
    ensures Total(PeerMsgStep(s), b) == Total(s, b)
  {
    if s.pMsg.POffer? { SupplierNeverRefuses(s.sup.ctl, s.sup.flag); }
    if s.peer.hand.Buffer? { CountAppend(s.sup.ring, s.peer.hand.buf, b); }
  }

  lemma CommandsMoveNothing(s: State, a: Action, b: nat)
    requires Enabled(s, a) && (a.SupCmd? || a.SupCtl? || a.PeerCtl?)
    ensures Total(Step(s, a), b) == Total(s, b)
  {}

  lemma {:induction false} StepMoves(s: State, a: Action, b: nat)
    requires Steady(s) && Enabled(s, a)
    ensures Total(Step(s, a), b) == Total(s, b)
  {
    match a
    case SupMgr(move) => SupMgrMoves(s, move, b);
    case PeerMgr(move) => PeerMgrMoves(s, move, b);
    case SupMsg => SupMsgMoves(s, b);
    case PeerMsg => PeerMsgMoves(s, b);
    case _ => CommandsMoveNothing(s, a, b);
  }

  lemma {:induction false} StepKeeps(s: State, a: Action)
    requires Steady(s) && Enabled(s, a)
    ensures Steady(Step(s, a))
  {
    match a
    case SupMgr(move) => SupMgrKeeps(s, move);
    case PeerMgr(move) => PeerMgrKeeps(s, move);
    case SupMsg => SupMsgKeeps(s);
    case PeerMsg => PeerMsgKeeps(s);
    case SupCmd(cmd) => SupCmdKeeps(s, cmd);
    case _ =>
  }

  lemma {:induction false} StepKeepsBound(s: State, a: Action)
    requires Sound(s) && Enabled(s, a) && Timely(s, a)
    ensures SemBound(Step(s, a)) && !Step(s, a).broken
  {
    match a
    case SupMgr(move) => SupMgrKeepsBound(s, move);
    case PeerMgr(move) => PeerMgrKeepsBound(s, move);
    case SupMsg => SupMsgKeepsBound(s);
    case PeerMsg => PeerMsgKeepsBound(s);
    case SupCmd(cmd) => SupCmdKeepsBound(s, cmd);
    case SupCtl(_) =>
    case PeerCtl(_) =>
  }

  lemma {:induction false} RunKeeps(s: State, acts: seq<Action>, b: nat)
    requires Steady(s) && CanRun(s, acts)
    ensures Steady(Run(s, acts)) && Total(Run(s, acts), b) == Total(s, b)
    ensures Sound(s) && TimelyRun(s, acts) ==> Sound(Run(s, acts))
    decreases |acts|
  {
    if acts == [] {
    } else {
      StepKeeps(s, acts[0]);
      StepMoves(s, acts[0], b);
      if Sound(s) && Timely(s, acts[0]) { StepKeepsBound(s, acts[0]); }
      RunKeeps(Step(s, acts[0]), acts[1..], b);
    }
  }

  lemma {:induction false} CountOnce(q: seq<nat>, b: nat)
    requires Distinct(q)
    ensures Count(q, b) == Bit(b in q)
  {
    if q == [] {
    } else {
      assert q == [q[0]] + q[1..];
      CountOnce(q[1..], b);
    }
  }

  lemma InitSteady(s: State, b: nat)
    requires Init(s)
    ensures Steady(s) && Total(s, b) == Bit(b in s.bufs)
    ensures s.tunnelBufs <= |s.bufs| ==> Sound(s)
  {
    CountOnce(s.bufs, b);
  }

  ghost predicate Possible(s: State) {
    exists s0: State, acts: seq<Action> :: Init(s0) && CanRun(s0, acts) && Run(s0, acts) == s
  }

  /** Reachable by a timely run, the restart raising the semaphore at most once for each buffer. */
  ghost predicate Reachable(s: State) {
    exists s0: State, acts: seq<Action> ::
      Init(s0) && s0.tunnelBufs <= |s0.bufs| && CanRun(s0, acts) && TimelyRun(s0, acts) && Run(s0, acts) == s
  }

  lemma PossibleSteady(s: State, b: nat)
    requires Possible(s)
    ensures Steady(s) && Total(s, b) == Bit(b in s.bufs)
  {
    var s0: State, acts: seq<Action> :| Init(s0) && CanRun(s0, acts) && Run(s0, acts) == s;
    InitSteady(s0, b);
    RunKeeps(s0, acts, b);
    BufsFixed(s0, acts);
  }

  lemma ReachableSound(s: State)
    requires Reachable(s)
    ensures Sound(s) && Possible(s)
  {
    var s0: State, acts: seq<Action> :|
      Init(s0) && s0.tunnelBufs <= |s0.bufs| && CanRun(s0, acts) && TimelyRun(s0, acts) && Run(s0, acts) == s;
    InitSteady(s0, 0);
    RunKeeps(s0, acts, 0);
  }

  lemma {:induction false} BufsFixed(s: State, acts: seq<Action>)
    requires CanRun(s, acts)
    ensures Run(s, acts).bufs == s.bufs && Run(s, acts).tunnelBufs == s.tunnelBufs
    decreases |acts|
  {
    if acts == [] {
    } else {
      BufsFixed(Step(s, acts[0]), acts[1..]);
    }
  }

  // ---------------------------------------------------------------------------
  // What every run keeps
  // ---------------------------------------------------------------------------

  /**
   In every state of every run, as long as no thread has gone on with a NULL,
   every buffer of the tunnel is in exactly one place: a ring, a manager's hand or
   a message thread's hand, at one of the two ends; and no ring overflows.
   */
  lemma EveryBufferInOnePlace(s: State, b: nat)
    requires Possible(s) && !s.broken
    ensures Copies(s.sup, b) + Copies(s.peer, b) == if b in s.bufs then 1 else 0
    ensures |s.sup.ring| <= RING_SLOTS && |s.peer.ring| <= RING_SLOTS
  {
    PossibleSteady(s, b);
  }

  /** In a timely run no thread dequeues NULL, and every token of the supplier's semaphore has its buffer. */
  lemma TimelyRunsAreUnbroken(s: State)
    requires Reachable(s)
    ensures !s.broken && s.sup.sem <= |s.sup.ring| && (s.sMsg.SDeq? || s.sup.mgr.Deq? ==> s.sup.ring != [])
  {
    ReachableSound(s);
  }

  /**
   A supplier's flush ends with all its buffers in its own ring and its semaphore
   at 0, or at 1 once a thread that was late has raised it; a timely run whose
   restart hands out a token for each buffer has no late thread.
   */
  lemma SupplierFlushOutcome(s: State, b: nat)
    requires Possible(s) && !s.broken && s.sMsg.SClear?
    ensures |s.sup.ring| == |s.bufs| && Count(s.sup.ring, b) == Bit(b in s.bufs)
    ensures s.sup.sem + Late(s) <= 1
    ensures Reachable(s) ==> s.sup.sem + Late(s) + s.tunnelBufs <= |s.bufs|
    ensures Reachable(s) && s.tunnelBufs == |s.bufs| ==> s.sup.sem == 0
  {
    PossibleSteady(s, b);
    if Reachable(s) { ReachableSound(s); }
  }

  /** A flush of the peer leaves at most the buffer whose semaphore the supplier has yet to raise. */
  lemma PeerFlushOutcome(s: State)
    requires Possible(s) && !s.broken && s.pMsg.PTest? && s.peer.sem == 0
    ensures |s.peer.ring| == Bit(s.sup.mgr.UpOther?) && s.peer.held.Nothing? && s.peer.hand.Nothing?
  {
    PossibleSteady(s, 0);
  }

  /** A supplier waiting for its buffers is not left waiting once they are all back. */
  lemma SupplierFlushIsWoken(s: State)
    requires Possible(s) && !s.broken && s.sMsg.SDownWait? && |s.sup.ring| == |s.bufs|
    ensures s.sup.sem > 0 || s.peer.mgr.UpOther? || s.pMsg.PUp?
  {
    PossibleSteady(s, 0);
  }

  predicate Moving(m: SupFlush) { m.STest? || m.SDeq? || m.SPut? }

  /** Bounds the steps of the loop of a supplier's flush that moves its own ring round. */
  function MoveRank(s: State): int
    requires Moving(s.sMsg)
  {
    3 * (s.sup.sem + Late(s) + |s.bufs| - |s.sup.ring| - |Hand(s.sup.hand)|) + match s.sMsg
      case STest => 0
      case SDeq => 2
      case SPut => 1
  }

  lemma {:induction false} FlusherRankFalls(s: State)
    requires Steady(s) && Moving(s.sMsg) && Moving(SupMsgStep(s).sMsg)
    ensures MoveRank(SupMsgStep(s)) < MoveRank(s)
  {}

  lemma {:induction false} PeerReturnRankKept(s: State)
    requires Steady(s) && Moving(s.sMsg) && !Local(s.peer.mgr)
    ensures PeerReturnStep(s).sMsg == s.sMsg && MoveRank(PeerReturnStep(s)) <= MoveRank(s)
  {
    var t := PeerReturnStep(s);
    assert t == s.(peer := t.peer, sup := s.sup.(ring := t.sup.ring, sem := t.sup.sem));
  }

  lemma {:induction false} PeerMgrRankKept(s: State, move: Move)
    requires Steady(s) && Moving(s.sMsg) && MgrEnabled(s.peer, move)
    ensures PeerMgrStep(s, move).sMsg == s.sMsg && MoveRank(PeerMgrStep(s, move)) <= MoveRank(s)
  {
    if Local(s.peer.mgr) { LocalAccounts(s.peer, move); } else { PeerReturnRankKept(s); }
  }

  lemma {:induction false} PeerMsgRankKept(s: State)
    requires Steady(s) && Moving(s.sMsg) && PeerMsgEnabled(s)
    ensures PeerMsgStep(s).sMsg == s.sMsg && MoveRank(PeerMsgStep(s)) <= MoveRank(s)
  {}

  lemma {:induction false} MoveRankFalls(s: State, a: Action)
    requires Steady(s) && Moving(s.sMsg) && Enabled(s, a) && Moving(Step(s, a).sMsg)
    ensures MoveRank(Step(s, a)) + Bit(a.SupMsg?) <= MoveRank(s)
  {
    match a
    case SupMsg => FlusherRankFalls(s);
    case PeerMgr(move) => PeerMgrRankKept(s, move);
    case PeerMsg => PeerMsgRankKept(s);
    case SupMgr(_) => assert false;
    case SupCmd(_) => assert false;
    case SupCtl(_) =>
    case PeerCtl(_) =>
  }

  predicate StaysMoving(s: State, acts: seq<Action>)
    requires CanRun(s, acts)
    decreases |acts|
  {
    Moving(s.sMsg) && (acts == [] || StaysMoving(Step(s, acts[0]), acts[1..]))
  }

  function CountSupMsg(acts: seq<Action>): nat {
    if acts == [] then 0 else Bit(acts[0].SupMsg?) + CountSupMsg(acts[1..])
  }

  lemma {:induction false} MovesBounded(s: State, acts: seq<Action>)
    requires Steady(s) && CanRun(s, acts) && StaysMoving(s, acts)
    ensures CountSupMsg(acts) <= MoveRank(s)
    decreases |acts|
  {
    if acts == [] {
    } else {
      StepKeeps(s, acts[0]);
      MoveRankFalls(s, acts[0]);
      MovesBounded(Step(s, acts[0]), acts[1..]);
    }
  }

  /** The first loop of a supplier's flush ends on every run, whatever the peer sends meanwhile. */
  lemma SupplierDrainTerminates(s: State, acts: seq<Action>)
    requires Possible(s) && CanRun(s, acts) && StaysMoving(s, acts)
    ensures CountSupMsg(acts) <= 3 * (s.sup.sem + |s.bufs|) + 5
    ensures Reachable(s) ==> CountSupMsg(acts) <= 3 * |s.bufs| + 5
  {
    PossibleSteady(s, 0);
    MovesBounded(s, acts);
    if Reachable(s) { ReachableSound(s); }
  }

  // ---------------------------------------------------------------------------
  // Who accepts, what a command does, and where the units come from
  // ---------------------------------------------------------------------------

  /**
   The supplier's buffer goes to a peer that manages buffers, is not being disabled,
   not flushing and not on its way to Idle, and to the supplier's own ring otherwise.
   */
  lemma OfferedToPeer(s: State, move: Move)
    requires s.sup.mgr.Offer?
    ensures var t, c := SupMgrStep(s, move), s.peer.ctl;
            t == s.(sup := s.sup.(mgr :=
                      if c.enabled && c.state in {Idle, Executing, Pause} && !c.disabling && !s.peer.flag && c.transient != ExecutingToIdle
                      then QueueOther else QueueOwn))
  {
    PeerRefuses(s.peer.ctl, s.peer.flag);
  }

  /** The peer's buffer goes back to a supplier that manages buffers, flushing or not; to any other it is lost. */
  lemma OfferedToSupplier(s: State, move: Move)
    requires s.peer.mgr.Offer?
    ensures var t, c := PeerMgrStep(s, move), s.sup.ctl;
            t == s.(peer := if c.enabled && c.state in {Idle, Executing, Pause} then s.peer.(mgr := QueueOther)
                            else s.peer.(held := Nothing, mgr := Running))
  {
    SupplierNeverRefuses(s.sup.ctl, s.sup.flag);
  }

  /** So does what the peer's flush takes from its ring. */
  lemma FlushedToSupplier(s: State)
    requires s.pMsg.POffer?
    ensures var t, c := PeerMsgStep(s), s.sup.ctl;
            t == if c.enabled && c.state in {Idle, Executing, Pause} then s.(pMsg := PQueue)
                 else s.(peer := s.peer.(hand := Nothing), pMsg := PTest)
  {
    SupplierNeverRefuses(s.sup.ctl, s.sup.flag);
  }

  /** The peer's threads never dequeue NULL, on any run. */
  lemma PeerFindsBuffers(s: State)
    requires Possible(s)
    ensures s.pMsg.PDeq? || s.peer.mgr.Deq? ==> s.peer.ring != []
  {
    PossibleSteady(s, 0);
  }

  /** The thread takes a command when it is idle, and none to the state the component is in. */
  lemma CommandsAreTaken(s: State)
    ensures SupCmdEnabled(s, Flush) <==> s.sMsg == SIdle
    ensures SupCmdEnabled(s, ToIdle) <==> s.sMsg == SIdle && s.sup.ctl.state != Idle
    ensures SupCmdEnabled(s, ToPause) <==> s.sMsg == SIdle && s.sup.ctl.state != Pause
    ensures SupCmdEnabled(s, ToExecuting) <==> s.sMsg == SIdle && s.sup.ctl.state != Executing
    ensures forall c :: Enabled(s, PeerCtl(c))
    ensures forall c :: Enabled(s, SupCtl(c)) <==> c.enabled && c.state in {Idle, Executing, Pause} && c.state == s.sup.ctl.state
  {}

  /** The command begun in state c is under way or done. */
  predicate Doing(c: OmxState, cmd: Command, t: State) {
    match cmd
    case Flush => t.sup.ctl.state == c && !t.leaving && (t.sMsg.SIdle? || SupFlushing(t.sMsg) || t.sMsg.SSignal?)
    case ToIdle =>
      if t.sMsg.SIdle? then t.sup.ctl.state == Idle
      else c == Executing == t.sup.ctl.state && t.leaving && (SupFlushing(t.sMsg) || t.sMsg.SLeave?)
    case ToPause => t.sup.ctl.state == Pause && t.sMsg.SIdle?
    case ToExecuting => t.sup.ctl.state == Executing && !SupFlushing(t.sMsg) && !t.sMsg.SLeave?
  }

  lemma StillDoing(c: OmxState, cmd: Command, t: State, a: Action)
    requires Doing(c, cmd, t) && Enabled(t, a) && !a.SupCmd?
    ensures Doing(c, cmd, Step(t, a))
  {
    match a
    case SupMgr(move) => assert SupMgrStep(t, move).sup.ctl == t.sup.ctl;
    case PeerMgr(move) => assert PeerMgrStep(t, move).sup.ctl == t.sup.ctl;
    case PeerMsg => assert PeerMsgStep(t).sup.ctl == t.sup.ctl;
    case SupMsg => StillDoingMsg(c, cmd, t);
    case _ =>
  }

  lemma StillDoingMsg(c: OmxState, cmd: Command, t: State)
    requires Doing(c, cmd, t) && SupMsgEnabled(t)
    ensures Doing(c, cmd, SupMsgStep(t))
  {
    if SupFlushing(t.sMsg) { assert SupFlushStep(t).sup.ctl == t.sup.ctl; }
  }

  lemma {:induction false} KeepsDoing(c: OmxState, cmd: Command, t: State, acts: seq<Action>)
    requires Doing(c, cmd, t) && CanRun(t, acts) && forall a :: a in acts ==> !a.SupCmd?
    ensures Doing(c, cmd, Run(t, acts))
    decreases |acts|
  {
    if acts != [] {
      assert acts[0] in acts;
      StillDoing(c, cmd, t, acts[0]);
      KeepsDoing(c, cmd, Step(t, acts[0]), acts[1..]);
    }
  }

  /** A command leads to its state: once the thread is idle again, and no other command has come, the component is in it. */
  lemma CommandReachesItsState(s: State, cmd: Command, acts: seq<Action>)
    requires SupCmdEnabled(s, cmd) && CanRun(SupCmdStep(s, cmd), acts) && forall a :: a in acts ==> !a.SupCmd?
    ensures var t := Run(SupCmdStep(s, cmd), acts);
            t.sMsg.SIdle? ==>
              t.sup.ctl.state == match cmd
                case Flush => s.sup.ctl.state
                case ToIdle => Idle
                case ToPause => Pause
                case ToExecuting => Executing
  {
    KeepsDoing(s.sup.ctl.state, cmd, SupCmdStep(s, cmd), acts);
  }

  /** What a step adds to the supplier's semaphore. */
  function SemChange(s: State, a: Action): int {
    match a
    case SupMgr(move) => if s.sup.mgr.UpOwn? then 1 else if s.sup.mgr.Running? && move.TakeOne? then -1 else 0
    case PeerMgr(_) => if s.peer.mgr.UpOther? then 1 else 0
    case PeerMsg => if s.pMsg.PUp? then 1 else 0
    case SupMsg =>
      (match s.sMsg
       case STest => if s.sup.sem > 0 then -1 else 0
       case SDownWait => -1
       case SReset => 0 - s.sup.sem as int
       case SSignal(owed) => if owed > 0 then 1 else 0
       case _ => 0)
    case _ => 0
  }

  function SemBalance(s: State, acts: seq<Action>): int
    requires CanRun(s, acts)
    decreases |acts|
  {
    if acts == [] then 0 else SemChange(s, acts[0]) + SemBalance(Step(s, acts[0]), acts[1..])
  }

  lemma SupMgrSem(s: State, move: Move)
    requires MgrEnabled(s.sup, move)
    ensures SupMgrStep(s, move).sup.sem == s.sup.sem + SemChange(s, SupMgr(move))
  {}

  lemma PeerMgrSem(s: State, move: Move)
    requires MgrEnabled(s.peer, move)
    ensures PeerMgrStep(s, move).sup.sem == s.sup.sem + SemChange(s, PeerMgr(move))
  {}

  lemma SupMsgSem(s: State)
    requires SupMsgEnabled(s)
    ensures SupMsgStep(s).sup.sem == s.sup.sem + SemChange(s, SupMsg)
  {}

  lemma PeerMsgSem(s: State)
    requires PeerMsgEnabled(s)
    ensures PeerMsgStep(s).sup.sem == s.sup.sem + SemChange(s, PeerMsg)
  {}

  /** Units are made by returns of either end and by restarts, and lost to takes, waits and resets only. */
  lemma {:induction false} SemIsConserved(s: State, acts: seq<Action>)
    requires CanRun(s, acts)
    ensures Run(s, acts).sup.sem == s.sup.sem + SemBalance(s, acts)
    decreases |acts|
  {
    if acts != [] {
      SemStep(s, acts[0]);
      SemIsConserved(Step(s, acts[0]), acts[1..]);
    }
  }

  lemma SemStep(s: State, a: Action)
    requires Enabled(s, a)
    ensures Step(s, a).sup.sem == s.sup.sem + SemChange(s, a)
  {
    match a
    case SupMgr(move) => SupMgrSem(s, move);
    case PeerMgr(move) => PeerMgrSem(s, move);
    case SupMsg => SupMsgSem(s);
    case PeerMsg => PeerMsgSem(s);
    case _ =>
  }

  /** From q to r a ring loses nothing but its head, which goes into a hand of its end, and gains nothing but at its end. */
  predicate FirstInFirstOut(q: End, r: End) {
    || r.ring == q.ring
    || (q.ring != [] && r.ring == q.ring[1..] && (r.held == Buffer(q.ring[0]) || r.hand == Buffer(q.ring[0])))
    || (|r.ring| == |q.ring| + 1 && r.ring[..|q.ring|] == q.ring)
  }

  lemma SupMgrIsFifo(s: State, move: Move)
    requires MgrEnabled(s.sup, move)
    ensures var t := SupMgrStep(s, move); FirstInFirstOut(s.sup, t.sup) && FirstInFirstOut(s.peer, t.peer)
  {}

  lemma PeerMgrIsFifo(s: State, move: Move)
    requires MgrEnabled(s.peer, move)
    ensures var t := PeerMgrStep(s, move); FirstInFirstOut(s.sup, t.sup) && FirstInFirstOut(s.peer, t.peer)
  {}

  lemma SupMsgIsFifo(s: State)
    requires SupMsgEnabled(s)
    ensures var t := SupMsgStep(s); FirstInFirstOut(s.sup, t.sup) && t.peer == s.peer
  {}

  lemma PeerMsgIsFifo(s: State)
    requires PeerMsgEnabled(s)
    ensures var t := PeerMsgStep(s); FirstInFirstOut(s.sup, t.sup) && FirstInFirstOut(s.peer, t.peer)
  {}

  /** Buffers leave either ring in the order they came, on every step of every thread. */
  lemma RingsAreFifo(s: State, a: Action)
    requires Enabled(s, a)
    ensures FirstInFirstOut(s.sup, Step(s, a).sup) && FirstInFirstOut(s.peer, Step(s, a).peer)
  {
    match a
    case SupMgr(move) => SupMgrIsFifo(s, move);
    case PeerMgr(move) => PeerMgrIsFifo(s, move);
    case SupMsg => SupMsgIsFifo(s);
    case PeerMsg => PeerMsgIsFifo(s);
    case _ =>
  }

  predicate PeerMoving(m: PeerFlush) { m.PTest? || m.PDeq? || m.POffer? || m.PQueue? || m.PUp? }

  /** Bounds the steps of the loop of the peer's flush: nothing comes in that was not accepted before its flag went up. */
  function PeerMoveRank(s: State): int
    requires PeerMoving(s.pMsg)
  {
    5 * (s.peer.sem + Bit(s.sup.mgr.QueueOther?) + Bit(s.sup.mgr.UpOther?)) + match s.pMsg
      case PTest => 0
      case PDeq => 4
      case POffer => 3
      case PQueue => 2
      case PUp => 1
  }

  lemma {:induction false} SupReturnPeerRankKept(s: State)
    requires Steady(s) && PeerMoving(s.pMsg) && !Local(s.sup.mgr)
    ensures SupReturnStep(s).pMsg == s.pMsg && PeerMoveRank(SupReturnStep(s)) <= PeerMoveRank(s)
  {
    PeerRefuses(s.peer.ctl, s.peer.flag);
  }

  lemma {:induction false} SupMgrPeerRankKept(s: State, move: Move)
    requires Steady(s) && PeerMoving(s.pMsg) && MgrEnabled(s.sup, move)
    ensures SupMgrStep(s, move).pMsg == s.pMsg && PeerMoveRank(SupMgrStep(s, move)) <= PeerMoveRank(s)
  {
    if Local(s.sup.mgr) { LocalAccounts(s.sup, move); } else { SupReturnPeerRankKept(s); }
  }

  lemma {:induction false} PeerFlusherRankFalls(s: State)
    requires Steady(s) && PeerMoving(s.pMsg) && PeerMoving(PeerMsgStep(s).pMsg)
    ensures PeerMoveRank(PeerMsgStep(s)) < PeerMoveRank(s)
  {
    PeerMsgAtSupplier(s);
  }

  lemma {:induction false} SupMsgPeerKept(s: State, a: Action)
    requires Enabled(s, a) && (a.SupMsg? || a.SupCmd? || a.SupCtl? || a.PeerCtl?)
    ensures var t := Step(s, a); t.pMsg == s.pMsg && t.peer.sem == s.peer.sem && t.sup.mgr == s.sup.mgr
  {}

  lemma {:induction false} PeerMoveRankFalls(s: State, a: Action)
    requires Steady(s) && PeerMoving(s.pMsg) && Enabled(s, a) && PeerMoving(Step(s, a).pMsg)
    ensures PeerMoveRank(Step(s, a)) + Bit(a.PeerMsg?) <= PeerMoveRank(s)
  {
    match a
    case SupMgr(move) => SupMgrPeerRankKept(s, move);
    case PeerMsg => PeerFlusherRankFalls(s);
    case PeerMgr(_) => assert false;
    case _ => SupMsgPeerKept(s, a);
  }

  predicate StaysPeerMoving(s: State, acts: seq<Action>)
    requires CanRun(s, acts)
    decreases |acts|
  {
    PeerMoving(s.pMsg) && (acts == [] || StaysPeerMoving(Step(s, acts[0]), acts[1..]))
  }

  function CountPeerMsg(acts: seq<Action>): nat {
    if acts == [] then 0 else Bit(acts[0].PeerMsg?) + CountPeerMsg(acts[1..])
  }

  lemma {:induction false} PeerMovesBounded(s: State, acts: seq<Action>)
    requires Steady(s) && CanRun(s, acts) && StaysPeerMoving(s, acts)
    ensures CountPeerMsg(acts) <= PeerMoveRank(s)
    decreases |acts|
  {
    if acts == [] {
    } else {
      StepKeeps(s, acts[0]);
      PeerMoveRankFalls(s, acts[0]);
      PeerMovesBounded(Step(s, acts[0]), acts[1..]);
    }
  }

  /** The loop of the peer's flush ends on every run, whatever the supplier sends meanwhile. */
  lemma PeerDrainTerminates(s: State, acts: seq<Action>)
    requires Possible(s) && CanRun(s, acts) && StaysPeerMoving(s, acts)
    ensures CountPeerMsg(acts) <= 5 * |s.bufs| + 9
  {
    PossibleSteady(s, 0);
    PeerMovesBounded(s, acts);
  }
}
