/**
 The flush handshake between a component's message thread and its buffer
 management thread, with any number of threads sending buffers meanwhile.

 Every access to shared data is a step of its own: each semaphore call, each
 ring call, each section under the flush mutex, each test of a semaphore value
 or of a flag.  `Next` is the code; everything else is about its runs.  The two
 ports are not tunnelled suppliers (TunnelExchange covers those), and neither is
 a clock port.
 */
module FlushProtocol {
  import opened Basics

  datatype PortId = In | Out

  /** Where the buffer management thread is, in omx_base_filter_BufferMgmtFunction. */
  datatype MgrPc =
    | Top                                // tests both flush flags under the mutex
    | RetOut | RetIn | UpAll | DownCond  // body of the flush loop
    | TestIn | DownMgmt1                 // first wait on bMgmtSem
    | TestOut | DownMgmt2                // second wait on bMgmtSem
    | TestTakeIn | DownIn | DeqIn        // takes an input buffer
    | TestTakeOut | DownOut | DeqOut     // takes an output buffer
    | Process
    | TestPause1 | PreSleep1 | Asleep1   // first wait in Pause
    | RetOutNow
    | TestPause2 | PreSleep2 | Asleep2   // second wait in Pause
    | RetInNow

  predicate InBody(m: MgrPc) { m.RetOut? || m.RetIn? || m.UpAll? || m.DownCond? }
  predicate Waiting(m: MgrPc) { m.TestIn? || m.DownMgmt1? || m.TestOut? || m.DownMgmt2? }
  predicate Taking(m: MgrPc) { m.TestTakeIn? || m.DownIn? || m.DeqIn? || m.TestTakeOut? || m.DownOut? || m.DeqOut? }
  predicate Processing(m: MgrPc) { !m.Top? && !InBody(m) && !Waiting(m) && !Taking(m) }

  /** Where the message thread is, in MessageHandler, DoStateSet and FlushProcessingBuffers. */
  datatype MsgPc =
    | Idling
    | Preset(p: PortId)
    | SetFlag(p: PortId) | TestMgmt(p: PortId) | UpMgmt(p: PortId) | SignalState(p: PortId)
    | WaitAll(p: PortId)
    | ResetMgmt(p: PortId)
    | DrainTest(p: PortId) | DrainDown(p: PortId) | DrainDeq(p: PortId) | DrainRet(p: PortId) | DrainNull(p: PortId)
    | ClearFlag(p: PortId) | UpCond(p: PortId)

  predicate Announcing(m: MsgPc) { m.Preset? || m.SetFlag? || m.TestMgmt? || m.UpMgmt? || m.SignalState? }
  predicate InDrain(m: MsgPc) { m.DrainTest? || m.DrainDown? || m.DrainDeq? || m.DrainRet? || m.DrainNull? }

  predicate Gating(m: MsgPc) { m.WaitAll? || m.ResetMgmt? || m.ClearFlag? || m.UpCond? }

  /** Why the message thread is flushing: one port, all ports, or Executing to Idle. */
  datatype Mode = One | All | ToIdle

  datatype Command = FlushPort(p: PortId) | FlushAll | SetIdle | SetExecuting | SetPause

  /**
   One port: its ring and semaphore, the buffer the manager holds, and the senders
   by how far they are: outside (`client`), past the flag test (`checked`), with
   the buffer queued but pBufferSem not raised (`queued`), with bMgmtSem not
   raised (`upped`).  `arrived` and `returned` are the histories.
   */
  datatype Port = Port(
    total: nat, client: nat, checked: nat, queued: nat, upped: nat,
    ring: seq<nat>, sem: nat, held: Held,
    arrived: seq<nat>, returned: seq<nat>)

  datatype State = State(
    mgr: MgrPc, msg: MsgPc, mode: Mode, comp: OmxState,
    flagIn: bool, flagOut: bool,
    bMgmt: nat, flushAll: nat, flushCond: nat,
    hand: Held,            // the buffer the message thread took from the ring
    inp: Port, outp: Port)

  datatype Action =
    | Mgr(choice: bool)    // the choice is whether the callback filled or consumed the buffer
    | Msg(cmd: Command)
    | SendCheck(p: PortId)
    | SendQueue(p: PortId, buf: nat)
    | SendUp(p: PortId)
    | SendSignal(p: PortId)
    | Spurious             // the manager's wait on bStateSem ends for no reason

  predicate IsSend(a: Action) { a.SendCheck? || a.SendQueue? || a.SendUp? || a.SendSignal? }

  function Get(s: State, p: PortId): Port { if p == In then s.inp else s.outp }
  function Put(s: State, p: PortId, q: Port): State { if p == In then s.(inp := q) else s.(outp := q) }
  function Flag(s: State, p: PortId): bool { if p == In then s.flagIn else s.flagOut }
  function WithFlag(s: State, p: PortId, b: bool): State { if p == In then s.(flagIn := b) else s.(flagOut := b) }
  predicate Flushing(s: State) { s.flagIn || s.flagOut }

  /** The manager hands its buffer back: the client has it again. */
  function GiveBack(q: Port): Port
    requires q.held.Buffer?
  {
    q.(held := Nothing, client := q.client + 1, returned := q.returned + [q.held.buf])
  }

  /** `tsem_down` on a port semaphore that is not 0. */
  function DownPort(q: Port): Port
    requires q.sem > 0
  {
    q.(sem := q.sem - 1)
  }

  /** The manager's guarded dequeue: an empty ring costs it the semaphore token. */
  function Take(q: Port): Port {
    if |q.ring| > 0 then q.(held := Buffer(q.ring[0]), ring := q.ring[1..]) else q
  }

  /** The manager is waiting: `tsem_down` at 0, or asleep on bStateSem. */
  predicate MgrBlocked(s: State) {
    match s.mgr
    case DownCond => s.flushCond == 0
    case DownMgmt1 => s.bMgmt == 0
    case DownMgmt2 => s.bMgmt == 0
    case DownIn => s.inp.sem == 0
    case DownOut => s.outp.sem == 0
    case Asleep1 => true
    case Asleep2 => true
    case _ => false
  }

  /** The flush loop at the head of the manager's loop. */
  function FlushLoopStep(s: State): State
    requires (s.mgr.Top? || InBody(s.mgr)) && !MgrBlocked(s)
  {
    match s.mgr
    case Top => s.(mgr := if Flushing(s) then RetOut else TestIn)
    case RetOut =>
      if s.outp.held.Buffer? && s.flagOut then s.(outp := GiveBack(s.outp), mgr := RetIn) else s.(mgr := RetIn)
    case RetIn =>
      if s.inp.held.Buffer? && s.flagIn then s.(inp := GiveBack(s.inp), mgr := UpAll) else s.(mgr := UpAll)
    case UpAll => s.(flushAll := s.flushAll + 1, mgr := DownCond)
    case DownCond => s.(flushCond := s.flushCond - 1, mgr := Top)
  }

  /** The two waits for buffers. */
  function WaitStep(s: State): State
    requires Waiting(s.mgr) && !MgrBlocked(s)
  {
    match s.mgr
    case TestIn => s.(mgr := if s.inp.held.Nothing? && s.inp.sem == 0 then DownMgmt1 else TestOut)
    case DownMgmt1 => s.(bMgmt := s.bMgmt - 1, mgr := TestOut)
    case TestOut =>
      s.(mgr := if s.outp.held.Nothing? && s.outp.sem == 0 && !Flushing(s) then DownMgmt2 else TestTakeIn)
    case DownMgmt2 => s.(bMgmt := s.bMgmt - 1, mgr := TestTakeIn)
  }

  /** Taking one buffer from each ring that has one, if none is held. */
  function TakeStep(s: State): State
    requires Taking(s.mgr) && !MgrBlocked(s)
  {
    match s.mgr
    case TestTakeIn => s.(mgr := if s.inp.sem > 0 && s.inp.held.Nothing? then DownIn else TestTakeOut)
    case DownIn => s.(inp := DownPort(s.inp), mgr := DeqIn)
    case DeqIn => s.(inp := Take(s.inp), mgr := TestTakeOut)
    case TestTakeOut => s.(mgr := if s.outp.sem > 0 && s.outp.held.Nothing? then DownOut else Process)
    case DownOut => s.(outp := DownPort(s.outp), mgr := DeqOut)
    case DeqOut => s.(outp := Take(s.outp), mgr := Process)
  }

  /** Processing, the waits in Pause, and the returns. */
  function ProcessStep(s: State, choice: bool): State
    requires Processing(s.mgr) && !MgrBlocked(s)
  {
    match s.mgr
    case Process => s.(mgr := if s.inp.held.Buffer? && s.outp.held.Buffer? then TestPause1 else TestPause2)
    case TestPause1 => s.(mgr := if s.comp == Pause && !Flushing(s) then PreSleep1 else RetOutNow)
    case PreSleep1 => s.(mgr := Asleep1)
    case RetOutNow =>
      if choice && s.outp.held.Buffer? then s.(outp := GiveBack(s.outp), mgr := TestPause2) else s.(mgr := TestPause2)
    case TestPause2 => s.(mgr := if s.comp == Pause && !Flushing(s) then PreSleep2 else RetInNow)
    case PreSleep2 => s.(mgr := Asleep2)
    case RetInNow =>
      if choice && s.inp.held.Buffer? then s.(inp := GiveBack(s.inp), mgr := Top) else s.(mgr := Top)
  }

  function MgrStep(s: State, choice: bool): State
    requires !MgrBlocked(s)
  {
    if s.mgr.Top? || InBody(s.mgr) then FlushLoopStep(s)
    else if Waiting(s.mgr) then WaitStep(s)
    else if Taking(s.mgr) then TakeStep(s)
    else ProcessStep(s, choice)
  }

  /** `tsem_signal` on bStateSem: wakes the manager only if it is already waiting. */
  function SignalStateSem(s: State): State {
    match s.mgr
    case Asleep1 => s.(mgr := RetOutNow)
    case Asleep2 => s.(mgr := RetInNow)
    case _ => s
  }

  function Begin(s: State, cmd: Command): State {
    match cmd
    case FlushPort(p) => s.(mode := One, msg := SetFlag(p))
    case FlushAll => s.(mode := All, msg := Preset(In))
    case SetIdle =>
      (match s.comp
       case Executing => s.(mode := ToIdle, msg := SetFlag(In))
       case Pause => SignalStateSem(s.(comp := Idle))
       case _ => s)
    case SetExecuting =>
      (match s.comp
       case Pause => SignalStateSem(s.(comp := Executing))
       case _ => s.(comp := Executing))
    case SetPause => s.(comp := Pause)
  }

  /** What follows once port p is flushed. */
  function AfterFlush(s: State, p: PortId): State {
    match s.mode
    case One => s.(msg := Idling)
    case All => s.(msg := if p == In then SetFlag(Out) else Idling)
    case ToIdle => if p == In then s.(msg := SetFlag(Out)) else s.(msg := Idling, comp := Idle)
  }

  predicate MsgBlocked(s: State) {
    match s.msg
    case WaitAll(p) => s.flushAll == 0
    case DrainDown(p) => Get(s, p).sem == 0
    case DrainNull(p) => true
    case _ => false
  }

  /** Announcing a flush: the flag, and a token if the manager may be waiting. */
  function AnnounceStep(s: State): State
    requires Announcing(s.msg)
  {
    match s.msg
    case Preset(p) => WithFlag(s, p, true).(msg := if p == In then Preset(Out) else SetFlag(In))
    case SetFlag(p) => WithFlag(s, p, true).(msg := TestMgmt(p))
    case TestMgmt(p) => s.(msg := if s.bMgmt == 0 then UpMgmt(p) else SignalState(p))
    case UpMgmt(p) => s.(bMgmt := s.bMgmt + 1, msg := SignalState(p))
    case SignalState(p) => (if s.comp != Executing then SignalStateSem(s) else s).(msg := WaitAll(p))
  }

  /** Emptying the ring of the flushed port. */
  function DrainStep(s: State): State
    requires InDrain(s.msg) && !MsgBlocked(s)
  {
    var p := s.msg.p;
    var q := Get(s, p);
    match s.msg
    case DrainTest(_) => s.(msg := if q.sem > 0 then DrainDown(p) else ClearFlag(p))
    case DrainDown(_) => Put(s, p, DownPort(q)).(msg := DrainDeq(p))
    case DrainDeq(_) =>
      if |q.ring| == 0 then s.(msg := DrainNull(p))
      else Put(s, p, q.(ring := q.ring[1..])).(hand := Buffer(q.ring[0]), msg := DrainRet(p))
    case DrainRet(_) =>
      Put(s, p, q.(client := q.client + 1, returned := q.returned + Hand(s.hand))).(hand := Nothing, msg := DrainTest(p))
  }

  /** Waiting for the manager to park, and letting it go again. */
  function GateStep(s: State): State
    requires Gating(s.msg) && !MsgBlocked(s)
  {
    match s.msg
    case WaitAll(p) => s.(flushAll := s.flushAll - 1, msg := ResetMgmt(p))
    case ResetMgmt(p) => s.(bMgmt := 0, msg := DrainTest(p))
    case ClearFlag(p) => WithFlag(s, p, false).(msg := UpCond(p))
    case UpCond(p) => AfterFlush(s.(flushCond := s.flushCond + 1), p)
  }

  function MsgStep(s: State, cmd: Command): State
    requires !MsgBlocked(s)
  {
    if s.msg.Idling? then Begin(s, cmd)
    else if Announcing(s.msg) then AnnounceStep(s)
    else if InDrain(s.msg) then DrainStep(s)
    else GateStep(s)
  }

  predicate Enabled(s: State, a: Action) {
    match a
    case Mgr(_) => !MgrBlocked(s)
    case Msg(_) => !MsgBlocked(s)
    case SendCheck(p) => Get(s, p).client > 0
    case SendQueue(p, _) => Get(s, p).checked > 0
    case SendUp(p) => Get(s, p).queued > 0
    case SendSignal(p) => Get(s, p).upped > 0
    case Spurious => s.mgr.Asleep1? || s.mgr.Asleep2?
  }

  /** One step of one thread of SendBufferFunction, seen from its port. */
  function Sent(q: Port, a: Action, flushing: bool): Port
    requires IsSend(a)
    requires a.SendCheck? ==> q.client > 0
    requires a.SendQueue? ==> q.checked > 0
    requires a.SendUp? ==> q.queued > 0
    requires a.SendSignal? ==> q.upped > 0
  {
    match a
    case SendCheck(_) =>
      if flushing then q  // refused: the sender keeps the buffer
      else q.(client := q.client - 1, checked := q.checked + 1)
    case SendQueue(_, buf) =>
      q.(checked := q.checked - 1, queued := q.queued + 1, ring := Enqueued(q.ring, buf), arrived := q.arrived + [buf])
    case SendUp(_) => q.(queued := q.queued - 1, upped := q.upped + 1, sem := q.sem + 1)
    case SendSignal(_) => q.(upped := q.upped - 1)
  }

  /** The port is enabled and the component is Idle, Executing or Pause, so only a flush refuses. */
  function SendStep(s: State, a: Action): State
    requires Enabled(s, a) && IsSend(a)
  {
    var q := Sent(Get(s, a.p), a, Flag(s, a.p));
    var bMgmt := if a.SendSignal? then s.bMgmt + 1 else s.bMgmt;
    if a.p == In then s.(inp := q, bMgmt := bMgmt) else s.(outp := q, bMgmt := bMgmt)
  }

  function Step(s: State, a: Action): State
    requires Enabled(s, a)
  {
    match a
    case Mgr(choice) => MgrStep(s, choice)
    case Msg(cmd) => MsgStep(s, cmd)
    case Spurious => SignalStateSem(s)
    case _ => SendStep(s, a)
  }

  predicate InitPort(q: Port) {
    q.total <= RING_SLOTS && q == Port(q.total, q.total, 0, 0, 0, [], 0, Nothing, [], [])
  }

  predicate Init(s: State) {
    && s.comp in {Idle, Executing, Pause}
    && s.mgr == Top && s.msg == Idling && s.hand == Nothing
    && !s.flagIn && !s.flagOut
    && s.bMgmt == s.flushAll == s.flushCond == 0
    && InitPort(s.inp) && InitPort(s.outp)
  }

  /** The actions can be taken one after the other, none of them blocked. */
  predicate CanRun(s: State, acts: seq<Action>)
    decreases |acts|
  {
    acts == [] || (Enabled(s, acts[0]) && CanRun(Step(s, acts[0]), acts[1..]))
  }

  function Run(s: State, acts: seq<Action>): State
    requires CanRun(s, acts)
    decreases |acts|
  {
    if acts == [] then s else Run(Step(s, acts[0]), acts[1..])
  }

  ghost predicate Reachable(s: State) {
    exists s0: State, acts: seq<Action> :: Init(s0) && CanRun(s0, acts) && Run(s0, acts) == s
  }

  // ---------------------------------------------------------------------------
  // The inductive invariant
  // ---------------------------------------------------------------------------

  predicate BeforeUp(m: MgrPc) { m.RetOut? || m.RetIn? || m.UpAll? }
  predicate Draining(m: MsgPc) { m.ResetMgmt? || InDrain(m) || m.ClearFlag? || m.UpCond? }

  /** The port whose flush comes next or is under way. */
  function Current(m: MsgPc): PortId { if m.Idling? || m.Preset? then In else m.p }

  /** The flags are a function of where the message thread is. */
  function FlagFor(m: MsgPc, mode: Mode, p: PortId): bool {
    match m
    case Idling => false
    case Preset(q) => p == In && q == Out
    case SetFlag(q) => mode == All && (p == q || p == Out)
    case UpCond(q) => mode == All && q == In && p == Out
    case _ => p == m.p || (mode == All && p == Out)
  }

  /** A flag is up and the message thread still has to wait for the manager. */
  predicate Owing(s: State) { Flushing(s) && !Draining(s.msg) }

  ghost predicate Handshake(s: State) {
    && s.flagIn == FlagFor(s.msg, s.mode, In)
    && s.flagOut == FlagFor(s.msg, s.mode, Out)
    && (s.msg.Preset? ==> s.mode == All)
    && (InBody(s.mgr) ==> Bit(BeforeUp(s.mgr)) + s.flushAll + s.flushCond + Bit(Draining(s.msg)) == 1)
    && (!InBody(s.mgr) ==> s.flushAll == 0 && s.flushCond == 0 && !Draining(s.msg))
    && (BeforeUp(s.mgr) || s.flushAll == 1 ==> Owing(s))
    && (s.mgr.RetIn? && Current(s.msg) == Out ==> s.outp.held.Nothing?)
    && (s.mgr.UpAll? || s.flushAll == 1 || Draining(s.msg) ==> Get(s, Current(s.msg)).held.Nothing?)
    && (s.hand.Buffer? <==> s.msg.DrainRet?)
  }

  /** Where the manager holds what. */
  predicate Holding(s: State) {
    && (s.mgr.DownMgmt1? || s.mgr.DownIn? || s.mgr.DeqIn? ==> s.inp.held.Nothing?)
    && (s.mgr.DownMgmt2? || s.mgr.DownOut? || s.mgr.DeqOut? ==> s.outp.held.Nothing?)
    && (s.mgr.TestPause1? || s.mgr.PreSleep1? || s.mgr.Asleep1? || s.mgr.RetOutNow? ==> s.outp.held.Buffer?)
  }

  /**
   Every ring entry is covered by a semaphore token or by one of `tokens` threads
   about to use one, and every buffer is somewhere, `hands` of them with the
   message thread.
   */
  predicate Counted(q: Port, tokens: nat, hands: nat) {
    && |q.ring| == q.sem + q.queued + tokens
    && q.client + q.checked + |q.ring| + |Hand(q.held)| + hands == q.total
    && q.total <= RING_SLOTS
  }

  /** How many threads are between `tsem_down` and `dequeue` on port p. */
  function InUse(s: State, p: PortId): nat {
    Bit(s.mgr == if p == In then DeqIn else DeqOut) + Bit(s.msg == DrainDeq(p))
  }

  predicate Tokens(s: State, p: PortId) {
    var q := Get(s, p);
    && Counted(q, InUse(s, p), Bit(s.msg == DrainRet(p)))
    && (s.mgr == (if p == In then DownIn else DownOut) ==> q.sem > 0)
    && (s.msg == DrainDown(p) ==> q.sem > 0)
    && s.msg != DrainNull(p)
  }

  /** A wait on bMgmtSem is covered by tokens for whatever arrived since the test before it. */
  predicate Wakeups(s: State) {
    && (s.mgr.DownMgmt1? ==> s.inp.sem <= s.bMgmt + s.inp.upped)
    && (s.mgr.DownMgmt2? ==> s.outp.sem <= s.bMgmt + s.outp.upped)
    && ((s.msg.SignalState? || s.msg.WaitAll?) && (s.mgr.TestIn? || s.mgr.DownMgmt1? || s.mgr.DownMgmt2?) ==> s.bMgmt > 0)
  }

  /** First in, first out, through whichever thread hands the buffer back. */
  predicate Ordered(s: State, p: PortId) {
    InOrder(Get(s, p), Drained(s, p))
  }

  /** The buffer of port p in the message thread's hand. */
  function Drained(s: State, p: PortId): seq<nat> { if s.msg == DrainRet(p) then Hand(s.hand) else [] }

  predicate InOrder(q: Port, drained: seq<nat>) {
    q.arrived == q.returned + Hand(q.held) + drained + q.ring
  }

  ghost predicate Control(s: State) { Handshake(s) && Holding(s) && Wakeups(s) }

  ghost predicate Inv(s: State) {
    && Control(s)
    && Tokens(s, In) && Tokens(s, Out)
    && Ordered(s, In) && Ordered(s, Out)
  }

  /** A step that hands back at most the manager's buffer, while the message thread's hand is empty. */
  lemma {:induction false} GiveBackKeepsPort(s: State, t: State, p: PortId)
    requires Tokens(s, p) && Ordered(s, p)
    requires var q, r := Get(s, p), Get(t, p); r == q || (q.held.Buffer? && Drained(s, p) == [] && r == GiveBack(q))
    requires t.msg == s.msg && t.hand == s.hand && !Taking(s.mgr) && !t.mgr.DownIn? && !t.mgr.DeqIn? && !t.mgr.DownOut? && !t.mgr.DeqOut?
    ensures Tokens(t, p) && Ordered(t, p)
  {
    assert InUse(t, p) == InUse(s, p) && Drained(t, p) == Drained(s, p);
  }

  lemma {:induction false} FlushLoopKeepsControl(s: State)
    requires Control(s) && (s.mgr.Top? || InBody(s.mgr)) && !MgrBlocked(s)
    ensures Control(FlushLoopStep(s))
  {}

  lemma {:induction false} FlushLoopKeepsPort(s: State, p: PortId)
    requires Control(s) && Tokens(s, p) && Ordered(s, p) && (s.mgr.Top? || InBody(s.mgr)) && !MgrBlocked(s)
    ensures Tokens(FlushLoopStep(s), p) && Ordered(FlushLoopStep(s), p)
  {
    GiveBackKeepsPort(s, FlushLoopStep(s), p);
  }

  lemma {:induction false} WaitKeepsControl(s: State)
    requires Control(s) && Waiting(s.mgr) && !MgrBlocked(s)
    ensures Control(WaitStep(s))
  {}

  lemma {:induction false} WaitKeepsPort(s: State, p: PortId)
    requires Control(s) && Tokens(s, p) && Ordered(s, p) && Waiting(s.mgr) && !MgrBlocked(s)
    ensures Tokens(WaitStep(s), p) && Ordered(WaitStep(s), p)
  {
    assert Get(WaitStep(s), p) == Get(s, p);
  }

  lemma {:induction false} TakeKeepsControl(s: State)
    requires Control(s) && Taking(s.mgr) && !MgrBlocked(s)
    ensures Control(TakeStep(s))
  {}

  lemma {:induction false} TakeKeepsTokens(s: State, p: PortId)
    requires Control(s) && Tokens(s, p) && Taking(s.mgr) && !MgrBlocked(s)
    ensures Tokens(TakeStep(s), p)
  {}

  lemma {:induction false} TakeKeepsOrder(s: State, p: PortId)
    requires Control(s) && Ordered(s, p) && Taking(s.mgr) && !MgrBlocked(s)
    ensures Ordered(TakeStep(s), p)
  {
    var q, r := Get(s, p), Get(TakeStep(s), p);
    assert r == q || (q.sem > 0 && r == DownPort(q)) || (q.held.Nothing? && r == Take(q));
  }

  lemma {:induction false} ProcessKeepsControl(s: State, choice: bool)
    requires Control(s) && Processing(s.mgr) && !MgrBlocked(s)
    ensures Control(ProcessStep(s, choice))
  {}

  lemma {:induction false} ProcessKeepsPort(s: State, p: PortId, choice: bool)
    requires Control(s) && Tokens(s, p) && Ordered(s, p) && Processing(s.mgr) && !MgrBlocked(s)
    ensures Tokens(ProcessStep(s, choice), p) && Ordered(ProcessStep(s, choice), p)
  {
    var q, t := Get(s, p), ProcessStep(s, choice);
    assert t == s.(inp := t.inp, outp := t.outp, mgr := t.mgr) && (Get(t, p) == q || (q.held.Buffer? && Get(t, p) == GiveBack(q)));
    GiveBackKeepsPort(s, t, p);
  }

  lemma {:induction false} BeginKeepsControl(s: State, cmd: Command)
    requires Control(s) && s.msg.Idling?
    ensures Control(Begin(s, cmd))
  {}

  lemma {:induction false} BeginKeepsPort(s: State, p: PortId, cmd: Command)
    requires Control(s) && Tokens(s, p) && Ordered(s, p) && s.msg.Idling?
    ensures Tokens(Begin(s, cmd), p) && Ordered(Begin(s, cmd), p)
  {
    assert Get(Begin(s, cmd), p) == Get(s, p);
  }

  lemma {:induction false} AnnounceKeepsControl(s: State)
    requires Control(s) && Announcing(s.msg) && !s.msg.SignalState?
    ensures Control(AnnounceStep(s))
  {
    var t := AnnounceStep(s);
    assert t.inp == s.inp && t.outp == s.outp && t.hand == s.hand && t.mgr == s.mgr;
  }

  lemma {:induction false} SignalKeepsControl(s: State)
    requires Control(s) && s.msg.SignalState?
    ensures Control(AnnounceStep(s))
  {}

  lemma {:induction false} AnnounceKeepsPort(s: State, p: PortId)
    requires Control(s) && Tokens(s, p) && Ordered(s, p) && Announcing(s.msg)
    ensures Tokens(AnnounceStep(s), p) && Ordered(AnnounceStep(s), p)
  {
    assert Get(AnnounceStep(s), p) == Get(s, p);
  }

  lemma {:induction false} DrainKeepsControl(s: State)
    requires Control(s) && InDrain(s.msg) && !MsgBlocked(s)
    ensures Control(DrainStep(s))
  {}

  lemma {:induction false} DrainKeepsTokens(s: State, p: PortId)
    requires Control(s) && Tokens(s, p) && InDrain(s.msg) && !MsgBlocked(s)
    ensures Tokens(DrainStep(s), p)
  {
    if p == s.msg.p {
      var q, t := Get(s, p), DrainStep(s);
      if s.msg.DrainDeq? {
        assert q.ring == [q.ring[0]] + q.ring[1..];
      }
    } else {
      assert Get(DrainStep(s), p) == Get(s, p);
    }
  }

  /** What the drain does to the port drained: one buffer goes from the ring through the hand to the client. */
  lemma DrainMoves(s: State)
    requires InDrain(s.msg) && !MsgBlocked(s) && Control(s) && Tokens(s, s.msg.p)
    ensures var q, t := Get(s, s.msg.p), DrainStep(s);
            var r := Get(t, s.msg.p);
            && (s.msg.DrainTest? ==> r == q)
            && (s.msg.DrainDown? ==> r == DownPort(q))
            && (s.msg.DrainDeq? ==> q.ring != [] && r == q.(ring := q.ring[1..]) && t.hand == Buffer(q.ring[0]) && t.msg.DrainRet?)
            && (s.msg.DrainRet? ==> q.held.Nothing? && r == q.(client := q.client + 1, returned := q.returned + Hand(s.hand)))
  {}

  /** A buffer taken from the ring into the hand, or handed back from there, keeps its turn. */
  lemma MovesInOrder(q: Port, r: Port, hand: seq<nat>, hand': seq<nat>)
    requires InOrder(q, hand) && r.arrived == q.arrived && r.held == q.held
    requires || (hand' == hand && r.ring == q.ring && r.returned == q.returned)
             || (hand == [] && q.ring != [] && hand' == [q.ring[0]] && r.ring == q.ring[1..] && r.returned == q.returned)
             || (hand' == [] && q.held.Nothing? && r.ring == q.ring && r.returned == q.returned + hand)
    ensures InOrder(r, hand')
  {}

  lemma {:induction false} DrainKeepsOrder(s: State, p: PortId)
    requires Control(s) && Tokens(s, p) && Ordered(s, p) && InDrain(s.msg) && !MsgBlocked(s)
    ensures Ordered(DrainStep(s), p)
  {
    var t := DrainStep(s);
    if p == s.msg.p {
      DrainMoves(s);
      MovesInOrder(Get(s, p), Get(t, p), Drained(s, p), Drained(t, p));
    } else {
      assert Get(t, p) == Get(s, p);
    }
  }

  lemma {:induction false} GateKeepsControl(s: State)
    requires Control(s) && Gating(s.msg) && !MsgBlocked(s)
    ensures Control(GateStep(s))
  {}

  lemma {:induction false} GateKeepsPort(s: State, p: PortId)
    requires Control(s) && Tokens(s, p) && Ordered(s, p) && Gating(s.msg) && !MsgBlocked(s)
    ensures Tokens(GateStep(s), p) && Ordered(GateStep(s), p)
  {
    assert Get(GateStep(s), p) == Get(s, p);
  }

  lemma {:induction false} SentKeepsPort(q: Port, a: Action, flushing: bool, tokens: nat, hands: nat, drained: seq<nat>)
    requires IsSend(a)
    requires a.SendCheck? ==> q.client > 0
    requires a.SendQueue? ==> q.checked > 0
    requires a.SendUp? ==> q.queued > 0
    requires a.SendSignal? ==> q.upped > 0
    requires Counted(q, tokens, hands) && InOrder(q, drained)
    ensures var r := Sent(q, a, flushing);
            Counted(r, tokens, hands) && InOrder(r, drained) && r.sem >= q.sem && r.held == q.held
  {}

  lemma {:induction false} SendKeepsControl(s: State, a: Action)
    requires Control(s) && IsSend(a) && Enabled(s, a)
    ensures Control(SendStep(s, a))
  {
    var q, r, t := Get(s, a.p), Sent(Get(s, a.p), a, Flag(s, a.p)), SendStep(s, a);
    assert t == s.(inp := t.inp, outp := t.outp, bMgmt := t.bMgmt) && t.bMgmt >= s.bMgmt;
    assert r.held == q.held && r.sem - q.sem == Bit(a.SendUp?) && r.upped - q.upped == Bit(a.SendUp?) - Bit(a.SendSignal?);
  }

  lemma {:induction false} SendKeepsPort(s: State, p: PortId, a: Action)
    requires Tokens(s, p) && Ordered(s, p) && IsSend(a) && Enabled(s, a)
    ensures Tokens(SendStep(s, a), p) && Ordered(SendStep(s, a), p)
  {
    var q, t := Get(s, p), SendStep(s, a);
    if a.p == p {
      var r := Sent(q, a, Flag(s, p));
      assert Get(t, p) == r;
      SentKeepsPort(q, a, Flag(s, p), InUse(s, p), Bit(s.msg == DrainRet(p)), Drained(s, p));
      assert r.sem >= q.sem && Counted(r, InUse(s, p), Bit(s.msg == DrainRet(p))) && InOrder(r, Drained(s, p));
    } else {
      assert Get(t, p) == q;
    }
    assert InUse(t, p) == InUse(s, p) && Drained(t, p) == Drained(s, p) && t.msg == s.msg && t.mgr == s.mgr;
  }

  lemma {:induction false} WakeKeepsControl(s: State)
    requires Control(s)
    ensures Control(SignalStateSem(s))
  {}

  lemma {:induction false} WakeKeepsPort(s: State, p: PortId)
    requires Tokens(s, p) && Ordered(s, p)
    ensures Tokens(SignalStateSem(s), p) && Ordered(SignalStateSem(s), p)
  {
    var t := SignalStateSem(s);
    assert Get(t, p) == Get(s, p) && InUse(t, p) == InUse(s, p) && Drained(t, p) == Drained(s, p);
  }

  lemma {:induction false} InvKept(s: State, a: Action)
    requires Inv(s) && Enabled(s, a)
    ensures Inv(Step(s, a))
  {
    match a {
      case Mgr(choice) =>
        if s.mgr.Top? || InBody(s.mgr) {
          FlushLoopKeepsControl(s);
          FlushLoopKeepsPort(s, In);
          FlushLoopKeepsPort(s, Out);
        } else if Waiting(s.mgr) {
          WaitKeepsControl(s);
          WaitKeepsPort(s, In);
          WaitKeepsPort(s, Out);
        } else if Taking(s.mgr) {
          TakeKeepsControl(s);
          TakeKeepsTokens(s, In);
          TakeKeepsOrder(s, In);
          TakeKeepsTokens(s, Out);
          TakeKeepsOrder(s, Out);
        } else {
          ProcessKeepsControl(s, choice);
          ProcessKeepsPort(s, In, choice);
          ProcessKeepsPort(s, Out, choice);
        }
      case Msg(cmd) =>
        if s.msg.Idling? {
          BeginKeepsControl(s, cmd);
          BeginKeepsPort(s, In, cmd);
          BeginKeepsPort(s, Out, cmd);
        } else if Announcing(s.msg) {
          if s.msg.SignalState? {
            SignalKeepsControl(s);
          } else {
            AnnounceKeepsControl(s);
          }
          AnnounceKeepsPort(s, In);
          AnnounceKeepsPort(s, Out);
        } else if InDrain(s.msg) {
          DrainKeepsControl(s);
          DrainKeepsTokens(s, In);
          DrainKeepsOrder(s, In);
          DrainKeepsTokens(s, Out);
          DrainKeepsOrder(s, Out);
        } else {
          GateKeepsControl(s);
          GateKeepsPort(s, In);
          GateKeepsPort(s, Out);
        }
      case Spurious =>
        WakeKeepsControl(s);
        WakeKeepsPort(s, In);
        WakeKeepsPort(s, Out);
      case _ =>
        SendKeepsControl(s, a);
        SendKeepsPort(s, In, a);
        SendKeepsPort(s, Out, a);
    }
  }

  lemma {:induction false} InvHolds(s: State, acts: seq<Action>)
    requires Inv(s) && CanRun(s, acts)
    ensures Inv(Run(s, acts))
    decreases |acts|
  {
    if acts == [] {
    } else {
      InvKept(s, acts[0]);
      InvHolds(Step(s, acts[0]), acts[1..]);
    }
  }

  lemma ReachableInv(s: State)
    requires Reachable(s)
    ensures Inv(s)
  {
    var s0: State, acts: seq<Action> :| Init(s0) && CanRun(s0, acts) && Run(s0, acts) == s;
    InvHolds(s0, acts);
  }

  lemma {:induction false} RunSnoc(s: State, acts: seq<Action>, a: Action)
    requires CanRun(s, acts) && Enabled(Run(s, acts), a)
    ensures CanRun(s, acts + [a]) && Run(s, acts + [a]) == Step(Run(s, acts), a)
    decreases |acts|
  {
    if acts == [] {
      assert acts + [a] == [a];
    } else {
      assert (acts + [a])[1..] == acts[1..] + [a];
      RunSnoc(Step(s, acts[0]), acts[1..], a);
    }
  }

  lemma ReachStep(s: State, a: Action, t: State)
    requires Reachable(s) && Enabled(s, a) && Step(s, a) == t
    ensures Reachable(t)
  {
    var s0: State, acts: seq<Action> :| Init(s0) && CanRun(s0, acts) && Run(s0, acts) == s;
    RunSnoc(s0, acts, a);
  }

  // ---------------------------------------------------------------------------
  // Mutual exclusion
  // ---------------------------------------------------------------------------

  /** The two handshake semaphores never hold more than one token between them. */
  lemma MutualExclusion(s: State)
    requires Reachable(s)
    ensures s.flushAll + s.flushCond <= 1
  {
    ReachableInv(s);
  }

  /** While the message thread empties port p, the manager is parked and holds no buffer of p. */
  lemma DrainIsExclusive(s: State)
    requires Reachable(s) && Draining(s.msg)
    ensures s.mgr.DownCond? && MgrBlocked(s) && Get(s, s.msg.p).held.Nothing?
  {
    ReachableInv(s);
  }

  /**
   A port semaphore seen positive is still positive at the `tsem_down` that follows,
   in either thread, and the dequeue after it always finds a buffer.
   */
  lemma PortDownNeverBlocks(s: State)
    requires Reachable(s)
    ensures s.mgr.DownIn? || s.mgr.DownOut? ==> !MgrBlocked(s)
    ensures s.mgr.DeqIn? ==> s.inp.ring != []
    ensures s.mgr.DeqOut? ==> s.outp.ring != []
    ensures s.msg.DrainDown? ==> !MsgBlocked(s)
    ensures s.msg.DrainDeq? ==> Get(s, s.msg.p).ring != []
    ensures !s.msg.DrainNull?
  {
    ReachableInv(s);
  }

  // ---------------------------------------------------------------------------
  // Order and completeness
  // ---------------------------------------------------------------------------

  /**
   Nothing is lost, duplicated or reordered: what arrived at a port is what was
   handed back, then the manager's buffer, then the message thread's, then the ring.
   */
  lemma BuffersComeBackInOrder(s: State, p: PortId)
    requires Reachable(s)
    ensures var q := Get(s, p); q.arrived == q.returned + Hand(q.held) + Drained(s, p) + q.ring
    ensures |Get(s, p).ring| <= RING_SLOTS
  {
    ReachableInv(s);
  }

  /**
   When a flush stops emptying its port, everything that arrived has been handed
   back, in order, except the buffers of senders that passed the flag test before
   the flush and have not raised the semaphore yet.
   */
  lemma FlushOutcome(s: State)
    requires Reachable(s) && s.msg.DrainTest? && MsgStep(s, SetIdle).msg.ClearFlag?
    ensures var q := Get(s, s.msg.p); q.arrived == q.returned + q.ring && |q.ring| == q.queued
  {
    ReachableInv(s);
  }

  /** How many steps the message thread can still take before it leaves the drain loop. */
  function DrainRank(s: State): nat
    requires InDrain(s.msg)
  {
    var q := Get(s, s.msg.p);
    4 * (|q.ring| + q.checked) + match s.msg
      case DrainTest(_) => 3
      case DrainDown(_) => 2
      case DrainDeq(_) => 1
      case DrainRet(_) => 4
      case DrainNull(_) => 0
  }

  function CountMsg(acts: seq<Action>): nat {
    if acts == [] then 0 else Bit(acts[0].Msg?) + CountMsg(acts[1..])
  }

  /** The whole run stays in the drain loop. */
  predicate StaysInDrain(s: State, acts: seq<Action>)
    requires CanRun(s, acts)
    decreases |acts|
  {
    InDrain(s.msg) && (acts == [] || StaysInDrain(Step(s, acts[0]), acts[1..]))
  }

  lemma {:induction false} MsgRankFalls(s: State)
    requires InDrain(s.msg) && !MsgBlocked(s) && InDrain(DrainStep(s).msg)
    ensures DrainRank(DrainStep(s)) < DrainRank(s)
  {}

  lemma {:induction false} SendRankKept(s: State, a: Action)
    requires InDrain(s.msg) && Flag(s, s.msg.p)
    requires |Get(s, s.msg.p).ring| < RING_SLOTS || Get(s, s.msg.p).checked == 0
    requires IsSend(a) && Enabled(s, a)
    ensures SendStep(s, a).msg == s.msg && DrainRank(SendStep(s, a)) == DrainRank(s)
  {
    var p := s.msg.p;
    var q, r := Get(s, p), Get(SendStep(s, a), p);
    assert r == if a.p == p then Sent(q, a, true) else q;
    assert |r.ring| + r.checked == |q.ring| + q.checked;
  }

  lemma {:induction false} DrainRankFalls(s: State, a: Action)
    requires Inv(s) && InDrain(s.msg) && Enabled(s, a) && InDrain(Step(s, a).msg)
    ensures DrainRank(Step(s, a)) + Bit(a.Msg?) <= DrainRank(s)
  {
    if a.Msg? {
      MsgRankFalls(s);
    } else if IsSend(a) {
      SendRankKept(s, a);
    }
  }

  lemma {:induction false} DrainStepsBounded(s: State, acts: seq<Action>)
    requires Inv(s) && CanRun(s, acts) && StaysInDrain(s, acts)
    ensures InDrain(Run(s, acts).msg) && CountMsg(acts) + DrainRank(Run(s, acts)) <= DrainRank(s)
    decreases |acts|
  {
    if acts == [] {
    } else {
      var t := Step(s, acts[0]);
      InvKept(s, acts[0]);
      assert InDrain(t.msg);
      DrainRankFalls(s, acts[0]);
      DrainStepsBounded(t, acts[1..]);
    }
  }

  /**
   The drain loop ends whatever the senders do, a callback that submits its buffer
   again included: the flag refuses every send not already under way.
   */
  lemma DrainTerminates(s: State, acts: seq<Action>)
    requires Reachable(s) && CanRun(s, acts) && StaysInDrain(s, acts)
    ensures CountMsg(acts) <= 4 * (|Get(s, s.msg.p).ring| + Get(s, s.msg.p).checked) + 4
  {
    ReachableInv(s);
    DrainStepsBounded(s, acts);
  }

  // ---------------------------------------------------------------------------
  // Wake-ups
  // ---------------------------------------------------------------------------

  /**
   A manager blocked on bMgmtSem has missed nothing: every buffer in the ring it
   waits for belongs to a sender that has yet to raise bMgmtSem, and no flush is
   waiting for it.
   */
  lemma NoLostWakeup(s: State)
    requires Reachable(s) && MgrBlocked(s)
    ensures s.mgr.DownMgmt1? ==> |s.inp.ring| <= s.inp.queued + s.inp.upped
    ensures s.mgr.DownMgmt2? ==> |s.outp.ring| <= s.outp.queued + s.outp.upped
    ensures s.mgr.DownMgmt1? || s.mgr.DownMgmt2? ==> !s.msg.WaitAll? && !Draining(s.msg)
  {
    ReachableInv(s);
  }

  /** What a step adds to bMgmtSem: senders and flushes raise it, the manager takes one, a flush clears it. */
  function MgmtChange(s: State, a: Action): int {
    match a
    case SendSignal(_) => 1
    case Msg(_) => if s.msg.UpMgmt? then 1 else if s.msg.ResetMgmt? then 0 - s.bMgmt as int else 0
    case Mgr(_) => if s.mgr.DownMgmt1? || s.mgr.DownMgmt2? then -1 else 0
    case _ => 0
  }

  function MgmtBalance(s: State, acts: seq<Action>): int
    requires CanRun(s, acts)
    decreases |acts|
  {
    if acts == [] then 0 else MgmtChange(s, acts[0]) + MgmtBalance(Step(s, acts[0]), acts[1..])
  }

  lemma MgrMgmt(s: State, choice: bool)
    requires !MgrBlocked(s)
    ensures MgrStep(s, choice).bMgmt == s.bMgmt + MgmtChange(s, Mgr(choice))
  {}

  lemma MsgMgmt(s: State, cmd: Command)
    requires !MsgBlocked(s)
    ensures MsgStep(s, cmd).bMgmt == s.bMgmt + MgmtChange(s, Msg(cmd))
  {}

  lemma MgmtStep(s: State, a: Action)
    requires Enabled(s, a)
    ensures Step(s, a).bMgmt == s.bMgmt + MgmtChange(s, a)
  {
    match a
    case Mgr(choice) => MgrMgmt(s, choice);
    case Msg(cmd) => MsgMgmt(s, cmd);
    case _ =>
  }

  /** No unit of bMgmtSem is made or lost otherwise. */
  lemma {:induction false} MgmtIsConserved(s: State, acts: seq<Action>)
    requires CanRun(s, acts)
    ensures Run(s, acts).bMgmt == s.bMgmt + MgmtBalance(s, acts)
    decreases |acts|
  {
    if acts != [] {
      MgmtStep(s, acts[0]);
      MgmtIsConserved(Step(s, acts[0]), acts[1..]);
    }
  }

  /**
   One turn after the takes, outside Pause, the callback having filled and consumed
   what it got: an input and an output in hand both go back, in five steps.
   */
  lemma BothGoBack(s: State, acts: seq<Action>)
    requires s.mgr.Process? && s.inp.held.Buffer? && s.outp.held.Buffer? && s.comp != Pause
    requires acts == [Mgr(true), Mgr(true), Mgr(true), Mgr(true), Mgr(true)]
    ensures CanRun(s, acts) && Run(s, acts).mgr == Top
    ensures Run(s, acts).outp.returned == s.outp.returned + [s.outp.held.buf]
    ensures Run(s, acts).inp.returned == s.inp.returned + [s.inp.held.buf]
    ensures Run(s, acts).outp.held.Nothing? && Run(s, acts).inp.held.Nothing?
  {
    assert Step(s, Mgr(true)) == s.(mgr := TestPause1);
    OutputGoesBack(s.(mgr := TestPause1), [Mgr(true), Mgr(true), Mgr(true), Mgr(true)]);
    OneRun(s, Mgr(true), [Mgr(true), Mgr(true), Mgr(true), Mgr(true)], acts);
  }

  lemma OneRun(s: State, a: Action, rest: seq<Action>, acts: seq<Action>)
    requires Enabled(s, a) && CanRun(Step(s, a), rest) && acts == [a] + rest
    ensures CanRun(s, acts) && Run(s, acts) == Run(Step(s, a), rest)
  {
    assert acts[0] == a && acts[1..] == rest;
  }

  lemma OutputGoesBack(s: State, acts: seq<Action>)
    requires s.mgr.TestPause1? && s.outp.held.Buffer? && s.inp.held.Buffer? && s.comp != Pause
    requires acts == [Mgr(true), Mgr(true), Mgr(true), Mgr(true)]
    ensures CanRun(s, acts) && Run(s, acts) == s.(outp := GiveBack(s.outp), inp := GiveBack(s.inp), mgr := Top)
  {
    var t := s.(mgr := RetOutNow);
    var u := t.(outp := GiveBack(t.outp), mgr := TestPause2);
    assert Step(s, Mgr(true)) == t && Step(t, Mgr(true)) == u;
    InputGoesBack(u, [Mgr(true), Mgr(true)]);
    OneRun(t, Mgr(true), [Mgr(true), Mgr(true)], [Mgr(true), Mgr(true), Mgr(true)]);
    OneRun(s, Mgr(true), [Mgr(true), Mgr(true), Mgr(true)], acts);
  }

  lemma InputGoesBack(s: State, acts: seq<Action>)
    requires s.mgr.TestPause2? && s.comp != Pause && acts == [Mgr(true), Mgr(true)]
    ensures CanRun(s, acts)
    ensures Run(s, acts) == if s.inp.held.Buffer? then s.(inp := GiveBack(s.inp), mgr := Top) else s.(mgr := Top)
  {
    var t := s.(mgr := RetInNow);
    var u := if s.inp.held.Buffer? then s.(inp := GiveBack(s.inp), mgr := Top) else s.(mgr := Top);
    assert Step(s, Mgr(true)) == t && Step(t, Mgr(true)) == u;
    assert CanRun(u, []) && Run(u, []) == u;
    OneRun(t, Mgr(true), [], [Mgr(true)]);
    OneRun(s, Mgr(true), [Mgr(true)], acts);
  }

  /** Without an output in hand nothing is processed, and an input that was empty goes back by itself, in three steps. */
  lemma OnlyInputGoesBack(s: State, acts: seq<Action>)
    requires s.mgr.Process? && (s.inp.held.Nothing? || s.outp.held.Nothing?) && s.comp != Pause
    requires acts == [Mgr(true), Mgr(true), Mgr(true)]
    ensures CanRun(s, acts)
    ensures Run(s, acts) == if s.inp.held.Buffer? then s.(inp := GiveBack(s.inp), mgr := Top) else s.(mgr := Top)
  {
    assert Step(s, Mgr(true)) == s.(mgr := TestPause2);
    InputGoesBack(s.(mgr := TestPause2), [Mgr(true), Mgr(true)]);
    OneRun(s, Mgr(true), [Mgr(true), Mgr(true)], acts);
  }

  /** How many steps the manager needs at most before it answers a waiting flush. */
  function AnswerRank(m: MgrPc): nat {
    match m
    case TestIn => 19 case DownMgmt1 => 18 case TestOut => 17 case DownMgmt2 => 16
    case TestTakeIn => 15 case DownIn => 14 case DeqIn => 13
    case TestTakeOut => 12 case DownOut => 11 case DeqOut => 10
    case Process => 9 case TestPause1 => 8 case RetOutNow => 7 case TestPause2 => 6 case RetInNow => 5
    case DownCond => 5 case Top => 4 case RetOut => 3 case RetIn => 2 case UpAll => 1
    case PreSleep1 => 20 case Asleep1 => 20 case PreSleep2 => 20 case Asleep2 => 20
  }

  predicate Sleepy(m: MgrPc) { m.PreSleep1? || m.Asleep1? || m.PreSleep2? || m.Asleep2? }

  /** A flush announced and not yet answered. */
  predicate Unanswered(s: State) { s.msg.WaitAll? && s.flushAll == 0 }

  /** Exactly when an unanswered flush finds the manager unable to move: asleep on bStateSem. */
  lemma FlushFindsManagerAwake(s: State)
    requires Reachable(s) && Unanswered(s)
    ensures MgrBlocked(s) <==> s.mgr.Asleep1? || s.mgr.Asleep2?
  {
    ReachableInv(s);
  }

  function CountMgr(acts: seq<Action>): nat {
    if acts == [] then 0 else Bit(acts[0].Mgr?) + CountMgr(acts[1..])
  }

  /** One manager step from s to t brings the answer nearer, or is the answer. */
  predicate Nearer(s: State, t: State) {
    && t.msg == s.msg && !Sleepy(t.mgr)
    && (t.flushAll == s.flushAll + 1 || (t.flushAll == s.flushAll && AnswerRank(t.mgr) < AnswerRank(s.mgr)))
  }

  lemma {:induction false} FlushLoopNearer(s: State)
    requires Flushing(s) && (s.mgr.Top? || InBody(s.mgr)) && !MgrBlocked(s)
    ensures Nearer(s, FlushLoopStep(s))
  {}

  lemma {:induction false} WaitNearer(s: State)
    requires Flushing(s) && Waiting(s.mgr) && !MgrBlocked(s)
    ensures Nearer(s, WaitStep(s))
  {}

  lemma {:induction false} TakeNearer(s: State)
    requires Flushing(s) && Taking(s.mgr) && !MgrBlocked(s)
    ensures Nearer(s, TakeStep(s))
  {}

  lemma {:induction false} ProcessNearer(s: State, choice: bool)
    requires Flushing(s) && Processing(s.mgr) && !Sleepy(s.mgr) && !MgrBlocked(s)
    ensures Nearer(s, ProcessStep(s, choice))
  {}

  lemma {:induction false} MgrRankFalls(s: State, choice: bool)
    requires Flushing(s) && !Sleepy(s.mgr) && !MgrBlocked(s)
    ensures Nearer(s, MgrStep(s, choice))
  {
    if s.mgr.Top? || InBody(s.mgr) {
      FlushLoopNearer(s);
    } else if Waiting(s.mgr) {
      WaitNearer(s);
    } else if Taking(s.mgr) {
      TakeNearer(s);
    } else {
      ProcessNearer(s, choice);
    }
  }

  lemma {:induction false} AnswerRankFalls(s: State, a: Action)
    requires Control(s) && Unanswered(s) && !Sleepy(s.mgr) && Enabled(s, a)
    ensures var t := Step(s, a);
            if Unanswered(t) then !Sleepy(t.mgr) && AnswerRank(t.mgr) + Bit(a.Mgr?) <= AnswerRank(s.mgr)
            else t.msg == s.msg && t.flushAll == 1
  {
    if a.Mgr? {
      MgrRankFalls(s, a.choice);
    } else {
      assert IsSend(a) && Step(s, a) == SendStep(s, a);
    }
  }

  lemma AnswerRankBound(m: MgrPc)
    requires !Sleepy(m)
    ensures AnswerRank(m) <= 19
  {}

  /** Every interleaving of the manager with the senders answers the flush, unless the manager was on its way to sleep. */
  lemma FlushIsAnswered(s: State, acts: seq<Action>)
    requires Reachable(s) && Unanswered(s) && !Sleepy(s.mgr) && CanRun(s, acts)
    requires CountMgr(acts) >= 19
    ensures exists k :: 0 <= k <= |acts| && CanRun(s, acts[..k]) && Run(s, acts[..k]).flushAll == 1
  {
    ReachableInv(s);
    AnswerRankBound(s.mgr);
    FlushIsAnsweredWithin(s, acts);
  }

  lemma OneStepMore(s: State, acts: seq<Action>, k: nat)
    requires k < |acts| && Enabled(s, acts[0]) && CanRun(Step(s, acts[0]), acts[1..][..k])
    ensures CanRun(s, acts[..k + 1]) && Run(s, acts[..k + 1]) == Run(Step(s, acts[0]), acts[1..][..k])
  {
    assert acts[..k + 1][1..] == acts[1..][..k];
  }

  lemma {:induction false} FlushIsAnsweredWithin(s: State, acts: seq<Action>)
    requires Inv(s) && Unanswered(s) && !Sleepy(s.mgr) && CanRun(s, acts)
    requires CountMgr(acts) >= AnswerRank(s.mgr)
    ensures exists k :: 0 <= k <= |acts| && CanRun(s, acts[..k]) && Run(s, acts[..k]).flushAll == 1
    decreases |acts|
  {
    var t := Step(s, acts[0]);
    AnswerRankFalls(s, acts[0]);
    InvKept(s, acts[0]);
    if Unanswered(t) {
      FlushIsAnsweredWithin(t, acts[1..]);
      var k :| 0 <= k <= |acts| - 1 && CanRun(t, acts[1..][..k]) && Run(t, acts[1..][..k]).flushAll == 1;
      OneStepMore(s, acts, k);
    } else {
      OneStepMore(s, acts, 0);
    }
  }

  // ---------------------------------------------------------------------------
  // When a flush is answered
  // ---------------------------------------------------------------------------

  predicate NoSpurious(acts: seq<Action>) { forall i :: 0 <= i < |acts| ==> acts[i] != Spurious }

  /** A manager that sleeps, or is about to, and a flush that waits for it: they wait for ever. */
  lemma {:induction false} HungForever(s: State, acts: seq<Action>)
    requires Unanswered(s) && Sleepy(s.mgr) && CanRun(s, acts) && NoSpurious(acts)
    ensures Unanswered(Run(s, acts)) && Sleepy(Run(s, acts).mgr)
    decreases |acts|
  {
    if acts == [] {
    } else {
      assert acts[0] != Spurious;
      HungForever(Step(s, acts[0]), acts[1..]);
    }
  }

  lemma AwakeStep(s: State)
    requires Inv(s) && Unanswered(s) && !Sleepy(s.mgr)
    ensures !MgrBlocked(s) && Inv(MgrStep(s, false)) && Nearer(s, MgrStep(s, false))
  {
    assert Flushing(s) && !MgrBlocked(s);
    MgrRankFalls(s, false);
    InvKept(s, Mgr(false));
  }

  lemma {:induction false} AnswerAwake(s: State) returns (acts: seq<Action>)
    requires Inv(s) && Unanswered(s) && !Sleepy(s.mgr)
    ensures CanRun(s, acts) && NoSpurious(acts) && Run(s, acts).flushAll == 1
    decreases AnswerRank(s.mgr)
  {
    AwakeStep(s);
    var t := MgrStep(s, false);
    var rest := [];
    if t.flushAll != 1 {
      rest := AnswerAwake(t);
    }
    acts := [Mgr(false)] + rest;
    assert acts[1..] == rest;
  }

  /** The run goes from s to an answer of its flush. */
  predicate Answers(s: State, acts: seq<Action>) { CanRun(s, acts) && Run(s, acts).flushAll == 1 }

  /** Exactly when a waiting flush can still be answered, no wait ending for no reason: unless the manager sleeps or is about to. */
  lemma AnswerableExactly(s: State)
    requires Reachable(s) && Unanswered(s)
    ensures (exists acts :: Answers(s, acts) && NoSpurious(acts)) <==> !Sleepy(s.mgr)
  {
    ReachableInv(s);
    if Sleepy(s.mgr) {
      forall acts | CanRun(s, acts) && NoSpurious(acts) ensures !Answers(s, acts) { HungForever(s, acts); }
    } else {
      var acts := AnswerAwake(s);
      assert Answers(s, acts);
    }
  }

  lemma Woken(s: State)
    requires s.mgr.Asleep1? || s.mgr.Asleep2?
    ensures var t := SignalStateSem(s); !Sleepy(t.mgr) && t.msg == s.msg && t.flushAll == s.flushAll
  {}

  /** One spurious wake-up is enough to answer it all the same. */
  lemma SpuriousWakeAnswers(s: State) returns (acts: seq<Action>)
    requires Reachable(s) && Unanswered(s) && (s.mgr.Asleep1? || s.mgr.Asleep2?)
    ensures NoSpurious(acts) && Answers(s, [Spurious] + acts)
  {
    var t := Step(s, Spurious);
    ReachStep(s, Spurious, t);
    ReachableInv(t);
    Woken(s);
    acts := AnswerAwake(t);
    assert ([Spurious] + acts)[1..] == acts;
  }

  /**
   Exactly what wakes a manager asleep on bStateSem: a command that leaves Pause, the
   signal of a flush in any state but Executing, or no reason at all.
   */
  lemma WokenExactly(s: State, a: Action)
    requires (s.mgr.Asleep1? || s.mgr.Asleep2?) && Enabled(s, a)
    ensures !(Step(s, a).mgr.Asleep1? || Step(s, a).mgr.Asleep2?) <==>
              || a == Spurious
              || (a.Msg? && s.msg.Idling? && s.comp == Pause && a.cmd in {SetExecuting, SetIdle})
              || (a.Msg? && s.msg.SignalState? && s.comp != Executing)
    ensures Step(s, a).mgr == s.mgr || Step(s, a).mgr == if s.mgr.Asleep1? then RetOutNow else RetInNow
  {
    match a
    case Msg(cmd) =>
      if s.msg.Idling? { assert MsgStep(s, cmd) == Begin(s, cmd); }
    case Mgr(_) => assert false;
    case _ =>
  }

  /** A flush that waits for a manager asleep on bStateSem. */
  predicate Hung(s: State) { Unanswered(s) && (s.mgr.Asleep1? || s.mgr.Asleep2?) }
}
