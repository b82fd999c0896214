/**
 Which tunnels can come to dequeue NULL: the runs of TunnelExchange, by the commands
 the client gives the supplier.
 */
module TunnelLimits {
  import opened Basics
  import opened TunnelExchange

  /** Which commands a client gives the supplier: any, none to Pause, or besides no flush in Idle. */
  datatype Rule = AnyCommand | NoPause | NoPauseNorIdleFlush

  predicate Obeys(rule: Rule, s: State, a: Action) {
    && (!rule.AnyCommand? ==> !(a.SupCmd? && a.cmd.ToPause?))
    && (rule.NoPauseNorIdleFlush? && a.SupCmd? && a.cmd.Flush? ==> s.sup.ctl.state == Executing)
  }

  predicate Obedient(rule: Rule, s: State, acts: seq<Action>)
    requires CanRun(s, acts)
    decreases |acts|
  {
    acts == [] || (Obeys(rule, s, acts[0]) && Obedient(rule, Step(s, acts[0]), acts[1..]))
  }

  /** Reachable by a run under the rule. */
  ghost predicate Lawful(rule: Rule, s: State) {
    exists s0: State, acts: seq<Action> :: Init(s0) && CanRun(s0, acts) && Obedient(rule, s0, acts) && Run(s0, acts) == s
  }

  /** The semaphore can come to exceed the ring: n buffers, k semaphores at each restart. */
  predicate CanExceed(rule: Rule, n: nat, k: nat) {
    match rule
    case AnyCommand => n >= 1 || k >= 1
    case NoPause => k >= 1 && 2 * k >= n
    case NoPauseNorIdleFlush => k >= 1 && k >= n
  }

  /** What the rule keeps away. */
  predicate Ruled(rule: Rule, s: State) {
    && (!rule.AnyCommand? ==> s.sup.ctl.state != Pause && !s.sMsg.SRead? && !s.sMsg.SCompare?)
    && (rule.NoPauseNorIdleFlush? ==> s.sup.ctl.state == Executing || s.sMsg.SIdle?)
  }

  lemma RuledKept(rule: Rule, s: State, a: Action)
    requires Active(s.sup.ctl) && Ruled(rule, s) && Enabled(s, a) && Obeys(rule, s, a)
    ensures Ruled(rule, Step(s, a))
  {
    match a
    case SupMgr(move) => assert SupMgrStep(s, move).sup.ctl == s.sup.ctl;
    case PeerMgr(move) => assert PeerMgrStep(s, move).sup.ctl == s.sup.ctl;
    case SupMsg =>
    case PeerMsg => assert PeerMsgStep(s).sup.ctl == s.sup.ctl;
    case SupCmd(cmd) =>
    case SupCtl(_) =>
    case PeerCtl(_) =>
  }

  /** With all buffers home at most one thread is late. */
  lemma RoomyStepIsTimely(rule: Rule, s: State, a: Action)
    requires Sound(s) && Ruled(rule, s) && Enabled(s, a) && !CanExceed(rule, |s.bufs|, s.tunnelBufs)
    ensures Timely(s, a)
  {
    if a.SupMsg? && s.sMsg.SReset? {
      assert Late(s) <= 1 && (s.bufs == [] ==> Late(s) == 0);
    }
  }

  lemma {:induction false} RoomyRunIsTimely(rule: Rule, s: State, acts: seq<Action>)
    requires Sound(s) && Ruled(rule, s) && CanRun(s, acts) && Obedient(rule, s, acts)
    requires !CanExceed(rule, |s.bufs|, s.tunnelBufs)
    ensures TimelyRun(s, acts)
    decreases |acts|
  {
    if acts == [] {
    } else {
      RoomyStepIsTimely(rule, s, acts[0]);
      StepKeeps(s, acts[0]);
      StepKeepsBound(s, acts[0]);
      RuledKept(rule, s, acts[0]);
      BufsFixed(s, acts[..1]);
      RoomyRunIsTimely(rule, Step(s, acts[0]), acts[1..]);
    }
  }

  /** Under the rule such a tunnel dequeues no NULL, however its flushes and its threads fall. */
  lemma RoomyTunnelIsUnbroken(rule: Rule, s: State)
    requires Lawful(rule, s) && !CanExceed(rule, |s.bufs|, s.tunnelBufs)
    ensures !s.broken && s.sup.sem <= |s.sup.ring|
  {
    var s0: State, acts: seq<Action> :| Init(s0) && CanRun(s0, acts) && Obedient(rule, s0, acts) && Run(s0, acts) == s;
    BufsFixed(s0, acts);
    InitSteady(s0, 0);
    RoomyRunIsTimely(rule, s0, acts);
    RunKeeps(s0, acts, 0);
  }

  lemma {:induction false} RunSnoc(rule: Rule, s: State, acts: seq<Action>, a: Action)
    requires CanRun(s, acts) && Obedient(rule, s, acts) && Enabled(Run(s, acts), a) && Obeys(rule, Run(s, acts), a)
    ensures CanRun(s, acts + [a]) && Obedient(rule, s, acts + [a]) && Run(s, acts + [a]) == Step(Run(s, acts), a)
    decreases |acts|
  {
    if acts == [] {
      assert acts + [a] == [a] && Obedient(rule, Step(s, a), []);
    } else {
      assert (acts + [a])[1..] == acts[1..] + [a];
      RunSnoc(rule, Step(s, acts[0]), acts[1..], a);
    }
  }

  lemma LawfulOn(rule: Rule, s: State, a: Action)
    requires Lawful(rule, s) && Enabled(s, a) && Obeys(rule, s, a)
    ensures Lawful(rule, Step(s, a))
  {
    var s0: State, acts: seq<Action> :| Init(s0) && CanRun(s0, acts) && Obedient(rule, s0, acts) && Run(s0, acts) == s;
    RunSnoc(rule, s0, acts, a);
  }

  /**
   The tunnel of the runs below and the rule they obey.  What they reach is all that
   is asked of `reached`: the first states, and with a state what follows it.
   */
  datatype Tunnel = Tunnel(rule: Rule, bufs: seq<nat>, k: nat, reached: State -> bool)

  predicate Permits(u: Tunnel, s: State, a: Action) { Enabled(s, a) && Obeys(u.rule, s, a) }

  ghost predicate Closed(u: Tunnel) {
    && (forall s :: Init(s) ==> u.reached(s))
    && (forall s, a :: u.reached(s) && Permits(u, s, a) ==> u.reached(Step(s, a)))
  }

  lemma Go(u: Tunnel, s: State, a: Action, t: State)
    requires Closed(u) && u.reached(s) && Enabled(s, a) && Obeys(u.rule, s, a) && Step(s, a) == t
    ensures u.reached(t)
  {
    assert Permits(u, s, a);
  }

  predicate Proper(u: Tunnel) { Distinct(u.bufs) && |u.bufs| <= RING_SLOTS }

  /** A state of theirs: the peer is Executing and does not flush, and its semaphore is exact. */
  function At(u: Tunnel, state: OmxState, sMsg: SupFlush, leaving: bool, sMgr: MgrPc, ring: seq<nat>, sem: nat, sHeld: Held,
              pMgr: MgrPc, pRing: seq<nat>, pSem: nat, pHeld: Held): State {
    State(u.bufs, u.k, End(Ctl(state, NoTransient, true, false), ring, sem, sHeld, sMgr, SupFlushing(sMsg), Nothing), sMsg, leaving,
          End(Ctl(Executing, NoTransient, true, false), pRing, pSem, pHeld, pMgr, false, Nothing), PIdle, false)
  }

  /** Both managers rest: `home` is in the supplier's ring, `away` in the peer's. */
  function Rest(u: Tunnel, state: OmxState, sMsg: SupFlush, leaving: bool, sMgr: MgrPc, home: seq<nat>, sem: nat, away: seq<nat>): State {
    At(u, state, sMsg, leaving, sMgr, home, sem, Nothing, Running, away, |away|, Nothing)
  }

  /** All buffers are in the supplier's ring, the last of them queued by a thread that has not raised the semaphore yet. */
  function LateAt(u: Tunnel, state: OmxState, sMsg: SupFlush, leaving: bool, sMgr: MgrPc, ring: seq<nat>, sem: nat): State {
    At(u, state, sMsg, leaving, sMgr, ring, sem, Nothing, UpOther, [], 0, Nothing)
  }

  /** The semaphores a restart owes are raised, one by one. */
  lemma {:induction false} Signals(u: Tunnel, state: OmxState, sMgr: MgrPc, ring: seq<nat>, sem: nat, owed: nat, pMgr: MgrPc)
    requires Closed(u) && u.reached(At(u, state, SSignal(owed), false, sMgr, ring, sem, Nothing, pMgr, [], 0, Nothing))
    ensures u.reached(At(u, state, SIdle, false, sMgr, ring, sem + owed, Nothing, pMgr, [], 0, Nothing))
    decreases owed
  {
    var s := At(u, state, SSignal(owed), false, sMgr, ring, sem, Nothing, pMgr, [], 0, Nothing);
    if owed == 0 {
      Go(u, s, SupMsg, s.(sMsg := SIdle));
    } else {
      var t := At(u, state, SSignal(owed - 1), false, sMgr, ring, sem + 1, Nothing, pMgr, [], 0, Nothing);
      Go(u, s, SupMsg, t);
      Signals(u, state, sMgr, ring, sem + 1, owed - 1, pMgr);
    }
  }

  /** The supplier's manager takes a buffer. */
  lemma Takes(u: Tunnel, home: seq<nat>, sem: nat, away: seq<nat>)
    requires Closed(u) && home != [] && sem > 0 && u.reached(Rest(u, Executing, SIdle, false, Running, home, sem, away))
    ensures u.reached(At(u, Executing, SIdle, false, Call, home[1..], sem - 1, Buffer(home[0]), Running, away, |away|, Nothing))
  {
    var s := Rest(u, Executing, SIdle, false, Running, home, sem, away);
    var t := s.(sup := s.sup.(sem := sem - 1, mgr := Deq));
    Go(u, s, SupMgr(TakeOne), t);
    var v := At(u, Executing, SIdle, false, Running, home[1..], sem - 1, Buffer(home[0]), Running, away, |away|, Nothing);
    Go(u, t, SupMgr(TakeOne), v);
    Go(u, v, SupMgr(ReturnOne), v.(sup := v.sup.(mgr := Call)));
  }

  /** The peer accepts it. */
  lemma Sends(u: Tunnel, home: seq<nat>, sem: nat, b: nat, away: seq<nat>)
    requires |away| < RING_SLOTS
    requires Closed(u) && u.reached(At(u, Executing, SIdle, false, Call, home, sem, Buffer(b), Running, away, |away|, Nothing))
    ensures u.reached(Rest(u, Executing, SIdle, false, Running, home, sem, away + [b]))
  {
    var s := At(u, Executing, SIdle, false, Call, home, sem, Buffer(b), Running, away, |away|, Nothing);
    Go(u, s, SupMgr(ReturnOne), s.(sup := s.sup.(mgr := Offer)));
    Go(u, s.(sup := s.sup.(mgr := Offer)), SupMgr(ReturnOne), s.(sup := s.sup.(mgr := QueueOther)));
    var t := At(u, Executing, SIdle, false, UpOther, home, sem, Nothing, Running, away + [b], |away|, Nothing);
    Go(u, s.(sup := s.sup.(mgr := QueueOther)), SupMgr(ReturnOne), t);
    Go(u, t, SupMgr(ReturnOne), Rest(u, Executing, SIdle, false, Running, home, sem, away + [b]));
  }

  /** j buffers leave for the peer. */
  lemma {:induction false} SendsOut(u: Tunnel, home: seq<nat>, sem: nat, away: seq<nat>, j: nat)
    requires j <= |home| && j <= sem && |away| + j <= RING_SLOTS
    requires Closed(u) && u.reached(Rest(u, Executing, SIdle, false, Running, home, sem, away))
    ensures u.reached(Rest(u, Executing, SIdle, false, Running, home[j..], sem - j, away + home[..j]))
    decreases j
  {
    if j == 0 {
      assert home[0..] == home && away + home[..0] == away;
    } else {
      Takes(u, home, sem, away);
      Sends(u, home[1..], sem - 1, home[0], away);
      SendsOut(u, home[1..], sem - 1, away + [home[0]], j - 1);
      OneShifted(home, away, j);
    }
  }

  lemma OneShifted(home: seq<nat>, away: seq<nat>, j: nat)
    requires 1 <= j <= |home|
    ensures home[1..][j - 1..] == home[j..]
    ensures away + [home[0]] + home[1..][..j - 1] == away + home[..j]
  {
    assert home[..j] == [home[0]] + home[1..][..j - 1];
    assert away + ([home[0]] + home[1..][..j - 1]) == away + [home[0]] + home[1..][..j - 1];
  }

  /** A flush begins while Executing: of its own, or as part of a command to Idle. */
  lemma Parks(u: Tunnel, leaving: bool, home: seq<nat>, sem: nat, away: seq<nat>)
    requires Closed(u) && u.reached(Rest(u, Executing, SIdle, false, Running, home, sem, away))
    ensures u.reached(Rest(u, Executing, STest, leaving, Parked, home, sem, away))
  {
    var s := Rest(u, Executing, SIdle, false, Running, home, sem, away);
    var t := Rest(u, Executing, SWait, leaving, Running, home, sem, away);
    Go(u, s, SupCmd(if leaving then ToIdle else Flush), t);
    Go(u, t, SupMgr(SeeFlush), t.(sup := t.sup.(mgr := Parked)));
    Go(u, t.(sup := t.sup.(mgr := Parked)), SupMsg, Rest(u, Executing, STest, leaving, Parked, home, sem, away));
  }

  /** While the supplier flushes, the peer takes a buffer and queues it back, all but the semaphore. */
  lemma PeerQueues(u: Tunnel, msg: SupFlush, leaving: bool, home: seq<nat>, away: seq<nat>)
    requires away != [] && |home| < RING_SLOTS && (msg.SCount? || msg.SDownWait?)
    requires Closed(u) && u.reached(Rest(u, Executing, msg, leaving, Parked, home, 0, away))
    ensures u.reached(At(u, Executing, msg, leaving, Parked, home + [away[0]], 0, Nothing, UpOther, away[1..], |away| - 1, Nothing))
  {
    var s := Rest(u, Executing, msg, leaving, Parked, home, 0, away);
    var t := s.(peer := s.peer.(sem := |away| - 1, mgr := Deq));
    Go(u, s, PeerMgr(TakeOne), t);
    var v := At(u, Executing, msg, leaving, Parked, home, 0, Nothing, Running, away[1..], |away| - 1, Buffer(away[0]));
    Go(u, t, PeerMgr(TakeOne), v);
    PeerReturns(u, msg, leaving, home, away[0], away[1..]);
  }

  lemma PeerReturns(u: Tunnel, msg: SupFlush, leaving: bool, home: seq<nat>, b: nat, away: seq<nat>)
    requires |home| < RING_SLOTS && (msg.SCount? || msg.SDownWait?)
    requires Closed(u) && u.reached(At(u, Executing, msg, leaving, Parked, home, 0, Nothing, Running, away, |away|, Buffer(b)))
    ensures u.reached(At(u, Executing, msg, leaving, Parked, home + [b], 0, Nothing, UpOther, away, |away|, Nothing))
  {
    var s := At(u, Executing, msg, leaving, Parked, home, 0, Nothing, Running, away, |away|, Buffer(b));
    Go(u, s, PeerMgr(ReturnOne), s.(peer := s.peer.(mgr := Call)));
    Go(u, s.(peer := s.peer.(mgr := Call)), PeerMgr(ReturnOne), s.(peer := s.peer.(mgr := Offer)));
    Go(u, s.(peer := s.peer.(mgr := Offer)), PeerMgr(ReturnOne), s.(peer := s.peer.(mgr := QueueOther)));
    Go(u, s.(peer := s.peer.(mgr := QueueOther)), PeerMgr(ReturnOne),
       At(u, Executing, msg, leaving, Parked, home + [b], 0, Nothing, UpOther, away, |away|, Nothing));
  }

  /** The flush counts too few buffers, waits, and is woken by the next one. */
  lemma OneBack(u: Tunnel, leaving: bool, home: seq<nat>, away: seq<nat>)
    requires |away| >= 2 && |home| + |away| == |u.bufs| <= RING_SLOTS
    requires Closed(u) && u.reached(Rest(u, Executing, SCount, leaving, Parked, home, 0, away))
    ensures u.reached(Rest(u, Executing, SCount, leaving, Parked, home + [away[0]], 0, away[1..]))
  {
    var s := Rest(u, Executing, SCount, leaving, Parked, home, 0, away);
    Go(u, s, SupMsg, s.(sMsg := SDownWait));
    PeerQueues(u, SDownWait, leaving, home, away);
    var t := At(u, Executing, SDownWait, leaving, Parked, home + [away[0]], 0, Nothing, UpOther, away[1..], |away| - 1, Nothing);
    var v := Rest(u, Executing, SDownWait, leaving, Parked, home + [away[0]], 1, away[1..]);
    Go(u, t, PeerMgr(ReturnOne), v);
    Go(u, v, SupMsg, Rest(u, Executing, SCount, leaving, Parked, home + [away[0]], 0, away[1..]));
  }

  /** The last buffer is counted before its semaphore is raised. */
  lemma {:induction false} AllBack(u: Tunnel, leaving: bool, home: seq<nat>, away: seq<nat>)
    requires |away| >= 1 && |home| + |away| == |u.bufs| <= RING_SLOTS
    requires Closed(u) && u.reached(Rest(u, Executing, SCount, leaving, Parked, home, 0, away))
    ensures u.reached(LateAt(u, Executing, SCount, leaving, Parked, home + away, 0))
    decreases |away|
  {
    if |away| == 1 {
      PeerQueues(u, SCount, leaving, home, away);
      assert home + [away[0]] == home + away && away[1..] == [];
    } else {
      OneBack(u, leaving, home, away);
      AllBack(u, leaving, home + [away[0]], away[1..]);
      assert home + [away[0]] + away[1..] == home + away;
    }
  }

  /** All buffers are counted and the semaphore is reset. */
  lemma Counts(u: Tunnel, state: OmxState, leaving: bool, ring: seq<nat>, pMgr: MgrPc)
    requires |ring| == |u.bufs|
    requires Closed(u) && u.reached(At(u, state, SCount, leaving, Parked, ring, 0, Nothing, pMgr, [], 0, Nothing))
    ensures u.reached(At(u, state, SClear, leaving, Parked, ring, 0, Nothing, pMgr, [], 0, Nothing))
  {
    var s := At(u, state, SCount, leaving, Parked, ring, 0, Nothing, pMgr, [], 0, Nothing);
    Go(u, s, SupMsg, s.(sMsg := SReset));
    Go(u, s.(sMsg := SReset), SupMsg, s.(sMsg := SClear));
  }

  /** The manager goes on after a flush. */
  lemma GoesOn(u: Tunnel, state: OmxState, ring: seq<nat>, sem: nat, pMgr: MgrPc)
    requires Closed(u) && u.reached(At(u, state, SIdle, false, Parked, ring, sem, Nothing, pMgr, [], 0, Nothing))
    ensures u.reached(At(u, state, SIdle, false, Running, ring, sem, Nothing, pMgr, [], 0, Nothing))
  {
    var s := At(u, state, SIdle, false, Parked, ring, sem, Nothing, pMgr, [], 0, Nothing);
    Go(u, s, SupMgr(ReturnOne), s.(sup := s.sup.(mgr := Running)));
  }

  /** The end of a command to Idle. */
  lemma Leaves(u: Tunnel, ring: seq<nat>, pMgr: MgrPc)
    requires |ring| == |u.bufs|
    requires Closed(u) && u.reached(At(u, Executing, SCount, true, Parked, ring, 0, Nothing, pMgr, [], 0, Nothing))
    ensures u.reached(At(u, Idle, SIdle, false, Running, ring, 0, Nothing, pMgr, [], 0, Nothing))
  {
    Counts(u, Executing, true, ring, pMgr);
    var s := At(u, Executing, SClear, true, Parked, ring, 0, Nothing, pMgr, [], 0, Nothing);
    var t := At(u, Executing, SLeave, true, Parked, ring, 0, Nothing, pMgr, [], 0, Nothing);
    Go(u, s, SupMsg, t);
    Go(u, t, SupMsg, At(u, Idle, SIdle, false, Parked, ring, 0, Nothing, pMgr, [], 0, Nothing));
    GoesOn(u, Idle, ring, 0, pMgr);
  }

  /** The end of a flush command, with its restart. */
  lemma Restarts(u: Tunnel, state: OmxState, ring: seq<nat>, pMgr: MgrPc)
    requires |ring| == |u.bufs|
    requires Closed(u) && u.reached(At(u, state, SCount, false, Parked, ring, 0, Nothing, pMgr, [], 0, Nothing))
    ensures u.reached(At(u, state, SIdle, false, Running, ring, u.k, Nothing, pMgr, [], 0, Nothing))
  {
    Counts(u, state, false, ring, pMgr);
    var s := At(u, state, SClear, false, Parked, ring, 0, Nothing, pMgr, [], 0, Nothing);
    Go(u, s, SupMsg, At(u, state, SSignal(u.k), false, Parked, ring, 0, Nothing, pMgr, [], 0, Nothing));
    Signals(u, state, Parked, ring, 0, u.k, pMgr);
    GoesOn(u, state, ring, u.k, pMgr);
  }

  /** Some buffers go out and come back while a flush counts, the last of them late at its reset. */
  lemma LateFlush(u: Tunnel, leaving: bool, sem: nat) returns (ring: seq<nat>)
    requires Proper(u) && 1 <= sem <= |u.bufs|
    requires Closed(u) && u.reached(Rest(u, Executing, SIdle, false, Running, u.bufs, sem, []))
    ensures |ring| == |u.bufs|
    ensures u.reached(LateAt(u, if leaving then Idle else Executing, SIdle, false, Running, ring, if leaving then 0 else u.k))
  {
    SendsOut(u, u.bufs, sem, [], sem);
    var home, away := u.bufs[sem..], [] + u.bufs[..sem];
    Parks(u, leaving, home, 0, away);
    var s := Rest(u, Executing, STest, leaving, Parked, home, 0, away);
    Go(u, s, SupMsg, s.(sMsg := SCount));
    AllBack(u, leaving, home, away);
    ring := home + away;
    if leaving { Leaves(u, ring, UpOther); } else { Restarts(u, Executing, ring, UpOther); }
  }

  lemma LateUp(u: Tunnel, ring: seq<nat>, sem: nat)
    requires Closed(u) && u.reached(LateAt(u, Executing, SIdle, false, Running, ring, sem))
    ensures u.reached(Rest(u, Executing, SIdle, false, Running, ring, sem + 1, []))
  {
    Go(u, LateAt(u, Executing, SIdle, false, Running, ring, sem), PeerMgr(ReturnOne),
       Rest(u, Executing, SIdle, false, Running, ring, sem + 1, []));
  }

  /** From Idle to Executing the restart comes. */
  lemma Executes(u: Tunnel, ring: seq<nat>, sem: nat, pMgr: MgrPc)
    requires Closed(u) && u.reached(At(u, Idle, SIdle, false, Running, ring, sem, Nothing, pMgr, [], 0, Nothing))
    ensures u.reached(At(u, Executing, SIdle, false, Running, ring, sem + u.k, Nothing, pMgr, [], 0, Nothing))
  {
    var s := At(u, Idle, SIdle, false, Running, ring, sem, Nothing, pMgr, [], 0, Nothing);
    Go(u, s, SupCmd(ToExecuting), At(u, Executing, SSignal(u.k), false, Running, ring, sem, Nothing, pMgr, [], 0, Nothing));
    Signals(u, Executing, Running, ring, sem, u.k, pMgr);
  }

  /** Through Pause it is a semaphore for each buffer instead. */
  lemma Resumes(u: Tunnel, ring: seq<nat>, pMgr: MgrPc)
    requires u.rule.AnyCommand? && |ring| == |u.bufs|
    requires Closed(u) && u.reached(At(u, Idle, SIdle, false, Running, ring, 0, Nothing, pMgr, [], 0, Nothing))
    ensures u.reached(At(u, Executing, SIdle, false, Running, ring, |u.bufs|, Nothing, pMgr, [], 0, Nothing))
  {
    var s := At(u, Idle, SIdle, false, Running, ring, 0, Nothing, pMgr, [], 0, Nothing);
    var t := At(u, Pause, SIdle, false, Running, ring, 0, Nothing, pMgr, [], 0, Nothing);
    Go(u, s, SupCmd(ToPause), t);
    Go(u, t, SupCmd(ToExecuting), At(u, Executing, SRead, false, Running, ring, 0, Nothing, pMgr, [], 0, Nothing));
    Compares(u, ring, pMgr);
    Signals(u, Executing, Running, ring, 0, |u.bufs|, pMgr);
  }

  /** The ring is full and the semaphore 0. */
  lemma Compares(u: Tunnel, ring: seq<nat>, pMgr: MgrPc)
    requires |ring| == |u.bufs|
    requires Closed(u) && u.reached(At(u, Executing, SRead, false, Running, ring, 0, Nothing, pMgr, [], 0, Nothing))
    ensures u.reached(At(u, Executing, SSignal(|u.bufs|), false, Running, ring, 0, Nothing, pMgr, [], 0, Nothing))
  {
    var s := At(u, Executing, SRead, false, Running, ring, 0, Nothing, pMgr, [], 0, Nothing);
    Go(u, s, SupMsg, s.(sMsg := SCompare(|ring|)));
    Go(u, s.(sMsg := SCompare(|ring|)), SupMsg, s.(sMsg := SSignal(|u.bufs|)));
  }

  /** A flush in Idle, with all buffers home, raises the semaphores of its own restart. */
  lemma IdleFlush(u: Tunnel, ring: seq<nat>, pMgr: MgrPc)
    requires !u.rule.NoPauseNorIdleFlush? && |ring| == |u.bufs|
    requires Closed(u) && u.reached(At(u, Idle, SIdle, false, Running, ring, 0, Nothing, pMgr, [], 0, Nothing))
    ensures u.reached(At(u, Idle, SIdle, false, Running, ring, u.k, Nothing, pMgr, [], 0, Nothing))
  {
    var s := At(u, Idle, SIdle, false, Running, ring, 0, Nothing, pMgr, [], 0, Nothing);
    var t := At(u, Idle, SWait, false, Running, ring, 0, Nothing, pMgr, [], 0, Nothing);
    Go(u, s, SupCmd(Flush), t);
    Go(u, t, SupMgr(SeeFlush), t.(sup := t.sup.(mgr := Parked)));
    var v := At(u, Idle, STest, false, Parked, ring, 0, Nothing, pMgr, [], 0, Nothing);
    Go(u, t.(sup := t.sup.(mgr := Parked)), SupMsg, v);
    Go(u, v, SupMsg, v.(sMsg := SCount));
    Restarts(u, Idle, ring, pMgr);
  }

  /** The component begins to execute: with the restart, or through Pause with a semaphore for each buffer. */
  lemma Started(u: Tunnel, sem: nat)
    requires Proper(u) && Closed(u) && (sem == u.k || (u.rule.AnyCommand? && sem == |u.bufs|))
    ensures u.reached(Rest(u, Executing, SIdle, false, Running, u.bufs, sem, []))
  {
    assert Init(Rest(u, Idle, SIdle, false, Running, u.bufs, 0, []));
    if sem == u.k { Executes(u, u.bufs, 0, Running); } else { Resumes(u, u.bufs, Running); }
  }

  /** More semaphores than buffers: all leave, and the next flush finds a semaphore, dequeues NULL and goes on with it. */
  lemma NullDequeued(u: Tunnel, ring: seq<nat>, sem: nat)
    requires Proper(u) && |ring| == |u.bufs| < sem
    requires Closed(u) && u.reached(Rest(u, Executing, SIdle, false, Running, ring, sem, []))
    ensures exists s :: u.reached(s) && s.broken && s.bufs == u.bufs && s.tunnelBufs == u.k
  {
    var n := |ring|;
    SendsOut(u, ring, sem, [], n);
    assert ring[n..] == [];
    var away := [] + ring[..n];
    Parks(u, false, [], sem - n, away);
    var s := Rest(u, Executing, STest, false, Parked, [], sem - n, away);
    var t := Rest(u, Executing, SDeq, false, Parked, [], sem - n - 1, away);
    Go(u, s, SupMsg, t);
    Go(u, t, SupMsg, t.(sMsg := STest, broken := true));
  }

  /** The semaphores of the restart after a late reset, and the late one, are more than the buffers. */
  lemma ExceedsTheRing(u: Tunnel) returns (ring: seq<nat>, sem: nat)
    requires Proper(u) && Closed(u) && CanExceed(u.rule, |u.bufs|, u.k)
    ensures |ring| == |u.bufs| < sem && u.reached(Rest(u, Executing, SIdle, false, Running, ring, sem, []))
  {
    var n := |u.bufs|;
    if u.k > n {
      Started(u, u.k);
      return u.bufs, u.k;
    }
    var first, leaving := if u.k == 0 then n else u.k, u.k < n;
    Started(u, first);
    ring := LateFlush(u, leaving, first);
    sem := u.k;
    if leaving && u.rule.AnyCommand? {
      Resumes(u, ring, UpOther);
      sem := n;
    } else if leaving {
      IdleFlush(u, ring, UpOther);
      Executes(u, ring, u.k, UpOther);
      sem := 2 * u.k;
    }
    LateUp(u, ring, sem);
    sem := sem + 1;
  }

  lemma LawfulIsClosed(u: Tunnel)
    requires forall s :: u.reached(s) <==> Lawful(u.rule, s)
    ensures Closed(u)
  {
    forall s | Init(s) ensures u.reached(s) {
      assert CanRun(s, []) && Obedient(u.rule, s, []) && Run(s, []) == s;
    }
    forall s, a | u.reached(s) && Permits(u, s, a) ensures u.reached(Step(s, a)) {
      LawfulOn(u.rule, s, a);
    }
  }

  /**
   Exactly which tunnels of n buffers, k semaphores raised at each restart, can come
   to dequeue NULL.  A client that never pauses and flushes in Executing only needs
   k >= n for it, one that flushes in Idle too 2 * k >= n, and k >= 1 both; one that
   pauses needs a buffer, or a semaphore.
   */
  lemma NullDequeuedExactly(rule: Rule, bufs: seq<nat>, k: nat)
    requires Distinct(bufs) && |bufs| <= RING_SLOTS
    ensures (exists s :: Lawful(rule, s) && s.broken && s.bufs == bufs && s.tunnelBufs == k) <==> CanExceed(rule, |bufs|, k)
  {
    if CanExceed(rule, |bufs|, k) {
      var u := Tunnel(rule, bufs, k, s => Lawful(rule, s));
      LawfulIsClosed(u);
      var ring, sem := ExceedsTheRing(u);
      NullDequeued(u, ring, sem);
    } else {
      forall s | Lawful(rule, s) && s.bufs == bufs && s.tunnelBufs == k ensures !s.broken { RoomyTunnelIsUnbroken(rule, s); }
    }
  }
}
