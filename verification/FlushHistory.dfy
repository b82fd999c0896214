/**
 Which histories of commands let a flush hang: the runs of FlushProtocol, with the
 commands the message thread has begun.
 */
module FlushHistory {
  import opened Basics
  import opened FlushProtocol

  predicate Managed(c: OmxState) { c == Idle || c == Executing || c == Pause }

  // ---------------------------------------------------------------------------
  // Histories
  // ---------------------------------------------------------------------------

  /** The command a step begins, if it begins one. */
  function Begun(s: State, a: Action): seq<Command> { if a.Msg? && s.msg.Idling? then [a.cmd] else [] }

  function Commands(s: State, acts: seq<Action>): seq<Command>
    requires CanRun(s, acts)
    decreases |acts|
  {
    if acts == [] then [] else Begun(s, acts[0]) + Commands(Step(s, acts[0]), acts[1..])
  }

  /** A run from a component in state c, with that history of commands, ends in s. */
  ghost predicate Traced(c: OmxState, s: State, h: seq<Command>) {
    exists s0: State, acts: seq<Action> ::
      Init(s0) && s0.comp == c && CanRun(s0, acts) && Run(s0, acts) == s && Commands(s0, acts) == h
  }

  /** The command flushes, given the state of the component. */
  predicate Flushes(c: OmxState, cmd: Command) { cmd.FlushPort? || cmd.FlushAll? || (cmd.SetIdle? && c == Executing) }

  function NextComp(c: OmxState, cmd: Command): OmxState {
    match cmd
    case SetIdle => Idle
    case SetExecuting => Executing
    case SetPause => Pause
    case _ => c
  }

  function CompAfter(c: OmxState, h: seq<Command>): OmxState {
    if h == [] then c else NextComp(CompAfter(c, h[..|h| - 1]), h[|h| - 1])
  }

  /** The component has been in Pause since its last flush, that flush included, or since the start. */
  predicate PausedSince(c: OmxState, h: seq<Command>) {
    if h == [] then c == Pause
    else
      var before, cmd := h[..|h| - 1], h[|h| - 1];
      if cmd.SetPause? then true
      else if Flushes(CompAfter(c, before), cmd) then CompAfter(c, before) == Pause
      else PausedSince(c, before)
  }

  lemma HistoryMore(c: OmxState, h: seq<Command>, cmd: Command)
    ensures CompAfter(c, h + [cmd]) == NextComp(CompAfter(c, h), cmd)
    ensures PausedSince(c, h + [cmd]) <==>
              cmd.SetPause? || (if Flushes(CompAfter(c, h), cmd) then CompAfter(c, h) == Pause else PausedSince(c, h))
  {
    assert (h + [cmd])[..|h|] == h;
  }

  lemma {:induction false} PauseIsRecent(c: OmxState, h: seq<Command>)
    requires CompAfter(c, h) == Pause
    ensures PausedSince(c, h)
  {
    if h != [] && h[|h| - 1].FlushPort? {
      PauseIsRecent(c, h[..|h| - 1]);
    }
  }

  /**
   What runs from one state of the component reach, and with which history.  All
   that is asked of `reached`: the first states with none, and with a state what
   follows it.
   */
  datatype World = World(comp: OmxState, reached: (State, seq<Command>) -> bool)

  predicate Permits(w: World, s: State, a: Action) { Enabled(s, a) }

  ghost predicate Closed(w: World) {
    && (forall s :: Init(s) && s.comp == w.comp ==> w.reached(s, []))
    && (forall s, h, a :: w.reached(s, h) && Permits(w, s, a) ==> w.reached(Step(s, a), h + Begun(s, a)))
  }

  lemma {:induction false} RunStaysReached(w: World, h: seq<Command>, s: State, acts: seq<Action>)
    requires Closed(w) && w.reached(s, h) && CanRun(s, acts)
    ensures w.reached(Run(s, acts), h + Commands(s, acts))
    decreases |acts|
  {
    if acts == [] {
      assert h + [] == h;
    } else {
      var t, begun := Step(s, acts[0]), Begun(s, acts[0]);
      assert Permits(w, s, acts[0]);
      RunStaysReached(w, h + begun, t, acts[1..]);
      assert h + begun + Commands(t, acts[1..]) == h + (begun + Commands(t, acts[1..]));
    }
  }

  // ---------------------------------------------------------------------------
  // What the history says about the manager
  // ---------------------------------------------------------------------------

  /** A sleepy manager has met a pause since the last flush; a flush under way is the last command. */
  predicate Remembers(c: OmxState, h: seq<Command>, s: State) {
    if s.msg.Idling? then s.comp == CompAfter(c, h) && (Sleepy(s.mgr) ==> PausedSince(c, h))
    else
      && h != []
      && var before, cmd := h[..|h| - 1], h[|h| - 1];
         && s.comp == CompAfter(c, before) && Flushes(s.comp, cmd)
         && (s.mode.ToIdle? <==> cmd.SetIdle?)
         && (Sleepy(s.mgr) ==> PausedSince(c, before))
  }

  lemma {:induction false} MgrSleepsInPause(s: State, choice: bool)
    requires !MgrBlocked(s)
    ensures var t := MgrStep(s, choice);
            && t.comp == s.comp && t.msg == s.msg && t.mode == s.mode && (Sleepy(t.mgr) ==> Sleepy(s.mgr) || s.comp == Pause)
  {}

  lemma MgrRemembers(c: OmxState, h: seq<Command>, s: State, choice: bool)
    requires Remembers(c, h, s) && !MgrBlocked(s)
    ensures Remembers(c, h, MgrStep(s, choice))
  {
    MgrSleepsInPause(s, choice);
    if s.comp == Pause {
      PauseIsRecent(c, if s.msg.Idling? then h else h[..|h| - 1]);
    }
  }

  lemma BeginRemembers(c: OmxState, h: seq<Command>, s: State, cmd: Command)
    requires Remembers(c, h, s) && s.msg.Idling? && Managed(s.comp)
    ensures Remembers(c, h + [cmd], Begin(s, cmd)) && Managed(Begin(s, cmd).comp)
  {
    HistoryMore(c, h, cmd);
    assert (h + [cmd])[..|h|] == h;
  }

  /** A step of a flush under way; when it ends the manager is in the flush loop. */
  lemma FlushStepEffect(s: State, cmd: Command)
    requires Handshake(s) && !s.msg.Idling? && !MsgBlocked(s)
    ensures var t := MsgStep(s, cmd);
            && t.mode == s.mode && (Sleepy(t.mgr) ==> Sleepy(s.mgr))
            && (t.msg.Idling? ==> !Sleepy(t.mgr) && t.comp == if s.mode.ToIdle? then Idle else s.comp)
            && (!t.msg.Idling? ==> t.comp == s.comp)
  {
    assert s.msg.UpCond? ==> InBody(s.mgr);
  }

  lemma FlushStepRemembers(c: OmxState, h: seq<Command>, s: State, cmd: Command)
    requires Remembers(c, h, s) && Handshake(s) && !s.msg.Idling? && !MsgBlocked(s)
    ensures Remembers(c, h, MsgStep(s, cmd)) && (Managed(s.comp) ==> Managed(MsgStep(s, cmd).comp))
  {
    var before, last := h[..|h| - 1], h[|h| - 1];
    assert h == before + [last];
    HistoryMore(c, before, last);
    FlushStepEffect(s, cmd);
  }

  /** Senders and spurious wake-ups. */
  lemma OtherStepEffect(s: State, a: Action)
    requires Enabled(s, a) && !a.Mgr? && !a.Msg?
    ensures var t := Step(s, a);
            t.comp == s.comp && t.msg == s.msg && t.mode == s.mode && (Sleepy(t.mgr) ==> Sleepy(s.mgr))
  {}

  lemma StepRemembers(c: OmxState, h: seq<Command>, s: State, a: Action)
    requires Remembers(c, h, s) && Handshake(s) && Managed(s.comp) && Enabled(s, a)
    ensures Remembers(c, h + Begun(s, a), Step(s, a)) && Managed(Step(s, a).comp)
  {
    match a
    case Mgr(choice) =>
      assert h + Begun(s, a) == h;
      MgrSleepsInPause(s, choice);
      MgrRemembers(c, h, s, choice);
    case Msg(cmd) =>
      if s.msg.Idling? {
        BeginRemembers(c, h, s, cmd);
      } else {
        assert h + Begun(s, a) == h;
        FlushStepRemembers(c, h, s, cmd);
      }
    case _ =>
      assert h + Begun(s, a) == h;
      OtherStepEffect(s, a);
  }

  /** All that a run keeps. */
  ghost predicate Sane(c: OmxState, s: State, h: seq<Command>) { Inv(s) && Managed(s.comp) && Remembers(c, h, s) }

  lemma StartsSane(s: State)
    requires Init(s)
    ensures Sane(s.comp, s, [])
  {
    assert CanRun(s, []) && Run(s, []) == s;
    ReachableInv(s);
  }

  lemma StaysSane(c: OmxState, s: State, h: seq<Command>, a: Action)
    requires Sane(c, s, h) && Enabled(s, a)
    ensures Sane(c, Step(s, a), h + Begun(s, a))
  {
    InvKept(s, a);
    StepRemembers(c, h, s, a);
  }

  lemma SaneIsClosed(w: World)
    requires forall s, h :: w.reached(s, h) <==> Sane(w.comp, s, h)
    ensures Closed(w)
  {
    forall s | Init(s) && s.comp == w.comp ensures w.reached(s, []) {
      StartsSane(s);
    }
    forall s, h, a | w.reached(s, h) && Permits(w, s, a) ensures w.reached(Step(s, a), h + Begun(s, a)) {
      StaysSane(w.comp, s, h, a);
    }
  }

  lemma RunStaysSane(c: OmxState, s0: State, acts: seq<Action>)
    requires Init(s0) && s0.comp == c && CanRun(s0, acts)
    ensures Sane(c, Run(s0, acts), Commands(s0, acts))
  {
    var w := World(c, (t, g) => Sane(c, t, g));
    SaneIsClosed(w);
    RunStaysReached(w, [], s0, acts);
    assert [] + Commands(s0, acts) == Commands(s0, acts);
  }

  lemma TracedRemembers(c: OmxState, s: State, h: seq<Command>)
    requires Traced(c, s, h)
    ensures Reachable(s) && Remembers(c, h, s)
  {
    var s0: State, acts: seq<Action> :|
      Init(s0) && s0.comp == c && CanRun(s0, acts) && Run(s0, acts) == s && Commands(s0, acts) == h;
    RunStaysSane(c, s0, acts);
  }

  /**
   A flush of a component that has not been in Pause since its last flush, or since
   the start, is answered within nineteen manager steps, in every interleaving.
   */
  lemma UnpausedFlushIsAnswered(c: OmxState, h: seq<Command>, flush: Command, s: State, acts: seq<Action>)
    requires Traced(c, s, h + [flush]) && Unanswered(s) && !PausedSince(c, h)
    requires CanRun(s, acts) && CountMgr(acts) >= 19
    ensures exists k :: 0 <= k <= |acts| && CanRun(s, acts[..k]) && Run(s, acts[..k]).flushAll == 1
  {
    TracedRemembers(c, s, h + [flush]);
    assert (h + [flush])[..|h|] == h;
    FlushIsAnswered(s, acts);
  }

  // ---------------------------------------------------------------------------
  // Runs with any history
  // ---------------------------------------------------------------------------

  lemma Go(w: World, h: seq<Command>, s: State, a: Action, t: State)
    requires Closed(w) && w.reached(s, h) && Enabled(s, a) && Step(s, a) == t && Begun(s, a) == []
    ensures w.reached(t, h)
  {
    assert Permits(w, s, a) && h + [] == h;
  }

  lemma GoLoop(w: World, h: seq<Command>, s: State, t: State)
    requires Closed(w) && w.reached(s, h) && (s.mgr.Top? || InBody(s.mgr)) && !MgrBlocked(s) && FlushLoopStep(s) == t
    ensures w.reached(t, h)
  {
    Go(w, h, s, Mgr(false), t);
  }

  lemma GoWait(w: World, h: seq<Command>, s: State, t: State)
    requires Closed(w) && w.reached(s, h) && Waiting(s.mgr) && !MgrBlocked(s) && WaitStep(s) == t
    ensures w.reached(t, h)
  {
    Go(w, h, s, Mgr(false), t);
  }

  lemma GoTake(w: World, h: seq<Command>, s: State, t: State)
    requires Closed(w) && w.reached(s, h) && Taking(s.mgr) && !MgrBlocked(s) && TakeStep(s) == t
    ensures w.reached(t, h)
  {
    Go(w, h, s, Mgr(false), t);
  }

  lemma GoProcess(w: World, h: seq<Command>, s: State, t: State)
    requires Closed(w) && w.reached(s, h) && Processing(s.mgr) && !MgrBlocked(s) && ProcessStep(s, false) == t
    ensures w.reached(t, h)
  {
    Go(w, h, s, Mgr(false), t);
  }

  // Inside a command the message thread does not look at what comes next.

  lemma GoAnnounce(w: World, h: seq<Command>, s: State, t: State)
    requires Closed(w) && w.reached(s, h) && Announcing(s.msg) && !MsgBlocked(s) && AnnounceStep(s) == t
    ensures w.reached(t, h)
  {
    Go(w, h, s, Msg(SetPause), t);
  }

  lemma GoGate(w: World, h: seq<Command>, s: State, t: State)
    requires Closed(w) && w.reached(s, h) && Gating(s.msg) && !MsgBlocked(s) && GateStep(s) == t
    ensures w.reached(t, h)
  {
    Go(w, h, s, Msg(SetPause), t);
  }

  lemma GoDrain(w: World, h: seq<Command>, s: State, t: State)
    requires Closed(w) && w.reached(s, h) && InDrain(s.msg) && !MsgBlocked(s) && DrainStep(s) == t
    ensures w.reached(t, h)
  {
    Go(w, h, s, Msg(SetPause), t);
  }

  lemma GoSend(w: World, h: seq<Command>, s: State, a: Action, q: Port)
    requires Closed(w) && w.reached(s, h) && IsSend(a) && a.p == In && Enabled(s, a) && Sent(s.inp, a, s.flagIn) == q
    ensures w.reached(s.(inp := q, bMgmt := s.bMgmt + Bit(a.SendSignal?)), h)
  {
    Go(w, h, s, a, s.(inp := q, bMgmt := s.bMgmt + Bit(a.SendSignal?)));
  }

  lemma GoBegin(w: World, h: seq<Command>, s: State, cmd: Command)
    requires Closed(w) && w.reached(s, h) && s.msg.Idling?
    ensures w.reached(Begin(s, cmd), h + [cmd])
  {
    assert Permits(w, s, Msg(cmd)) && Step(s, Msg(cmd)) == Begin(s, cmd) && Begun(s, Msg(cmd)) == [cmd];
  }

  /** The input port of the runs: one buffer, with its sender, in the ring, or held. */
  function OnePort(client: nat, checked: nat, queued: nat, upped: nat, ring: seq<nat>, sem: nat, held: Held): Port {
    Port(1, client, checked, queued, upped, ring, sem, held, if client + checked > 0 then [] else [7], [])
  }

  const NO_PORT := Port(0, 0, 0, 0, 0, [], 0, Nothing, [], [])
  const AT_CLIENT := OnePort(1, 0, 0, 0, [], 0, Nothing)
  const HELD := OnePort(0, 0, 0, 0, [], 0, Buffer(7))

  function At(comp: OmxState, mode: Mode, mgr: MgrPc, msg: MsgPc, flagIn: bool, flagOut: bool, bMgmt: nat, inp: Port): State {
    State(mgr, msg, mode, comp, flagIn, flagOut, bMgmt, 0, 0, Nothing, inp, NO_PORT)
  }

  /** Nothing is under way, the manager is at the head of its loop, and the client has the buffer. */
  function Calm(comp: OmxState, mode: Mode): State { At(comp, mode, Top, Idling, false, false, 0, AT_CLIENT) }

  /** The manager holds the buffer and has decided to sleep. */
  function Drowsy(comp: OmxState, mode: Mode): State { At(comp, mode, PreSleep2, Idling, false, false, 0, HELD) }

  /** A flag goes up, and the thread comes to the test of bMgmtSem. */
  lemma RaisesFlag(w: World, h: seq<Command>, comp: OmxState, mode: Mode, mgr: MgrPc, p: PortId, fi: bool, fo: bool, q: Port)
    requires Closed(w) && w.reached(At(comp, mode, mgr, SetFlag(p), fi, fo, 0, q), h)
    ensures w.reached(At(comp, mode, mgr, TestMgmt(p), fi || p == In, fo || p == Out, 0, q), h)
  {
    var s := At(comp, mode, mgr, SetFlag(p), fi, fo, 0, q);
    GoAnnounce(w, h, s, At(comp, mode, mgr, TestMgmt(p), fi || p == In, fo || p == Out, 0, q));
  }

  /** A flush of port p is announced, wherever the manager is but asleep. */
  lemma Announces(w: World, h: seq<Command>, comp: OmxState, mode: Mode, mgr: MgrPc, p: PortId, fi: bool, fo: bool, q: Port)
    requires Closed(w) && !mgr.Asleep1? && !mgr.Asleep2?
    requires w.reached(At(comp, mode, mgr, SetFlag(p), fi, fo, 0, q), h)
    ensures w.reached(At(comp, mode, mgr, WaitAll(p), fi || p == In, fo || p == Out, 1, q), h)
  {
    RaisesFlag(w, h, comp, mode, mgr, p, fi, fo, q);
    var s := At(comp, mode, mgr, TestMgmt(p), fi || p == In, fo || p == Out, 0, q);
    GoAnnounce(w, h, s, s.(msg := UpMgmt(p)));
    GoAnnounce(w, h, s.(msg := UpMgmt(p)), s.(msg := SignalState(p), bMgmt := 1));
    GoAnnounce(w, h, s.(msg := SignalState(p), bMgmt := 1), s.(msg := WaitAll(p), bMgmt := 1));
  }

  /** A calm manager answers. */
  lemma AnswersIt(w: World, h: seq<Command>, comp: OmxState, mode: Mode, p: PortId, fi: bool, fo: bool)
    requires Closed(w) && (fi || fo) && w.reached(At(comp, mode, Top, WaitAll(p), fi, fo, 1, AT_CLIENT), h)
    ensures w.reached(At(comp, mode, DownCond, WaitAll(p), fi, fo, 1, AT_CLIENT).(flushAll := 1), h)
  {
    var s := At(comp, mode, Top, WaitAll(p), fi, fo, 1, AT_CLIENT);
    GoLoop(w, h, s, s.(mgr := RetOut));
    GoLoop(w, h, s.(mgr := RetOut), s.(mgr := RetIn));
    GoLoop(w, h, s.(mgr := RetIn), s.(mgr := UpAll));
    GoLoop(w, h, s.(mgr := UpAll), s.(mgr := DownCond, flushAll := 1));
  }

  /** There is nothing to drain. */
  lemma Drains(w: World, h: seq<Command>, comp: OmxState, mode: Mode, p: PortId, fi: bool, fo: bool)
    requires Closed(w) && w.reached(At(comp, mode, DownCond, WaitAll(p), fi, fo, 1, AT_CLIENT).(flushAll := 1), h)
    ensures w.reached(At(comp, mode, DownCond, UpCond(p), fi && p == Out, fo && p == In, 0, AT_CLIENT), h)
  {
    var s := At(comp, mode, DownCond, ResetMgmt(p), fi, fo, 1, AT_CLIENT);
    GoGate(w, h, s.(msg := WaitAll(p), flushAll := 1), s);
    GoGate(w, h, s, s.(bMgmt := 0, msg := DrainTest(p)));
    GoDrain(w, h, s.(bMgmt := 0, msg := DrainTest(p)), s.(bMgmt := 0, msg := ClearFlag(p)));
    GoGate(w, h, s.(bMgmt := 0, msg := ClearFlag(p)), At(comp, mode, DownCond, UpCond(p), fi && p == Out, fo && p == In, 0, AT_CLIENT));
  }

  /** One port of a calm component is flushed. */
  lemma FlushesPort(w: World, h: seq<Command>, comp: OmxState, mode: Mode, p: PortId, fi: bool, fo: bool)
    requires Closed(w) && w.reached(At(comp, mode, Top, SetFlag(p), fi, fo, 0, AT_CLIENT), h)
    ensures w.reached(AfterFlush(At(comp, mode, Top, UpCond(p), fi && p == Out, fo && p == In, 0, AT_CLIENT), p), h)
  {
    Announces(w, h, comp, mode, Top, p, fi, fo, AT_CLIENT);
    AnswersIt(w, h, comp, mode, p, fi || p == In, fo || p == Out);
    Drains(w, h, comp, mode, p, fi || p == In, fo || p == Out);
    var s := At(comp, mode, DownCond, UpCond(p), fi && p == Out, fo && p == In, 0, AT_CLIENT);
    var t := AfterFlush(s.(flushCond := 1), p);
    GoGate(w, h, s, t);
    GoLoop(w, h, t, AfterFlush(s.(mgr := Top), p));
  }

  /** A flag is up for each port before the first is flushed. */
  lemma Presets(w: World, h: seq<Command>, comp: OmxState, mgr: MgrPc, q: Port)
    requires Closed(w) && w.reached(At(comp, All, mgr, Preset(In), false, false, 0, q), h)
    ensures w.reached(At(comp, All, mgr, SetFlag(In), true, true, 0, q), h)
  {
    var s := At(comp, All, mgr, Preset(In), false, false, 0, q);
    GoAnnounce(w, h, s, s.(msg := Preset(Out), flagIn := true));
    GoAnnounce(w, h, s.(msg := Preset(Out), flagIn := true), At(comp, All, mgr, SetFlag(In), true, true, 0, q));
  }

  /** Any command to a calm component leaves it calm. */
  lemma StaysCalm(w: World, h: seq<Command>, comp: OmxState, mode: Mode, cmd: Command) returns (mode': Mode)
    requires Closed(w) && Managed(comp) && w.reached(Calm(comp, mode), h)
    ensures w.reached(Calm(NextComp(comp, cmd), mode'), h + [cmd])
  {
    var g := h + [cmd];
    GoBegin(w, h, Calm(comp, mode), cmd);
    match cmd {
      case FlushPort(p) =>
        FlushesPort(w, g, comp, One, p, false, false);
        mode' := One;
      case FlushAll =>
        Presets(w, g, comp, Top, AT_CLIENT);
        FlushesPort(w, g, comp, All, In, true, true);
        FlushesPort(w, g, comp, All, Out, false, true);
        mode' := All;
      case SetIdle =>
        if comp == Executing {
          FlushesPort(w, g, comp, Mode.ToIdle, In, false, false);
          FlushesPort(w, g, comp, Mode.ToIdle, Out, false, false);
          mode' := Mode.ToIdle;
        } else {
          mode' := mode;
        }
      case _ => mode' := mode;
    }
  }

  lemma {:induction false} CalmIsReached(w: World, h: seq<Command>) returns (mode: Mode)
    requires Closed(w) && Managed(w.comp)
    ensures Managed(CompAfter(w.comp, h)) && w.reached(Calm(CompAfter(w.comp, h), mode), h)
  {
    if h == [] {
      mode := One;
      assert Init(Calm(w.comp, One));
    } else {
      var before, cmd := h[..|h| - 1], h[|h| - 1];
      mode := CalmIsReached(w, before);
      mode := StaysCalm(w, before, CompAfter(w.comp, before), mode, cmd);
      assert h == before + [cmd];
    }
  }

  /** The client's buffer on its way: refused by no flush, in the ring, its semaphores raised. */
  lemma OneSent()
    ensures Sent(AT_CLIENT, SendCheck(In), false) == OnePort(0, 1, 0, 0, [], 0, Nothing)
    ensures Sent(OnePort(0, 1, 0, 0, [], 0, Nothing), SendQueue(In, 7), false) == OnePort(0, 0, 1, 0, [7], 0, Nothing)
    ensures Sent(OnePort(0, 0, 1, 0, [7], 0, Nothing), SendUp(In), false) == OnePort(0, 0, 0, 1, [7], 1, Nothing)
    ensures Sent(OnePort(0, 0, 0, 1, [7], 1, Nothing), SendSignal(In), false) == OnePort(0, 0, 0, 0, [7], 1, Nothing)
  {}

  /** The client sends its buffer. */
  lemma SendsBuffer(w: World, h: seq<Command>, comp: OmxState, mode: Mode)
    requires Closed(w) && w.reached(Calm(comp, mode), h)
    ensures w.reached(At(comp, mode, Top, Idling, false, false, 1, OnePort(0, 0, 0, 0, [7], 1, Nothing)), h)
  {
    OneSent();
    var s := Calm(comp, mode);
    GoSend(w, h, s, SendCheck(In), OnePort(0, 1, 0, 0, [], 0, Nothing));
    GoSend(w, h, s.(inp := OnePort(0, 1, 0, 0, [], 0, Nothing)), SendQueue(In, 7), OnePort(0, 0, 1, 0, [7], 0, Nothing));
    GoSend(w, h, s.(inp := OnePort(0, 0, 1, 0, [7], 0, Nothing)), SendUp(In), OnePort(0, 0, 0, 1, [7], 1, Nothing));
    GoSend(w, h, s.(inp := OnePort(0, 0, 0, 1, [7], 1, Nothing)), SendSignal(In), OnePort(0, 0, 0, 0, [7], 1, Nothing));
  }

  /** The manager gets past its two waits for buffers. */
  lemma GetsPastWaits(w: World, h: seq<Command>, comp: OmxState, mode: Mode, q: Port)
    requires Closed(w) && q.sem > 0 && w.reached(At(comp, mode, Top, Idling, false, false, 1, q), h)
    ensures w.reached(At(comp, mode, TestTakeIn, Idling, false, false, 0, q), h)
  {
    var s := At(comp, mode, Top, Idling, false, false, 1, q);
    GoLoop(w, h, s, s.(mgr := TestIn));
    GoWait(w, h, s.(mgr := TestIn), s.(mgr := TestOut));
    GoWait(w, h, s.(mgr := TestOut), s.(mgr := DownMgmt2));
    GoWait(w, h, s.(mgr := DownMgmt2), At(comp, mode, TestTakeIn, Idling, false, false, 0, q));
  }

  /** It takes the buffer. */
  lemma TakesBuffer(w: World, h: seq<Command>, comp: OmxState, mode: Mode)
    requires Closed(w)
    requires w.reached(At(comp, mode, TestTakeIn, Idling, false, false, 0, OnePort(0, 0, 0, 0, [7], 1, Nothing)), h)
    ensures w.reached(At(comp, mode, TestTakeOut, Idling, false, false, 0, HELD), h)
  {
    var p0, p1 := OnePort(0, 0, 0, 0, [7], 1, Nothing), OnePort(0, 0, 0, 0, [7], 0, Nothing);
    assert DownPort(p0) == p1 && [7][1..] == [] && Take(p1) == HELD;
    var s := At(comp, mode, TestTakeIn, Idling, false, false, 0, p0);
    GoTake(w, h, s, s.(mgr := DownIn));
    GoTake(w, h, s.(mgr := DownIn), s.(mgr := DeqIn, inp := p1));
    GoTake(w, h, s.(mgr := DeqIn, inp := p1), s.(mgr := TestTakeOut, inp := HELD));
  }

  /** With no output buffer there is nothing to do with it, and in Pause the manager decides to sleep. */
  lemma DecidesToSleep(w: World, h: seq<Command>, mode: Mode)
    requires Closed(w) && w.reached(At(Pause, mode, TestTakeOut, Idling, false, false, 0, HELD), h)
    ensures w.reached(Drowsy(Pause, mode), h)
  {
    var s := At(Pause, mode, TestTakeOut, Idling, false, false, 0, HELD);
    GoTake(w, h, s, s.(mgr := Process));
    GoProcess(w, h, s.(mgr := Process), s.(mgr := TestPause2));
    GoProcess(w, h, s.(mgr := TestPause2), Drowsy(Pause, mode));
  }

  /** In Pause a calm manager comes to the point before its sleep. */
  lemma GetsDrowsy(w: World, h: seq<Command>, mode: Mode)
    requires Closed(w) && w.reached(Calm(Pause, mode), h)
    ensures w.reached(Drowsy(Pause, mode), h)
  {
    SendsBuffer(w, h, Pause, mode);
    GetsPastWaits(w, h, Pause, mode, OnePort(0, 0, 0, 0, [7], 1, Nothing));
    TakesBuffer(w, h, Pause, mode);
    DecidesToSleep(w, h, mode);
  }

  /** After a history with a pause since the last flush the manager can be at that point: every signal was lost on it. */
  lemma {:induction false} DrowsyIsReached(w: World, h: seq<Command>) returns (mode: Mode)
    requires Closed(w) && Managed(w.comp) && PausedSince(w.comp, h)
    ensures w.reached(Drowsy(CompAfter(w.comp, h), mode), h)
  {
    mode := CalmIsReached(w, h);
    if CompAfter(w.comp, h) == Pause {
      GetsDrowsy(w, h, mode);
    } else {
      var before, cmd := h[..|h| - 1], h[|h| - 1];
      assert h == before + [cmd];
      var _ := CalmIsReached(w, before);
      mode := DrowsyIsReached(w, before);
      GoBegin(w, before, Drowsy(CompAfter(w.comp, before), mode), cmd);
    }
  }

  /** A flush announced to a manager that has decided to sleep finds it asleep. */
  lemma Hangs(w: World, h: seq<Command>, comp: OmxState, mode: Mode, flush: Command) returns (s: State)
    requires Closed(w) && Flushes(comp, flush) && w.reached(Drowsy(comp, mode), h)
    ensures w.reached(s, h + [flush]) && Hung(s) && s.comp == comp
  {
    var g := h + [flush];
    GoBegin(w, h, Drowsy(comp, mode), flush);
    match flush {
      case FlushPort(p) =>
        Announces(w, g, comp, One, PreSleep2, p, false, false, HELD);
        s := At(comp, One, PreSleep2, WaitAll(p), p == In, p == Out, 1, HELD);
      case FlushAll =>
        Presets(w, g, comp, PreSleep2, HELD);
        Announces(w, g, comp, All, PreSleep2, In, true, true, HELD);
        s := At(comp, All, PreSleep2, WaitAll(In), true, true, 1, HELD);
      case SetIdle =>
        Announces(w, g, comp, Mode.ToIdle, PreSleep2, In, false, false, HELD);
        s := At(comp, Mode.ToIdle, PreSleep2, WaitAll(In), true, false, 1, HELD);
    }
    GoProcess(w, g, s, s.(mgr := Asleep2));
    s := s.(mgr := Asleep2);
  }

  lemma {:induction false} CommandsSnoc(s: State, acts: seq<Action>, a: Action)
    requires CanRun(s, acts) && Enabled(Run(s, acts), a)
    ensures CanRun(s, acts + [a]) && Commands(s, acts + [a]) == Commands(s, acts) + Begun(Run(s, acts), a)
    decreases |acts|
  {
    RunSnoc(s, acts, a);
    if acts == [] {
      assert acts + [a] == [a];
    } else {
      assert (acts + [a])[1..] == acts[1..] + [a];
      CommandsSnoc(Step(s, acts[0]), acts[1..], a);
    }
  }

  lemma TracedOn(c: OmxState, s: State, h: seq<Command>, a: Action)
    requires Traced(c, s, h) && Enabled(s, a)
    ensures Traced(c, Step(s, a), h + Begun(s, a))
  {
    var s0: State, acts: seq<Action> :|
      Init(s0) && s0.comp == c && CanRun(s0, acts) && Run(s0, acts) == s && Commands(s0, acts) == h;
    RunSnoc(s0, acts, a);
    CommandsSnoc(s0, acts, a);
  }

  lemma TracedIsClosed(w: World)
    requires forall s, h :: w.reached(s, h) <==> Traced(w.comp, s, h)
    ensures Closed(w)
  {
    forall s | Init(s) && s.comp == w.comp ensures w.reached(s, []) {
      assert CanRun(s, []) && Run(s, []) == s && Commands(s, []) == [];
    }
    forall s, h, a | w.reached(s, h) && Enabled(s, a) ensures w.reached(Step(s, a), h + Begun(s, a)) {
      TracedOn(w.comp, s, h, a);
    }
  }

  /**
   Exactly which flushes can hang: after a history of commands h, on some
   interleaving, if and only if the component has been in Pause since the last
   flush, that flush included, or since the start.
   */
  lemma FlushCanHangExactly(c: OmxState, h: seq<Command>, flush: Command)
    requires Managed(c) && Flushes(CompAfter(c, h), flush)
    ensures (exists s :: Traced(c, s, h + [flush]) && Hung(s)) <==> PausedSince(c, h)
  {
    if PausedSince(c, h) {
      var w := World(c, (s, g) => Traced(c, s, g));
      TracedIsClosed(w);
      var mode := DrowsyIsReached(w, h);
      var s := Hangs(w, h, CompAfter(c, h), mode, flush);
    }
    if s :| Traced(c, s, h + [flush]) && Hung(s) {
      TracedRemembers(c, s, h + [flush]);
      assert (h + [flush])[..|h|] == h;
    }
  }

  lemma HungAs(c: OmxState, h: seq<Command>, flush: Command)
    requires Managed(c) && Flushes(CompAfter(c, h), flush) && PausedSince(c, h)
    ensures exists s :: Reachable(s) && Hung(s) && s.comp == CompAfter(c, h)
  {
    FlushCanHangExactly(c, h, flush);
    var s :| Traced(c, s, h + [flush]) && Hung(s);
    TracedRemembers(c, s, h + [flush]);
    assert (h + [flush])[..|h|] == h;
  }

  /** While paused, its own signal lost between the manager's test and the manager's wait. */
  lemma PausedFlushCanHang()
    ensures exists s :: Reachable(s) && Hung(s) && s.comp == Pause
  {
    HungAs(Pause, [], FlushPort(In));
  }

  /** Executing again, the signal of the resume lost there; the flush sends none. */
  lemma ExecutingFlushCanHang()
    ensures exists s :: Reachable(s) && Hung(s) && s.comp == Executing
  {
    HistoryMore(Pause, [], SetExecuting);
    assert [] + [SetExecuting] == [SetExecuting];
    HungAs(Pause, [SetExecuting], FlushPort(In));
  }
}
