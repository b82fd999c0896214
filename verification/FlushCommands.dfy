/**
 What one command does, from the step that begins it until the message thread is
 idle again: which ports it flags and empties, what has come back by then, and the
 state of the component.
 */
module FlushCommands {
  import opened Basics
  import opened FlushProtocol
  import opened FlushHistory

  /** The ports whose buffers the message thread hands back, step by step. */
  function HandedBack(s: State, acts: seq<Action>): seq<PortId>
    requires CanRun(s, acts)
    decreases |acts|
  {
    if acts == [] then []
    else (if acts[0].Msg? && s.msg.DrainRet? then [s.msg.p] else []) + HandedBack(Step(s, acts[0]), acts[1..])
  }

  /** The command empties port p. */
  predicate Empties(c: OmxState, cmd: Command, p: PortId) {
    match cmd
    case FlushPort(q) => p == q
    case FlushAll => true
    case SetIdle => c == Executing
    case _ => false
  }

  /** Where the message thread is once the ring of port p has been emptied. */
  predicate Over(m: MsgPc, p: PortId) {
    match m
    case Idling => true
    case Preset(_) => false
    case ClearFlag(q) => q == p || q == Out
    case UpCond(q) => q == p || q == Out
    case _ => p == In && m.p == Out
  }

  /** Of what was in the ring of port p in s, its semaphore raised, or had come before it, all has been handed back. */
  predicate Returned(s: State, t: State, p: PortId) {
    |Get(t, p).returned| >= |Get(s, p).arrived| - Get(s, p).queued
  }

  /** Senders that have not raised the semaphore: those of s, and those that came since. */
  predicate Senders(s: State, t: State, p: PortId) {
    Get(t, p).queued <= Get(s, p).queued + |Get(t, p).arrived| - |Get(s, p).arrived|
  }

  /** The command begun in s is under way in t, or done. */
  predicate Phase(s: State, cmd: Command, t: State) {
    if t.msg.Idling? then t.comp == NextComp(s.comp, cmd)
    else
      && t.comp == s.comp
      && match cmd
         case FlushPort(p) => t.mode == One && !t.msg.Preset? && t.msg.p == p
         case FlushAll => t.mode == All
         case SetIdle => t.mode == Mode.ToIdle && !t.msg.Preset? && s.comp == Executing
         case _ => false
  }

  ghost predicate During(s: State, cmd: Command, t: State) {
    && Inv(t) && Phase(s, cmd, t)
    && Senders(s, t, In) && Senders(s, t, Out)
    && (forall p :: Empties(s.comp, cmd, p) && Over(t.msg, p) ==> Returned(s, t, p))
  }

  // ---------------------------------------------------------------------------
  // What each step adds
  // ---------------------------------------------------------------------------

  /** Nothing that was handed back is taken away, and only what arrives makes senders. */
  predicate Grows(q: Port, r: Port) {
    |r.returned| >= |q.returned| && r.queued - q.queued <= |r.arrived| - |q.arrived|
  }

  /** A step that leaves the message thread and the component alone. */
  predicate Beside(s: State, t: State, p: PortId) {
    t.msg == s.msg && t.mode == s.mode && t.comp == s.comp && Grows(Get(s, p), Get(t, p))
  }

  lemma LoopGrows(s: State, p: PortId)
    requires (s.mgr.Top? || InBody(s.mgr)) && !MgrBlocked(s)
    ensures Beside(s, FlushLoopStep(s), p)
  {}

  lemma WaitGrows(s: State, p: PortId)
    requires Waiting(s.mgr) && !MgrBlocked(s)
    ensures Beside(s, WaitStep(s), p)
  {}

  lemma TakeGrows(s: State, p: PortId)
    requires Taking(s.mgr) && !MgrBlocked(s)
    ensures Beside(s, TakeStep(s), p)
  {}

  lemma ProcessGrows(s: State, choice: bool, p: PortId)
    requires Processing(s.mgr) && !MgrBlocked(s)
    ensures Beside(s, ProcessStep(s, choice), p)
  {}

  lemma MgrGrows(s: State, choice: bool, p: PortId)
    requires !MgrBlocked(s)
    ensures Beside(s, MgrStep(s, choice), p)
  {
    if s.mgr.Top? || InBody(s.mgr) { LoopGrows(s, p); }
    else if Waiting(s.mgr) { WaitGrows(s, p); }
    else if Taking(s.mgr) { TakeGrows(s, p); }
    else { ProcessGrows(s, choice, p); }
  }

  lemma MsgGrows(s: State, cmd: Command, p: PortId)
    requires !MsgBlocked(s)
    ensures Grows(Get(s, p), Get(MsgStep(s, cmd), p))
  {}

  lemma OtherGrows(s: State, a: Action, p: PortId)
    requires Enabled(s, a) && !a.Mgr? && !a.Msg?
    ensures var t := Step(s, a); t.msg == s.msg && t.mode == s.mode && t.comp == s.comp && Grows(Get(s, p), Get(t, p))
  {}

  lemma StaysReturned(s: State, t: State, u: State, p: PortId)
    requires Grows(Get(t, p), Get(u, p))
    ensures Senders(s, t, p) ==> Senders(s, u, p)
    ensures Returned(s, t, p) ==> Returned(s, u, p)
  {}

  /** A step that the message thread does not take. */
  lemma StillDuring(s: State, cmd: Command, t: State, u: State)
    requires During(s, cmd, t) && Inv(u) && u.msg == t.msg && u.mode == t.mode && u.comp == t.comp
    requires Grows(t.inp, u.inp) && Grows(t.outp, u.outp)
    ensures During(s, cmd, u)
  {
    StaysReturned(s, t, u, In);
    StaysReturned(s, t, u, Out);
    assert forall p :: Get(u, p) == u.inp || Get(u, p) == u.outp;
    forall p | Empties(s.comp, cmd, p) && Over(u.msg, p) ensures Returned(s, u, p) {
      StaysReturned(s, t, u, p);
    }
  }

  /** The step that ends a drain: nothing is left of what had its semaphore. */
  lemma DrainEnds(s: State, t: State)
    requires Inv(t) && t.msg.DrainTest? && Get(t, t.msg.p).sem == 0 && Senders(s, t, t.msg.p)
    ensures Returned(s, t, t.msg.p)
  {
    var q := Get(t, t.msg.p);
    assert q.arrived == q.returned + q.ring && |q.ring| == q.queued;
  }

  /** A step of the command that is neither its first nor outside it. */
  lemma MsgPhase(s: State, cmd: Command, t: State, any: Command)
    requires Phase(s, cmd, t) && !t.msg.Idling? && !MsgBlocked(t)
    ensures Phase(s, cmd, MsgStep(t, any))
  {}

  /** A port is emptied by a drain of it that ends. */
  lemma OverByDrain(s: State, cmd: Command, t: State, any: Command, p: PortId)
    requires Phase(s, cmd, t) && !t.msg.Idling? && !MsgBlocked(t)
    requires Empties(s.comp, cmd, p) && Over(MsgStep(t, any).msg, p)
    ensures Over(t.msg, p) || (t.msg == DrainTest(p) && Get(t, p).sem == 0)
  {}

  lemma MsgStepDuring(s: State, cmd: Command, t: State, any: Command)
    requires During(s, cmd, t) && !t.msg.Idling? && !MsgBlocked(t) && Inv(MsgStep(t, any))
    ensures During(s, cmd, MsgStep(t, any))
  {
    var u := MsgStep(t, any);
    MsgPhase(s, cmd, t, any);
    forall p ensures Grows(Get(t, p), Get(u, p)) { MsgGrows(t, any, p); }
    StaysReturned(s, t, u, In);
    StaysReturned(s, t, u, Out);
    forall p | Empties(s.comp, cmd, p) && Over(u.msg, p) ensures Returned(s, u, p) {
      OverByDrain(s, cmd, t, any, p);
      StaysReturned(s, t, u, p);
      if !Over(t.msg, p) {
        assert Senders(s, t, p) by { if p == In { assert Senders(s, t, In); } else { assert Senders(s, t, Out); } }
        DrainEnds(s, t);
      }
    }
  }

  lemma StepDuring(s: State, cmd: Command, t: State, a: Action)
    requires During(s, cmd, t) && Enabled(t, a) && Begun(t, a) == []
    ensures During(s, cmd, Step(t, a))
  {
    InvKept(t, a);
    match a
    case Mgr(choice) =>
      MgrGrows(t, choice, In);
      MgrGrows(t, choice, Out);
      StillDuring(s, cmd, t, MgrStep(t, choice));
    case Msg(any) => MsgStepDuring(s, cmd, t, any);
    case _ =>
      OtherGrows(t, a, In);
      OtherGrows(t, a, Out);
      StillDuring(s, cmd, t, Step(t, a));
  }

  lemma BeginPhase(s: State, cmd: Command)
    requires s.msg.Idling? && Managed(s.comp)
    ensures var t := Begin(s, cmd);
            && Phase(s, cmd, t) && t.inp == s.inp && t.outp == s.outp
            && (forall p :: Empties(s.comp, cmd, p) ==> !Over(t.msg, p))
  {}

  lemma BeginDuring(s: State, cmd: Command)
    requires Inv(s) && s.msg.Idling? && Managed(s.comp)
    ensures During(s, cmd, Begin(s, cmd))
  {
    var t := Begin(s, cmd);
    assert Step(s, Msg(cmd)) == t;
    InvKept(s, Msg(cmd));
    BeginPhase(s, cmd);
  }

  // ---------------------------------------------------------------------------
  // What a command has done
  // ---------------------------------------------------------------------------

  /** A property of a state under way that every step of the same command keeps. */
  ghost predicate Kept(P: State -> bool) {
    forall t, a :: P(t) && Enabled(t, a) && Begun(t, a) == [] ==> P(Step(t, a))
  }

  lemma {:induction false} RunKeeps(P: State -> bool, t: State, acts: seq<Action>)
    requires Kept(P) && P(t) && CanRun(t, acts) && Commands(t, acts) == []
    ensures P(Run(t, acts))
    decreases |acts|
  {
    if acts != [] {
      assert Begun(t, acts[0]) == [] && Commands(Step(t, acts[0]), acts[1..]) == [];
      RunKeeps(P, Step(t, acts[0]), acts[1..]);
    }
  }

  /** The message thread hands back buffers of the flushed ports only. */
  lemma {:induction false} HandsBackOnly(P: State -> bool, ports: set<PortId>, t: State, acts: seq<Action>)
    requires Kept(P) && P(t) && CanRun(t, acts) && Commands(t, acts) == []
    requires forall u :: P(u) && u.msg.DrainRet? ==> u.msg.p in ports
    ensures forall p :: p in HandedBack(t, acts) ==> p in ports
    decreases |acts|
  {
    if acts != [] {
      assert Begun(t, acts[0]) == [] && Commands(Step(t, acts[0]), acts[1..]) == [];
      HandsBackOnly(P, ports, Step(t, acts[0]), acts[1..]);
    }
  }

  /** The ports a command empties, in a set. */
  function Emptied(c: OmxState, cmd: Command): set<PortId> {
    (if Empties(c, cmd, In) then {In} else {}) + (if Empties(c, cmd, Out) then {Out} else {})
  }

  lemma HandsBackEmptied(s: State, cmd: Command, t: State)
    requires Phase(s, cmd, t) && t.msg.DrainRet?
    ensures t.msg.p in Emptied(s.comp, cmd)
  {
    match t.msg.p
    case In => assert Empties(s.comp, cmd, In);
    case Out => assert Empties(s.comp, cmd, Out);
  }

  lemma DuringIsKept(s: State, cmd: Command, P: State -> bool)
    requires forall t :: P(t) <==> During(s, cmd, t)
    ensures Kept(P) && forall t :: P(t) && t.msg.DrainRet? ==> t.msg.p in Emptied(s.comp, cmd)
  {
    forall t, a | P(t) && Enabled(t, a) && Begun(t, a) == [] ensures P(Step(t, a)) {
      StepDuring(s, cmd, t, a);
    }
    forall t | P(t) && t.msg.DrainRet? ensures t.msg.p in Emptied(s.comp, cmd) {
      HandsBackEmptied(s, cmd, t);
    }
  }

  lemma RunsInside(P: State -> bool, ports: set<PortId>, t: State, acts: seq<Action>)
    requires Kept(P) && P(t) && CanRun(t, acts) && Commands(t, acts) == []
    requires forall u :: P(u) && u.msg.DrainRet? ==> u.msg.p in ports
    ensures P(Run(t, acts)) && forall p :: p in HandedBack(t, acts) ==> p in ports
  {
    RunKeeps(P, t, acts);
    HandsBackOnly(P, ports, t, acts);
  }

  /** Any run from the step that begins a command, as long as it begins no other. */
  lemma CommandRuns(s: State, cmd: Command, acts: seq<Action>)
    requires Inv(s) && s.msg.Idling? && Managed(s.comp) && CanRun(Begin(s, cmd), acts) && Commands(Begin(s, cmd), acts) == []
    ensures During(s, cmd, Run(Begin(s, cmd), acts))
    ensures forall p :: p in HandedBack(Begin(s, cmd), acts) ==> p in Emptied(s.comp, cmd)
  {
    var P := t => During(s, cmd, t);
    BeginDuring(s, cmd);
    DuringIsKept(s, cmd, P);
    RunsInside(P, Emptied(s.comp, cmd), Begin(s, cmd), acts);
  }

  lemma Begins(s: State, cmd: Command, acts: seq<Action>)
    requires s.msg.Idling? && CanRun(s, [Msg(cmd)] + acts) && Commands(s, [Msg(cmd)] + acts) == [cmd]
    ensures CanRun(Begin(s, cmd), acts) && Commands(Begin(s, cmd), acts) == []
    ensures Run(s, [Msg(cmd)] + acts) == Run(Begin(s, cmd), acts)
    ensures HandedBack(s, [Msg(cmd)] + acts) == HandedBack(Begin(s, cmd), acts)
  {
    assert ([Msg(cmd)] + acts)[1..] == acts && Step(s, Msg(cmd)) == Begin(s, cmd);
    assert [cmd] == [cmd] + Commands(Begin(s, cmd), acts);
  }

  lemma OnePortSettled(s: State, p: PortId, t: State)
    requires During(s, FlushPort(p), t)
    ensures (p == In ==> !t.flagOut) && (p == Out ==> !t.flagIn) && t.comp == s.comp
    ensures t.msg.Idling? ==> !t.flagIn && !t.flagOut && Returned(s, t, p)
  {
    assert t.msg.Idling? ==> Over(t.msg, p) && Empties(s.comp, FlushPort(p), p);
  }

  /**
   A flush of one port, in every interleaving: meanwhile the other port is not
   flagged and the message thread hands none of its buffers back; when it is idle
   again, everything that had come to port p when the command began has been handed
   back, but for senders that had not raised the semaphore.
   */
  lemma OnePortIsFlushed(s: State, p: PortId, acts: seq<Action>)
    requires Reachable(s) && s.msg.Idling?
    requires CanRun(s, [Msg(FlushPort(p))] + acts) && Commands(s, [Msg(FlushPort(p))] + acts) == [FlushPort(p)]
    ensures var t := Run(s, [Msg(FlushPort(p))] + acts);
            && (p == In ==> !t.flagOut) && (p == Out ==> !t.flagIn) && t.comp == s.comp
            && (t.msg.Idling? ==> !t.flagIn && !t.flagOut)
            && (t.msg.Idling? && p == In ==> |t.inp.returned| >= |s.inp.arrived| - s.inp.queued)
            && (t.msg.Idling? && p == Out ==> |t.outp.returned| >= |s.outp.arrived| - s.outp.queued)
    ensures forall q :: q in HandedBack(s, [Msg(FlushPort(p))] + acts) ==> q == p
  {
    ReachableManaged(s);
    Begins(s, FlushPort(p), acts);
    CommandRuns(s, FlushPort(p), acts);
    OnePortSettled(s, p, Run(Begin(s, FlushPort(p)), acts));
  }

  lemma BothPortsSettled(s: State, cmd: Command, t: State)
    requires During(s, cmd, t) && t.msg.Idling? && (cmd == FlushAll || (cmd == SetIdle && s.comp == Executing))
    ensures !t.flagIn && !t.flagOut && t.comp == (if cmd == FlushAll then s.comp else Idle)
    ensures Returned(s, t, In) && Returned(s, t, Out)
  {
    assert Over(t.msg, In) && Over(t.msg, Out) && Empties(s.comp, cmd, In) && Empties(s.comp, cmd, Out);
  }

  /** A flush of all ports, and a command from Executing to Idle, do so for both ports. */
  lemma BothPortsAreFlushed(s: State, cmd: Command, acts: seq<Action>)
    requires Reachable(s) && s.msg.Idling? && (cmd == FlushAll || (cmd == SetIdle && s.comp == Executing))
    requires CanRun(s, [Msg(cmd)] + acts) && Commands(s, [Msg(cmd)] + acts) == [cmd]
    ensures var t := Run(s, [Msg(cmd)] + acts);
            t.msg.Idling? ==>
              && !t.flagIn && !t.flagOut && t.comp == (if cmd == FlushAll then s.comp else Idle)
              && |t.inp.returned| >= |s.inp.arrived| - s.inp.queued && |t.outp.returned| >= |s.outp.arrived| - s.outp.queued
  {
    ReachableManaged(s);
    Begins(s, cmd, acts);
    CommandRuns(s, cmd, acts);
    var t := Run(Begin(s, cmd), acts);
    if t.msg.Idling? { BothPortsSettled(s, cmd, t); }
  }

  lemma NothingSettled(s: State, cmd: Command, t: State)
    requires During(s, cmd, t) && (cmd == SetExecuting || cmd == SetPause || (cmd == SetIdle && s.comp != Executing))
    ensures t.msg.Idling? && !t.flagIn && !t.flagOut && Emptied(s.comp, cmd) == {}
    ensures t.comp == if cmd == SetExecuting then Executing else if cmd == SetPause then Pause else Idle
  {}

  /** Any other state command changes the state at once; the message thread hands nothing back and raises no flag. */
  lemma OthersDoNotFlush(s: State, cmd: Command, acts: seq<Action>)
    requires Reachable(s) && s.msg.Idling? && (cmd == SetExecuting || cmd == SetPause || (cmd == SetIdle && s.comp != Executing))
    requires CanRun(s, [Msg(cmd)] + acts) && Commands(s, [Msg(cmd)] + acts) == [cmd]
    ensures var t := Run(s, [Msg(cmd)] + acts);
            && t.msg.Idling? && !t.flagIn && !t.flagOut && HandedBack(s, [Msg(cmd)] + acts) == []
            && t.comp == if cmd == SetExecuting then Executing else if cmd == SetPause then Pause else Idle
  {
    ReachableManaged(s);
    Begins(s, cmd, acts);
    CommandRuns(s, cmd, acts);
    NothingSettled(s, cmd, Run(Begin(s, cmd), acts));
    SomeIsIn(HandedBack(Begin(s, cmd), acts));
  }

  lemma SomeIsIn(q: seq<PortId>)
    ensures q != [] ==> In in q || Out in q
  {
    if q != [] {
      assert q[0] in q && (q[0] == In || q[0] == Out);
    }
  }

  lemma ReachableManaged(s: State)
    requires Reachable(s)
    ensures Inv(s) && Managed(s.comp)
  {
    ReachableInv(s);
    var s0: State, acts: seq<Action> :| Init(s0) && CanRun(s0, acts) && Run(s0, acts) == s;
    RunStaysSane(s0.comp, s0, acts);
  }
}
