/**
 The life of a component: SendCommand, the message thread and the state changes
 it makes, in every interleaving with the threads that send commands.
 */
module Lifecycle {
  import opened Basics

  /** The parameter of a state command: a state, or a number that is none. */
  datatype Dest = To(s: OmxState) | Undefined(n: nat)

  datatype Command =
    | StateSet(dest: Dest)
    | Flush(port: Option<nat>) | PortDisable(port: Option<nat>) | PortEnable(port: Option<nat>) | MarkBuffer(port: Option<nat>)
    | Unsupported     // OMX_ALL is no port

  datatype Event = CmdComplete(dest: Dest, at: OmxState) | EventError(err: OmxError)

  /** The fields that decide: the thread is the buffer management thread. */
  datatype Core = Core(state: OmxState, transient: Transient, thread: bool, eosReached: bool)

  /** The states in which buffers are managed. */
  predicate Managed(s: OmxState) { s == Idle || s == Executing || s == Pause }

  /** The edges of the state graph of section 3.1.1.2 of the OpenMAX IL 1.1.2 specification that are implemented. */
  predicate Edge(from: OmxState, to: OmxState) {
    || (from == Loaded && (to == WaitForResources || to == Idle))
    || (from == WaitForResources && (to == Loaded || to == Idle))
    || (Managed(from) && Managed(to) && from != to)
    || (from == Idle && to == Loaded)
    || (from != Invalid && to == Invalid)
  }

  /** Ports are populated or emptied, which may fail, only on these two edges. */
  predicate TouchesPorts(from: OmxState, to: OmxState) {
    (from == Loaded && to == Idle) || (from == Idle && to == Loaded)
  }

  /** What a state command answers; `ports` is what populating or emptying the ports answered. */
  function Answer(from: OmxState, dest: Dest, ports: OmxError): OmxError {
    match dest
    case Undefined(_) => ErrorNone
    case To(to) =>
      if from == Invalid || to == Invalid then ErrorInvalidState
      else if from == to then ErrorSameState
      else if !Edge(from, to) then ErrorIncorrectStateTransition
      else if TouchesPorts(from, to) then ports
      else ErrorNone
  }

  /** The state changes exactly when the answer is ErrorNone, or the command was to Invalid. */
  function Changed(c: Core, dest: Dest, ports: OmxError): Core {
    match dest
    case Undefined(_) => c
    case To(to) =>
      if to == Invalid then c.(state := Invalid, thread := false)
      else if Answer(c.state, dest, ports) != ErrorNone then c
      else Core(to,
                if c.state == Idle && to == Executing then NoTransient else c.transient,
                if to == Loaded then false else if c.state == Loaded && to == Idle then true else c.thread,
                if c.state == Idle && (to == Executing || to == Pause) then false else c.eosReached)
  }

  /** The graph in full, pair by pair. */
  lemma AsDocumented(c: Core, dest: Dest, ports: OmxError)
    requires c.thread ==> Managed(c.state)
    ensures var from, d, err := c.state, Changed(c, dest, ports), Answer(c.state, dest, ports);
            && (from == Invalid && dest.To? ==> err == ErrorInvalidState && d.state == Invalid)
            && (dest == To(Invalid) ==> err == ErrorInvalidState && d.state == Invalid && !d.thread)
            && (dest == To(from) && from != Invalid ==> err == ErrorSameState && d == c)
            && (from in {Idle, Executing, Pause} && dest.To? && dest.s in {Idle, Executing, Pause} && dest.s != from ==>
                  err == ErrorNone && d.state == dest.s && d.thread == c.thread)
            && ((from == Loaded && dest == To(Idle)) || (from == Idle && dest == To(Loaded)) ==>
                  err == ports && if ports == ErrorNone then d.state == dest.s && d.thread == (dest.s == Idle) else d == c)
            && ((from == Loaded && dest == To(WaitForResources)) || (from == WaitForResources && dest in {To(Loaded), To(Idle)}) ==>
                  err == ErrorNone && d.state == dest.s && !d.thread)
            && ((from in {Loaded, WaitForResources} && dest in {To(Executing), To(Pause)})
                || (from in {Idle, Executing, Pause} && dest == To(WaitForResources))
                || (from in {Executing, Pause} && dest == To(Loaded)) ==>
                  err == ErrorIncorrectStateTransition && d == c)
            && (dest.Undefined? ==> err == ErrorNone && d == c)
            && d.eosReached == (c.eosReached && !(from == Idle && (d.state == Executing || d.state == Pause)))
            && d.transient == if from == Idle && d.state == Executing then NoTransient else c.transient
  {}

  class Component {
    var state: OmxState
    var transient: Transient
    var thread: bool
    var eosReached: bool
    var queue: seq<Command>
    var messageSem: nat
    var events: seq<Event>
    const numPorts: nat

    constructor (numPorts: nat)
      ensures View() == Core(Loaded, NoTransient, false, false)
      ensures queue == [] && messageSem == 0 && events == [] && this.numPorts == numPorts
    {
      state, transient, thread, eosReached := Loaded, NoTransient, false, false;
      queue, messageSem, events := [], 0, [];
      this.numPorts := numPorts;
    }

    function View(): Core reads this { Core(state, transient, thread, eosReached) }

    /**
     The state graph, branch by branch as the code has it.  Between Idle, Executing
     and Pause every change is made; between Loaded and Idle if the ports can be
     populated or emptied; WaitForResources is entered from Loaded and left for
     Loaded or Idle; Invalid is entered from everywhere; no other change is made.
     */
    method DoStateSet(dest: Dest, ports: OmxError) returns (err: OmxError)
      requires thread ==> Managed(state)
      modifies `state, `transient, `thread, `eosReached
      ensures err == Answer(old(state), dest, ports) && View() == Changed(old(View()), dest, ports)
      ensures old(state) == Invalid && dest.To? ==> err == ErrorInvalidState && state == Invalid
      ensures dest == To(Invalid) ==> err == ErrorInvalidState && state == Invalid && !thread
      ensures dest == To(old(state)) && old(state) != Invalid ==> err == ErrorSameState && View() == old(View())
      ensures old(state) in {Idle, Executing, Pause} && dest.To? && dest.s in {Idle, Executing, Pause} && dest.s != old(state) ==>
                err == ErrorNone && state == dest.s && thread == old(thread)
      ensures (old(state) == Loaded && dest == To(Idle)) || (old(state) == Idle && dest == To(Loaded)) ==>
                && err == ports
                && (if ports == ErrorNone then state == dest.s && thread == (dest.s == Idle) else View() == old(View()))
      ensures (old(state) == Loaded && dest == To(WaitForResources)) || (old(state) == WaitForResources && dest == To(Loaded))
              || (old(state) == WaitForResources && dest == To(Idle)) ==>
                err == ErrorNone && state == dest.s && !thread
      ensures (old(state) in {Loaded, WaitForResources} && dest.To? && dest.s in {Executing, Pause})
              || (old(state) in {Idle, Executing, Pause} && dest == To(WaitForResources))
              || (old(state) in {Executing, Pause} && dest == To(Loaded)) ==>
                err == ErrorIncorrectStateTransition && View() == old(View())
      ensures dest.Undefined? ==> err == ErrorNone && View() == old(View())
      ensures eosReached == (old(eosReached) && !(old(state) == Idle && (state == Executing || state == Pause)))
      ensures transient == if old(state) == Idle && state == Executing then NoTransient else old(transient)
    {
      ghost var c := View();
      err := Switch(dest, ports);
      AsDocumented(c, dest, ports);
    }

    /** The branches, by destination. */
    method Switch(dest: Dest, ports: OmxError) returns (err: OmxError)
      requires thread ==> Managed(state)
      modifies `state, `transient, `thread, `eosReached
      ensures err == Answer(old(state), dest, ports) && View() == Changed(old(View()), dest, ports)
    {
      match dest
      case To(Loaded) => err := SetLoaded(ports);
      case To(WaitForResources) => err := SetWaitForResources();
      case To(Idle) => err := SetIdle(ports);
      case To(Pause) => err := SetPause();
      case To(Executing) => err := SetExecuting();
      case To(Invalid) => err := SetInvalid();
      case Undefined(_) => err := ErrorNone;
    }

    method SetLoaded(ports: OmxError) returns (err: OmxError)
      requires thread ==> Managed(state)
      modifies `state, `transient, `thread, `eosReached
      ensures err == Answer(old(state), To(Loaded), ports) && View() == Changed(old(View()), To(Loaded), ports)
    {
      err := ErrorNone;
      match state
      case Invalid => err := ErrorInvalidState;
      case WaitForResources => state := Loaded;
      case Loaded => err := ErrorSameState;
      case Idle =>
        err := ports;
        if err != ErrorNone {
          return;
        }
        state := Loaded;
        if thread {
          thread := false;
        }
      case _ => err := ErrorIncorrectStateTransition;
    }

    method SetWaitForResources() returns (err: OmxError)
      requires thread ==> Managed(state)
      modifies `state, `transient, `thread, `eosReached
      ensures err == Answer(old(state), To(WaitForResources), ErrorNone) && View() == Changed(old(View()), To(WaitForResources), ErrorNone)
    {
      err := ErrorNone;
      match state
      case Invalid => err := ErrorInvalidState;
      case Loaded => state := WaitForResources;
      case WaitForResources => err := ErrorSameState;
      case _ => err := ErrorIncorrectStateTransition;
    }

    method SetIdle(ports: OmxError) returns (err: OmxError)
      requires thread ==> Managed(state)
      modifies `state, `transient, `thread, `eosReached
      ensures err == Answer(old(state), To(Idle), ports) && View() == Changed(old(View()), To(Idle), ports)
    {
      err := ErrorNone;
      match state
      case Invalid => err := ErrorInvalidState;
      case WaitForResources => state := Idle;
      case Loaded =>
        err := ports;
        if err != ErrorNone {
          return;
        }
        state := Idle;
        thread := true;
      case Idle => err := ErrorSameState;
      case Executing => state := Idle;
      case Pause => state := Idle;
    }

    method SetPause() returns (err: OmxError)
      requires thread ==> Managed(state)
      modifies `state, `transient, `thread, `eosReached
      ensures err == Answer(old(state), To(Pause), ErrorNone) && View() == Changed(old(View()), To(Pause), ErrorNone)
    {
      err := ErrorNone;
      match state
      case Invalid => err := ErrorInvalidState;
      case Pause => err := ErrorSameState;
      case Idle =>
        eosReached := false;
        state := Pause;
      case Executing => state := Pause;
      case _ => err := ErrorIncorrectStateTransition;
    }

    method SetExecuting() returns (err: OmxError)
      requires thread ==> Managed(state)
      modifies `state, `transient, `thread, `eosReached
      ensures err == Answer(old(state), To(Executing), ErrorNone) && View() == Changed(old(View()), To(Executing), ErrorNone)
    {
      err := ErrorNone;
      match state
      case Invalid => err := ErrorInvalidState;
      case Idle =>
        state := Executing;
        eosReached := false;
        transient := NoTransient;
      case Pause => state := Executing;
      case Executing => err := ErrorSameState;
      case _ => err := ErrorIncorrectStateTransition;
    }

    method SetInvalid() returns (err: OmxError)
      requires thread ==> Managed(state)
      modifies `state, `transient, `thread, `eosReached
      ensures err == Answer(old(state), To(Invalid), ErrorNone) && View() == Changed(old(View()), To(Invalid), ErrorNone)
    {
      err := ErrorNone;
      if state != Invalid {
        state := Invalid;
        if thread {
          thread := false;
        }
      }
      err := ErrorInvalidState;
    }

    /** MessageHandler, for a state command. */
    method HandleStateSet(dest: Dest, ports: OmxError)
      requires thread ==> Managed(state)
      modifies `state, `transient, `thread, `eosReached, `events
      ensures View() == Changed(old(View()), dest, ports)
      ensures events == old(events) + [Reply(old(View()), dest, ports)]
      ensures dest.To? && state == dest.s && old(state) != state && state != Invalid ==> events == old(events) + [CmdComplete(dest, state)]
      ensures dest.To? && (state != dest.s || old(state) == state || state == Invalid) ==>
                |events| == |old(events)| + 1 && events[|old(events)|].EventError?
    {
      var err := DoStateSet(dest, ports);
      if err != ErrorNone {
        events := events + [EventError(err)];
      } else {
        events := events + [CmdComplete(dest, state)];
      }
    }

    method SendCommand(cmd: Command) returns (err: OmxError)
      modifies `transient, `queue, `messageSem
      ensures err == Refusal(old(state), cmd, numPorts)
      ensures state == Invalid ==> err == ErrorInvalidState
      ensures state != Invalid && cmd.Unsupported? ==> err == ErrorUnsupportedIndex
      ensures state != Invalid && cmd.StateSet? ==> err == ErrorNone
      ensures state != Invalid && !cmd.StateSet? && !cmd.Unsupported? ==>
                err == if cmd.port.Some? && cmd.port.value >= numPorts then ErrorBadPortIndex else ErrorNone
      ensures state == Loaded && cmd == StateSet(To(Idle)) ==> transient == LoadedToIdle
      ensures state == Idle && cmd == StateSet(To(Loaded)) ==> transient == IdleToLoaded
      ensures state == Executing && cmd == StateSet(To(Idle)) ==> transient == ExecutingToIdle
      ensures !(cmd == StateSet(To(Idle)) && state in {Loaded, Executing}) && !(cmd == StateSet(To(Loaded)) && state == Idle) ==>
                transient == old(transient)
      ensures err != ErrorNone ==> queue == old(queue) && messageSem == old(messageSem) && transient == old(transient)
      ensures err == ErrorNone ==>
                && transient == Announced(old(state), cmd, old(transient))
                && queue == (if old(|queue|) < 9 then old(queue) + [cmd] else old(queue)) && messageSem == old(messageSem) + 1
    {
      if state == Invalid {
        return ErrorInvalidState;
      }
      match cmd {
        case StateSet(dest) =>
          if dest == To(Idle) && state == Loaded {
            transient := LoadedToIdle;
          } else if dest == To(Loaded) && state == Idle {
            transient := IdleToLoaded;
          } else if dest == To(Idle) && state == Executing {
            transient := ExecutingToIdle;
          }
        case Unsupported => return ErrorUnsupportedIndex;
        case _ =>
          if cmd.port.Some? && cmd.port.value >= numPorts {
            return ErrorBadPortIndex;
          }
      }
      if |queue| < RING_SLOTS {
        queue := queue + [cmd];
      }
      messageSem := messageSem + 1;
      return ErrorNone;
    }
  }

  /** The one event a state command gives rise to. */
  function Reply(c: Core, dest: Dest, ports: OmxError): Event {
    var err := Answer(c.state, dest, ports);
    if err != ErrorNone then EventError(err) else CmdComplete(dest, Changed(c, dest, ports).state)
  }

  /** How SendCommand answers. */
  function Refusal(state: OmxState, cmd: Command, numPorts: nat): OmxError {
    if state == Invalid then ErrorInvalidState
    else match cmd
         case StateSet(_) => ErrorNone
         case Unsupported => ErrorUnsupportedIndex
         case _ => if cmd.port.Some? && cmd.port.value >= numPorts then ErrorBadPortIndex else ErrorNone
  }

  /** The transient state SendCommand leaves: it looks at the state as it is when the command is sent. */
  function Announced(state: OmxState, cmd: Command, was: Transient): Transient {
    if cmd == StateSet(To(Idle)) && state == Loaded then LoadedToIdle
    else if cmd == StateSet(To(Loaded)) && state == Idle then IdleToLoaded
    else if cmd == StateSet(To(Idle)) && state == Executing then ExecutingToIdle
    else was
  }

  // ---------------------------------------------------------------------------
  // Runs
  // ---------------------------------------------------------------------------

  /** Where the message thread is: the steps of one turn of its loop. */
  datatype Pc = Waiting | Woken | Taking | Handling(cmd: Command) | Ended

  /** `late` senders have queued their command and not raised messageSem; the rest is history. */
  datatype State = State(
    core: Core, pc: Pc, queue: seq<Command>, messageSem: nat, late: nat,
    events: seq<Event>, sent: seq<Command>, handled: seq<Command>, trace: seq<OmxState>,
    unresourced: bool)      // the managed states were last entered from WaitForResources

  datatype Action = Send(cmd: Command) | Up | Step(ports: OmxError)

  predicate Enabled(s: State, numPorts: nat, a: Action) {
    match a
    case Send(cmd) => Refusal(s.core.state, cmd, numPorts) == ErrorNone
    case Up => s.late > 0
    case Step(_) => if s.pc.Waiting? then s.messageSem > 0 else !s.pc.Ended?
  }

  function Handled(s: State, cmd: Command, ports: OmxError): State {
    match cmd
    case StateSet(dest) =>
      var c := Changed(s.core, dest, ports);
      s.(pc := Waiting, handled := s.handled + [cmd], core := c, trace := s.trace + [c.state],
         events := s.events + [Reply(s.core, dest, ports)],
         unresourced := Managed(c.state) && if Managed(s.core.state) then s.unresourced else s.core.state == WaitForResources)
    case _ => s.(pc := Waiting, handled := s.handled + [cmd])
  }

  function Next(s: State, numPorts: nat, a: Action): State
    requires Enabled(s, numPorts, a)
  {
    match a
    case Send(cmd) =>
      s.(core := s.core.(transient := Announced(s.core.state, cmd, s.core.transient)),
         queue := Enqueued(s.queue, cmd), late := s.late + 1, sent := s.sent + [cmd])
    case Up => s.(late := s.late - 1, messageSem := s.messageSem + 1)
    case Step(ports) =>
      match s.pc
      case Waiting => s.(messageSem := s.messageSem - 1, pc := Woken)
      case Woken => s.(pc := if s.core.state == Invalid then Ended else Taking)
      case Taking => if s.queue == [] then s.(pc := Ended) else s.(queue := s.queue[1..], pc := Handling(s.queue[0]))
      case Handling(cmd) => Handled(s, cmd, ports)
  }

  function Start(): State {
    State(Core(Loaded, NoTransient, false, false), Waiting, [], 0, 0, [], [], [], [Loaded], false)
  }

  /** The command the message thread has taken. */
  function InHand(s: State): seq<Command> { if s.pc.Handling? then [s.pc.cmd] else [] }

  /** How many commands have been sent and not been taken. */
  function Pending(s: State): int { |s.sent| - |s.handled| - |InHand(s)| }

  predicate Allowed(s: State, numPorts: nat, limit: nat, a: Action) {
    Enabled(s, numPorts, a) && (a.Send? ==> Pending(s) < limit)
  }

  /** A run in which never more than `limit` commands are pending. */
  predicate CanRun(s: State, numPorts: nat, limit: nat, acts: seq<Action>)
    decreases |acts|
  {
    acts == [] || (Allowed(s, numPorts, limit, acts[0]) && CanRun(Next(s, numPorts, acts[0]), numPorts, limit, acts[1..]))
  }

  function Run(s: State, numPorts: nat, limit: nat, acts: seq<Action>): State
    requires CanRun(s, numPorts, limit, acts)
    decreases |acts|
  {
    if acts == [] then s else Run(Next(s, numPorts, acts[0]), numPorts, limit, acts[1..])
  }

  ghost predicate Leads(numPorts: nat, limit: nat, s: State) {
    exists acts :: CanRun(Start(), numPorts, limit, acts) && Run(Start(), numPorts, limit, acts) == s
  }

  /** As long as the ring has room for every command. */
  ghost predicate Reachable(s: State, numPorts: nat) { Leads(numPorts, RING_SLOTS, s) }

  /** The states the component has been in make a path in the graph. */
  predicate Path(trace: seq<OmxState>) {
    forall i :: 0 <= i < |trace| - 1 ==> trace[i] != Invalid && (trace[i + 1] == trace[i] || Edge(trace[i], trace[i + 1]))
  }

  /** The events are about the state commands handled, one each, in order. */
  predicate Replies(handled: seq<Command>, events: seq<Event>) {
    if handled == [] then events == []
    else
      var cmd := handled[|handled| - 1];
      if cmd.StateSet? then
        && events != []
        && (events[|events| - 1].EventError? || (events[|events| - 1].CmdComplete? && events[|events| - 1].dest == cmd.dest))
        && Replies(handled[..|handled| - 1], events[..|events| - 1])
      else Replies(handled[..|handled| - 1], events)
  }

  predicate Truthful(events: seq<Event>) {
    forall i :: 0 <= i < |events| ==>
      match events[i]
      case CmdComplete(To(s), at) => at == s
      case _ => true
  }

  predicate QueueInv(s: State) {
    && s.messageSem + s.late + Bit(s.pc.Woken? || s.pc.Taking? || s.pc.Ended?) == |s.queue| <= RING_SLOTS
    && s.sent == s.handled + InHand(s) + s.queue
  }

  predicate CoreInv(s: State) {
    && s.trace != [] && s.trace[0] == Loaded && s.trace[|s.trace| - 1] == s.core.state && Path(s.trace)
    && (s.core.thread <==> Managed(s.core.state) && !s.unresourced)
    && (s.unresourced ==> Managed(s.core.state))
    && (s.pc.Ended? ==> s.core.state == Invalid)
    && (s.pc.Taking? || s.pc.Handling? ==> s.core.state != Invalid)
  }

  predicate EventInv(s: State) { Replies(s.handled, s.events) && Truthful(s.events) }

  lemma {:induction false} EdgesOnly(c: Core, dest: Dest, ports: OmxError)
    ensures var d := Changed(c, dest, ports); d.state == c.state || Edge(c.state, d.state)
    ensures Reply(c, dest, ports).CmdComplete? && dest.To? ==> Changed(c, dest, ports).state == dest.s
  {}

  lemma {:induction false} QueueKept(s: State, numPorts: nat, a: Action)
    requires QueueInv(s) && Enabled(s, numPorts, a) && (a.Send? ==> |s.queue| < RING_SLOTS)
    ensures QueueInv(Next(s, numPorts, a))
  {
    if a.Send? {
      assert s.handled + InHand(s) + (s.queue + [a.cmd]) == (s.handled + InHand(s) + s.queue) + [a.cmd];
    } else if a.Step? && s.pc.Taking? {
      assert s.queue == [s.queue[0]] + s.queue[1..];
      assert s.handled + [s.queue[0]] + s.queue[1..] == s.handled + [] + s.queue;
    } else if a.Step? && s.pc.Handling? {
      assert (s.handled + [s.pc.cmd]) + [] + s.queue == s.handled + [s.pc.cmd] + s.queue;
    }
  }

  lemma {:induction false} CoreKept(s: State, numPorts: nat, a: Action)
    requires QueueInv(s) && CoreInv(s) && Enabled(s, numPorts, a)
    ensures CoreInv(Next(s, numPorts, a))
  {
    if a.Step? && s.pc.Handling? && s.pc.cmd.StateSet? {
      EdgesOnly(s.core, s.pc.cmd.dest, a.ports);
    }
  }

  lemma RepliesMore(handled: seq<Command>, events: seq<Event>, cmd: Command, reply: Event)
    requires Replies(handled, events)
    ensures !cmd.StateSet? ==> Replies(handled + [cmd], events)
    ensures cmd.StateSet? && (reply.EventError? || reply.dest == cmd.dest) ==> Replies(handled + [cmd], events + [reply])
  {
    assert (handled + [cmd])[..|handled|] == handled && (events + [reply])[..|events|] == events;
  }

  lemma {:induction false} EventsKept(s: State, numPorts: nat, a: Action)
    requires EventInv(s) && Enabled(s, numPorts, a)
    ensures EventInv(Next(s, numPorts, a))
  {
    if a.Step? && s.pc.Handling? {
      var cmd := s.pc.cmd;
      var reply := if cmd.StateSet? then Reply(s.core, cmd.dest, a.ports) else EventError(ErrorNone);
      RepliesMore(s.handled, s.events, cmd, reply);
      if cmd.StateSet? {
        EdgesOnly(s.core, cmd.dest, a.ports);
      }
    }
  }

  lemma {:induction false} RunKeeps(s: State, numPorts: nat, limit: nat, acts: seq<Action>)
    requires QueueInv(s) && CoreInv(s) && EventInv(s) && CanRun(s, numPorts, limit, acts) && limit <= RING_SLOTS
    ensures var t := Run(s, numPorts, limit, acts); QueueInv(t) && CoreInv(t) && EventInv(t)
    decreases |acts|
  {
    if acts == [] {
    } else {
      QueueKept(s, numPorts, acts[0]);
      CoreKept(s, numPorts, acts[0]);
      EventsKept(s, numPorts, acts[0]);
      RunKeeps(Next(s, numPorts, acts[0]), numPorts, limit, acts[1..]);
    }
  }

  lemma LeadsInv(numPorts: nat, limit: nat, s: State)
    requires Leads(numPorts, limit, s) && limit <= RING_SLOTS
    ensures QueueInv(s) && CoreInv(s) && EventInv(s)
  {
    var acts :| CanRun(Start(), numPorts, limit, acts) && Run(Start(), numPorts, limit, acts) == s;
    RunKeeps(Start(), numPorts, limit, acts);
  }

  lemma ReachableInv(s: State, numPorts: nat)
    requires Reachable(s, numPorts)
    ensures QueueInv(s) && CoreInv(s) && EventInv(s)
  {
    LeadsInv(numPorts, RING_SLOTS, s);
  }

  lemma {:induction false} OneMore(s: State, numPorts: nat, limit: nat, acts: seq<Action>, a: Action)
    requires CanRun(s, numPorts, limit, acts) && Allowed(Run(s, numPorts, limit, acts), numPorts, limit, a)
    ensures CanRun(s, numPorts, limit, acts + [a])
    ensures Run(s, numPorts, limit, acts + [a]) == Next(Run(s, numPorts, limit, acts), numPorts, a)
    decreases |acts|
  {
    if acts == [] {
      assert acts + [a] == [a] && CanRun(Next(s, numPorts, a), numPorts, limit, []);
    } else {
      OneMore(Next(s, numPorts, acts[0]), numPorts, limit, acts[1..], a);
      assert (acts + [a])[1..] == acts[1..] + [a];
    }
  }

  lemma LeadsOn(numPorts: nat, limit: nat, s: State, a: Action)
    requires Leads(numPorts, limit, s) && Allowed(s, numPorts, limit, a)
    ensures Leads(numPorts, limit, Next(s, numPorts, a))
  {
    var acts :| CanRun(Start(), numPorts, limit, acts) && Run(Start(), numPorts, limit, acts) == s;
    OneMore(Start(), numPorts, limit, acts, a);
  }

  lemma StartIsReached(numPorts: nat, limit: nat)
    ensures Leads(numPorts, limit, Start())
  {
    assert CanRun(Start(), numPorts, limit, []) && Run(Start(), numPorts, limit, []) == Start();
  }

  // ---------------------------------------------------------------------------
  // What every run keeps
  // ---------------------------------------------------------------------------

  /** Every run stays on the state graph. */
  lemma StatesFollowTheGraph(s: State, numPorts: nat)
    requires Reachable(s, numPorts)
    ensures Path(s.trace) && s.trace != [] && s.trace[0] == Loaded && s.trace[|s.trace| - 1] == s.core.state
  {
    ReachableInv(s, numPorts);
  }

  /** The buffer management thread exists exactly in the managed states, unless they were entered from WaitForResources. */
  lemma ThreadExistsExactly(s: State, numPorts: nat)
    requires Reachable(s, numPorts)
    ensures s.core.thread <==> Managed(s.core.state) && !s.unresourced
  {
    ReachableInv(s, numPorts);
  }

  /** A completion event names the state the component was in. */
  lemma CompletionIsTruthful(s: State, numPorts: nat, i: nat)
    requires Reachable(s, numPorts) && i < |s.events| && s.events[i].CmdComplete? && s.events[i].dest.To?
    ensures s.events[i].at == s.events[i].dest.s
  {
    ReachableInv(s, numPorts);
  }

  /**
   Commands are handled once, in the order sent; the semaphore never promises more
   than the ring holds, so the message thread never finds it empty; each state
   command handled has given one event, in order.
   */
  lemma CommandsHandledInOrder(s: State, numPorts: nat)
    requires Reachable(s, numPorts)
    ensures s.sent == s.handled + InHand(s) + s.queue && |s.queue| <= RING_SLOTS
    ensures s.messageSem <= |s.queue| && (s.pc.Taking? ==> s.queue != [])
    ensures Replies(s.handled, s.events)
    ensures s.core.state != Invalid ==> !s.pc.Ended?
  {
    ReachableInv(s, numPorts);
  }

  function CountStateSet(cmds: seq<Command>): nat {
    if cmds == [] then 0 else CountStateSet(cmds[..|cmds| - 1]) + Bit(cmds[|cmds| - 1].StateSet?)
  }

  lemma {:induction false} OneEventEach(handled: seq<Command>, events: seq<Event>)
    requires Replies(handled, events)
    ensures |events| == CountStateSet(handled)
  {
    if handled == [] {
    } else if handled[|handled| - 1].StateSet? {
      OneEventEach(handled[..|handled| - 1], events[..|events| - 1]);
    } else {
      OneEventEach(handled[..|handled| - 1], events);
    }
  }

  /** Invalid is for ever. */
  lemma {:induction false} InvalidIsAbsorbing(s: State, numPorts: nat, limit: nat, acts: seq<Action>)
    requires s.core.state == Invalid && CanRun(s, numPorts, limit, acts)
    ensures Run(s, numPorts, limit, acts).core.state == Invalid && Run(s, numPorts, limit, acts).sent == s.sent
    decreases |acts|
  {
    if acts == [] {
    } else {
      InvalidIsAbsorbing(Next(s, numPorts, acts[0]), numPorts, limit, acts[1..]);
    }
  }

  // ---------------------------------------------------------------------------
  // Which state histories there are
  // ---------------------------------------------------------------------------

  /** Exactly when a state command changes the state: along an edge, with the ports willing. */
  lemma StateChangesExactly(c: Core, to: OmxState, ports: OmxError)
    requires to != c.state
    ensures Changed(c, To(to), ports).state == to <==>
            Edge(c.state, to) && (TouchesPorts(c.state, to) ==> ports == ErrorNone)
    ensures Changed(c, To(to), ports).state != to ==> Changed(c, To(to), ports) == c
  {}

  /** A state the component can be in between two commands, with that history. */
  ghost predicate Rests(numPorts: nat, trace: seq<OmxState>, s: State) {
    && Leads(numPorts, RING_SLOTS, s) && s.trace == trace
    && s.pc == Waiting && s.queue == [] && s.messageSem == 0 && s.late == 0
  }

  /** A state command with willing ports: sent, announced to the message thread, taken and handled. */
  lemma OneCommand(numPorts: nat, trace: seq<OmxState>, s: State, dest: Dest) returns (t: State)
    requires Rests(numPorts, trace, s) && s.core.state != Invalid
    ensures Rests(numPorts, trace + [Changed(s.core, dest, ErrorNone).state], t)
    ensures t.core.state == Changed(s.core, dest, ErrorNone).state
  {
    ReachableInv(s, numPorts);
    var step := Step(ErrorNone);
    LeadsOn(numPorts, RING_SLOTS, s, Send(StateSet(dest)));
    var a := Next(s, numPorts, Send(StateSet(dest)));
    LeadsOn(numPorts, RING_SLOTS, a, Up);
    var b := Next(a, numPorts, Up);
    LeadsOn(numPorts, RING_SLOTS, b, step);
    var c := Next(b, numPorts, step);
    LeadsOn(numPorts, RING_SLOTS, c, step);
    var d := Next(c, numPorts, step);
    LeadsOn(numPorts, RING_SLOTS, d, step);
    var e := Next(d, numPorts, step);
    LeadsOn(numPorts, RING_SLOTS, e, step);
    t := Next(e, numPorts, step);
  }

  /** Every path in the graph is walked by some run. */
  lemma {:induction false} PathIsWalked(numPorts: nat, trace: seq<OmxState>) returns (s: State)
    requires trace != [] && trace[0] == Loaded && Path(trace)
    ensures Rests(numPorts, trace, s)
  {
    var n := |trace| - 1;
    if n == 0 {
      StartIsReached(numPorts, RING_SLOTS);
      s := Start();
    } else {
      var before := PathIsWalked(numPorts, trace[..n]);
      ReachableInv(before, numPorts);
      if trace[n] != trace[n - 1] {
        StateChangesExactly(before.core, trace[n], ErrorNone);
      }
      s := OneCommand(numPorts, trace[..n], before, if trace[n] == trace[n - 1] then Undefined(0) else To(trace[n]));
      assert trace == trace[..n] + [trace[n]];
    }
  }

  /** The state histories of all runs are exactly the paths of the graph that begin at Loaded. */
  lemma HistoriesAreExactlyPaths(numPorts: nat, trace: seq<OmxState>)
    ensures (exists s :: Reachable(s, numPorts) && s.trace == trace) <==> trace != [] && trace[0] == Loaded && Path(trace)
  {
    if s :| Reachable(s, numPorts) && s.trace == trace {
      ReachableInv(s, numPorts);
    }
    if trace != [] && trace[0] == Loaded && Path(trace) {
      var s := PathIsWalked(numPorts, trace);
    }
  }

  /** From rest in any state but Invalid some run goes on to rest in any state. */
  lemma EveryStateIsReached(numPorts: nat, trace: seq<OmxState>, s: State, to: OmxState)
    returns (more: seq<OmxState>, t: State)
    requires Rests(numPorts, trace, s) && s.core.state != Invalid
    ensures Rests(numPorts, trace + more, t) && t.core.state == to
  {
    more, t := [], s;
    assert trace + [] == trace;
    if to == Invalid {
      t := OneCommand(numPorts, trace, s, To(Invalid));
      more := [Invalid];
    } else if s.core.state != to {
      more, t := IdleIsNext(numPorts, trace, s);
      if to != Idle {
        more, t := NextFromIdle(numPorts, trace, more, t, if to == WaitForResources then Loaded else to);
        if to == WaitForResources {
          t := OneCommand(numPorts, trace + more, t, To(WaitForResources));
          assert trace + more + [WaitForResources] == trace + (more + [WaitForResources]);
          more := more + [WaitForResources];
        }
      }
    }
  }

  lemma IdleIsNext(numPorts: nat, trace: seq<OmxState>, s: State) returns (more: seq<OmxState>, t: State)
    requires Rests(numPorts, trace, s) && s.core.state != Invalid
    ensures Rests(numPorts, trace + more, t) && t.core.state == Idle
  {
    more, t := [], s;
    assert trace + [] == trace;
    if s.core.state != Idle {
      t := OneCommand(numPorts, trace, s, To(Idle));
      ReachableInv(t, numPorts);
      more := [Idle];
    }
  }

  lemma NextFromIdle(numPorts: nat, trace: seq<OmxState>, was: seq<OmxState>, s: State, to: OmxState)
    returns (more: seq<OmxState>, t: State)
    requires Rests(numPorts, trace + was, s) && s.core.state == Idle && (to == Loaded || to == Executing || to == Pause)
    ensures Rests(numPorts, trace + more, t) && t.core.state == to
  {
    t := OneCommand(numPorts, trace + was, s, To(to));
    ReachableInv(t, numPorts);
    more := was + [to];
    assert trace + was + [to] == trace + more;
  }

  // ---------------------------------------------------------------------------
  // How many commands may be pending
  // ---------------------------------------------------------------------------

  /** n commands that change nothing. */
  function Marks(n: nat): seq<Command> { seq(n, _ => MarkBuffer(None)) }

  /** Ten have been sent, of which the ring took nine; n semaphore units are still to come. */
  function Sent(n: nat, late: nat, sem: nat): State {
    Start().(queue := Marks(if n < RING_SLOTS then n else RING_SLOTS), sent := Marks(n), late := late, messageSem := sem)
  }

  /** Of ten sent, n have been handled. */
  function Served(n: nat): State
    requires n <= RING_SLOTS
  {
    Start().(queue := Marks(RING_SLOTS - n), sent := Marks(RING_SLOTS + 1), handled := Marks(n), messageSem := RING_SLOTS + 1 - n)
  }

  lemma {:induction false} TenAreSent(numPorts: nat, limit: nat, n: nat)
    requires RING_SLOTS < limit && n <= RING_SLOTS + 1
    ensures Leads(numPorts, limit, Sent(n, n, 0))
  {
    if n == 0 {
      StartIsReached(numPorts, limit);
      assert Sent(0, 0, 0) == Start();
    } else {
      TenAreSent(numPorts, limit, n - 1);
      LeadsOn(numPorts, limit, Sent(n - 1, n - 1, 0), Send(MarkBuffer(None)));
      assert Marks(n) == Marks(n - 1) + [MarkBuffer(None)];
      assert Next(Sent(n - 1, n - 1, 0), numPorts, Send(MarkBuffer(None))) == Sent(n, n, 0);
    }
  }

  lemma {:induction false} TenAreRaised(numPorts: nat, limit: nat, n: nat)
    requires RING_SLOTS < limit && n <= RING_SLOTS + 1
    ensures Leads(numPorts, limit, Sent(RING_SLOTS + 1, RING_SLOTS + 1 - n, n))
  {
    if n == 0 {
      TenAreSent(numPorts, limit, RING_SLOTS + 1);
    } else {
      TenAreRaised(numPorts, limit, n - 1);
      LeadsOn(numPorts, limit, Sent(RING_SLOTS + 1, RING_SLOTS + 2 - n, n - 1), Up);
    }
  }

  lemma {:induction false} NineAreServed(numPorts: nat, limit: nat, n: nat)
    requires RING_SLOTS < limit && n <= RING_SLOTS
    ensures Leads(numPorts, limit, Served(n))
  {
    if n == 0 {
      TenAreRaised(numPorts, limit, RING_SLOTS + 1);
      assert Sent(RING_SLOTS + 1, 0, RING_SLOTS + 1) == Served(0);
    } else {
      NineAreServed(numPorts, limit, n - 1);
      var s, step := Served(n - 1), Step(ErrorNone);
      LeadsOn(numPorts, limit, s, step);
      var woken := Next(s, numPorts, step);
      LeadsOn(numPorts, limit, woken, step);
      var taking := Next(woken, numPorts, step);
      LeadsOn(numPorts, limit, taking, step);
      var handling := Next(taking, numPorts, step);
      LeadsOn(numPorts, limit, handling, step);
      assert Marks(RING_SLOTS + 1 - n)[1..] == Marks(RING_SLOTS - n) && Marks(n) == Marks(n - 1) + [MarkBuffer(None)];
      assert Next(handling, numPorts, step) == Served(n);
    }
  }

  /** With ten pending the message thread comes to find the ring empty, and ends in the state Loaded. */
  lemma TenthCommandEndsTheThread(numPorts: nat, limit: nat) returns (s: State)
    requires RING_SLOTS < limit
    ensures Leads(numPorts, limit, s) && s.pc.Ended? && s.core.state == Loaded
  {
    NineAreServed(numPorts, limit, RING_SLOTS);
    var step := Step(ErrorNone);
    s := Served(RING_SLOTS);
    LeadsOn(numPorts, limit, s, step);
    s := Next(s, numPorts, step);
    LeadsOn(numPorts, limit, s, step);
    s := Next(s, numPorts, step);
    LeadsOn(numPorts, limit, s, step);
    s := Next(s, numPorts, step);
  }

  /** The message thread ends in no state but Invalid, on all runs, exactly when at most nine commands may be pending. */
  lemma NineCommandsAndNoMore(numPorts: nat, limit: nat)
    ensures (forall s :: Leads(numPorts, limit, s) && s.pc.Ended? ==> s.core.state == Invalid) <==> limit <= RING_SLOTS
  {
    if limit <= RING_SLOTS {
      forall s | Leads(numPorts, limit, s) && s.pc.Ended? ensures s.core.state == Invalid {
        LeadsInv(numPorts, limit, s);
      }
    } else {
      var s := TenthCommandEndsTheThread(numPorts, limit);
    }
  }
}
