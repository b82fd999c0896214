/**
 The counting semaphore built from a mutex and a condition variable.  The other
 modules take `tsem_down` as one step, possible whenever the value is positive;
 this module shows the construction gives them that.
 */
module Semaphore {
  import opened Basics

  /**
   The value, the threads asleep in `pthread_cond_wait`, the threads woken that
   have yet to get the mutex and test again, and the history.
   */
  datatype State = State(semval: nat, asleep: nat, woken: nat, ups: nat, downs: nat, cleared: nat)

  /** Each is one section under the mutex; a wait may also end for no reason. */
  datatype Action = Enter | Resume | Spurious | Up(wakes: nat) | Reset

  predicate Enabled(s: State, a: Action) {
    match a
    case Resume => s.woken > 0
    case Spurious => s.asleep > 0
    case Up(wakes) => wakes <= s.asleep && (s.asleep > 0 ==> wakes > 0)
    case _ => true
  }

  /** The test of the loop in `tsem_down`, by a thread that has the mutex. */
  function Test(s: State): State {
    if s.semval == 0 then s.(asleep := s.asleep + 1) else s.(semval := s.semval - 1, downs := s.downs + 1)
  }

  function Step(s: State, a: Action): State
    requires Enabled(s, a)
  {
    match a
    case Enter => Test(s)
    case Resume => Test(s.(woken := s.woken - 1))
    case Spurious => s.(asleep := s.asleep - 1, woken := s.woken + 1)
    case Up(wakes) => s.(semval := s.semval + 1, ups := s.ups + 1, asleep := s.asleep - wakes, woken := s.woken + wakes)
    case Reset => s.(semval := 0, cleared := s.cleared + s.semval)
  }

  predicate CanRun(s: State, acts: seq<Action>)
    decreases |acts|
  {
    acts == [] || (Enabled(s, acts[0]) && CanRun(Step(s, acts[0]), acts[1..]))
  }

  function Run(s: State, acts: seq<Action>): State
    requires CanRun(s, acts)
    decreases |acts|
  {
    if acts == [] then s else Run(Step(s, acts[0]), acts[1..])
  }

  function Start(val: nat): State { State(val, 0, 0, 0, 0, 0) }

  ghost predicate Reachable(s: State, val: nat) {
    exists acts :: CanRun(Start(val), acts) && Run(Start(val), acts) == s
  }

  /** While anyone sleeps, there is a woken thread for every unit of the value. */
  predicate Inv(s: State, val: nat) {
    && (s.asleep > 0 ==> s.semval <= s.woken)
    && s.semval + s.downs + s.cleared == val + s.ups
  }

  lemma {:induction false} RunKeeps(s: State, acts: seq<Action>, val: nat)
    requires Inv(s, val) && CanRun(s, acts)
    ensures Inv(Run(s, acts), val)
    decreases |acts|
  {
    if acts == [] {
    } else {
      RunKeeps(Step(s, acts[0]), acts[1..], val);
    }
  }

  /** The value is what was put in less what was taken or cleared. */
  lemma ValueIsConserved(s: State, val: nat)
    requires Reachable(s, val)
    ensures s.semval == val + s.ups - s.downs - s.cleared
  {
    var acts :| CanRun(Start(val), acts) && Run(Start(val), acts) == s;
    RunKeeps(Start(val), acts, val);
  }

  /** How many calls of `tsem_up`, and of `tsem_down`, the run has. */
  function CountUps(acts: seq<Action>): nat { if acts == [] then 0 else Bit(acts[0].Up?) + CountUps(acts[1..]) }
  function CountEnters(acts: seq<Action>): nat { if acts == [] then 0 else Bit(acts[0].Enter?) + CountEnters(acts[1..]) }

  /** Every `tsem_up` adds one unit; every thread that calls `tsem_down` is waiting there or has taken one. */
  lemma {:induction false} CallsAreCounted(s: State, acts: seq<Action>)
    requires CanRun(s, acts)
    ensures Run(s, acts).ups - s.ups == CountUps(acts)
    ensures var t := Run(s, acts); t.asleep + t.woken + t.downs - (s.asleep + s.woken + s.downs) == CountEnters(acts)
    decreases |acts|
  {
    if acts != [] {
      CallsAreCounted(Step(s, acts[0]), acts[1..]);
    }
  }

  /** No call is refused: `tsem_up` wakes someone if anyone sleeps, and may wake more. */
  lemma CallsAreAccepted(s: State, wakes: nat)
    ensures Enabled(s, Enter) && Enabled(s, Reset)
    ensures Enabled(s, Up(wakes)) <==> wakes <= s.asleep && (wakes == 0 ==> s.asleep == 0)
    ensures Enabled(s, Resume) <==> s.woken >= 1
    ensures Enabled(s, Spurious) <==> s.asleep >= 1
  {}

  /** The threads inside `tsem_down`. */
  function Waiting(s: State): nat { s.asleep + s.woken }

  /** Some thread inside `tsem_down` can get out without another `tsem_up`. */
  predicate CanGetOut(s: State) { Enabled(s, Resume) && Step(s, Resume).downs > s.downs }

  /** A waiting thread can go on exactly when the value is positive: no wake-up is lost. */
  lemma BlockedExactlyAtZero(s: State, val: nat)
    requires Reachable(s, val) && Waiting(s) > 0
    ensures CanGetOut(s) <==> s.semval > 0
  {
    var acts :| CanRun(Start(val), acts) && Run(Start(val), acts) == s;
    RunKeeps(Start(val), acts, val);
  }

  /** Every woken thread has had the mutex, and nobody else. */
  function Settle(s: State): State
    decreases s.woken
  {
    if s.woken == 0 then s else Settle(Step(s, Resume))
  }

  /**
   Left alone, the waiting threads take as many units as there are, or as they
   are: the construction is a counting semaphore.
   */
  lemma {:induction false} SettlesLikeACounter(s: State, val: nat)
    requires Inv(s, val)
    ensures var t := Settle(s);
            && t.semval == (if s.semval <= Waiting(s) then 0 else s.semval - Waiting(s))
            && t.downs - s.downs == s.semval - t.semval == Waiting(s) - Waiting(t)
    decreases s.woken
  {
    if s.woken == 0 {
    } else {
      SettlesLikeACounter(Step(s, Resume), val);
    }
  }
}
