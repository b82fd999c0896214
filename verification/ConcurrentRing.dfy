/**
 The ring under concurrent callers.  `queue` and `dequeue` test a slot before
 they take the mutex, so each call is two steps here; the other modules take
 each call as one step, and RingCallsAreAtomic is why they may.
 */
module ConcurrentRing {
  import opened Basics

  /** The ring, the buffers outside it, the threads past the test in `queue` and `dequeue`, and the history. */
  datatype State = State(
    slots: seq<Option<nat>>, first: nat, last: nat, nelem: int,
    outside: nat, putting: nat, taking: nat,
    put: seq<nat>, taken: seq<nat>)

  datatype Action = TestPut | Put(x: nat) | TestTake | Take

  function Next(i: nat): nat { if i + 1 < RING_SLOTS then i + 1 else 0 }

  predicate Shaped(s: State) { |s.slots| == RING_SLOTS && s.first < RING_SLOTS && s.last < RING_SLOTS }

  predicate Enabled(s: State, a: Action) {
    match a
    case TestPut => s.outside > 0
    case Put(_) => s.putting > 0
    case TestTake => true
    case Take => s.taking > 0
  }

  /** A refused `queue` tells its caller nothing: the buffer is gone. */
  function Step(s: State, a: Action): (t: State)
    requires Shaped(s) && Enabled(s, a)
    ensures Shaped(t)
  {
    match a
    case TestPut =>
      if s.slots[s.last].Some? then s.(outside := s.outside - 1)
      else s.(outside := s.outside - 1, putting := s.putting + 1)
    case Put(x) =>
      s.(slots := s.slots[s.last := Some(x)], last := Next(s.last), nelem := s.nelem + 1,
         putting := s.putting - 1, put := s.put + [x])
    case TestTake => if s.slots[s.first].None? then s else s.(taking := s.taking + 1)
    case Take =>
      s.(slots := s.slots[s.first := None], first := Next(s.first), nelem := s.nelem - 1,
         taking := s.taking - 1, outside := s.outside + 1,
         taken := s.taken + Held(s.slots[s.first]))
  }

  /** What `dequeue` hands over; NULL is no buffer. */
  function Held(d: Option<nat>): seq<nat> { if d.Some? then [d.value] else [] }

  /** Only one thread at a time takes from a ring: FlushProtocol.MutualExclusion and DrainIsExclusive. */
  predicate OneTaker(s: State, a: Action) { a.TestTake? ==> s.taking == 0 }

  predicate CanRun(s: State, acts: seq<Action>)
    requires Shaped(s)
    decreases |acts|
  {
    acts == [] || (Enabled(s, acts[0]) && OneTaker(s, acts[0]) && CanRun(Step(s, acts[0]), acts[1..]))
  }

  function Run(s: State, acts: seq<Action>): (t: State)
    requires Shaped(s) && CanRun(s, acts)
    ensures Shaped(t)
    decreases |acts|
  {
    if acts == [] then s else Run(Step(s, acts[0]), acts[1..])
  }

  /** An empty ring and `n` buffers outside it. */
  function Start(n: nat): State {
    State(seq(RING_SLOTS, i => None), 0, 0, 0, n, 0, 0, [], [])
  }

  /** The slot k places after i. */
  function Slot(i: nat, k: nat): nat
    requires i < RING_SLOTS && k <= RING_SLOTS
  {
    if i + k < RING_SLOTS then i + k else i + k - RING_SLOTS
  }

  /** The occupied slots are the arc from `first` to `last` and hold q in order. */
  predicate Holds(s: State, q: seq<nat>)
    requires Shaped(s)
  {
    && |q| == s.nelem <= RING_SLOTS && s.last == Slot(s.first, |q|)
    && forall k :: 0 <= k < RING_SLOTS ==> s.slots[Slot(s.first, k)] == if k < |q| then Some(q[k]) else None
  }

  /** What has been put and not taken. */
  function Queued(s: State): seq<nat> { if |s.taken| <= |s.put| then s.put[|s.taken|..] else [] }

  predicate Fifo(s: State) {
    Shaped(s) && s.taken + Queued(s) == s.put && Holds(s, Queued(s))
  }

  predicate Inv(s: State, n: nat) {
    && Fifo(s) && s.taking <= Bit(s.nelem > 0)
    && s.outside + s.putting + s.nelem == n
  }

  lemma {:induction false} PutKeeps(s: State, x: nat)
    requires Fifo(s) && s.putting > 0 && s.nelem < RING_SLOTS
    ensures Fifo(Step(s, Put(x)))
  {
    var t := Step(s, Put(x));
    assert Queued(t) == Queued(s) + [x];
  }

  lemma {:induction false} TakeKeeps(s: State)
    requires Fifo(s) && s.taking > 0 && s.nelem > 0
    ensures Fifo(Step(s, Take)) && Step(s, Take).taken == s.taken + [Queued(s)[0]]
  {
    var t := Step(s, Take);
    assert s.slots[Slot(s.first, 0)] == Some(Queued(s)[0]);
    assert Queued(t) == Queued(s)[1..];
  }

  lemma {:induction false} StepKeeps(s: State, a: Action, n: nat)
    requires Inv(s, n) && n <= RING_SLOTS && Enabled(s, a) && OneTaker(s, a)
    ensures Inv(Step(s, a), n)
  {
    match a
    case TestPut => assert s.slots[Slot(s.first, s.nelem)] == None;
    case Put(x) => PutKeeps(s, x);
    case TestTake => assert s.nelem == 0 ==> s.slots[Slot(s.first, 0)] == None;
    case Take => TakeKeeps(s);
  }

  lemma {:induction false} RunKeeps(s: State, acts: seq<Action>, n: nat)
    requires Inv(s, n) && n <= RING_SLOTS && CanRun(s, acts)
    ensures Inv(Run(s, acts), n)
    decreases |acts|
  {
    if acts == [] {
    } else {
      StepKeeps(s, acts[0], n);
      RunKeeps(Step(s, acts[0]), acts[1..], n);
    }
  }

  /**
   With at most nine buffers in all and one taker at a time, whatever the
   interleaving: no buffer is refused or overwritten, none is lost, a taker past
   its test finds a buffer, and they come out in the order they went in.
   */
  lemma {:induction false} RingCallsAreAtomic(n: nat, acts: seq<Action>)
    requires n <= RING_SLOTS && CanRun(Start(n), acts)
    ensures var s := Run(Start(n), acts);
            && s.taken + Queued(s) == s.put && Holds(s, Queued(s))
            && s.outside + s.putting + |Queued(s)| == n
            && (s.outside > 0 || s.putting > 0 ==> s.slots[s.last].None?)
            && (s.taking > 0 ==> s.slots[s.first].Some?)
  {
    RunKeeps(Start(n), acts, n);
    var s := Run(Start(n), acts);
    assert s.nelem < RING_SLOTS ==> s.slots[Slot(s.first, s.nelem)] == None;
    assert s.nelem > 0 ==> s.slots[Slot(s.first, 0)].Some?;
  }

  /** On such a run a lone taker gets the oldest buffer if there is one, and a caller of `queue` is let in. */
  lemma CallsSucceed(n: nat, acts: seq<Action>)
    requires n <= RING_SLOTS && CanRun(Start(n), acts)
    ensures var s := Run(Start(n), acts);
            && (s.taking == 0 && |s.taken| < |s.put| ==>
                  && CanRun(s, [TestTake, Take])
                  && Run(s, [TestTake, Take]).taken == s.taken + [s.put[|s.taken|]] && Run(s, [TestTake, Take]).outside == s.outside + 1)
            && (s.taking == 0 && |s.taken| == |s.put| ==> CanRun(s, [TestTake]) && Run(s, [TestTake]) == s)
            && (s.outside > 0 ==> CanRun(s, [TestPut]) && Run(s, [TestPut]).putting == s.putting + 1)
  {
    RunKeeps(Start(n), acts, n);
    var s := Run(Start(n), acts);
    assert s.nelem < RING_SLOTS ==> s.slots[Slot(s.first, s.nelem)] == None;
    if s.taking == 0 && |s.taken| < |s.put| {
      assert s.slots[Slot(s.first, 0)] == Some(Queued(s)[0]);
      var t := Step(s, TestTake);
      assert [TestTake, Take][1..] == [Take] && [Take][1..] == [];
      assert CanRun(Step(t, Take), []);
    } else if s.taking == 0 {
      assert s.slots[Slot(s.first, 0)] == None;
      assert [TestTake][1..] == [] && CanRun(s, []);
    }
    if s.outside > 0 {
      assert [TestPut][1..] == [] && CanRun(Step(s, TestPut), []);
    }
  }

  lemma {:induction false} RunSnoc(s: State, acts: seq<Action>, a: Action)
    requires Shaped(s) && CanRun(s, acts) && Enabled(Run(s, acts), a) && OneTaker(Run(s, acts), a)
    ensures CanRun(s, acts + [a]) && Run(s, acts + [a]) == Step(Run(s, acts), a)
    decreases |acts|
  {
    if acts == [] {
      assert acts + [a] == [a];
    } else {
      assert (acts + [a])[1..] == acts[1..] + [a];
      RunSnoc(Step(s, acts[0]), acts[1..], a);
    }
  }

  /** One thread can put k buffers into the ring, up to its nine slots. */
  lemma {:induction false} FillUp(n: nat, k: nat) returns (acts: seq<Action>)
    requires k <= n && k <= RING_SLOTS
    ensures CanRun(Start(n), acts)
    ensures var s := Run(Start(n), acts); Inv(s, n) && s.nelem == k && s.putting == 0 && s.taking == 0
  {
    if k == 0 {
      acts := [];
    } else {
      var front := FillUp(n, k - 1);
      var s := Run(Start(n), front);
      assert s.slots[Slot(s.first, s.nelem)] == None;
      RunSnoc(Start(n), front, TestPut);
      PutKeeps(Step(s, TestPut), 0);
      RunSnoc(Start(n), front + [TestPut], Put(0));
      acts := front + [TestPut] + [Put(0)];
    }
  }

  predicate NoneLost(n: nat, acts: seq<Action>)
    requires CanRun(Start(n), acts)
  {
    var s := Run(Start(n), acts);
    s.outside + s.putting + s.nelem == n
  }

  /** Nine buffers are exactly as many as no run can lose. */
  lemma {:induction false} NineBuffersAndNoMore(n: nat)
    ensures n <= RING_SLOTS <==> forall acts :: CanRun(Start(n), acts) ==> NoneLost(n, acts)
  {
    if n <= RING_SLOTS {
      forall acts | CanRun(Start(n), acts) ensures NoneLost(n, acts) { RunKeeps(Start(n), acts, n); }
    } else {
      var acts := FillUp(n, RING_SLOTS);
      var s := Run(Start(n), acts);
      assert s.slots[Slot(s.first, 0)].Some?;
      RunSnoc(Start(n), acts, TestPut);
      assert !NoneLost(n, acts + [TestPut]);
    }
  }
}
