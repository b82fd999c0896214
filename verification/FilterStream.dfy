/**
 The buffer management loop of a filter while the component is Executing: what
 it makes of the stream of input buffers.  Headers are values here; each is
 owned by one place at a time.
 */
module FilterStream {
  import opened Basics

  const EOS: nat := 1
  const STARTTIME: nat := 2

  /** A request that component `target` report the buffer carrying it. */
  datatype Mark = Mark(target: nat, data: int)

  /** The samples are the filled part of the buffer: nFilledLen is 0 exactly when there are none. */
  datatype Header = Header(id: nat, samples: seq<int>, flags: nat, timestamp: int, mark: Option<Mark>)

  datatype Event = EventMark(data: int) | EventBufferFlag(flags: nat)

  predicate Blank(h: Header) { h.samples == [] && h.flags == 0 && h.mark == None }

  // ---------------------------------------------------------------------------
  // The stream function
  // ---------------------------------------------------------------------------

  /** What an output buffer says, apart from which buffer it is. */
  datatype Out = Out(samples: seq<int>, flags: nat, timestamp: int, mark: Option<Mark>)

  /** What became of an input: processed with an output buffer in hand, or returned unprocessed. */
  datatype Fate = Processed(x: Header) | Skipped(x: Header)

  /** Between two inputs: the mark to pass on, what the output buffer in hand already says, end of stream. */
  datatype Carry = Carry(pending: Option<Mark>, flags: nat, mark: Option<Mark>, eos: bool)

  datatype Stream = Stream(outs: seq<Out>, events: seq<Event>, carry: Carry)

  function Foreign(self: nat, m: Option<Mark>): Option<Mark> {
    if m.Some? && m.value.target != self then m else None
  }

  function SelfMark(self: nat, m: Option<Mark>): seq<Event> {
    if m.Some? && m.value.target == self then [EventMark(m.value.data)] else []
  }

  function Over<T>(newer: Option<T>, older: Option<T>): Option<T> { if newer.Some? then newer else older }

  function Apply(gain: int -> int, samples: seq<int>): seq<int> {
    seq(|samples|, i requires 0 <= i < |samples| => gain(samples[i]))
  }

  /** One more input. */
  function Absorb(self: nat, gain: int -> int, s: Stream, f: Fate): Stream {
    var x := f.x;
    var c := s.carry;
    var pending := Over(Foreign(self, x.mark), c.pending);
    var events := s.events + SelfMark(self, x.mark);
    match f
    case Skipped(_) => Stream(s.outs, events, c.(pending := pending))
    case Processed(_) =>
      var mark := Over(pending, c.mark);
      var ended := x.flags == EOS;
      var flags := if x.flags == STARTTIME || ended then x.flags else c.flags;
      var eos := c.eos || ended;
      var events' := events + if ended then [EventBufferFlag(EOS)] else [];
      if x.samples != [] || flags == EOS || eos then
        Stream(s.outs + [Out(Apply(gain, x.samples), flags, x.timestamp, mark)], events', Carry(None, 0, None, eos))
      else
        Stream(s.outs, events', Carry(None, flags, mark, eos))
  }

  const START := Stream([], [], Carry(None, 0, None, false))

  function Result(self: nat, gain: int -> int, fates: seq<Fate>): Stream { ResultOf(self, gain, fates, |fates|) }

  /** What the first n make. */
  function ResultOf(self: nat, gain: int -> int, fates: seq<Fate>, n: nat): Stream
    requires n <= |fates|
  {
    if n == 0 then START else Absorb(self, gain, ResultOf(self, gain, fates, n - 1), fates[n - 1])
  }

  function Inputs(fates: seq<Fate>): seq<Header> {
    seq(|fates|, i requires 0 <= i < |fates| => fates[i].x)
  }

  function Said(h: Header): Out { Out(h.samples, h.flags, h.timestamp, h.mark) }
  function AllSaid(hs: seq<Header>): seq<Out> { seq(|hs|, i requires 0 <= i < |hs| => Said(hs[i])) }
  function Ids(hs: seq<Header>): seq<nat> { seq(|hs|, i requires 0 <= i < |hs| => hs[i].id) }

  // ---------------------------------------------------------------------------
  // The loop
  // ---------------------------------------------------------------------------

  /** A header the client sends while the loop runs. */
  datatype Arrival = Empty(h: Header) | Fill(id: nat, timestamp: int)

  /** The arrivals at the four points of one pass where they can make a difference. */
  datatype Arrivals = Arrivals(beforeInput: seq<Arrival>, beforeOutput: seq<Arrival>,
                               beforeProcess: seq<Arrival>, beforeReturn: seq<Arrival>)

  /** A history only gets longer: `after` begins with `before`. */
  predicate Longer<T(==)>(before: seq<T>, after: seq<T>) { |before| <= |after| && Agree(before, after, |before|) }

  /** The first n entries are the same. */
  predicate Agree<T(==)>(before: seq<T>, after: seq<T>, n: nat)
    requires n <= |before| && n <= |after|
  {
    n == 0 || (before[n - 1] == after[n - 1] && Agree(before, after, n - 1))
  }

  lemma {:induction false} AgreeExactly<T>(before: seq<T>, after: seq<T>, n: nat)
    requires n <= |before| && n <= |after|
    ensures Agree(before, after, n) <==> before[..n] == after[..n]
  {
    if n > 0 {
      AgreeExactly(before, after, n - 1);
      assert before[..n] == before[..n - 1] + [before[n - 1]] && after[..n] == after[..n - 1] + [after[n - 1]];
    }
  }

  lemma LongerExactly<T>(before: seq<T>, after: seq<T>)
    ensures Longer(before, after) <==> before <= after
  {
    if |before| <= |after| {
      AgreeExactly(before, after, |before|);
      assert before[..|before|] == before;
    }
  }

  lemma LongerStill<T>(before: seq<T>, after: seq<T>, more: seq<T>)
    requires Longer(before, after)
    ensures Longer(before, after + more)
  {
    LongerExactly(before, after);
    LongerExactly(before, after + more);
  }

  /** What had been accepted and supplied at some earlier moment. */
  datatype Earlier = Earlier(accepted: seq<Header>, supplied: seq<nat>)

  predicate Since(e: Earlier, accepted: seq<Header>, supplied: seq<nat>) {
    Longer(e.accepted, accepted) && Longer(e.supplied, supplied)
  }

  lemma SinceNow(accepted: seq<Header>, supplied: seq<nat>)
    ensures Since(Earlier(accepted, supplied), accepted, supplied)
  {
    LongerExactly(accepted, accepted);
    LongerExactly(supplied, supplied);
  }

  function Head(q: seq<Header>): Option<Header> { if q == [] then None else Some(q[0]) }

  /** The first input among the first n arrivals. */
  function FirstEmpty(arrivals: seq<Arrival>, n: nat): Option<Header>
    requires n <= |arrivals|
  {
    if n == 0 then None
    else
      var first, last := FirstEmpty(arrivals, n - 1), arrivals[n - 1];
      if first.None? && last.Empty? then Some(last.h) else first
  }

  /** An output buffer is among the first n arrivals. */
  predicate HasFill(arrivals: seq<Arrival>, n: nat)
    requires n <= |arrivals|
  {
    n > 0 && (arrivals[n - 1].Fill? || HasFill(arrivals, n - 1))
  }

  /** What a pass makes of the input it takes, with an output buffer or without; an input with samples waits for one. */
  function Outcome(x: Option<Header>, out: bool): seq<Fate> {
    if x.None? then []
    else if out then [Processed(x.value)]
    else if x.value.samples == [] then [Skipped(x.value)]
    else []
  }

  /** How far the input in hand is. */
  datatype Stage = Fresh | Marked | Consumed

  /** Output buffers come back in the order they were supplied. */
  ghost predicate Supplied(supplied: seq<nat>, outDone: seq<Header>, outHeld: Option<Header>, outQueue: seq<Header>) {
    supplied == Ids(outDone) + (if outHeld.Some? then [outHeld.value.id] else []) + Ids(outQueue)
  }

  /** The outputs returned, and the one in hand, say what the stream function says. */
  ghost predicate Written(s: Stream, outDone: seq<Header>, outHeld: Option<Header>, eosReached: bool) {
    && AllSaid(outDone) == s.outs
    && eosReached == s.carry.eos
    && (match outHeld
        case None => s.carry.flags == 0 && s.carry.mark == None
        case Some(h) => h.samples == [] && h.flags == s.carry.flags && h.mark == s.carry.mark)
  }

  /** The events and the mark to pass on, the mark of the input in hand included once it is taken off. */
  ghost predicate Reported(self: nat, s: Stream, inHeld: Option<Header>, original: Header, stage: Stage,
                           events: seq<Event>, pMark: Option<Mark>) {
    match inHeld
    case None => events == s.events && pMark == s.carry.pending
    case Some(h) =>
      match stage
      case Fresh => h == original && events == s.events && pMark == s.carry.pending
      case Marked =>
        && h == original.(mark := None)
        && events == s.events + SelfMark(self, original.mark)
        && pMark == Over(Foreign(self, original.mark), s.carry.pending)
      case Consumed => h.samples == [] && events == s.events && pMark == s.carry.pending
  }

  /** Filling the output in hand from an input does what the stream function does with that input. */
  lemma FilledSays(self: nat, gain: int -> int, s: Stream, x: Header, outDone: seq<Header>, o: Header, eosReached: bool, filled: Header)
    requires Written(s, outDone, Some(o), eosReached)
    requires filled.samples == Apply(gain, x.samples) && filled.timestamp == x.timestamp
    requires filled.flags == if x.flags == STARTTIME || x.flags == EOS then x.flags else o.flags
    requires filled.mark == Over(Over(Foreign(self, x.mark), s.carry.pending), o.mark)
    ensures var t := Absorb(self, gain, s, Processed(x));
            var eos := eosReached || x.flags == EOS;
            && t.carry.pending == None
            && t.events == s.events + SelfMark(self, x.mark) + (if x.flags == EOS then [EventBufferFlag(EOS)] else [])
            && (if filled.samples != [] || filled.flags == EOS || eos then Written(t, outDone + [filled], None, eos)
                else Written(t, outDone, Some(filled), eos))
  {
    SaidMore(outDone, filled);
  }

  lemma OneSettled(accepted: seq<Header>, fates: seq<Fate>, f: Fate, queue: seq<Header>)
    requires accepted == Inputs(fates) + [f.x] + queue
    ensures accepted == Inputs(fates + [f]) + [] + queue
  {
    assert Inputs(fates + [f]) == Inputs(fates) + [f.x];
  }

  lemma FilledReturns(supplied: seq<nat>, outDone: seq<Header>, o: Header, outQueue: seq<Header>, filled: Header)
    requires Supplied(supplied, outDone, Some(o), outQueue) && filled.id == o.id
    ensures Supplied(supplied, outDone + [filled], None, outQueue) && Supplied(supplied, outDone, Some(filled), outQueue)
  {
    SaidMore(outDone, filled);
  }

  lemma SuppliedMore(supplied: seq<nat>, outDone: seq<Header>, outHeld: Option<Header>, outQueue: seq<Header>, h: Header)
    requires Supplied(supplied, outDone, outHeld, outQueue)
    ensures Supplied(supplied + [h.id], outDone, outHeld, outQueue + [h])
  {
    SaidMore(outQueue, h);
  }

  /** The test before an output buffer is returned. */
  predicate Returnable(o: Header, eosReached: bool) { o.samples != [] || o.flags == EOS || eosReached }

  class Filter {
    const self: nat
    const gain: int -> int

    var inQueue: seq<Header>
    var outQueue: seq<Header>
    var inHeld: Option<Header>
    var outHeld: Option<Header>
    var pMark: Option<Mark>
    var eosReached: bool

    // what the client sees
    var inDone: seq<Header>
    var outDone: seq<Header>
    var events: seq<Event>

    // history
    ghost var accepted: seq<Header>
    ghost var supplied: seq<nat>
    ghost var fates: seq<Fate>
    ghost var original: Header     // the input in hand as it arrived
    ghost var stage: Stage

    ghost function S(): Stream reads `fates { Result(self, gain, fates) }

    /** The input in hand, unless it is already accounted for in `fates`. */
    ghost function Unsettled(): seq<Header> reads `inHeld, `stage, `original {
      if inHeld.Some? && stage != Consumed then [original] else []
    }

    /** Which buffers and inputs are where. */
    ghost predicate History() reads this {
      && Settled()
      && Supplied(supplied, outDone, outHeld, outQueue)
      && (forall h :: h in outQueue ==> Blank(h))
    }

    /** Every input accepted is accounted for, and the ones settled are handed back in order. */
    ghost predicate Settled() reads `accepted, `fates, `inHeld, `stage, `original, `inQueue, `inDone {
      && accepted == Inputs(fates) + Unsettled() + inQueue
      && Ids(Inputs(fates)) == Ids(inDone) + (if inHeld.Some? && stage == Consumed then [inHeld.value.id] else [])
      && (forall f :: f in fates && f.Skipped? ==> f.x.samples == [])
    }

    ghost predicate Valid() reads this {
      && History()
      && Written(S(), outDone, outHeld, eosReached)
      && Reported(self, S(), inHeld, original, stage, events, pMark)
    }

    constructor (self: nat, gain: int -> int)
      ensures Valid() && fates == [] && accepted == [] && supplied == []
      ensures this.self == self && this.gain == gain
      ensures inQueue == [] && outQueue == [] && inHeld == None && outHeld == None && inDone == [] && outDone == [] && events == []
      ensures !eosReached
    {
      this.self, this.gain := self, gain;
      inQueue, outQueue, inHeld, outHeld := [], [], None, None;
      pMark, eosReached := None, false;
      inDone, outDone, events := [], [], [];
      accepted, supplied, fates, stage := [], [], [], Fresh;
      original := Header(0, [], 0, 0, None);
    }

    method AcceptEmpty(h: Header)
      requires Valid()
      modifies `inQueue, `accepted
      ensures Valid() && inQueue == Enqueued(old(inQueue), h)
      ensures accepted == old(accepted) + if old(|inQueue|) < RING_SLOTS then [h] else []
    {
      if |inQueue| < RING_SLOTS {
        ghost var before := Inputs(fates) + Unsettled();
        assert before + inQueue + [h] == before + (inQueue + [h]);
        inQueue := inQueue + [h];
        accepted := accepted + [h];
      }
    }

    method AcceptFill(id: nat, timestamp: int)
      requires Valid()
      modifies `outQueue, `supplied
      ensures Valid() && outQueue == Enqueued(old(outQueue), Header(id, [], 0, timestamp, None))
      ensures supplied == old(supplied) + if old(|outQueue|) < RING_SLOTS then [id] else []
    {
      if |outQueue| < RING_SLOTS {
        var h := Header(id, [], 0, timestamp, None);
        SuppliedMore(supplied, outDone, outHeld, outQueue, h);
        outQueue := outQueue + [h];
        supplied := supplied + [id];
      }
    }

    /** The client's EmptyThisBuffer and FillThisBuffer, while the ring has room. */
    method Accept(a: Arrival, ghost e: Earlier)
      requires Valid() && Since(e, accepted, supplied)
      modifies `inQueue, `outQueue, `accepted, `supplied
      ensures Valid() && Since(e, accepted, supplied)
      ensures inQueue == if a.Empty? then Enqueued(old(inQueue), a.h) else old(inQueue)
      ensures outQueue == if a.Fill? then Enqueued(old(outQueue), Header(a.id, [], 0, a.timestamp, None)) else old(outQueue)
      ensures accepted == old(accepted) + if a.Empty? && old(|inQueue|) < RING_SLOTS then [a.h] else []
      ensures supplied == old(supplied) + if a.Fill? && old(|outQueue|) < RING_SLOTS then [a.id] else []
    {
      match a
      case Empty(h) =>
        LongerStill(e.accepted, accepted, [h]);
        AcceptEmpty(h);
      case Fill(id, timestamp) =>
        LongerStill(e.supplied, supplied, [id]);
        AcceptFill(id, timestamp);
    }

    method AcceptAll(arrivals: seq<Arrival>, ghost e: Earlier)
      requires Valid() && Since(e, accepted, supplied)
      modifies `inQueue, `outQueue, `accepted, `supplied
      ensures Valid() && Since(e, accepted, supplied)
      ensures Head(inQueue) == if old(inQueue) != [] then old(Head(inQueue)) else FirstEmpty(arrivals, |arrivals|)
      ensures outQueue != [] <==> old(outQueue) != [] || HasFill(arrivals, |arrivals|)
    {
      for i := 0 to |arrivals|
        invariant Valid() && Since(e, accepted, supplied)
        invariant Head(inQueue) == if old(inQueue) != [] then old(Head(inQueue)) else FirstEmpty(arrivals, i)
        invariant outQueue != [] <==> old(outQueue) != [] || HasFill(arrivals, i)
      {
        Accept(arrivals[i], e);
      }
    }

    method TakeInput()
      requires Valid()
      modifies `inQueue, `inHeld, `original, `stage
      ensures Valid()
      ensures Taken() == old(if inHeld.Some? then Some(original) else Head(inQueue))
      ensures old(inHeld.None? && |inQueue| > 0) ==>
                inHeld == Some(original) && old(inQueue) == [original] + inQueue && stage == Fresh
      ensures !old(inHeld.None? && |inQueue| > 0) ==>
                inHeld == old(inHeld) && inQueue == old(inQueue) && stage == old(stage) && original == old(original)
    {
      if |inQueue| > 0 && inHeld == None {
        inHeld, inQueue := Some(inQueue[0]), inQueue[1..];
        original, stage := inHeld.value, Fresh;
      }
    }

    method TakeOutput()
      requires Valid()
      modifies `outQueue, `outHeld
      ensures Valid()
      ensures outHeld.Some? <==> old(outHeld.Some? || |outQueue| > 0)
    {
      if |outQueue| > 0 && outHeld == None {
        assert Blank(outQueue[0]) && Ids(outQueue) == [outQueue[0].id] + Ids(outQueue[1..]);
        outHeld, outQueue := Some(outQueue[0]), outQueue[1..];
      }
    }

    /** Takes the mark off the input in hand: reports it, or keeps it to pass on. */
    method TakeMark()
      requires Valid() && (inHeld.Some? ==> stage != Consumed)
      modifies `inHeld, `pMark, `events, `stage
      ensures Valid() && (inHeld.Some? ==> stage == Marked)
      ensures inHeld.Some? == old(inHeld.Some?)
      ensures inHeld.Some? ==> inHeld.value == old(inHeld.value).(mark := None)
      ensures old(inHeld.None? || inHeld.value.mark == None) ==> unchanged(`events, `pMark)
      ensures old(inHeld.Some? && inHeld.value.mark.Some?) ==>
                var m := old(inHeld).value.mark.value;
                && events == old(events) + (if m.target == self then [EventMark(m.data)] else [])
                && pMark == if m.target == self then old(pMark) else Some(m)
    {
      if inHeld.Some? {
        var h := inHeld.value;
        if h.mark.Some? {
          if h.mark.value.target == self {
            events := events + [EventMark(h.mark.value.data)];
          } else {
            pMark := h.mark;
          }
          inHeld := Some(h.(mark := None));
        }
        stage := Marked;
      }
    }

    /** BufferMgmtCallback: one output sample for each input sample. */
    method Callback(samples: seq<int>) returns (r: seq<int>)
      ensures r == Apply(gain, samples)
      ensures |r| == |samples| && forall i :: 0 <= i < |r| ==> r[i] == gain(samples[i])
    {
      r := [];
      for i := 0 to |samples|
        invariant r == Apply(gain, samples[..i])
      {
        r := r + [gain(samples[i])];
        assert samples[..i + 1][..i] == samples[..i];
      }
      assert samples[..|samples|] == samples;
    }

    /** The headers of an input and an output in hand, and whether the input ends the stream. */
    method FillOutput(x0: Header, o0: Header) returns (x: Header, o: Header, ended: bool)
      requires o0.samples == []
      ensures ended == (x0.flags == EOS)
      ensures x == x0.(samples := [], flags := if x0.flags == STARTTIME || ended then 0 else x0.flags)
      ensures o == Header(o0.id, Apply(gain, x0.samples), if x0.flags == STARTTIME || ended then x0.flags else o0.flags,
                          x0.timestamp, o0.mark)
    {
      x, o := x0, o0.(timestamp := x0.timestamp);
      if x.flags == STARTTIME {
        o, x := o.(flags := x.flags), x.(flags := 0);
      }
      if |x.samples| > 0 {
        var r := Callback(x.samples);
        o, x := o.(samples := r), x.(samples := []);
      }
      ended := x.flags == EOS;
      if ended {
        o, x := o.(flags := x.flags), x.(flags := 0);
      }
    }

    /** Everything but the return of the output buffer. */
    method FillHeld(x0: Header, o0: Header)
      requires inHeld == Some(x0) && outHeld == Some(o0) && o0.samples == []
      modifies `inHeld, `outHeld, `pMark, `eosReached, `events
      ensures var ended := x0.flags == EOS;
              && inHeld.Some? && inHeld.value.samples == [] && inHeld.value.id == x0.id
              && outHeld == Some(Header(o0.id, Apply(gain, x0.samples), if x0.flags == STARTTIME || ended then x0.flags else o0.flags,
                                        x0.timestamp, Over(old(pMark), o0.mark)))
              && pMark == None && eosReached == (old(eosReached) || ended)
              && events == old(events) + (if ended then [EventBufferFlag(EOS)] else [])
    {
      var o := o0;
      if pMark.Some? {
        o := o.(mark := pMark);
        pMark := None;
      }
      var x, filled, ended := FillOutput(x0, o);
      if ended {
        events := events + [EventBufferFlag(filled.flags)];
        eosReached := true;
      }
      inHeld, outHeld := Some(x), Some(filled);
    }

    /** The pair is filled; whether its output goes back now or stays in hand, the stream function agrees. */
    ghost predicate Filled() reads this {
      && History() && outHeld.Some? && inHeld.Some? && stage == Consumed
      && Reported(self, S(), inHeld, original, stage, events, pMark)
      && Supplied(supplied, outDone + [outHeld.value], None, outQueue)
      && (if Returnable(outHeld.value, eosReached) then Written(S(), outDone + [outHeld.value], None, eosReached)
          else Written(S(), outDone, outHeld, eosReached))
    }

    /** Accounts for the input in hand, now that its output is filled. */
    ghost method Settle(o0: Header, wasEos: bool)
      requires inHeld.Some? && inHeld.value.samples == [] && inHeld.value.id == original.id
      requires outHeld.Some? && outHeld.value.id == o0.id && outHeld.value.samples == Apply(gain, original.samples)
      requires outHeld.value.timestamp == original.timestamp
      requires outHeld.value.flags == if original.flags == STARTTIME || original.flags == EOS then original.flags else o0.flags
      requires outHeld.value.mark == Over(Over(Foreign(self, original.mark), S().carry.pending), o0.mark)
      requires pMark == None && eosReached == (wasEos || original.flags == EOS)
      requires events == S().events + SelfMark(self, original.mark) + if original.flags == EOS then [EventBufferFlag(EOS)] else []
      requires accepted == Inputs(fates) + [original] + inQueue && Ids(Inputs(fates)) == Ids(inDone)
      requires Supplied(supplied, outDone, Some(o0), outQueue) && Written(S(), outDone, Some(o0), wasEos)
      requires (forall h :: h in outQueue ==> Blank(h)) && (forall f :: f in fates && f.Skipped? ==> f.x.samples == [])
      modifies `fates, `stage
      ensures Filled() && fates == old(fates) + [Processed(original)]
    {
      OneMore(self, gain, fates, Processed(original));
      OneSettled(accepted, fates, Processed(original), inQueue);
      FilledSays(self, gain, S(), original, outDone, o0, wasEos, outHeld.value);
      FilledReturns(supplied, outDone, o0, outQueue, outHeld.value);
      fates, stage := fates + [Processed(original)], Consumed;
    }

    method FillPair(x0: Header, o0: Header)
      requires Valid() && inHeld == Some(x0) && outHeld == Some(o0) && stage == Marked
      modifies `inHeld, `outHeld, `pMark, `eosReached, `events, `fates, `stage
      ensures Filled() && fates == old(fates) + [Processed(original)]
    {
      ghost var eos := eosReached;
      FillHeld(x0, o0);
      Settle(o0, eos);
    }

    /** The filled output goes back, or stays in hand if it has nothing to say yet. */
    method ReturnOutput()
      requires Filled()
      modifies `outDone, `outHeld
      ensures Valid()
    {
      if Returnable(outHeld.value, eosReached) {
        outDone, outHeld := outDone + [outHeld.value], None;
      }
    }

    /** With an input and an output in hand: the mark, the timestamp, the samples, the flags, and the output goes back. */
    method Process()
      requires Valid() && (inHeld.Some? ==> stage == Marked)
      modifies `inHeld, `outHeld, `pMark, `eosReached, `outDone, `events, `fates, `stage
      ensures Valid()
      ensures inHeld.Some? == old(inHeld.Some?)
      ensures old(inHeld.Some? && outHeld.Some?) ==> fates == old(fates) + [Processed(original)] && stage == Consumed
      ensures !old(inHeld.Some? && outHeld.Some?) ==>
                unchanged(`inHeld, `outHeld, `pMark, `eosReached, `outDone, `events, `fates, `stage)
    {
      if inHeld.Some? && outHeld.Some? {
        FillPair(inHeld.value, outHeld.value);
        ReturnOutput();
      }
    }

    /** An input about to be returned unprocessed. */
    ghost method Skip()
      requires Valid() && inHeld.Some? && stage == Marked && inHeld.value.samples == []
      modifies `fates, `stage
      ensures Valid() && stage == Consumed && fates == old(fates) + [Skipped(original)]
    {
      OneMore(self, gain, fates, Skipped(original));
      OneSettled(accepted, fates, Skipped(original), inQueue);
      fates, stage := fates + [Skipped(original)], Consumed;
    }

    /** Hands a consumed input back; an empty one also when no output was there to process it with. */
    method ReturnInput()
      requires Valid() && (inHeld.Some? ==> stage != Fresh)
      modifies `inHeld, `inDone, `fates, `stage
      ensures Valid() && (inHeld.Some? ==> stage == Marked && inHeld.value.samples != [])
      ensures old(inHeld.Some? && inHeld.value.samples == []) ==>
                inHeld.None? && inDone == old(inDone) + [old(inHeld).value]
      ensures old(inHeld.Some? && inHeld.value.samples == [] && stage == Marked) ==> fates == old(fates) + [Skipped(original)]
      ensures !old(inHeld.Some? && inHeld.value.samples == [] && stage == Marked) ==> fates == old(fates)
    {
      if inHeld.Some? && |inHeld.value.samples| == 0 {
        if stage == Marked {
          Skip();
        }
        inDone, inHeld := inDone + [inHeld.value], None;
      }
    }

    /** Between two passes an input in hand has its mark taken off and is waiting for an output. */
    ghost predicate BetweenPasses() reads this {
      Valid() && (inHeld.Some? ==> stage == Marked && inHeld.value.samples != [])
    }

    /** The input a pass works on, given what arrives before it takes one. */
    ghost function NextInput(arrivals: seq<Arrival>): Option<Header> reads this {
      if inHeld.Some? then Some(original) else if inQueue != [] then Head(inQueue) else FirstEmpty(arrivals, |arrivals|)
    }

    ghost function Taken(): Option<Header> reads `inHeld, `original { if inHeld.Some? then Some(original) else None }

    predicate OutputReady() reads this { outHeld.Some? || outQueue != [] }

    method ArriveAndTakeInput(arrivals: seq<Arrival>, ghost e: Earlier)
      requires Valid() && Since(e, accepted, supplied) && (inHeld.Some? ==> stage != Consumed)
      modifies `inQueue, `outQueue, `accepted, `supplied, `inHeld, `original, `stage
      ensures Valid() && (inHeld.Some? ==> stage != Consumed)
      ensures Since(e, accepted, supplied)
      ensures Taken() == old(NextInput(arrivals)) && OutputReady() == (old(OutputReady()) || HasFill(arrivals, |arrivals|))
    {
      AcceptAll(arrivals, e);
      ghost var a, s := accepted, supplied;
      TakeInput();
      assert a == accepted && s == supplied;
    }

    method ArriveAndTakeOutput(arrivals: seq<Arrival>, ghost e: Earlier)
      requires Valid() && Since(e, accepted, supplied) && (inHeld.Some? ==> stage != Consumed)
      modifies `inQueue, `outQueue, `accepted, `supplied, `outHeld
      ensures Valid() && Since(e, accepted, supplied)
      ensures outHeld.Some? == (old(OutputReady()) || HasFill(arrivals, |arrivals|))
    {
      AcceptAll(arrivals, e);
      ghost var a, s := accepted, supplied;
      TakeOutput();
      assert a == accepted && s == supplied;
    }

    method ArriveAndProcess(arrivals: seq<Arrival>, ghost e: Earlier)
      requires Valid() && Since(e, accepted, supplied) && (inHeld.Some? ==> stage == Marked)
      modifies `inQueue, `outQueue, `accepted, `supplied, `inHeld, `outHeld, `pMark, `eosReached, `outDone, `events, `fates, `stage
      ensures Valid() && inHeld.Some? == old(inHeld.Some?)
      ensures Since(e, accepted, supplied)
      ensures stage == if old(inHeld.Some? && outHeld.Some?) then Consumed else old(stage)
      ensures fates == if old(inHeld.Some? && outHeld.Some?) then old(fates) + [Processed(original)] else old(fates)
    {
      AcceptAll(arrivals, e);
      ghost var a, s := accepted, supplied;
      Process();
      assert a == accepted && s == supplied;
    }

    method ArriveAndReturnInput(arrivals: seq<Arrival>, ghost e: Earlier)
      requires Valid() && Since(e, accepted, supplied) && (inHeld.Some? ==> stage != Fresh)
      modifies `inQueue, `outQueue, `accepted, `supplied, `inHeld, `inDone, `fates, `stage
      ensures BetweenPasses()
      ensures Since(e, accepted, supplied)
      ensures old(inHeld.Some? && stage == Marked && original.samples == []) ==> fates == old(fates) + [Skipped(original)]
      ensures !old(inHeld.Some? && stage == Marked && original.samples == []) ==> fates == old(fates)
      ensures inHeld.None? == old(inHeld.None? || stage == Consumed || original.samples == [])
    {
      AcceptAll(arrivals, e);
      ReturnInput();
    }

    method PassTake(a: Arrivals, ghost e: Earlier)
      requires BetweenPasses() && Since(e, accepted, supplied)
      modifies `inQueue, `outQueue, `accepted, `supplied, `outHeld, `inHeld, `original, `stage
      ensures Valid() && (inHeld.Some? ==> stage != Consumed)
      ensures Since(e, accepted, supplied)
      ensures Taken() == old(NextInput(a.beforeInput)) && outHeld.Some? == old(OutputComes(a))
    {
      ArriveAndTakeInput(a.beforeInput, e);
      ArriveAndTakeOutput(a.beforeOutput, e);
    }

    method PassProcess(a: Arrivals, ghost e: Earlier)
      requires Valid() && Since(e, accepted, supplied) && (inHeld.Some? ==> stage == Marked)
      modifies `inQueue, `outQueue, `accepted, `supplied, `inHeld, `outHeld, `pMark, `eosReached, `outDone, `inDone, `events, `fates, `stage
      ensures BetweenPasses()
      ensures Since(e, accepted, supplied)
      ensures fates == old(fates) + Outcome(old(Taken()), old(outHeld.Some?))
      ensures inHeld.Some? <==> old(inHeld.Some? && outHeld.None? && original.samples != [])
    {
      ArriveAndProcess(a.beforeProcess, e);
      ArriveAndReturnInput(a.beforeReturn, e);
    }

    method PassWork(a: Arrivals, ghost e: Earlier)
      requires Valid() && Since(e, accepted, supplied) && (inHeld.Some? ==> stage != Consumed)
      modifies `inQueue, `outQueue, `accepted, `supplied, `inHeld, `outHeld, `pMark, `eosReached, `outDone, `inDone, `events, `fates, `stage
      ensures BetweenPasses()
      ensures Since(e, accepted, supplied)
      ensures fates == old(fates) + Outcome(old(Taken()), old(outHeld.Some?))
      ensures inHeld.Some? <==> old(inHeld.Some? && outHeld.None? && original.samples != [])
    {
      TakeMark();
      PassProcess(a, e);
    }

    /** An output buffer is held or queued by the time the pass takes one. */
    predicate OutputComes(a: Arrivals) reads this {
      OutputReady() || HasFill(a.beforeInput, |a.beforeInput|) || HasFill(a.beforeOutput, |a.beforeOutput|)
    }

    /**
     One pass of the loop, with whatever the client sends meanwhile: exactly what
     becomes of the input it takes.
     */
    method Pass(a: Arrivals, ghost e: Earlier)
      requires BetweenPasses() && Since(e, accepted, supplied)
      modifies this
      ensures BetweenPasses()
      ensures Since(e, accepted, supplied)
      ensures fates == old(fates) + Outcome(old(NextInput(a.beforeInput)), old(OutputComes(a)))
      ensures fates != old(fates) ==> inHeld == None
    {
      PassTake(a, e);
      PassWork(a, e);
    }

    /**
     A pass that settles an input with the end of stream flag reports it, by one
     more event and one more output with that flag, if and only if it has no other
     flag and, when it is empty, an output buffer was held or queued.
     */
    method PassAtEndOfStream(a: Arrivals)
      requires BetweenPasses() && NextInput(a.beforeInput).Some? && EndsStream(NextInput(a.beforeInput).value)
      modifies this
      ensures BetweenPasses() && AllSaid(outDone) == S().outs && (fates != old(fates) ==> events == S().events)
      ensures var x := old(NextInput(a.beforeInput)).value;
              fates != old(fates) ==>
                (EndReported(old(S()), S()) <==> x.flags == EOS && (x.samples == [] ==> old(OutputComes(a))))
    {
      ghost var x := NextInput(a.beforeInput).value;
      if Outcome(Some(x), OutputComes(a)) != [] {
        EndOfStreamReportedExactly(self, gain, fates, x, OutputComes(a));
      }
      SinceNow(accepted, supplied);
      Pass(a, Earlier(accepted, supplied));
    }

    /** An unmarked input that was skipped says nothing. */
    lemma NothingSaid(x: Header)
      requires Valid() && fates == [Skipped(x)] && x.mark == None && inHeld == None
      ensures outDone == [] && events == []
    {
      OneMore(self, gain, [], Skipped(x));
      assert [] + [Skipped(x)] == [Skipped(x)];
      assert |AllSaid(outDone)| == |outDone|;
    }

    /** What the client has got back, between two passes. */
    lemma Delivered()
      requires BetweenPasses()
      ensures AllSaid(outDone) == Result(self, gain, fates).outs
      ensures Ids(outDone) <= supplied && Inputs(fates) <= accepted
      ensures inHeld.None? ==> events == Result(self, gain, fates).events
      ensures (forall h :: h in accepted ==> h.samples != []) ==> AllSaid(outDone) == Images(self, gain, Inputs(fates))
      ensures Heard(Samples(outDone), Samples(Inputs(fates)), gain)
      ensures inHeld.None? ==> MarksReported(self, fates, events) && Ids(inDone) == Ids(Inputs(fates))
    {
      SamplesAreMapped(self, gain, fates);
      assert Samples(outDone) == OutSamples(AllSaid(outDone));
      MarksAreReported(self, gain, fates);
      if forall h :: h in accepted ==> h.samples != [] {
        forall i | 0 <= i < |fates| ensures fates[i].Processed? && fates[i].x.samples != [] {
          assert fates[i] in fates && accepted[i] == fates[i].x;
        }
        FilledInputsAreMapped(self, gain, fates);
      }
    }

    /** The same, field by field. */
    lemma FieldByField()
      requires Ids(outDone) <= supplied && Inputs(fates) <= accepted
      requires inHeld.None? ==> Ids(inDone) == Ids(Inputs(fates))
      ensures inHeld.None? ==> |inDone| == |fates| && forall k :: 0 <= k < |inDone| ==> inDone[k].id == accepted[k].id
      ensures |fates| <= |accepted| && forall k :: 0 <= k < |fates| ==> fates[k].x == accepted[k]
      ensures |outDone| <= |supplied| && forall k :: 0 <= k < |outDone| ==> outDone[k].id == supplied[k]
      ensures AllSaid(outDone) == Images(self, gain, Inputs(fates)) ==>
                |outDone| == |fates| && forall k :: 0 <= k < |outDone| ==>
                  var x, o := accepted[k], outDone[k];
                  && |o.samples| == |x.samples| && (forall i :: 0 <= i < |o.samples| ==> o.samples[i] == gain(x.samples[i]))
                  && o.timestamp == x.timestamp && o.flags == (if x.flags == 1 || x.flags == 2 then x.flags else 0)
                  && o.mark == if x.mark.Some? && x.mark.value.target != self then x.mark else None
    {
      forall k | 0 <= k < |fates| ensures fates[k].x == accepted[k] { assert Inputs(fates)[k] == accepted[k]; }
      if inHeld.None? {
        assert |Ids(inDone)| == |inDone| && |Ids(Inputs(fates))| == |fates|;
        forall k | 0 <= k < |inDone| ensures inDone[k].id == accepted[k].id {
          assert Ids(inDone)[k] == Ids(Inputs(fates))[k];
        }
      }
      forall k | 0 <= k < |outDone| ensures outDone[k].id == supplied[k] { assert Ids(outDone)[k] == supplied[k]; }
      if AllSaid(outDone) == Images(self, gain, Inputs(fates)) {
        assert |AllSaid(outDone)| == |outDone| && |Images(self, gain, Inputs(fates))| == |fates|;
        forall k | 0 <= k < |outDone| ensures Said(outDone[k]) == Image(self, gain, accepted[k]) {
          assert AllSaid(outDone)[k] == Images(self, gain, Inputs(fates))[k];
        }
      }
    }

    /**
     The loop over any schedule of arrivals: what the client gets back is what the
     stream function makes of the inputs taken, and those are a prefix of the
     inputs accepted.
     */
    method ManagerLoop(schedule: seq<Arrivals>)
      requires BetweenPasses()
      modifies this
      ensures BetweenPasses()
      ensures AllSaid(outDone) == Result(self, gain, fates).outs
      ensures Ids(outDone) <= supplied && Inputs(fates) <= accepted
      ensures inHeld.None? ==> events == Result(self, gain, fates).events
      ensures (forall h :: h in accepted ==> h.samples != []) ==>
                AllSaid(outDone) == Images(self, gain, Inputs(fates))
      ensures old(fates) <= fates && old(accepted) <= accepted && old(supplied) <= supplied
      ensures |fates| <= |accepted| && forall k :: 0 <= k < |fates| ==> fates[k].x == accepted[k]
      ensures |outDone| <= |supplied| && forall k :: 0 <= k < |outDone| ==> outDone[k].id == supplied[k]
      ensures inHeld.None? ==> |inDone| == |fates| && forall k :: 0 <= k < |inDone| ==> inDone[k].id == accepted[k].id
      ensures (forall h :: h in accepted ==> h.samples != []) ==>
                |outDone| == |fates| && forall k :: 0 <= k < |outDone| ==>
                  var x, o := accepted[k], outDone[k];
                  && |o.samples| == |x.samples| && (forall i :: 0 <= i < |o.samples| ==> o.samples[i] == gain(x.samples[i]))
                  && o.timestamp == x.timestamp && o.flags == (if x.flags == 1 || x.flags == 2 then x.flags else 0)
                  && o.mark == if x.mark.Some? && x.mark.value.target != self then x.mark else None
      ensures Heard(Samples(outDone), Samples(Inputs(fates)), gain)
      ensures inHeld.None? ==> forall d ::
                EventMark(d) in events <==> exists k :: 0 <= k < |fates| && fates[k].x.mark == Some(Mark(self, d))
    {
      ghost var e, settled := Earlier(accepted, supplied), fates;
      SinceNow(accepted, supplied);
      LongerExactly(fates, fates);
      for i := 0 to |schedule|
        invariant BetweenPasses() && Since(e, accepted, supplied) && Longer(settled, fates)
      {
        LongerStill(settled, fates, Outcome(NextInput(schedule[i].beforeInput), OutputComes(schedule[i])));
        Pass(schedule[i], e);
      }
      Delivered();
      FieldByField();
      LongerExactly(settled, fates);
      LongerExactly(e.accepted, accepted);
      LongerExactly(e.supplied, supplied);
    }
  }

  lemma {:induction false} ResultOfPrefix(self: nat, gain: int -> int, fates: seq<Fate>, more: seq<Fate>, n: nat)
    requires n <= |fates|
    ensures ResultOf(self, gain, fates + more, n) == ResultOf(self, gain, fates, n)
  {
    if n > 0 {
      ResultOfPrefix(self, gain, fates, more, n - 1);
    }
  }

  lemma OneMore(self: nat, gain: int -> int, fates: seq<Fate>, f: Fate)
    ensures Result(self, gain, fates + [f]) == Absorb(self, gain, Result(self, gain, fates), f)
    ensures Inputs(fates + [f]) == Inputs(fates) + [f.x]
    ensures Ids(Inputs(fates + [f])) == Ids(Inputs(fates)) + [f.x.id]
  {
    ResultOfPrefix(self, gain, fates, [f], |fates|);
  }

  lemma LastOne(self: nat, gain: int -> int, fates: seq<Fate>)
    requires fates != []
    ensures Result(self, gain, fates) == Absorb(self, gain, Result(self, gain, fates[..|fates| - 1]), fates[|fates| - 1])
  {
    var front := fates[..|fates| - 1];
    assert fates == front + [fates[|fates| - 1]];
    OneMore(self, gain, front, fates[|fates| - 1]);
  }

  lemma SaidMore(hs: seq<Header>, h: Header)
    ensures AllSaid(hs + [h]) == AllSaid(hs) + [Said(h)] && Ids(hs + [h]) == Ids(hs) + [h.id]
  {}

  // ---------------------------------------------------------------------------
  // What the stream function is
  // ---------------------------------------------------------------------------

  /** The output buffer made from one input that is not empty. */
  function Image(self: nat, gain: int -> int, x: Header): Out {
    Out(Apply(gain, x.samples), if x.flags == EOS || x.flags == STARTTIME then x.flags else 0, x.timestamp, Foreign(self, x.mark))
  }

  function Images(self: nat, gain: int -> int, xs: seq<Header>): seq<Out> {
    seq(|xs|, i requires 0 <= i < |xs| => Image(self, gain, xs[i]))
  }

  /** One event for each mark that names this component, one for each end of stream. */
  function EventsOf(self: nat, xs: seq<Header>): seq<Event> {
    if xs == [] then []
    else
      var x := xs[|xs| - 1];
      EventsOf(self, xs[..|xs| - 1]) + SelfMark(self, x.mark) + if x.flags == EOS then [EventBufferFlag(EOS)] else []
  }

  /**
   Inputs that are not empty are mapped one to one, in order: samples through the
   callback, timestamp copied, foreign mark passed on, self mark and end of stream
   reported once.
   */
  lemma {:induction false} FilledInputsAreMapped(self: nat, gain: int -> int, fates: seq<Fate>)
    requires forall i :: 0 <= i < |fates| ==> fates[i].Processed? && fates[i].x.samples != []
    ensures Result(self, gain, fates).outs == Images(self, gain, Inputs(fates))
    ensures Result(self, gain, fates).events == EventsOf(self, Inputs(fates))
    ensures var c := Result(self, gain, fates).carry; c.pending == None && c.flags == 0 && c.mark == None
  {
    if fates == [] {
    } else {
      var before, f := fates[..|fates| - 1], fates[|fates| - 1];
      FilledInputsAreMapped(self, gain, before);
      LastOne(self, gain, fates);
      assert Inputs(fates) == Inputs(before) + [f.x];
      assert Inputs(fates)[..|fates| - 1] == Inputs(before);
      assert Images(self, gain, Inputs(fates)) == Images(self, gain, Inputs(before)) + [Image(self, gain, f.x)];
    }
  }

  // ---------------------------------------------------------------------------
  // Samples and marks, empty inputs included
  // ---------------------------------------------------------------------------

  function Samples(hs: seq<Header>): seq<seq<int>> { seq(|hs|, i requires 0 <= i < |hs| => hs[i].samples) }
  function OutSamples(outs: seq<Out>): seq<seq<int>> { seq(|outs|, i requires 0 <= i < |outs| => outs[i].samples) }

  /** Those that are not empty. */
  function NonEmpty(ss: seq<seq<int>>): seq<seq<int>> {
    if ss == [] then []
    else NonEmpty(ss[..|ss| - 1]) + if ss[|ss| - 1] == [] then [] else [ss[|ss| - 1]]
  }

  /** Apart from empty ones the outputs are the inputs, one by one and sample by sample, through the callback. */
  ghost predicate Heard(outs: seq<seq<int>>, ins: seq<seq<int>>, gain: int -> int) {
    var o, x := NonEmpty(outs), NonEmpty(ins);
    && |o| == |x|
    && forall k :: 0 <= k < |o| ==> |o[k]| == |x[k]| && forall i :: 0 <= i < |o[k]| ==> o[k][i] == gain(x[k][i])
  }

  lemma OneMoreHeard(outs: seq<seq<int>>, ins: seq<seq<int>>, gain: int -> int, out: seq<seq<int>>, x: seq<int>)
    requires Heard(outs, ins, gain)
    requires out == [Apply(gain, x)] || (out == [] && x == [])
    ensures Heard(outs + out, ins + [x], gain)
  {
    assert (ins + [x])[..|ins|] == ins && |Apply(gain, x)| == |x|;
    if out == [] {
      assert outs + out == outs;
    } else {
      assert (outs + out)[..|outs|] == outs;
    }
  }

  lemma {:induction false} SamplesAreMapped(self: nat, gain: int -> int, fates: seq<Fate>)
    requires forall f :: f in fates && f.Skipped? ==> f.x.samples == []
    ensures Heard(OutSamples(Result(self, gain, fates).outs), Samples(Inputs(fates)), gain)
  {
    if fates != [] {
      var before, f := fates[..|fates| - 1], fates[|fates| - 1];
      SamplesAreMapped(self, gain, before);
      LastOne(self, gain, fates);
      assert f in fates;
      var r, s := Result(self, gain, before).outs, Result(self, gain, fates).outs;
      OneMoreHeard(OutSamples(r), Samples(Inputs(before)), gain, OutSamples(s[|r|..]), f.x.samples);
      assert OutSamples(s) == OutSamples(r) + OutSamples(s[|r|..]);
      assert Samples(Inputs(fates)) == Samples(Inputs(before)) + [f.x.samples];
    }
  }

  /** A mark for this component is reported with its data, and nothing else is reported as a mark. */
  ghost predicate MarksReported(self: nat, fates: seq<Fate>, events: seq<Event>) {
    forall d :: EventMark(d) in events <==> exists k :: 0 <= k < |fates| && fates[k].x.mark == Some(Mark(self, d))
  }

  lemma {:induction false} MarksAreReported(self: nat, gain: int -> int, fates: seq<Fate>)
    ensures MarksReported(self, fates, Result(self, gain, fates).events)
  {
    if fates != [] {
      var before, f := fates[..|fates| - 1], fates[|fates| - 1];
      MarksAreReported(self, gain, before);
      LastOne(self, gain, fates);
      var was, events := Result(self, gain, before).events, Result(self, gain, fates).events;
      forall d ensures EventMark(d) in events <==> EventMark(d) in was || f.x.mark == Some(Mark(self, d)) {}
      forall d
        ensures (exists k :: 0 <= k < |fates| && fates[k].x.mark == Some(Mark(self, d))) <==>
                (exists k :: 0 <= k < |before| && before[k].x.mark == Some(Mark(self, d))) || f.x.mark == Some(Mark(self, d))
      {
        if k :| 0 <= k < |before| && before[k].x.mark == Some(Mark(self, d)) { assert fates[k] == before[k]; }
      }
    }
  }

  /** What has been returned is never taken back: more inputs only add outputs and events. */
  lemma {:induction false} StreamOnlyGrows(self: nat, gain: int -> int, fates: seq<Fate>, more: seq<Fate>)
    ensures Result(self, gain, fates).outs <= Result(self, gain, fates + more).outs
    ensures Result(self, gain, fates).events <= Result(self, gain, fates + more).events
    decreases |more|
  {
    if more == [] {
      assert fates + more == fates;
    } else {
      var front := more[..|more| - 1];
      StreamOnlyGrows(self, gain, fates, front);
      assert fates + more == (fates + front) + [more[|more| - 1]];
      OneMore(self, gain, fates + front, more[|more| - 1]);
    }
  }

  /** Two marked inputs of which the first is empty: its mark reaches no output. */
  lemma EmptyInputCanLoseItsMark(self: nat, gain: int -> int, x: Header, y: Header)
    requires x.samples == [] && x.flags == 0 && y.samples != []
    requires Foreign(self, x.mark).Some? && Foreign(self, y.mark).Some? && x.mark != y.mark
    ensures var r := Result(self, gain, [Processed(x), Processed(y)]);
            |r.outs| == 1 && r.outs[0].mark == y.mark && r.carry.pending == None && r.carry.mark == None
  {
    OneMore(self, gain, [], Processed(x));
    OneMore(self, gain, [Processed(x)], Processed(y));
    assert [] + [Processed(x)] == [Processed(x)];
    assert [Processed(x)] + [Processed(y)] == [Processed(x), Processed(y)];
  }

  /** Bit 0 of the flags: OMX_BUFFERFLAG_EOS, alone or with others. */
  predicate EndsStream(x: Header) { x.flags % 2 == 1 }

  /** From s to t the end of the stream is reported: by one event and by one output. */
  predicate EndReported(s: Stream, t: Stream) {
    && |t.events| > |s.events| && t.events[|t.events| - 1] == EventBufferFlag(EOS)
    && |t.outs| == |s.outs| + 1 && t.outs[|s.outs|].flags == EOS
  }

  /** An output buffer that stays in hand never has the end of stream flag. */
  lemma {:induction false} HeldIsNotTheEnd(self: nat, gain: int -> int, fates: seq<Fate>)
    ensures Result(self, gain, fates).carry.flags != EOS
  {
    if fates == [] {
    } else {
      HeldIsNotTheEnd(self, gain, fates[..|fates| - 1]);
      LastOne(self, gain, fates);
    }
  }

  /**
   Exactly when an input that ends the stream is reported in the pass that settles
   it.  The code compares the flags for equality, and hands back an empty input
   that met no output buffer as it came: then nothing says that the stream ended.
   */
  lemma EndOfStreamReportedExactly(self: nat, gain: int -> int, fates: seq<Fate>, x: Header, out: bool)
    requires EndsStream(x) && Outcome(Some(x), out) != []
    ensures var s, t := Result(self, gain, fates), Result(self, gain, fates + Outcome(Some(x), out));
            && (EndReported(s, t) <==> x.flags == EOS && (x.samples == [] ==> out))
            && (EndReported(s, t) ==> t.outs[|s.outs|].timestamp == x.timestamp && |t.outs[|s.outs|].samples| == |x.samples|)
            && (!EndReported(s, t) ==>
                  (t.events == s.events + SelfMark(self, x.mark) && forall k :: |s.outs| <= k < |t.outs| ==> t.outs[k].flags != EOS))
  {
    OneMore(self, gain, fates, Outcome(Some(x), out)[0]);
    HeldIsNotTheEnd(self, gain, fates);
  }

  /** The stream has ended exactly when an input whose flags are that of the end has been processed. */
  ghost predicate Ended(fates: seq<Fate>) { exists k :: 0 <= k < |fates| && fates[k].Processed? && fates[k].x.flags == EOS }

  lemma {:induction false} EndedExactly(self: nat, gain: int -> int, fates: seq<Fate>)
    ensures Result(self, gain, fates).carry.eos <==> Ended(fates)
  {
    if fates != [] {
      var n := |fates| - 1;
      EndedExactly(self, gain, fates[..n]);
      LastOne(self, gain, fates);
      if k :| 0 <= k < n && fates[..n][k].Processed? && fates[..n][k].x.flags == EOS { assert fates[k] == fates[..n][k]; }
      if k :| 0 <= k < n && fates[k].Processed? && fates[k].x.flags == EOS { assert fates[k] == fates[..n][k]; }
    }
  }

  /**
   Exactly when an input makes an output go back: it is processed, and has samples,
   or ends the stream, or comes after the end.
   */
  lemma OutputsGoBackExactly(self: nat, gain: int -> int, fates: seq<Fate>, f: Fate)
    ensures var s, t := Result(self, gain, fates), Result(self, gain, fates + [f]);
            |t.outs| == |s.outs| + if f.Processed? && (f.x.samples != [] || f.x.flags == EOS || Ended(fates)) then 1 else 0
  {
    OneMore(self, gain, fates, f);
    HeldIsNotTheEnd(self, gain, fates);
    EndedExactly(self, gain, fates);
  }

  /** Inputs that are empty and have neither flag. */
  predicate Idle(fates: seq<Fate>) {
    forall f :: f in fates ==> f.x.samples == [] && f.x.flags != EOS && f.x.flags != STARTTIME
  }

  lemma {:induction false} FlagWaits(self: nat, gain: int -> int, fates: seq<Fate>, idle: seq<Fate>)
    requires Idle(idle) && !Result(self, gain, fates).carry.eos
    ensures var s, t := Result(self, gain, fates), Result(self, gain, fates + idle);
            t.carry.flags == s.carry.flags && !t.carry.eos && t.outs == s.outs
    decreases |idle|
  {
    if idle == [] {
      assert fates + idle == fates;
    } else {
      var front, last := idle[..|idle| - 1], idle[|idle| - 1];
      assert last in idle && forall f :: f in front ==> f in idle;
      FlagWaits(self, gain, fates, front);
      assert fates + idle == (fates + front) + [last];
      OneMore(self, gain, fates + front, last);
      HeldIsNotTheEnd(self, gain, fates + front);
    }
  }

  /** The start time flag of an empty input waits for the next output, which has the time of its own input. */
  lemma StartTimeIsCarried(self: nat, gain: int -> int, fates: seq<Fate>, e: Header, idle: seq<Fate>, y: Header)
    requires !Ended(fates) && e.samples == [] && e.flags == STARTTIME && Idle(idle)
    requires y.samples != [] && y.flags != EOS && y.flags != STARTTIME
    ensures var s, t := Result(self, gain, fates), Result(self, gain, fates + [Processed(e)] + idle + [Processed(y)]);
            && |t.outs| == |s.outs| + 1 && t.outs[|s.outs|].flags == STARTTIME && t.outs[|s.outs|].timestamp == y.timestamp
  {
    EndedExactly(self, gain, fates);
    HeldIsNotTheEnd(self, gain, fates);
    OneMore(self, gain, fates, Processed(e));
    FlagWaits(self, gain, fates + [Processed(e)], idle);
    OneMore(self, gain, fates + [Processed(e)] + idle, Processed(y));
  }

  /** An empty end of stream that meets no output buffer: one pass hands it back, with no output and no event. */
  method EmptyEndOfStreamIsLost(timestamp: int) returns (f: Filter)
    ensures f.fates == [Skipped(Header(1, [], EOS, timestamp, None))] && f.Valid()
    ensures f.inHeld == None && f.outDone == [] && f.events == []
  {
    f := new Filter(0, x => x);
    var h := Header(1, [], EOS, timestamp, None);
    f.AcceptEmpty(h);
    f.Pass(Arrivals([], [], [], []), Earlier([], []));
    f.NothingSaid(h);
  }

  // ---------------------------------------------------------------------------
  // Where the marks land
  // ---------------------------------------------------------------------------

  /** The next output to be made when input i comes: the only one its mark can land on. */
  function Landing(self: nat, gain: int -> int, fates: seq<Fate>, i: nat): nat
    requires i <= |fates|
  {
    |ResultOf(self, gain, fates, i).outs|
  }

  /** A later input with a foreign mark comes before that output is made. */
  ghost predicate Overtaken(self: nat, gain: int -> int, fates: seq<Fate>, i: nat)
    requires i < |fates|
  {
    exists j :: i < j < |fates| && Foreign(self, fates[j].x.mark).Some? && Landing(self, gain, fates, j) == Landing(self, gain, fates, i)
  }

  /** The last foreign mark that came when output k was the next one. */
  function Newest(self: nat, gain: int -> int, fates: seq<Fate>, k: nat): Option<Mark> {
    if fates == [] then None
    else
      var front, x := fates[..|fates| - 1], fates[|fates| - 1].x;
      if |Result(self, gain, front).outs| == k then Over(Foreign(self, x.mark), Newest(self, gain, front, k))
      else Newest(self, gain, front, k)
  }

  /** No mark is there for outputs still further ahead. */
  lemma {:induction false} NewestAhead(self: nat, gain: int -> int, fates: seq<Fate>, k: nat)
    requires k > |Result(self, gain, fates).outs|
    ensures Newest(self, gain, fates, k) == None
  {
    if fates == [] {
    } else {
      LastOne(self, gain, fates);
      NewestAhead(self, gain, fates[..|fates| - 1], k);
    }
  }

  /** Every output has the last foreign mark that came for it, and so has the output to come. */
  lemma {:induction false} OutputsHaveTheNewest(self: nat, gain: int -> int, fates: seq<Fate>)
    ensures var r := Result(self, gain, fates);
            && (forall k :: 0 <= k < |r.outs| ==> r.outs[k].mark == Newest(self, gain, fates, k))
            && Over(r.carry.pending, r.carry.mark) == Newest(self, gain, fates, |r.outs|)
  {
    if fates == [] {
    } else {
      var front := fates[..|fates| - 1];
      OutputsHaveTheNewest(self, gain, front);
      LastOne(self, gain, fates);
      var s, r := Result(self, gain, front), Result(self, gain, fates);
      if |r.outs| > |s.outs| {
        NewestAhead(self, gain, front, |r.outs|);
      }
    }
  }

  lemma LandingOfFront(self: nat, gain: int -> int, fates: seq<Fate>, i: nat)
    requires i < |fates|
    ensures Landing(self, gain, fates[..|fates| - 1], i) == Landing(self, gain, fates, i)
  {
    var front := fates[..|fates| - 1];
    assert fates == front + [fates[|fates| - 1]];
    ResultOfPrefix(self, gain, front, [fates[|fates| - 1]], i);
  }

  /** Input i brought a foreign mark for output k, and no later one came before the output was made. */
  ghost predicate Last(self: nat, gain: int -> int, fates: seq<Fate>, i: nat, k: nat)
    requires i < |fates|
  {
    Foreign(self, fates[i].x.mark).Some? && Landing(self, gain, fates, i) == k && !Overtaken(self, gain, fates, i)
  }

  /** The last input for output k stays so unless the next input brings a foreign mark for it too. */
  lemma StaysLast(self: nat, gain: int -> int, fates: seq<Fate>, i: nat, k: nat)
    requires i < |fates| - 1 && Last(self, gain, fates[..|fates| - 1], i, k)
    requires Landing(self, gain, fates, |fates| - 1) == k ==> Foreign(self, fates[|fates| - 1].x.mark) == None
    ensures Last(self, gain, fates, i, k)
  {
    forall j | i <= j < |fates| - 1 ensures Landing(self, gain, fates[..|fates| - 1], j) == Landing(self, gain, fates, j) {
      LandingOfFront(self, gain, fates, j);
    }
  }

  /** The newest mark for output k is that of the last input that came for it. */
  lemma {:induction false} NewestIsLast(self: nat, gain: int -> int, fates: seq<Fate>, k: nat) returns (i: nat)
    ensures Newest(self, gain, fates, k) == None ==>
              forall j :: 0 <= j < |fates| && Landing(self, gain, fates, j) == k ==> Foreign(self, fates[j].x.mark) == None
    ensures Newest(self, gain, fates, k).Some? ==>
              i < |fates| && Last(self, gain, fates, i, k) && Newest(self, gain, fates, k) == Foreign(self, fates[i].x.mark)
  {
    i := 0;
    if fates != [] {
      var n := |fates| - 1;
      forall j | 0 <= j <= n ensures Landing(self, gain, fates[..n], j) == Landing(self, gain, fates, j) {
        LandingOfFront(self, gain, fates, j);
      }
      if Landing(self, gain, fates, n) == k && Foreign(self, fates[n].x.mark).Some? {
        i := n;
      } else {
        i := NewestIsLast(self, gain, fates[..n], k);
        if Newest(self, gain, fates, k).Some? {
          StaysLast(self, gain, fates, i, k);
        }
      }
    }
  }

  /** Only one input can be the last for an output. */
  lemma LastIsUnique(self: nat, gain: int -> int, fates: seq<Fate>, i: nat, j: nat, k: nat)
    requires i < |fates| && j < |fates| && Last(self, gain, fates, i, k) && Last(self, gain, fates, j, k)
    ensures i == j
  {}

  /** The mark of input i is on output k, or will be on the output to come. */
  predicate Carried(r: Stream, m: Option<Mark>, k: nat) {
    if k < |r.outs| then r.outs[k].mark == m else k == |r.outs| && Over(r.carry.pending, r.carry.mark) == m
  }

  /** What an output carries, or the output to come, is the newest mark for it. */
  lemma CarriesTheNewest(self: nat, gain: int -> int, fates: seq<Fate>, m: Option<Mark>, k: nat)
    requires m.Some?
    ensures Carried(Result(self, gain, fates), m, k) <==> Newest(self, gain, fates, k) == m
  {
    OutputsHaveTheNewest(self, gain, fates);
    if k > |Result(self, gain, fates).outs| {
      NewestAhead(self, gain, fates, k);
    }
  }

  /** No two inputs but the same have this input's foreign mark. */
  predicate OwnMark(self: nat, fates: seq<Fate>, i: nat)
    requires i < |fates|
  {
    && Foreign(self, fates[i].x.mark).Some?
    && forall j :: 0 <= j < |fates| && j != i ==> Foreign(self, fates[j].x.mark) != Foreign(self, fates[i].x.mark)
  }

  /** Which input's mark an output carries: exactly the last one that came for it. */
  lemma CarriesExactlyTheLast(self: nat, gain: int -> int, fates: seq<Fate>, i: nat, k: nat)
    requires i < |fates| && OwnMark(self, fates, i)
    ensures Carried(Result(self, gain, fates), Foreign(self, fates[i].x.mark), k) <==> Last(self, gain, fates, i, k)
  {
    CarriesTheNewest(self, gain, fates, Foreign(self, fates[i].x.mark), k);
    var j := NewestIsLast(self, gain, fates, k);
    if Last(self, gain, fates, i, k) {
      LastIsUnique(self, gain, fates, i, j, k);
    }
  }

  /**
   Exactly when a foreign mark, different from all others, is lost: when a later one
   comes before the next output is made.  Otherwise it is on exactly one output, or
   will be on the next.
   */
  lemma MarkIsLostExactly(self: nat, gain: int -> int, fates: seq<Fate>, i: nat)
    requires i < |fates| && OwnMark(self, fates, i)
    ensures var r, m := Result(self, gain, fates), Foreign(self, fates[i].x.mark);
            && ((forall k: nat :: !Carried(r, m, k)) <==> Overtaken(self, gain, fates, i))
            && (forall k: nat, l: nat :: Carried(r, m, k) && Carried(r, m, l) ==> k == l)
  {
    forall k: nat
      ensures Carried(Result(self, gain, fates), Foreign(self, fates[i].x.mark), k) <==> Last(self, gain, fates, i, k)
    {
      CarriesExactlyTheLast(self, gain, fates, i, k);
    }
    var k := Landing(self, gain, fates, i);
    assert Carried(Result(self, gain, fates), Foreign(self, fates[i].x.mark), k) <==> !Overtaken(self, gain, fates, i);
  }
}
