/**
 The audio mixer: weighted 16-bit mixing with C's truncating division, one pass of
 its buffer management loop, and when its sums can overflow.
 */
module Mixer {
  import opened Basics

  // ---------------------------------------------------------------------------
  // The arithmetic
  // ---------------------------------------------------------------------------

  const S16_MIN: int := -0x8000
  const S16_MAX: int := 0x7fff

  predicate S16(x: int) { S16_MIN <= x <= S16_MAX }

  /** The cast to a signed 16-bit integer. */
  function Wrap(x: int): (r: int)
    ensures S16(r) && (S16(x) ==> r == x)
  {
    (x + 0x8000) % 0x10000 - 0x8000
  }

  predicate S32(x: int) { -0x8000_0000 <= x <= 0x7fff_ffff }

  /** Arithmetic on 32 bits, as OMX_S32 is documented. */
  function Wrap32(x: int): (r: int)
    ensures S32(r) && (S32(x) ==> r == x)
  {
    (x + 0x8000_0000) % 0x1_0000_0000 - 0x8000_0000
  }

  function Abs(x: int): nat { if x < 0 then -x else x }

  /** C's division: truncates towards zero. */
  function Div(a: int, d: int): (q: int)
    requires d != 0
  {
    if (a < 0) == (d < 0) then Abs(a) / Abs(d) else -(Abs(a) / Abs(d))
  }

  /** One sample of one input, weighted by its volume over the sum of the volumes. */
  function Term(x: int, v: int, d: int): int
    requires d != 0
  {
    Div(x * v, d)
  }

  /** As the code computes it: the product is a 32-bit one, the quotient is cast to 16 bits. */
  function Weighted(x: int, v: int, d: int): (r: int)
    requires d != 0
    ensures S16(r)
  {
    Wrap(Div(Wrap32(x * v), d))
  }

  function Sum(vs: seq<int>): int { if vs == [] then 0 else Sum(vs[..|vs| - 1]) + vs[|vs| - 1] }

  /** The denominator, added up on 32 bits. */
  function Divisor(vs: seq<int>): int { Wrap32(Sum(vs)) }

  /** What one output sample becomes, input after input, with a cast at each. */
  function Mixed(xs: seq<int>, vs: seq<int>, d: int): (r: int)
    requires |xs| == |vs| && d != 0
    ensures S16(r)
  {
    if xs == [] then 0
    else Wrap(Mixed(xs[..|xs| - 1], vs[..|xs| - 1], d) + Weighted(xs[|xs| - 1], vs[|xs| - 1], d))
  }

  /** The same without the casts. */
  function Plain(xs: seq<int>, vs: seq<int>, d: int): int
    requires |xs| == |vs| && d != 0
  {
    if xs == [] then 0
    else Plain(xs[..|xs| - 1], vs[..|xs| - 1], d) + Term(xs[|xs| - 1], vs[|xs| - 1], d)
  }

  /** The weighted sum that the mix approximates, times d. */
  function Dot(xs: seq<int>, vs: seq<int>): int
    requires |xs| == |vs|
  {
    if xs == [] then 0 else Dot(xs[..|xs| - 1], vs[..|xs| - 1]) + xs[|xs| - 1] * vs[|xs| - 1]
  }

  /** The inputs that have something to say at this sample. */
  function Heard(xs: seq<int>): nat { if xs == [] then 0 else Heard(xs[..|xs| - 1]) + Bit(xs[|xs| - 1] != 0) }

  predicate Samples(xs: seq<int>, n: nat) { |xs| == n && forall i :: 0 <= i < n ==> S16(xs[i]) }

  /** Neither a term nor a sum on the way leaves the 16-bit range. */
  predicate SumsFit(xs: seq<int>, vs: seq<int>, d: int)
    requires |xs| == |vs| && d != 0
  {
    xs == [] || (SumsFit(xs[..|xs| - 1], vs[..|xs| - 1], d) && S16(Term(xs[|xs| - 1], vs[|xs| - 1], d)) && S16(Plain(xs, vs, d)))
  }

  predicate ProductsFit(xs: seq<int>, vs: seq<int>)
    requires |xs| == |vs|
  {
    forall i :: 0 <= i < |xs| ==> S32(xs[i] * vs[i])
  }

  /** Nothing overflows: no 32-bit product, no cast to 16 bits, no 16-bit sum. */
  predicate Fits(xs: seq<int>, vs: seq<int>, d: int)
    requires |xs| == |vs| && d != 0
  {
    ProductsFit(xs, vs) && SumsFit(xs, vs, d)
  }

  predicate SameSign(vs: seq<int>) {
    (forall i :: 0 <= i < |vs| ==> vs[i] >= 0) || (forall i :: 0 <= i < |vs| ==> vs[i] <= 0)
  }

  lemma Wrap32Adds(a: int, b: int)
    ensures Wrap32(Wrap32(a) + b) == Wrap32(a + b) && Wrap32(Wrap32(a)) == Wrap32(a)
  {
    var q := (a + 0x8000_0000) / 0x1_0000_0000;
    assert Wrap32(a) == a - 0x1_0000_0000 * q;
    assert (a + b + 0x8000_0000 - 0x1_0000_0000 * q) % 0x1_0000_0000 == (a + b + 0x8000_0000) % 0x1_0000_0000;
  }

  /** The casts throw away whole multiples of the range. */
  lemma CastsAreModular(x: int)
    ensures (x - Wrap(x)) % 0x10000 == 0 && (x - Wrap32(x)) % 0x1_0000_0000 == 0
  {
    assert x - Wrap(x) == 0x10000 * ((x + 0x8000) / 0x10000);
    assert x - Wrap32(x) == 0x1_0000_0000 * ((x + 0x8000_0000) / 0x1_0000_0000);
  }

  lemma MulMono(a: int, b: int, m: int)
    requires a <= b && m >= 0
    ensures m * a <= m * b
  {}

  lemma Distribute(m: int, a: int, b: int)
    ensures m * (a + b) == m * a + m * b
  {}

  lemma Quotient(a: nat, m: nat) returns (q: nat)
    requires m > 0
    ensures q == a / m && m * q <= a < m * q + m
  {
    q := a / m;
    assert a == m * q + a % m;
  }

  lemma MulNegated(m: int, q: int)
    ensures -m * q == -(m * q) && m * -q == -(m * q) && -m * -q == m * q
  {}

  lemma DivBounds(a: int, d: int)
    requires d != 0
    ensures Abs(d * Div(a, d) - a) < Abs(d)
    ensures d > 0 && a >= 0 ==> 0 <= d * Div(a, d) <= a
    ensures d > 0 && a <= 0 ==> a <= d * Div(a, d) <= 0
  {
    var m := Abs(d);
    var q := Quotient(Abs(a), m);
    MulNegated(m, q);
    var r: int := m * q;
    assert d * Div(a, d) == if a < 0 then -r else r;
  }

  lemma WeightedIsTerm(x: int, v: int, d: int)
    requires d != 0 && S32(x * v) && S16(Term(x, v, d))
    ensures Weighted(x, v, d) == Term(x, v, d)
  {}

  /** When the casts are idle, the mix is the plain sum. */
  lemma {:induction false} FittingIsPlain(xs: seq<int>, vs: seq<int>, d: int)
    requires |xs| == |vs| && d != 0 && Fits(xs, vs, d)
    ensures Mixed(xs, vs, d) == Plain(xs, vs, d)
  {
    if xs == [] {
    } else {
      var n := |xs| - 1;
      assert forall i :: 0 <= i < n ==> xs[..n][i] == xs[i] && vs[..n][i] == vs[i];
      FittingIsPlain(xs[..n], vs[..n], d);
      WeightedIsTerm(xs[n], vs[n], d);
    }
  }

  lemma ErrorStep(d: int, p: int, t: int, dot: int, xv: int, h: nat, b: nat)
    requires d != 0 && b <= 1 && Abs(d * p - dot) <= (Abs(d) - 1) * h
    requires Abs(d * t - xv) <= (Abs(d) - 1) * b
    ensures Abs(d * (p + t) - (dot + xv)) <= (Abs(d) - 1) * (h + b)
  {
    Distribute(d, p, t);
    Distribute(Abs(d) - 1, h, b);
  }

  lemma TermError(x: int, v: int, d: int)
    requires d != 0
    ensures Abs(d * Term(x, v, d) - x * v) <= (Abs(d) - 1) * Bit(x != 0)
  {
    DivBounds(x * v, d);
    if x == 0 {
      assert x * v == 0 && Div(0, d) == 0;
    }
  }

  /** Rounding: each input that is heard costs less than one unit. */
  lemma {:induction false} RoundingError(xs: seq<int>, vs: seq<int>, d: int)
    requires |xs| == |vs| && d != 0
    ensures Abs(d * Plain(xs, vs, d) - Dot(xs, vs)) <= (Abs(d) - 1) * Heard(xs)
  {
    if xs == [] {
    } else {
      var x, v, xs', vs' := xs[|xs| - 1], vs[|xs| - 1], xs[..|xs| - 1], vs[..|xs| - 1];
      RoundingError(xs', vs', d);
      TermError(x, v, d);
      ErrorStep(d, Plain(xs', vs', d), Term(x, v, d), Dot(xs', vs'), x * v, Heard(xs'), Bit(x != 0));
    }
  }

  // ---------------------------------------------------------------------------
  // The loops
  // ---------------------------------------------------------------------------

  /** A buffer of an input port: only its nFilledLen, counted in samples, changes. */
  class Input {
    const samples: seq<int>
    var filled: nat

    constructor (samples: seq<int>)
      ensures this.samples == samples && filled == |samples|
    {
      this.samples, filled := samples, |samples|;
    }
  }

  /** The buffer of the output port. */
  class Output {
    const data: array<int>
    var filled: nat

    constructor (data: array<int>)
      ensures this.data == data && filled == 0
    {
      this.data, filled := data, 0;
    }

    /** What it says so far at sample k. */
    ghost function Said(k: nat): int
      requires k < data.Length
      reads this, data
    {
      if filled == 0 then 0 else data[k]
    }
  }

  /** The mixer, with the volumes of its input ports; they do not change while it mixes. */
  class Mixer {
    const volume: seq<int>
    const enabled: seq<bool>

    constructor (volume: seq<int>, enabled: seq<bool>)
      requires |volume| == |enabled|
      ensures this.volume == volume && this.enabled == enabled
    {
      this.volume, this.enabled := volume, enabled;
    }

    /** The volumes, those of disabled ports at 0. */
    function Volumes(): (vs: seq<int>)
      requires |volume| == |enabled|
      ensures |vs| == |volume|
    {
      seq(|volume|, i requires 0 <= i < |volume| == |enabled| => if enabled[i] then volume[i] else 0)
    }

    predicate Valid() { |volume| == |enabled| && Divisor(Volumes()) != 0 }

    method Denominator() returns (d: int)
      requires |volume| == |enabled|
      ensures d == Divisor(Volumes())
      ensures d == Wrap32(Sum(seq(|volume|, i requires 0 <= i < |volume| == |enabled| => if enabled[i] then volume[i] else 0)))
    {
      d := 0;
      for i := 0 to |volume|
        invariant d == Divisor(Volumes()[..i])
      {
        assert Volumes()[..i + 1][..i] == Volumes()[..i];
        Wrap32Adds(Sum(Volumes()[..i]), Volumes()[i]);
        if enabled[i] {
          d := Wrap32(d + volume[i]);
        }
      }
      assert Volumes()[..|volume|] == Volumes();
    }

    /** Mixes one input into the output: the first one copies, the others add. */
    method BufferMgmtCallback(input: Input, i: nat, output: Output)
      requires Valid() && i < |volume| && enabled[i]
      requires input.filled <= |input.samples| && input.filled <= output.data.Length
      modifies input`filled, output`filled, output.data
      ensures input.filled == 0 && output.filled == old(input.filled)
      ensures forall k :: 0 <= k < old(input.filled) ==>
                output.data[k] == Wrap(old(output.Said(k)) + Weighted(input.samples[k], volume[i], Divisor(Volumes())))
      ensures forall k :: old(input.filled) <= k < output.data.Length ==> output.data[k] == old(output.data[k])
    {
      var d := Denominator();
      var n := input.filled;
      if output.filled == 0 {
        for k := 0 to n
          invariant forall j :: 0 <= j < k ==> output.data[j] == Weighted(input.samples[j], volume[i], d)
          invariant forall j :: k <= j < output.data.Length ==> output.data[j] == old(output.data[j])
        {
          output.data[k] := Wrap(Div(Wrap32(input.samples[k] * volume[i]), d));
        }
      } else {
        for k := 0 to n
          invariant forall j :: 0 <= j < k ==> output.data[j] == Wrap(old(output.data[j]) + Weighted(input.samples[j], volume[i], d))
          invariant forall j :: k <= j < output.data.Length ==> output.data[j] == old(output.data[j])
        {
          output.data[k] := Wrap(output.data[k] + Wrap(Div(Wrap32(input.samples[k] * volume[i]), d)));
        }
      }
      output.filled := n;
      input.filled := 0;
    }

    /** The inputs in hand are different, and those with samples are equally long. */
    ghost predicate Inputs(held: seq<Input?>, len: nat)
      reads held
    {
      && |held| == |enabled|
      && (forall i, j :: 0 <= i < j < |held| && held[i] != null ==> held[i] != held[j])
      && (forall i :: 0 <= i < |held| && Joins(held, i) ==> held[i].filled == len <= |held[i].samples|)
    }

    /** Input i takes part in the pass. */
    ghost predicate Joins(held: seq<Input?>, i: nat)
      requires i < |held| == |enabled|
      reads held
    {
      enabled[i] && held[i] != null && held[i].filled > 0
    }

    /** What the inputs in hand have to say at sample k. */
    ghost function Column(held: seq<Input?>, had: seq<bool>, k: nat): seq<int>
      requires |held| == |had|
    {
      seq(|held|, i requires 0 <= i < |held| == |had| =>
                    if had[i] && held[i] != null && k < |held[i].samples| then held[i].samples[k] else 0)
    }

    /** What sample k of the output is after the first i inputs. */
    ghost function MixedTo(held: seq<Input?>, had: seq<bool>, k: nat, i: nat): int
      requires Valid() && i <= |held| == |volume| == |had|
    {
      if i == 0 then 0
      else Wrap(MixedTo(held, had, k, i - 1) + Weighted(Column(held, had, k)[i - 1], Volumes()[i - 1], Divisor(Volumes())))
    }

    lemma {:induction false} MixedToIsMixed(held: seq<Input?>, had: seq<bool>, k: nat, i: nat)
      requires Valid() && i <= |held| == |volume| == |had|
      ensures MixedTo(held, had, k, i) == Mixed(Column(held, had, k)[..i], Volumes()[..i], Divisor(Volumes()))
    {
      if i > 0 {
        MixedToIsMixed(held, had, k, i - 1);
        MixedMore(Column(held, had, k), Volumes(), Divisor(Volumes()), i - 1);
      }
    }

    /** The pass has come to input i; `had` are the inputs that take part. */
    ghost predicate Reached(held: seq<Input?>, output: Output, len: nat, i: nat, had: seq<bool>)
      requires Valid() && i <= |held| == |volume| == |had|
      reads output, output.data
    {
      && (output.filled == 0 || output.filled == len) && len <= output.data.Length
      && (output.filled > 0 <==> true in had[..i])
      && forall k :: 0 <= k < len ==> output.Said(k) == MixedTo(held, had, k, i)
    }

    /** An input that takes no part leaves every sample as it is. */
    lemma Unheard(held: seq<Input?>, had: seq<bool>, k: nat, i: nat)
      requires Valid() && i < |held| == |volume| == |had| && !had[i]
      ensures S16(MixedTo(held, had, k, i)) && MixedTo(held, had, k, i + 1) == MixedTo(held, had, k, i)
    {
      assert Column(held, had, k)[i] == 0;
      Silence(Volumes()[i], Divisor(Volumes()));
    }

    method MixOne(held: seq<Input?>, output: Output, len: nat, i: nat, ghost had: seq<bool>)
      requires Valid() && i < |held| == |volume| == |had| && Inputs(held, len) && had[i] == Joins(held, i)
      requires Reached(held, output, len, i, had)
      modifies output`filled, output.data, if held[i] != null then {held[i]} else {}
      ensures Reached(held, output, len, i + 1, had)
      ensures held[i] != null && enabled[i] ==> held[i].filled == 0
      ensures held[i] != null && !enabled[i] ==> held[i].filled == old(held[i].filled)
    {
      assert had[..i + 1] == had[..i] + [had[i]];
      if held[i] != null && enabled[i] && held[i].filled != 0 {
        MixJoining(held, output, len, i, had);
      } else {
        forall k | 0 <= k < len ensures MixedTo(held, had, k, i + 1) == MixedTo(held, had, k, i) {
          Unheard(held, had, k, i);
        }
      }
    }

    method MixJoining(held: seq<Input?>, output: Output, len: nat, i: nat, ghost had: seq<bool>)
      requires Valid() && i < |held| == |volume| == |had| && had[i] && enabled[i]
      requires held[i] != null && 0 < held[i].filled == len <= |held[i].samples| && Reached(held, output, len, i, had)
      modifies output`filled, output.data, held[i]
      ensures Reached(held, output, len, i + 1, had) && held[i].filled == 0
    {
      assert had[..i + 1] == had[..i] + [had[i]];
      BufferMgmtCallback(held[i], i, output);
      forall k | 0 <= k < len ensures output.Said(k) == MixedTo(held, had, k, i + 1) {
        assert old(output.Said(k)) == MixedTo(held, had, k, i) && Column(held, had, k)[i] == held[i].samples[k];
      }
    }

    /** The inputs before i are used up; the others are as they came. */
    ghost predicate Waiting(held: seq<Input?>, len: nat, i: nat, had: seq<bool>)
      requires |held| == |had|
      reads held
    {
      && Inputs(held, len)
      && (forall j :: i <= j < |held| ==> had[j] == Joins(held, j))
      && (forall j :: 0 <= j < i && j < |held| && enabled[j] && held[j] != null ==> held[j].filled == 0)
    }

    /** MixOne, and what it leaves alone. */
    method PassOne(held: seq<Input?>, output: Output, len: nat, i: nat, ghost had: seq<bool>)
      requires Valid() && i < |held| == |volume| == |had| && Waiting(held, len, i, had) && Reached(held, output, len, i, had)
      modifies output`filled, output.data, held
      ensures Waiting(held, len, i + 1, had) && Reached(held, output, len, i + 1, had)
      ensures forall j :: 0 <= j < |held| && held[j] != null && !enabled[j] ==> held[j].filled == old(held[j].filled)
    {
      MixOne(held, output, len, i, had);
    }

    /**
     One pass over the inputs in hand, for an output that arrived empty: each input
     is mixed into it at most once, and the output goes back if anything was.
     */
    method Pass(held: seq<Input?>, output: Output, len: nat, ghost had: seq<bool>) returns (returned: bool)
      requires Valid() && |held| == |volume| == |had| && Waiting(held, len, 0, had)
      requires output.filled == 0 && len <= output.data.Length
      modifies output`filled, output.data, held
      ensures returned <==> true in had
      ensures returned <==> exists i :: 0 <= i < |held| && enabled[i] && held[i] != null && old(held[i].filled) > 0
      ensures forall i :: 0 <= i < |held| && held[i] != null && !enabled[i] ==> held[i].filled == old(held[i].filled)
      ensures forall i :: 0 <= i < |held| && enabled[i] && held[i] != null ==> held[i].filled == 0
      ensures returned ==> output.filled == len
      ensures returned ==> forall k :: 0 <= k < len ==> output.data[k] == Mixed(Column(held, had, k), Volumes(), Divisor(Volumes()))
    {
      assert forall i :: 0 <= i < |held| ==> had[i] == (enabled[i] && held[i] != null && held[i].filled > 0);
      SomeTrue(had);
      for i := 0 to |held|
        invariant Waiting(held, len, i, had) && Reached(held, output, len, i, had)
        invariant forall j :: 0 <= j < |held| && held[j] != null && !enabled[j] ==> held[j].filled == old(held[j].filled)
      {
        PassOne(held, output, len, i, had);
      }
      assert had[..|held|] == had;
      returned := output.filled != 0;
      forall k | 0 <= k < len ensures output.Said(k) == Mixed(Column(held, had, k), Volumes(), Divisor(Volumes())) {
        MixedToIsMixed(held, had, k, |held|);
        MixedWhole(Column(held, had, k), Volumes(), Divisor(Volumes()));
      }
    }
  }

  lemma SomeTrue(b: seq<bool>)
    ensures true in b <==> exists i :: 0 <= i < |b| && b[i]
  {}

  lemma Silence(v: int, d: int)
    requires d != 0
    ensures Weighted(0, v, d) == 0
  {
    assert 0 * v == 0 && Div(0, d) == 0;
  }

  lemma MixedWhole(xs: seq<int>, vs: seq<int>, d: int)
    requires |xs| == |vs| && d != 0
    ensures Mixed(xs[..|xs|], vs[..|xs|], d) == Mixed(xs, vs, d)
  {
    assert xs[..|xs|] == xs && vs[..|xs|] == vs;
  }

  lemma MixedMore(xs: seq<int>, vs: seq<int>, d: int, i: nat)
    requires i < |xs| == |vs| && d != 0
    ensures Mixed(xs[..i + 1], vs[..i + 1], d) == Wrap(Mixed(xs[..i], vs[..i], d) + Weighted(xs[i], vs[i], d))
  {
    assert xs[..i + 1][..i] == xs[..i] && vs[..i + 1][..i] == vs[..i];
  }

  // ---------------------------------------------------------------------------
  // When the sums stay in range
  // ---------------------------------------------------------------------------

  /** A weighted sample is no further out than a whole sample with the same weight. */
  lemma TermBounds(x: int, v: int, d: int)
    requires S16(x) && v >= 0 && d > 0
    ensures S16_MIN * v <= d * Term(x, v, d) <= S16_MAX * v
  {
    DivBounds(x * v, d);
    MulMono(S16_MIN, x, v);
    MulMono(x, S16_MAX, v);
    if x >= 0 { MulMono(0, x, v); } else { MulMono(x, 0, v); }
  }

  /** A quotient of something between d times the least and d times the greatest 16-bit integer is one. */
  lemma QuotientFits(t: int, d: int)
    requires d > 0 && S16_MIN * d <= d * t <= S16_MAX * d
    ensures S16(t)
  {
    if t > S16_MAX {
      MulMono(S16_MAX + 1, t, d);
    } else if t < S16_MIN {
      MulMono(t, S16_MIN - 1, d);
    }
  }

  /** Volumes that are not negative, of which these are the first: all sums so far fit. */
  lemma {:induction false} PositiveVolumesFit(xs: seq<int>, vs: seq<int>, d: int)
    requires Samples(xs, |vs|) && d > 0 && Sum(vs) <= d && forall i :: 0 <= i < |vs| ==> vs[i] >= 0
    ensures SumsFit(xs, vs, d) && 0 <= Sum(vs)
    ensures S16_MIN * Sum(vs) <= d * Plain(xs, vs, d) <= S16_MAX * Sum(vs)
  {
    if xs == [] {
    } else {
      var x, v, xs', vs' := xs[|xs| - 1], vs[|xs| - 1], xs[..|xs| - 1], vs[..|xs| - 1];
      SumSign(vs');
      PositiveVolumesFit(xs', vs', d);
      TermBounds(x, v, d);
      QuotientFits(Term(x, v, d), d);
      Distribute(d, Plain(xs', vs', d), Term(x, v, d));
      QuotientFits(Plain(xs, vs, d), d);
    }
  }

  function Negated(vs: seq<int>): seq<int> { seq(|vs|, i requires 0 <= i < |vs| => -vs[i]) }

  lemma DivNegated(a: int, d: int)
    requires d != 0
    ensures Div(-a, -d) == Div(a, d)
  {
    if a == 0 {
      assert Div(0, d) == 0 && Div(0, -d) == 0;
    }
  }

  lemma TermNegated(x: int, v: int, d: int)
    requires d != 0
    ensures Term(x, -v, -d) == Term(x, v, d)
  {
    assert x * -v == -(x * v);
    DivNegated(x * v, d);
  }

  /** Volumes and their sum may all change sign together. */
  lemma {:induction false} NegationIsIdle(xs: seq<int>, vs: seq<int>, d: int)
    requires |xs| == |vs| && d != 0
    ensures Sum(Negated(vs)) == -Sum(vs)
    ensures Plain(xs, Negated(vs), -d) == Plain(xs, vs, d) && (SumsFit(xs, Negated(vs), -d) <==> SumsFit(xs, vs, d))
  {
    if xs == [] {
    } else {
      var n := |xs| - 1;
      assert Negated(vs)[..n] == Negated(vs[..n]);
      NegationIsIdle(xs[..n], vs[..n], d);
      TermNegated(xs[n], vs[n], d);
    }
  }

  lemma OneSignFits(xs: seq<int>, vs: seq<int>, d: int)
    requires Samples(xs, |vs|) && SameSign(vs) && d == Sum(vs) != 0
    ensures SumsFit(xs, vs, d)
  {
    NegationIsIdle(xs, vs, d);
    if forall i :: 0 <= i < |vs| ==> vs[i] >= 0 {
      SumSign(vs);
      PositiveVolumesFit(xs, vs, d);
    } else {
      SumSign(Negated(vs));
      PositiveVolumesFit(xs, Negated(vs), -d);
    }
  }

  /**
   With volumes of one sign, not all zero, and products that fit 32 bits, nothing
   overflows: the mix is the weighted mean, up to less than one unit for each input heard.
   */
  lemma MixIsWeightedMean(xs: seq<int>, vs: seq<int>)
    requires Samples(xs, |vs|) && SameSign(vs) && Sum(vs) != 0 && S32(Sum(vs)) && ProductsFit(xs, vs)
    ensures Fits(xs, vs, Divisor(vs))
    ensures Abs(Sum(vs) * Mixed(xs, vs, Divisor(vs)) - Dot(xs, vs)) <= (Abs(Sum(vs)) - 1) * Heard(xs)
  {
    OneSignFits(xs, vs, Sum(vs));
    FittingIsPlain(xs, vs, Sum(vs));
    RoundingError(xs, vs, Sum(vs));
  }

  lemma {:induction false} DotOfEqual(xs: seq<int>, vs: seq<int>, x: int)
    requires |xs| == |vs| && forall i :: 0 <= i < |xs| ==> xs[i] == x
    ensures Dot(xs, vs) == x * Sum(vs) && Heard(xs) <= |xs|
  {
    if xs != [] {
      var n := |xs| - 1;
      DotOfEqual(xs[..n], vs[..n], x);
      Distribute(x, Sum(vs[..n]), vs[n]);
    }
  }

  lemma FarOff(s: int, m: int, x: int, n: nat)
    requires s != 0 && n > 0 && Abs(m - x) >= n
    ensures Abs(s * m - x * s) > (Abs(s) - 1) * n
  {
    Distribute(s, m, -x);
    assert s * m - x * s == s * (m - x);
    assert Abs(s * (m - x)) == Abs(s) * Abs(m - x);
    MulMono(n, Abs(m - x), Abs(s));
    Distribute(n, Abs(s), -1);
  }

  /** Inputs that agree come through: a sample x at all of n inputs is mixed to less than n units off x. */
  lemma EqualInputsComeThrough(xs: seq<int>, vs: seq<int>, x: int)
    requires Samples(xs, |vs|) && SameSign(vs) && Sum(vs) != 0 && S32(Sum(vs)) && ProductsFit(xs, vs)
    requires xs != [] && forall i :: 0 <= i < |xs| ==> xs[i] == x
    ensures Abs(Mixed(xs, vs, Divisor(vs)) - x) < |xs|
  {
    MixIsWeightedMean(xs, vs);
    DotOfEqual(xs, vs, x);
    MulMono(Heard(xs), |xs|, Abs(Sum(vs)) - 1);
    if Abs(Mixed(xs, vs, Divisor(vs)) - x) >= |xs| { FarOff(Sum(vs), Mixed(xs, vs, Divisor(vs)), x, |xs|); }
  }

  lemma {:induction false} SumSign(vs: seq<int>)
    requires forall i :: 0 <= i < |vs| ==> vs[i] >= 0
    ensures Sum(vs) >= 0
  {
    if vs == [] {
    } else {
      SumSign(vs[..|vs| - 1]);
    }
  }

  /** The loudest samples: each weighted sample is as large as it can be. */
  function Loudest(vs: seq<int>, d: int): seq<int> {
    seq(|vs|, i requires 0 <= i < |vs| => if (vs[i] < 0) == (d < 0) then S16_MAX else -S16_MAX)
  }

  function AbsSum(vs: seq<int>): nat { if vs == [] then 0 else AbsSum(vs[..|vs| - 1]) + Abs(vs[|vs| - 1]) }

  lemma {:induction false} LoudestDot(vs: seq<int>, d: int)
    requires d != 0
    ensures Dot(Loudest(vs, d), vs) == (if d < 0 then -S16_MAX else S16_MAX) * AbsSum(vs)
    ensures Heard(Loudest(vs, d)) == |vs|
  {
    if vs == [] {
    } else {
      var n := |vs| - 1;
      assert Loudest(vs, d)[..n] == Loudest(vs[..n], d);
      LoudestDot(vs[..n], d);
    }
  }

  lemma {:induction false} MixedSignsCancel(vs: seq<int>)
    ensures 0 - AbsSum(vs) <= Sum(vs) <= AbsSum(vs)
    ensures Sum(vs) == AbsSum(vs) ==> forall i :: 0 <= i < |vs| ==> vs[i] >= 0
    ensures Sum(vs) == 0 - AbsSum(vs) ==> forall i :: 0 <= i < |vs| ==> vs[i] <= 0
  {
    if vs == [] {
    } else {
      var n := |vs| - 1;
      MixedSignsCancel(vs[..n]);
      assert forall i :: 0 <= i < n ==> vs[..n][i] == vs[i];
    }
  }

  lemma {:induction false} FitsAtTheEnd(xs: seq<int>, vs: seq<int>, d: int)
    requires |xs| == |vs| && d != 0 && SumsFit(xs, vs, d)
    ensures S16(Plain(xs, vs, d))
  {}

  lemma {:induction false} SumBound(vs: seq<int>)
    requires forall i :: 0 <= i < |vs| ==> -100 <= vs[i] <= 100
    ensures Abs(Sum(vs)) <= 100 * |vs|
  {
    if vs == [] {
    } else {
      SumBound(vs[..|vs| - 1]);
    }
  }

  /** More than d times the greatest sample, less the rounding, is too much. */
  lemma TooLoud(d: int, p: int, s: nat, n: nat)
    requires 1 <= Abs(d) <= 400 && s > Abs(d) && n <= 4
    requires Abs(d * p - (if d < 0 then -S16_MAX else S16_MAX) * s) <= (Abs(d) - 1) * n
    ensures p > S16_MAX
  {
    MulMono(n, 4, Abs(d) - 1);
    var m := Abs(d);
    assert d * p == if d < 0 then -(m * p) else m * p;
    if p <= S16_MAX {
      MulMono(p, S16_MAX, m);
    }
  }

  /** A larger dividend has a quotient at least as large. */
  lemma DivMono(a: int, b: int, d: int)
    requires a <= b && d > 0
    ensures Div(a, d) <= Div(b, d)
  {
    if 0 <= a || b < 0 {
      QuotientMono(Abs(a), Abs(b), d);
      QuotientMono(Abs(b), Abs(a), d);
    } else {
      QuotientMono(0, Abs(a), d);
      QuotientMono(0, Abs(b), d);
    }
  }

  lemma QuotientMono(a: nat, b: nat, m: nat)
    requires m > 0
    ensures a <= b ==> a / m <= b / m
  {
    var p := Quotient(a, m);
    var q := Quotient(b, m);
    if a <= b && p > q {
      MulMono(q + 1, p, m);
    }
  }

  /** The samples for which each term is as large as it can be, and as small. */
  function Highest(vs: seq<int>, d: int): seq<int> {
    seq(|vs|, i requires 0 <= i < |vs| => if (vs[i] < 0) == (d < 0) then S16_MAX else S16_MIN)
  }

  function Lowest(vs: seq<int>, d: int): seq<int> {
    seq(|vs|, i requires 0 <= i < |vs| => if (vs[i] < 0) == (d < 0) then S16_MIN else S16_MAX)
  }

  /** A product lies between those of the extreme samples. */
  lemma ProductBetween(x: int, v: int)
    requires S16(x)
    ensures v >= 0 ==> S16_MIN * v <= x * v <= S16_MAX * v
    ensures v < 0 ==> S16_MAX * v <= x * v <= S16_MIN * v
  {
    if v >= 0 {
      MulMono(S16_MIN, x, v);
      MulMono(x, S16_MAX, v);
    } else {
      MulMono(S16_MIN, x, -v);
      MulMono(x, S16_MAX, -v);
    }
  }

  lemma TermBetween(x: int, v: int, d: int)
    requires S16(x) && d != 0
    ensures var high, low := Highest([v], d)[0], Lowest([v], d)[0];
            Term(low, v, d) <= Term(x, v, d) <= Term(high, v, d)
  {
    ProductBetween(x, v);
    var least, most := if v < 0 then S16_MAX * v else S16_MIN * v, if v < 0 then S16_MIN * v else S16_MAX * v;
    if d > 0 {
      DivMono(least, x * v, d);
      DivMono(x * v, most, d);
    } else {
      DivMono(-most, -(x * v), -d);
      DivMono(-(x * v), -least, -d);
      DivNegated(least, d);
      DivNegated(x * v, d);
      DivNegated(most, d);
    }
  }

  lemma ExtremesOfFront(vs: seq<int>, d: int, n: nat)
    requires n <= |vs| && d != 0
    ensures Highest(vs, d)[..n] == Highest(vs[..n], d) && Lowest(vs, d)[..n] == Lowest(vs[..n], d)
  {}

  /** Between two inputs whose sums fit, term by term, the sums fit. */
  lemma {:induction false} Squeezed(xs: seq<int>, vs: seq<int>, d: int)
    requires Samples(xs, |vs|) && d != 0 && SumsFit(Highest(vs, d), vs, d) && SumsFit(Lowest(vs, d), vs, d)
    ensures SumsFit(xs, vs, d)
    ensures Plain(Lowest(vs, d), vs, d) <= Plain(xs, vs, d) <= Plain(Highest(vs, d), vs, d)
  {
    if xs == [] {
    } else {
      var n := |xs| - 1;
      ExtremesOfFront(vs, d, n);
      Squeezed(xs[..n], vs[..n], d);
      TermBetween(xs[n], vs[n], d);
    }
  }

  lemma ExtremeProducts(xs: seq<int>, vs: seq<int>, d: int)
    requires Samples(xs, |vs|) && ProductsFit(Highest(vs, d), vs) && ProductsFit(Lowest(vs, d), vs)
    ensures ProductsFit(xs, vs)
  {
    forall i | 0 <= i < |xs| ensures S32(xs[i] * vs[i]) {
      ProductBetween(xs[i], vs[i]);
      assert S32(Highest(vs, d)[i] * vs[i]) && S32(Lowest(vs, d)[i] * vs[i]);
    }
  }

  /**
   Exactly which volumes no samples can overflow, whatever SetConfig accepts, and
   whatever the denominator: those that two extreme inputs do not.
   */
  lemma NeverOverflowsExactly(vs: seq<int>, d: int)
    requires d != 0
    ensures (forall xs :: Samples(xs, |vs|) ==> Fits(xs, vs, d)) <==> Fits(Highest(vs, d), vs, d) && Fits(Lowest(vs, d), vs, d)
  {
    assert Samples(Highest(vs, d), |vs|) && Samples(Lowest(vs, d), |vs|);
    if Fits(Highest(vs, d), vs, d) && Fits(Lowest(vs, d), vs, d) {
      forall xs | Samples(xs, |vs|) ensures Fits(xs, vs, d) {
        Squeezed(xs, vs, d);
        ExtremeProducts(xs, vs, d);
      }
    }
  }

  /** The mixer has four inputs: with volumes from -100 to 100 nothing can overflow exactly if they all have the same sign. */
  lemma SignsDecideWithinHundred(vs: seq<int>)
    requires |vs| <= 4 && Sum(vs) != 0 && forall i :: 0 <= i < |vs| ==> -100 <= vs[i] <= 100
    ensures Divisor(vs) == Sum(vs)
    ensures SameSign(vs) <==> forall xs :: Samples(xs, |vs|) ==> Fits(xs, vs, Divisor(vs))
  {
    var d := Sum(vs);
    SumBound(vs);
    if SameSign(vs) {
      forall xs | Samples(xs, |vs|) ensures Fits(xs, vs, d) {
        OneSignFits(xs, vs, d);
        SmallProducts(xs, vs);
      }
    } else {
      var xs := Loudest(vs, d);
      LoudestDot(vs, d);
      MixedSignsCancel(vs);
      RoundingError(xs, vs, d);
      TooLoud(d, Plain(xs, vs, d), AbsSum(vs), |vs|);
      if SumsFit(xs, vs, d) {
        FitsAtTheEnd(xs, vs, d);
      }
      assert Samples(xs, |vs|);
    }
  }

  lemma SmallProducts(xs: seq<int>, vs: seq<int>)
    requires Samples(xs, |vs|) && forall i :: 0 <= i < |vs| ==> -100 <= vs[i] <= 100
    ensures ProductsFit(xs, vs)
  {
    forall i | 0 <= i < |xs| ensures S32(xs[i] * vs[i]) { ProductBetween(xs[i], vs[i]); }
  }

  lemma {:induction false} TwoInputs(x: int, y: int, v: int, w: int, d: int)
    requires d != 0 && S32(x * v) && S32(y * w)
    requires S16(Term(x, v, d)) && S16(Term(y, w, d)) && S16(Term(x, v, d) + Term(y, w, d))
    ensures Fits([x, y], [v, w], d)
  {
    assert [x, y][..1] == [x] && [v, w][..1] == [v] && [x][..0] == [] && [v][..0] == [];
    assert Plain([x], [v], d) == Plain([], [], d) + Term(x, v, d);
    assert SumsFit([x], [v], d);
  }

  /** Below -100, which SetConfig accepts, signs do not decide: these volumes differ in sign and never overflow. */
  lemma SignsDoNotDecideBelow()
    ensures !SameSign([-65535, 1]) && Divisor([-65535, 1]) == -65534
    ensures forall xs :: Samples(xs, 2) ==> Fits(xs, [-65535, 1], -65534)
  {
    var vs, d := [-65535, 1], -65534;
    assert vs[..1] == [-65535] && [-65535][..0] == [];
    assert Sum([-65535]) == -65535 && Sum(vs) == -65534;
    assert vs[0] < 0 < vs[1];
    assert Highest(vs, d) == [S16_MAX, S16_MIN] && Lowest(vs, d) == [S16_MIN, S16_MAX];
    assert Term(S16_MAX, -65535, d) == 32767 && Term(S16_MIN, 1, d) == 0;
    TwoInputs(S16_MAX, S16_MIN, -65535, 1, d);
    assert Term(S16_MIN, -65535, d) == -32768 && Term(S16_MAX, 1, d) == 0;
    TwoInputs(S16_MIN, S16_MAX, -65535, 1, d);
    NeverOverflowsExactly(vs, d);
  }
}
