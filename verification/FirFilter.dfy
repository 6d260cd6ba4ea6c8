// The 3.4 kHz low-pass filter used when 16 kHz audio is downsampled: a circular
// history of 17 samples. Samples and coefficients are modelled as reals.

module FirFilter {

  const FILTER_LENGTH := 17

  const COEFFICIENTS: seq<real> :=
    [-0.002102, 0.000519, 0.014189, 0.010317, -0.037919, -0.060378, 0.063665, 0.299972, 0.425000,
     0.299972, 0.063665, -0.060378, -0.037919, 0.010317, 0.014189, 0.000519, -0.002102]

  type i16 = x: int | -0x8000 <= x < 0x8000

  /** Input number i since the last reset; silence before that. */
  function Sample(xs: seq<i16>, i: int): real {
    if 0 <= i < |xs| then xs[i] as real else 0.0
  }

  function Sum(s: seq<real>, k: nat): real
    requires k <= |s|
  {
    if k == 0 then 0.0 else Sum(s, k - 1) + s[k - 1]
  }

  /** The terms of the direct convolution with coefficients cs, ending at the latest input. */
  function Terms(cs: seq<real>, xs: seq<i16>): (t: seq<real>)
    ensures |t| == |cs|
  {
    seq(|cs|, i requires 0 <= i < |cs| => cs[i] * Sample(xs, |xs| - |cs| + i))
  }

  function Convolve(cs: seq<real>, xs: seq<i16>, k: nat): real
    requires k <= |cs|
  {
    Sum(Terms(cs, xs), k)
  }

  /** The output for the latest input: the full convolution. */
  function Filtered(xs: seq<i16>): real {
    Convolve(COEFFICIENTS, xs, FILTER_LENGTH)
  }

  /** The circular history holds the last 17 inputs, the oldest at the round index. */
  ghost predicate Remembers(history: seq<real>, round: nat, xs: seq<i16>) {
    && |history| == FILTER_LENGTH
    && round == |xs| % FILTER_LENGTH
    && forall k :: 0 <= k < FILTER_LENGTH ==>
         history[k] == Sample(xs, |xs| - FILTER_LENGTH + Age(round, k))
  }

  /** How many places after the oldest sample slot k is. */
  function Age(round: nat, k: nat): int {
    if k >= round then k - round else k - round + FILTER_LENGTH
  }

  /** One pass of either loop: slot j holds the sample that coefficient i meets. */
  lemma NextTerm(cs: seq<real>, history: seq<real>, next: nat, xs: seq<i16>, i: nat, j: nat)
    requires |cs| == FILTER_LENGTH && Remembers(history, next, xs)
    requires i < FILTER_LENGTH && j < FILTER_LENGTH && Age(next, j) == i
    ensures Convolve(cs, xs, i + 1) == Convolve(cs, xs, i) + cs[i] * history[j]
  {
    assert history[j] == Sample(xs, |xs| - FILTER_LENGTH + i);
  }

  class LowPass {
    const history: array<real>
    var round: nat
    ghost var inputs: seq<i16>

    ghost predicate Valid()
      reads this, history
    {
      Remembers(history[..], round, inputs)
    }

    constructor ()
      ensures Valid() && fresh(history) && inputs == []
    {
      history := new real[FILTER_LENGTH](_ => 0.0);
      round := 0;
      inputs := [];
    }

    method Reset()
      requires history.Length == FILTER_LENGTH
      modifies this, history
      ensures Valid() && inputs == []
    {
      forall k | 0 <= k < FILTER_LENGTH {
        history[k] := 0.0;
      }
      round := 0;
      inputs := [];
    }

    /** The value before the final cast to int16_t. */
    method Execute(val: i16) returns (runtot: real)
      requires Valid()
      modifies this, history
      ensures Valid() && inputs == old(inputs) + [val]
      ensures runtot == Filtered(inputs)
    {
      var j := round;
      ghost var was := history[..];
      history[j] := val as real;
      ghost var xs, next := inputs + [val], (round + 1) % FILTER_LENGTH;
      assert history[..] == was[round := val as real];
      Remember(was, round, inputs, val);
      runtot := Accumulate(COEFFICIENTS, next, xs);
      round := (round + 1) % FILTER_LENGTH;
      inputs := xs;
    }

    /** The two loops: from the slot after the newest sample to the end of the
        history, then from its start. */
    method Accumulate(coeffs: seq<real>, ghost next: nat, ghost xs: seq<i16>) returns (runtot: real)
      requires |coeffs| == FILTER_LENGTH
      requires Remembers(history[..], next, xs) && round < FILTER_LENGTH
      requires next == (round + 1) % FILTER_LENGTH
      ensures runtot == Convolve(coeffs, xs, FILTER_LENGTH)
    {
      runtot := 0.0;
      var i := 0;
      var j := (round + 1) % FILTER_LENGTH;
      while j < FILTER_LENGTH
        invariant next <= j <= FILTER_LENGTH && i == j - next
        invariant runtot == Convolve(coeffs, xs, i)
      {
        NextTerm(coeffs, history[..], next, xs, i, j);
        runtot := runtot + coeffs[i] * history[j];
        i := i + 1;
        j := j + 1;
      }
      j := 0;
      while i < FILTER_LENGTH
        invariant 0 <= i <= FILTER_LENGTH && j == i - (FILTER_LENGTH - next) && 0 <= j <= next
        invariant runtot == Convolve(coeffs, xs, i)
      {
        NextTerm(coeffs, history[..], next, xs, i, j);
        runtot := runtot + coeffs[i] * history[j];
        i := i + 1;
        j := j + 1;
      }
    }
  }

  /** Overwriting the oldest slot shifts the window by one input. */
  lemma Remember(history: seq<real>, round: nat, xs: seq<i16>, val: i16)
    requires Remembers(history, round, xs)
    ensures Remembers(history[round := val as real], (round + 1) % FILTER_LENGTH, xs + [val])
  {
    var next := (round + 1) % FILTER_LENGTH;
    var ys := xs + [val];
    forall k | 0 <= k < FILTER_LENGTH
      ensures history[round := val as real][k] == Sample(ys, |ys| - FILTER_LENGTH + Age(next, k))
    {
      if k == round {
        assert Age(next, k) == FILTER_LENGTH - 1;
      } else {
        assert Age(next, k) == Age(round, k) - 1;
      }
    }
  }

  function Magnitude(r: real): real { if r < 0.0 then -r else r }

  function Magnitudes(cs: seq<real>): (t: seq<real>)
    ensures |t| == |cs|
  {
    seq(|cs|, i requires 0 <= i < |cs| => Magnitude(cs[i]))
  }

  const GAIN := 1.403122

  lemma SumOfFour(s: seq<real>, k: nat)
    requires k + 4 <= |s|
    ensures Sum(s, k + 4) == Sum(s, k) + s[k] + s[k + 1] + s[k + 2] + s[k + 3]
  {
    assert Sum(s, k + 2) == Sum(s, k) + s[k] + s[k + 1];
  }

  lemma GainIsTheSum()
    ensures Sum(Magnitudes(COEFFICIENTS), FILTER_LENGTH) == GAIN
  {
    var ms := Magnitudes(COEFFICIENTS);
    SumOfFour(ms, 0);
    SumOfFour(ms, 4);
    SumOfFour(ms, 8);
    SumOfFour(ms, 12);
  }

  lemma MagnitudeOfProduct(c: real, x: real, m: real)
    requires -m <= x <= m
    ensures -(Magnitude(c) * m) <= c * x <= Magnitude(c) * m
  {
    if c >= 0.0 {
      assert c * (m - x) >= 0.0 && c * (x + m) >= 0.0;
    } else {
      assert -c * (m - x) >= 0.0 && -c * (x + m) >= 0.0;
    }
  }

  /** Triangle inequality. */
  lemma {:induction false} SumBounded(terms: seq<real>, bounds: seq<real>, k: nat)
    requires k <= |terms| == |bounds|
    requires forall i :: 0 <= i < |terms| ==> -bounds[i] <= terms[i] <= bounds[i]
    ensures -Sum(bounds, k) <= Sum(terms, k) <= Sum(bounds, k)
  {
    if k > 0 {
      SumBounded(terms, bounds, k - 1);
    }
  }

  function Scaled(s: seq<real>, m: real): (t: seq<real>)
    ensures |t| == |s|
  {
    seq(|s|, i requires 0 <= i < |s| => s[i] * m)
  }

  lemma Distribute(t: real, g: real, u: real, m: real)
    requires u == t + g
    ensures u * m == t * m + g * m
  {
  }

  lemma {:induction false} SumScaled(s: seq<real>, m: real, k: nat)
    requires k <= |s|
    ensures Sum(Scaled(s, m), k) == Sum(s, k) * m
  {
    if k > 0 {
      SumScaled(s, m, k - 1);
      Distribute(Sum(s, k - 1), s[k - 1], Sum(s, k), m);
    }
  }

  lemma TermAt(cs: seq<real>, xs: seq<i16>, i: nat, c: real, x: real)
    requires i < |cs| && c == cs[i] && x == Sample(xs, |xs| - |cs| + i)
    ensures Terms(cs, xs)[i] == c * x
  {
  }

  lemma BoundAt(cs: seq<real>, m: real, i: nat, g: real)
    requires i < |cs| && g == Magnitude(cs[i])
    ensures Scaled(Magnitudes(cs), m)[i] == g * m
  {
  }

  lemma TermBounded(cs: seq<real>, xs: seq<i16>, m: real, i: nat)
    requires 0.0 <= m && i < |cs|
    requires forall i :: 0 <= i < |xs| ==> -m <= xs[i] as real <= m
    ensures -Scaled(Magnitudes(cs), m)[i] <= Terms(cs, xs)[i] <= Scaled(Magnitudes(cs), m)[i]
  {
    var c, x := cs[i], Sample(xs, |xs| - |cs| + i);
    TermAt(cs, xs, i, c, x);
    BoundAt(cs, m, i, Magnitude(c));
    MagnitudeOfProduct(c, x, m);
  }

  lemma BoundedByGain(cs: seq<real>, xs: seq<i16>, m: real)
    requires 0.0 <= m
    requires forall i :: 0 <= i < |xs| ==> -m <= xs[i] as real <= m
    ensures -Sum(Scaled(Magnitudes(cs), m), |cs|) <= Convolve(cs, xs, |cs|) <= Sum(Scaled(Magnitudes(cs), m), |cs|)
  {
    var terms, bounds := Terms(cs, xs), Scaled(Magnitudes(cs), m);
    forall i | 0 <= i < |cs|
      ensures -bounds[i] <= terms[i] <= bounds[i]
    {
      TermBounded(cs, xs, m, i);
    }
    SumBounded(terms, bounds, |cs|);
  }

  /** Truncation towards zero lands in int16_t. */
  predicate FitsInt16(r: real) { -32769.0 < r < 32768.0 }

  predicate WithinMagnitude(xs: seq<i16>, m: int) {
    forall i :: 0 <= i < |xs| ==> -m <= xs[i] <= m
  }

  const SAFE_MAGNITUDE := 23353

  lemma SafeMagnitudeFits(xs: seq<i16>)
    requires WithinMagnitude(xs, SAFE_MAGNITUDE)
    ensures FitsInt16(Filtered(xs))
  {
    GainIsTheSum();
    forall i | 0 <= i < |xs|
      ensures -(SAFE_MAGNITUDE as real) <= xs[i] as real <= SAFE_MAGNITUDE as real
    {
    }
    BoundedByGain(COEFFICIENTS, xs, SAFE_MAGNITUDE as real);
    SumScaled(Magnitudes(COEFFICIENTS), SAFE_MAGNITUDE as real, FILTER_LENGTH);
  }

  /** The input that lines up with the coefficients' signs. */
  function WorstInput(cs: seq<real>, m: int): (xs: seq<i16>)
    requires 0 <= m < 0x8000
    ensures |xs| == |cs| && WithinMagnitude(xs, m)
  {
    seq(|cs|, i requires 0 <= i < |cs| => if cs[i] < 0.0 then -m else m)
  }

  lemma WorstTerm(cs: seq<real>, m: int, i: nat)
    requires 0 <= m < 0x8000 && i < |cs|
    ensures Terms(cs, WorstInput(cs, m))[i] == Scaled(Magnitudes(cs), m as real)[i]
  {
    var c, x := cs[i], Sample(WorstInput(cs, m), i);
    TermAt(cs, WorstInput(cs, m), i, c, x);
    BoundAt(cs, m as real, i, Magnitude(c));
    AlignedProduct(c, x, m as real);
  }

  lemma AlignedProduct(c: real, x: real, m: real)
    requires x == if c < 0.0 then -m else m
    ensures c * x == Magnitude(c) * m
  {
  }

  lemma WorstInputReachesGain(cs: seq<real>, m: int)
    requires 0 <= m < 0x8000
    ensures Convolve(cs, WorstInput(cs, m), |cs|) == Sum(Scaled(Magnitudes(cs), m as real), |cs|)
  {
    var terms, bounds := Terms(cs, WorstInput(cs, m)), Scaled(Magnitudes(cs), m as real);
    forall i | 0 <= i < |cs|
      ensures terms[i] == bounds[i]
    {
      WorstTerm(cs, m, i);
    }
    assert terms == bounds;
  }

  /** The filter never overflows int16_t for inputs of magnitude at most m exactly
      when m is at most 23353. */
  lemma OverflowFreeIff(m: nat)
    requires m < 0x8000
    ensures (forall xs :: WithinMagnitude(xs, m) ==> FitsInt16(Filtered(xs))) <==> m <= SAFE_MAGNITUDE
  {
    if m <= SAFE_MAGNITUDE {
      forall xs: seq<i16> | WithinMagnitude(xs, m)
        ensures FitsInt16(Filtered(xs))
      {
        SafeMagnitudeFits(xs);
      }
    } else {
      GainIsTheSum();
      WorstInputReachesGain(COEFFICIENTS, m);
      SumScaled(Magnitudes(COEFFICIENTS), m as real, FILTER_LENGTH);
      assert WithinMagnitude(WorstInput(COEFFICIENTS, m), m);
      assert GAIN * (m as real) >= GAIN * 23354.0;
    }
  }
}
