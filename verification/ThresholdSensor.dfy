/**
 A binary sensor that switches on one or two limits of a number, with hysteresis.
 Samples are the readings that could be taken as a number.
 */
module ThresholdSensor {
  import opened Option

  datatype Limits = Limits(upper: Option<real>, lower: Option<real>, hysteresis: real)

  function Evaluate(d: Limits, last: bool, v: real): bool {
    if d.upper.Some? && d.lower.Some? then d.lower.value <= v <= d.upper.value
    else if d.upper.Some? then
      if last then v >= d.upper.value - d.hysteresis else v > d.upper.value + d.hysteresis
    else if d.lower.Some? then
      if last then v <= d.lower.value + d.hysteresis else v < d.lower.value - d.hysteresis
    else false
  }

  /** The output after all of `samples`; off before the first. */
  function Output(d: Limits, samples: seq<real>): bool {
    samples != [] && Evaluate(d, Output(d, samples[..|samples| - 1]), samples[|samples| - 1])
  }

  class Threshold {
    const def: Limits
    var lastResult: Option<bool>
    var value: bool
    ghost var samples: seq<real>

    ghost predicate Valid()
      reads this
    {
      value == Output(def, samples) && lastResult == if samples == [] then None else Some(value)
    }

    constructor (def: Limits)
      ensures Valid() && this.def == def && samples == []
    {
      this.def := def;
      lastResult, value, samples := None, false, [];
    }

    method OnSample(v: real)
      requires Valid()
      modifies this
      ensures Valid() && samples == old(samples) + [v]
    {
      var result;
      if def.upper.Some? && def.lower.Some? {
        result := def.lower.value <= v && v <= def.upper.value;
      } else if def.upper.Some? {
        if lastResult == Some(true) {
          result := v >= def.upper.value - def.hysteresis;
        } else {
          result := v > def.upper.value + def.hysteresis;
        }
      } else if def.lower.Some? {
        if lastResult == Some(true) {
          result := v <= def.lower.value + def.hysteresis;
        } else {
          result := v < def.lower.value - def.hysteresis;
        }
      } else {
        result := false;
      }
      samples := samples + [v];
      assert samples[..|samples| - 1] == old(samples);
      lastResult := Some(result);
      value := result;
    }
  }

  function Upper(limit: real, hysteresis: real): Limits {
    Limits(Some(limit), None, hysteresis)
  }

  function Lower(limit: real, hysteresis: real): Limits {
    Limits(None, Some(limit), hysteresis)
  }

  /** Sample `i` is above the band around the limit, and no later one is below it. */
  ghost predicate RoseAt(samples: seq<real>, i: nat, limit: real, h: real) {
    && i < |samples|
    && samples[i] > limit + h
    && forall k :: i < k < |samples| ==> samples[k] >= limit - h
  }

  /** Sample `i` is below the band around the limit, and no later one is above it. */
  ghost predicate FellAt(samples: seq<real>, i: nat, limit: real, h: real) {
    && i < |samples|
    && samples[i] < limit - h
    && forall k :: i < k < |samples| ==> samples[k] <= limit + h
  }

  /** On exactly when some sample rose above the band and none has fallen below it since. */
  lemma {:induction false} UpperMeaning(limit: real, h: real, samples: seq<real>)
    requires h >= 0.0
    ensures Output(Upper(limit, h), samples) <==> exists i: nat :: RoseAt(samples, i, limit, h)
  {
    if samples != [] {
      var before, n := samples[..|samples| - 1], |samples| - 1;
      UpperMeaning(limit, h, before);
      forall i: nat | i < n
        ensures RoseAt(samples, i, limit, h) <==> RoseAt(before, i, limit, h) && samples[n] >= limit - h
      {
        assert forall k :: 0 <= k < n ==> samples[k] == before[k];
      }
      assert RoseAt(samples, n, limit, h) <==> samples[n] > limit + h;
    }
  }

  /** A negative hysteresis breaks this: the limit itself, read twice, switches the sensor off again. */
  lemma NegativeHysteresis(limit: real, h: real)
    requires h < 0.0
    ensures !Output(Upper(limit, h), [limit, limit]) && exists i: nat :: RoseAt([limit, limit], i, limit, h)
  {
    assert RoseAt([limit, limit], 1, limit, h);
    var d := Upper(limit, h);
    assert [limit][..0] == [];
    assert Output(d, [limit]) == Evaluate(d, false, limit) == true;
    assert [limit, limit][..1] == [limit];
    assert Output(d, [limit, limit]) == Evaluate(d, true, limit) == false;
  }

  ghost predicate MeansRise(limit: real, h: real, samples: seq<real>) {
    Output(Upper(limit, h), samples) <==> exists i: nat :: RoseAt(samples, i, limit, h)
  }

  /** The output has that meaning for all inputs exactly when the hysteresis is not negative. */
  lemma UpperMeaningIff(limit: real, h: real)
    ensures (forall samples :: MeansRise(limit, h, samples)) <==> h >= 0.0
  {
    if h >= 0.0 {
      forall samples ensures MeansRise(limit, h, samples) {
        UpperMeaning(limit, h, samples);
      }
    } else {
      NegativeHysteresis(limit, h);
      assert !MeansRise(limit, h, [limit, limit]);
    }
  }

  function Negated(samples: seq<real>): seq<real> {
    seq(|samples|, i requires 0 <= i < |samples| => -samples[i])
  }

  /** A lower limit is an upper limit seen in a mirror. */
  lemma {:induction false} LowerMirrors(limit: real, h: real, samples: seq<real>)
    ensures Output(Lower(limit, h), samples) == Output(Upper(-limit, h), Negated(samples))
  {
    if samples != [] {
      LowerMirrors(limit, h, samples[..|samples| - 1]);
      assert Negated(samples)[..|samples| - 1] == Negated(samples[..|samples| - 1]);
    }
  }

  /** On exactly when some sample fell below the band and none has risen above it since. */
  lemma LowerMeaning(limit: real, h: real, samples: seq<real>)
    requires h >= 0.0
    ensures Output(Lower(limit, h), samples) <==> exists i: nat :: FellAt(samples, i, limit, h)
  {
    var mirrored := Negated(samples);
    LowerMirrors(limit, h, samples);
    UpperMeaning(-limit, h, mirrored);
    assert forall k :: 0 <= k < |samples| ==> mirrored[k] == -samples[k];
    if i: nat :| FellAt(samples, i, limit, h) {
      assert RoseAt(mirrored, i, -limit, h);
    }
    var opposite := -limit;
    if i: nat :| RoseAt(mirrored, i, opposite, h) {
      forall k | i < k < |samples| ensures samples[k] <= limit + h {
        assert mirrored[k] >= -limit - h;
      }
      assert FellAt(samples, i, limit, h);
    }
  }

  ghost predicate MeansFall(limit: real, h: real, samples: seq<real>) {
    Output(Lower(limit, h), samples) <==> exists i: nat :: FellAt(samples, i, limit, h)
  }

  /** The same for a lower limit. */
  lemma LowerMeaningIff(limit: real, h: real)
    ensures (forall samples :: MeansFall(limit, h, samples)) <==> h >= 0.0
  {
    if h >= 0.0 {
      forall samples ensures MeansFall(limit, h, samples) {
        LowerMeaning(limit, h, samples);
      }
    } else {
      var twice := [limit, limit];
      LowerMirrors(limit, h, twice);
      NegativeHysteresis(-limit, h);
      assert Negated(twice) == [-limit, -limit];
      assert FellAt(twice, 1, limit, h);
      assert !MeansFall(limit, h, twice);
    }
  }

  // ---------------------------------------------------------------------------
  // How often the output changes
  // ---------------------------------------------------------------------------

  function Abs(x: real): real {
    if x < 0.0 then -x else x
  }

  /** How far the input has moved in all. */
  function Variation(samples: seq<real>): real {
    var n := |samples|;
    if n < 2 then 0.0 else Variation(samples[..n - 1]) + Abs(samples[n - 1] - samples[n - 2])
  }

  function Flips(d: Limits, samples: seq<real>): nat {
    if samples == [] then 0
    else
      var before := samples[..|samples| - 1];
      Flips(d, before) + if Output(d, samples) != Output(d, before) then 1 else 0
  }

  /** The width of the band, once for every flip but the first. */
  function Due(flips: nat, h: real): real {
    (flips - 1) as real * (2.0 * h)
  }

  lemma DueNext(flips: nat, h: real)
    ensures Due(1, h) == 0.0 && Due(flips + 1, h) == Due(flips, h) + 2.0 * h
    ensures h >= 0.0 ==> Due(0, h) <= 0.0
  {
    assert (flips + 1 - 1) as real == (flips - 1) as real + 1.0;
  }

  /** The input has moved far enough for the flips so far, and beyond `turn`, where the last one happened. */
  ghost predicate PaidFor(limit: real, h: real, samples: seq<real>, turn: real) {
    var d, n := Upper(limit, h), |samples|;
    && n > 0
    && (if Output(d, samples) then turn > limit + h else turn < limit - h)
    && Due(Flips(d, samples), h) + Abs(samples[n - 1] - turn) <= Variation(samples)
  }

  lemma {:induction false} FlipsArePaidFor(limit: real, h: real, samples: seq<real>) returns (turn: real)
    requires h >= 0.0
    ensures var d := Upper(limit, h);
            if Flips(d, samples) > 0 then PaidFor(limit, h, samples, turn) else !Output(d, samples)
  {
    hide Due;
    var d, n := Upper(limit, h), |samples|;
    turn := 0.0;
    if n > 0 {
      var before, v := samples[..n - 1], samples[n - 1];
      turn := FlipsArePaidFor(limit, h, before);
      DueNext(Flips(d, before), h);
      if Flips(d, before) == 0 {
        turn := v;
        StillPositive(samples);
      } else {
        assert before[n - 2] == samples[n - 2];
        if Output(d, samples) != Output(d, before) {
          turn := v;
        }
      }
    }
  }

  lemma {:induction false} StillPositive(samples: seq<real>)
    ensures Variation(samples) >= 0.0
  {
    if |samples| >= 2 {
      StillPositive(samples[..|samples| - 1]);
    }
  }

  /** Every change of the output but the first costs the input a movement across the whole band. */
  lemma UpperFlips(limit: real, h: real, samples: seq<real>)
    requires h >= 0.0
    ensures Due(Flips(Upper(limit, h), samples), h) <= Variation(samples)
  {
    hide Due;
    var turn := FlipsArePaidFor(limit, h, samples);
    DueNext(0, h);
    StillPositive(samples);
  }

  lemma {:induction false} MirrorFlips(limit: real, h: real, samples: seq<real>)
    ensures Flips(Lower(limit, h), samples) == Flips(Upper(-limit, h), Negated(samples))
    ensures Variation(Negated(samples)) == Variation(samples)
  {
    if samples != [] {
      var n := |samples|;
      MirrorFlips(limit, h, samples[..n - 1]);
      LowerMirrors(limit, h, samples);
      LowerMirrors(limit, h, samples[..n - 1]);
      assert Negated(samples)[..n - 1] == Negated(samples[..n - 1]);
    }
  }

  lemma LowerFlips(limit: real, h: real, samples: seq<real>)
    requires h >= 0.0
    ensures Due(Flips(Lower(limit, h), samples), h) <= Variation(samples)
  {
    hide Due;
    MirrorFlips(limit, h, samples);
    UpperFlips(-limit, h, Negated(samples));
  }

  /** With both limits the sensor is on exactly while the last reading lies between them, whatever came before. */
  lemma BothLimitsMeaning(d: Limits, samples: seq<real>)
    requires d.upper.Some? && d.lower.Some? && samples != []
    ensures Output(d, samples) <==>
              !(samples[|samples| - 1] < d.lower.value) && !(samples[|samples| - 1] > d.upper.value)
  {
  }

  /** Without limits it is never on. */
  lemma NoLimitsMeaning(d: Limits, samples: seq<real>)
    requires d.upper.None? && d.lower.None?
    ensures !Output(d, samples)
  {
  }
}
