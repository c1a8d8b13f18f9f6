/**
 A sensor that adds up the area under a reading over time, rounding its total at
 every step. Numbers are reals; times are milliseconds.
 */
module IntegralSensor {
  import opened Option
  import opened JsMath

  datatype Rule = Left | Trapezoidal | Right

  datatype Sample = Sample(t: int, v: real)

  function Power10(n: nat): (p: real)
    ensures p >= 1.0
  {
    if n == 0 then 1.0 else 10.0 * Power10(n - 1)
  }

  function Scaled(x: real, precision: nat): real {
    x * Power10(precision)
  }

  function Unscaled(x: int, precision: nat): real {
    x as real / Power10(precision)
  }

  function Rounded(x: real, precision: nat): real {
    Unscaled(RoundHalfUp(Scaled(x, precision)), precision)
  }

  /** The area between two samples; `unit` is the length of the time unit. */
  function Area(rule: Rule, unit: real, a: Sample, b: Sample): real
    requires unit > 0.0
  {
    var dt := (b.t - a.t) as real / unit;
    match rule
    case Left => a.v * dt
    case Right => b.v * dt
    case Trapezoidal => ((a.v + b.v) / 2.0) * dt
  }

  function Exact(rule: Rule, unit: real, samples: seq<Sample>): real
    requires unit > 0.0
  {
    var n := |samples|;
    if n < 2 then 0.0
    else Exact(rule, unit, samples[..n - 1]) + Area(rule, unit, samples[n - 2], samples[n - 1])
  }

  function Stored(rule: Rule, unit: real, precision: nat, samples: seq<Sample>): real
    requires unit > 0.0
  {
    var n := |samples|;
    if n < 2 then 0.0
    else
      Rounded(Stored(rule, unit, precision, samples[..n - 1]) + Area(rule, unit, samples[n - 2], samples[n - 1]),
              precision)
  }

  class Integral {
    const rule: Rule
    const unit: real
    const precision: nat
    var lastSample: Option<Sample>
    var value: real
    ghost var samples: seq<Sample>

    ghost predicate Valid()
      reads this
    {
      && unit > 0.0
      && value == Stored(rule, unit, precision, samples)
      && lastSample == if samples == [] then None else Some(samples[|samples| - 1])
    }

    constructor (rule: Rule, unit: real, precision: nat)
      requires unit > 0.0
      ensures Valid() && this.rule == rule && this.unit == unit && this.precision == precision && samples == []
    {
      this.rule, this.unit, this.precision := rule, unit, precision;
      lastSample, value, samples := None, 0.0, [];
    }

    method OnSample(now: int, v: real)
      requires Valid()
      modifies this
      ensures Valid() && samples == old(samples) + [Sample(now, v)]
    {
      if lastSample.Some? {
        var last := lastSample.value;
        var dt := (now - last.t) as real / unit;
        var area;
        match rule {
          case Left => area := last.v * dt;
          case Right => area := v * dt;
          case Trapezoidal => area := ((last.v + v) / 2.0) * dt;
        }
        assert area == Area(rule, unit, last, Sample(now, v));
        value := Rounded(value + area, precision);
      }
      lastSample := Some(Sample(now, v));
      samples := samples + [Sample(now, v)];
      assert samples[..|samples| - 1] == old(samples);
    }
  }

  // ---------------------------------------------------------------------------
  // Drift
  // ---------------------------------------------------------------------------

  /** The most one rounding can be off. */
  function HalfStep(precision: nat): real {
    0.5 / Power10(precision)
  }

  lemma ScaledUp(a: real, p: real)
    requires p > 0.0
    ensures a / p * p == a
  {
  }

  lemma Distribute(a: real, b: real, p: real)
    ensures (a - b) * p == a * p - b * p
  {
  }

  lemma ScaledDown(a: real, b: real, p: real)
    requires p > 0.0 && a * p <= b
    ensures a <= b / p
  {
    ScaledUp(b, p);
    Distribute(a, b / p, p);
    assert (a - b / p) * p <= 0.0;
  }

  lemma RoundedIsNear(x: real, precision: nat)
    ensures -HalfStep(precision) <= Rounded(x, precision) - x <= HalfStep(precision)
  {
    hide Power10;
    var p := Power10(precision);
    var r, scaled := Rounded(x, precision), RoundHalfUp(x * p) as real;
    ScaledUp(scaled, p);
    Distribute(r, x, p);
    ScaledDown(r - x, 0.5, p);
    Distribute(x, r, p);
    ScaledDown(x - r, 0.5, p);
  }

  /** After `n` additions the stored total is off by at most `n` half steps. */
  lemma {:induction false} Drift(rule: Rule, unit: real, precision: nat, samples: seq<Sample>)
    requires unit > 0.0
    ensures var n := if |samples| < 2 then 0 else |samples| - 1;
            var bound := n as real * HalfStep(precision);
            -bound <= Stored(rule, unit, precision, samples) - Exact(rule, unit, samples) <= bound
  {
    hide Rounded, HalfStep, Area;
    var n := |samples|;
    if n >= 2 {
      var before := samples[..n - 1];
      Drift(rule, unit, precision, before);
      RoundedIsNear(Stored(rule, unit, precision, before) + Area(rule, unit, samples[n - 2], samples[n - 1]), precision);
      assert (n - 1) as real * HalfStep(precision) == (n - 2) as real * HalfStep(precision) + HalfStep(precision);
    }
  }

  // ---------------------------------------------------------------------------
  // The three rules
  // ---------------------------------------------------------------------------

  /** Neither the readings nor the clock go down. */
  ghost predicate Rising(samples: seq<Sample>) {
    forall i :: 0 < i < |samples| ==> samples[i - 1].t <= samples[i].t && samples[i - 1].v <= samples[i].v
  }

  lemma FloorKeepsOrder(x: real, y: real)
    requires x <= y
    ensures x.Floor <= y.Floor
  {
  }

  lemma ScaledKeepsOrder(x: real, y: real, precision: nat)
    requires x <= y
    ensures Scaled(x, precision) <= Scaled(y, precision)
  {
    hide Power10;
    Distribute(y, x, Power10(precision));
  }

  lemma UnscaledKeepsOrder(a: int, b: int, precision: nat)
    requires a <= b
    ensures Unscaled(a, precision) <= Unscaled(b, precision)
  {
    hide Power10;
    var p := Power10(precision);
    ScaledUp(a as real, p);
    ScaledDown(a as real / p, b as real, p);
  }

  lemma RoundedKeepsOrder(x: real, y: real, precision: nat)
    requires x <= y
    ensures Rounded(x, precision) <= Rounded(y, precision)
  {
    hide Scaled, Unscaled;
    var a, b := Scaled(x, precision), Scaled(y, precision);
    ScaledKeepsOrder(x, y, precision);
    FloorKeepsOrder(a + 0.5, b + 0.5);
    UnscaledKeepsOrder(RoundHalfUp(a), RoundHalfUp(b), precision);
  }

  lemma AreasInOrder(unit: real, a: Sample, b: Sample)
    requires unit > 0.0 && a.t <= b.t && a.v <= b.v
    ensures Area(Left, unit, a, b) <= Area(Trapezoidal, unit, a, b) <= Area(Right, unit, a, b)
  {
    var dt := (b.t - a.t) as real / unit;
    ScaledDown(0.0, (b.t - a.t) as real, unit);
    assert (b.v - a.v) / 2.0 * dt >= 0.0;
  }

  /** For a rising reading the stored totals stay in order, rounding and all. */
  lemma {:induction false} RulesInOrder(unit: real, precision: nat, samples: seq<Sample>)
    requires unit > 0.0 && Rising(samples)
    ensures Stored(Left, unit, precision, samples) <= Stored(Trapezoidal, unit, precision, samples)
                                                   <= Stored(Right, unit, precision, samples)
  {
    hide Rounded, Area;
    var n := |samples|;
    if n >= 2 {
      var before, a, b := samples[..n - 1], samples[n - 2], samples[n - 1];
      RulesInOrder(unit, precision, before);
      AreasInOrder(unit, a, b);
      RoundedKeepsOrder(Stored(Left, unit, precision, before) + Area(Left, unit, a, b),
                        Stored(Trapezoidal, unit, precision, before) + Area(Trapezoidal, unit, a, b), precision);
      RoundedKeepsOrder(Stored(Trapezoidal, unit, precision, before) + Area(Trapezoidal, unit, a, b),
                        Stored(Right, unit, precision, before) + Area(Right, unit, a, b), precision);
    }
  }

  /**
   An area, in units of time, is the one under the line that the rule draws: at the first reading, at the last one,
   or straight from one to the other.
   */
  lemma AreaMeans(unit: real, a: Sample, b: Sample)
    requires unit > 0.0
    ensures var span := (b.t - a.t) as real;
            && Area(Left, unit, a, b) * unit == a.v * span
            && Area(Right, unit, a, b) * unit == b.v * span
            && Area(Trapezoidal, unit, a, b) * unit == a.v * span + (b.v - a.v) * span / 2.0
  {
    var span := (b.t - a.t) as real;
    var dt := span / unit;
    assert dt * unit == span;
    Regrouped(a.v, dt, unit);
    Regrouped(b.v, dt, unit);
    Regrouped((a.v + b.v) / 2.0, dt, unit);
  }

  lemma Regrouped(v: real, dt: real, unit: real)
    ensures v * dt * unit == v * (dt * unit)
  {
  }

  /** With the default precision a value is stored as thousandths, and nearest to what it was. */
  lemma RoundedMeans(x: real)
    ensures Rounded(x, 3) * 1000.0 == (Rounded(x, 3) * 1000.0).Floor as real
    ensures x - 0.0005 < Rounded(x, 3) <= x + 0.0005
  {
    assert Power10(3) == 10.0 * Power10(2) == 100.0 * Power10(1) == 1000.0 * Power10(0);
    assert Rounded(x, 3) * 1000.0 == RoundHalfUp(x * 1000.0) as real;
  }

  lemma Spans(v: real, a: int, b: int, c: int)
    ensures v * (b - a) as real + v * (c - b) as real == v * (c - a) as real
  {
    assert (c - a) as real == (b - a) as real + (c - b) as real;
  }

  /** Whatever the rule, the exact total of a reading that does not change is the reading times the whole time. */
  lemma {:induction false} ConstantReading(rule: Rule, unit: real, samples: seq<Sample>, v: real)
    requires unit > 0.0 && samples != [] && forall s <- samples :: s.v == v
    ensures Exact(rule, unit, samples) * unit == v * (samples[|samples| - 1].t - samples[0].t) as real
  {
    var n := |samples|;
    if n > 1 {
      hide Area;
      var init, a, b := samples[..n - 1], samples[n - 2], samples[n - 1];
      assert forall s <- init :: s in samples;
      ConstantReading(rule, unit, init, v);
      assert a in samples && b in samples;
      ConstantArea(rule, unit, a, b);
      Spans(v, samples[0].t, a.t, b.t);
      Distributes(Exact(rule, unit, init), Area(rule, unit, a, b), unit);
    }
  }

  lemma ConstantArea(rule: Rule, unit: real, a: Sample, b: Sample)
    requires unit > 0.0 && a.v == b.v
    ensures Area(rule, unit, a, b) * unit == a.v * (b.t - a.t) as real
  {
    AreaMeans(unit, a, b);
  }

  lemma Distributes(x: real, y: real, z: real)
    ensures (x + y) * z == x * z + y * z
  {
  }
}
