/**
 The accelerometer filter of the main activity. Each sample's magnitude (the
 square root the platform call computes) arrives as a `real`; the float fields
 of the activity become reals, so single-precision rounding is not modelled.
 The filter adds the raw change in magnitude to a decayed running value, and
 that value is sorted into three bands by two thresholds.
 */
module Motion {

  const SwingThreshold: real := 14.0
  const HitThreshold: real := 26.0

  /** The decay factor of the running value. */
  const Decay: real := 0.9

  /** Standard gravity, the magnitude of a device at rest. */
  const GravityEarth: real := 9.80665

  /** The three float fields the activity keeps for motion. */
  datatype Filter = Filter(acceleration: real, lastAcceleration: real, currentAcceleration: real)

  /** Field values when the activity is created: the running value is zero
      and both magnitudes are standard gravity. */
  const Initial: Filter := Filter(0.0, GravityEarth, GravityEarth)

  /** What one filtered value means. */
  datatype Gesture = NoGesture | SwingGesture | HitGesture

  /** One sensor callback: the newest magnitude shifts into place and the
      running value decays, then takes the change between the two. */
  function Update(f: Filter, magnitude: real): (g: Filter)
    ensures g.lastAcceleration == f.currentAcceleration
    ensures g.currentAcceleration == magnitude
    ensures g.acceleration - Decay * f.acceleration == g.currentAcceleration - g.lastAcceleration
  {
    var last := f.currentAcceleration;
    var current := magnitude;
    Filter(f.acceleration * Decay + (current - last), last, current)
  }

  /** The bands: above the hit threshold a hit, above the swing threshold a
      swing, otherwise nothing. Both comparisons are strict. */
  function Classify(a: real): (k: Gesture)
    ensures k == HitGesture <==> a > HitThreshold
    ensures k == SwingGesture <==> SwingThreshold < a <= HitThreshold
    ensures k == NoGesture <==> a <= SwingThreshold
  {
    if a > HitThreshold then HitGesture
    else if a > SwingThreshold then SwingGesture
    else NoGesture
  }

  function Strength(k: Gesture): nat {
    match k
    case NoGesture => 0
    case SwingGesture => 1
    case HitGesture => 2
  }

  /** A larger filtered value never yields a weaker gesture. */
  lemma ClassifyIsMonotone(a: real, b: real)
    requires a <= b
    ensures Strength(Classify(a)) <= Strength(Classify(b))
  {
  }

  /** From rest (running value zero) a sample is classified by its change in
      magnitude alone. */
  lemma FromRestClassifiesDelta(f: Filter, magnitude: real)
    requires f.acceleration == 0.0
    ensures Update(f, magnitude).acceleration == magnitude - f.currentAcceleration
    ensures Classify(Update(f, magnitude).acceleration) == Classify(magnitude - f.currentAcceleration)
  {
  }

  /** `n` callbacks that all report the same magnitude. */
  function Hold(f: Filter, magnitude: real, n: nat): (g: Filter)
    ensures n > 0 ==> g.currentAcceleration == magnitude
    decreases n
  {
    if n == 0 then f else Hold(Update(f, magnitude), magnitude, n - 1)
  }

  function Pow(x: real, n: nat): real
    decreases n
  {
    if n == 0 then 1.0 else x * Pow(x, n - 1)
  }

  /** Held at the magnitude it last saw, the filter's running value only decays. */
  lemma {:induction false} HoldDecays(f: Filter, magnitude: real, n: nat)
    requires f.currentAcceleration == magnitude
    ensures Hold(f, magnitude, n).acceleration == Pow(Decay, n) * f.acceleration
    ensures Hold(f, magnitude, n).currentAcceleration == magnitude
    decreases n
  {
    if n > 0 {
      var g := Update(f, magnitude);
      assert g.acceleration == Decay * f.acceleration;
      HoldDecays(g, magnitude, n - 1);
      assert Hold(f, magnitude, n) == Hold(g, magnitude, n - 1);
      assert Pow(Decay, n) == Decay * Pow(Decay, n - 1);
    }
  }

  lemma {:induction false} PowPositive(x: real, n: nat)
    requires x > 0.0
    ensures Pow(x, n) > 0.0
    decreases n
  {
    if n > 0 {
      PowPositive(x, n - 1);
    }
  }

  lemma {:induction false} PowAtMostOne(x: real, n: nat)
    requires 0.0 < x <= 1.0
    ensures Pow(x, n) <= 1.0
    decreases n
  {
    if n > 0 {
      PowAtMostOne(x, n - 1);
      PowPositive(x, n - 1);
      var p := Pow(x, n - 1);
      assert x * p <= 1.0 * p;
    }
  }

  /** Bernoulli's inequality for the growth factor 10/9. */
  lemma {:induction false} GrowthBound(n: nat)
    ensures Pow(10.0 / 9.0, n) >= 1.0 + (n as real) / 9.0
    decreases n
  {
    if n > 0 {
      GrowthBound(n - 1);
      var p := Pow(10.0 / 9.0, n - 1);
      var k := (n - 1) as real;
      assert p >= 1.0 + k / 9.0;
      assert Pow(10.0 / 9.0, n) == (10.0 / 9.0) * p;
      assert (10.0 / 9.0) * p >= (10.0 / 9.0) * (1.0 + k / 9.0);
      assert (10.0 / 9.0) * (1.0 + k / 9.0) == 1.0 + (k + 1.0) / 9.0 + k / 81.0;
    }
  }

  lemma {:induction false} PowReciprocal(n: nat)
    ensures Pow(Decay, n) * Pow(10.0 / 9.0, n) == 1.0
    decreases n
  {
    if n > 0 {
      PowReciprocal(n - 1);
      var a := Pow(Decay, n - 1);
      var b := Pow(10.0 / 9.0, n - 1);
      calc {
        Pow(Decay, n) * Pow(10.0 / 9.0, n);
        (Decay * a) * ((10.0 / 9.0) * b);
        (Decay * (10.0 / 9.0)) * (a * b);
        1.0;
      }
    }
  }

  /** After `n` decays the running value has shrunk by at least 1 + n/9. */
  lemma DecayBound(n: nat)
    ensures Pow(Decay, n) * (1.0 + (n as real) / 9.0) <= 1.0
  {
    GrowthBound(n);
    PowReciprocal(n);
    PowPositive(Decay, n);
    var d := Pow(Decay, n);
    assert d * (1.0 + (n as real) / 9.0) <= d * Pow(10.0 / 9.0, n);
  }

  /** Holding the device at a steady magnitude settles classification to
      nothing: `n` callbacks suffice once 14n >= 9a, where a is the running
      value when the magnitude became steady. */
  lemma SteadyHoldSettles(f: Filter, magnitude: real, n: nat)
    requires f.currentAcceleration == magnitude
    requires (n as real) * SwingThreshold >= 9.0 * f.acceleration
    ensures Classify(Hold(f, magnitude, n).acceleration) == NoGesture
  {
    HoldDecays(f, magnitude, n);
    var a := f.acceleration;
    var d := Pow(Decay, n);
    PowPositive(Decay, n);
    PowAtMostOne(Decay, n);
    if a <= SwingThreshold {
      if a >= 0.0 {
        assert d * a <= 1.0 * a;
      } else {
        assert d * a <= 0.0;
      }
    } else {
      DecayBound(n);
      var s := 1.0 + (n as real) / 9.0;
      assert s > a / SwingThreshold;
      assert d * s <= 1.0;
      assert d * a * s <= a;
      assert d * a < SwingThreshold * s * d;
      assert d * a <= SwingThreshold;
    }
  }

  /** From any filter state, a steady magnitude settles to nothing: one
      callback to reach the magnitude, then the bound above. */
  lemma AnyHoldSettles(f: Filter, magnitude: real, n: nat)
    requires (n as real) * SwingThreshold >= 9.0 * Update(f, magnitude).acceleration
    ensures Classify(Hold(f, magnitude, n + 1).acceleration) == NoGesture
  {
    SteadyHoldSettles(Update(f, magnitude), magnitude, n);
  }
}
