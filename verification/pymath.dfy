/**
 The small part of Python's `math` module and built-ins that the two Rickard
 scripts use, over exact reals.

 Trigonometry is abstract: a `Trig` value bundles a positive constant `pi`
 with arbitrary `cos`, `sin` and `atan2` functions. `AtanInRange()` and
 `OnUnitCircle()` state the facts the general lemmas rely on; lemmas that
 need particular trigonometric values name them in their own requires.
 Nothing here computes a transcendental value.
 */
module PyMath {

  /** A strictly positive real; the type of the abstract constant pi. */
  type Positive = r: real | r > 0.0 witness 1.0

  /** The trigonometry the scripts call: `math.pi`, `math.cos`, `math.sin`, `math.atan2`. */
  datatype Trig = Trig(pi: Positive, cos: real -> real, sin: real -> real, atan2: (real, real) -> real)
  {
    /** `atan2` lands in [-pi, pi]: what the sector bucketing relies on. */
    ghost predicate AtanInRange() {
      forall y, x :: -(pi as real) <= atan2(y, x) <= pi
    }

    /** `cos` and `sin` lie on the unit circle: what the projections' geometry relies on. */
    ghost predicate OnUnitCircle() {
      forall a :: cos(a) * cos(a) + sin(a) * sin(a) == 1.0
    }
  }

  /** Python's `abs` on a float. */
  function Abs(v: real): (r: real)
    ensures r >= 0.0
    ensures r == v || r == -v
  {
    if v < 0.0 then -v else v
  }

  /** Python's `max(lo, min(hi, v))`. */
  function Clamp(lo: real, hi: real, v: real): (r: real)
    requires lo <= hi
    ensures lo <= r <= hi
    ensures lo <= v <= hi ==> r == v
    ensures v <= lo ==> r == lo
    ensures hi <= v ==> r == hi
  {
    var m := if hi < v then hi else v;
    if lo < m then m else lo
  }

  /** Python's `int()` of a float: truncation toward zero. */
  function Int(v: real): (i: int)
    ensures v >= 0.0 ==> i >= 0 && i as real <= v < i as real + 1.0
    ensures v < 0.0 ==> i <= 0 && i as real - 1.0 < v <= i as real
  {
    if v >= 0.0 then v.Floor else -((-v).Floor)
  }

  /** `math.radians`: 0 degrees is 0 and a half turn of 180 degrees is pi. */
  function Radians(deg: real, pi: Positive): (r: real)
    ensures deg == 0.0 ==> r == 0.0
    ensures deg == 180.0 ==> r == pi as real
  {
    deg * pi / 180.0
  }

  /** Radians is linear: the complement of an angle in degrees is pi/2 minus its radians. */
  lemma RadiansOfComplement(deg: real, pi: Positive)
    ensures Radians(90.0 - deg, pi) == pi / 2.0 - Radians(deg, pi)
  {
  }
}
