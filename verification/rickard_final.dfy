/**
 The diamond classifier of `rickard_FINAL.py`: a (dip, pitch) pair is
 projected into the unit L1 "diamond" |x| + |y| <= 1, the direction of the
 point is bucketed into one of n equal wedges of the full turn, and the
 wedge number names one of the 22 Rickard (1972) fault categories.
 */
module RickardFinal {
  import opened PyMath

  /** The fault names in sector order: sector k is entry k - 1. */
  const FaultNames: seq<string> := [
    "Thrust Slip Fault",
    "Reverse Slip Fault",
    "Right Thrust Slip Fault",
    "Thrust Right Slip Fault",
    "Reverse Right Slip Fault",
    "Right Reverse Slip Fault",
    "Right Slip Fault",
    "Lag Right Slip Fault",
    "Right Lag Slip Fault",
    "Right Normal Slip Fault",
    "Normal Right Slip Fault",
    "Lag Slip Fault",
    "Normal Slip Fault",
    "Left Lag Slip Fault",
    "Lag Left Slip Fault",
    "Normal Left Slip Fault",
    "Left Normal Slip Fault",
    "Left Slip Fault",
    "Thrust Left Slip Fault",
    "Left Thrust Slip Fault",
    "Left Reverse Slip Fault",
    "Reverse Left Slip Fault"
  ]

  /** The sentinel the guarded lookup yields outside 1..22. */
  const Unknown: string := "Unknown"

  datatype Point = Point(x: real, y: real)

  const Origin: Point := Point(0.0, 0.0)

  /** What one classification request reports: the point, its sector and its fault name. */
  datatype Classification = Classification(point: Point, sector: int, name: string)

  /** The table has 22 distinct names, none of them the sentinel. */
  lemma FaultNamesShape()
    ensures |FaultNames| == 22
    ensures forall i, j :: 0 <= i < j < |FaultNames| ==> FaultNames[i] != FaultNames[j]
    ensures Unknown !in FaultNames
  {
  }

  // ---------------------------------------------------------------------
  // Projection
  // ---------------------------------------------------------------------

  /**
   The projection angle. Only the convention string exactly equal to "polar"
   measures dip from the x-axis; every other string, "rickard" included,
   measures it from the y-axis, which mirrors the angle across 45 degrees.
   */
  function Theta(dip: real, convention: string, pi: Positive): (theta: real)
    ensures convention == "polar" ==> theta == Radians(dip, pi)
    ensures convention != "polar" ==> theta == pi / 2.0 - Radians(dip, pi)
  {
    if convention == "polar" then Radians(dip, pi) else (RadiansOfComplement(dip, pi); Radians(90.0 - dip, pi))
  }

  /** The radius: pitch / 90, clamped to the unit interval. */
  function Radius(pitch: real): (r: real)
    ensures 0.0 <= r <= 1.0
    ensures pitch <= 0.0 ==> r == 0.0
    ensures pitch >= 90.0 ==> r == 1.0
    ensures 0.0 <= pitch <= 90.0 ==> r * 90.0 == pitch
  {
    Clamp(0.0, 1.0, pitch / 90.0)
  }

  /**
   The factor that moves the unit-circle point (c, s) onto the diamond:
   1 / (|c| + |s|), or 0 when that denominator is 0.
   */
  function Scale(c: real, s: real): (t: real)
    ensures t >= 0.0
    ensures Abs(c) + Abs(s) != 0.0 ==> t > 0.0
    ensures Abs(c) + Abs(s) == 0.0 ==> t == 0.0
  {
    var denom := Abs(c) + Abs(s);
    if denom == 0.0 then 0.0 else 1.0 / denom
  }

  /** Away from the guard, the factor is the exact inverse of |c| + |s|. */
  lemma ScaleInverts(c: real, s: real)
    requires Abs(c) + Abs(s) != 0.0
    ensures Scale(c, s) * (Abs(c) + Abs(s)) == 1.0
  {
  }

  /** Multiplying (c, s) by a nonnegative factor multiplies its L1 norm by it. */
  lemma ScaledNorm(k: real, c: real, s: real)
    requires k >= 0.0
    ensures Abs(k * c) + Abs(k * s) == k * (Abs(c) + Abs(s))
  {
    assert Abs(k * c) == k * Abs(c);
    assert Abs(k * s) == k * Abs(s);
  }

  /** The cosine and sine of the projection angle: a unit vector when cos^2 + sin^2 = 1. */
  function Direction(dip: real, convention: string, trig: Trig): (d: Point)
    ensures trig.OnUnitCircle() ==> d.x * d.x + d.y * d.y == 1.0
  {
    var theta := Theta(dip, convention, trig.pi);
    Point(trig.cos(theta), trig.sin(theta))
  }

  /**
   The point (c, s) moved onto the diamond of the already clamped radius r.
   A zero radius or a zero denominator gives the origin.
   */
  function ToDiamond(r: real, c: real, s: real): (p: Point)
    ensures r == 0.0 ==> p == Origin
    ensures Abs(c) + Abs(s) == 0.0 ==> p == Origin
  {
    var t := Scale(c, s);
    Point(r * t * c, r * t * s)
  }

  /** On the diamond of radius r exactly, unless the denominator is 0, which gives the origin. */
  lemma ToDiamondNorm(r: real, c: real, s: real)
    requires 0.0 <= r
    ensures var p := ToDiamond(r, c, s);
            && (Abs(c) + Abs(s) != 0.0 ==> Abs(p.x) + Abs(p.y) == r)
            && (Abs(c) + Abs(s) == 0.0 ==> p == Origin)
  {
    var t := Scale(c, s);
    ScaledNorm(r * t, c, s);
    if Abs(c) + Abs(s) != 0.0 {
      ScaleInverts(c, s);
      assert r * t * (Abs(c) + Abs(s)) == r * (t * (Abs(c) + Abs(s)));
    }
  }

  /** The diamond point is the polar point r (c, s) scaled by the guarded factor 1 / (|c| + |s|). */
  lemma ToDiamondIsRescaling(r: real, c: real, s: real)
    ensures var t := Scale(c, s);
            ToDiamond(r, c, s) == Point(t * (r * c), t * (r * s))
  {
  }

  /** Swapping cosine and sine swaps the coordinates of the diamond point. */
  lemma ToDiamondSwap(r: real, c: real, s: real)
    ensures var p := ToDiamond(r, c, s);
            ToDiamond(r, s, c) == Point(p.y, p.x)
  {
    assert Scale(s, c) == Scale(c, s);
  }

  /** The sign of a real: 1, -1 or 0. */
  function Sign(v: real): int {
    if v > 0.0 then 1 else if v < 0.0 then -1 else 0
  }

  /** For r > 0 the diamond point points the same way as (c, s). */
  lemma ToDiamondSign(r: real, c: real, s: real)
    requires r > 0.0
    ensures var p := ToDiamond(r, c, s);
            Sign(p.x) == Sign(c) && Sign(p.y) == Sign(s)
  {
    var t := Scale(c, s);
    if Abs(c) + Abs(s) != 0.0 {
      assert r * t > 0.0;
      PositiveFactorKeepsSign(r * t, c);
      PositiveFactorKeepsSign(r * t, s);
    }
  }

  lemma PositiveFactorKeepsSign(k: real, v: real)
    requires k > 0.0
    ensures Sign(k * v) == Sign(v)
  {
    if v > 0.0 {
      assert k * v > 0.0;
    } else if v < 0.0 {
      assert k * (-v) > 0.0;
    }
  }

  /** `dip_pitch_to_diamond_xy`: the point lies in the unit diamond. */
  function DiamondXY(dip: real, pitch: real, convention: string, trig: Trig): (p: Point)
    ensures Abs(p.x) + Abs(p.y) <= 1.0
  {
    var d := Direction(dip, convention, trig);
    ToDiamondNorm(Radius(pitch), d.x, d.y);
    ToDiamond(Radius(pitch), d.x, d.y)
  }

  /**
   The point lies on the diamond of radius r = Radius(pitch): |x| + |y| = r,
   unless the denominator is 0, in which case it is exactly the origin.
   */
  lemma DiamondOnRadius(dip: real, pitch: real, convention: string, trig: Trig)
    ensures var d := Direction(dip, convention, trig);
            var p := DiamondXY(dip, pitch, convention, trig);
            && (Abs(d.x) + Abs(d.y) != 0.0 ==> Abs(p.x) + Abs(p.y) == Radius(pitch))
            && (Abs(d.x) + Abs(d.y) == 0.0 ==> p == Origin)
  {
    var d := Direction(dip, convention, trig);
    ToDiamondNorm(Radius(pitch), d.x, d.y);
  }

  /** With cos^2 + sin^2 = 1 the denominator never vanishes, and full pitch lands on the diamond's edge. */
  lemma DiamondFullPitchOnEdge(dip: real, pitch: real, convention: string, trig: Trig)
    requires trig.OnUnitCircle()
    requires pitch >= 90.0
    ensures var p := DiamondXY(dip, pitch, convention, trig);
            Abs(p.x) + Abs(p.y) == 1.0
  {
    var d := Direction(dip, convention, trig);
    assert Abs(d.x) + Abs(d.y) != 0.0;
    ToDiamondNorm(1.0, d.x, d.y);
  }

  /** Pitch at or below 0 gives the origin, whatever the dip and convention. */
  lemma DiamondZeroPitch(dip: real, pitch: real, convention: string, trig: Trig)
    requires pitch <= 0.0
    ensures DiamondXY(dip, pitch, convention, trig) == Origin
  {
  }

  /** The projection keeps the direction: for positive pitch x has the sign of cos and y that of sin. */
  lemma DiamondKeepsDirection(dip: real, pitch: real, convention: string, trig: Trig)
    requires pitch > 0.0
    ensures var d := Direction(dip, convention, trig);
            var p := DiamondXY(dip, pitch, convention, trig);
            Sign(p.x) == Sign(d.x) && Sign(p.y) == Sign(d.y)
  {
    var d := Direction(dip, convention, trig);
    ToDiamondSign(Radius(pitch), d.x, d.y);
  }

  /**
   The two conventions mirror each other across the 45-degree axis: given
   the co-function identities at radians(dip), the non-"polar" point is the
   "polar" point with x and y swapped.
   */
  lemma ConventionsMirror(dip: real, pitch: real, convention: string, trig: Trig)
    requires convention != "polar"
    requires var a := Radians(dip, trig.pi);
             trig.cos(trig.pi / 2.0 - a) == trig.sin(a) && trig.sin(trig.pi / 2.0 - a) == trig.cos(a)
    ensures var q := DiamondXY(dip, pitch, "polar", trig);
            DiamondXY(dip, pitch, convention, trig) == Point(q.y, q.x)
  {
    var a := Radians(dip, trig.pi);
    var d := Direction(dip, convention, trig);
    assert Theta(dip, convention, trig.pi) == trig.pi / 2.0 - a;
    assert d == Point(trig.sin(a), trig.cos(a));
    assert Direction(dip, "polar", trig) == Point(trig.cos(a), trig.sin(a));
    ToDiamondSwap(Radius(pitch), trig.cos(a), trig.sin(a));
  }

  // ---------------------------------------------------------------------
  // Sector bucketing
  // ---------------------------------------------------------------------

  /** The `atan2` result shifted into [0, 2 pi) by adding a full turn when negative. */
  function NormalizeAngle(ang: real, pi: Positive): (a: real)
    ensures -(pi as real) <= ang <= pi ==> 0.0 <= a < 2.0 * pi
    ensures a == ang || a == ang + 2.0 * pi
  {
    if ang < 0.0 then ang + 2.0 * pi else ang
  }

  /** The angular width of one of n equal wedges: positive, and n of them make a full turn. */
  function WedgeWidth(n: int, pi: Positive): (w: real)
    requires n >= 1
    ensures w > 0.0
    ensures n as real * w == 2.0 * pi
  {
    2.0 * pi / n as real
  }

  /** Wedge k (0-based) is the closed-open interval [k w, (k + 1) w). */
  ghost predicate InWedge(ang: real, k: int, n: int, pi: Positive)
    requires n >= 1
  {
    k as real * WedgeWidth(n, pi) <= ang < (k + 1) as real * WedgeWidth(n, pi)
  }

  /**
   The unclamped sector `int(ang / (2 pi / n)) + 1`: at least 1 for a
   nonnegative angle, and within 1..n for an angle short of a full turn.
   */
  function RawSector(ang: real, n: int, pi: Positive): (raw: int)
    requires n >= 1
    ensures 0.0 <= ang ==> 1 <= raw
    ensures 0.0 <= ang < 2.0 * pi ==> raw <= n
  {
    Quotient(ang, n, pi);
    Int(ang / WedgeWidth(n, pi)) + 1
  }

  /** The bucketing half of `xy_to_sector`: never above n, never below 1 for a nonnegative angle. */
  function SectorOfAngle(ang: real, n: int, pi: Positive): (sector: int)
    requires n >= 1
    ensures sector <= n
    ensures ang >= 0.0 ==> 1 <= sector
  {
    var sector := RawSector(ang, n, pi);
    if sector > n then n else sector
  }

  /** Multiplying by a positive real keeps order, both ways. */
  lemma ScaleKeepsOrder(u: real, v: real, w: real)
    requires w > 0.0
    ensures u <= v <==> u * w <= v * w
    ensures u < v <==> u * w < v * w
  {
    if u <= v {
      assert (v - u) * w >= 0.0;
    } else {
      assert (u - v) * w > 0.0;
    }
    if u < v {
      assert (v - u) * w > 0.0;
    }
  }

  /** The quotient of an angle by the wedge width, and where it lies. */
  lemma Quotient(ang: real, n: int, pi: Positive)
    requires n >= 1
    ensures var q := ang / WedgeWidth(n, pi);
            && q * WedgeWidth(n, pi) == ang
            && (0.0 <= ang ==> 0.0 <= q)
            && (ang < 2.0 * pi ==> q < n as real)
            && (ang == 2.0 * pi ==> q == n as real)
  {
    var w := WedgeWidth(n, pi);
    var q := ang / w;
    assert q * w == ang;
    assert n as real * w == 2.0 * pi;
    ScaleKeepsOrder(0.0, q, w);
    ScaleKeepsOrder(q, n as real, w);
  }

  /**
   Closed-open bucketing: for an angle in [0, 2 pi), the sector is k + 1
   exactly when the angle lies in wedge k.
   */
  lemma SectorIsWedge(ang: real, n: int, pi: Positive, k: int)
    requires n >= 1
    requires 0.0 <= ang < 2.0 * pi
    requires 0 <= k < n
    ensures SectorOfAngle(ang, n, pi) == k + 1 <==> InWedge(ang, k, n, pi)
  {
    var w := WedgeWidth(n, pi);
    var q := ang / w;
    Quotient(ang, n, pi);
    var i := Int(q);
    assert i as real <= q < (i + 1) as real;
    assert i < n;
    assert SectorOfAngle(ang, n, pi) == i + 1;
    ScaleKeepsOrder(k as real, q, w);
    ScaleKeepsOrder(q, (k + 1) as real, w);
    assert InWedge(ang, k, n, pi) <==> k as real <= q < (k + 1) as real;
    if k as real <= q < (k + 1) as real {
      assert k <= i && i <= k;
    }
  }

  /**
   The clamp is the only guard against the rounding edge case: over
   [0, 2 pi] the raw sector exceeds n exactly when the angle is a full turn.
   */
  lemma ClampOnlyAtFullTurn(ang: real, n: int, pi: Positive)
    requires n >= 1
    requires 0.0 <= ang <= 2.0 * pi
    ensures RawSector(ang, n, pi) > n <==> ang == 2.0 * pi
    ensures ang == 2.0 * pi ==> SectorOfAngle(ang, n, pi) == n
  {
    Quotient(ang, n, pi);
  }

  /** The n wedges partition [0, 2 pi): every angle lies in exactly one of them. */
  lemma WedgesPartitionTurn(ang: real, n: int, pi: Positive)
    requires n >= 1
    requires 0.0 <= ang < 2.0 * pi
    ensures exists k :: 0 <= k < n && InWedge(ang, k, n, pi)
    ensures forall j, k :: 0 <= j < n && 0 <= k < n && InWedge(ang, j, n, pi) && InWedge(ang, k, n, pi) ==> j == k
  {
    var sector := SectorOfAngle(ang, n, pi);
    SectorIsWedge(ang, n, pi, sector - 1);
    forall j, k | 0 <= j < n && 0 <= k < n && InWedge(ang, j, n, pi) && InWedge(ang, k, n, pi)
      ensures j == k
    {
      SectorIsWedge(ang, n, pi, j);
      SectorIsWedge(ang, n, pi, k);
    }
  }

  /** `xy_to_sector`: never above n, and at least 1 when `atan2` keeps to [-pi, pi]. */
  function XyToSector(x: real, y: real, n: int, trig: Trig): (sector: int)
    requires n >= 1
    ensures sector <= n
    ensures trig.AtanInRange() ==> 1 <= sector
  {
    var ang := NormalizeAngle(trig.atan2(y, x), trig.pi);
    SectorOfAngle(ang, n, trig.pi)
  }

  /** The sector of a point is k + 1 exactly when the direction of the point lies in wedge k. */
  lemma XyToSectorIsWedge(x: real, y: real, n: int, trig: Trig, k: int)
    requires trig.AtanInRange()
    requires n >= 1
    requires 0 <= k < n
    ensures XyToSector(x, y, n, trig) == k + 1 <==> InWedge(NormalizeAngle(trig.atan2(y, x), trig.pi), k, n, trig.pi)
  {
    SectorIsWedge(NormalizeAngle(trig.atan2(y, x), trig.pi), n, trig.pi, k);
  }

  // ---------------------------------------------------------------------
  // Name lookup and the whole request
  // ---------------------------------------------------------------------

  /** The guarded lookup: the table's entry for sectors 1..22, the sentinel for any other integer. */
  function FaultNameOrUnknown(sector: int): (name: string)
    ensures 1 <= sector <= 22 <==> name in FaultNames
    ensures 1 <= sector <= 22 ==> name == FaultNames[sector - 1]
    ensures !(1 <= sector <= 22) ==> name == Unknown
  {
    FaultNamesShape();
    if 1 <= sector <= 22 then FaultNames[sector - 1] else Unknown
  }

  /** One press of the classify button: project, bucket into 22 sectors, look the name up. */
  function Classify(dip: real, pitch: real, convention: string, trig: Trig): (c: Classification)
    ensures Abs(c.point.x) + Abs(c.point.y) <= 1.0
    ensures c.sector <= 22
    ensures trig.AtanInRange() ==> 1 <= c.sector && c.name == FaultNames[c.sector - 1] && c.name != Unknown
  {
    var p := DiamondXY(dip, pitch, convention, trig);
    var sector := XyToSector(p.x, p.y, 22, trig);
    FaultNamesShape();
    Classification(p, sector, FaultNameOrUnknown(sector))
  }

  /** An angle of exactly q wedge widths has the raw sector int(q) + 1. */
  lemma RawSectorAt(ang: real, n: int, pi: Positive, q: real)
    requires n >= 1
    requires ang == q * WedgeWidth(n, pi)
    ensures RawSector(ang, n, pi) == Int(q) + 1
  {
    var w := WedgeWidth(n, pi);
    assert ang / w == q;
  }

  /** Zero pitch gives the origin; with atan2(0, 0) = 0 it is sector 1, a thrust slip fault. */
  lemma ZeroPitchIsSectorOne(dip: real, convention: string, trig: Trig)
    requires trig.atan2(0.0, 0.0) == 0.0
    ensures Classify(dip, 0.0, convention, trig) == Classification(Origin, 1, "Thrust Slip Fault")
  {
    var w := WedgeWidth(22, trig.pi);
    assert 0.0 / w == 0.0;
  }

  /**
   Dip 0, full pitch, "rickard" convention: the angle is pi/2, the point (0, 1),
   and (pi/2) / (2 pi / 22) = 5.5, so sector 6.
   */
  lemma StraightUpIsSectorSix(trig: Trig)
    requires trig.cos(trig.pi / 2.0) == 0.0 && trig.sin(trig.pi / 2.0) == 1.0
    requires trig.atan2(1.0, 0.0) == trig.pi / 2.0
    ensures Classify(0.0, 90.0, "rickard", trig) == Classification(Point(0.0, 1.0), 6, "Right Reverse Slip Fault")
  {
    var pi := trig.pi;
    assert DiamondXY(0.0, 90.0, "rickard", trig) == Point(0.0, 1.0) by {
      assert Theta(0.0, "rickard", pi) == pi / 2.0;
      assert Direction(0.0, "rickard", trig) == Point(0.0, 1.0);
      assert Scale(0.0, 1.0) == 1.0;
      assert Radius(90.0) == 1.0;
    }
    assert XyToSector(0.0, 1.0, 22, trig) == 6 by {
      assert WedgeWidth(22, pi) == pi / 11.0;
      RawSectorAt(pi / 2.0, 22, pi, 5.5);
      assert Int(5.5) == 5;
      assert NormalizeAngle(pi / 2.0, pi) == pi / 2.0;
    }
    assert FaultNameOrUnknown(6) == "Right Reverse Slip Fault";
  }

  /**
   Dip 30, pitch 60, "rickard" convention: the angle is pi/3, and a point in
   that direction is bucketed at (pi/3) / (2 pi / 22) = 11/3, so sector 4.
   */
  lemma SixtyDegreesIsSectorFour(trig: Trig)
    requires var p := DiamondXY(30.0, 60.0, "rickard", trig);
             trig.atan2(p.y, p.x) == trig.pi / 3.0
    ensures Theta(30.0, "rickard", trig.pi) == trig.pi / 3.0
    ensures var c := Classify(30.0, 60.0, "rickard", trig);
            c.sector == 4 && c.name == "Thrust Right Slip Fault"
  {
    var pi := trig.pi;
    assert WedgeWidth(22, pi) == pi / 11.0;
    RawSectorAt(pi / 3.0, 22, pi, 11.0 / 3.0);
    assert Int(11.0 / 3.0) == 3;
  }
}
