/**
 The kite classifier of `rickard_plot_layang2.py`: an unclamped polar point
 of radius pitch / 90 in direction dip, stretched vertically by 1.7; the same
 22-wedge bucketing as the diamond classifier, and a 1-based name table
 indexed without a guard.
 */
module RickardKite {
  import opened PyMath
  import RickardFinal

  type Point = RickardFinal.Point

  /** The fault names keyed by sector number. */
  const FaultNameTable: map<int, string> := map[
    1 := "Thrust Slip Fault", 2 := "Reverse Slip Fault", 3 := "Right Thrust Slip Fault",
    4 := "Thrust Right Slip Fault", 5 := "Reverse Right Slip Fault",
    6 := "Right Reverse Slip Fault", 7 := "Right Slip Fault",
    8 := "Lag Right Slip Fault", 9 := "Right Lag Slip Fault",
    10 := "Right Normal Slip Fault", 11 := "Normal Right Slip Fault",
    12 := "Lag Slip Fault", 13 := "Normal Slip Fault",
    14 := "Left Lag Slip Fault", 15 := "Lag Left Slip Fault",
    16 := "Normal Left Slip Fault", 17 := "Left Normal Slip Fault",
    18 := "Left Slip Fault", 19 := "Thrust Left Slip Fault",
    20 := "Left Thrust Slip Fault", 21 := "Left Reverse Slip Fault",
    22 := "Reverse Left Slip Fault"
  ]

  /** The vertical exaggeration of the kite diagram. */
  const Exaggeration: real := 1.7

  /** The keyed table's keys are exactly the sectors 1..22. */
  lemma FaultTableKeys()
    ensures forall k :: k in FaultNameTable <==> 1 <= k <= 22
  {
  }

  /** The keyed table agrees entry by entry with the diamond classifier's list: key k holds entry k - 1. */
  lemma FaultTablesAgree()
    ensures forall k :: 1 <= k <= 22 ==> k in FaultNameTable && FaultNameTable[k] == RickardFinal.FaultNames[k - 1]
  {
  }

  // ---------------------------------------------------------------------
  // Projection
  // ---------------------------------------------------------------------

  /** `rickard_projection`: the unclamped polar point, stretched vertically. Pitch 0 gives the origin. */
  function KiteProjection(dip: real, pitch: real, trig: Trig): (p: Point)
    ensures pitch == 0.0 ==> p == RickardFinal.Origin
  {
    var dipRad := Radians(dip, trig.pi);
    var r := pitch / 90.0;
    var x := r * trig.cos(dipRad);
    var y := r * trig.sin(dipRad);
    RickardFinal.Point(x, y * Exaggeration)
  }

  /**
   With cos^2 + sin^2 = 1 the point lies on the ellipse x^2 + (y / 1.7)^2 = r^2,
   r = pitch / 90, not on the outline of the drawn kite.
   */
  lemma KiteOnEllipse(dip: real, pitch: real, trig: Trig)
    requires trig.OnUnitCircle()
    ensures var p := KiteProjection(dip, pitch, trig);
            p.x * p.x + (p.y / Exaggeration) * (p.y / Exaggeration) == (pitch / 90.0) * (pitch / 90.0)
  {
    var a := Radians(dip, trig.pi);
    var c, s := trig.cos(a), trig.sin(a);
    var r := pitch / 90.0;
    var p := KiteProjection(dip, pitch, trig);
    assert p.x == r * c;
    assert p.y / Exaggeration == r * s;
    assert c * c + s * s == 1.0;
    assert (r * c) * (r * c) + (r * s) * (r * s) == r * r * (c * c + s * s);
  }

  /** Pitch is not clamped: a negated pitch reflects the point through the origin. */
  lemma KiteNegatedPitch(dip: real, pitch: real, trig: Trig)
    ensures var p := KiteProjection(dip, pitch, trig);
            KiteProjection(dip, -pitch, trig) == RickardFinal.Point(-p.x, -p.y)
  {
    var a := Radians(dip, trig.pi);
    var c, s := trig.cos(a), trig.sin(a);
    assert (-pitch / 90.0) * c == -(pitch / 90.0 * c);
    assert (-pitch / 90.0) * s * Exaggeration == -(pitch / 90.0 * s * Exaggeration);
  }

  /** Pitch is not clamped: above 90 the point leaves the unit ellipse, so no diamond or kite holds it. */
  lemma KitePitchAboveNinety(dip: real, pitch: real, trig: Trig)
    requires trig.OnUnitCircle()
    requires pitch > 90.0
    ensures var p := KiteProjection(dip, pitch, trig);
            p.x * p.x + (p.y / Exaggeration) * (p.y / Exaggeration) > 1.0
  {
    var r := pitch / 90.0;
    KiteOnEllipse(dip, pitch, trig);
    assert r > 1.0;
    assert r * r > 1.0 by {
      assert r * r - 1.0 == (r - 1.0) * (r + 1.0);
    }
  }

  /**
   Full pitch off the two axes lands outside the drawn kite: when cos and
   sin of the dip are both nonzero, |x| + |y| / 1.7 > 1.
   */
  lemma KiteLeavesOutline(dip: real, trig: Trig)
    requires trig.OnUnitCircle()
    requires var a := Radians(dip, trig.pi);
             trig.cos(a) != 0.0 && trig.sin(a) != 0.0
    ensures var p := KiteProjection(dip, 90.0, trig);
            Abs(p.x) + Abs(p.y) / Exaggeration > 1.0
  {
    var a := Radians(dip, trig.pi);
    var c, s := trig.cos(a), trig.sin(a);
    var p := KiteProjection(dip, 90.0, trig);
    assert p.x == c && p.y == s * Exaggeration;
    assert Abs(s * Exaggeration) == Abs(s) * Exaggeration;
    assert c * c + s * s == 1.0;
    UnitL1ExceedsOne(c, s);
  }

  /** A point of the unit circle off both axes lies strictly outside the unit diamond. */
  lemma UnitL1ExceedsOne(c: real, s: real)
    requires c != 0.0 && s != 0.0
    requires c * c + s * s == 1.0
    ensures Abs(c) + Abs(s) > 1.0
  {
    var u, v := Abs(c), Abs(s);
    assert u > 0.0 && v > 0.0;
    assert u * u == c * c && v * v == s * s;
    assert u * u + v * v == 1.0;
    var m := u + v;
    assert m > 0.0;
    assert m * m == u * u + v * v + 2.0 * (u * v);
    assert u * v > 0.0;
    assert m * m > 1.0;
    assert (m - 1.0) * (m + 1.0) == m * m - 1.0;
    RickardFinal.ScaleKeepsOrder(0.0, m - 1.0, m + 1.0);
    assert m > 1.0;
  }

  /**
   The two scripts' projections share a direction: for pitch in [0, 90] the
   diamond point under the "polar" convention is the kite point with the
   stretch undone, rescaled onto the diamond by 1 / (|cos| + |sin|).
   */
  lemma KiteAndPolarDiamondAgree(dip: real, pitch: real, trig: Trig)
    requires 0.0 <= pitch <= 90.0
    ensures var a := Radians(dip, trig.pi);
            var t := RickardFinal.Scale(trig.cos(a), trig.sin(a));
            var k := KiteProjection(dip, pitch, trig);
            RickardFinal.DiamondXY(dip, pitch, "polar", trig) == RickardFinal.Point(t * k.x, t * (k.y / Exaggeration))
  {
    var a := Radians(dip, trig.pi);
    var c, s := trig.cos(a), trig.sin(a);
    var r := pitch / 90.0;
    var t := RickardFinal.Scale(c, s);
    var k := KiteProjection(dip, pitch, trig);
    assert RickardFinal.DiamondXY(dip, pitch, "polar", trig) == RickardFinal.ToDiamond(r, c, s) by {
      assert RickardFinal.Radius(pitch) == r;
    }
    RickardFinal.ToDiamondIsRescaling(r, c, s);
    KiteUnstretched(dip, pitch, trig);
    SameScaledPoint(t, r * c, r * s, k.x, k.y / Exaggeration);
  }

  /** Scaling equal coordinates by the same factor gives equal points. */
  lemma SameScaledPoint(t: real, x: real, y: real, x': real, y': real)
    requires x == x' && y == y'
    ensures RickardFinal.Point(t * x, t * y) == RickardFinal.Point(t * x', t * y')
  {
  }

  /** Undoing the stretch gives back the polar point (r cos, r sin). */
  lemma KiteUnstretched(dip: real, pitch: real, trig: Trig)
    ensures var a := Radians(dip, trig.pi);
            var r := pitch / 90.0;
            var k := KiteProjection(dip, pitch, trig);
            k.x == r * trig.cos(a) && k.y / Exaggeration == r * trig.sin(a)
  {
    var a := Radians(dip, trig.pi);
    var y := pitch / 90.0 * trig.sin(a);
    assert y * Exaggeration / Exaggeration == y;
  }


  // ---------------------------------------------------------------------
  // Sector and lookup
  // ---------------------------------------------------------------------

  /** `get_sector`: never above 22, and at least 1 when `atan2` keeps to [-pi, pi]. */
  function GetSector(x: real, y: real, trig: Trig): (sector: int)
    ensures sector <= 22
    ensures trig.AtanInRange() ==> 1 <= sector
  {
    var pi := trig.pi;
    var angle0 := trig.atan2(y, x);
    var angle := if angle0 < 0.0 then angle0 + 2.0 * pi else angle0;
    RickardFinal.Quotient(angle, 22, pi);
    var sector := Int(angle / (2.0 * pi / 22.0)) + 1;
    if sector > 22 then 22 else sector
  }

  /** The kite script's sector is the diamond script's `xy_to_sector` with n = 22, for every input. */
  lemma GetSectorAgrees(x: real, y: real, trig: Trig)
    ensures GetSector(x, y, trig) == RickardFinal.XyToSector(x, y, 22, trig)
  {
  }

  /** Closed-open boundaries: a direction exactly k 2 pi / 22 belongs to sector k + 1. */
  lemma GetSectorClosedOpen(x: real, y: real, trig: Trig, k: int)
    requires trig.AtanInRange()
    requires 0 <= k < 22
    requires RickardFinal.NormalizeAngle(trig.atan2(y, x), trig.pi) == k as real * (2.0 * trig.pi / 22.0)
    ensures GetSector(x, y, trig) == k + 1
  {
    GetSectorAgrees(x, y, trig);
    RickardFinal.XyToSectorIsWedge(x, y, 22, trig, k);
    var w := RickardFinal.WedgeWidth(22, trig.pi);
    assert k as real * w < (k + 1) as real * w;
  }

  /** The unguarded lookup cannot fail: every sector `get_sector` returns is a key of the table. */
  lemma LookupNeverFails(x: real, y: real, trig: Trig)
    requires trig.AtanInRange()
    ensures GetSector(x, y, trig) in FaultNameTable
  {
    FaultTableKeys();
  }

  /**
   The command-line request: project, take the sector, index the table
   without a guard. It names the same fault as the diamond script's list.
   */
  function Classify(dip: real, pitch: real, trig: Trig): (c: RickardFinal.Classification)
    requires trig.AtanInRange()
    ensures 1 <= c.sector <= 22
    ensures c.name == RickardFinal.FaultNames[c.sector - 1]
  {
    var p := KiteProjection(dip, pitch, trig);
    var sector := GetSector(p.x, p.y, trig);
    LookupNeverFails(p.x, p.y, trig);
    FaultTablesAgree();
    RickardFinal.Classification(p, sector, FaultNameTable[sector])
  }
}
