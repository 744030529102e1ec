# Rickard (1972) fault classification, modelled in Dafny

The repository classifies a fault orientation into one of the 22 categories of
the Rickard (1972) diagram. It takes a dip and a pitch (rake) in degrees and
works in three steps:

1. **Projection.** The angles become a planar point.
2. **Sector bucketing.** The direction of that point is cut into 22 equal wedges.
3. **Name lookup.** The wedge number selects a fault name.

Two independent scripts do this with different geometry:

- `rickard_FINAL.py` (module `RickardFinal`) projects into the unit L1 diamond
  `|x| + |y| <= 1`. The radius is pitch / 90 clamped to [0, 1]. The direction
  is rescaled by `1 / (|cos| + |sin|)`. A convention string chooses the angle:
  exactly `"polar"` gives `radians(dip)`, and any other string gives
  `radians(90 - dip)`. It looks names up in a 0-based list, guarded by an
  `"Unknown"` sentinel.
- `rickard_plot_layang2.py` (module `RickardKite`) takes the unclamped polar
  point `(r cos dip, r sin dip)` with `r = pitch / 90` and stretches y by 1.7.
  It indexes a 1-based dictionary without a guard.

Module `PyMath` holds the parts of Python the scripts call. Both scripts use
`math.radians` and `int()` (truncation toward zero). Only `rickard_FINAL.py`
uses `abs` and the `max`/`min` clamp. The module also holds the trigonometry as
an abstract value `Trig`, made of a positive constant `pi` and arbitrary `cos`,
`sin` and `atan2` functions. Two predicates state the facts the general lemmas
use. `Trig.AtanInRange()` says `atan2` lies in `[-pi, pi]`, and the sector
lemmas rely on it alone. `Trig.OnUnitCircle()` says `cos^2 + sin^2 = 1`, and
the projection lemmas rely on it alone. A few lemmas need
more. `ConventionsMirror` assumes the co-function identities at one angle. The
worked examples (`ZeroPitchIsSectorOne`, `StraightUpIsSectorSix`,
`SixtyDegreesIsSectorFour`) name the trigonometric values they use in their
requires. All arithmetic is exact real arithmetic.

Where the code and the geometry it suggests disagree, the model follows the code:

- The kite script draws the outline `|x| + |y| / 1.7 = 1`
  (rickard_plot_layang2.py:64-65). Its points do not stay inside that outline.
  They lie on the ellipse `x^2 + (y / 1.7)^2 = r^2` (`KiteOnEllipse`). At full
  pitch, every direction off the axes falls outside the kite
  (`KiteLeavesOutline`). Pitch is not clamped (`KitePitchAboveNinety`).
- Dip 30, pitch 60, convention "rickard" gives the angle pi/3. That is 11/3
  wedges of 2 pi / 22, so a point in that direction falls in sector 4,
  "Thrust Right Slip Fault" (`SixtyDegreesIsSectorFour`).
- In the model, pitch 0 gives the origin. Its sector depends on
  `atan2(0, 0)`, and with Python's value 0 it is sector 1
  (`ZeroPitchIsSectorOne`). The source keeps signed zeros, so this holds there
  only when cos(theta) > 0. When cos(theta) < 0, line 60 of rickard_FINAL.py
  computes x = +0.0 * t * c = -0.0. `atan2(+-0.0, -0.0)` is then +-pi, which
  normalises to pi, 11 wedges, so the sector is 12, "Lag Slip Fault", or 11
  after rounding. For example, dip -30 with convention "rickard" does this.

## Model

| member | source | states |
|---|---|---|
| `RickardFinal.FaultNamesShape` | rickard_FINAL.py:10-33 | the name list has exactly 22 entries, all distinct, and none is the "Unknown" sentinel |
| `PyMath.Clamp` | rickard_FINAL.py:53 | `max(lo, min(hi, v))` lies in [lo, hi], is v inside the range, and is the nearer bound outside it |
| `PyMath.Abs` | rickard_FINAL.py:57 | `abs` is nonnegative and is v or -v |
| `PyMath.Int` | rickard_FINAL.py:71 | Python `int()` truncates toward zero: for v >= 0 it is the greatest integer not above v, and for v < 0 the least integer not below v |
| `PyMath.RadiansOfComplement` | rickard_FINAL.py:49-51 | radians(90 - dip) = pi/2 - radians(dip), so the two conventions are mirror angles |
| `PyMath.Radians` | rickard_FINAL.py:49-51 | `math.radians` (also rickard_plot_layang2.py:35) sends 0 degrees to 0 and 180 degrees to pi |
| `RickardFinal.Theta` | rickard_FINAL.py:47-51 | the string exactly equal to "polar" gives radians(dip); every other string gives pi/2 - radians(dip) |
| `RickardFinal.Radius` | rickard_FINAL.py:53 | r lies in [0, 1], is 0 for pitch <= 0, is 1 for pitch >= 90, and is pitch / 90 in between |
| `RickardFinal.Scale` | rickard_FINAL.py:55-58 | t >= 0; t is positive when \|c\| + \|s\| is nonzero, and the guard gives t = 0 when it is 0 |
| `RickardFinal.Direction` | rickard_FINAL.py:55-56 | (cos theta, sin theta) is a unit vector when cos^2 + sin^2 = 1 (`OnUnitCircle`) |
| `RickardFinal.ScaleInverts` | rickard_FINAL.py:57-58 | away from the guard, t is the exact inverse of \|c\| + \|s\|: t (\|c\| + \|s\|) = 1 |
| `RickardFinal.ToDiamond` | rickard_FINAL.py:57-61 | a zero radius or a zero denominator \|c\| + \|s\| gives the origin |
| `RickardFinal.ToDiamondNorm` | rickard_FINAL.py:57-61 | for any radius r >= 0, the rescaled point satisfies \|x\| + \|y\| = r when the denominator is nonzero, and is the origin when it is 0 |
| `RickardFinal.ToDiamondSwap` | rickard_FINAL.py:57-62 | the rescaling treats both coordinates alike: swapping cos and sin swaps x and y of the result |
| `RickardFinal.DiamondXY` | rickard_FINAL.py:38-62 | the returned point lies in the unit diamond \|x\| + \|y\| <= 1, as the docstring (line 45) promises |
| `RickardFinal.DiamondOnRadius` | rickard_FINAL.py:53-62 | with a nonzero denominator, \|x\| + \|y\| equals the clamped radius exactly; with a zero denominator the point is exactly (0, 0) |
| `RickardFinal.DiamondFullPitchOnEdge` | rickard_FINAL.py:53-62 | with cos^2 + sin^2 = 1 and pitch >= 90, the point lies on the diamond's edge: \|x\| + \|y\| = 1 |
| `RickardFinal.DiamondZeroPitch` | rickard_FINAL.py:53-62 | pitch <= 0 gives (0, 0), whatever the dip and convention |
| `RickardFinal.DiamondKeepsDirection` | rickard_FINAL.py:53-61 | for pitch > 0, x has the sign of cos(theta) and y the sign of sin(theta) |
| `RickardFinal.ConventionsMirror` | rickard_FINAL.py:47-62 | given the co-function identities at radians(dip), every non-"polar" convention gives the "polar" point with x and y swapped |
| `RickardFinal.NormalizeAngle` | rickard_FINAL.py:68-70 | an atan2 result in [-pi, pi] becomes an angle in [0, 2 pi) in the same direction: unchanged or one full turn more |
| `RickardFinal.WedgeWidth` | rickard_FINAL.py:71 | the wedge width `2 * math.pi / n` is positive, and n wedges make exactly one full turn |
| `RickardFinal.RawSector` | rickard_FINAL.py:71-72 | the unclamped `int(ang / w) + 1` is at least 1 for a nonnegative angle, and at most n for an angle below 2 pi |
| `RickardFinal.SectorOfAngle` | rickard_FINAL.py:71-75 | the bucketed sector never exceeds n, and it is at least 1 for a nonnegative angle |
| `RickardFinal.SectorIsWedge` | rickard_FINAL.py:71-75 | for an angle in [0, 2 pi) and 0 <= k < n, the sector is k + 1 exactly when the angle lies in the closed-open wedge [k 2pi/n, (k+1) 2pi/n) |
| `RickardFinal.ClampOnlyAtFullTurn` | rickard_FINAL.py:72-74 | over [0, 2 pi] the raw sector exceeds n exactly when the angle is a full turn, the rounding edge case, and then the clamp gives n |
| `RickardFinal.WedgesPartitionTurn` | rickard_FINAL.py:71-75 | the n wedges cover [0, 2 pi) and do not overlap: each angle lies in exactly one |
| `RickardFinal.XyToSector` | rickard_FINAL.py:67-75 | the sector is at most n, and at least 1 when atan2 lies in [-pi, pi] (`AtanInRange`) |
| `RickardFinal.XyToSectorIsWedge` | rickard_FINAL.py:67-75 | a point's sector is k + 1 exactly when its normalised atan2 angle lies in wedge k |
| `RickardFinal.FaultNameOrUnknown` | rickard_FINAL.py:147 | a name from the table is returned exactly for sectors 1..22, entry sector - 1; any other integer gives "Unknown"; the lookup never fails |
| `RickardFinal.Classify` | rickard_FINAL.py:145-147 | the point is in the unit diamond and the sector is at most 22; when atan2 lies in [-pi, pi] the sector is in 1..22 and the name is that sector's table entry, never "Unknown" |
| `RickardFinal.ZeroPitchIsSectorOne` | rickard_FINAL.py:145-147 | pitch 0 gives the origin, which is sector 1, "Thrust Slip Fault", when atan2(0, 0) = 0 |
| `RickardFinal.StraightUpIsSectorSix` | rickard_FINAL.py:145-147 | dip 0, pitch 90, "rickard": the point is (0, 1), the angle pi/2 is 5.5 wedges, so sector 6, "Right Reverse Slip Fault" |
| `RickardFinal.SixtyDegreesIsSectorFour` | rickard_FINAL.py:145-147 | dip 30, "rickard": theta = pi/3; with pitch 60 a point in that direction is sector 4, "Thrust Right Slip Fault" |
| `RickardKite.FaultTableKeys` | rickard_plot_layang2.py:7-19 | the dictionary's keys are exactly the integers 1..22 |
| `RickardKite.FaultTablesAgree` | rickard_plot_layang2.py:7-19 | for every k in 1..22 the dictionary's entry k equals entry k - 1 of the other script's list (rickard_FINAL.py:10-33) |
| `RickardKite.KiteProjection` | rickard_plot_layang2.py:25-44 | pitch 0 gives (0, 0) for every dip |
| `RickardKite.KiteOnEllipse` | rickard_plot_layang2.py:36-44 | with cos^2 + sin^2 = 1 the point satisfies x^2 + (y / 1.7)^2 = (pitch / 90)^2, an ellipse and not the drawn kite |
| `RickardKite.KiteNegatedPitch` | rickard_plot_layang2.py:36-44 | pitch is not clamped: negating it reflects the point through the origin |
| `RickardKite.KitePitchAboveNinety` | rickard_plot_layang2.py:36-44 | pitch is not clamped: above 90 the point lies outside the unit ellipse |
| `RickardKite.KiteLeavesOutline` | rickard_plot_layang2.py:38-42 | at pitch 90, when cos and sin of the dip are both nonzero, \|x\| + \|y\| / 1.7 > 1: the point lies outside the drawn kite |
| `RickardKite.KiteAndPolarDiamondAgree` | rickard_plot_layang2.py:35-44 | for pitch in [0, 90], the other script's "polar" diamond point is the kite point with the 1.7 stretch undone, rescaled by 1 / (\|cos\| + \|sin\|) |
| `RickardKite.GetSector` | rickard_plot_layang2.py:50-55 | the sector is at most 22, and at least 1 when atan2 lies in [-pi, pi] (`AtanInRange`) |
| `RickardKite.GetSectorAgrees` | rickard_plot_layang2.py:50-55 | `get_sector(x, y)` equals the other script's `xy_to_sector(x, y, 22)` for all inputs |
| `RickardKite.GetSectorClosedOpen` | rickard_plot_layang2.py:54 | a direction of exactly k 2pi/22 belongs to sector k + 1 |
| `RickardKite.LookupNeverFails` | rickard_plot_layang2.py:98 | every sector `get_sector` returns is a key of the dictionary, so the unguarded lookup is defined |
| `RickardKite.Classify` | rickard_plot_layang2.py:96-98 | the sector is in 1..22, and the name found without a guard is the same as the other script's list entry for that sector |

## Left out

- The Streamlit form, the radio buttons, the check boxes and the PNG download
  (rickard_FINAL.py:128-162) are user interface and I/O. So are the widgets'
  range limits on dip and pitch. The model accepts every real input.
- The plotting functions `plot_rickard_diamond` (rickard_FINAL.py:80-123) and
  `plot_rickard` (rickard_plot_layang2.py:61-85) only render.
- The standard-input prompts and printing of rickard_plot_layang2.py:91-105
  are left out. Only the classification at lines 96-98 is modelled.
- `math.cos`, `math.sin` and `math.atan2` are not computed. They are abstract
  functions, and `pi` is an abstract positive constant. The proofs assume only
  what `Trig.AtanInRange()` and `Trig.OnUnitCircle()` state, or hypotheses named in a lemma's requires.
- IEEE-754 rounding, NaN, infinities and signed zero cannot be expressed over
  exact reals. The rounding edge case appears only as an angle of exactly
  2 pi reaching the clamp (`ClampOnlyAtFullTurn`).
- RickardFinal.XyToSector: requires n >= 1. With n = 0 the source raises
  ZeroDivisionError, and negative n is not modelled. The source's only
  caller passes 22.
- RickardKite.Classify: requires `Trig.AtanInRange()`. The unguarded dictionary
  lookup is defined only because `atan2` keeps to [-pi, pi], which real
  trigonometry guarantees and an arbitrary `Trig` does not.
- RickardFinal.ZeroPitchIsSectorOne: holds only for the model's unsigned
  origin. The source's pitch-0 point is (-0.0, +-0.0) when cos(theta) < 0,
  and then its sector is about 12, not 1. Exact reals have no signed zero.
