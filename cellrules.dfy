/** The per-cell rules that the wave engine applies between its numerical kernels:
    the breaking clip, the travel-time fill, the choice of transport direction, the
    shear noise floor, the entrainment clamps, the transport fractions, the deposition
    cut-off and the clamps applied after projection to the fine grid. Each is stated
    on one cell; the grid-level pipeline applies them cell by cell. */
module CellRules {
  import opened Numerics

  /** McCowan (1894): breaking height 0.78 depth on sea cells, 0 elsewhere (wave.py `Hb`). */
  function BreakingLimit(depth: real, sea: bool): (hb: real)
    ensures sea ==> hb == 0.78 * depth
    ensures !sea ==> hb == 0.0
  {
    if sea then 0.78 * depth else 0.0
  }

  /** `waveH[waveH > Hb] = Hb`: the smaller of the height and its limit. */
  function ClipHeight(h: real, hb: real): (r: real)
    ensures r <= hb && r <= h
    ensures r == h || r == hb
  {
    if h > hb then hb else h
  }

  /** Wave height of a cell after smoothing: zeroed on land, then clipped to the
      breaking limit. */
  function ShoreHeight(smoothed: real, depth: real, sea: bool, land: bool): (h: real)
    ensures h <= BreakingLimit(depth, sea)
    ensures land ==> h <= 0.0
    ensures land && !sea ==> h == 0.0
    ensures !land && sea && smoothed <= 0.78 * depth ==> h == smoothed
    ensures !land && sea && smoothed > 0.78 * depth ==> h == 0.78 * depth
  {
    ClipHeight(if land then 0.0 else smoothed, BreakingLimit(depth, sea))
  }

  /** `travel[travel < 0] = max + 10` on the copy used for the gradient. */
  function FillUnreached(t: real, tmax: real): (r: real)
    ensures t >= 0.0 ==> r == t
    ensures t < 0.0 ==> r == tmax + 10.0
  {
    if t < 0.0 then tmax + 10.0 else t
  }

  /** Longshore drift: the contour angle is turned by pi where it points more than a
      right angle away from the wave direction. */
  function FlipContour(waveDir: real, contourDir: real): (r: real)
    ensures r == contourDir || r == contourDir + Pi
    ensures r == contourDir + Pi <==> waveDir - contourDir > Pi / 2.0 || contourDir - waveDir > Pi / 2.0
  {
    if Abs(waveDir - contourDir) > 0.5 * Pi then contourDir + Pi else contourDir
  }

  /** The nearshore band where transport follows the contour: `0 < depth < 0.5 wavebase`. */
  predicate InBand(depth: real, wavebase: real)
  {
    0.0 < depth < wavebase * 0.5
  }

  /** One component of the sediment transport direction: zero on land, the contour
      direction in the nearshore band, the wave direction elsewhere. */
  function TransportComponent(land: bool, band: bool, ofWave: real, ofContour: real): (r: real)
    ensures land ==> r == 0.0
    ensures !land && band ==> r == ofContour
    ensures !land && !band ==> r == ofWave
  {
    if land then 0.0 else if band then ofContour else ofWave
  }

  /** `waveS[waveS < 1e-4] = 0`. */
  function NoiseFloor(s: real): (r: real)
    ensures r == 0.0 || r >= 0.0001
    ensures s >= 0.0001 ==> r == s
    ensures s < 0.0001 ==> r == 0.0
  {
    if s < 0.0001 then 0.0 else s
  }

  /** Logarithmic excess-shear entrainment `-Ce log(|tau_cr / S|)` where the shear is
      positive, 0 elsewhere. */
  function RawEntrainment(k: Kernels, ce: real, tauCr: real, s: real): (e: real)
    ensures s <= 0.0 ==> e == 0.0
  {
    if s > 0.0 then -ce * k.log(k.sqrt(k.power(tauCr / s, 2.0))) else 0.0
  }

  /** `Hent[Hent < 0] = 0` followed by the cap at a quarter of the depth. */
  function CapEntrainment(raw: real, depth: real): (h: real)
    ensures raw <= 0.0 ==> h == 0.0
    ensures h > 0.0 ==> h <= 0.25 * depth
    ensures raw > 0.0 ==> h <= 0.25 * depth && h <= raw
    ensures 0.0 < raw <= 0.25 * depth ==> h == raw
    ensures depth >= 0.0 ==> h >= 0.0
  {
    var h0 := if raw < 0.0 then 0.0 else raw;
    if h0 > 0.0 && h0 > 0.25 * depth then 0.25 * depth else h0
  }

  function Abs(x: real): real
  {
    if x < 0.0 then -x else x
  }

  /** `tX = transpX / (|transpX| + |transpY|)` where the total is positive, else 0. */
  function Fraction(x: real, tot: real): (f: real)
    ensures tot <= 0.0 ==> f == 0.0
    ensures tot > 0.0 ==> f * tot == x
  {
    if tot > 0.0 then x / tot else 0.0
  }

  /** The transport fractions are unit in the l1 norm wherever the direction is
      non-zero, keep the signs of the components, and are both 0 otherwise. */
  lemma FractionsAreUnit(x: real, y: real)
    ensures var tot := Abs(x) + Abs(y);
      tot > 0.0 ==> Abs(Fraction(x, tot)) + Abs(Fraction(y, tot)) == 1.0
    ensures var tot := Abs(x) + Abs(y);
      tot > 0.0 ==> (Fraction(x, tot) < 0.0 <==> x < 0.0) && (Fraction(y, tot) < 0.0 <==> y < 0.0)
    ensures Abs(x) + Abs(y) == 0.0 ==> Fraction(x, 0.0) == 0.0 && Fraction(y, 0.0) == 0.0 && x == 0.0 && y == 0.0
  {
    var tot := Abs(x) + Abs(y);
    if tot > 0.0 {
      var fx, fy := Fraction(x, tot), Fraction(y, tot);
      AbsOfQuotient(x, tot);
      AbsOfQuotient(y, tot);
      var ax, ay := Abs(fx), Abs(fy);
      assert fx == x / tot;
      assert ax * tot == Abs(x);
      assert ay * tot == Abs(y);
      UnitFactor(ax, ay, ax * tot, ay * tot, tot);
    }
  }

  lemma AbsOfQuotient(x: real, t: real)
    requires t > 0.0
    ensures Abs(x / t) * t == Abs(x)
    ensures x / t < 0.0 <==> x < 0.0
  {
  }

  lemma SumTimes(a: real, b: real, t: real)
    ensures (a + b) * t == a * t + b * t
  {
  }

  lemma UnitFactor(a: real, b: real, at: real, bt: real, t: real)
    requires t > 0.0 && at == a * t && bt == b * t && at + bt == t
    ensures a + b == 1.0
  {
    SumTimes(a, b, t);
    assert (a + b) * t == 1.0 * t;
  }

  /** `dz[(dz > 0) & (depth < -2)] = 0`: no deposition well above water. */
  function SuppressDeposition(dz: real, depth: real): (r: real)
    ensures r <= dz
    ensures depth < -2.0 ==> r <= 0.0
    ensures depth >= -2.0 || dz <= 0.0 ==> r == dz
  {
    if dz > 0.0 && depth < -2.0 then 0.0 else dz
  }

  /** Projected wave height: 0 above sea level, and never negative. */
  function ProjectHeight(h: real, z: real, sealvl: real): (r: real)
    ensures r >= 0.0
    ensures z > sealvl ==> r == 0.0
    ensures z <= sealvl && h >= 0.0 ==> r == h
    ensures z <= sealvl && h < 0.0 ==> r == 0.0
  {
    if z > sealvl then 0.0 else if h < 0.0 then 0.0 else h
  }

  /** Projected shear stress: 0 above sea level, otherwise the interpolated value
      (which is not clamped). */
  function ProjectShear(s: real, z: real, sealvl: real): (r: real)
    ensures z > sealvl ==> r == 0.0
    ensures z <= sealvl ==> r == s
  {
    if z > sealvl then 0.0 else s
  }
}
