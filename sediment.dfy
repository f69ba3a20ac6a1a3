/** `cmptsed` and `interpolate`: entrainment from the wave shear, transport fractions,
    the transport and diffusion kernels, the volume-preserving redistribution, the
    deposition cut-off and the elevation update, with the projection of the results
    to the bathymetry grid when the computation grid is coarser. */
module Sediment {
  import opened Grids
  import opened Numerics
  import opened Outcomes
  import opened CellRules
  import opened Setup
  import opened Land
  import opened Waves

  /** `waveS[waveS < 1e-4] = 0`. */
  function FlooredShear(p: Params, waveS: Grid): Grid
  {
    Tabulate(Rows(p), Cols(p), (i, j) => NoiseFloor(At(waveS, i, j)))
  }

  /** Entrainment before smoothing: logarithmic excess shear, clamped below at 0 and
      capped at a quarter of the depth. */
  function RawHent(p: Params, t: Terrain, floored: Grid): Grid
  {
    Tabulate(Rows(p), Cols(p), (i, j) =>
      CapEntrainment(RawEntrainment(p.k, p.ce, p.tauCr, At(floored, i, j)), At(t.depth, i, j)))
  }

  /** `self.Hent`: the raw entrainment, smoothed when `sigma > 0`, zeroed on land. */
  function HentOf(p: Params, t: Terrain, raw: Grid, sigma: real): Grid
  {
    var sm := if sigma > 0.0 then p.k.gaussian(raw, sigma) else (i, j) => At(raw, i, j);
    Tabulate(Rows(p), Cols(p), (i, j) => OffLand(t.land, i, j, sm(i, j)))
  }

  /** `tX` and `tY`: each transport component over the l1 norm of the pair. */
  function FractionX(p: Params, w: WaveFields): Grid
  {
    Tabulate(Rows(p), Cols(p), (i, j) =>
      Fraction(At(w.transpX, i, j), Abs(At(w.transpX, i, j)) + Abs(At(w.transpY, i, j))))
  }

  function FractionY(p: Params, w: WaveFields): Grid
  {
    Tabulate(Rows(p), Cols(p), (i, j) =>
      Fraction(At(w.transpY, i, j), Abs(At(w.transpX, i, j)) + Abs(At(w.transpY, i, j))))
  }

  /** Cell area of the computation grid. */
  function Area(p: Params): real
  {
    if p.resfac == 1.0 then p.dx * p.dx else p.sdx * p.sdx
  }

  /** The diffusion coefficients are finite: neither `4 Cd area` nor `area` is zero. */
  predicate FiniteCoefficients(p: Params)
  {
    4.0 * p.cd * Area(p) != 0.0
  }

  /** The transport kernel's output `(dz, dist)`. */
  function TransportOf(p: Params, t: Terrain, hent: Grid, tX: Grid, tY: Grid, tsteps: int): (int, int) -> TransportCell
  {
    p.k.transport(tsteps, t.depth, hent, tX, tY)
  }

  /** `ndz + dist`: the diffused transport deposit plus the distributed volume. */
  function SupplyOf(p: Params, t: Terrain, hent: Grid, tX: Grid, tY: Grid, tsteps: int, dsteps: int): (g: Grid)
    requires FiniteCoefficients(p)
    ensures Shaped(g, Rows(p), Cols(p))
  {
    var tr := TransportOf(p, t, hent, tX, tY, tsteps);
    var area := Area(p);
    var cfl := area * area / (4.0 * p.cd * area);
    var cdiff := p.cd / area;
    var dz := Tabulate(Rows(p), Cols(p), (i, j) => tr(i, j).dz);
    var elev := Tabulate(Rows(p), Cols(p), (i, j) => -At(t.depth, i, j) + At(dz, i, j) - At(hent, i, j));
    var ndz := p.k.diffusion(elev, dz, cdiff, 0.5, cfl, dsteps);
    Tabulate(Rows(p), Cols(p), (i, j) => ndz(i, j) + tr(i, j).dist)
  }

  /** `val`: the supply, smoothed and rescaled to its own total when `sigma > 0`. A zero
      smoothed total or a zero coefficient makes numpy produce non-finite values; the
      model reports those as faults. */
  function DepositOf(p: Params, t: Terrain, hent: Grid, tX: Grid, tY: Grid, sigma: real, tsteps: int, dsteps: int): Result<Grid>
  {
    if !FiniteCoefficients(p) then Failure(NonFiniteCoefficient)
    else
      var supply := SupplyOf(p, t, hent, tX, tY, tsteps, dsteps);
      if sigma > 0.0 then
        var sm := Tabulate(Rows(p), Cols(p), p.k.gaussian(supply, sigma));
        var totval := GridSum(sm);
        if totval == 0.0 then Failure(NonFiniteRescale)
        else Success(Scale(sm, GridSum(supply) / totval))
      else Success(supply)
  }

  /** `dz = val - Hent`, with deposition cut where the cell is more than 2 above sea level. */
  function ErosionDeposition(p: Params, t: Terrain, val: Grid, hent: Grid): Grid
  {
    Tabulate(Rows(p), Cols(p), (i, j) => SuppressDeposition(At(val, i, j) - At(hent, i, j), At(t.depth, i, j)))
  }

  /** Cell-wise sum on an `nr` by `nc` grid. */
  function Plus(nr: nat, nc: nat, a: Grid, b: Grid): (g: Grid)
    ensures Shaped(g, nr, nc)
  {
    Tabulate(nr, nc, (i, j) => At(a, i, j) + At(b, i, j))
  }

  /** What `interpolate` leaves: the fine elevation, the fine erosion/deposition and
      the projected wave height and shear. */
  datatype Projected = Projected(regZ: Grid, erodep: Grid, wH: Grid, wS: Grid)

  function InterpolateOf(p: Params, regZ: Grid, sealvl: real, dz: Grid, waveH: Grid, waveS: Grid): Projected
  {
    var nr, nc := p.nr, p.nc;
    var erodep := Tabulate(nr, nc, p.k.resample(dz, nr, nc));
    var z := Plus(nr, nc, regZ, erodep);
    Projected(z, erodep, FineHeight(p, waveH, z, sealvl), FineShear(p, waveS, z, sealvl))
  }

  /** `wH`: the wave height resampled to the bathymetry grid, 0 above sea level and
      clamped at 0. */
  function FineHeight(p: Params, waveH: Grid, z: Grid, sealvl: real): Grid
  {
    Tabulate(p.nr, p.nc, (i, j) => ProjectHeight(p.k.resample(waveH, p.nr, p.nc)(i, j), At(z, i, j), sealvl))
  }

  /** `wS`: the shear stress resampled to the bathymetry grid, 0 above sea level. */
  function FineShear(p: Params, waveS: Grid, z: Grid, sealvl: real): Grid
  {
    Tabulate(p.nr, p.nc, (i, j) => ProjectShear(p.k.resample(waveS, p.nr, p.nc)(i, j), At(z, i, j), sealvl))
  }

  /** Everything `cmptsed` changes. */
  datatype SedOutcome = SedOutcome(terrain: Terrain, waveS: Grid, hent: Grid, dz: Grid,
                                   erodep: Grid, wS: Grid, wH: Grid)

  /** The end of `cmptsed`: the elevation update on the computation grid and, on the
      bathymetry grid, either the same fields or their projection by `interpolate`. */
  function UpdateOf(p: Params, t: Terrain, waveH: Grid, floored: Grid, hent: Grid, dz: Grid): SedOutcome
  {
    var nr, nc := Rows(p), Cols(p);
    if p.resfac == 1.0 then
      var z := Plus(nr, nc, t.regZ, dz);
      SedOutcome(t.(regZ := z, depth := DepthOf(nr, nc, z, t.sealvl)), floored, hent, dz, dz, floored, waveH)
    else
      var sz := Plus(nr, nc, t.sregZ, dz);
      var q := InterpolateOf(p, t.regZ, t.sealvl, dz, waveH, floored);
      SedOutcome(t.(regZ := q.regZ, sregZ := sz, depth := DepthOf(nr, nc, sz, t.sealvl)),
                 floored, hent, dz, q.erodep, q.wS, q.wH)
  }

  /** `cmptsed(sigma, tsteps, dsteps)` after `cmptwaves` produced `w`. */
  function SedOf(p: Params, t: Terrain, w: WaveFields, sigma: real, tsteps: int, dsteps: int): Result<SedOutcome>
  {
    var floored := FlooredShear(p, w.waveS);
    var hent := HentOf(p, t, RawHent(p, t, floored), sigma);
    match DepositOf(p, t, hent, FractionX(p, w), FractionY(p, w), sigma, tsteps, dsteps)
    case Failure(f) => Failure(f)
    case Success(val) => Success(UpdateOf(p, t, w.waveH, floored, hent, ErosionDeposition(p, t, val, hent)))
  }

  /** Entrainment is capped at a quarter of the depth wherever it is positive, is never
      above its uncapped value, and is non-negative wherever the depth is, or the
      (floored) shear is zero. */
  lemma EntrainmentBounds(p: Params, t: Terrain, floored: Grid, i: int, j: int)
    requires 0 <= i < Rows(p) && 0 <= j < Cols(p)
    ensures var h := RawHent(p, t, floored)[i][j];
      var d := At(t.depth, i, j);
      && (h > 0.0 ==> h <= 0.25 * d)
      && (d >= 0.0 ==> h >= 0.0)
      && (At(floored, i, j) <= 0.0 ==> h == 0.0)
  {
  }

  /** `Hent` is 0 on land; without smoothing it is the raw entrainment elsewhere, so the
      raw bounds carry over. */
  lemma HentBounds(p: Params, t: Terrain, raw: Grid, sigma: real, i: int, j: int)
    requires 0 <= i < Rows(p) && 0 <= j < Cols(p)
    ensures var h := HentOf(p, t, raw, sigma)[i][j];
      && ((i, j) in t.land ==> h == 0.0)
      && (sigma <= 0.0 && (i, j) !in t.land ==> h == At(raw, i, j))
  {
  }

  /** The sea and land sets agree with the sign of the depth (true right after
      `findland`; later elevation updates do not refresh the sets). */
  ghost predicate Consistent(t: Terrain, nr: nat, nc: nat)
  {
    t.sea !! t.land &&
    forall i, j :: 0 <= i < nr && 0 <= j < nc ==>
      ((i, j) in t.sea <==> At(t.depth, i, j) > 0.0) && ((i, j) in t.land <==> At(t.depth, i, j) <= 0.0)
  }

  /** `findland` leaves a consistent terrain. */
  lemma FindLandConsistent(p: Params, regZ: Grid, sregZ: Grid, lvl: real)
    requires FindLandOf(p, regZ, sregZ, lvl).Success?
    ensures Consistent(FindLandOf(p, regZ, sregZ, lvl).value, Rows(p), Cols(p))
  {
    PartitionIsExact(p, regZ, sregZ, lvl);
  }

  /** On a consistent terrain, entrainment computed from the waves of `cmptwaves`
      (smoothed with any width `wsigma`) is non-negative everywhere and within a
      quarter of the depth where positive, and the same holds of `Hent` when there is
      no smoothing. */
  lemma EntrainmentNonNegative(p: Params, t: Terrain, src: Grid, h0: real, wsigma: real, shadow: int,
                               shoalC: real, sigma: real, i: int, j: int)
    requires Rows(p) > 0 && Cols(p) > 0 && Consistent(t, Rows(p), Cols(p))
    requires 0 <= i < Rows(p) && 0 <= j < Cols(p)
    ensures var w := WavesOf(p, t, src, h0, wsigma, shadow, shoalC);
      var raw := RawHent(p, t, FlooredShear(p, w.waveS));
      var d := At(t.depth, i, j);
      && 0.0 <= raw[i][j]
      && (raw[i][j] > 0.0 ==> raw[i][j] <= 0.25 * d)
      && (sigma <= 0.0 ==> 0.0 <= HentOf(p, t, raw, sigma)[i][j] && (HentOf(p, t, raw, sigma)[i][j] > 0.0 ==> HentOf(p, t, raw, sigma)[i][j] <= 0.25 * d))
  {
    var w := WavesOf(p, t, src, h0, wsigma, shadow, shoalC);
    var floored := FlooredShear(p, w.waveS);
    if (i, j) in t.land {
      LandIsCalm(p, t, src, h0, wsigma, shadow, shoalC, i, j);
      assert At(floored, i, j) == 0.0;
    }
    CalmEntrainment(p, t, floored, sigma, i, j);
  }

  /** The bounds of `EntrainmentNonNegative` for any floored shear that is zero on land. */
  lemma CalmEntrainment(p: Params, t: Terrain, floored: Grid, sigma: real, i: int, j: int)
    requires Consistent(t, Rows(p), Cols(p))
    requires 0 <= i < Rows(p) && 0 <= j < Cols(p)
    requires (i, j) in t.land ==> At(floored, i, j) == 0.0
    ensures var raw := RawHent(p, t, floored);
      var d := At(t.depth, i, j);
      && 0.0 <= raw[i][j]
      && (raw[i][j] > 0.0 ==> raw[i][j] <= 0.25 * d)
      && (sigma <= 0.0 ==> 0.0 <= HentOf(p, t, raw, sigma)[i][j] && (HentOf(p, t, raw, sigma)[i][j] > 0.0 ==> HentOf(p, t, raw, sigma)[i][j] <= 0.25 * d))
  {
    EntrainmentBounds(p, t, floored, i, j);
    HentBounds(p, t, RawHent(p, t, floored), sigma, i, j);
  }

  /** The direction fractions have unit l1 norm where the direction is non-zero, keep
      the signs of the components, and are both zero where it is zero. */
  lemma FractionsOnGrid(p: Params, w: WaveFields, i: int, j: int)
    requires 0 <= i < Rows(p) && 0 <= j < Cols(p)
    ensures var x, y := At(w.transpX, i, j), At(w.transpY, i, j);
      var fx, fy := FractionX(p, w)[i][j], FractionY(p, w)[i][j];
      && (Abs(x) + Abs(y) > 0.0 ==> Abs(fx) + Abs(fy) == 1.0 && (fx < 0.0 <==> x < 0.0) && (fy < 0.0 <==> y < 0.0))
      && (Abs(x) + Abs(y) == 0.0 ==> fx == 0.0 && fy == 0.0)
  {
    FractionsAreUnit(At(w.transpX, i, j), At(w.transpY, i, j));
  }

  /** The rescale after smoothing preserves the total volume of the supply; without
      smoothing the supply is used as it is. */
  lemma RescaleKeepsVolume(p: Params, t: Terrain, hent: Grid, tX: Grid, tY: Grid, sigma: real, tsteps: int, dsteps: int)
    requires DepositOf(p, t, hent, tX, tY, sigma, tsteps, dsteps).Success?
    ensures FiniteCoefficients(p)
    ensures var val := DepositOf(p, t, hent, tX, tY, sigma, tsteps, dsteps).value;
      && GridSum(val) == GridSum(SupplyOf(p, t, hent, tX, tY, tsteps, dsteps))
      && (sigma <= 0.0 ==> val == SupplyOf(p, t, hent, tX, tY, tsteps, dsteps))
  {
    var supply := SupplyOf(p, t, hent, tX, tY, tsteps, dsteps);
    if sigma > 0.0 {
      RescaledSum(supply, Tabulate(Rows(p), Cols(p), p.k.gaussian(supply, sigma)));
    }
  }

  /** Scaling `sm` by `GridSum(supply) / GridSum(sm)` gives the total of `supply`. */
  lemma RescaledSum(supply: Grid, sm: Grid)
    requires GridSum(sm) != 0.0
    ensures GridSum(Scale(sm, GridSum(supply) / GridSum(sm))) == GridSum(supply)
  {
    var c := GridSum(supply) / GridSum(sm);
    var val := Scale(sm, c);
    GridSumScale(sm, c, val);
    QuotientTimes(GridSum(supply), GridSum(sm), c, GridSum(val));
  }

  lemma QuotientTimes(a: real, b: real, c: real, x: real)
    requires b != 0.0 && c == a / b && x == c * b
    ensures x == a
  {
  }

  /** Deposition survives only where the depth is at least -2; erosion is untouched. */
  lemma DepositionCutOff(p: Params, t: Terrain, val: Grid, hent: Grid, i: int, j: int)
    requires 0 <= i < Rows(p) && 0 <= j < Cols(p)
    ensures var dz := ErosionDeposition(p, t, val, hent)[i][j];
      var raw := At(val, i, j) - At(hent, i, j);
      && (dz > 0.0 ==> At(t.depth, i, j) >= -2.0)
      && dz <= raw
      && (At(t.depth, i, j) >= -2.0 || raw <= 0.0 ==> dz == raw)
  {
  }

  /** After `cmptsed` the elevation of the computation grid is raised by `dz` and the
      depth is measured from it; the fine elevation is raised by the erosion/deposition
      projected to it; the sea level and the land/sea sets are left as they were. */
  lemma ElevationUpdate(p: Params, t: Terrain, waveH: Grid, floored: Grid, hent: Grid, dz: Grid, i: int, j: int)
    ensures var o := UpdateOf(p, t, waveH, floored, hent, dz);
      && o.terrain.sealvl == t.sealvl && o.terrain.sea == t.sea && o.terrain.land == t.land
      && o.terrain.inland == t.inland && o.dz == dz && o.hent == hent && o.waveS == floored
      && (0 <= i < p.nr && 0 <= j < p.nc ==>
            o.terrain.regZ[i][j] == At(t.regZ, i, j) + At(o.erodep, i, j))
      && (0 <= i < Rows(p) && 0 <= j < Cols(p) ==>
            o.terrain.depth[i][j] == t.sealvl - At(ActiveZ(p, t.regZ, t.sregZ), i, j) - At(dz, i, j))
      && (p.resfac == 1.0 ==> o.erodep == dz && o.wS == floored && o.wH == waveH && o.terrain.sregZ == t.sregZ)
  {
    var nr, nc := Rows(p), Cols(p);
    var o := UpdateOf(p, t, waveH, floored, hent, dz);
    if p.resfac == 1.0 {
      var z := Plus(nr, nc, t.regZ, dz);
      if 0 <= i < nr && 0 <= j < nc {
        assert At(z, i, j) == z[i][j];
      }
    } else {
      var sz := Plus(nr, nc, t.sregZ, dz);
      var q := InterpolateOf(p, t.regZ, t.sealvl, dz, waveH, floored);
      if 0 <= i < p.nr && 0 <= j < p.nc {
        assert At(q.erodep, i, j) == q.erodep[i][j];
      }
      if 0 <= i < nr && 0 <= j < nc {
        assert At(sz, i, j) == sz[i][j];
      }
    }
  }

  /** A successful `cmptsed` leaves every grid it writes with the shape its grid calls
      for: the fine fields on the bathymetry grid, depth on the computation grid. */
  lemma SedShapes(p: Params, t: Terrain, w: WaveFields, sigma: real, tsteps: int, dsteps: int)
    requires Shaped(w.waveH, Rows(p), Cols(p))
    requires SedOf(p, t, w, sigma, tsteps, dsteps).Success?
    ensures var o := SedOf(p, t, w, sigma, tsteps, dsteps).value;
      && Shaped(o.terrain.regZ, p.nr, p.nc) && Shaped(o.terrain.depth, Rows(p), Cols(p))
      && (p.resfac == 1.0 ==> o.terrain.sregZ == t.sregZ)
      && (p.resfac != 1.0 ==> Shaped(o.terrain.sregZ, p.snr, p.snc))
      && o.terrain.sealvl == t.sealvl && o.terrain.inland == t.inland
      && o.terrain.sea == t.sea && o.terrain.land == t.land
      && Shaped(o.erodep, p.nr, p.nc) && Shaped(o.wH, p.nr, p.nc) && Shaped(o.wS, p.nr, p.nc)
      && Shaped(o.dz, Rows(p), Cols(p))
  {
    var floored := FlooredShear(p, w.waveS);
    var hent := HentOf(p, t, RawHent(p, t, floored), sigma);
    var val := DepositOf(p, t, hent, FractionX(p, w), FractionY(p, w), sigma, tsteps, dsteps).value;
    ShapesOfUpdate(p, t, w.waveH, floored, hent, ErosionDeposition(p, t, val, hent));
  }

  lemma ShapesOfUpdate(p: Params, t: Terrain, waveH: Grid, floored: Grid, hent: Grid, dz: Grid)
    requires Shaped(waveH, Rows(p), Cols(p)) && Shaped(floored, Rows(p), Cols(p)) && Shaped(dz, Rows(p), Cols(p))
    ensures var o := UpdateOf(p, t, waveH, floored, hent, dz);
      && Shaped(o.terrain.regZ, p.nr, p.nc) && Shaped(o.terrain.depth, Rows(p), Cols(p))
      && (p.resfac == 1.0 ==> o.terrain.sregZ == t.sregZ)
      && (p.resfac != 1.0 ==> Shaped(o.terrain.sregZ, p.snr, p.snc))
      && o.terrain.sealvl == t.sealvl && o.terrain.inland == t.inland
      && o.terrain.sea == t.sea && o.terrain.land == t.land
      && Shaped(o.erodep, p.nr, p.nc) && Shaped(o.wH, p.nr, p.nc) && Shaped(o.wS, p.nr, p.nc)
  {
  }

  /** The projected wave height is never negative and both projected fields vanish
      where the updated fine elevation is above sea level. */
  lemma ProjectedFields(p: Params, regZ: Grid, sealvl: real, dz: Grid, waveH: Grid, waveS: Grid, i: int, j: int)
    requires 0 <= i < p.nr && 0 <= j < p.nc
    ensures var q := InterpolateOf(p, regZ, sealvl, dz, waveH, waveS);
      && q.wH[i][j] >= 0.0
      && (q.regZ[i][j] > sealvl ==> q.wH[i][j] == 0.0 && q.wS[i][j] == 0.0)
      && q.regZ[i][j] == At(regZ, i, j) + q.erodep[i][j]
  {
    var q := InterpolateOf(p, regZ, sealvl, dz, waveH, waveS);
    assert At(q.regZ, i, j) == q.regZ[i][j];
    assert At(q.erodep, i, j) == q.erodep[i][j];
    assert q.wH[i][j] == ProjectHeight(p.k.resample(waveH, p.nr, p.nc)(i, j), q.regZ[i][j], sealvl);
    assert q.wS[i][j] == ProjectShear(p.k.resample(waveS, p.nr, p.nc)(i, j), q.regZ[i][j], sealvl);
  }
}
