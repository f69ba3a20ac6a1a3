/** The masked assignments of `cmptsed` and `interpolate`, statement by statement on
    local arrays, each proved to produce the grid the `Sediment` module defines. */
module SedOps {
  import opened Grids
  import opened Arrays
  import opened Numerics
  import opened Outcomes
  import opened CellRules
  import opened Setup
  import opened Land
  import opened Waves
  import opened Sediment
  import opened WaveOps

  /** `waveS[waveS < 1e-4] = 0.0`. */
  method FloorStep(p: Params, waveS: Grid) returns (g: Grid)
    requires Shaped(waveS, Rows(p), Cols(p))
    ensures g == FlooredShear(p, waveS)
  {
    var nr, nc := Rows(p), Cols(p);
    g := Assign(waveS, nr, nc, (i, j) => At(waveS, i, j) < 0.0001, (i, j) => 0.0);
    GridsEqual(g, FlooredShear(p, waveS), nr, nc);
  }

  /** `Hent[r, c] = -Ce log(sqrt((tau_cr / waveS)^2))` where the shear is positive,
      then `Hent[Hent < 0] = 0` and the cap `Hent = 0.25 depth` where it is exceeded. */
  method EntrainStep(p: Params, t: Terrain, floored: Grid) returns (g: Grid)
    ensures g == RawHent(p, t, floored)
  {
    var nr, nc := Rows(p), Cols(p);
    var h0 := Assign(Tabulate(nr, nc, (i, j) => 0.0), nr, nc, (i, j) => At(floored, i, j) > 0.0,
                     (i, j) => RawEntrainment(p.k, p.ce, p.tauCr, At(floored, i, j)));
    var h1 := Assign(h0, nr, nc, (i, j) => At(h0, i, j) < 0.0, (i, j) => 0.0);
    g := Assign(h1, nr, nc, (i, j) => At(h1, i, j) > 0.0 && At(h1, i, j) > 0.25 * At(t.depth, i, j),
                (i, j) => 0.25 * At(t.depth, i, j));
    forall i, j | 0 <= i < nr && 0 <= j < nc
      ensures g[i][j] == RawHent(p, t, floored)[i][j]
    {
      var e := RawEntrainment(p.k, p.ce, p.tauCr, At(floored, i, j));
      var d := At(t.depth, i, j);
      assert At(h0, i, j) == h0[i][j] == e;
      assert At(h1, i, j) == h1[i][j] == if e < 0.0 then 0.0 else e;
      assert g[i][j] == CapEntrainment(e, d);
    }
    GridsEqual(g, RawHent(p, t, floored), nr, nc);
  }

  /** `self.Hent`: the raw entrainment smoothed when `sigma > 0`, zeroed on land. */
  method HentStep(p: Params, t: Terrain, raw: Grid, sigma: real) returns (g: Grid)
    requires Shaped(raw, Rows(p), Cols(p))
    ensures g == HentOf(p, t, raw, sigma)
  {
    var nr, nc := Rows(p), Cols(p);
    if sigma > 0.0 {
      g := LandZeroed(Tabulate(nr, nc, p.k.gaussian(raw, sigma)), t.land, nr, nc);
    } else {
      g := LandZeroed(raw, t.land, nr, nc);
    }
    GridsEqual(g, HentOf(p, t, raw, sigma), nr, nc);
  }

  /** `tX = zeros; tX[tot > 0] = transpX / tot`. */
  method FractionOf(nr: nat, nc: nat, comp: Grid, tot: Grid) returns (g: Grid)
    ensures Shaped(g, nr, nc)
    ensures forall i, j :: 0 <= i < nr && 0 <= j < nc ==> g[i][j] == Fraction(At(comp, i, j), At(tot, i, j))
  {
    g := Assign(Tabulate(nr, nc, (i, j) => 0.0), nr, nc, (i, j) => At(tot, i, j) > 0.0,
                (i, j) => Fraction(At(comp, i, j), At(tot, i, j)));
  }

  /** The proportions of transport in the x and y directions. */
  method FractionStep(p: Params, w: WaveFields) returns (tX: Grid, tY: Grid)
    ensures tX == FractionX(p, w) && tY == FractionY(p, w)
  {
    var nr, nc := Rows(p), Cols(p);
    var tot := Tabulate(nr, nc, (i, j) => Abs(At(w.transpX, i, j)) + Abs(At(w.transpY, i, j)));
    tX := FractionOf(nr, nc, w.transpX, tot);
    tY := FractionOf(nr, nc, w.transpY, tot);
    GridsEqual(tX, FractionX(p, w), nr, nc);
    GridsEqual(tY, FractionY(p, w), nr, nc);
  }

  /** `dz = val - Hent; dz[(dz > 0) & (depth < -2)] = 0`. */
  method SuppressStep(p: Params, t: Terrain, val: Grid, hent: Grid) returns (g: Grid)
    ensures g == ErosionDeposition(p, t, val, hent)
  {
    var nr, nc := Rows(p), Cols(p);
    var d := Tabulate(nr, nc, (i, j) => At(val, i, j) - At(hent, i, j));
    g := Assign(d, nr, nc, (i, j) => At(d, i, j) > 0.0 && At(t.depth, i, j) < -2.0, (i, j) => 0.0);
    GridsEqual(g, ErosionDeposition(p, t, val, hent), nr, nc);
  }

  /** `wH = spline(waveH); wH[regZ > sealvl] = 0; wH[wH < 0] = 0`. */
  method FineHeightStep(p: Params, waveH: Grid, z: Grid, sealvl: real) returns (g: Grid)
    ensures g == FineHeight(p, waveH, z, sealvl)
  {
    var nr, nc := p.nr, p.nc;
    var f := p.k.resample(waveH, nr, nc);
    var h0 := Assign(Tabulate(nr, nc, f), nr, nc, (i, j) => At(z, i, j) > sealvl, (i, j) => 0.0);
    g := Assign(h0, nr, nc, (i, j) => At(h0, i, j) < 0.0, (i, j) => 0.0);
    forall i, j | 0 <= i < nr && 0 <= j < nc
      ensures g[i][j] == FineHeight(p, waveH, z, sealvl)[i][j]
    {
      assert At(h0, i, j) == h0[i][j];
    }
    GridsEqual(g, FineHeight(p, waveH, z, sealvl), nr, nc);
  }

  /** `wS = spline(waveS); wS[regZ > sealvl] = 0`. */
  method FineShearStep(p: Params, waveS: Grid, z: Grid, sealvl: real) returns (g: Grid)
    ensures g == FineShear(p, waveS, z, sealvl)
  {
    var nr, nc := p.nr, p.nc;
    var f := p.k.resample(waveS, nr, nc);
    g := Assign(Tabulate(nr, nc, f), nr, nc, (i, j) => At(z, i, j) > sealvl, (i, j) => 0.0);
    GridsEqual(g, FineShear(p, waveS, z, sealvl), nr, nc);
  }

  /** `regZ += erodep` on a copy of `regZ`. */
  method RaiseStep(nr: nat, nc: nat, regZ: Grid, erodep: Grid) returns (g: Grid)
    requires Shaped(regZ, nr, nc)
    ensures g == Plus(nr, nc, regZ, erodep)
  {
    var a := Materialize(nr, nc, regZ);
    forall i, j | 0 <= i < nr && 0 <= j < nc {
      a[i, j] := a[i, j] + At(erodep, i, j);
    }
    g := Cells(a);
    GridsEqual(g, Plus(nr, nc, regZ, erodep), nr, nc);
  }

  /** `interpolate()` on values: the erosion/deposition resampled to the bathymetry
      grid, the bathymetry raised by it, and the projected height and shear. */
  method InterpolateStep(p: Params, regZ: Grid, sealvl: real, dz: Grid, waveH: Grid, waveS: Grid)
    returns (q: Projected)
    requires Shaped(regZ, p.nr, p.nc)
    ensures q == InterpolateOf(p, regZ, sealvl, dz, waveH, waveS)
  {
    var erodep := Tabulate(p.nr, p.nc, p.k.resample(dz, p.nr, p.nc));
    var z := RaiseStep(p.nr, p.nc, regZ, erodep);
    var h := FineHeightStep(p, waveH, z, sealvl);
    var s := FineShearStep(p, waveS, z, sealvl);
    q := Projected(z, erodep, h, s);
  }

  /** The body of `cmptsed(sigma, tsteps, dsteps)` on the engine's terrain and wave
      fields: the floored shear and the entrainment, which are written before the
      redistribution can fail, and everything the method leaves when it does not. */
  method SedStep(p: Params, t: Terrain, w: WaveFields, sigma: real, tsteps: int, dsteps: int)
    returns (floored: Grid, hent: Grid, r: Result<SedOutcome>)
    requires Shaped(w.waveS, Rows(p), Cols(p)) && Shaped(t.regZ, p.nr, p.nc)
    requires p.resfac != 1.0 ==> Shaped(t.sregZ, p.snr, p.snc)
    ensures floored == FlooredShear(p, w.waveS)
    ensures hent == HentOf(p, t, RawHent(p, t, floored), sigma)
    ensures r == SedOf(p, t, w, sigma, tsteps, dsteps)
  {
    floored := FloorStep(p, w.waveS);
    var raw := EntrainStep(p, t, floored);
    hent := HentStep(p, t, raw, sigma);
    var tX, tY := FractionStep(p, w);
    var val := DepositOf(p, t, hent, tX, tY, sigma, tsteps, dsteps);
    if val.Failure? {
      return floored, hent, Failure(val.error);
    }
    var dz := SuppressStep(p, t, val.value, hent);
    var nr, nc := Rows(p), Cols(p);
    if p.resfac == 1.0 {
      var z := RaiseStep(nr, nc, t.regZ, dz);
      r := Success(SedOutcome(t.(regZ := z, depth := DepthOf(nr, nc, z, t.sealvl)), floored, hent, dz, dz, floored, w.waveH));
    } else {
      var sz := RaiseStep(nr, nc, t.sregZ, dz);
      var q := InterpolateStep(p, t.regZ, t.sealvl, dz, w.waveH, floored);
      r := Success(SedOutcome(t.(regZ := q.regZ, sregZ := sz, depth := DepthOf(nr, nc, sz, t.sealvl)),
                              floored, hent, dz, q.erodep, q.wS, q.wH));
    }
  }
}
