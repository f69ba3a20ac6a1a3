/** The steps of `cmptwaves` that follow the Airy kernel, statement by statement: each
    numpy expression that allocates its result is a fresh array, each masked
    assignment (`a[rows, cols] = v`, `a[a > b] = b`) a `forall` statement updating it
    in place. Each step is proved to produce the grid the `Waves` module defines. */
module WaveOps {
  import opened Grids
  import opened Arrays
  import opened Numerics
  import opened CellRules
  import opened Setup
  import opened Land
  import opened Waves
  import VanRijn

  /** `a[landr, landc] = 0.0` on a copy of `g`. */
  method LandZeroed(g: Grid, land: set<Cell>, nr: nat, nc: nat) returns (r: Grid)
    requires Shaped(g, nr, nc)
    ensures Shaped(r, nr, nc)
    ensures forall i, j :: 0 <= i < nr && 0 <= j < nc ==> r[i][j] == OffLand(land, i, j, g[i][j])
  {
    r := Assign(g, nr, nc, (i, j) => (i, j) in land, (i, j) => 0.0);
  }

  /** `a = np.zeros(shape); a[sear, seac] = f[sear, seac]`. */
  method SeaOnly(f: (int, int) -> real, sea: set<Cell>, nr: nat, nc: nat) returns (r: Grid)
    ensures Shaped(r, nr, nc)
    ensures forall i, j :: 0 <= i < nr && 0 <= j < nc ==> r[i][j] == if (i, j) in sea then f(i, j) else 0.0
  {
    r := Assign(Tabulate(nr, nc, (i, j) => 0.0), nr, nc, (i, j) => (i, j) in sea, f);
  }

  /** `waveH = gaussian_filter(waveH, sigma)`, zeroed on land, then
      `waveH[waveH > Hb] = Hb` with `Hb` 0.78 depth on sea cells and 0 elsewhere. */
  method HeightStep(p: Params, t: Terrain, raw: Grid, sigma: real) returns (g: Grid)
    ensures g == HeightField(p, t, raw, sigma)
  {
    var nr, nc := Rows(p), Cols(p);
    var hb := SeaOnly((i, j) => 0.78 * At(t.depth, i, j), t.sea, nr, nc);
    var sm := p.k.gaussian(raw, sigma);
    var h := LandZeroed(Tabulate(nr, nc, sm), t.land, nr, nc);
    g := Assign(h, nr, nc, (i, j) => At(h, i, j) > At(hb, i, j), (i, j) => At(hb, i, j));
    forall i, j | 0 <= i < nr && 0 <= j < nc
      ensures g[i][j] == HeightField(p, t, raw, sigma)[i][j]
    {
      assert At(hb, i, j) == hb[i][j] && At(h, i, j) == h[i][j];
    }
    GridsEqual(g, HeightField(p, t, raw, sigma), nr, nc);
  }

  /** `travel = np.copy(self.travel); travel[travel < 0] = self.travel.max() + 10`. */
  method FillStep(travel: Grid, nr: nat, nc: nat) returns (g: Grid)
    requires Shaped(travel, nr, nc) && nr > 0 && nc > 0
    ensures g == FilledTravel(travel, nr, nc)
  {
    var tmax := GridMax(travel);
    g := Assign(travel, nr, nc, (i, j) => At(travel, i, j) < 0.0, (i, j) => tmax + 10.0);
    GridsEqual(g, FilledTravel(travel, nr, nc), nr, nc);
  }

  /** `waveP = rhow g C n H^2 / 8`, zeroed on land. */
  method PowerStep(p: Params, t: Terrain, a: (int, int) -> AiryCell, waveH: Grid) returns (g: Grid)
    ensures g == PowerField(p, t, a, waveH)
  {
    var nr, nc := Rows(p), Cols(p);
    g := LandZeroed(Tabulate(nr, nc, (i, j) => Power(p, a(i, j).celerity, a(i, j).length, At(t.depth, i, j), At(waveH, i, j))),
                    t.land, nr, nc);
    GridsEqual(g, PowerField(p, t, a, waveH), nr, nc);
  }

  /** `waveT = sqrt(2 pi L / g)`, zeroed on land. */
  method PeriodStep(p: Params, t: Terrain, a: (int, int) -> AiryCell) returns (g: Grid)
    ensures g == PeriodField(p, t, a)
  {
    var nr, nc := Rows(p), Cols(p);
    g := LandZeroed(Tabulate(nr, nc, (i, j) => p.k.period(a(i, j).length)), t.land, nr, nc);
    GridsEqual(g, PeriodField(p, t, a), nr, nc);
  }

  /** The kernel's wavelength, zeroed on land. */
  method LengthStep(p: Params, t: Terrain, a: (int, int) -> AiryCell) returns (g: Grid)
    ensures g == LengthField(p, t, a)
  {
    var nr, nc := Rows(p), Cols(p);
    g := LandZeroed(Tabulate(nr, nc, (i, j) => a(i, j).length), t.land, nr, nc);
    GridsEqual(g, LengthField(p, t, a), nr, nc);
  }

  /** The wave direction, zeroed on land. */
  method DirectionStep(p: Params, t: Terrain, waveD: (int, int) -> real) returns (g: Grid)
    ensures g == DirectionField(p, t, waveD)
  {
    var nr, nc := Rows(p), Cols(p);
    g := LandZeroed(Tabulate(nr, nc, waveD), t.land, nr, nc);
    GridsEqual(g, DirectionField(p, t, waveD), nr, nc);
  }

  /** `waveU[sear, seac] = pi H / (T sinh(2 pi d / L))` on zeros, zeroed on land at the
      end of `cmptwaves`. */
  method OrbitalStep(p: Params, t: Terrain, a: (int, int) -> AiryCell, waveH: Grid) returns (g: Grid)
    ensures g == OrbitalField(p, t, a, waveH)
  {
    var nr, nc := Rows(p), Cols(p);
    var u := SeaOnly((i, j) => p.k.orbital(At(waveH, i, j), p.k.period(a(i, j).length), At(t.depth, i, j), a(i, j).length),
                     t.sea, nr, nc);
    g := LandZeroed(u, t.land, nr, nc);
    GridsEqual(g, OrbitalField(p, t, a, waveH), nr, nc);
  }

  /** The Sleath friction on sea cells (0 elsewhere) and `waveS = rhow fric U^2 / 2`
      from the orbital velocity before its land zeroing; then zeroed on land. */
  method ShearStep(p: Params, t: Terrain, a: (int, int) -> AiryCell, waveH: Grid) returns (g: Grid)
    ensures g == ShearField(p, t, a, waveH)
  {
    var nr, nc := Rows(p), Cols(p);
    var u := SeaOnly((i, j) => p.k.orbital(At(waveH, i, j), p.k.period(a(i, j).length), At(t.depth, i, j), a(i, j).length),
                     t.sea, nr, nc);
    var fric := SeaOnly((i, j) => p.k.friction(p.dia, At(t.depth, i, j)), t.sea, nr, nc);
    var s := Tabulate(nr, nc, (i, j) => 0.5 * VanRijn.Rhow * At(fric, i, j) * At(u, i, j) * At(u, i, j));
    g := LandZeroed(s, t.land, nr, nc);
    forall i, j | 0 <= i < nr && 0 <= j < nc
      ensures g[i][j] == ShearField(p, t, a, waveH)[i][j]
    {
      var f := if (i, j) in t.sea then p.k.friction(p.dia, At(t.depth, i, j)) else 0.0;
      var v := OrbitalAt(p, t, a, waveH, i, j);
      assert At(fric, i, j) == f;
      assert At(u, i, j) == v;
      assert s[i][j] == Shear(p, (i, j) in t.sea, At(t.depth, i, j), v);
    }
    GridsEqual(g, ShearField(p, t, a, waveH), nr, nc);
  }

  /** `cDir[tr, tc] += pi` where the contour angle points more than a right angle away
      from the wave direction. */
  method Flipped(waveD: (int, int) -> real, cAng: (int, int) -> real, nr: nat, nc: nat) returns (r: Grid)
    ensures Shaped(r, nr, nc)
    ensures forall i, j :: 0 <= i < nr && 0 <= j < nc ==> r[i][j] == FlipContour(waveD(i, j), cAng(i, j))
  {
    var c := Tabulate(nr, nc, cAng);
    r := Assign(c, nr, nc, (i, j) => Abs(waveD(i, j) - At(c, i, j)) > 0.5 * Pi, (i, j) => At(c, i, j) + Pi);
  }

  /** `transp = trig(waveD)`, overridden by `trig(cDir)` in the nearshore band. */
  method Banded(p: Params, t: Terrain, waveD: (int, int) -> real, cDir: Grid, trig: real -> real) returns (r: Grid)
    ensures Shaped(r, Rows(p), Cols(p))
    ensures forall i, j :: 0 <= i < Rows(p) && 0 <= j < Cols(p) ==>
      r[i][j] == if InBand(At(t.depth, i, j), p.wavebase) then trig(At(cDir, i, j)) else trig(waveD(i, j))
  {
    var nr, nc := Rows(p), Cols(p);
    r := Assign(Tabulate(nr, nc, (i, j) => trig(waveD(i, j))), nr, nc,
                (i, j) => InBand(At(t.depth, i, j), p.wavebase), (i, j) => trig(At(cDir, i, j)));
  }

  /** One sediment transport component: `trig(waveD)`, the flipped contour direction
      in the nearshore band, 0 on land. */
  method TransportStep(p: Params, t: Terrain, waveD: (int, int) -> real, cDir: Grid, cAng: (int, int) -> real,
                       trig: real -> real) returns (g: Grid)
    requires Shaped(cDir, Rows(p), Cols(p))
    requires forall i, j :: 0 <= i < Rows(p) && 0 <= j < Cols(p) ==> cDir[i][j] == FlipContour(waveD(i, j), cAng(i, j))
    ensures g == TransportField(p, t, waveD, cAng, trig)
  {
    var nr, nc := Rows(p), Cols(p);
    var b := Banded(p, t, waveD, cDir, trig);
    g := LandZeroed(b, t.land, nr, nc);
    forall i, j | 0 <= i < nr && 0 <= j < nc
      ensures g[i][j] == TransportField(p, t, waveD, cAng, trig)[i][j]
    {
      assert At(cDir, i, j) == cDir[i][j];
    }
    GridsEqual(g, TransportField(p, t, waveD, cAng, trig), nr, nc);
  }

  /** The wave direction from the filled copy of the travel times. */
  method DirectionsStep(p: Params, a: (int, int) -> AiryCell) returns (dirs: (int, int) -> real)
    requires Rows(p) > 0 && Cols(p) > 0
    ensures dirs == DirectionOf(p, a)
  {
    var filled := FillStep(TravelOf(p, a), Rows(p), Cols(p));
    dirs := p.k.travelDirection(filled);
  }

  /** Both transport components, sharing the flipped contour angle `cDir`. */
  method TransportPair(p: Params, t: Terrain, dirs: (int, int) -> real, cAng: (int, int) -> real)
    returns (tx: Grid, ty: Grid)
    ensures tx == TransportField(p, t, dirs, cAng, p.k.cos)
    ensures ty == TransportField(p, t, dirs, cAng, p.k.sin)
  {
    var cDir := Flipped(dirs, cAng, Rows(p), Cols(p));
    tx := TransportStep(p, t, dirs, cDir, cAng, p.k.cos);
    ty := TransportStep(p, t, dirs, cDir, cAng, p.k.sin);
  }

  /** The whole of `cmptwaves` on the terrain `t`. */
  method ComputeWaves(p: Params, t: Terrain, src: Grid, h0: real, sigma: real, shadow: int, shoalC: real)
    returns (w: WaveFields)
    requires Rows(p) > 0 && Cols(p) > 0 && p.resfac >= 1.0
    ensures w == WavesOf(p, t, src, h0, sigma, shadow, shoalC)
  {
    var a := AiryOf(p, t, src, h0, shadow, shoalC);
    var waveC, travel := CelerityOf(p, a), TravelOf(p, a);
    var waveH := HeightStep(p, t, RawHeightOf(p, a), sigma);
    var dirs := DirectionsStep(p, a);
    var waveP := PowerStep(p, t, a, waveH);
    var waveT := PeriodStep(p, t, a);
    var waveU := OrbitalStep(p, t, a, waveH);
    var waveS := ShearStep(p, t, a, waveH);
    var cAng := p.k.contourAngle(if p.resfac > 1.0 then t.sregZ else t.regZ);
    assert cAng == p.k.contourAngle(ActiveZ(p, t.regZ, t.sregZ));
    var tx, ty := TransportPair(p, t, dirs, cAng);
    var waveL := LengthStep(p, t, a);
    var waveD := DirectionStep(p, t, dirs);
    w := WaveFields(waveC, waveL, travel, waveH, waveD, waveP, waveT, waveU, waveS, tx, ty);
  }
}
