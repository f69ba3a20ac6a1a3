/** The `wave` class: the engine's state and its methods, each proved to leave the
    state that the grid-level definitions describe. Every field holds a grid value
    (numpy's `None` is the empty grid); the masked in-place assignments of the
    methods run on local arrays, in the step methods of `WaveOps` and `SedOps` and
    below. */
module Engine {
  import opened Grids
  import opened Arrays
  import opened Numerics
  import opened Outcomes
  import opened CellRules
  import opened VanRijn
  import opened Setup
  import opened Shoreline
  import opened Source
  import opened Land
  import opened Waves
  import opened Sediment
  import opened WaveOps
  import opened SedOps

  /** The attributes `cmptsed` and `interpolate` set besides the terrain and `waveS`. */
  datatype SedFields = SedFields(hent: Grid, dz: Grid, erodep: Grid, wS: Grid, wH: Grid)

  /** The engine. Its attributes are kept in three records, one per method that
      computes them: the terrain (`findland`, and the elevation update of `cmptsed`),
      the wave fields (`cmptwaves`, and the shear floor of `cmptsed`) and the
      sediment fields (`cmptsed`, `interpolate`). */
  class Wave {
    const kernels: Kernels
    const dx: real
    const nx: nat
    const ny: nat
    const resfac: real
    const sdx: real
    const snx: nat
    const sny: nat
    const wavebase: real
    const dia: real
    const ce: real
    const cd: real
    /** non-dimensional grain diameter and the Van Rijn critical shear stress */
    const ds: real
    const tauCr: real

    /** `regZ`, `sregZ`, `sealvl`, `depth`, `inland` and the sea/land cells */
    var terrain: Terrain
    /** `waveC` ... `transpY` */
    var waves: WaveFields
    /** `Hent`, `dz`, `erodep`, `wS`, `wH` */
    var sed: SedFields

    function Par(): Params
    {
      Params(kernels, dx, nx, ny, resfac, sdx, snx, sny, wavebase, dia, ce, cd, tauCr)
    }

    /** Shape of the computation grid. */
    function R(): nat { Rows(Par()) }
    function C(): nat { Cols(Par()) }

    ghost predicate Valid()
      reads this`terrain
    {
      && nx >= 1 && ny >= 1 && Shaped(terrain.regZ, nx, ny)
      && resfac >= 1.0
      && (resfac == 1.0 ==> terrain.sregZ == [])
      && (resfac > 1.0 ==> snx >= 1 && sny >= 1 && Shaped(terrain.sregZ, snx, sny))
    }

    /** `findland` has run: depth and inland exist on the computation grid. */
    ghost predicate LandFound()
      reads this`terrain
    {
      Shaped(terrain.depth, R(), C()) && Shaped(terrain.inland, R(), C())
    }

    /** `cmptwaves` has run: the fields `cmptsed` reads exist on the computation grid. */
    ghost predicate WavesReady()
      reads this`waves
    {
      Shaped(waves.waveH, R(), C()) && Shaped(waves.waveS, R(), C())
        && Shaped(waves.transpX, R(), C()) && Shaped(waves.transpY, R(), C())
    }

    /** `cmptsed` has run: the erosion/deposition `interpolate` projects exists on the
        computation grid. */
    ghost predicate SedComputed()
      reads this`sed
    {
      Shaped(sed.dz, R(), C())
    }

    /** Everything `cmptsed` leaves behind. */
    function SedNow(): SedOutcome
      reads this
    {
      SedOutcome(terrain, waves.waveS, sed.hent, sed.dz, sed.erodep, sed.wS, sed.wH)
    }

    /** The engine on a bathymetry grid (the file it is read from is not modelled);
        the coarse grid is the bathymetry resampled to `snx` by `sny` nodes. */
    constructor (k: Kernels, bathy: Grid, nx: nat, ny: nat, dx: real, wavebase: real, resfac: real,
                 dia: real, ce: real, cd: real, snx: nat, sny: nat)
      requires Shaped(bathy, nx, ny) && nx >= 1 && ny >= 1
      requires resfac > 1.0 ==> snx >= 1 && sny >= 1
      ensures Valid()
      ensures Par() == Configure(k, dx, nx, ny, resfac, snx, sny, wavebase, dia, ce, cd)
      ensures ds == NonDimensionalDiameter(k, dia) && tauCr == CriticalShear(k, ds)
      ensures terrain == Terrain(bathy, if resfac > 1.0 then Tabulate(snx, sny, k.resample(bathy, snx, sny)) else [],
                                 0.0, [], [], {}, {})
      ensures waves == WaveFields([], [], [], [], [], [], [], [], [], [], [])
      ensures sed == SedFields([], [], [], [], [])
    {
      kernels := k;
      this.dx := dx;
      this.nx := nx;
      this.ny := ny;
      this.wavebase := wavebase;
      this.dia := dia;
      this.ce := ce;
      this.cd := cd;
      this.snx := snx;
      this.sny := sny;
      var d := NonDimensionalDiameter(k, dia);
      ds := d;
      var tau := VanRijnShear(k, d);
      tauCr := tau;
      waves := WaveFields([], [], [], [], [], [], [], [], [], [], []);
      sed := SedFields([], [], [], [], []);
      if resfac <= 1.0 {
        this.resfac := 1.0;
        sdx := dx;
        terrain := Terrain(bathy, [], 0.0, [], [], {}, {});
      } else {
        this.resfac := resfac;
        sdx := dx * resfac;
        terrain := Terrain(bathy, Tabulate(snx, sny, k.resample(bathy, snx, sny)), 0.0, [], [], {}, {});
      }
    }

    /** `wavesource(dir)`: the boundary mask for a wave direction, land blocked. */
    method WaveSource(dir: real) returns (src: Grid)
      requires Valid()
      ensures src == SourceMask(dir, R(), C(), terrain.land)
    {
      var nr, nc, land := R(), C(), terrain.land;
      var a := new real[nr, nc]((i, j) => 0.0);
      forall i, j | 0 <= i < nr && 0 <= j < nc {
        a[i, j] := Blocked;
      }
      OpenBoundary(a, dir);
      forall i, j | 0 <= i < nr && 0 <= j < nc && (i, j) in land {
        a[i, j] := Blocked;
      }
      src := Cells(a);
      GridsEqual(src, SourceMask(dir, nr, nc, land), nr, nc);
    }

    /** `compute_shoreline(mlen)` on the bathymetry grid at the current sea level. */
    method ComputeShoreline(mlen: real) returns (r: Result<(seq<Point>, seq<Polyline>)>)
      ensures r == ShorelineOf(kernels, kernels.contours(terrain.regZ, terrain.sealvl), sdx, mlen)
    {
      r := ShorelineStep(kernels, terrain.regZ, terrain.sealvl, sdx, mlen);
    }

    /** `findland(lvl)`: record the sea level, derive depth, the sea/land partition and
        the open-water mask on the computation grid, then turn lakes into land. When
        `compute_shoreline` finds no contour the lake pass is never reached and the
        partition stays as it was set. Only the terrain changes. */
    method FindLand(lvl: real) returns (status: Status)
      requires Valid()
      modifies this`terrain
      ensures Valid() && LandFound()
      ensures var r := FindLandOf(Par(), old(terrain.regZ), old(terrain.sregZ), lvl);
        && (status == Done <==> r.Success?)
        && (r.Success? ==> terrain == r.value)
        && (r.Failure? ==> status == Stopped(r.error) && terrain == Partition(Par(), old(terrain.regZ), old(terrain.sregZ), lvl))
    {
      var t;
      status, t := FindLandStep(Par(), terrain.regZ, terrain.sregZ, lvl);
      terrain := t;
    }

    /** `cmptwaves(src, h0, sigma, shadow, shoalC)`: every wave field from the Airy
        kernel on the terrain `findland` has partitioned; only the wave fields change. */
    method CmptWaves(src: Grid, h0: real, sigma: real, shadow: int, shoalC: real)
      requires Valid() && LandFound()
      modifies this`waves
      ensures waves == WavesOf(Par(), old(terrain), src, h0, sigma, shadow, shoalC)
      ensures WavesReady()
    {
      var w := ComputeWaves(Par(), terrain, src, h0, sigma, shadow, shoalC);
      WavesShaped(Par(), terrain, src, h0, sigma, shadow, shoalC);
      waves := w;
    }

    /** `cmptsed(sigma, tsteps, dsteps)`: entrainment, transport, redistribution and
        the elevation update. The two non-finite cases of numpy (a zero diffusion
        coefficient, a zero smoothed total) stop the computation after `waveS` and
        `Hent` have been written. Nothing but `waveS` changes among the wave fields. */
    method CmptSed(sigma: real, tsteps: int, dsteps: int) returns (status: Status)
      requires Valid() && LandFound() && WavesReady()
      modifies this`terrain, this`waves, this`sed
      ensures Valid() && LandFound()
      ensures status == Done ==> WavesReady() && SedComputed()
      ensures var t, w := old(terrain), old(waves);
        var r := SedOf(Par(), t, w, sigma, tsteps, dsteps);
        var floored := FlooredShear(Par(), w.waveS);
        && waves == w.(waveS := floored)
        && (status == Done <==> r.Success?)
        && (r.Success? ==> SedNow() == r.value)
        && (r.Failure? ==>
              && status == Stopped(r.error) && terrain == t
              && sed == old(sed).(hent := HentOf(Par(), t, RawHent(Par(), t, floored), sigma)))
    {
      var w := waves;
      var floored, hent, r := SedStep(Par(), terrain, w, sigma, tsteps, dsteps);
      waves := w.(waveS := floored);
      if r.Failure? {
        sed := sed.(hent := hent);
        return Stopped(r.error);
      }
      var o := r.value;
      SedShapes(Par(), terrain, w, sigma, tsteps, dsteps);
      terrain := o.terrain;
      sed := SedFields(o.hent, o.dz, o.erodep, o.wS, o.wH);
      status := Done;
    }

    /** `interpolate()`: the erosion/deposition, wave height and shear projected to the
        bathymetry grid, and the bathymetry raised by the projected erosion/deposition.
        `CmptSed` reaches the same projection through `SedOps.InterpolateStep` on the
        values it has just computed; this method is `interpolate()` called on its own. */
    method Interpolate()
      requires Valid() && resfac > 1.0 && WavesReady() && SedComputed()
      modifies this`terrain, this`sed
      ensures Valid()
      ensures var q := InterpolateOf(Par(), old(terrain.regZ), old(terrain.sealvl), old(sed.dz), waves.waveH, waves.waveS);
        && terrain == old(terrain).(regZ := q.regZ)
        && sed == old(sed).(erodep := q.erodep, wH := q.wH, wS := q.wS)
    {
      var q := InterpolateStep(Par(), terrain.regZ, terrain.sealvl, sed.dz, waves.waveH, waves.waveS);
      terrain := terrain.(regZ := q.regZ);
      sed := sed.(erodep := q.erodep, wH := q.wH, wS := q.wS);
    }
  }

  /** `compute_shoreline(mlen)`: scale and flip every traced contour, then keep the
      closed-and-long or open contours among the first half, in order. */
  method ShorelineStep(k: Kernels, regZ: Grid, sealvl: real, sdx: real, mlen: real)
    returns (r: Result<(seq<Point>, seq<Polyline>)>)
    ensures r == ShorelineOf(k, k.contours(regZ, sealvl), sdx, mlen)
  {
    var contour := k.contours(regZ, sealvl);
    ghost var traced := contour;
    contour := ScaleContours(contour, sdx);
    var nseg := |contour| / 2;
    var contours := contour[..nseg];
    assert contours == Examined(traced, sdx);
    var contourList, contourPts, start := KeepContours(k, contours, mlen);
    if start {
      r := Failure(UnboundContourPts);
    } else {
      r := Success((contourPts, contourList));
    }
  }

  /** The body of `findland(lvl)` on the engine's elevation grids: the terrain it
      leaves, complete or stopped before the lake pass. */
  method FindLandStep(p: Params, regZ: Grid, sregZ: Grid, lvl: real) returns (status: Status, t: Terrain)
    ensures t.regZ == regZ && t.sregZ == sregZ
    ensures Shaped(t.depth, Rows(p), Cols(p)) && Shaped(t.inland, Rows(p), Cols(p))
    ensures var r := FindLandOf(p, regZ, sregZ, lvl);
      && (status == Done <==> r.Success?)
      && (r.Success? ==> t == r.value)
      && (r.Failure? ==> status == Stopped(r.error) && t == Partition(p, regZ, sregZ, lvl))
  {
    var tmpZ := if p.resfac == 1.0 then regZ else sregZ;
    var nr, nc := Rows(p), Cols(p);
    var depth := DepthOf(nr, nc, tmpZ, lvl);
    var sea := SeaCells(depth, nr, nc);
    var inl := OpenWaterMask(sea, nr, nc);
    var land := LandCells(depth, nr, nc);
    t := Terrain(regZ, sregZ, lvl, depth, Cells(inl), sea, land);
    var xy := ShorelineStep(p.k, regZ, lvl, p.sdx, 0.0);
    if xy.Failure? {
      return Stopped(xy.error), t;
    }
    LakePassOver(p.k, inl, xy.value.1, tmpZ, lvl);
    t := t.(inland := Cells(inl));
    status := Done;
  }

  /** The first loop of `compute_shoreline`: every traced contour scaled and flipped in place. */
  method ScaleContours(traced: seq<Polyline>, sdx: real) returns (contour: seq<Polyline>)
    ensures contour == ScaleAll(traced, sdx)
  {
    contour := traced;
    var c := 0;
    while c < |contour|
      invariant 0 <= c <= |contour| == |traced|
      invariant forall q :: 0 <= q < c ==> contour[q] == ScaleFlip(traced[q], sdx)
      invariant forall q :: c <= q < |contour| ==> contour[q] == traced[q]
    {
      contour := contour[c := ScaleFlip(contour[c], sdx)];
      c := c + 1;
    }
  }

  /** The body of the second loop on one contour: closed ones get their first vertex
      appended and are measured, open ones get the open length. */
  method PrepareContour(k: Kernels, tmpts: Polyline) returns (cpts: Polyline, lgth: real)
    ensures Measured(cpts, lgth) == Measure(k, tmpts)
  {
    var closed := tmpts[0] == tmpts[|tmpts| - 1];
    if closed {
      cpts := tmpts + [tmpts[0]];
      lgth := PathLength(k, cpts);
    } else {
      lgth := OpenLength;
      cpts := tmpts;
    }
  }

  /** The second loop of `compute_shoreline`: the kept contours in order, their
      concatenation, and whether none was kept (`start` still set). */
  method KeepContours(k: Kernels, contours: seq<Polyline>, mlen: real)
    returns (contourList: seq<Polyline>, contourPts: seq<Point>, start: bool)
    ensures contourList == KeptContours(k, contours, mlen)
    ensures start <==> contourList == []
    ensures !start ==> contourPts == Concat(contourList)
  {
    contourList, contourPts, start := [], [], true;
    var c := 0;
    while c < |contours|
      invariant 0 <= c <= |contours|
      invariant contourList == KeptContours(k, contours[..c], mlen)
      invariant start <==> contourList == []
      invariant !start ==> contourPts == Concat(contourList)
    {
      var cpts, lgth := PrepareContour(k, contours[c]);
      KeptContoursStep(k, contours, c, mlen);
      if |cpts| > 2 && lgth > mlen {
        ConcatStep(contourList, cpts);
        contourList := contourList + [cpts];
        if start {
          contourPts := cpts;
          start := false;
        } else {
          contourPts := contourPts + cpts;
        }
      }
      c := c + 1;
    }
    assert contours[..|contours|] == contours;
  }

  lemma KeptContoursStep(k: Kernels, cs: seq<Polyline>, c: nat, mlen: real)
    requires c < |cs|
    ensures KeptContours(k, cs[..c + 1], mlen) ==
      KeptContours(k, cs[..c], mlen) + (if Kept(k, cs[c], mlen) then [Measure(k, cs[c]).pts] else [])
  {
    assert cs[..c + 1][..c] == cs[..c];
  }

  lemma ConcatStep(ps: seq<Polyline>, p: Polyline)
    ensures Concat(ps + [p]) == Concat(ps) + p
    ensures ps == [] ==> Concat(ps + [p]) == p
  {
    assert (ps + [p])[..|ps|] == ps;
  }

  /** The direction branches of `wavesource` on a mask filled with -2. */
  method OpenBoundary(src: array2<real>, dir: real)
    requires src.Length0 > 0 && src.Length1 > 0
    requires forall i, j :: 0 <= i < src.Length0 && 0 <= j < src.Length1 ==> src[i, j] == Blocked
    modifies src
    ensures forall i, j :: 0 <= i < src.Length0 && 0 <= j < src.Length1 ==>
      src[i, j] == if OnSourceBoundary(dir, src.Length0, src.Length1, i, j) then Open else Blocked
  {
    var nr, nc := src.Length0, src.Length1;
    if dir == 0.0 {
      var last := nr - 1;
      forall j | 0 <= j < nc { src[last, j] := Open; }
    } else if dir == 90.0 {
      var last := nc - 1;
      forall i | 0 <= i < nr { src[i, last] := Open; }
    } else if dir == 180.0 {
      forall j | 0 <= j < nc { src[0, j] := Open; }
    } else if dir == 270.0 {
      forall i | 0 <= i < nr { src[i, 0] := Open; }
    } else if 0.0 < dir < 90.0 {
      src[nr - 1, nc - 1] := Open;
    } else if 90.0 < dir < 180.0 {
      src[0, nc - 1] := Open;
    } else if 180.0 < dir < 270.0 {
      src[0, 0] := Open;
    } else if dir > 270.0 {
      src[nr - 1, 0] := Open;
    }
  }

  /** The constructor's Van Rijn branches: the critical shear is the table's entry
      for the diameter's regime. */
  method VanRijnShear(k: Kernels, d: real) returns (tauCr: real)
    ensures tauCr == CriticalShear(k, d) == LookupShear(k, Bands, d)
  {
    if d <= 4.0 {
      tauCr := 0.24 * k.power(d, -1.0);
    } else if d <= 10.0 {
      tauCr := 0.14 * k.power(d, -0.64);
    } else if d <= 20.0 {
      tauCr := 0.04 * k.power(d, -0.1);
    } else if d <= 150.0 {
      tauCr := 0.013 * k.power(d, 0.29);
    } else {
      tauCr := 0.045;
    }
    CriticalShearIsTableLookup(k, d);
  }

  /** `inland = np.ones(shape); inland[sear, seac] = 0`. */
  method OpenWaterMask(sea: set<Cell>, nr: nat, nc: nat) returns (inl: array2<real>)
    ensures fresh(inl) && inl.Length0 == nr && inl.Length1 == nc
    ensures Cells(inl) == OpenWater(sea, nr, nc)
  {
    inl := new real[nr, nc]((i, j) => 1.0);
    forall i, j | 0 <= i < nr && 0 <= j < nc && (i, j) in sea {
      inl[i, j] := 0.0;
    }
    GridsEqual(Cells(inl), OpenWater(sea, nr, nc), nr, nc);
  }

  /** The lake loop of `findland`: every closed contour sets `inland` to 1 on the
      cells it encloses that lie below sea level. */
  method LakePassOver(k: Kernels, inl: array2<real>, xylist: seq<Polyline>, tmpZ: Grid, lvl: real)
    modifies inl
    ensures Cells(inl) == LakePass(k, old(Cells(inl)), xylist, tmpZ, lvl, inl.Length0, inl.Length1)
  {
    ghost var g := Cells(inl);
    var q := 0;
    while q < |xylist|
      invariant 0 <= q <= |xylist|
      invariant Cells(inl) == LakePass(k, g, xylist[..q], tmpZ, lvl, inl.Length0, inl.Length1)
    {
      assert xylist[..q + 1][..q] == xylist[..q];
      MarkLake(k, inl, xylist[q], tmpZ, lvl);
      q := q + 1;
    }
    assert xylist[..|xylist|] == xylist;
  }

  /** One iteration of the lake loop. */
  method MarkLake(k: Kernels, inl: array2<real>, poly: Polyline, tmpZ: Grid, lvl: real)
    modifies inl
    ensures Cells(inl) == LakeStep(k, old(Cells(inl)), poly, tmpZ, lvl, inl.Length0, inl.Length1)
  {
    var nr, nc := inl.Length0, inl.Length1;
    if poly[0].x == poly[|poly| - 1].x && poly[0].y == poly[|poly| - 1].y {
      var ar := k.inside(poly, nr, nc);
      ghost var g := Cells(inl);
      forall i, j | 0 <= i < nr && 0 <= j < nc && ar(i, j) && At(tmpZ, i, j) < lvl {
        inl[i, j] := 1.0;
      }
      GridsEqual(Cells(inl), LakeStep(k, g, poly, tmpZ, lvl, nr, nc), nr, nc);
    }
  }
}
