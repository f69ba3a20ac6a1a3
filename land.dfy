/** `findland`: depth below the sea level, the sea/land partition of the computation
    grid, and the `inland` mask with lakes (closed shoreline contours enclosing
    cells below sea level) turned into land. */
module Land {
  import opened Grids
  import opened Numerics
  import opened Outcomes
  import opened Shoreline
  import opened Setup

  /** The engine's terrain state: both elevation grids (`sregZ` is empty when the
      computation grid is the bathymetry grid), the sea level, and what `findland`
      derives from them. */
  datatype Terrain = Terrain(regZ: Grid, sregZ: Grid, sealvl: real,
                             depth: Grid, inland: Grid, sea: set<Cell>, land: set<Cell>)

  /** The grid `findland` and the wave computation work on. */
  function ActiveZ(p: Params, regZ: Grid, sregZ: Grid): Grid
  {
    if p.resfac == 1.0 then regZ else sregZ
  }

  /** `sealvl - Z` cell by cell. */
  function DepthOf(nr: nat, nc: nat, z: Grid, lvl: real): (d: Grid)
    ensures Shaped(d, nr, nc)
    ensures forall i, j :: 0 <= i < nr && 0 <= j < nc ==> d[i][j] == lvl - At(z, i, j)
  {
    Tabulate(nr, nc, (i, j) => lvl - At(z, i, j))
  }

  /** `np.where(depth > 0)` and `np.where(depth <= 0)`. */
  function SeaCells(d: Grid, nr: nat, nc: nat): set<Cell>
  {
    set i, j | 0 <= i < nr && 0 <= j < nc && At(d, i, j) > 0.0 :: (i, j)
  }

  function LandCells(d: Grid, nr: nat, nc: nat): set<Cell>
  {
    set i, j | 0 <= i < nr && 0 <= j < nc && At(d, i, j) <= 0.0 :: (i, j)
  }

  /** `inland = ones; inland[sea] = 0`. */
  function OpenWater(sea: set<Cell>, nr: nat, nc: nat): (g: Grid)
    ensures Shaped(g, nr, nc)
  {
    Tabulate(nr, nc, (i, j) => if (i, j) in sea then 0.0 else 1.0)
  }

  /** One iteration of the lake pass: a closed contour sets `inland` to 1 on the cells
      it encloses that lie below sea level; an open one changes nothing. */
  function LakeStep(k: Kernels, g: Grid, poly: Polyline, z: Grid, lvl: real, nr: nat, nc: nat): Grid
  {
    if IsClosed(poly) then
      Tabulate(nr, nc, (i, j) => if k.inside(poly, nr, nc)(i, j) && At(z, i, j) < lvl then 1.0 else At(g, i, j))
    else g
  }

  /** The lake pass over the kept contours, in order. */
  function LakePass(k: Kernels, g: Grid, xs: seq<Polyline>, z: Grid, lvl: real, nr: nat, nc: nat): Grid
  {
    if xs == [] then g
    else LakeStep(k, LakePass(k, g, xs[..|xs| - 1], z, lvl, nr, nc), xs[|xs| - 1], z, lvl, nr, nc)
  }

  /** Cell (i, j) is a lake cell: enclosed by a closed kept contour and below sea level. */
  predicate InLake(k: Kernels, xs: seq<Polyline>, z: Grid, lvl: real, nr: nat, nc: nat, i: int, j: int)
  {
    exists q :: 0 <= q < |xs| && IsClosed(xs[q]) && k.inside(xs[q], nr, nc)(i, j) && At(z, i, j) < lvl
  }

  /** What the lake pass computes, cell by cell: 1 on lake cells, the old value elsewhere. */
  lemma {:induction false} LakePassAt(k: Kernels, g: Grid, xs: seq<Polyline>, z: Grid, lvl: real, nr: nat, nc: nat)
    requires Shaped(g, nr, nc)
    ensures var r := LakePass(k, g, xs, z, lvl, nr, nc);
      Shaped(r, nr, nc) &&
      forall i, j :: 0 <= i < nr && 0 <= j < nc ==>
        r[i][j] == if InLake(k, xs, z, lvl, nr, nc, i, j) then 1.0 else g[i][j]
  {
    if xs != [] {
      var n := |xs| - 1;
      var pre := xs[..n];
      LakePassAt(k, g, pre, z, lvl, nr, nc);
      var r0 := LakePass(k, g, pre, z, lvl, nr, nc);
      var r := LakePass(k, g, xs, z, lvl, nr, nc);
      assert r == LakeStep(k, r0, xs[n], z, lvl, nr, nc);
      forall i, j | 0 <= i < nr && 0 <= j < nc
        ensures r[i][j] == if InLake(k, xs, z, lvl, nr, nc, i, j) then 1.0 else g[i][j]
      {
        var hit := IsClosed(xs[n]) && k.inside(xs[n], nr, nc)(i, j) && At(z, i, j) < lvl;
        if hit {
          assert InLake(k, xs, z, lvl, nr, nc, i, j);
        } else {
          assert r[i][j] == r0[i][j];
          if InLake(k, pre, z, lvl, nr, nc, i, j) {
            var q :| 0 <= q < |pre| && IsClosed(pre[q]) && k.inside(pre[q], nr, nc)(i, j) && At(z, i, j) < lvl;
            assert xs[q] == pre[q];
          }
          if InLake(k, xs, z, lvl, nr, nc, i, j) {
            var q :| 0 <= q < |xs| && IsClosed(xs[q]) && k.inside(xs[q], nr, nc)(i, j) && At(z, i, j) < lvl;
            assert q < n && pre[q] == xs[q];
          }
        }
      }
    }
  }

  /** The first half of `findland`: depth, the partition and the open-water mask. */
  function Partition(p: Params, regZ: Grid, sregZ: Grid, lvl: real): Terrain
  {
    var d := DepthOf(Rows(p), Cols(p), ActiveZ(p, regZ, sregZ), lvl);
    var sea := SeaCells(d, Rows(p), Cols(p));
    Terrain(regZ, sregZ, lvl, d, OpenWater(sea, Rows(p), Cols(p)), sea, LandCells(d, Rows(p), Cols(p)))
  }

  /** `findland(lvl)`: the partition, then the lake pass over the contours kept by
      `compute_shoreline(0.0)`, which traces the bathymetry grid. */
  function FindLandOf(p: Params, regZ: Grid, sregZ: Grid, lvl: real): Result<Terrain>
  {
    var t := Partition(p, regZ, sregZ, lvl);
    match ShorelineOf(p.k, p.k.contours(regZ, lvl), p.sdx, 0.0)
    case Failure(f) => Failure(f)
    case Success(r) =>
      Success(t.(inland := LakePass(p.k, t.inland, r.1, ActiveZ(p, regZ, sregZ), lvl, Rows(p), Cols(p))))
  }

  /** The sea and land cells partition the grid by the sign of the depth, and before
      the lake pass `inland` is 0 exactly on sea cells. */
  lemma PartitionIsExact(p: Params, regZ: Grid, sregZ: Grid, lvl: real)
    ensures var t := Partition(p, regZ, sregZ, lvl);
      && t.sea * t.land == {}
      && t.sea + t.land == AllCells(Rows(p), Cols(p))
      && Shaped(t.depth, Rows(p), Cols(p)) && Shaped(t.inland, Rows(p), Cols(p))
      && (forall i, j :: 0 <= i < Rows(p) && 0 <= j < Cols(p) ==>
            ((i, j) in t.sea <==> t.depth[i][j] > 0.0) && ((i, j) in t.land <==> t.depth[i][j] <= 0.0)
            && (t.inland[i][j] == 0.0 <==> (i, j) in t.sea)
            && (t.inland[i][j] == 0.0 || t.inland[i][j] == 1.0))
  {
    var t := Partition(p, regZ, sregZ, lvl);
    var nr, nc := Rows(p), Cols(p);
    forall c | c in t.sea + t.land ensures c in AllCells(nr, nc) {
    }
    forall c | c in AllCells(nr, nc) ensures c in t.sea + t.land {
      assert 0 <= c.0 < nr && 0 <= c.1 < nc;
    }
  }

  /** After `findland`, `inland` is 0 exactly on the sea cells that no lake contour
      encloses, and 1 everywhere else; so the lake pass only turns 0 into 1, and only
      on cells below sea level. */
  lemma FindLandInland(p: Params, regZ: Grid, sregZ: Grid, lvl: real)
    requires FindLandOf(p, regZ, sregZ, lvl).Success?
    ensures var t := FindLandOf(p, regZ, sregZ, lvl).value;
      var t0 := Partition(p, regZ, sregZ, lvl);
      var xs := ShorelineOf(p.k, p.k.contours(regZ, lvl), p.sdx, 0.0).value.1;
      var z := ActiveZ(p, regZ, sregZ);
      && Shaped(t.inland, Rows(p), Cols(p))
      && forall i, j :: 0 <= i < Rows(p) && 0 <= j < Cols(p) ==>
        && (t.inland[i][j] == 0.0 <==> (i, j) in t.sea && !InLake(p.k, xs, z, lvl, Rows(p), Cols(p), i, j))
        && (t.inland[i][j] == 0.0 || t.inland[i][j] == 1.0)
        && (t.inland[i][j] != t0.inland[i][j] ==> t0.inland[i][j] == 0.0 && t.inland[i][j] == 1.0 && At(z, i, j) < lvl)
  {
    var t0 := Partition(p, regZ, sregZ, lvl);
    var xs := ShorelineOf(p.k, p.k.contours(regZ, lvl), p.sdx, 0.0).value.1;
    PartitionIsExact(p, regZ, sregZ, lvl);
    LakePassAt(p.k, t0.inland, xs, ActiveZ(p, regZ, sregZ), lvl, Rows(p), Cols(p));
  }

  /** `findland` reads only the elevation grids and the level, and leaves the
      elevation grids as they were: running it again on its own result gives the same
      terrain. */
  lemma FindLandIdempotent(p: Params, regZ: Grid, sregZ: Grid, lvl: real)
    requires FindLandOf(p, regZ, sregZ, lvl).Success?
    ensures var t := FindLandOf(p, regZ, sregZ, lvl).value;
      t.regZ == regZ && t.sregZ == sregZ && t.sealvl == lvl &&
      FindLandOf(p, t.regZ, t.sregZ, t.sealvl) == Success(t)
  {
  }
}
