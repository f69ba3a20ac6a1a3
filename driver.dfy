/** `runWaveSed`: build the engine, find the land at the given sea level, then run the
    wave scenarios one after the other on the evolving terrain, accumulating the
    percentage-weighted fine wave height, shear stress and erosion/deposition. */
module Driver {
  import opened Grids
  import opened Numerics
  import opened Outcomes
  import opened Setup
  import opened Source
  import opened Land
  import opened Waves
  import opened Sediment
  import opened Engine

  /** `avewH`, `avewS`, `avedz`. */
  datatype Averages = Averages(wH: Grid, wS: Grid, dz: Grid)

  /** What a successful run leaves: the averages and the terrain of the engine it returns. */
  datatype Run = Run(averages: Averages, terrain: Terrain)

  /** One scenario on a terrain, for a direction and a deep-water wave height. */
  type Step = (Terrain, real, real) -> Result<SedOutcome>

  /** The scenario of `runWaveSed`: the source mask of the direction, `cmptwaves` with
      the height and `sigma = 1` (the defaults `shadow = 0`, `shoalC = 0.99`), then
      `cmptsed` with `sigma = 1`. */
  function ScenarioOf(p: Params, t: Terrain, dir: real, h0: real, tsteps: int, dsteps: int): Result<SedOutcome>
    requires Rows(p) > 0 && Cols(p) > 0
  {
    SedOf(p, t, WavesOf(p, t, SourceMask(dir, Rows(p), Cols(p), t.land), h0, 1.0, 0, 0.99), 1.0, tsteps, dsteps)
  }

  function Scenario(p: Params, tsteps: int, dsteps: int): Step
    requires Rows(p) > 0 && Cols(p) > 0
  {
    (t: Terrain, d: real, h: real) => ScenarioOf(p, t, d, h, tsteps, dsteps)
  }

  /** The outcomes of scenarios `s`, `s + 1`, ... of the forcing lists, each run on the
      terrain the previous one left. A scenario past the end of `perc` or `dir` is an
      index error; the first failing scenario ends the run. */
  function Scenarios(step: Step, t: Terrain, H0: seq<real>, dir: seq<real>, perc: seq<real>, s: nat)
    : Result<seq<SedOutcome>>
    decreases |H0| - s, 1
  {
    if s >= |H0| then Success([])
    else if s >= |perc| || s >= |dir| then Failure(IndexOutOfRange)
    else Continue(step, t, H0, dir, perc, s)
  }

  /** Scenario `s` on `t`, followed by the rest on the terrain it leaves. */
  function Continue(step: Step, t: Terrain, H0: seq<real>, dir: seq<real>, perc: seq<real>, s: nat)
    : Result<seq<SedOutcome>>
    requires s < |H0| && s < |dir|
    decreases |H0| - s, 0
  {
    match step(t, dir[s], H0[s])
    case Failure(f) => Failure(f)
    case Success(o) => Then([o], Scenarios(step, o.terrain, H0, dir, perc, s + 1))
  }

  /** `done` followed by the outcomes of `r`, or the failure of `r`. */
  function Then(done: seq<SedOutcome>, r: Result<seq<SedOutcome>>): (q: Result<seq<SedOutcome>>)
    ensures q.Success? <==> r.Success?
    ensures r.Success? ==> q.value == done + r.value
    ensures r.Failure? ==> q.error == r.error
  {
    match r
    case Failure(f) => Failure(f)
    case Success(os) => Success(done + os)
  }

  /** numpy's running sum: `ave = field * frac` for the first scenario and
      `ave += field * frac` for every later one. */
  function Fold(fields: seq<Grid>, fracs: seq<real>): Grid
    requires |fields| == |fracs|
    decreases |fields|
  {
    if |fields| == 0 then []
    else if |fields| == 1 then Scale(fields[0], fracs[0])
    else Add(Fold(fields[..|fields| - 1], fracs[..|fracs| - 1]), Scale(fields[|fields| - 1], fracs[|fracs| - 1]))
  }

  /** The reference definition of a cell of the averages: `sum_s fracs[s] * fields[s][i][j]`. */
  function WeightedSum(fields: seq<Grid>, fracs: seq<real>, i: int, j: int): real
    requires |fields| == |fracs|
    decreases |fields|
  {
    if |fields| == 0 then 0.0
    else WeightedSum(fields[..|fields| - 1], fracs[..|fracs| - 1], i, j) + fracs[|fracs| - 1] * At(fields[|fields| - 1], i, j)
  }

  function Total(fracs: seq<real>): real
    decreases |fracs|
  {
    if |fracs| == 0 then 0.0 else Total(fracs[..|fracs| - 1]) + fracs[|fracs| - 1]
  }

  /** `frac = perc[s] / 100.0` for the first `n` scenarios. */
  function Fractions(perc: seq<real>, n: nat): (f: seq<real>)
    requires n <= |perc|
    ensures |f| == n && forall s :: 0 <= s < n ==> f[s] == perc[s] / 100.0
  {
    seq(n, s requires 0 <= s < n => perc[s] / 100.0)
  }

  function HeightsOf(os: seq<SedOutcome>): seq<Grid>
  {
    seq(|os|, s requires 0 <= s < |os| => os[s].wH)
  }

  function ShearsOf(os: seq<SedOutcome>): seq<Grid>
  {
    seq(|os|, s requires 0 <= s < |os| => os[s].wS)
  }

  function ErodepsOf(os: seq<SedOutcome>): seq<Grid>
  {
    seq(|os|, s requires 0 <= s < |os| => os[s].erodep)
  }

  /** The three accumulators after the scenarios `os`. */
  function AveragesOf(os: seq<SedOutcome>, perc: seq<real>): Averages
    requires |os| <= |perc|
  {
    var f := Fractions(perc, |os|);
    Averages(Fold(HeightsOf(os), f), Fold(ShearsOf(os), f), Fold(ErodepsOf(os), f))
  }

  /** The configuration `runWaveSed` gives the engine (`Ce = 1`, `Cd = 30`). */
  function RunParams(k: Kernels, nx: nat, ny: nat, dx: real, rfac: real, wbase: real, d50: real,
                     snx: nat, sny: nat): Params
  {
    Configure(k, dx, nx, ny, rfac, snx, sny, wbase, d50, 1.0, 30.0)
  }

  /** The scenarios and the averages on the terrain `findland` left; an empty `H0`
      leaves the accumulators unbound. */
  function RunFrom(p: Params, t: Terrain, H0: seq<real>, dir: seq<real>, perc: seq<real>,
                   tsteps: int, dsteps: int): Result<Run>
    requires Rows(p) > 0 && Cols(p) > 0
  {
    var step := Scenario(p, tsteps, dsteps);
    match Scenarios(step, t, H0, dir, perc, 0)
    case Failure(f) => Failure(f)
    case Success(os) =>
      ScenariosLength(step, t, H0, dir, perc, 0);
      if |os| == 0 then Failure(UnboundAccumulators)
      else Success(Run(AveragesOf(os, perc), os[|os| - 1].terrain))
  }

  /** `runWaveSed`: `findland(slvl)` on the constructed engine, then the scenarios. */
  function RunOf(k: Kernels, bathy: Grid, nx: nat, ny: nat, dx: real, rfac: real, H0: seq<real>,
                 dir: seq<real>, perc: seq<real>, wbase: real, slvl: real, d50: real,
                 tsteps: int, dsteps: int, snx: nat, sny: nat): Result<Run>
    requires nx >= 1 && ny >= 1 && (rfac > 1.0 ==> snx >= 1 && sny >= 1)
  {
    var p := RunParams(k, nx, ny, dx, rfac, wbase, d50, snx, sny);
    var sz := if rfac > 1.0 then Tabulate(snx, sny, k.resample(bathy, snx, sny)) else [];
    match FindLandOf(p, bathy, sz, slvl)
    case Failure(f) => Failure(f)
    case Success(t) => RunFrom(p, t, H0, dir, perc, tsteps, dsteps)
  }

  /** A successful run of the scenarios from `s` has one outcome per remaining
      height, and then the direction and percentage lists cover every height. */
  lemma {:induction false} ScenariosLength(step: Step, t: Terrain, H0: seq<real>, dir: seq<real>, perc: seq<real>, s: nat)
    ensures var r := Scenarios(step, t, H0, dir, perc, s);
      r.Success? ==> |r.value| == (if s <= |H0| then |H0| - s else 0) && (s < |H0| ==> |H0| <= |perc| && |H0| <= |dir|)
    decreases |H0| - s
  {
    if s < |H0| && s < |perc| && s < |dir| {
      var o := step(t, dir[s], H0[s]);
      if o.Success? {
        ScenariosLength(step, o.value.terrain, H0, dir, perc, s + 1);
      }
    }
  }

  /** The terrain carries over: every scenario of a successful run is computed on the
      terrain the one before it left (the first on `t`), with its own forcing. */
  lemma {:induction false} ScenariosChain(step: Step, t: Terrain, H0: seq<real>, dir: seq<real>, perc: seq<real>, s: nat)
    requires s <= |H0| && Scenarios(step, t, H0, dir, perc, s).Success?
    ensures var os := Scenarios(step, t, H0, dir, perc, s).value;
      |os| == |H0| - s &&
      forall k :: 0 <= k < |os| ==> s + k < |dir| && step(Before(t, os, k), dir[s + k], H0[s + k]) == Success(os[k])
    decreases |H0| - s
  {
    ScenariosLength(step, t, H0, dir, perc, s);
    if s < |H0| {
      var o := step(t, dir[s], H0[s]).value;
      var rest := Scenarios(step, o.terrain, H0, dir, perc, s + 1);
      ScenariosChain(step, o.terrain, H0, dir, perc, s + 1);
      var os := Scenarios(step, t, H0, dir, perc, s).value;
      assert os == [o] + rest.value;
      forall k | 0 <= k < |os|
        ensures s + k < |dir| && step(Before(t, os, k), dir[s + k], H0[s + k]) == Success(os[k])
      {
        if k > 0 {
          assert os[k] == rest.value[k - 1];
          assert Before(t, os, k) == Before(o.terrain, rest.value, k - 1);
        }
      }
    }
  }

  /** The terrain scenario `k` of `os` starts from. */
  function Before(t: Terrain, os: seq<SedOutcome>, k: int): Terrain
    requires k < |os| + 1
  {
    if k <= 0 then t else os[k - 1].terrain
  }

  /** The first scenario of a run past the end of `perc` or `dir` is an index error. */
  lemma MissingForcing(step: Step, t: Terrain, H0: seq<real>, dir: seq<real>, perc: seq<real>, s: nat)
    requires s < |H0| && (s >= |perc| || s >= |dir|)
    ensures Scenarios(step, t, H0, dir, perc, s) == Failure(IndexOutOfRange)
  {
  }

  /** The fine fields a successful scenario leaves are on the bathymetry grid. */
  ghost predicate OnGrid(o: SedOutcome, nr: nat, nc: nat)
  {
    Shaped(o.wH, nr, nc) && Shaped(o.wS, nr, nc) && Shaped(o.erodep, nr, nc)
  }

  lemma ScenarioOnGrid(p: Params, t: Terrain, dir: real, h0: real, tsteps: int, dsteps: int)
    requires Rows(p) > 0 && Cols(p) > 0
    ensures var r := ScenarioOf(p, t, dir, h0, tsteps, dsteps);
      r.Success? ==> OnGrid(r.value, p.nr, p.nc)
  {
    var src := SourceMask(dir, Rows(p), Cols(p), t.land);
    WavesShaped(p, t, src, h0, 1.0, 0, 0.99);
    var w := WavesOf(p, t, src, h0, 1.0, 0, 0.99);
    if SedOf(p, t, w, 1.0, tsteps, dsteps).Success? {
      SedShapes(p, t, w, 1.0, tsteps, dsteps);
    }
  }

  lemma {:induction false} ScenariosOnGrid(step: Step, t: Terrain, H0: seq<real>, dir: seq<real>, perc: seq<real>,
                                           s: nat, nr: nat, nc: nat)
    requires forall t, d, h :: step(t, d, h).Success? ==> OnGrid(step(t, d, h).value, nr, nc)
    requires Scenarios(step, t, H0, dir, perc, s).Success?
    ensures var os := Scenarios(step, t, H0, dir, perc, s).value;
      forall k :: 0 <= k < |os| ==> OnGrid(os[k], nr, nc)
    decreases |H0| - s
  {
    if s < |H0| {
      var o := step(t, dir[s], H0[s]).value;
      ScenariosOnGrid(step, o.terrain, H0, dir, perc, s + 1, nr, nc);
    }
  }

  /** The running sum is the weighted sum of the fields, cell by cell, on the grid of
      the fields. */
  lemma {:induction false} FoldIsWeightedSum(fields: seq<Grid>, fracs: seq<real>, nr: nat, nc: nat)
    requires |fields| == |fracs| > 0
    requires forall s :: 0 <= s < |fields| ==> Shaped(fields[s], nr, nc)
    ensures Shaped(Fold(fields, fracs), nr, nc)
    ensures forall i, j :: 0 <= i < nr && 0 <= j < nc ==> Fold(fields, fracs)[i][j] == WeightedSum(fields, fracs, i, j)
    decreases |fields|
  {
    var n := |fields|;
    var last := Scale(fields[n - 1], fracs[n - 1]);
    if n == 1 {
      forall i, j | 0 <= i < nr && 0 <= j < nc
        ensures Fold(fields, fracs)[i][j] == WeightedSum(fields, fracs, i, j)
      {
        assert WeightedSum(fields[..0], fracs[..0], i, j) == 0.0;
      }
    } else {
      var pre, pfr := fields[..n - 1], fracs[..n - 1];
      FoldIsWeightedSum(pre, pfr, nr, nc);
      forall i, j | 0 <= i < nr && 0 <= j < nc
        ensures Fold(fields, fracs)[i][j] == WeightedSum(fields, fracs, i, j)
      {
        assert Fold(fields, fracs)[i][j] == Fold(pre, pfr)[i][j] + At(last, i, j);
      }
    }
  }

  /** The percentages are not normalised: scenarios that all leave the same value in a
      cell average to that value times the sum of their fractions. */
  lemma {:induction false} WeightedSumOfEqual(fields: seq<Grid>, fracs: seq<real>, i: int, j: int, v: real)
    requires |fields| == |fracs|
    requires forall s :: 0 <= s < |fields| ==> At(fields[s], i, j) == v
    ensures WeightedSum(fields, fracs, i, j) == Total(fracs) * v
    decreases |fields|
  {
    if |fields| > 0 {
      var n := |fields|;
      WeightedSumOfEqual(fields[..n - 1], fracs[..n - 1], i, j, v);
      assert At(fields[n - 1], i, j) == v;
    }
  }

  /** Every outcome of a successful run of generic scenarios whose own outcomes are on
      the grid gives averages that are cell by cell the weighted sums of the outcomes. */
  lemma ScenariosWeightedSums(step: Step, t: Terrain, H0: seq<real>, dir: seq<real>, perc: seq<real>, nr: nat, nc: nat)
    requires forall t, d, h :: step(t, d, h).Success? ==> OnGrid(step(t, d, h).value, nr, nc)
    requires Scenarios(step, t, H0, dir, perc, 0).Success? && |H0| > 0
    ensures var os := Scenarios(step, t, H0, dir, perc, 0).value;
      && |os| == |H0| <= |perc|
      && var f, a := Fractions(perc, |os|), AveragesOf(os, perc);
      && Shaped(a.wH, nr, nc) && Shaped(a.wS, nr, nc) && Shaped(a.dz, nr, nc)
      && forall i, j :: 0 <= i < nr && 0 <= j < nc ==>
           && a.wH[i][j] == WeightedSum(HeightsOf(os), f, i, j)
           && a.wS[i][j] == WeightedSum(ShearsOf(os), f, i, j)
           && a.dz[i][j] == WeightedSum(ErodepsOf(os), f, i, j)
  {
    ScenariosLength(step, t, H0, dir, perc, 0);
    ScenariosOnGrid(step, t, H0, dir, perc, 0, nr, nc);
    var os := Scenarios(step, t, H0, dir, perc, 0).value;
    var f := Fractions(perc, |os|);
    FoldIsWeightedSum(HeightsOf(os), f, nr, nc);
    FoldIsWeightedSum(ShearsOf(os), f, nr, nc);
    FoldIsWeightedSum(ErodepsOf(os), f, nr, nc);
  }

  /** Every successful scenario of `runWaveSed` leaves its fine fields on the grid. */
  lemma ScenarioStepOnGrid(p: Params, tsteps: int, dsteps: int)
    requires Rows(p) > 0 && Cols(p) > 0
    ensures var step := Scenario(p, tsteps, dsteps);
      forall t, d, h :: step(t, d, h).Success? ==> OnGrid(step(t, d, h).value, p.nr, p.nc)
  {
    forall t, d, h | Scenario(p, tsteps, dsteps)(t, d, h).Success?
      ensures OnGrid(Scenario(p, tsteps, dsteps)(t, d, h).value, p.nr, p.nc)
    {
      ScenarioIs(p, tsteps, dsteps, t, d, h);
      ScenarioOnGrid(p, t, d, h, tsteps, dsteps);
    }
  }

  /** On a successful run every cell of the averages on the bathymetry grid is the
      percentage-weighted sum over the scenarios of what each left in that cell. */
  lemma AveragesAreWeightedSums(p: Params, t: Terrain, H0: seq<real>, dir: seq<real>, perc: seq<real>,
                                tsteps: int, dsteps: int)
    requires Rows(p) > 0 && Cols(p) > 0
    requires RunFrom(p, t, H0, dir, perc, tsteps, dsteps).Success?
    ensures var os := Scenarios(Scenario(p, tsteps, dsteps), t, H0, dir, perc, 0).value;
      var a := RunFrom(p, t, H0, dir, perc, tsteps, dsteps).value.averages;
      && |os| == |H0| > 0 && |H0| <= |perc|
      && var f := Fractions(perc, |H0|);
      && Shaped(a.wH, p.nr, p.nc) && Shaped(a.wS, p.nr, p.nc) && Shaped(a.dz, p.nr, p.nc)
      && forall i, j :: 0 <= i < p.nr && 0 <= j < p.nc ==>
           && a.wH[i][j] == WeightedSum(HeightsOf(os), f, i, j)
           && a.wS[i][j] == WeightedSum(ShearsOf(os), f, i, j)
           && a.dz[i][j] == WeightedSum(ErodepsOf(os), f, i, j)
  {
    var step := Scenario(p, tsteps, dsteps);
    ScenariosLength(step, t, H0, dir, perc, 0);
    ScenarioStepOnGrid(p, tsteps, dsteps);
    ScenariosWeightedSums(step, t, H0, dir, perc, p.nr, p.nc);
  }

  /** One scenario of `runWaveSed` on the engine `wv`: `wavesource`, `cmptwaves` and
      `cmptsed` on the current terrain. */
  method RunScenario(wv: Wave, dir: real, h0: real, tsteps: int, dsteps: int, ghost step: Step) returns (status: Status)
    requires wv.Valid() && wv.LandFound() && step == Scenario(wv.Par(), tsteps, dsteps)
    modifies wv`terrain, wv`waves, wv`sed
    ensures wv.Valid() && wv.LandFound()
    ensures var r := step(old(wv.terrain), dir, h0);
      && (status == Done <==> r.Success?)
      && (r.Success? ==> wv.SedNow() == r.value)
      && (r.Failure? ==> status == Stopped(r.error))
  {
    ghost var p, t := wv.Par(), wv.terrain;
    status := ScenarioOn(wv, dir, h0, tsteps, dsteps);
    ScenarioIs(p, tsteps, dsteps, t, dir, h0);
  }

  /** The same scenario, stated with the functions of the scenario's two stages. */
  method ScenarioOn(wv: Wave, dir: real, h0: real, tsteps: int, dsteps: int) returns (status: Status)
    requires wv.Valid() && wv.LandFound()
    modifies wv`terrain, wv`waves, wv`sed
    ensures wv.Valid() && wv.LandFound()
    ensures var r := ScenarioOf(wv.Par(), old(wv.terrain), dir, h0, tsteps, dsteps);
      && (status == Done <==> r.Success?)
      && (r.Success? ==> wv.SedNow() == r.value)
      && (r.Failure? ==> status == Stopped(r.error))
  {
    ghost var p, t := wv.Par(), wv.terrain;
    var src := wv.WaveSource(dir);
    assert src == SourceMask(dir, Rows(p), Cols(p), t.land);
    wv.CmptWaves(src, h0, 1.0, 0, 0.99);
    status := wv.CmptSed(1.0, tsteps, dsteps);
  }

  lemma ScenarioIs(p: Params, tsteps: int, dsteps: int, t: Terrain, d: real, h: real)
    requires Rows(p) > 0 && Cols(p) > 0
    ensures Scenario(p, tsteps, dsteps)(t, d, h) == ScenarioOf(p, t, d, h, tsteps, dsteps)
  {
  }

  /** The run from `t0` so far: the outcomes `done`, after which scenario `s` starts
      on `t`. */
  ghost predicate Progress(step: Step, t0: Terrain, H0: seq<real>, dir: seq<real>, perc: seq<real>,
                           done: seq<SedOutcome>, t: Terrain, s: nat)
  {
    Scenarios(step, t0, H0, dir, perc, 0) == Then(done, Scenarios(step, t, H0, dir, perc, s))
  }

  /** The run from `t0` stops with `f`. */
  ghost predicate Stops(step: Step, t0: Terrain, H0: seq<real>, dir: seq<real>, perc: seq<real>, f: Fault)
  {
    Scenarios(step, t0, H0, dir, perc, 0) == Failure(f)
  }

  /** Scenario `s` of the loop of `runWaveSed`, as a step of the run from `t0`. */
  method Advance(wv: Wave, H0: seq<real>, dir: seq<real>, perc: seq<real>, tsteps: int, dsteps: int, s: nat,
                 ghost done: seq<SedOutcome>, ghost t0: Terrain, ghost step: Step)
    returns (status: Status)
    requires wv.Valid() && wv.LandFound() && step == Scenario(wv.Par(), tsteps, dsteps)
    requires s < |H0| && s < |perc| && s < |dir|
    requires Progress(step, t0, H0, dir, perc, done, wv.terrain, s)
    modifies wv`terrain, wv`waves, wv`sed
    ensures wv.Valid() && wv.LandFound()
    ensures status.Stopped? ==> Stops(step, t0, H0, dir, perc, status.fault)
    ensures status == Done ==> Progress(step, t0, H0, dir, perc, done + [wv.SedNow()], wv.terrain, s + 1)
  {
    ghost var t := wv.terrain;
    status := RunScenario(wv, dir[s], H0[s], tsteps, dsteps, step);
    ChainAdvances(step, t0, t, H0, dir, perc, done, s);
  }

  /** One pass of the loop of `runWaveSed`: the forcing of scenario `s`, the scenario,
      then the running sums. */
  method Round(wv: Wave, H0: seq<real>, dir: seq<real>, perc: seq<real>, tsteps: int, dsteps: int, s: nat,
               avg: Averages, ghost done: seq<SedOutcome>, ghost t0: Terrain, ghost step: Step)
    returns (status: Status, next: Averages)
    requires wv.Valid() && wv.LandFound() && step == Scenario(wv.Par(), tsteps, dsteps)
    requires s < |H0| && s <= |perc| && |done| == s
    requires Progress(step, t0, H0, dir, perc, done, wv.terrain, s)
    requires s > 0 ==> avg == AveragesOf(done, perc)
    modifies wv`terrain, wv`waves, wv`sed
    ensures wv.Valid() && wv.LandFound()
    ensures status.Stopped? ==> Stops(step, t0, H0, dir, perc, status.fault)
    ensures status == Done ==>
      && s < |perc|
      && Progress(step, t0, H0, dir, perc, done + [wv.SedNow()], wv.terrain, s + 1)
      && next == AveragesOf(done + [wv.SedNow()], perc)
  {
    if s >= |perc| || s >= |dir| {
      ForcingMissing(step, t0, wv.terrain, H0, dir, perc, done, s);
      return Stopped(IndexOutOfRange), avg;
    }
    var frac := perc[s] / 100.0;
    status := Advance(wv, H0, dir, perc, tsteps, dsteps, s, done, t0, step);
    if status.Stopped? {
      return status, avg;
    }
    var o := wv.SedNow();
    next := Accumulate(avg, o, frac, s == 0, done, perc);
  }

  /** A scenario without its direction or percentage ends the run with an index error. */
  lemma ForcingMissing(step: Step, t0: Terrain, t: Terrain, H0: seq<real>, dir: seq<real>,
                       perc: seq<real>, done: seq<SedOutcome>, s: nat)
    requires s < |H0| && (s >= |perc| || s >= |dir|)
    requires Progress(step, t0, H0, dir, perc, done, t, s)
    ensures Stops(step, t0, H0, dir, perc, IndexOutOfRange)
  {
    MissingForcing(step, t, H0, dir, perc, s);
  }

  /** The run from `t0` after scenario `s`, given the scenarios before it. */
  lemma ChainAdvances(step: Step, t0: Terrain, t: Terrain, H0: seq<real>, dir: seq<real>,
                      perc: seq<real>, done: seq<SedOutcome>, s: nat)
    requires s < |H0| && s < |perc| && s < |dir|
    requires Progress(step, t0, H0, dir, perc, done, t, s)
    ensures var r := step(t, dir[s], H0[s]);
      && (r.Failure? ==> Stops(step, t0, H0, dir, perc, r.error))
      && (r.Success? ==> Progress(step, t0, H0, dir, perc, done + [r.value], r.value.terrain, s + 1))
  {
    ScenariosStep(step, t, H0, dir, perc, s);
    var r := step(t, dir[s], H0[s]);
    if r.Success? {
      ThenThen(done, r.value, Scenarios(step, r.value.terrain, H0, dir, perc, s + 1));
    }
  }

  /** The first step of a run of scenarios from `s`. */
  lemma ScenariosStep(step: Step, t: Terrain, H0: seq<real>, dir: seq<real>, perc: seq<real>, s: nat)
    requires s < |H0| && s < |perc| && s < |dir|
    ensures var r := step(t, dir[s], H0[s]);
      && (r.Failure? ==> Scenarios(step, t, H0, dir, perc, s) == Failure(r.error))
      && (r.Success? ==> Scenarios(step, t, H0, dir, perc, s) == Then([r.value], Scenarios(step, r.value.terrain, H0, dir, perc, s + 1)))
  {
  }

  lemma ThenThen(done: seq<SedOutcome>, o: SedOutcome, r: Result<seq<SedOutcome>>)
    ensures Then(done, Then([o], r)) == Then(done + [o], r)
  {
    if r.Success? {
      assert done + ([o] + r.value) == done + [o] + r.value;
    }
  }

  /** The running sums after one more scenario. */
  lemma FoldStep(fields: seq<Grid>, fracs: seq<real>, f: Grid, c: real)
    requires |fields| == |fracs|
    ensures Fold(fields + [f], fracs + [c]) == if |fields| == 0 then Scale(f, c) else Add(Fold(fields, fracs), Scale(f, c))
  {
    assert (fields + [f])[..|fields|] == fields;
    assert (fracs + [c])[..|fracs|] == fracs;
  }

  lemma AveragesStep(done: seq<SedOutcome>, perc: seq<real>, o: SedOutcome, avg: Averages)
    requires |done| < |perc|
    requires |done| > 0 ==> avg == AveragesOf(done, perc)
    ensures var frac := perc[|done|] / 100.0;
      AveragesOf(done + [o], perc) ==
        if |done| == 0 then Averages(Scale(o.wH, frac), Scale(o.wS, frac), Scale(o.erodep, frac))
        else Averages(Add(avg.wH, Scale(o.wH, frac)), Add(avg.wS, Scale(o.wS, frac)), Add(avg.dz, Scale(o.erodep, frac)))
  {
    var n := |done|;
    var f := Fractions(perc, n);
    var frac := perc[n] / 100.0;
    FieldsSnoc(done, o, perc);
    FoldStep(HeightsOf(done), f, o.wH, frac);
    FoldStep(ShearsOf(done), f, o.wS, frac);
    FoldStep(ErodepsOf(done), f, o.erodep, frac);
  }

  lemma FieldsSnoc(done: seq<SedOutcome>, o: SedOutcome, perc: seq<real>)
    requires |done| < |perc|
    ensures Fractions(perc, |done| + 1) == Fractions(perc, |done|) + [perc[|done|] / 100.0]
    ensures HeightsOf(done + [o]) == HeightsOf(done) + [o.wH]
    ensures ShearsOf(done + [o]) == ShearsOf(done) + [o.wS]
    ensures ErodepsOf(done + [o]) == ErodepsOf(done) + [o.erodep]
  {
  }

  /** `avedz += erodep * frac` and its two companions, or their first binding. */
  method Accumulate(avg: Averages, o: SedOutcome, frac: real, first: bool, ghost done: seq<SedOutcome>, ghost perc: seq<real>)
    returns (next: Averages)
    requires |done| < |perc| && frac == perc[|done|] / 100.0 && (first <==> |done| == 0)
    requires |done| > 0 ==> avg == AveragesOf(done, perc)
    ensures next == AveragesOf(done + [o], perc)
  {
    AveragesStep(done, perc, o, avg);
    if !first {
      next := Averages(Add(avg.wH, Scale(o.wH, frac)), Add(avg.wS, Scale(o.wS, frac)), Add(avg.dz, Scale(o.erodep, frac)));
    } else {
      next := Averages(Scale(o.wH, frac), Scale(o.wS, frac), Scale(o.erodep, frac));
    }
  }

  /** The loop of `runWaveSed` on an engine that `findland` has prepared. */
  method RunScenarios(wv: Wave, H0: seq<real>, dir: seq<real>, perc: seq<real>, tsteps: int, dsteps: int)
    returns (r: Result<Run>)
    requires wv.Valid() && wv.LandFound()
    modifies wv`terrain, wv`waves, wv`sed
    ensures r == RunFrom(wv.Par(), old(wv.terrain), H0, dir, perc, tsteps, dsteps)
    ensures r.Success? ==> wv.terrain == r.value.terrain
  {
    ghost var p := wv.Par();
    ghost var step := Scenario(p, tsteps, dsteps);
    ghost var t0 := wv.terrain;
    ghost var done: seq<SedOutcome> := [];
    ProgressStarts(step, t0, H0, dir, perc);
    var avg := Averages([], [], []);
    var s := 0;
    while s < |H0|
      invariant 0 <= s <= |H0| && |done| == s
      invariant wv.Valid() && wv.LandFound()
      invariant Progress(step, t0, H0, dir, perc, done, wv.terrain, s)
      invariant s > 0 ==> s <= |perc| && avg == AveragesOf(done, perc) && wv.terrain == done[s - 1].terrain
    {
      var st;
      st, avg := Round(wv, H0, dir, perc, tsteps, dsteps, s, avg, done, t0, step);
      if st.Stopped? {
        RunFromFails(p, tsteps, dsteps, t0, H0, dir, perc, st.fault);
        return Failure(st.fault);
      }
      done := done + [wv.SedNow()];
      s := s + 1;
    }
    RunFromDone(p, tsteps, dsteps, t0, H0, dir, perc, done, wv.terrain);
    if |H0| == 0 {
      return Failure(UnboundAccumulators);
    }
    r := Success(Run(avg, wv.terrain));
  }

  /** Before the first scenario nothing is done. */
  lemma ProgressStarts(step: Step, t0: Terrain, H0: seq<real>, dir: seq<real>, perc: seq<real>)
    ensures Progress(step, t0, H0, dir, perc, [], t0, 0)
  {
    var r := Scenarios(step, t0, H0, dir, perc, 0);
    if r.Success? {
      assert [] + r.value == r.value;
    }
  }

  /** The run ends with the first failing scenario. */
  lemma RunFromFails(p: Params, tsteps: int, dsteps: int, t: Terrain, H0: seq<real>, dir: seq<real>, perc: seq<real>,
                     f: Fault)
    requires Rows(p) > 0 && Cols(p) > 0
    requires Stops(Scenario(p, tsteps, dsteps), t, H0, dir, perc, f)
    ensures RunFrom(p, t, H0, dir, perc, tsteps, dsteps) == Failure(f)
  {
  }

  /** The run after the last scenario. */
  lemma RunFromDone(p: Params, tsteps: int, dsteps: int, t: Terrain, H0: seq<real>, dir: seq<real>, perc: seq<real>,
                    done: seq<SedOutcome>, last: Terrain)
    requires Rows(p) > 0 && Cols(p) > 0 && |done| == |H0|
    requires Progress(Scenario(p, tsteps, dsteps), t, H0, dir, perc, done, last, |H0|)
    ensures |H0| == 0 ==> RunFrom(p, t, H0, dir, perc, tsteps, dsteps) == Failure(UnboundAccumulators)
    ensures |H0| > 0 ==>
      && |H0| <= |perc|
      && RunFrom(p, t, H0, dir, perc, tsteps, dsteps) == Success(Run(AveragesOf(done, perc), done[|H0| - 1].terrain))
  {
    assert done + [] == done;
    ScenariosLength(Scenario(p, tsteps, dsteps), t, H0, dir, perc, 0);
  }

  /** `runWaveSed(bfile, rfac, H0, dir, perc, wbase, slvl, d50, tsteps, dsteps)` on a
      bathymetry grid already read from the file: the run and the engine it used. */
  method RunWaveSed(k: Kernels, bathy: Grid, nx: nat, ny: nat, dx: real, rfac: real, H0: seq<real>,
                    dir: seq<real>, perc: seq<real>, wbase: real, slvl: real, d50: real,
                    tsteps: int, dsteps: int, snx: nat, sny: nat)
    returns (r: Result<Run>, wv: Wave)
    requires Shaped(bathy, nx, ny) && nx >= 1 && ny >= 1
    requires rfac > 1.0 ==> snx >= 1 && sny >= 1
    ensures r == RunOf(k, bathy, nx, ny, dx, rfac, H0, dir, perc, wbase, slvl, d50, tsteps, dsteps, snx, sny)
    ensures r.Success? ==> wv.terrain == r.value.terrain
  {
    wv := new Wave(k, bathy, nx, ny, dx, wbase, rfac, d50, 1.0, 30.0, snx, sny);
    var st := wv.FindLand(slvl);
    if st.Stopped? {
      return Failure(st.fault), wv;
    }
    r := RunScenarios(wv, H0, dir, perc, tsteps, dsteps);
  }
}
