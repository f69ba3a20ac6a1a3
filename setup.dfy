/** The constants the wave engine's constructor fixes: the kernels, the two grid
    resolutions, the coefficients and the critical shear stress. */
module Setup {
  import opened Numerics
  import opened VanRijn

  datatype Params = Params(
    k: Kernels,
    /** resolution of the bathymetry grid and its shape */
    dx: real, nr: nat, nc: nat,
    /** resolution factor (at least 1 once configured), the computation grid's spacing and shape */
    resfac: real, sdx: real, snr: nat, snc: nat,
    wavebase: real, dia: real, ce: real, cd: real,
    tauCr: real)

  /** Rows of the grid on which waves and sediment are computed. */
  function Rows(p: Params): nat
  {
    if p.resfac == 1.0 then p.nr else p.snr
  }

  function Cols(p: Params): nat
  {
    if p.resfac == 1.0 then p.nc else p.snc
  }

  /** The constructor's bookkeeping: a factor of at most 1 means "compute on the
      bathymetry grid itself"; any larger factor coarsens the spacing by that factor.
      The coarse shape is computed from the extent in floating point and is taken
      as given. */
  function Configure(k: Kernels, dx: real, nr: nat, nc: nat, resfac: real, snr: nat, snc: nat,
                     wavebase: real, dia: real, ce: real, cd: real): (p: Params)
    ensures p.resfac >= 1.0
    ensures p.resfac == 1.0 <==> resfac <= 1.0
    ensures resfac > 1.0 ==> p.resfac == resfac
    ensures p.sdx == dx * p.resfac
    ensures Rows(p) == (if resfac <= 1.0 then nr else snr) && Cols(p) == (if resfac <= 1.0 then nc else snc)
    ensures p.tauCr == LookupShear(k, Bands, NonDimensionalDiameter(k, dia))
    ensures p.k == k && p.dx == dx && p.nr == nr && p.nc == nc && p.wavebase == wavebase
    ensures p.dia == dia && p.ce == ce && p.cd == cd && p.snr == snr && p.snc == snc
  {
    CriticalShearIsTableLookup(k, NonDimensionalDiameter(k, dia));
    var f := if resfac <= 1.0 then 1.0 else resfac;
    Params(k, dx, nr, nc, f, if f == 1.0 then dx else dx * f, snr, snc,
           wavebase, dia, ce, cd, CriticalShear(k, NonDimensionalDiameter(k, dia)))
  }
}
