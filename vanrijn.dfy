/** Critical shear stress for the onset of motion (Van Rijn), chosen by the
    non-dimensional grain diameter, as the wave engine's constructor does. */
module VanRijn {
  import opened Numerics

  /** Gravity [L/T2], sea-water and sediment density [M/L3], kinematic viscosity of
      water at 20C [m2/s]. */
  const Grav: real := 9.81
  const Rhow: real := 1027.0
  const Rhos: real := 2650.0
  const Nu: real := 0.000001004

  /** `ds = dia (g (rhos/rhow - 1) / nu^2)^(1/3)`. */
  function NonDimensionalDiameter(k: Kernels, dia: real): real
  {
    dia * k.power(Grav * (Rhos / Rhow - 1.0) / (Nu * Nu), 1.0 / 3.0)
  }

  /** Index of the Van Rijn regime that contains `ds`: 0 for ds <= 4, 1 up to 10,
      2 up to 20, 3 up to 150, 4 above. */
  function Regime(ds: real): (r: nat)
    ensures r <= 4
    ensures r == 0 <==> ds <= 4.0
    ensures r == 1 <==> 4.0 < ds <= 10.0
    ensures r == 2 <==> 10.0 < ds <= 20.0
    ensures r == 3 <==> 20.0 < ds <= 150.0
    ensures r == 4 <==> 150.0 < ds
  {
    if ds <= 4.0 then 0
    else if ds <= 10.0 then 1
    else if ds <= 20.0 then 2
    else if ds <= 150.0 then 3
    else 4
  }

  /** Coarser grains never fall into a finer regime. */
  lemma RegimeMonotonic(ds1: real, ds2: real)
    requires ds1 <= ds2
    ensures Regime(ds1) <= Regime(ds2)
  {
  }

  /** The critical shear as the constructor writes it: five nested branches. */
  function CriticalShear(k: Kernels, ds: real): (tau: real)
    ensures 150.0 < ds ==> tau == 0.045
    ensures ds <= 4.0 ==> tau == 0.24 * k.power(ds, -1.0)
  {
    if ds <= 4.0 then 0.24 * k.power(ds, -1.0)
    else if ds <= 10.0 then 0.14 * k.power(ds, -0.64)
    else if ds <= 20.0 then 0.04 * k.power(ds, -0.1)
    else if ds <= 150.0 then 0.013 * k.power(ds, 0.29)
    else 0.045
  }

  /** One regime of the table: its upper bound on `ds`, and `tau = coef * ds^expo`. */
  datatype Band = Band(upper: real, coef: real, expo: real)

  /** The regimes in increasing order of `ds`. */
  const Bands: seq<Band> := [
    Band(4.0, 0.24, -1.0),
    Band(10.0, 0.14, -0.64),
    Band(20.0, 0.04, -0.1),
    Band(150.0, 0.013, 0.29)
  ]

  /** The coarsest regime: a constant critical shear. */
  const CoarseShear: real := 0.045

  /** Table lookup: the formula of the first band whose upper bound is not exceeded. */
  function LookupShear(k: Kernels, bands: seq<Band>, ds: real): real
  {
    if bands == [] then CoarseShear
    else if ds <= bands[0].upper then bands[0].coef * k.power(ds, bands[0].expo)
    else LookupShear(k, bands[1..], ds)
  }

  /** The nested branches and the (range, formula) table give the same critical shear
      for every diameter, and the chosen band is the one `Regime` names. */
  lemma {:induction false} CriticalShearIsTableLookup(k: Kernels, ds: real)
    ensures CriticalShear(k, ds) == LookupShear(k, Bands, ds)
    ensures Regime(ds) < 4 ==> CriticalShear(k, ds) == Bands[Regime(ds)].coef * k.power(ds, Bands[Regime(ds)].expo)
  {
    var b1, b2, b3 := Bands[1..], Bands[2..], Bands[3..];
    assert Bands[1..] == [Bands[1], Bands[2], Bands[3]];
    assert b1[1..] == b2 && b2[1..] == b3 && b3[1..] == [];
    assert LookupShear(k, b3, ds) == if ds <= 150.0 then 0.013 * k.power(ds, 0.29) else CoarseShear;
    assert LookupShear(k, b2, ds) == if ds <= 20.0 then 0.04 * k.power(ds, -0.1) else LookupShear(k, b3, ds);
    assert LookupShear(k, b1, ds) == if ds <= 10.0 then 0.14 * k.power(ds, -0.64) else LookupShear(k, b2, ds);
  }
}
