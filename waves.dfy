/** `cmptwaves`: the fields derived from the Airy kernel's output, with the breaking
    clip, the travel-time fill, the choice of transport direction and the zeroing of
    every derived field on land. */
module Waves {
  import opened Grids
  import opened Numerics
  import opened CellRules
  import opened Setup
  import opened Land
  import VanRijn

  datatype WaveFields = WaveFields(
    waveC: Grid, waveL: Grid, travel: Grid, waveH: Grid, waveD: Grid, waveP: Grid,
    waveT: Grid, waveU: Grid, waveS: Grid, transpX: Grid, transpY: Grid)

  /** `0` on land cells, `v` elsewhere (`field[landr, landc] = 0`). */
  function OffLand(land: set<Cell>, i: int, j: int, v: real): (r: real)
    ensures (i, j) in land ==> r == 0.0
    ensures (i, j) !in land ==> r == v
  {
    if (i, j) in land then 0.0 else v
  }

  /** The Airy kernel applied to the terrain and the source mask. */
  function AiryOf(p: Params, t: Terrain, src: Grid, h0: real, shadow: int, shoalC: real): (int, int) -> AiryCell
  {
    p.k.airy(p.sdx, shoalC, h0, t.depth, src, t.inland, shadow)
  }

  /** Smoothed kernel height, zeroed on land and clipped to 0.78 depth. */
  function HeightField(p: Params, t: Terrain, raw: Grid, sigma: real): Grid
  {
    var sm := p.k.gaussian(raw, sigma);
    Tabulate(Rows(p), Cols(p), (i, j) => ShoreHeight(sm(i, j), At(t.depth, i, j), (i, j) in t.sea, (i, j) in t.land))
  }

  /** The copy of the travel times with unreached cells (negative times) set past the
      latest arrival. */
  function FilledTravel(travel: Grid, nr: nat, nc: nat): Grid
    requires Shaped(travel, nr, nc) && nr > 0 && nc > 0
  {
    var tmax := GridMax(travel);
    Tabulate(nr, nc, (i, j) => FillUnreached(At(travel, i, j), tmax))
  }

  /** Wave power `rhow g C n H^2 / 8`. */
  function Power(p: Params, c: real, l: real, d: real, h: real): real
  {
    VanRijn.Rhow * VanRijn.Grav * c * p.k.groupRatio(l, d) * h * h / 8.0
  }

  /** Shear stress `rhow fric U^2 / 2`, with Sleath's friction on sea cells and none elsewhere. */
  function Shear(p: Params, sea: bool, d: real, u: real): real
  {
    0.5 * VanRijn.Rhow * (if sea then p.k.friction(p.dia, d) else 0.0) * u * u
  }

  /** Sediment transport direction: the contour direction (turned towards the waves)
      in the nearshore band, the wave direction elsewhere, none on land. */
  function TransportField(p: Params, t: Terrain, waveD: (int, int) -> real, cAng: (int, int) -> real,
                          trig: real -> real): Grid
  {
    Tabulate(Rows(p), Cols(p), (i, j) =>
      TransportComponent((i, j) in t.land, InBand(At(t.depth, i, j), p.wavebase),
                         trig(waveD(i, j)), trig(FlipContour(waveD(i, j), cAng(i, j)))))
  }

  /** The kernel's celerity, travel time and (unsmoothed) height grids. */
  function CelerityOf(p: Params, a: (int, int) -> AiryCell): Grid
  {
    Tabulate(Rows(p), Cols(p), (i, j) => a(i, j).celerity)
  }

  function TravelOf(p: Params, a: (int, int) -> AiryCell): Grid
  {
    Tabulate(Rows(p), Cols(p), (i, j) => a(i, j).travel)
  }

  function RawHeightOf(p: Params, a: (int, int) -> AiryCell): Grid
  {
    Tabulate(Rows(p), Cols(p), (i, j) => a(i, j).height)
  }

  /** Wave direction from the gradient of the filled travel times (before land zeroing). */
  function DirectionOf(p: Params, a: (int, int) -> AiryCell): (int, int) -> real
    requires Rows(p) > 0 && Cols(p) > 0
  {
    p.k.travelDirection(FilledTravel(TravelOf(p, a), Rows(p), Cols(p)))
  }

  /** Wavelength, zeroed on land. */
  function LengthField(p: Params, t: Terrain, a: (int, int) -> AiryCell): Grid
  {
    Tabulate(Rows(p), Cols(p), (i, j) => OffLand(t.land, i, j, a(i, j).length))
  }

  function DirectionField(p: Params, t: Terrain, waveD: (int, int) -> real): Grid
  {
    Tabulate(Rows(p), Cols(p), (i, j) => OffLand(t.land, i, j, waveD(i, j)))
  }

  function PowerField(p: Params, t: Terrain, a: (int, int) -> AiryCell, waveH: Grid): Grid
  {
    Tabulate(Rows(p), Cols(p), (i, j) =>
      OffLand(t.land, i, j, Power(p, a(i, j).celerity, a(i, j).length, At(t.depth, i, j), At(waveH, i, j))))
  }

  function PeriodField(p: Params, t: Terrain, a: (int, int) -> AiryCell): Grid
  {
    Tabulate(Rows(p), Cols(p), (i, j) => OffLand(t.land, i, j, p.k.period(a(i, j).length)))
  }

  /** Orbital velocity on sea cells (computed from the unzeroed period), 0 elsewhere. */
  function OrbitalAt(p: Params, t: Terrain, a: (int, int) -> AiryCell, waveH: Grid, i: int, j: int): real
  {
    if (i, j) in t.sea then
      p.k.orbital(At(waveH, i, j), p.k.period(a(i, j).length), At(t.depth, i, j), a(i, j).length)
    else 0.0
  }

  function OrbitalField(p: Params, t: Terrain, a: (int, int) -> AiryCell, waveH: Grid): Grid
  {
    Tabulate(Rows(p), Cols(p), (i, j) => OffLand(t.land, i, j, OrbitalAt(p, t, a, waveH, i, j)))
  }

  function ShearField(p: Params, t: Terrain, a: (int, int) -> AiryCell, waveH: Grid): Grid
  {
    Tabulate(Rows(p), Cols(p), (i, j) =>
      OffLand(t.land, i, j, Shear(p, (i, j) in t.sea, At(t.depth, i, j), OrbitalAt(p, t, a, waveH, i, j))))
  }

  /** Every field `cmptwaves` leaves behind. */
  function WavesOf(p: Params, t: Terrain, src: Grid, h0: real, sigma: real, shadow: int, shoalC: real): WaveFields
    requires Rows(p) > 0 && Cols(p) > 0
  {
    var a := AiryOf(p, t, src, h0, shadow, shoalC);
    var waveH := HeightField(p, t, RawHeightOf(p, a), sigma);
    var waveD := DirectionOf(p, a);
    var cAng := p.k.contourAngle(ActiveZ(p, t.regZ, t.sregZ));
    WaveFields(CelerityOf(p, a), LengthField(p, t, a), TravelOf(p, a), waveH,
               DirectionField(p, t, waveD), PowerField(p, t, a, waveH), PeriodField(p, t, a),
               OrbitalField(p, t, a, waveH), ShearField(p, t, a, waveH),
               TransportField(p, t, waveD, cAng, p.k.cos), TransportField(p, t, waveD, cAng, p.k.sin))
  }

  /** Every field has the shape of the computation grid. */
  lemma WavesShaped(p: Params, t: Terrain, src: Grid, h0: real, sigma: real, shadow: int, shoalC: real)
    requires Rows(p) > 0 && Cols(p) > 0
    ensures var w := WavesOf(p, t, src, h0, sigma, shadow, shoalC);
      var nr, nc := Rows(p), Cols(p);
      && Shaped(w.waveC, nr, nc) && Shaped(w.waveL, nr, nc) && Shaped(w.travel, nr, nc)
      && Shaped(w.waveH, nr, nc) && Shaped(w.waveD, nr, nc) && Shaped(w.waveP, nr, nc)
      && Shaped(w.waveT, nr, nc) && Shaped(w.waveU, nr, nc) && Shaped(w.waveS, nr, nc)
      && Shaped(w.transpX, nr, nc) && Shaped(w.transpY, nr, nc)
  {
  }

  /** McCowan's limit holds on every cell, and a sea cell whose smoothed height is
      already below it keeps that height. */
  lemma HeightBelowBreaking(p: Params, t: Terrain, raw: Grid, sigma: real, i: int, j: int)
    requires 0 <= i < Rows(p) && 0 <= j < Cols(p)
    ensures var h := HeightField(p, t, raw, sigma)[i][j];
      var d := At(t.depth, i, j);
      var sm := p.k.gaussian(raw, sigma)(i, j);
      && h <= BreakingLimit(d, (i, j) in t.sea)
      && ((i, j) in t.sea && (i, j) !in t.land && sm <= 0.78 * d ==> h == sm)
      && ((i, j) in t.sea && (i, j) !in t.land && sm > 0.78 * d ==> h == 0.78 * d)
  {
  }

  /** On a land cell of a partitioned grid every derived field is zero. */
  lemma LandIsCalm(p: Params, t: Terrain, src: Grid, h0: real, sigma: real, shadow: int, shoalC: real, i: int, j: int)
    requires Rows(p) > 0 && Cols(p) > 0
    requires 0 <= i < Rows(p) && 0 <= j < Cols(p)
    requires (i, j) in t.land && (i, j) !in t.sea
    ensures var w := WavesOf(p, t, src, h0, sigma, shadow, shoalC);
      && w.waveH[i][j] == 0.0 && w.waveL[i][j] == 0.0 && w.waveD[i][j] == 0.0
      && w.waveT[i][j] == 0.0 && w.waveP[i][j] == 0.0 && w.waveU[i][j] == 0.0
      && w.waveS[i][j] == 0.0 && w.transpX[i][j] == 0.0 && w.transpY[i][j] == 0.0
  {
    var a := AiryOf(p, t, src, h0, shadow, shoalC);
    HeightBelowBreaking(p, t, RawHeightOf(p, a), sigma, i, j);
  }

  /** The transport direction follows the contour direction exactly on the sea cells
      of the nearshore band, the wave direction on the other sea cells. */
  lemma TransportChoice(p: Params, t: Terrain, waveD: (int, int) -> real, cAng: (int, int) -> real,
                        trig: real -> real, i: int, j: int)
    requires 0 <= i < Rows(p) && 0 <= j < Cols(p) && (i, j) !in t.land
    ensures var r := TransportField(p, t, waveD, cAng, trig)[i][j];
      var d := At(t.depth, i, j);
      && (0.0 < d < 0.5 * p.wavebase ==> r == trig(FlipContour(waveD(i, j), cAng(i, j))))
      && (!(0.0 < d < 0.5 * p.wavebase) ==> r == trig(waveD(i, j)))
  {
  }

  /** Unreached cells get a time later than every reached one; reached cells keep theirs. */
  lemma FilledTravelIsLate(travel: Grid, nr: nat, nc: nat, i: int, j: int)
    requires Shaped(travel, nr, nc) && nr > 0 && nc > 0
    requires 0 <= i < nr && 0 <= j < nc
    ensures var f := FilledTravel(travel, nr, nc);
      && (travel[i][j] >= 0.0 ==> f[i][j] == travel[i][j])
      && (travel[i][j] < 0.0 ==> forall a, b :: 0 <= a < nr && 0 <= b < nc ==> f[i][j] > travel[a][b])
  {
  }
}
