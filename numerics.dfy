/** The numerical library calls and compiled kernels that the wave engine uses but that
    are not part of this model. Each one is a field of `Kernels`, so the model is
    parametric in them: whatever they compute, the engine's own bookkeeping is what
    the lemmas speak about. Grid-valued kernels return a per-cell function, which
    makes their results have the shape of the grid they are written into. */
module Numerics {
  import opened Grids

  /** A contour vertex. */
  datatype Point = Point(x: real, y: real)

  /** A traced contour: the marching-squares tracer never returns an empty one. */
  type Polyline = s: seq<Point> | |s| > 0 witness [Point(0.0, 0.0)]

  /** numpy's `np.pi`, written to the digits numpy prints. */
  const Pi: real := 3.141592653589793

  /** Output of the Airy wave kernel at one cell. */
  datatype AiryCell = AiryCell(celerity: real, length: real, travel: real, height: real)

  /** Output of the sediment transport kernel at one cell. */
  datatype TransportCell = TransportCell(dz: real, dist: real)

  datatype Kernels = Kernels(
    /** `np.power(x, y)` */
    power: (real, real) -> real,
    /** `np.log(x)` */
    log: real -> real,
    /** `np.sqrt(x)` */
    sqrt: real -> real,
    /** `np.cos(x)` and `np.sin(x)` */
    cos: real -> real,
    sin: real -> real,
    /** `np.sqrt(dx*dx + dy*dy)`: the length of a contour segment */
    hypot: (real, real) -> real,
    /** scipy's `gaussian_filter(field, sigma)` */
    gaussian: (Grid, real) -> (int, int) -> real,
    /** `RectBivariateSpline` of a field, evaluated on the nodes of an nr by nc grid
        spanning the same extent (used both to coarsen and to refine) */
    resample: (Grid, nat, nat) -> (int, int) -> real,
    /** the compiled `ocean.airymodel(dx, shoalC, h0, depth, src, inland, shadow)` */
    airy: (real, real, real, Grid, Grid, Grid, int) -> (int, int) -> AiryCell,
    /** `arctan2` of `np.gradient(travel)`, taken modulo 2 pi */
    travelDirection: Grid -> (int, int) -> real,
    /** `arctan2` of `np.gradient(Z)` plus pi/2, taken modulo 2 pi */
    contourAngle: Grid -> (int, int) -> real,
    /** wave period `sqrt(2 pi L / g)` from the wavelength */
    period: real -> real,
    /** group-velocity ratio `n = 0.5 (1 + 2kd / sinh(2kd))` from wavelength and depth */
    groupRatio: (real, real) -> real,
    /** orbital velocity `pi H / (T sinh(2 pi d / L))` from height, period, depth, wavelength */
    orbital: (real, real, real, real) -> real,
    /** Sleath (1984) friction factor `8/25 (1 + log(d50 / (15 d)))^-2` from grain size and depth */
    friction: (real, real) -> real,
    /** the compiled `ocean.transport(tsteps, depth, Hent, tX, tY)` */
    transport: (int, Grid, Grid, Grid, Grid) -> (int, int) -> TransportCell,
    /** the compiled `ocean.diffusion(elev, dz, Cdiff, maxth, CFL, dsteps)` */
    diffusion: (Grid, Grid, real, real, real, int) -> (int, int) -> real,
    /** skimage's `find_contours(Z.T, level)`, in grid-index units */
    contours: (Grid, real) -> seq<Polyline>,
    /** matplotlib's `Path(poly).contains_points` over the nodes of an nr by nc grid */
    inside: (Polyline, nat, nat) -> (int, int) -> bool
  )
}
