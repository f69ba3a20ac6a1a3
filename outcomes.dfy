/** The ways a run of the wave engine can stop without producing fields. */
module Outcomes {

  datatype Fault =
    /** no traced contour survived the shoreline filter, so `contourPts` was never bound */
    | UnboundContourPts
    /** no wave scenario was given, so the accumulators were never bound */
    | UnboundAccumulators
    /** a scenario index past the end of the percentage or direction list */
    | IndexOutOfRange
    /** the diffusion coefficients divide by zero (`Cd * area == 0`) */
    | NonFiniteCoefficient
    /** the smoothed deposit sums to zero, so the volume rescale divides by zero */
    | NonFiniteRescale

  datatype Result<T> = Success(value: T) | Failure(error: Fault)

  /** How a state-changing step ended. */
  datatype Status = Done | Stopped(fault: Fault)
}
