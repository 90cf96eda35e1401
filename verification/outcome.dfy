/** Failure values of the time-stepping driver. The driver raises exactly two
    configuration errors of its own; each is fatal to the run. */
module Outcome {

  /** The two alarms the driver throws. */
  datatype Error =
    | AlarmDefinePhi          // unrecognised initial-profile tag
    | AlarmDefineBorderCond   // boundary rule asked for a phase other than 0 or 1

  /** A computation that either produces a value or throws one of the alarms. */
  datatype Result<+T> = Ok(value: T) | Err(error: Error)
}
