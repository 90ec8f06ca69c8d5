/** Status results of the source's routines. */
module Outcomes {

  /**
   * The result of a routine that returns a C status and fills its out-parameters
   * only on success: `Done` carries those out-values (status 0), `Failed` the
   * non-zero status (-1 for a local or protocol failure, or the device's error byte).
   */
  datatype Outcome<+T> = Done(value: T) | Failed(code: int) {

    /** The C return value. */
    function Code(): int
    {
      if Done? then 0 else code
    }
  }
}
