/** Kernel error numbers the drivers return, negated, on failure. */
module Errno {
  /** Out of memory. */
  const ENOMEM: int := 12
}
