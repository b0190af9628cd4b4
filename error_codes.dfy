/**
 * The integer status codes of include/error.h (negative values are errors),
 * and the two process status codes of <stdlib.h> that the older container uses.
 */
module ErrorCodes {
  const SUCCESS: int := 0
  const UNKNOWN: int := -1
  const INVALID_INPUT: int := -2
  const OUT_OF_MEMORY: int := -3
  const NULL_POINTER: int := -4
  const INDEX_OUT_OF_BOUNDS: int := -5
  const ELEMENT_NOT_FOUND: int := -6

  const EXIT_SUCCESS: int := 0
  const EXIT_FAILURE: int := 1
}
