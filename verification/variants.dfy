/**
 * The two readings of a constructor whose code departs from what its design evidently
 * intends: the behaviour as the code is written, and the behaviour once corrected.
 */
module Variants {

  datatype Variant = AsWritten | Corrected
}
