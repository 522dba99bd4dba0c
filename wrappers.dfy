/** The missing-value wrapper used for labels that `Series.map` leaves as NaN. */
module Wrappers {
  datatype Option<+T> = None | Some(value: T)
}
