/** The optional value used for nullable columns (a missing RSI, an unset halt date). */
module Wrappers {

  datatype Option<+T> = None | Some(value: T)
}
