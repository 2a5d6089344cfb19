/** Optional value, used for the "no alert yet" seed cells
    and for a lookahead scan that finds nothing. */
module Wrappers {

  datatype Option<+T> = None | Some(value: T)
}
