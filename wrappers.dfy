/** Optional values, standing for TypeScript's optional fields and for a
    `parseFloat` result that may be NaN. */
module Wrappers {

  datatype Option<+T> = None | Some(value: T)
}
