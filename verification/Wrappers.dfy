/** Option, standing for the source's `null` / `undefined` results and optional inputs. */
module Wrappers {
  datatype Option<+T> = None | Some(value: T)
}
