/** The optional value that stands for JavaScript's `undefined` (a failed `find`),
    `-1` (a failed `findIndex`) and `NaN` (a failed `parseInt`). */
module Wrappers {

  datatype Option<+T> = None | Some(value: T)
}
