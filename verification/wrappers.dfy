/** The optional values of the application: a JavaScript `null`, `undefined`
    or missing optional field is `None`. */
module Wrappers {

  datatype Option<+T> = None | Some(value: T)
}
