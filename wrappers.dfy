/** A nullable value: `string?` in the source becomes `Option<string>`. */
module Wrappers {

  datatype Option<+T> = None | Some(value: T)
}
