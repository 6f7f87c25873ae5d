/** The optional value used for nullable results (`bool?`, a null `string`, a missing registry value). */
module Wrappers {

  datatype Option<+T> = None | Some(value: T)
}
