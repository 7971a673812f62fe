/** Swift's Optional, as used for the nullable references and the optional
    results of the observer. */
module Wrappers {

  datatype Option<+T> = None | Some(value: T)

}
