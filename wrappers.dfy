/** The optional value shared by the store and the preview screen: JavaScript's
    `null` (or an absent field) is `None`. */
module Wrappers {

  datatype Option<T> = None | Some(value: T)
}
