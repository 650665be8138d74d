/** The optional value used for things the source may not have at hand
    (a mounted container, a card being dragged). */
module Wrappers {
  datatype Option<T> = None | Some(value: T)
}
