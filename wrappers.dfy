/** An optional value, for the engine's "none" sentinels (NONE_SQUARE, NONE_PIECE). */
module Wrappers {
  datatype Option<T> = None | Some(value: T)
}
