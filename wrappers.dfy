/** Nullable references of the C driver (a font, a bitmap, its data, a width table, a text). */
module Wrappers {
  datatype Option<+T> = None | Some(value: T)
}
