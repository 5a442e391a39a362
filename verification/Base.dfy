/** Shared vocabulary: options and bytes. */
module Base {

  datatype Option<+T> = None | Some(value: T)

  /** One octet of a wire or journal value. */
  type Byte = x: int | 0 <= x < 256

  type Bytes = seq<Byte>
}
