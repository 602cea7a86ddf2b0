/** Types every part of the model uses. */
module Basics {

  datatype Option<+T> = None | Some(value: T)

  type Byte = x: int | 0 <= x < 256

  type Packet = seq<Byte>
}
