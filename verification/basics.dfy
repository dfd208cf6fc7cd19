/**
  Bytes and optional values, shared by the models of all the devices.
 */
module Basics {

  type Byte = x: int | 0 <= x < 256

  type Bytes = seq<Byte>

  datatype Option<T> = None | Some(value: T)
}
