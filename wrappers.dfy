/** Stock optional value, standing in for the engine's nullable pointers and
  * `TryGet*` out-parameters. */
module Wrappers {
  datatype Option<+T> = None | Some(value: T)
}
