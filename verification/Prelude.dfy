/** Types shared by every other module. */
module Prelude {

  type byte = x: int | 0 <= x < 256

  type Bytes = seq<byte>

  /** Environments, and every other Go `map[string]string`. */
  type Env = map<string, string>

  /** A value that may be absent; the source's `(value, error)` and nil pointers
      become this when the error text carries no meaning of its own. */
  datatype Option<+T> = None | Some(value: T)
}
