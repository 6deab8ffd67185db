/** Types every module shares. Addresses, hashes and networks are only ever compared,
    so they are numbers here; amounts are whole micro-USDT. */
module Prelude {
  datatype Option<+T> = None | Some(value: T) {
    function GetOr(default: T): T {
      match this
      case Some(v) => v
      case None => default
    }
  }

  type Time = int
  type Address = nat
  type Hash = nat
  type Network = nat
}
