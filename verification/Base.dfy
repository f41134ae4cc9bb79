/** Types shared by every part of the model. */
module Base {

  datatype Option<+T> = None | Some(value: T)

  /** A user, as the normalised key under which every map of the service files it. */
  type Key = string

  /** The position of a transaction in the writer account: unique per broadcast, so it stands for the hash. */
  type Hash = nat

  function Max(a: int, b: int): int { if a >= b then a else b }

  function Min(a: int, b: int): int { if a <= b then a else b }
}
