/** Optional values, for the source's nil pointers and missing answers. */
module Options {
  datatype Option<+T> = None | Some(value: T)
}

/** Machine words. */
module Words {
  const TWO_64: nat := 0x1_0000_0000_0000_0000

  type U64 = n: nat | n < TWO_64

  /** Go's uint64 arithmetic. */
  function Wrap(n: int): U64 {
    n % TWO_64
  }
}
