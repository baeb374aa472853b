/** What several parts of the model need. */
module Common {

  datatype Option<T> = None | Some(value: T)

  function One(b: bool): nat { if b then 1 else 0 }

  const U64: nat := 0x1_0000_0000_0000_0000

  /** What a uint64 keeps of an integer. */
  function Wrap(n: int): (r: nat)
    ensures r < U64
  {
    n % U64
  }
}
