/** What several modules need. */
module Basics {

  /** A value or none. */
  datatype Option<+T> = None | Some(value: T)

  type Positive = n: nat | n > 0 witness 1

  function Max(a: nat, b: nat): nat {
    if a < b then b else a
  }

  function Pow2(k: nat): (r: nat)
    ensures r > 0
  {
    if k == 0 then 1 else 2 * Pow2(k - 1)
  }
}
