/** Bytes, and words stored in them. */
module PoolBlocks {

  type Byte = x: int | 0 <= x < 256
  type Bytes = seq<Byte>

  const WORD := 8
  const I64_MAX := 0x7FFF_FFFF_FFFF_FFFF
  const U64_RANGE := 0x1_0000_0000_0000_0000

  // ----- words in memory -----

  /** Little-endian, as many bytes as given. */
  function Load(b: Bytes): (w: nat) {
    if b == [] then 0 else b[0] + 256 * Load(b[1..])
  }

  function Store(w: nat, n: nat): (b: Bytes)
    ensures |b| == n
  {
    if n == 0 then [] else [w % 256] + Store(w / 256, n - 1)
  }

  /** How many values n bytes hold. */
  function Range(n: nat): nat {
    if n == 0 then 1 else 256 * Range(n - 1)
  }

  lemma {:induction false} LoadStore(w: nat, n: nat)
    requires w < Range(n)
    ensures Load(Store(w, n)) == w
    decreases n
  {
    if n > 0 {
      LoadStore(w / 256, n - 1);
      assert Store(w, n)[1..] == Store(w / 256, n - 1);
    }
  }
}
