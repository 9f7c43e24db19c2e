/** Random draws: an arbitrary stream of 32-bit words stands for the generator, so results hold for every seed. */
module Rng {
  /** One output of the 32-bit generator. */
  type Word = w: nat | w < 0x1_0000_0000

  /** An arbitrary stream of draws: every seed gives one. */
  type Stream = nat -> Word

  /** `floor(word / 2^32 * size)`, which is exact in doubles for the sizes in use. */
  function Below(w: Word, size: int): (r: int)
    requires size > 0
    ensures 0 <= r < size
  {
    assert w * size <= 0xFFFF_FFFF * size;
    w * size / 0x1_0000_0000
  }

  function IntBetween(w: Word, lo: int, hi: int): (r: int)
    requires lo <= hi
    ensures lo <= r <= hi
  {
    lo + Below(w, hi - lo + 1)
  }
}
