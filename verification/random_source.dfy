/** `random.Random` as an abstract deterministic stream.

    A generator's random state is a key (the integer seed it was built
    from, or the identity of an entropy-seeded or caller-supplied object)
    and a position. `Stream` stands for the Mersenne Twister: it gives the
    128-bit word drawn at each position of each key. `getrandbits(k)` is one
    draw reduced to its low k bits; its numerics are not modelled. */
module RandomSource {
  import opened UuidLayout

  datatype RngKey = SeedKey(seed: int) | EntropyKey(id: nat)

  datatype Rng = Rng(key: RngKey, pos: nat)

  type Stream = (RngKey, nat) -> bv128

  /** `random.Random(seed)`: a fresh state for an integer seed. */
  function FromSeed(seed: int): Rng
  {
    Rng(SeedKey(seed), 0)
  }

  datatype Draw = Draw(bits: bv128, rest: Rng)

  /** `rng.getrandbits(k)`: a k-bit value, and the state moves one step. */
  function GetRandBits(rng: Rng, k: nat, stream: Stream): (d: Draw)
    requires k <= 128
    ensures Fits(d.bits, k)
    ensures d.rest == rng.(pos := rng.pos + 1)
  {
    Draw(stream(rng.key, rng.pos) & LowMask(k), rng.(pos := rng.pos + 1))
  }
}
