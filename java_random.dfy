/** `java.util.Random` as the code uses it: a stream of draws fixed by its seed. The
    generator itself is not modelled; an `Oracle` gives the k-th draw of the stream that
    starts from a given seed, for each kind of draw. Every `nextFloat`, `nextInt(bound)` and
    `nextBoolean` call advances the stream by exactly one step. */
module JavaRandom {

  datatype Oracle = Oracle(
    nextFloat: (int, nat) -> real,
    nextInt: (int, nat, int) -> int,
    nextBoolean: (int, nat) -> bool)
  {
    /** The library's promises: floats in [0, 1), `nextInt(n)` in [0, n). */
    ghost predicate Valid()
    {
      && (forall s: int, k: nat :: 0.0 <= nextFloat(s, k) < 1.0)
      && (forall s: int, k: nat, n: int :: 0 < n ==> 0 <= nextInt(s, k, n) < n)
    }
  }

  /** A `java.util.Random` object: its seed and how many draws it has handed out. */
  class Random {
    const oracle: Oracle
    const seed: int
    var drawn: nat

    constructor (oracle: Oracle, seed: int)
      ensures this.oracle == oracle && this.seed == seed && drawn == 0
    {
      this.oracle := oracle;
      this.seed := seed;
      drawn := 0;
    }

    method NextFloat() returns (r: real)
      modifies this
      ensures drawn == old(drawn) + 1
      ensures r == oracle.nextFloat(seed, old(drawn))
    {
      r := oracle.nextFloat(seed, drawn);
      drawn := drawn + 1;
    }

    method NextInt(bound: int) returns (r: int)
      requires bound > 0
      modifies this
      ensures drawn == old(drawn) + 1
      ensures r == oracle.nextInt(seed, old(drawn), bound)
    {
      r := oracle.nextInt(seed, drawn, bound);
      drawn := drawn + 1;
    }

    method NextBoolean() returns (b: bool)
      modifies this
      ensures drawn == old(drawn) + 1
      ensures b == oracle.nextBoolean(seed, old(drawn))
    {
      b := oracle.nextBoolean(seed, drawn);
      drawn := drawn + 1;
    }
  }
}
