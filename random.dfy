/**
 * System.Random as an explicit source of draws: the k-th call of NextDouble
 * returns source(k). Every generator receives its source instead of creating it.
 */
module Randomness {

  /** Every draw lies in [0,1), as Random.NextDouble promises. */
  ghost predicate Uniform(source: nat -> real) {
    forall k :: 0.0 <= source(k) < 1.0
  }

  class Random {
    const source: nat -> real
    /** How many draws have been taken so far. */
    var next: nat

    constructor (source: nat -> real)
      ensures this.source == source && next == 0
    {
      this.source := source;
      next := 0;
    }

    method NextDouble() returns (u: real)
      modifies this
      ensures u == source(old(next)) && next == old(next) + 1
    {
      u := source(next);
      next := next + 1;
    }
  }
}
