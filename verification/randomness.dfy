/** The client's uses of `Math.random`, with the random values taken as inputs. */
module Randomness {

  /** A value `Math.random()` can return. */
  type Roll = r: real | 0.0 <= r < 1.0

  /** `Math.floor(roll * n)`: an index drawn from 0 .. n-1. */
  function RandomIndex(roll: Roll, n: nat): (j: nat)
    requires n > 0
    ensures j < n
  {
    var x := roll * n as real;
    assert 0.0 <= x < n as real by {
      assert roll * n as real <= 1.0 * n as real;
      assert roll * n as real != n as real;
    }
    x.Floor
  }

  /**
   * The random values one load of the queue consumes: the primary page, the
   * page of the broader fallback request, and one value per shuffle pass
   * (`order(i)` is used by the pass at index i).
   */
  datatype Draws = Draws(page: Roll, broadPage: Roll, order: nat -> Roll)
}
