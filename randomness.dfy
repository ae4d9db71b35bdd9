/** The process-wide random number generator, as an oracle.

    The game draws from one global generator. The model makes that generator an
    arbitrary, caller-chosen sequence of integers with a cursor: the k-th draw
    reads `stream[k]` and clamps it into the range asked for (a draw past the
    end of the sequence gives the low end). Any sequence is allowed, so every
    value a real generator could produce is reachable, and nothing here
    depends on the distribution. */
module Randomness {

  /** `randint(lo, hi)`: the draw at position `cursor`, clamped into `[lo, hi]`. */
  function Draw(stream: seq<int>, cursor: nat, lo: int, hi: int): (r: int)
    requires lo <= hi
    ensures lo <= r <= hi
    ensures cursor < |stream| && lo <= stream[cursor] <= hi ==> r == stream[cursor]
  {
    if cursor >= |stream| || stream[cursor] < lo then lo else if stream[cursor] > hi then hi else stream[cursor]
  }

  /** `random.random() < tenths / 10`: a draw of a tenth, compared with the threshold. */
  predicate Below(stream: seq<int>, cursor: nat, tenths: int) {
    Draw(stream, cursor, 0, 9) < tenths
  }

  /** Every value of the range is the result of some stream, so no outcome of a
      real generator is excluded by the model. */
  lemma EveryValueReachable(cursor: nat, lo: int, hi: int, v: int)
    requires lo <= v <= hi
    ensures Draw(seq(cursor + 1, _ => v), cursor, lo, hi) == v
  {
  }

  /** The generator's state: the stream and how much of it has been used. */
  class Random {
    const stream: seq<int>
    var cursor: nat

    constructor (stream: seq<int>)
      ensures this.stream == stream && cursor == 0
    {
      this.stream := stream;
      cursor := 0;
    }
  }
}
