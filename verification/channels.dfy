/** The two probe channels of the instrument and a two-slot record indexed by them,
    standing for the `{1: ..., 2: ...}` dictionaries the fill-tracker keeps per channel. */
module Channels {

  /** A channel number: the instrument has exactly channels 1 and 2. */
  type Chan = c: int | c == 1 || c == 2 witness 1

  /** The channel that is not `c`. */
  function Other(c: Chan): (o: Chan)
    ensures o != c
  {
    if c == 1 then 2 else 1
  }

  /** One value per channel. */
  datatype PerChannel<T> = PerChannel(one: T, two: T) {

    function Get(c: Chan): T {
      if c == 1 then one else two
    }

    /** Dictionary assignment `m[c] = v`. */
    function Set(c: Chan, v: T): (p: PerChannel<T>)
      ensures p.Get(c) == v
      ensures p.Get(Other(c)) == Get(Other(c))
    {
      if c == 1 then this.(one := v) else this.(two := v)
    }
  }
}
