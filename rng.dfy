/**
 * The seeded pseudo-random generator of the daily puzzle (a mulberry32 mixer,
 * class `SeeededRNG` in the source). JavaScript's `Math.imul`, `^`, `|` and
 * `>>>` all work on the low 32 bits of their operands, so the generator's state
 * is a `bv32` and the mixer is written on `bv32`, where `+` and `*` wrap
 * exactly as `Math.imul` and the 32-bit conversions do. `next()` returns
 * `u / 2^32` for a 32-bit `u`; the model returns `u` itself and draws ranges
 * with integer arithmetic.
 */
module Rng {
  const TWO_POW_32: int := 0x1_0000_0000

  /** The odd constant added to the state before every mix. */
  const INCREMENT: bv32 := 0x6D2B79F5 as bv32

  /** The low 32 bits of an integer (what `>>> 0` and the bitwise operators see). */
  function ToWord(x: int): bv32 {
    (x % TWO_POW_32) as bv32
  }

  /** The mulberry32 output function applied to a 32-bit state. */
  function Mix(x: bv32): bv32 {
    var y := (x ^ (x >> 15)) * (x | 1);
    var z := y ^ (y + (y ^ (y >> 7)) * (y | 61));
    z ^ (z >> 14)
  }

  /** The state a generator constructed from `initial` starts in. */
  function Seeded(initial: int): bv32 {
    Mix(ToWord(initial + INCREMENT as int))
  }

  /** The state after one call of `next()`. */
  function Advance(s: bv32): bv32 {
    s + INCREMENT
  }

  /** The numerator `u` of the value `u / 2^32` that `next()` returns from state `s`. */
  function Sample(s: bv32): bv32 {
    Mix(Advance(s))
  }

  lemma ScaledBelow(u: nat, k: int)
    requires u < TWO_POW_32 && k >= 1
    ensures 0 <= (u * k) / TWO_POW_32 < k
  {
    assert 0 <= u * k;
    assert u * k < TWO_POW_32 * k by {
      assert (TWO_POW_32 - u) * k > 0;
    }
  }

  /**
   * `Math.floor((u / 2^32) * (max - min + 1)) + min`. Dividing a 32-bit `u` by
   * 2^32 and multiplying by an integer below 2^21 in magnitude are exact in
   * double precision, so the floor equals this integer (floor) division.
   */
  function Scale(u: bv32, min: int, max: int): (r: int)
    ensures min <= max ==> min <= r <= max
  {
    var n := u as int;
    if min <= max then
      ScaledBelow(n, max - min + 1);
      min + (n * (max - min + 1)) / TWO_POW_32
    else
      min + (n * (max - min + 1)) / TWO_POW_32
  }

  /** What `range(min, max)` returns from state `s`. */
  function RangeDraw(s: bv32, min: int, max: int): (r: int)
    ensures min <= max ==> min <= r <= max
  {
    Scale(Sample(s), min, max)
  }

  /** The index `pick` reads from an array of `n` elements, drawn from state `s`. */
  function PickIndex(s: bv32, n: nat): (i: nat)
    requires n > 0
    ensures i < n
  {
    RangeDraw(s, 0, n - 1)
  }

  /** The generator object; `seed` is its private mutable cursor. */
  class SeededRng {
    var seed: bv32

    constructor (initial: int)
      ensures seed == Seeded(initial)
    {
      seed := Seeded(initial);
    }

    method Next() returns (u: bv32)
      modifies this
      ensures seed == Advance(old(seed))
      ensures u == Sample(old(seed))
    {
      seed := seed + INCREMENT;
      u := Mix(seed);
    }

    method Range(min: int, max: int) returns (r: int)
      modifies this
      ensures seed == Advance(old(seed))
      ensures r == RangeDraw(old(seed), min, max)
      ensures min <= max ==> min <= r <= max
    {
      var u := Next();
      r := Scale(u, min, max);
    }

    method Pick<T>(items: seq<T>) returns (item: T)
      requires |items| > 0
      modifies this
      ensures seed == Advance(old(seed))
      ensures item == items[PickIndex(old(seed), |items|)]
    {
      var i := Range(0, |items| - 1);
      item := items[i];
    }
  }
}
