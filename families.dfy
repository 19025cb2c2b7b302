/**
 * The eight pattern families of the daily puzzle. Each family draws its
 * parameters from the shared generator, in source order, and builds the
 * requested number of terms. For every family there is
 *   - a terms function of the drawn parameters, whose contract gives the rule
 *     the terms follow;
 *   - a function of the generator state (`...Gen`) returning the terms and the
 *     state after the draws, used by the specification of the daily selection;
 *   - a method on a `SeededRng` that does what the source function does, proved
 *     to agree with the `...Gen` function.
 */
module Families {
  import opened Rng
  import opened Sorting
  import opened Ints

  /** Terms produced by a family, with the generator state after its draws. */
  datatype Gen = Gen(numbers: seq<int>, after: bv32)

  function Pow(b: int, e: nat): int {
    if e == 0 then 1 else b * Pow(b, e - 1)
  }

  /** Term `i` is the previous term plus `d`. */
  predicate AddsAt(r: seq<int>, i: int, d: int) {
    1 <= i < |r| && r[i] == r[i - 1] + d
  }

  /** Term `i` is the previous term times `q`. */
  predicate MultipliesAt(r: seq<int>, i: int, q: int) {
    1 <= i < |r| && r[i] == r[i - 1] * q
  }

  /** Term `i` is the previous term plus the odd number `2 * (root + i) - 1`: squares of consecutive roots. */
  predicate NextSquareAt(r: seq<int>, i: int, root: int) {
    1 <= i < |r| && r[i] == r[i - 1] + 2 * (root + i) - 1
  }

  /** Term `i` adds `add` to the previous term when `i` is odd and subtracts `sub` when it is even. */
  predicate AlternatesAt(r: seq<int>, i: int, add: int, sub: int) {
    1 <= i < |r| && r[i] == r[i - 1] + (if i % 2 == 1 then add else -sub)
  }

  /** Term `i` is the sum of the two terms before it. */
  predicate SumOfTwoAt(r: seq<int>, i: int) {
    2 <= i < |r| && r[i] == r[i - 1] + r[i - 2]
  }

  /** Term `i` is the sum of the three terms before it. */
  predicate SumOfThreeAt(r: seq<int>, i: int) {
    3 <= i < |r| && r[i] == r[i - 1] + r[i - 2] + r[i - 3]
  }

  // ---------------------------------------------------------------- arithmetic

  /** `Array.from({length}, (_, i) => start + i * diff)`. */
  function ArithmeticTerms(start: int, diff: int, length: nat): (r: seq<int>)
    ensures |r| == length
    ensures length > 0 ==> r[0] == start
    ensures forall i :: 1 <= i < length ==> AddsAt(r, i, diff)
  {
    seq(length, i => start + i * diff)
  }

  function ArithmeticGen(s: bv32, length: nat): Gen {
    var start := RangeDraw(s, 1, 20);
    var diff := RangeDraw(Advance(s), 2, 12);
    Gen(ArithmeticTerms(start, diff, length), Advance(Advance(s)))
  }

  method GenerateArithmetic(rng: SeededRng, length: nat) returns (numbers: seq<int>)
    modifies rng
    ensures Gen(numbers, rng.seed) == ArithmeticGen(old(rng.seed), length)
  {
    var start := rng.Range(1, 20);
    var diff := rng.Range(2, 12);
    numbers := ArithmeticTerms(start, diff, length);
  }

  // ----------------------------------------------------------------- geometric

  /** `Array.from({length}, (_, i) => start * Math.pow(ratio, i))`, exactly. */
  function GeometricTerms(start: int, ratio: int, length: nat): (r: seq<int>)
    ensures |r| == length
    ensures length > 0 ==> r[0] == start
    ensures forall i :: 1 <= i < length ==> MultipliesAt(r, i, ratio)
  {
    var r := seq(length, (i: nat) => start * Pow(ratio, i));
    assert forall i :: 1 <= i < length ==> MultipliesAt(r, i, ratio) by {
      forall i | 1 <= i < length ensures MultipliesAt(r, i, ratio) {
        calc {
          r[i];
          start * (ratio * Pow(ratio, i - 1));
          (start * Pow(ratio, i - 1)) * ratio;
        }
      }
    }
    r
  }

  function GeometricGen(s: bv32, length: nat): Gen {
    var start := RangeDraw(s, 1, 5);
    var ratio := RangeDraw(Advance(s), 2, 4);
    Gen(GeometricTerms(start, ratio, length), Advance(Advance(s)))
  }

  method GenerateGeometric(rng: SeededRng, length: nat) returns (numbers: seq<int>)
    modifies rng
    ensures Gen(numbers, rng.seed) == GeometricGen(old(rng.seed), length)
  {
    var start := rng.Range(1, 5);
    var ratio := rng.Range(2, 4);
    numbers := GeometricTerms(start, ratio, length);
  }

  // ----------------------------------------------------------------- fibonacci

  /**
   * `[first, second]` extended by the sum of the last two terms until there
   * are `length` terms; never fewer than two.
   */
  function FibonacciTerms(first: int, second: int, length: nat): (r: seq<int>)
    ensures |r| == Max(2, length)
    ensures r[0] == first && r[1] == second
    ensures forall i :: 2 <= i < |r| ==> SumOfTwoAt(r, i)
  {
    if length <= 2 then [first, second]
    else
      var p := FibonacciTerms(first, second, length - 1);
      var r := p + [p[|p| - 1] + p[|p| - 2]];
      assert forall i :: 2 <= i < |r| ==> SumOfTwoAt(r, i) by {
        forall i | 2 <= i < |r| ensures SumOfTwoAt(r, i) {
          if i < |p| { assert SumOfTwoAt(p, i); }
        }
      }
      r
  }

  function FibonacciGen(s: bv32, length: nat): Gen {
    var start1 := RangeDraw(s, 0, 5);
    var start2 := RangeDraw(Advance(s), 1, 5);
    Gen(FibonacciTerms(start1, start2, length), Advance(Advance(s)))
  }

  method GenerateFibonacci(rng: SeededRng, length: nat) returns (numbers: seq<int>)
    modifies rng
    ensures Gen(numbers, rng.seed) == FibonacciGen(old(rng.seed), length)
  {
    var start1 := rng.Range(0, 5);
    var start2 := rng.Range(1, 5);
    numbers := [start1, start2];
    var i := 2;
    while i < length
      invariant 2 <= i <= Max(2, length)
      invariant numbers == FibonacciTerms(start1, start2, i)
    {
      numbers := numbers + [numbers[i - 1] + numbers[i - 2]];
      i := i + 1;
    }
  }

  // ------------------------------------------------------------------- squares

  lemma SquareStep(m: int, n: int)
    requires n == m + 1
    ensures n * n == m * m + 2 * n - 1
  {}

  /** `Array.from({length}, (_, i) => Math.pow(start + i, 2))`. */
  function SquareTerms(start: int, length: nat): (r: seq<int>)
    ensures |r| == length
    ensures length > 0 ==> r[0] == start * start
    ensures forall i :: 1 <= i < length ==> NextSquareAt(r, i, start)
  {
    var r := seq(length, i => (start + i) * (start + i));
    assert forall i :: 1 <= i < length ==> NextSquareAt(r, i, start) by {
      forall i | 1 <= i < length ensures NextSquareAt(r, i, start) {
        assert r[i - 1] == (start + (i - 1)) * (start + (i - 1));
        assert r[i] == (start + i) * (start + i);
        SquareStep(start + (i - 1), start + i);
      }
    }
    r
  }

  function SquareGen(s: bv32, length: nat): Gen {
    var start := RangeDraw(s, 1, 10);
    Gen(SquareTerms(start, length), Advance(s))
  }

  method GenerateSquares(rng: SeededRng, length: nat) returns (numbers: seq<int>)
    modifies rng
    ensures Gen(numbers, rng.seed) == SquareGen(old(rng.seed), length)
  {
    var start := rng.Range(1, 10);
    numbers := SquareTerms(start, length);
  }

  // -------------------------------------------------------------------- primes

  /** The fixed ascending table of the first 36 primes. */
  const PRIMES: seq<int> := [
    2, 3, 5, 7, 11, 13, 17, 19, 23, 29, 31, 37, 41, 43, 47, 53, 59, 61, 67, 71,
    73, 79, 83, 89, 97, 101, 103, 107, 109, 113, 127, 131, 137, 139, 149, 151]

  /** `primes.slice(startIdx, startIdx + length)`: both ends clamp to the table. */
  function PrimeTerms(startIdx: nat, length: nat): (r: seq<int>)
    ensures startIdx + length <= |PRIMES| ==> |r| == length
    ensures forall i :: 0 <= i < |r| ==> startIdx + i < |PRIMES| && r[i] == PRIMES[startIdx + i]
  {
    var b := Min(startIdx, |PRIMES|);
    var e := Min(startIdx + length, |PRIMES|);
    if e <= b then [] else PRIMES[b..e]
  }

  function PrimeGen(s: bv32, length: nat): Gen {
    var startIdx := RangeDraw(s, 0, Max(0, |PRIMES| - length));
    Gen(PrimeTerms(startIdx, length), Advance(s))
  }

  method GeneratePrimes(rng: SeededRng, length: nat) returns (numbers: seq<int>)
    modifies rng
    ensures Gen(numbers, rng.seed) == PrimeGen(old(rng.seed), length)
  {
    var startIdx := rng.Range(0, Max(0, |PRIMES| - length));
    numbers := PrimeTerms(startIdx, length);
  }

  // --------------------------------------------------------------- alternating

  /**
   * `[start]` extended `length - 1` times: the term at an odd index adds `add`
   * to the previous one, the term at an even index subtracts `sub`.
   */
  function AlternatingTerms(start: int, add: int, sub: int, length: nat): (r: seq<int>)
    ensures |r| == Max(1, length)
    ensures r[0] == start
    ensures forall i :: 1 <= i < |r| ==> AlternatesAt(r, i, add, sub)
  {
    if length <= 1 then [start]
    else
      var p := AlternatingTerms(start, add, sub, length - 1);
      var r := p + [if (length - 1) % 2 == 1 then p[|p| - 1] + add else p[|p| - 1] - sub];
      assert forall i :: 1 <= i < |r| ==> AlternatesAt(r, i, add, sub) by {
        forall i | 1 <= i < |r| ensures AlternatesAt(r, i, add, sub) {
          if i < |p| { assert AlternatesAt(p, i, add, sub); }
        }
      }
      r
  }

  /** The alternating terms in closed form: each add-subtract pair nets `add - sub`. */
  lemma {:induction false} AlternatingClosedForm(start: int, add: int, sub: int, length: nat, i: nat)
    requires i < Max(1, length)
    ensures AlternatingTerms(start, add, sub, length)[i]
            == start + (i / 2) * (add - sub) + (if i % 2 == 1 then add else 0)
  {
    var r := AlternatingTerms(start, add, sub, length);
    if i > 0 {
      AlternatingClosedForm(start, add, sub, length, i - 1);
      assert AlternatesAt(r, i, add, sub);
      if i % 2 == 1 {
        assert (i - 1) / 2 == i / 2;
      } else {
        assert (i - 1) / 2 == i / 2 - 1;
        assert (i / 2 - 1) * (add - sub) + add - sub == (i / 2) * (add - sub);
      }
    }
  }

  function AlternatingGen(s: bv32, length: nat): Gen {
    var start := RangeDraw(s, 1, 20);
    var op1 := RangeDraw(Advance(s), 2, 5);
    var op2 := RangeDraw(Advance(Advance(s)), 1, 3);
    Gen(AlternatingTerms(start, op1, op2, length), Advance(Advance(Advance(s))))
  }

  method GenerateAlternating(rng: SeededRng, length: nat) returns (numbers: seq<int>)
    modifies rng
    ensures Gen(numbers, rng.seed) == AlternatingGen(old(rng.seed), length)
  {
    var start := rng.Range(1, 20);
    var op1 := rng.Range(2, 5);
    var op2 := rng.Range(1, 3);
    numbers := [start];
    var current := start;
    var i := 1;
    while i < length
      invariant 1 <= i <= Max(1, length)
      invariant numbers == AlternatingTerms(start, op1, op2, i)
      invariant current == numbers[i - 1]
    {
      if i % 2 == 1 {
        current := current + op1;
      } else {
        current := current - op2;
      }
      numbers := numbers + [current];
      i := i + 1;
    }
  }

  // -------------------------------------------------------------- sum-previous

  /** The three seeds extended by the sum of the last three terms; never fewer than three. */
  function SumPreviousTerms(seeds: seq<int>, length: nat): (r: seq<int>)
    requires |seeds| == 3
    ensures |r| == Max(3, length)
    ensures r[..3] == seeds
    ensures forall i :: 3 <= i < |r| ==> SumOfThreeAt(r, i)
  {
    if length <= 3 then seeds
    else
      var p := SumPreviousTerms(seeds, length - 1);
      var r := p + [p[|p| - 1] + p[|p| - 2] + p[|p| - 3]];
      assert r[..3] == p[..3];
      assert forall i :: 3 <= i < |r| ==> SumOfThreeAt(r, i) by {
        forall i | 3 <= i < |r| ensures SumOfThreeAt(r, i) {
          if i < |p| { assert SumOfThreeAt(p, i); }
        }
      }
      r
  }

  function SumPreviousGen(s: bv32, length: nat): Gen {
    var a := RangeDraw(s, 1, 3);
    var b := RangeDraw(Advance(s), 1, 3);
    var c := RangeDraw(Advance(Advance(s)), 1, 3);
    Gen(SumPreviousTerms(SortAscending3(a, b, c), length), Advance(Advance(Advance(s))))
  }

  /** The loop of `generateSumPrevious`: append the sum of the last three terms until there are `length`. */
  method ExtendBySums(seeds: seq<int>, length: nat) returns (numbers: seq<int>)
    requires |seeds| == 3
    ensures numbers == SumPreviousTerms(seeds, length)
  {
    numbers := seeds;
    var i := 3;
    while i < length
      invariant 3 <= i <= Max(3, length)
      invariant numbers == SumPreviousTerms(seeds, i)
    {
      assert SumPreviousTerms(seeds, i + 1) == numbers + [numbers[i - 1] + numbers[i - 2] + numbers[i - 3]];
      numbers := numbers + [numbers[i - 1] + numbers[i - 2] + numbers[i - 3]];
      i := i + 1;
    }
  }

  method GenerateSumPrevious(rng: SeededRng, length: nat) returns (numbers: seq<int>)
    modifies rng
    ensures Gen(numbers, rng.seed) == SumPreviousGen(old(rng.seed), length)
  {
    var a := rng.Range(1, 3);
    var b := rng.Range(1, 3);
    var c := rng.Range(1, 3);
    var seeds := SortAscending3(a, b, c);
    numbers := ExtendBySums(seeds, length);
  }

  // --------------------------------------------------------------- interleaved

  /** What the interleaving loop has built after `n` rounds: `a[k]`, then `b[k]` if `b` has one. */
  function InterleaveRounds(a: seq<int>, b: seq<int>, n: nat): (r: seq<int>)
    requires n <= |a|
    ensures |r| == n + Min(n, |b|)
    ensures forall k :: 0 <= k < Min(n, |b|) ==> r[2 * k] == a[k] && r[2 * k + 1] == b[k]
    ensures forall k :: |b| <= k < n ==> r[|b| + k] == a[k]
  {
    if n == 0 then []
    else
      var p := InterleaveRounds(a, b, n - 1);
      if n - 1 < |b| then p + [a[n - 1]] + [b[n - 1]] else p + [a[n - 1]]
  }

  /** Two arithmetic runs interleaved; the first has the extra term when `length` is odd. */
  function InterleavedTerms(startA: int, diffA: int, startB: int, diffB: int, length: nat): (r: seq<int>)
    ensures |r| == length
    ensures forall i :: 0 <= i < length && i % 2 == 0 ==> r[i] == startA + (i / 2) * diffA
    ensures forall i :: 0 <= i < length && i % 2 == 1 ==> r[i] == startB + (i / 2) * diffB
  {
    var lenA := (length + 1) / 2;
    var lenB := length / 2;
    var seqA := ArithmeticTerms(startA, diffA, lenA);
    var seqB := ArithmeticTerms(startB, diffB, lenB);
    var r := InterleaveRounds(seqA, seqB, lenA);
    forall i | 0 <= i < length
      ensures i % 2 == 0 ==> r[i] == seqA[i / 2]
      ensures i % 2 == 1 ==> r[i] == seqB[i / 2]
    {
      var k := i / 2;
      if i % 2 == 0 {
        assert i == 2 * k;
        if k < lenB {
          assert r[2 * k] == seqA[k];
        } else {
          assert r[lenB + k] == seqA[k];
        }
      } else {
        assert i == 2 * k + 1;
        assert r[2 * k + 1] == seqB[k];
      }
    }
    r
  }

  function InterleavedGen(s: bv32, length: nat): Gen {
    var startA := RangeDraw(s, 1, 10);
    var diffA := RangeDraw(Advance(s), 1, 5);
    var startB := RangeDraw(Advance(Advance(s)), 10, 20);
    var diffB := RangeDraw(Advance(Advance(Advance(s))), 2, 5);
    Gen(InterleavedTerms(startA, diffA, startB, diffB, length), Advance(Advance(Advance(Advance(s)))))
  }

  method GenerateInterleaved(rng: SeededRng, length: nat) returns (numbers: seq<int>)
    modifies rng
    ensures Gen(numbers, rng.seed) == InterleavedGen(old(rng.seed), length)
  {
    var lenA := (length + 1) / 2;
    var lenB := length / 2;
    var startA := rng.Range(1, 10);
    var diffA := rng.Range(1, 5);
    var seqA := ArithmeticTerms(startA, diffA, lenA);
    var startB := rng.Range(10, 20);
    var diffB := rng.Range(2, 5);
    var seqB := ArithmeticTerms(startB, diffB, lenB);
    numbers := [];
    var i := 0;
    while i < lenA
      invariant 0 <= i <= lenA
      invariant numbers == InterleaveRounds(seqA, seqB, i)
    {
      numbers := numbers + [seqA[i]];
      if i < |seqB| {
        numbers := numbers + [seqB[i]];
      }
      i := i + 1;
    }
  }
}
