/**
 * The daily sequence: the pattern table, the validity barriers and the
 * bounded selection loop that turns a calendar date into a puzzle.
 */
module Generator {
  import opened Rng
  import opened Families
  import opened Sorting
  import opened Constants
  import Decimal

  // ------------------------------------------------------------ pattern table

  datatype Family =
    | Arithmetic | Geometric | Fibonacci | Square
    | Prime | Alternating | SumPrevious | Interleaved

  /** The families in table order; `pick` draws an index into this table. */
  const PATTERN_GENERATORS: seq<Family> :=
    [Arithmetic, Geometric, Fibonacci, Square, Prime, Alternating, SumPrevious, Interleaved]

  function Name(f: Family): string {
    match f
    case Arithmetic => ARITHMETIC_NAME
    case Geometric => GEOMETRIC_NAME
    case Fibonacci => FIBONACCI_NAME
    case Square => SQUARE_NAME
    case Prime => PRIME_NAME
    case Alternating => ALTERNATING_NAME
    case SumPrevious => SUM_PREVIOUS_NAME
    case Interleaved => INTERLEAVED_NAME
  }

  function Explanation(f: Family): string {
    match f
    case Arithmetic => "Adds a constant number each missing step."
    case Geometric => "Multiplies by a constant number each step."
    case Fibonacci => "Each number is the sum of the two preceding ones."
    case Square => "Consecutive square numbers."
    case Prime => "Consecutive prime numbers."
    case Alternating => "Alternates between adding two different values."
    case SumPrevious => "Each number is the sum of the previous 3 numbers."
    case Interleaved => "Two different arithmetic sequences interleaved."
  }

  /** `pattern.gen(rng, length)` from generator state `s`. */
  function Generate(f: Family, s: bv32, length: nat): (g: Gen)
    ensures 3 <= length <= |PRIMES| ==> |g.numbers| == length
  {
    match f
    case Arithmetic => ArithmeticGen(s, length)
    case Geometric => GeometricGen(s, length)
    case Fibonacci => FibonacciGen(s, length)
    case Square => SquareGen(s, length)
    case Prime => PrimeGen(s, length)
    case Alternating => AlternatingGen(s, length)
    case SumPrevious => SumPreviousGen(s, length)
    case Interleaved => InterleavedGen(s, length)
  }

  method GenerateFamily(f: Family, rng: SeededRng, length: nat) returns (numbers: seq<int>)
    modifies rng
    ensures Gen(numbers, rng.seed) == Generate(f, old(rng.seed), length)
  {
    match f
    case Arithmetic => numbers := GenerateArithmetic(rng, length);
    case Geometric => numbers := GenerateGeometric(rng, length);
    case Fibonacci => numbers := GenerateFibonacci(rng, length);
    case Square => numbers := GenerateSquares(rng, length);
    case Prime => numbers := GeneratePrimes(rng, length);
    case Alternating => numbers := GenerateAlternating(rng, length);
    case SumPrevious => numbers := GenerateSumPrevious(rng, length);
    case Interleaved => numbers := GenerateInterleaved(rng, length);
  }

  // ------------------------------------------------------------ rules

  /** Term `i` is the term two places before it plus `even` (even `i`) or `odd` (odd `i`). */
  predicate StepsTwoAt(r: seq<int>, i: int, even: int, odd: int) {
    2 <= i < |r| && r[i] == r[i - 2] + (if i % 2 == 0 then even else odd)
  }

  predicate ConstantDifference(n: seq<int>, d: int) {
    forall i :: 1 <= i < |n| ==> AddsAt(n, i, d)
  }

  predicate ConstantRatio(n: seq<int>, q: int) {
    forall i :: 1 <= i < |n| ==> MultipliesAt(n, i, q)
  }

  predicate ConsecutiveSquares(n: seq<int>, root: int) {
    forall i :: 1 <= i < |n| ==> NextSquareAt(n, i, root)
  }

  predicate AlternatingSteps(n: seq<int>, add: int, sub: int) {
    forall i :: 1 <= i < |n| ==> AlternatesAt(n, i, add, sub)
  }

  /** `n` is the run of the prime table that starts at index `k`. */
  predicate PrimeWindow(n: seq<int>, k: int) {
    0 <= k <= |PRIMES| - |n| && n == PRIMES[k..k + |n|]
  }

  predicate TwoStrides(n: seq<int>, even: int, odd: int) {
    forall i :: 2 <= i < |n| ==> StepsTwoAt(n, i, even, odd)
  }

  /**
   * The rule a daily sequence of family `f` obeys, stated on the nine numbers
   * alone: the parameter ranges the generator draws from and the recurrence
   * that links each term to the ones before it.
   */
  predicate FollowsRule(f: Family, n: seq<int>) {
    |n| == TOTAL_LENGTH &&
    match f
    case Arithmetic =>
      1 <= n[0] <= 20 && 2 <= n[1] - n[0] <= 12 && ConstantDifference(n, n[1] - n[0])
    case Geometric =>
      1 <= n[0] <= 5 && exists q :: 2 <= q <= 4 && ConstantRatio(n, q)
    case Fibonacci =>
      0 <= n[0] <= 5 && 1 <= n[1] <= 5 && forall i :: 2 <= i < |n| ==> SumOfTwoAt(n, i)
    case Square =>
      var root := (n[1] - n[0] - 1) / 2;
      1 <= root <= 10 && n[0] == root * root && ConsecutiveSquares(n, root)
    case Prime =>
      exists k :: 0 <= k <= |PRIMES| - TOTAL_LENGTH && PrimeWindow(n, k)
    case Alternating =>
      1 <= n[0] <= 20 && 2 <= n[1] - n[0] <= 5 && 1 <= n[1] - n[2] <= 3 &&
      AlternatingSteps(n, n[1] - n[0], n[1] - n[2])
    case SumPrevious =>
      1 <= n[0] <= n[1] <= n[2] <= 3 && forall i :: 3 <= i < |n| ==> SumOfThreeAt(n, i)
    case Interleaved =>
      1 <= n[0] <= 10 && 1 <= n[2] - n[0] <= 5 && 10 <= n[1] <= 20 && 2 <= n[3] - n[1] <= 5 &&
      TwoStrides(n, n[2] - n[0], n[3] - n[1])
  }

  lemma NextMultiple(start: int, k: int, d: int)
    ensures start + k * d == start + (k - 1) * d + d
  {
  }

  lemma InterleavedStrides(startA: int, diffA: int, startB: int, diffB: int, length: nat)
    ensures TwoStrides(InterleavedTerms(startA, diffA, startB, diffB, length), diffA, diffB)
  {
    var r := InterleavedTerms(startA, diffA, startB, diffB, length);
    forall i | 2 <= i < length ensures StepsTwoAt(r, i, diffA, diffB) {
      var k := i / 2;
      if i % 2 == 0 {
        assert i == 2 * k && i - 2 == 2 * (k - 1);
        NextMultiple(startA, k, diffA);
      } else {
        assert i == 2 * k + 1 && i - 2 == 2 * (k - 1) + 1;
        NextMultiple(startB, k, diffB);
      }
    }
  }

  lemma ArithmeticFollowsRule(s: bv32)
    ensures FollowsRule(Arithmetic, Generate(Arithmetic, s, TOTAL_LENGTH).numbers)
  {
    var n := Generate(Arithmetic, s, TOTAL_LENGTH).numbers;
    assert AddsAt(n, 1, RangeDraw(Advance(s), 2, 12));
  }

  lemma GeometricFollowsRule(s: bv32)
    ensures FollowsRule(Geometric, Generate(Geometric, s, TOTAL_LENGTH).numbers)
  {
    var n := Generate(Geometric, s, TOTAL_LENGTH).numbers;
    assert ConstantRatio(n, RangeDraw(Advance(s), 2, 4));
  }

  /** Nine consecutive squares from a root in `[1, 10]` follow the square rule. */
  lemma SquareTermsFollow(root: int)
    requires 1 <= root <= 10
    ensures FollowsRule(Square, SquareTerms(root, TOTAL_LENGTH))
  {
    var n := SquareTerms(root, TOTAL_LENGTH);
    assert NextSquareAt(n, 1, root);
    assert n[1] - n[0] - 1 == 2 * root;
  }

  lemma SquareFollowsRule(s: bv32)
    ensures FollowsRule(Square, Generate(Square, s, TOTAL_LENGTH).numbers)
  {
    SquareTermsFollow(RangeDraw(s, 1, 10));
  }

  lemma PrimeFollowsRule(s: bv32)
    ensures FollowsRule(Prime, Generate(Prime, s, TOTAL_LENGTH).numbers)
  {
    var n := Generate(Prime, s, TOTAL_LENGTH).numbers;
    var k := RangeDraw(s, 0, |PRIMES| - TOTAL_LENGTH);
    assert n == PRIMES[k..k + TOTAL_LENGTH] by {
      forall i | 0 <= i < TOTAL_LENGTH ensures n[i] == PRIMES[k..k + TOTAL_LENGTH][i] {}
    }
    assert PrimeWindow(n, k);
  }

  lemma AlternatingFollowsRule(s: bv32)
    ensures FollowsRule(Alternating, Generate(Alternating, s, TOTAL_LENGTH).numbers)
  {
    var n := Generate(Alternating, s, TOTAL_LENGTH).numbers;
    var add := RangeDraw(Advance(s), 2, 5);
    var sub := RangeDraw(Advance(Advance(s)), 1, 3);
    assert AlternatesAt(n, 1, add, sub) && AlternatesAt(n, 2, add, sub);
  }

  /** Sorting keeps the three values, so it keeps any range they share. */
  lemma SortedWithin(x: int, y: int, z: int, lo: int, hi: int)
    requires lo <= x <= hi && lo <= y <= hi && lo <= z <= hi
    ensures var r := SortAscending3(x, y, z); lo <= r[0] && r[2] <= hi
  {
    var r := SortAscending3(x, y, z);
    assert r[0] in multiset([x, y, z]) by { assert r[0] in multiset(r); }
    assert r[2] in multiset([x, y, z]) by { assert r[2] in multiset(r); }
  }

  lemma SumPreviousFollowsRule(s: bv32)
    ensures FollowsRule(SumPrevious, Generate(SumPrevious, s, TOTAL_LENGTH).numbers)
  {
    var n := Generate(SumPrevious, s, TOTAL_LENGTH).numbers;
    var a := RangeDraw(s, 1, 3);
    var b := RangeDraw(Advance(s), 1, 3);
    var c := RangeDraw(Advance(Advance(s)), 1, 3);
    var seeds := SortAscending3(a, b, c);
    SortedWithin(a, b, c, 1, 3);
    assert n[..3] == seeds;
    assert n[0] == seeds[0] && n[1] == seeds[1] && n[2] == seeds[2];
  }

  lemma InterleavedFollowsRule(s: bv32)
    ensures FollowsRule(Interleaved, Generate(Interleaved, s, TOTAL_LENGTH).numbers)
  {
    var n := Generate(Interleaved, s, TOTAL_LENGTH).numbers;
    var diffA := RangeDraw(Advance(s), 1, 5);
    var diffB := RangeDraw(Advance(Advance(Advance(s))), 2, 5);
    InterleavedStrides(RangeDraw(s, 1, 10), diffA, RangeDraw(Advance(Advance(s)), 10, 20), diffB, TOTAL_LENGTH);
    assert StepsTwoAt(n, 2, diffA, diffB) && StepsTwoAt(n, 3, diffA, diffB);
  }

  /** Every family's nine numbers obey that family's rule, whatever the generator state. */
  lemma GenerateFollowsRule(f: Family, s: bv32)
    ensures FollowsRule(f, Generate(f, s, TOTAL_LENGTH).numbers)
  {
    match f
    case Arithmetic => ArithmeticFollowsRule(s);
    case Geometric => GeometricFollowsRule(s);
    case Fibonacci =>
    case Square => SquareFollowsRule(s);
    case Prime => PrimeFollowsRule(s);
    case Alternating => AlternatingFollowsRule(s);
    case SumPrevious => SumPreviousFollowsRule(s);
    case Interleaved => InterleavedFollowsRule(s);
  }

  // ------------------------------------------------------------ barriers

  /** Largest magnitude a number of an accepted sequence may have. */
  const MAX_MAGNITUDE: int := 10000

  function Abs(x: int): int { if x < 0 then -x else x }

  predicate WithinMagnitude(n: seq<int>) {
    forall i :: 0 <= i < |n| ==> Abs(n[i]) <= MAX_MAGNITUDE
  }

  /** At least two positions of `n` hold different numbers. */
  predicate NotConstant(n: seq<int>) {
    exists i, j :: 0 <= i < |n| && 0 <= j < |n| && n[i] != n[j]
  }

  /** `numbers.some(n => Math.abs(n) > 10000)`, scanning from the front. */
  function AnyBeyondMagnitude(n: seq<int>): bool {
    |n| > 0 && (Abs(n[0]) > MAX_MAGNITUDE || AnyBeyondMagnitude(n[1..]))
  }

  lemma {:induction false} BeyondMagnitude(n: seq<int>)
    ensures AnyBeyondMagnitude(n) <==> !WithinMagnitude(n)
  {
    if |n| > 0 {
      BeyondMagnitude(n[1..]);
      assert forall i :: 1 <= i < |n| ==> n[1..][i - 1] == n[i];
      if !WithinMagnitude(n) && Abs(n[0]) <= MAX_MAGNITUDE {
        var i :| 0 <= i < |n| && Abs(n[i]) > MAX_MAGNITUDE;
        assert Abs(n[1..][i - 1]) > MAX_MAGNITUDE;
      }
    }
  }

  /** `new Set(numbers)`: the numbers of `n`, without repetition. */
  function ValueSet(n: seq<int>): set<int> {
    if |n| == 0 then {} else {n[0]} + ValueSet(n[1..])
  }

  lemma {:induction false} ValueSetMembers(n: seq<int>)
    ensures forall x :: x in ValueSet(n) <==> x in n
  {
    if |n| > 0 {
      ValueSetMembers(n[1..]);
      assert n == [n[0]] + n[1..];
    }
  }

  /** The set of values has two elements or more exactly when the sequence is not constant. */
  lemma DistinctCount(n: seq<int>)
    ensures |ValueSet(n)| >= 2 <==> NotConstant(n)
  {
    var u := ValueSet(n);
    ValueSetMembers(n);
    if NotConstant(n) {
      var i, j :| 0 <= i < |n| && 0 <= j < |n| && n[i] != n[j];
      var pair := {n[i], n[j]};
      assert pair * (u - pair) == {};
      assert u == pair + (u - pair);
    } else if |n| == 0 {
      assert u == {};
    } else {
      assert u == {n[0]} by {
        forall x | x in u ensures x == n[0] {
          var i :| 0 <= i < |n| && n[i] == x;
          assert n[i] == n[0];
        }
      }
    }
  }

  /**
   * `isValidSequence`: no number above the magnitude limit and at least two
   * distinct numbers. The source's integer barrier holds of every `int` and
   * so rejects nothing here.
   */
  function IsValidSequence(numbers: seq<int>): bool {
    !AnyBeyondMagnitude(numbers) && |ValueSet(numbers)| >= 2
  }

  /** A sequence passes the barriers exactly when it is within the magnitude limit and not constant. */
  lemma ValidSequenceIff(numbers: seq<int>)
    ensures IsValidSequence(numbers) <==> WithinMagnitude(numbers) && NotConstant(numbers)
  {
    BeyondMagnitude(numbers);
    DistinctCount(numbers);
  }

  /** Bounds checked term by term on a nine-term sequence. */
  lemma NineWithin(n: seq<int>, lo: int, hi: int)
    requires |n| == 9 && -MAX_MAGNITUDE <= lo && hi <= MAX_MAGNITUDE
    requires lo <= n[0] <= hi && lo <= n[1] <= hi && lo <= n[2] <= hi
    requires lo <= n[3] <= hi && lo <= n[4] <= hi && lo <= n[5] <= hi
    requires lo <= n[6] <= hi && lo <= n[7] <= hi && lo <= n[8] <= hi
    ensures WithinMagnitude(n)
  {
    forall i | 0 <= i < |n| ensures Abs(n[i]) <= MAX_MAGNITUDE {
      assert i == 0 || i == 1 || i == 2 || i == 3 || i == 4 || i == 5 || i == 6 || i == 7 || i == 8;
    }
  }

  lemma ArithmeticValid(n: seq<int>)
    requires FollowsRule(Arithmetic, n)
    ensures IsValidSequence(n)
  {
    var d := n[1] - n[0];
    assert AddsAt(n, 2, d) && AddsAt(n, 3, d) && AddsAt(n, 4, d) && AddsAt(n, 5, d);
    assert AddsAt(n, 6, d) && AddsAt(n, 7, d) && AddsAt(n, 8, d);
    NineWithin(n, 1, 116);
    assert n[0] != n[1];
    ValidSequenceIff(n);
  }

  lemma FibonacciValid(n: seq<int>)
    requires FollowsRule(Fibonacci, n)
    ensures IsValidSequence(n)
  {
    assert SumOfTwoAt(n, 2) && SumOfTwoAt(n, 3) && SumOfTwoAt(n, 4) && SumOfTwoAt(n, 5);
    assert SumOfTwoAt(n, 6) && SumOfTwoAt(n, 7) && SumOfTwoAt(n, 8);
    NineWithin(n, 0, 170);
    assert n[1] != n[3];
    ValidSequenceIff(n);
  }

  lemma SquareAtMost(root: int)
    requires 1 <= root <= 10
    ensures root * root <= 100
  {
    assert root * root <= 10 * root;
  }

  lemma SquareValid(n: seq<int>)
    requires FollowsRule(Square, n)
    ensures IsValidSequence(n)
  {
    var root := (n[1] - n[0] - 1) / 2;
    SquareAtMost(root);
    assert NextSquareAt(n, 1, root) && NextSquareAt(n, 2, root) && NextSquareAt(n, 3, root);
    assert NextSquareAt(n, 4, root) && NextSquareAt(n, 5, root) && NextSquareAt(n, 6, root);
    assert NextSquareAt(n, 7, root) && NextSquareAt(n, 8, root);
    NineWithin(n, 1, 324);
    assert n[0] != n[1];
    ValidSequenceIff(n);
  }

  lemma PrimesAscending()
    ensures forall i :: 1 <= i < |PRIMES| ==> PRIMES[i - 1] < PRIMES[i]
    ensures forall i :: 0 <= i < |PRIMES| ==> 2 <= PRIMES[i] <= 151
  {
  }

  lemma PrimeValid(n: seq<int>)
    requires FollowsRule(Prime, n)
    ensures IsValidSequence(n)
  {
    var k :| 0 <= k <= |PRIMES| - TOTAL_LENGTH && PrimeWindow(n, k);
    PrimesAscending();
    assert forall i :: 0 <= i < |n| ==> n[i] == PRIMES[k + i];
    assert n[0] != n[1] by { assert PRIMES[k] < PRIMES[k + 1]; }
    ValidSequenceIff(n);
  }

  lemma AlternatingValid(n: seq<int>)
    requires FollowsRule(Alternating, n)
    ensures IsValidSequence(n)
  {
    var add, sub := n[1] - n[0], n[1] - n[2];
    assert AlternatesAt(n, 3, add, sub) && AlternatesAt(n, 4, add, sub) && AlternatesAt(n, 5, add, sub);
    assert AlternatesAt(n, 6, add, sub) && AlternatesAt(n, 7, add, sub) && AlternatesAt(n, 8, add, sub);
    NineWithin(n, -20, 60);
    assert n[0] != n[1];
    ValidSequenceIff(n);
  }

  lemma SumPreviousValid(n: seq<int>)
    requires FollowsRule(SumPrevious, n)
    ensures IsValidSequence(n)
  {
    assert SumOfThreeAt(n, 3) && SumOfThreeAt(n, 4) && SumOfThreeAt(n, 5);
    assert SumOfThreeAt(n, 6) && SumOfThreeAt(n, 7) && SumOfThreeAt(n, 8);
    NineWithin(n, 1, 171);
    assert n[2] != n[3];
    ValidSequenceIff(n);
  }

  lemma InterleavedValid(n: seq<int>)
    requires FollowsRule(Interleaved, n)
    ensures IsValidSequence(n)
  {
    var even, odd := n[2] - n[0], n[3] - n[1];
    assert StepsTwoAt(n, 4, even, odd) && StepsTwoAt(n, 5, even, odd) && StepsTwoAt(n, 6, even, odd);
    assert StepsTwoAt(n, 7, even, odd) && StepsTwoAt(n, 8, even, odd);
    NineWithin(n, 1, 40);
    assert n[0] != n[2];
    ValidSequenceIff(n);
  }

  /** Nine terms with a constant ratio `q` from a positive start: ascending, and the last term in closed form. */
  lemma GeometricGrowth(n: seq<int>, q: int)
    requires |n| == 9 && n[0] >= 1 && 2 <= q <= 4 && ConstantRatio(n, q)
    ensures n[8] == (if q == 2 then 256 else if q == 3 then 6561 else 65536) * n[0]
    ensures forall i :: 0 <= i < |n| ==> n[0] <= n[i] <= n[8]
  {
    if q == 2 {
      assert MultipliesAt(n, 1, 2) && MultipliesAt(n, 2, 2) && MultipliesAt(n, 3, 2) && MultipliesAt(n, 4, 2);
      assert MultipliesAt(n, 5, 2) && MultipliesAt(n, 6, 2) && MultipliesAt(n, 7, 2) && MultipliesAt(n, 8, 2);
    } else if q == 3 {
      assert MultipliesAt(n, 1, 3) && MultipliesAt(n, 2, 3) && MultipliesAt(n, 3, 3) && MultipliesAt(n, 4, 3);
      assert MultipliesAt(n, 5, 3) && MultipliesAt(n, 6, 3) && MultipliesAt(n, 7, 3) && MultipliesAt(n, 8, 3);
    } else {
      assert MultipliesAt(n, 1, 4) && MultipliesAt(n, 2, 4) && MultipliesAt(n, 3, 4) && MultipliesAt(n, 4, 4);
      assert MultipliesAt(n, 5, 4) && MultipliesAt(n, 6, 4) && MultipliesAt(n, 7, 4) && MultipliesAt(n, 8, 4);
    }
    forall i | 0 <= i < |n| ensures n[0] <= n[i] <= n[8] {
      assert i == 0 || i == 1 || i == 2 || i == 3 || i == 4 || i == 5 || i == 6 || i == 7 || i == 8;
    }
  }

  /** A geometric sequence passes the barriers exactly when its last term is within the magnitude limit. */
  lemma GeometricValid(n: seq<int>)
    requires FollowsRule(Geometric, n)
    ensures IsValidSequence(n) <==> n[8] <= MAX_MAGNITUDE
  {
    var q :| 2 <= q <= 4 && ConstantRatio(n, q);
    GeometricGrowth(n, q);
    assert n[0] != n[1] by { assert MultipliesAt(n, 1, q); }
    ValidSequenceIff(n);
    if n[8] <= MAX_MAGNITUDE {
      assert WithinMagnitude(n);
    }
  }

  /**
   * Of the fifteen (start, ratio) draws of the geometric family only six are
   * accepted: ratio 2 with any start, and ratio 3 from start 1.
   */
  lemma GeometricAccepted(start: int, ratio: int)
    requires 1 <= start <= 5 && 2 <= ratio <= 4
    ensures IsValidSequence(GeometricTerms(start, ratio, TOTAL_LENGTH)) <==> ratio == 2 || (ratio == 3 && start == 1)
  {
    var n := GeometricTerms(start, ratio, TOTAL_LENGTH);
    assert ConstantRatio(n, ratio);
    assert FollowsRule(Geometric, n);
    GeometricValid(n);
    GeometricGrowth(n, ratio);
  }

  /** Every family but the geometric one always passes the barriers. */
  lemma RuleValid(f: Family, n: seq<int>)
    requires FollowsRule(f, n) && f != Geometric
    ensures IsValidSequence(n)
  {
    match f
    case Arithmetic => ArithmeticValid(n);
    case Fibonacci => FibonacciValid(n);
    case Square => SquareValid(n);
    case Prime => PrimeValid(n);
    case Alternating => AlternatingValid(n);
    case SumPrevious => SumPreviousValid(n);
    case Interleaved => InterleavedValid(n);
  }

  // ------------------------------------------------------------ daily selection

  /** Number of draws made before the fixed fallback is returned. */
  const MAX_ATTEMPTS: nat := 20

  /** The puzzle handed to the game. */
  datatype SequenceData = SequenceData(
    numbers: seq<int>,
    visibleCount: nat,
    patternName: string,
    explanation: string)

  const FALLBACK_EXPLANATION: string := "Fallback arithmetic sequence."

  /** Returned when none of the attempts passes the barriers. */
  const FALLBACK: SequenceData :=
    SequenceData([2, 4, 6, 8, 10, 12, 14, 16, 18], INITIAL_VISIBLE_COUNT, ARITHMETIC_NAME, FALLBACK_EXPLANATION)

  /** The puzzle announced for an accepted sequence of family `f`. */
  function Announce(f: Family, numbers: seq<int>): SequenceData {
    SequenceData(numbers, INITIAL_VISIBLE_COUNT, Name(f), Explanation(f))
  }

  /**
   * The numeric seed of a date: `${year}${MM}${DD}` read back with
   * `parseInt(…, 10)`, where `MM` and `DD` are the month (1-based) and the day
   * padded to two digits. A negative year keeps its minus sign, which
   * `parseInt` reads as the sign of the whole number.
   */
  function DateSeed(year: int, month: nat, day: nat): (seed: int)
    ensures month < 100 && day < 100 ==>
      seed == if year >= 0 then year * 10000 + month * 100 + day else year * 10000 - (month * 100 + day)
  {
    var mm := Decimal.PadStart2(Decimal.Numeral(month));
    var dd := Decimal.PadStart2(Decimal.Numeral(day));
    var size: nat := if year >= 0 then year else -year;
    var y := Decimal.Numeral(size);
    Decimal.DigitsConcat(y, mm);
    Decimal.DigitsConcat(y + mm, dd);
    var magnitude: int := Decimal.ParseDigits(y + mm + dd);
    if month < 100 && day < 100 then
      Decimal.ParsePadded(month);
      Decimal.ParsePadded(day);
      Decimal.ParseNumeral(size);
      Decimal.ParseThree(y, mm, dd);
      if year >= 0 then magnitude else -magnitude
    else
      if year >= 0 then magnitude else -magnitude
  }

  /** One attempt from state `t`: `pick` a family, then run its generator. */
  datatype Attempt = Attempt(family: Family, gen: Gen)

  function TryFrom(t: bv32): Attempt {
    var f := PATTERN_GENERATORS[PickIndex(t, |PATTERN_GENERATORS|)];
    Attempt(f, Generate(f, Advance(t), TOTAL_LENGTH))
  }

  predicate Rejected(a: Attempt) {
    !IsValidSequence(a.gen.numbers)
  }

  /**
   * The next `count` attempts from state `t`, in order, when each attempt is
   * made by `try` and the next one starts where it left the generator.
   */
  function Attempts(try: bv32 -> Attempt, t: bv32, count: nat): (r: seq<Attempt>)
    ensures |r| == count
    // `t` is listed so that a literal count does not let the verifier
    // unfold every attempt at once; `count` alone decreases.
    decreases count, t
  {
    if count == 0 then [] else [try(t)] + Attempts(try, try(t).gen.after, count - 1)
  }

  /** The fallback follows the arithmetic rule and passes the barriers. */
  lemma FallbackFollowsArithmetic()
    ensures FollowsRule(Arithmetic, FALLBACK.numbers) && IsValidSequence(FALLBACK.numbers)
  {
    var n := FALLBACK.numbers;
    assert ConstantDifference(n, 2) by {
      forall i | 1 <= i < |n| ensures AddsAt(n, i, 2) {
        assert i == 1 || i == 2 || i == 3 || i == 4 || i == 5 || i == 6 || i == 7 || i == 8;
      }
    }
    ArithmeticValid(n);
  }

  /** How the selection loop ends: with an accepted attempt, or after the last one. */
  datatype Outcome = Accepted(family: Family, numbers: seq<int>) | Exhausted

  /** The first attempt of `A` that passes the barriers, if there is one. */
  function FirstValid(A: seq<Attempt>): Outcome {
    if |A| == 0 then Exhausted
    else if !Rejected(A[0]) then Accepted(A[0].family, A[0].gen.numbers)
    else FirstValid(A[1..])
  }

  /**
   * The outcome of the selection loop entered with `attempts` attempts already
   * made and the generator in state `t`: the first of the attempts left that
   * passes the barriers.
   */
  function SelectFrom(t: bv32, attempts: nat): Outcome
    requires attempts <= MAX_ATTEMPTS
  {
    FirstValid(Attempts(TryFrom, t, MAX_ATTEMPTS - attempts))
  }

  /** The puzzle returned for an outcome. */
  function Present(o: Outcome): SequenceData {
    match o
    case Accepted(f, numbers) => Announce(f, numbers)
    case Exhausted => FALLBACK
  }

  /** `getDailySequence` for the given calendar date. */
  function DailySequence(year: int, month: nat, day: nat): SequenceData {
    Present(SelectFrom(Seeded(DateSeed(year, month, day)), 0))
  }

  /**
   * `FirstValid` ends without an attempt exactly when every attempt is
   * rejected, and otherwise returns the first one that is not.
   */
  lemma {:induction false} FirstValidIsFirst(A: seq<Attempt>)
    ensures FirstValid(A) == Exhausted <==> forall i :: 0 <= i < |A| ==> Rejected(A[i])
    ensures forall i :: 0 <= i < |A| && !Rejected(A[i]) && (forall j :: 0 <= j < i ==> Rejected(A[j])) ==>
      FirstValid(A) == Accepted(A[i].family, A[i].gen.numbers)
  {
    if |A| > 0 {
      var B := A[1..];
      FirstValidIsFirst(B);
      assert forall i :: 0 <= i < |B| ==> B[i] == A[i + 1];
      forall i | 0 <= i < |A| && !Rejected(A[i]) && (forall j :: 0 <= j < i ==> Rejected(A[j]))
        ensures FirstValid(A) == Accepted(A[i].family, A[i].gen.numbers)
      {
        if i > 0 {
          assert Rejected(A[0]);
          assert forall j :: 0 <= j < i - 1 ==> Rejected(B[j]) by {
            forall j | 0 <= j < i - 1 ensures Rejected(B[j]) { assert Rejected(A[j + 1]); }
          }
        }
      }
      if !Rejected(A[0]) {
      } else if forall i :: 0 <= i < |B| ==> Rejected(B[i]) {
        assert forall i :: 0 <= i < |A| ==> Rejected(A[i]) by {
          forall i | 0 <= i < |A| ensures Rejected(A[i]) { if i > 0 { assert Rejected(B[i - 1]); } }
        }
      } else {
        var i :| 0 <= i < |B| && !Rejected(B[i]);
        assert !Rejected(A[i + 1]);
      }
    }
  }

  /** An outcome of `FirstValid` that is not `Exhausted` is one of the attempts, and it passes the barriers. */
  lemma {:induction false} FirstValidFound(A: seq<Attempt>)
    ensures FirstValid(A).Accepted? ==>
      exists i :: 0 <= i < |A| && !Rejected(A[i]) && FirstValid(A) == Accepted(A[i].family, A[i].gen.numbers)
  {
    if |A| > 0 && Rejected(A[0]) {
      var B := A[1..];
      FirstValidFound(B);
      if FirstValid(B).Accepted? {
        var i :| 0 <= i < |B| && !Rejected(B[i]) && FirstValid(B) == Accepted(B[i].family, B[i].gen.numbers);
        assert A[i + 1] == B[i];
      }
    } else if |A| > 0 {
      assert FirstValid(A) == Accepted(A[0].family, A[0].gen.numbers);
    }
  }

  /** Each attempt in the list is `try` of the generator state it starts in. */
  lemma {:induction false} AttemptsTried(try: bv32 -> Attempt, t: bv32, count: nat)
    ensures forall i :: 0 <= i < count ==> exists s: bv32 :: Attempts(try, t, count)[i] == try(s)
    decreases count
  {
    if count > 0 {
      var A := Attempts(try, t, count);
      var B := Attempts(try, try(t).gen.after, count - 1);
      AttemptsStep(try, t, count);
      AttemptsTried(try, try(t).gen.after, count - 1);
      forall i | 0 <= i < count ensures exists s: bv32 :: A[i] == try(s) {
        if i == 0 {
          assert A[0] == try(t);
        } else {
          assert A[i] == B[i - 1];
        }
      }
    }
  }

  /** An accepted sequence passes the barriers and is what its family's generator produces from some state. */
  ghost predicate Generated(o: Outcome) {
    o.Accepted? ==>
      IsValidSequence(o.numbers) && exists s: bv32 :: o.numbers == Generate(o.family, s, TOTAL_LENGTH).numbers
  }

  /** An accepted outcome of the attempts `try` makes is one attempt `try` made from some state. */
  lemma FirstValidTried(try: bv32 -> Attempt, t: bv32, count: nat)
    ensures var o := FirstValid(Attempts(try, t, count));
      o.Accepted? ==> exists s: bv32 :: !Rejected(try(s)) && o == Accepted(try(s).family, try(s).gen.numbers)
  {
    var A := Attempts(try, t, count);
    FirstValidFound(A);
    AttemptsTried(try, t, count);
  }

  /** An attempt that passes the barriers announces what its family's generator produced. */
  lemma TriedGenerated()
    ensures forall s: bv32 {:trigger TryFrom(s)} ::
      !Rejected(TryFrom(s)) ==> Generated(Accepted(TryFrom(s).family, TryFrom(s).gen.numbers))
  {
    forall s: bv32
      ensures !Rejected(TryFrom(s)) ==> Generated(Accepted(TryFrom(s).family, TryFrom(s).gen.numbers))
    {
      var a := TryFrom(s);
      assert a.gen.numbers == Generate(a.family, Advance(s), TOTAL_LENGTH).numbers;
    }
  }

  /** Every sequence the selection loop accepts was generated by the family it is announced under. */
  lemma SelectFromGenerated(t: bv32, attempts: nat)
    requires attempts <= MAX_ATTEMPTS
    ensures Generated(SelectFrom(t, attempts))
  {
    FirstValidTried(TryFrom, t, MAX_ATTEMPTS - attempts);
    TriedGenerated();
  }

  /**
   * Every daily puzzle has nine numbers, shows six of them, passes the
   * barriers and is named after a family whose rule it follows; unless it is
   * the fallback it also carries that family's explanation.
   */
  lemma DailySequenceShape(year: int, month: nat, day: nat)
    ensures var d := DailySequence(year, month, day);
      |d.numbers| == TOTAL_LENGTH && d.visibleCount == INITIAL_VISIBLE_COUNT &&
      IsValidSequence(d.numbers) &&
      exists f :: FollowsRule(f, d.numbers) && d.patternName == Name(f) &&
        (d.explanation == Explanation(f) || d == FALLBACK)
  {
    var t := Seeded(DateSeed(year, month, day));
    var o := SelectFrom(t, 0);
    var d := Present(o);
    SelectFromGenerated(t, 0);
    if o.Accepted? {
      var s: bv32 :| o.numbers == Generate(o.family, s, TOTAL_LENGTH).numbers;
      GenerateFollowsRule(o.family, s);
      assert FollowsRule(o.family, d.numbers) && d.patternName == Name(o.family);
    } else {
      FallbackFollowsArithmetic();
      assert FollowsRule(Arithmetic, d.numbers) && d.patternName == Name(Arithmetic);
    }
  }

  /** The attempts left from `t`: the one made now, then those left from the state it ends in. */
  lemma AttemptsStep(try: bv32 -> Attempt, t: bv32, count: nat)
    requires count > 0
    ensures Attempts(try, t, count) == [try(t)] + Attempts(try, try(t).gen.after, count - 1)
  {
  }

  /** `FirstValid` on a non-empty list looks at its head first. */
  lemma FirstValidStep(a: Attempt, B: seq<Attempt>)
    ensures FirstValid([a] + B) == if Rejected(a) then FirstValid(B) else Accepted(a.family, a.gen.numbers)
  {
    assert ([a] + B)[0] == a && ([a] + B)[1..] == B;
  }

  /** One turn of the selection loop: accept the attempt made now, or leave the outcome to the attempts after it. */
  lemma SelectStep(t: bv32, k: nat)
    requires k < MAX_ATTEMPTS
    ensures var a := TryFrom(t);
      SelectFrom(t, k) == if Rejected(a) then SelectFrom(a.gen.after, k + 1) else Accepted(a.family, a.gen.numbers)
  {
    var a := TryFrom(t);
    AttemptsStep(TryFrom, t, MAX_ATTEMPTS - k);
    FirstValidStep(a, Attempts(TryFrom, a.gen.after, MAX_ATTEMPTS - (k + 1)));
  }

  /** One pass of the loop body: pick a family, run its generator on `rng` and apply the barriers. */
  method NextAttempt(rng: SeededRng, ghost k: nat) returns (accepted: bool, pattern: Family, numbers: seq<int>)
    requires k < MAX_ATTEMPTS
    modifies rng
    ensures accepted ==> SelectFrom(old(rng.seed), k) == Accepted(pattern, numbers)
    ensures !accepted ==> SelectFrom(rng.seed, k + 1) == SelectFrom(old(rng.seed), k)
  {
    ghost var t := rng.seed;
    pattern := rng.Pick(PATTERN_GENERATORS);
    numbers := GenerateFamily(pattern, rng, TOTAL_LENGTH);
    assert Attempt(pattern, Gen(numbers, rng.seed)) == TryFrom(t);
    accepted := IsValidSequence(numbers);
    SelectStep(t, k);
  }

  /** The selection loop of `getDailySequence`, run on an already seeded generator. */
  method SelectDaily(rng: SeededRng) returns (data: SequenceData)
    modifies rng
    ensures data == Present(SelectFrom(old(rng.seed), 0))
  {
    var attempts := 0;
    while attempts < MAX_ATTEMPTS
      invariant 0 <= attempts <= MAX_ATTEMPTS
      invariant SelectFrom(rng.seed, attempts) == SelectFrom(old(rng.seed), 0)
    {
      var accepted, pattern, numbers := NextAttempt(rng, attempts);
      if accepted {
        return Announce(pattern, numbers);
      }
      attempts := attempts + 1;
    }
    return FALLBACK;
  }

  /** `getDailySequence(date)`, on the date's year, month (1-based) and day. */
  method GetDailySequence(year: int, month: nat, day: nat) returns (data: SequenceData)
    ensures data == DailySequence(year, month, day)
  {
    var rng := new SeededRng(DateSeed(year, month, day));
    data := SelectDaily(rng);
  }
}
