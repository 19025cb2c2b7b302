// The one use of the runtime's `Array.prototype.sort` in the generator: three
// numbers sorted with the comparator `(a, b) => a - b`.

module Sorting {
  lemma SwapFront(x: int, a: int, b: int)
    ensures multiset([a, x, b]) == multiset([x, a, b])
  {}

  lemma RotateFront(x: int, a: int, b: int)
    ensures multiset([a, b, x]) == multiset([x, a, b])
  {}

  /** `[a, b]` with `x` inserted in order; `a <= b`. */
  function Insert3(x: int, a: int, b: int): (r: seq<int>)
    requires a <= b
    ensures |r| == 3 && r[0] <= r[1] <= r[2]
    ensures multiset(r) == multiset([x, a, b])
  {
    SwapFront(x, a, b);
    RotateFront(x, a, b);
    if x <= a then [x, a, b] else if x <= b then [a, x, b] else [a, b, x]
  }

  /** `[x, y, z].sort((a, b) => a - b)`: ascending, and the same three values. */
  function SortAscending3(x: int, y: int, z: int): (r: seq<int>)
    ensures |r| == 3 && r[0] <= r[1] <= r[2]
    ensures multiset(r) == multiset([x, y, z])
  {
    SwapFront(z, x, y);
    RotateFront(z, x, y);
    SwapFront(y, x, z);
    RotateFront(y, x, z);
    if y <= z then Insert3(x, y, z) else Insert3(x, z, y)
  }
}
