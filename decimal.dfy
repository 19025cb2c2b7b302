/**
 * Decimal numerals as JavaScript writes and reads them for non-negative
 * integers: `String(n)`, `padStart(2, '0')`, and `parseInt(s, 10)` or
 * `Number(s)` on a string made only of decimal digits.
 */
module Decimal {
  predicate IsDigit(c: char) {
    '0' <= c <= '9'
  }

  predicate AllDigits(s: string) {
    forall i :: 0 <= i < |s| ==> IsDigit(s[i])
  }

  function DigitValue(c: char): (d: nat)
    requires IsDigit(c)
    ensures d < 10
  {
    c as int - '0' as int
  }

  function DigitChar(d: nat): (c: char)
    requires d < 10
    ensures IsDigit(c) && DigitValue(c) == d
  {
    ('0' as int + d) as char
  }

  function Pow10(e: nat): (p: nat)
    ensures p >= 1
  {
    if e == 0 then 1 else 10 * Pow10(e - 1)
  }

  /** `String(n)`: the shortest numeral of `n`, without leading zeros. */
  function Numeral(n: nat): (s: string)
    ensures AllDigits(s) && |s| >= 1
    ensures |s| > 1 ==> s[0] != '0'
    ensures n < 10 <==> |s| == 1
  {
    if n < 10 then [DigitChar(n)] else Numeral(n / 10) + [DigitChar(n % 10)]
  }

  /** `s.padStart(2, '0')`. */
  function PadStart2(s: string): (r: string)
    ensures |s| < 2 ==> |r| == 2 && r == seq(2 - |s|, _ => '0') + s
    ensures |s| >= 2 ==> r == s
    ensures AllDigits(s) ==> AllDigits(r)
  {
    if |s| == 0 then "00" else if |s| == 1 then "0" + s else s
  }

  /** The value of a string of decimal digits (`parseInt(s, 10)`, `Number(s)`). */
  function ParseDigits(s: string): nat
    requires AllDigits(s)
  {
    if s == [] then 0 else 10 * ParseDigits(s[..|s| - 1]) + DigitValue(s[|s| - 1])
  }

  /** Reading back what `Numeral` wrote gives the number. */
  lemma {:induction false} ParseNumeral(n: nat)
    ensures ParseDigits(Numeral(n)) == n
  {
    if n >= 10 {
      var s := Numeral(n);
      assert s[..|s| - 1] == Numeral(n / 10);
      ParseNumeral(n / 10);
    }
  }

  lemma ShiftByTen(x: int, p: int)
    ensures x * (10 * p) == 10 * (x * p)
  {
  }

  /** Concatenating numerals shifts the first by the length of the second. */
  lemma {:induction false} ParseAppend(a: string, b: string)
    requires AllDigits(a) && AllDigits(b)
    ensures ParseDigits(a + b) == ParseDigits(a) * Pow10(|b|) + ParseDigits(b)
    decreases |b|
  {
    if b != [] {
      var b' := b[..|b| - 1];
      assert (a + b)[..|a + b| - 1] == a + b';
      ParseAppend(a, b');
      var x, p := ParseDigits(a), Pow10(|b'|);
      assert Pow10(|b|) == 10 * p;
      ShiftByTen(x, p);
    } else {
      assert a + b == a;
    }
  }

  /** A one- or two-digit number padded to two digits reads back as itself. */
  lemma ParsePadded(n: nat)
    requires n < 100
    ensures |PadStart2(Numeral(n))| == 2 && AllDigits(PadStart2(Numeral(n)))
    ensures ParseDigits(PadStart2(Numeral(n))) == n
  {
    ParseNumeral(n);
    if n < 10 {
      ParseAppend("0", Numeral(n));
    } else {
      assert |Numeral(n / 10)| == 1;
    }
  }

  /** Digit strings joined are a digit string. */
  lemma DigitsConcat(a: string, b: string)
    requires AllDigits(a) && AllDigits(b)
    ensures AllDigits(a + b)
  {
    assert forall i :: 0 <= i < |a + b| ==> (a + b)[i] == if i < |a| then a[i] else b[i - |a|];
  }

  /** Three digit strings, the last two of two digits each, read as one number. */
  lemma ParseThree(yy: string, mm: string, dd: string)
    requires AllDigits(yy) && AllDigits(mm) && AllDigits(dd) && |mm| == 2 && |dd| == 2
    ensures ParseDigits(yy + mm + dd) ==
      ParseDigits(yy) * 10000 + ParseDigits(mm) * 100 + ParseDigits(dd)
  {
    DigitsConcat(yy, mm);
    ParseAppend(yy, mm);
    ParseAppend(yy + mm, dd);
    assert Pow10(2) == 100;
    var y, m := ParseDigits(yy), ParseDigits(mm);
    assert (y * 100 + m) * 100 == y * 10000 + m * 100;
  }
}
