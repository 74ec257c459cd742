/** Decimal strings as the completion adapter uses them for sort keys:
    `Number.prototype.toString()` on a non-negative integer, `String.prototype.padStart`
    with a one-character fill, reading a digit string back as a number, and the
    lexicographic order in which the editor compares sort keys.
 */
module SortKeys {

  /** Ten to the power k. */
  function Pow10(k: nat): (r: nat)
    ensures r >= 1
  {
    if k == 0 then 1 else 10 * Pow10(k - 1)
  }

  predicate IsDigit(c: char) {
    '0' <= c <= '9'
  }

  predicate AllDigits(s: string) {
    forall k :: 0 <= k < |s| ==> IsDigit(s[k])
  }

  /** The character for a single decimal digit. */
  function DigitChar(d: nat): (c: char)
    requires d < 10
    ensures IsDigit(c) && DigitValue(c) == d
  {
    ('0' as int + d) as char
  }

  /** The value of a single decimal digit character. */
  function DigitValue(c: char): (d: nat)
    requires IsDigit(c)
    ensures d < 10
  {
    c as int - '0' as int
  }

  /** `n.toString()` for a non-negative integer n: its decimal digits, most
      significant first, with no leading zero (except for n == 0 itself). */
  function DigitsOf(n: nat): (s: string)
    ensures |s| >= 1 && AllDigits(s)
    ensures s[0] == '0' ==> n == 0 && |s| == 1
  {
    if n < 10 then [DigitChar(n)] else DigitsOf(n / 10) + [DigitChar(n % 10)]
  }

  /** A string of `count` copies of `c`. */
  function Repeat(c: char, count: nat): (s: string)
    ensures |s| == count
    ensures forall k :: 0 <= k < count ==> s[k] == c
  {
    seq(count, _ => c)
  }

  /** `s.padStart(width, fill)` for a one-character fill string: fill characters are
      added on the left until the string is `width` long; a string that is already
      at least `width` long is returned unchanged (never truncated). */
  function PadStart(s: string, width: nat, fill: char): (r: string)
    ensures |r| == if width <= |s| then |s| else width
    ensures r[|r| - |s|..] == s
    ensures forall k :: 0 <= k < |r| - |s| ==> r[k] == fill
  {
    if width <= |s| then s else Repeat(fill, width - |s|) + s
  }

  /** The number a string of decimal digits denotes, read most significant first,
      as `parseInt(s, 10)` reads a nonempty digit string. In this model the empty
      string reads as 0. */
  function ParseDecimal(s: string): (n: nat)
    requires AllDigits(s)
    ensures n < Pow10(|s|)
  {
    if s == [] then 0 else ParseDecimal(s[..|s| - 1]) * 10 + DigitValue(s[|s| - 1])
  }

  /** Lexicographic order on strings, characters compared by code point, a proper
      prefix sorting first. It agrees with JavaScript's `a < b` (which compares
      UTF-16 code units) on the digit strings it is used for here. The order is
      irreflexive, and a proper prefix sorts before every longer string. */
  predicate LexLess(a: string, b: string)
    ensures LexLess(a, b) ==> a != b
    ensures |a| < |b| && a == b[..|a|] ==> LexLess(a, b)
  {
    |b| > 0 && (|a| == 0 || a[0] < b[0] || (a[0] == b[0] && LexLess(a[1..], b[1..])))
  }

  // ---------------------------------------------------------------------------
  // toString and parsing
  // ---------------------------------------------------------------------------

  /** Reading `n.toString()` back gives n. */
  lemma {:induction false} ParseDigitsOf(n: nat)
    ensures ParseDecimal(DigitsOf(n)) == n
  {
    var s := DigitsOf(n);
    if n < 10 {
      assert s[..0] == [];
    } else {
      assert s[..|s| - 1] == DigitsOf(n / 10);
      ParseDigitsOf(n / 10);
    }
  }

  /** The length of `n.toString()` is the number of decimal digits of n:
      n < 10^len, and 10^(len-1) <= n unless n is 0. */
  lemma DigitsOfLengthBounds(n: nat)
    ensures n < Pow10(|DigitsOf(n)|)
    ensures n > 0 ==> Pow10(|DigitsOf(n)| - 1) <= n
  {
    ParseDigitsOf(n);
    if n > 0 {
      DigitsOfLowerBound(n);
    }
  }

  lemma {:induction false} DigitsOfLowerBound(n: nat)
    requires n > 0
    ensures Pow10(|DigitsOf(n)| - 1) <= n
  {
    if n >= 10 {
      DigitsOfLowerBound(n / 10);
    }
  }

  /** A larger number never has fewer digits. */
  lemma {:induction false} DigitsOfMonotone(m: nat, n: nat)
    requires m <= n
    ensures |DigitsOf(m)| <= |DigitsOf(n)|
  {
    if m >= 10 {
      DigitsOfMonotone(m / 10, n / 10);
    }
  }

  // ---------------------------------------------------------------------------
  // Leading zeros
  // ---------------------------------------------------------------------------

  lemma {:induction false} ParseZeros(z: nat)
    ensures AllDigits(Repeat('0', z)) && ParseDecimal(Repeat('0', z)) == 0
  {
    if z > 0 {
      assert Repeat('0', z)[..z - 1] == Repeat('0', z - 1);
      ParseZeros(z - 1);
    }
  }

  /** Zeros added on the left do not change the value of a digit string. */
  lemma {:induction false} ParseLeadingZeros(z: nat, s: string)
    requires AllDigits(s)
    ensures AllDigits(Repeat('0', z) + s)
    ensures ParseDecimal(Repeat('0', z) + s) == ParseDecimal(s)
  {
    var t := Repeat('0', z) + s;
    if s == [] {
      assert t == Repeat('0', z);
      ParseZeros(z);
    } else {
      assert t[..|t| - 1] == Repeat('0', z) + s[..|s| - 1];
      ParseLeadingZeros(z, s[..|s| - 1]);
    }
  }

  /** Padding a digit string on the left with '0' keeps it a digit string with the same value. */
  lemma PadStartZerosValue(s: string, width: nat)
    requires AllDigits(s)
    ensures AllDigits(PadStart(s, width, '0'))
    ensures ParseDecimal(PadStart(s, width, '0')) == ParseDecimal(s)
  {
    if |s| < width {
      ParseLeadingZeros(width - |s|, s);
    }
  }

  // ---------------------------------------------------------------------------
  // Lexicographic order against numeric order
  // ---------------------------------------------------------------------------

  /** Moving a leading digit one place up: arithmetic behind ParseFront. */
  lemma ShiftPlace(d: nat, t: nat, rest: nat, last: nat)
    ensures (d * t + rest) * 10 + last == d * (10 * t) + (rest * 10 + last)
  {
  }

  /** The value of a digit string split at its first (most significant) digit. */
  lemma {:induction false} ParseFront(s: string)
    requires AllDigits(s) && |s| > 0
    ensures ParseDecimal(s) == DigitValue(s[0]) * Pow10(|s| - 1) + ParseDecimal(s[1..])
  {
    if |s| == 1 {
      assert s[..0] == [] && s[1..] == [];
    } else {
      var init := s[..|s| - 1];
      var tail := s[1..];
      ParseFront(init);
      assert init[1..] == tail[..|tail| - 1];
      var last := DigitValue(s[|s| - 1]);
      assert ParseDecimal(s) == ParseDecimal(init) * 10 + last;
      assert ParseDecimal(tail) == ParseDecimal(init[1..]) * 10 + last;
      ShiftPlace(DigitValue(s[0]), Pow10(|s| - 2), ParseDecimal(init[1..]), last);
    }
  }

  lemma {:induction false} MulMonotone(x: nat, y: nat, t: nat)
    requires x <= y
    ensures x * t <= y * t
  {
    if x < y {
      MulMonotone(x, y - 1, t);
      assert y * t == (y - 1) * t + t;
    }
  }

  /** A smaller leading digit outweighs any lower-order remainder. */
  lemma PlaceValueLess(da: nat, db: nat, t: nat, ra: nat, rb: nat)
    requires da < db && ra < t
    ensures da * t + ra < db * t + rb
  {
    MulMonotone(da + 1, db, t);
    assert (da + 1) * t == da * t + t;
  }

  /** Between digit strings of one length, the larger leading digit gives the larger value. */
  lemma LeadingDigitDecides(a: string, b: string)
    requires AllDigits(a) && AllDigits(b) && |a| == |b| > 0
    requires a[0] < b[0]
    ensures ParseDecimal(a) < ParseDecimal(b)
  {
    ParseFront(a);
    ParseFront(b);
    PlaceValueLess(DigitValue(a[0]), DigitValue(b[0]), Pow10(|a| - 1), ParseDecimal(a[1..]), ParseDecimal(b[1..]));
  }

  /** For two digit strings of the same length, string order (`LexLess`) agrees with
      `<` on the numbers they denote, in both directions. */
  lemma {:induction false} LexLessIffValueLess(a: string, b: string)
    requires AllDigits(a) && AllDigits(b) && |a| == |b|
    ensures LexLess(a, b) <==> ParseDecimal(a) < ParseDecimal(b)
  {
    if |a| > 0 {
      if a[0] < b[0] {
        LeadingDigitDecides(a, b);
      } else if b[0] < a[0] {
        LeadingDigitDecides(b, a);
      } else {
        ParseFront(a);
        ParseFront(b);
        LexLessIffValueLess(a[1..], b[1..]);
      }
    }
  }

  // ---------------------------------------------------------------------------
  // Sort keys
  // ---------------------------------------------------------------------------

  /** The sort key of the item at `index` in a list of `count` items:
      `index.toString().padStart(count.toString().length, '0')`. It ends with the
      index's own digits, has only zeros before them, and is as long as the longer
      of the index's and the count's digit strings. */
  function SortKey(index: nat, count: nat): (key: string)
    ensures |key| == if |DigitsOf(count)| <= |DigitsOf(index)| then |DigitsOf(index)| else |DigitsOf(count)|
    ensures key[|key| - |DigitsOf(index)|..] == DigitsOf(index)
    ensures forall k :: 0 <= k < |key| - |DigitsOf(index)| ==> key[k] == '0'
  {
    PadStart(DigitsOf(index), |DigitsOf(count)|, '0')
  }

  /** Every key of a list has the width of the digit count of the list's length;
      padStart never has to leave an index longer than that width. */
  lemma SortKeyWidth(index: nat, count: nat)
    requires index < count
    ensures |SortKey(index, count)| == |DigitsOf(count)|
  {
    DigitsOfMonotone(index, count);
  }

  /** Every key is a digit string that reads back as its index. */
  lemma SortKeyValue(index: nat, count: nat)
    ensures AllDigits(SortKey(index, count))
    ensures ParseDecimal(SortKey(index, count)) == index
  {
    PadStartZerosValue(DigitsOf(index), |DigitsOf(count)|);
    ParseDigitsOf(index);
  }

  /** Within one list, key order is index order, in both directions. */
  lemma SortKeyOrder(i: nat, j: nat, count: nat)
    requires i < count && j < count
    ensures LexLess(SortKey(i, count), SortKey(j, count)) <==> i < j
  {
    SortKeyWidth(i, count);
    SortKeyWidth(j, count);
    SortKeyValue(i, count);
    SortKeyValue(j, count);
    LexLessIffValueLess(SortKey(i, count), SortKey(j, count));
  }

  /** Distinct indices of one list get distinct keys. */
  lemma SortKeyInjective(i: nat, j: nat, count: nat)
    requires i < count && j < count && i != j
    ensures SortKey(i, count) != SortKey(j, count)
  {
    SortKeyValue(i, count);
    SortKeyValue(j, count);
  }
}
