/** Shared vocabulary: optional values and the text operations the codecs use.

    A text is the sequence of its UTF-8 bytes, one `char` per byte, so `|s|` is
    the byte length that Rust's `str::len` reports and comparison is bytewise.
  */
module Text {

  datatype Option<+T> = None | Some(value: T)

  // ---- Splitting ---------------------------------------------------------

  /** `str::split_once`: around the first occurrence of `c`. */
  function SplitOnce(s: string, c: char): (r: Option<(string, string)>)
  {
    if s == "" then None
    else if s[0] == c then Some(("", s[1..]))
    else
      match SplitOnce(s[1..], c)
      case None => None
      case Some((left, right)) => Some(([s[0]] + left, right))
  }

  /** `str::rsplit_once`: around the last occurrence of `c`. */
  function RSplitOnce(s: string, c: char): (r: Option<(string, string)>)
  {
    if s == "" then None
    else if s[|s| - 1] == c then Some((s[..|s| - 1], ""))
    else
      match RSplitOnce(s[..|s| - 1], c)
      case None => None
      case Some((left, right)) => Some((left, right + [s[|s| - 1]]))
  }

  lemma {:induction false} SplitOnceAtFirst(left: string, c: char, right: string)
    requires c !in left
    ensures SplitOnce(left + [c] + right, c) == Some((left, right))
  {
    var s := left + [c] + right;
    if left == "" {
      assert s[1..] == right;
    } else {
      SplitOnceAtFirst(left[1..], c, right);
      assert s[1..] == left[1..] + [c] + right;
      assert left == [left[0]] + left[1..];
    }
  }

  lemma {:induction false} SplitOnceParts(s: string, c: char)
    ensures SplitOnce(s, c).Some? ==>
              && s == SplitOnce(s, c).value.0 + [c] + SplitOnce(s, c).value.1
              && c !in SplitOnce(s, c).value.0
    ensures SplitOnce(s, c).None? <==> c !in s
  {
    if s != "" && s[0] != c {
      SplitOnceParts(s[1..], c);
      assert s == [s[0]] + s[1..];
    }
  }

  lemma {:induction false} RSplitOnceAtLast(left: string, c: char, right: string)
    requires c !in right
    ensures RSplitOnce(left + [c] + right, c) == Some((left, right))
  {
    var s := left + [c] + right;
    if right == "" {
      assert s[..|s| - 1] == left;
    } else {
      var init := right[..|right| - 1];
      RSplitOnceAtLast(left, c, init);
      assert s[..|s| - 1] == left + [c] + init;
      assert right == init + [right[|right| - 1]];
    }
  }

  // ---- Decimal numerals --------------------------------------------------

  predicate IsDigit(c: char) {
    '0' <= c <= '9'
  }

  predicate AllDigits(s: string) {
    forall i | 0 <= i < |s| :: IsDigit(s[i])
  }

  function DigitOf(d: nat): (c: char)
    requires d < 10
    ensures IsDigit(c) && (c as int) - ('0' as int) == d
  {
    (('0' as int) + d) as char
  }

  /** `to_string` of an unsigned integer. */
  function Decimal(n: nat): (s: string)
  {
    if n < 10 then [DigitOf(n)] else Decimal(n / 10) + [DigitOf(n % 10)]
  }

  function DigitsValue(s: string): (n: nat)
    requires AllDigits(s)
  {
    if s == "" then 0
    else 10 * DigitsValue(s[..|s| - 1]) + ((s[|s| - 1] as int) - ('0' as int))
  }

  /** Rust's unsigned `FromStr`: one optional `+`, at least one digit, leading
      zeros allowed, and an overflow is an error. */
  function ParseUnsigned(s: string, max: nat): (r: Option<nat>)
  {
    var digits := if s != "" && s[0] == '+' then s[1..] else s;
    if digits == "" || !AllDigits(digits) then None
    else if DigitsValue(digits) <= max then Some(DigitsValue(digits))
    else None
  }

  lemma {:induction false} DecimalDigits(n: nat)
    ensures Decimal(n) != "" && AllDigits(Decimal(n)) && DigitsValue(Decimal(n)) == n
  {
    if n < 10 {
      assert Decimal(n)[..0] == "";
    } else {
      DecimalDigits(n / 10);
      assert Decimal(n)[..|Decimal(n)| - 1] == Decimal(n / 10);
    }
  }

  lemma DecimalRoundTrip(n: nat, max: nat)
    requires n <= max
    ensures ParseUnsigned(Decimal(n), max) == Some(n)
  {
    DecimalDigits(n);
    assert IsDigit(Decimal(n)[0]);
  }

  function PowerOfTen(k: nat): nat {
    if k == 0 then 1 else 10 * PowerOfTen(k - 1)
  }

  lemma {:induction false} DecimalLength(n: nat, k: nat)
    requires k > 0 && n < PowerOfTen(k)
    ensures |Decimal(n)| <= k
  {
    if n >= 10 {
      DecimalLength(n / 10, k - 1);
    }
  }

  /** No 64-bit number has more than twenty digits. */
  lemma MachineDecimalLength(n: nat)
    requires n < 0x1_0000_0000_0000_0000
    ensures |Decimal(n)| <= 20
  {
    assert PowerOfTen(1) == 10 && PowerOfTen(2) == 100;
    assert PowerOfTen(3) == 1_000 && PowerOfTen(4) == 10_000;
    assert PowerOfTen(5) == 100_000 && PowerOfTen(6) == 1_000_000;
    assert PowerOfTen(7) == 10_000_000 && PowerOfTen(8) == 100_000_000;
    assert PowerOfTen(9) == 1_000_000_000 && PowerOfTen(10) == 10_000_000_000;
    assert PowerOfTen(11) == 100_000_000_000 && PowerOfTen(12) == 1_000_000_000_000;
    assert PowerOfTen(13) == 10_000_000_000_000 && PowerOfTen(14) == 100_000_000_000_000;
    assert PowerOfTen(15) == 1_000_000_000_000_000 && PowerOfTen(16) == 10_000_000_000_000_000;
    assert PowerOfTen(17) == 100_000_000_000_000_000 && PowerOfTen(18) == 1_000_000_000_000_000_000;
    assert PowerOfTen(19) == 10_000_000_000_000_000_000 && PowerOfTen(20) == 100_000_000_000_000_000_000;
    DecimalLength(n, 20);
  }

  /** A character that is no digit does not occur in a numeral. */
  lemma NotInDecimal(n: nat, c: char)
    requires !IsDigit(c)
    ensures c !in Decimal(n)
  {
    DecimalDigits(n);
  }

  // ---- Bytewise order ----------------------------------------------------

  /** Strict lexicographic order, which is Rust's `Ord` on strings. */
  predicate Less(a: string, b: string)
  {
    if b == "" then false
    else if a == "" then true
    else a[0] < b[0] || (a[0] == b[0] && Less(a[1..], b[1..]))
  }

  lemma {:induction false} LessTotal(a: string, b: string)
    ensures Less(a, b) || a == b || Less(b, a)
  {
    if a != "" && b != "" && a[0] == b[0] {
      LessTotal(a[1..], b[1..]);
      if a[1..] == b[1..] {
        assert a == [a[0]] + a[1..] == [b[0]] + b[1..] == b;
      }
    }
  }

  lemma {:induction false} LessIrreflexive(a: string)
    ensures !Less(a, a)
  {
    if a != "" {
      LessIrreflexive(a[1..]);
    }
  }

  lemma {:induction false} LessTransitive(a: string, b: string, c: string)
    requires Less(a, b) && Less(b, c)
    ensures Less(a, c)
  {
    if a != "" && a[0] == b[0] && b[0] == c[0] {
      LessTransitive(a[1..], b[1..], c[1..]);
    }
  }
}
