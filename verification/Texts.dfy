/** Texts as the programs see them: sequences of UTF-16 code units, with the two ways in which the
    source compares them and the decimal printing of its counters. */
module Texts {

  newtype CodeUnit = c: int | 0 <= c < 0x1_0000

  type Text = seq<CodeUnit>

  const FULL_STOP: CodeUnit := 0x2E
  const SLASH: CodeUnit := 0x2F
  const HYPHEN: CodeUnit := 0x2D
  const UNDERSCORE: CodeUnit := 0x5F
  const NEWLINE: CodeUnit := 0x0A

  /** A text of plain characters. */
  function Plain(s: string): Text {
    seq(|s|, i requires 0 <= i < |s| => if s[i] < 0x80 as char then s[i] as int as CodeUnit else 0)
  }

  /** A comparison "first sorts no later than second". The collation behind `localeCompare` is such
      an order, and it is a parameter of everything that sorts with it. */
  type Order = (Text, Text) -> bool

  /** What sorting needs of a collation. */
  ghost predicate Preorder(leq: Order) {
    && (forall a, b :: leq(a, b) || leq(b, a))
    && (forall a, b, c :: leq(a, b) && leq(b, c) ==> leq(a, c))
  }

  /** A collation that never ties two different texts. */
  ghost predicate TotalOrder(leq: Order) {
    && Preorder(leq)
    && (forall a, b :: leq(a, b) && leq(b, a) ==> a == b)
  }

  /** The relational operators on strings and the default array sort compare code units. */
  predicate Less(a: Text, b: Text) {
    b != [] && (a == [] || a[0] < b[0] || (a[0] == b[0] && Less(a[1..], b[1..])))
  }

  predicate AtMost(a: Text, b: Text) {
    !Less(b, a)
  }

  lemma {:induction false} LessTrichotomy(a: Text, b: Text)
    ensures Less(a, b) || Less(b, a) || a == b
    ensures !(Less(a, b) && Less(b, a))
    ensures a == b ==> !Less(a, b)
  {
    if a != [] && b != [] && a[0] == b[0] {
      LessTrichotomy(a[1..], b[1..]);
      assert a == [a[0]] + a[1..] && b == [b[0]] + b[1..];
    }
  }

  lemma {:induction false} LessTransitive(a: Text, b: Text, c: Text)
    requires Less(a, b) && Less(b, c)
    ensures Less(a, c)
  {
    if a != [] && a[0] == b[0] == c[0] {
      LessTransitive(a[1..], b[1..], c[1..]);
    }
  }

  /** The first place where two texts differ: one of them ends there, or their units do. */
  ghost predicate LessAt(a: Text, b: Text, i: nat) {
    i <= |a| && i < |b| && a[..i] == b[..i] && (i == |a| || a[i] < b[i])
  }

  lemma {:induction false} LessMeans(a: Text, b: Text)
    ensures Less(a, b) <==> exists i: nat :: LessAt(a, b, i)
  {
    if a != [] && b != [] && a[0] == b[0] {
      LessMeans(a[1..], b[1..]);
      if Less(a[1..], b[1..]) {
        var i: nat :| LessAt(a[1..], b[1..], i);
        assert a[..i + 1] == [a[0]] + a[1..][..i] && b[..i + 1] == [b[0]] + b[1..][..i];
        assert LessAt(a, b, i + 1);
      }
      if i: nat :| LessAt(a, b, i) {
        assert i > 0;
        assert a[1..][..i - 1] == a[..i][1..] && b[1..][..i - 1] == b[..i][1..];
        assert LessAt(a[1..], b[1..], i - 1);
      }
    } else {
      if Less(a, b) {
        assert LessAt(a, b, 0);
      }
      if i: nat :| LessAt(a, b, i) {
        if i > 0 {
          assert a[..i][0] == b[..i][0];
        }
      }
    }
  }

  /** Code unit order is one of the collations the results below are about. */
  lemma CodeUnitOrderIsTotal()
    ensures TotalOrder(AtMost)
  {
    forall a: Text, b: Text
      ensures AtMost(a, b) || AtMost(b, a)
      ensures AtMost(a, b) && AtMost(b, a) ==> a == b
    {
      LessTrichotomy(a, b);
    }
    forall a: Text, b: Text, c: Text | AtMost(a, b) && AtMost(b, c)
      ensures AtMost(a, c)
    {
      LessTrichotomy(a, b);
      LessTrichotomy(b, c);
      if Less(c, a) {
        if a != b {
          LessTransitive(c, a, b);
        }
      }
    }
  }

  // ---------------------------------------------------------------- decimal digits

  predicate IsDigit(c: CodeUnit) {
    0x30 <= c <= 0x39
  }

  function Decimal(n: nat): (t: Text)
    ensures t != [] && forall c <- t :: IsDigit(c)
  {
    if n < 10 then [(0x30 + n) as CodeUnit] else Decimal(n / 10) + [(0x30 + n % 10) as CodeUnit]
  }

  /** The number that a text of digits stands for. */
  function ValueOf(digits: Text): nat
    requires forall c <- digits :: IsDigit(c)
  {
    if digits == [] then 0
    else
      var last := digits[|digits| - 1];
      assert last in digits && IsDigit(last);
      ValueOf(digits[..|digits| - 1]) * 10 + (last as int - 0x30)
  }

  /** Printing keeps the number and puts no zero in front. */
  lemma {:induction false} DecimalMeans(n: nat)
    ensures ValueOf(Decimal(n)) == n && (n > 0 ==> Decimal(n)[0] != 0x30)
  {
    if n >= 10 {
      var t := Decimal(n);
      DecimalMeans(n / 10);
      assert t[..|t| - 1] == Decimal(n / 10);
    }
  }

  lemma {:induction false} DecimalInjective(m: nat, n: nat)
    requires Decimal(m) == Decimal(n)
    ensures m == n
  {
    var s, t := Decimal(m), Decimal(n);
    assert s[|s| - 1] == t[|t| - 1];
    if m >= 10 && n >= 10 {
      assert s[..|s| - 1] == Decimal(m / 10) && t[..|t| - 1] == Decimal(n / 10);
      DecimalInjective(m / 10, n / 10);
    }
  }

  /** Joining two texts with a separator that neither tail contains can be undone. */
  lemma {:induction false} SplitAtLast(a: Text, b: Text, c: Text, d: Text, separator: CodeUnit)
    requires separator !in b && separator !in d
    requires a + [separator] + b == c + [separator] + d
    ensures a == c && b == d
  {
    var left, right := a + [separator] + b, c + [separator] + d;
    assert forall k :: |a| < k < |left| ==> left[k] == b[k - |a| - 1];
    assert forall k :: |c| < k < |right| ==> right[k] == d[k - |c| - 1];
    assert left[|a|] == separator == right[|c|];
    assert |a| == |c|;
    assert a == left[..|a|] && c == right[..|c|];
    assert b == left[|a| + 1..] && d == right[|c| + 1..];
  }

  /** The same for a separator that neither head contains. */
  lemma {:induction false} SplitAtFirst(a: Text, b: Text, c: Text, d: Text, separator: CodeUnit)
    requires separator !in a && separator !in c
    requires a + [separator] + b == c + [separator] + d
    ensures a == c && b == d
  {
    var left, right := a + [separator] + b, c + [separator] + d;
    assert forall k :: 0 <= k < |a| ==> left[k] == a[k];
    assert forall k :: 0 <= k < |c| ==> right[k] == c[k];
    assert left[|a|] == separator == right[|c|];
    assert |a| == |c|;
    assert a == left[..|a|] && c == right[..|c|];
    assert b == left[|a| + 1..] && d == right[|c| + 1..];
  }

  lemma SamePrefix(prefix: Text, a: Text, b: Text)
    requires prefix + a == prefix + b
    ensures a == b
  {
    assert (prefix + a)[|prefix|..] == a && (prefix + b)[|prefix|..] == b;
  }
}
