/**
 * The JavaScript string and array operations the core relies on: rendering an
 * integer inside a template literal, `padStart`, `Array.prototype.join`,
 * `Array.prototype.indexOf`, `String.prototype.split` with a one-character
 * separator, and the truncating remainder operator `%`.
 */
module Text {
  import opened Wrappers

  predicate IsDigit(c: char) {
    '0' <= c <= '9'
  }

  predicate AllDigits(s: string) {
    forall i :: 0 <= i < |s| ==> IsDigit(s[i])
  }

  function DigitChar(d: nat): (c: char)
    requires d < 10
    ensures IsDigit(c)
  {
    "0123456789"[d]
  }

  function DigitValue(c: char): (d: nat)
    requires IsDigit(c)
    ensures d < 10
  {
    c as int - '0' as int
  }

  /** Decimal rendering of a natural number, as `String(n)` does it. */
  function NatToString(n: nat): (s: string)
    ensures |s| >= 1 && AllDigits(s)
    ensures n >= 10 ==> s[0] != '0'
  {
    if n < 10 then [DigitChar(n)] else NatToString(n / 10) + [DigitChar(n % 10)]
  }

  /** The value of a string of decimal digits (the inverse of NatToString). */
  function DigitsValue(s: string): nat
    requires AllDigits(s)
  {
    if s == [] then 0 else 10 * DigitsValue(s[..|s| - 1]) + DigitValue(s[|s| - 1])
  }

  lemma {:induction false} NatToStringRoundTrip(n: nat)
    ensures DigitsValue(NatToString(n)) == n
  {
    if n >= 10 {
      var s := NatToString(n);
      assert s[..|s| - 1] == NatToString(n / 10);
      NatToStringRoundTrip(n / 10);
    }
  }

  /** Decimal rendering of an integer, with a leading '-' for negatives. */
  function IntToString(i: int): (s: string)
    ensures |s| >= 1
  {
    if i < 0 then "-" + NatToString(-i) else NatToString(i)
  }

  lemma NatToStringInjective(a: nat, b: nat)
    requires NatToString(a) == NatToString(b)
    ensures a == b
  {
    NatToStringRoundTrip(a);
    NatToStringRoundTrip(b);
  }

  /** A rendered integer starts with '-' exactly when it is negative; the digits follow. */
  lemma IntToStringSign(i: int)
    ensures IntToString(i)[0] == '-' <==> i < 0
    ensures i < 0 ==> IntToString(i)[1..] == NatToString(-i)
  {
    if i >= 0 {
      assert IsDigit(NatToString(i)[0]);
    }
  }

  /** Distinct integers render differently, so a rendered number can be read back. */
  lemma IntToStringInjective(a: int, b: int)
    requires IntToString(a) == IntToString(b)
    ensures a == b
  {
    IntToStringSign(a);
    IntToStringSign(b);
    if a < 0 && b < 0 {
      NatToStringInjective(-a, -b);
    } else if a >= 0 && b >= 0 {
      NatToStringInjective(a, b);
    }
  }

  /** A rendered integer holds only digits and '-'. */
  lemma NoMarkInNumber(i: int, c: char)
    requires c != '-' && !IsDigit(c)
    ensures c !in IntToString(i)
  {
    if i < 0 {
      assert IntToString(i) == "-" + NatToString(-i);
    }
  }

  function Repeat(c: char, n: nat): string {
    if n == 0 then "" else Repeat(c, n - 1) + [c]
  }

  lemma {:induction false} RepeatSpec(c: char, n: nat)
    ensures |Repeat(c, n)| == n && forall i :: 0 <= i < n ==> Repeat(c, n)[i] == c
  {
    if n > 0 {
      RepeatSpec(c, n - 1);
    }
  }

  /** `s.padStart(width, fill)` for a one-character fill string. */
  function PadStart(s: string, width: nat, fill: char): string {
    if |s| >= width then s else Repeat(fill, width - |s|) + s
  }

  /** The padded text is `s` behind enough fill characters to reach `width`. */
  lemma PadStartSpec(s: string, width: nat, fill: char)
    ensures var r := PadStart(s, width, fill);
      && |r| == (if |s| >= width then |s| else width)
      && r[|r| - |s|..] == s
      && forall i :: 0 <= i < |r| - |s| ==> r[i] == fill
  {
    if |s| < width {
      RepeatSpec(fill, width - |s|);
    }
  }

  /** `String(v).padStart(2, '0')`, the two-digit fields of a date. */
  function TwoDigits(v: int): string
  {
    PadStart(IntToString(v), 2, '0')
  }

  lemma OneDigitPadded(v: nat)
    requires v < 10
    ensures TwoDigits(v) == ['0', DigitChar(v)]
    ensures DigitsValue(TwoDigits(v)) == v
  {
    var d := DigitChar(v);
    assert IntToString(v) == [d];
    var s := ['0', d];
    assert s[..1] == ['0'];
    assert DigitsValue(['0']) == 0 by { assert ['0'][..0] == []; }
  }

  /** Every value in 0..99 renders as exactly two digits that read back as the value. */
  lemma TwoDigitsRoundTrip(v: int)
    requires 0 <= v < 100
    ensures |TwoDigits(v)| == 2 && AllDigits(TwoDigits(v))
    ensures DigitsValue(TwoDigits(v)) == v
  {
    if v < 10 {
      OneDigitPadded(v);
    } else {
      assert TwoDigits(v) == NatToString(v);
      NatToStringRoundTrip(v);
    }
  }

  /** `parts.join(sep)`. */
  function Join(parts: seq<string>, sep: string): string
  {
    if |parts| == 0 then ""
    else if |parts| == 1 then parts[0]
    else parts[0] + sep + Join(parts[1..], sep)
  }

  /** The join of four parts. */
  lemma JoinFour(a: string, b: string, c: string, d: string, sep: string)
    ensures Join([a, b, c, d], sep) == a + sep + b + sep + c + sep + d
  {
    var t := [a, b, c, d];
    assert t[1..][1..][1..] == [d];
    assert t[1..][1..] == [c, d];
    assert t[1..] == [b, c, d];
    assert Join([c, d], sep) == c + sep + d;
    assert Join([b, c, d], sep) == b + sep + (c + sep + d);
    assert Join(t, sep) == a + sep + (b + sep + (c + sep + d));
  }

  /** A join of non-empty strings is empty (falsy) exactly when there are no strings. */
  lemma JoinOfNonEmpty(parts: seq<string>, sep: string)
    requires forall i :: 0 <= i < |parts| ==> parts[i] != ""
    ensures Join(parts, sep) == "" <==> |parts| == 0
  {
    if |parts| > 1 {
      assert |Join(parts, sep)| >= |parts[0]| > 0;
    }
  }

  /** The scan of `indexOf` from position `i`: the first index at or after `i` holding `x`, or -1. */
  function IndexFrom<T(==)>(s: seq<T>, x: T, i: nat): (r: int)
    requires i <= |s|
    ensures r == -1 || (i <= r < |s| && s[r] == x)
    decreases |s| - i
  {
    if i == |s| then -1 else if s[i] == x then i else IndexFrom(s, x, i + 1)
  }

  /** `s.indexOf(x)`: the first index holding `x`, or -1 (see IndexOfFirstOccurrence). */
  function IndexOf<T(==)>(s: seq<T>, x: T): (r: int)
    ensures -1 <= r < |s|
    ensures r >= 0 ==> s[r] == x
  {
    IndexFrom(s, x, 0)
  }

  lemma {:induction false} IndexFromFirst<T>(s: seq<T>, x: T, i: nat)
    requires i <= |s|
    ensures var r := IndexFrom(s, x, i);
      && (r == -1 ==> forall j :: i <= j < |s| ==> s[j] != x)
      && (r >= 0 ==> forall j :: i <= j < r ==> s[j] != x)
    decreases |s| - i
  {
    if i < |s| && s[i] != x {
      IndexFromFirst(s, x, i + 1);
    }
  }

  /** indexOf gives -1 only when no position holds `x`, and otherwise the first position that does. */
  lemma IndexOfFirstOccurrence<T>(s: seq<T>, x: T)
    ensures IndexOf(s, x) == -1 ==> forall j :: 0 <= j < |s| ==> s[j] != x
    ensures IndexOf(s, x) >= 0 ==> forall j :: 0 <= j < IndexOf(s, x) ==> s[j] != x
  {
    IndexFromFirst(s, x, 0);
  }

  /** `s.split(sep)` for a one-character separator. */
  function Split(s: string, sep: char): (parts: seq<string>)
    ensures |parts| >= 1
    decreases |s|
  {
    var k := IndexOf(s, sep);
    if k < 0 then [s] else [s[..k]] + Split(s[k + 1..], sep)
  }

  /** Splitting a join on the same separator gives back the parts, when no part contains it. */
  lemma {:induction false} SplitJoin(parts: seq<string>, sep: char)
    requires |parts| >= 1
    requires forall i :: 0 <= i < |parts| ==> sep !in parts[i]
    ensures Split(Join(parts, [sep]), sep) == parts
  {
    var s := Join(parts, [sep]);
    if |parts| == 1 {
      assert s == parts[0];
      IndexOfMissing(s, sep);
    } else {
      var p0 := parts[0];
      assert s == p0 + [sep] + Join(parts[1..], [sep]);
      assert s[..|p0|] == p0;
      IndexOfFirst(s, sep, |p0|);
      assert s[|p0| + 1..] == Join(parts[1..], [sep]);
      SplitJoin(parts[1..], sep);
    }
  }

  /** JavaScript's `a % b` for a positive divisor: the sign follows the dividend. */
  function JsRem(a: int, b: int): (r: int)
    requires b > 0
    ensures a >= 0 ==> r == a % b
    ensures a < 0 ==> -b < r <= 0
  {
    if a >= 0 then a % b else -((-a) % b)
  }

  predicate Distinct<T(==)>(s: seq<T>) {
    forall i, j :: 0 <= i < j < |s| ==> s[i] != s[j]
  }

  /** indexOf reports -1 exactly when the value does not occur. */
  lemma IndexOfMissing<T>(s: seq<T>, x: T)
    ensures IndexOf(s, x) == -1 <==> x !in s
  {
    IndexOfFirstOccurrence(s, x);
    var r := IndexOf(s, x);
    if r >= 0 {
      assert s[r] == x;
    }
  }

  /** indexOf finds `x` at `k` when `k` holds it and no earlier position does. */
  lemma IndexOfFirst<T>(s: seq<T>, x: T, k: nat)
    requires k < |s| && s[k] == x
    requires forall j :: 0 <= j < k ==> s[j] != x
    ensures IndexOf(s, x) == k
  {
    IndexOfFirstOccurrence(s, x);
  }

  /** In a sequence without repetitions, indexOf inverts indexing. */
  lemma IndexOfDistinct<T>(s: seq<T>, k: nat)
    requires Distinct(s) && k < |s|
    ensures IndexOf(s, s[k]) == k
  {
    IndexOfFirst(s, s[k], k);
  }

  /** `s[i]` on a JavaScript array: the element, or undefined outside the array. */
  function At<T>(s: seq<T>, i: int): (r: Option<T>)
    ensures r.Some? <==> 0 <= i < |s|
    ensures r.Some? ==> r.value == s[i]
  {
    if 0 <= i < |s| then Some(s[i]) else None
  }

  /** `s` with every occurrence of `x` removed: a key order after `Map.prototype.delete`. */
  function Without<T(==)>(s: seq<T>, x: T): (r: seq<T>)
    ensures |r| <= |s|
  {
    if s == [] then [] else if s[0] == x then Without(s[1..], x) else [s[0]] + Without(s[1..], x)
  }

  lemma {:induction false} WithoutMembers<T>(s: seq<T>, x: T)
    ensures forall y :: y in Without(s, x) <==> y in s && y != x
    ensures x !in s ==> Without(s, x) == s
  {
    if s != [] {
      WithoutMembers(s[1..], x);
      assert s == [s[0]] + s[1..];
    }
  }

  /** Removing a key from a repetition-free order keeps it repetition-free and shortens it by one exactly when the key was there. */
  lemma {:induction false} WithoutDistinct<T>(s: seq<T>, x: T)
    requires Distinct(s)
    ensures Distinct(Without(s, x))
    ensures |Without(s, x)| == if x in s then |s| - 1 else |s|
  {
    if s != [] {
      assert Distinct(s[1..]);
      WithoutDistinct(s[1..], x);
      WithoutMembers(s[1..], x);
      if s[0] == x {
        assert x !in s[1..];
        assert Without(s[1..], x) == s[1..];
      } else {
        var r := [s[0]] + Without(s[1..], x);
        assert s[0] !in Without(s[1..], x);
        assert forall i :: 0 < i < |r| ==> r[i] == Without(s[1..], x)[i - 1];
      }
    }
  }

  /** In a repetition-free sequence every value occurs at most once. */
  lemma {:induction false} DistinctCount<T>(s: seq<T>, x: T)
    requires Distinct(s)
    ensures multiset(s)[x] <= 1
  {
    if s != [] {
      assert s == [s[0]] + s[1..];
      assert Distinct(s[1..]);
      DistinctCount(s[1..], x);
      if x == s[0] {
        assert x !in s[1..];
      }
    }
  }

  lemma RepeatCounts<T>(s: seq<T>, i: nat, j: nat)
    requires i < j < |s|
    ensures s[i] == s[j] ==> multiset(s)[s[i]] >= 2
  {
    if s[i] == s[j] {
      assert s == s[..i] + [s[i]] + s[i + 1..];
      assert s[i + 1..][j - i - 1] == s[j];
    }
  }

  /** A permutation of a repetition-free sequence is repetition-free. */
  lemma PermutationDistinct<T>(a: seq<T>, b: seq<T>)
    requires Distinct(a) && multiset(a) == multiset(b)
    ensures Distinct(b)
  {
    forall i, j | 0 <= i < j < |b| ensures b[i] != b[j] {
      DistinctCount(a, b[i]);
      RepeatCounts(b, i, j);
    }
  }
}
