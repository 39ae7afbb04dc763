/** The few operations on strings and lists that the services use: decimal rendering of an
    identifier (`Long.toString`), `String.contains`, `Collectors.joining(", ")` and
    `Stream.distinct()`. */
module Text {

  function DigitChar(d: nat): (c: char)
    requires d < 10
    ensures '0' <= c <= '9' && c as int - '0' as int == d
  {
    "0123456789"[d]
  }

  predicate AllDigits(s: string) {
    forall i :: 0 <= i < |s| ==> '0' <= s[i] <= '9'
  }

  /** Decimal rendering of a natural number, without leading zeros. */
  function NatToString(n: nat): (s: string)
    ensures |s| >= 1 && AllDigits(s)
    ensures |s| > 1 ==> s[0] != '0'
  {
    if n < 10 then [DigitChar(n)] else NatToString(n / 10) + [DigitChar(n % 10)]
  }

  /** The number a string of decimal digits denotes. */
  function DigitsValue(s: string): nat
    requires AllDigits(s)
    decreases |s|
  {
    if s == [] then 0 else DigitsValue(s[..|s| - 1]) * 10 + (s[|s| - 1] as int - '0' as int)
  }

  /** The rendering denotes the number rendered, so distinct numbers render differently. */
  lemma {:induction false} NatToStringValue(n: nat)
    ensures DigitsValue(NatToString(n)) == n
    decreases n
  {
    var s := NatToString(n);
    if n >= 10 {
      NatToStringValue(n / 10);
      assert s[..|s| - 1] == NatToString(n / 10);
    } else {
      assert s[..0] == [];
    }
  }

  /** `haystack.contains(needle)`. */
  predicate Contains(haystack: string, needle: string) {
    exists i :: 0 <= i <= |haystack| && OccursAt(haystack, needle, i)
  }

  predicate OccursAt(haystack: string, needle: string, i: nat) {
    i + |needle| <= |haystack| && haystack[i..i + |needle|] == needle
  }

  /** `Collectors.joining(", ")`: the elements in order, separated by a comma and a space. */
  function JoinComma(xs: seq<string>): (r: string)
    ensures xs == [] ==> r == ""
    ensures |xs| == 1 ==> r == xs[0]
    decreases |xs|
  {
    if |xs| == 0 then ""
    else if |xs| == 1 then xs[0]
    else JoinComma(xs[..|xs| - 1]) + ", " + xs[|xs| - 1]
  }

  /** Joining puts exactly one separator between two neighbouring elements, so the joined
      text is as long as the elements together plus two characters per separator. */
  lemma {:induction false} JoinCommaLength(xs: seq<string>)
    requires |xs| >= 1
    ensures |JoinComma(xs)| == TotalLength(xs) + 2 * (|xs| - 1)
    decreases |xs|
  {
    if |xs| > 1 {
      JoinCommaLength(xs[..|xs| - 1]);
      assert xs[..|xs| - 1] + [xs[|xs| - 1]] == xs;
      TotalLengthAppend(xs[..|xs| - 1], xs[|xs| - 1]);
    }
  }

  function TotalLength(xs: seq<string>): nat
    decreases |xs|
  {
    if xs == [] then 0 else TotalLength(xs[..|xs| - 1]) + |xs[|xs| - 1]|
  }

  lemma {:induction false} TotalLengthAppend(xs: seq<string>, y: string)
    ensures TotalLength(xs + [y]) == TotalLength(xs) + |y|
  {
    assert (xs + [y])[..|xs|] == xs;
  }

  predicate NoDuplicates<T(==)>(s: seq<T>) {
    forall i, j :: 0 <= i < j < |s| ==> s[i] != s[j]
  }

  /** `Stream.distinct()`: the first occurrence of every element, in encounter order. */
  function Distinct<T(==)>(s: seq<T>): (r: seq<T>)
    ensures |r| <= |s|
    decreases |s|
  {
    if s == [] then []
    else
      var prefix := Distinct(s[..|s| - 1]);
      if s[|s| - 1] in prefix then prefix else prefix + [s[|s| - 1]]
  }

  /** `distinct()` keeps one copy of every element and adds nothing. */
  lemma {:induction false} DistinctIsDeduplication<T>(s: seq<T>)
    ensures NoDuplicates(Distinct(s))
    ensures forall x :: x in Distinct(s) <==> x in s
    decreases |s|
  {
    if s != [] {
      var init := s[..|s| - 1];
      DistinctIsDeduplication(init);
      assert s == init + [s[|s| - 1]];
    }
  }

  /** An element is kept by `distinct()` exactly when it occurs in the input. */
  lemma {:induction false} DistinctMember<T>(s: seq<T>, x: T)
    ensures x in Distinct(s) <==> x in s
  {
    DistinctIsDeduplication(s);
  }

  /** Appending an element to the input appends it to the result unless it was already seen. */
  lemma {:induction false} DistinctSnoc<T>(s: seq<T>, x: T)
    ensures Distinct(s + [x]) == if x in Distinct(s) then Distinct(s) else Distinct(s) + [x]
  {
    assert (s + [x])[..|s|] == s;
  }

  /** `distinct()` keeps encounter order: an element appears in the result before another
      exactly when its first occurrence in the input comes first. */
  lemma {:induction false} DistinctKeepsFirstOccurrenceOrder<T>(s: seq<T>, i: nat, j: nat)
    requires i < j < |Distinct(s)|
    ensures Distinct(s)[i] in s && Distinct(s)[j] in s &&
            FirstIndex(s, Distinct(s)[i]) < FirstIndex(s, Distinct(s)[j])
    decreases |s|
  {
    assert s != [];
    var init := s[..|s| - 1];
    var d := Distinct(init);
    assert Distinct(s) == if s[|s| - 1] in d then d else d + [s[|s| - 1]];
    var x, y := Distinct(s)[i], Distinct(s)[j];
    assert x == d[i] && d[i] in d;
    DistinctMember(init, x);
    FirstIndexInPrefix(s, x);
    if j < |d| {
      assert y == d[j] && d[j] in d;
      DistinctMember(init, y);
      FirstIndexInPrefix(s, y);
      DistinctKeepsFirstOccurrenceOrder(init, i, j);
    } else {
      DistinctMember(init, y);
      assert y == s[|s| - 1] && y !in init;
      FirstIndexOfLast(s);
    }
  }

  /** An element missing from all but the last position first occurs at the end. */
  lemma {:induction false} FirstIndexOfLast<T>(s: seq<T>)
    requires |s| >= 1 && s[|s| - 1] !in s[..|s| - 1]
    ensures FirstIndex(s, s[|s| - 1]) == |s| - 1
  {
  }

  /** Index of the first occurrence of `x` in `s`. */
  function FirstIndex<T(==)>(s: seq<T>, x: T): (k: nat)
    requires x in s
    ensures k < |s| && s[k] == x && x !in s[..k]
  {
    if s[0] == x then 0 else
      assert x in s[1..] by { var m :| 0 <= m < |s| && s[m] == x; assert s[1..][m - 1] == x; }
      1 + FirstIndex(s[1..], x)
  }

  lemma {:induction false} FirstIndexInPrefix<T>(s: seq<T>, x: T)
    requires |s| >= 1 && x in s[..|s| - 1]
    ensures FirstIndex(s, x) == FirstIndex(s[..|s| - 1], x)
  {
    if s[0] != x {
      assert s[1..][..|s| - 2] == s[..|s| - 1][1..];
      FirstIndexInPrefix(s[1..], x);
    }
  }
}
