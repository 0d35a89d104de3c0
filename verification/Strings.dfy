/** The string operations the operator uses. A string is a sequence of code points. */
module Strings {

  /** Lower case, exact on every character whose lower case is ASCII (U+0130 and U+212A included). */
  function LowerChar(c: char): char {
    if 'A' <= c <= 'Z' then c - 'A' + 'a'
    else if c == '\U{0130}' then 'i'
    else if c == '\U{212A}' then 'k'
    else c
  }

  function Lower(s: string): (r: string) {
    seq(|s|, i requires 0 <= i < |s| => LowerChar(s[i]))
  }

  /** The representative used when letters are compared without regard to case. Long s and the Kelvin sign
      fold to ASCII letters; U+0130 folds to itself only, although its lower case is 'i'. */
  function FoldChar(c: char): char {
    if c == '\U{017F}' then 's'
    else if c == '\U{0130}' then c
    else LowerChar(c)
  }

  predicate EqualFold(a: string, b: string) {
    |a| == |b| && forall i :: 0 <= i < |a| ==> FoldChar(a[i]) == FoldChar(b[i])
  }

  predicate OccursAt(s: string, sub: string, i: int) {
    0 <= i <= |s| - |sub| && s[i..i + |sub|] == sub
  }

  predicate Contains(s: string, sub: string) {
    exists i :: 0 <= i <= |s| && OccursAt(s, sub, i)
  }

  function TrimPrefix(s: string, prefix: string): string {
    if prefix <= s then s[|prefix|..] else s
  }

  predicate HasSuffix(s: string, suffix: string) {
    |suffix| <= |s| && s[|s| - |suffix|..] == suffix
  }

  function TrimSuffix(s: string, suffix: string): string {
    if HasSuffix(s, suffix) then s[..|s| - |suffix|] else s
  }

  /** The position of the first `c`, or the length if there is none. */
  function IndexOf(s: string, c: char): (i: nat)
    ensures i <= |s|
    ensures c !in s[..i]
    ensures i < |s| ==> s[i] == c
  {
    if s == "" || s[0] == c then 0
    else
      var i := 1 + IndexOf(s[1..], c);
      assert s[..i] == [s[0]] + s[1..][..i - 1];
      i
  }

  lemma FirstIndex(a: string, c: char, b: string)
    requires c !in a
    ensures IndexOf(a + [c] + b, c) == |a|
  {
    var s := a + [c] + b;
    assert s[|a|] == c;
    assert s[..|a|] == a;
    assert forall i :: 0 <= i < |a| ==> s[i] == s[..|a|][i];
  }

  /** A text has one reading as two parts around a separator that is not in the first. */
  lemma SplitUnique(a: string, b: string, a': string, b': string, c: char)
    requires c !in a && c !in a' && a + [c] + b == a' + [c] + b'
    ensures a == a' && b == b'
  {
    FirstIndex(a, c, b);
    FirstIndex(a', c, b');
    var s := a + [c] + b;
    assert s[..|a|] == a && s[|a| + 1..] == b;
    assert s[..|a'|] == a' && s[|a'| + 1..] == b';
  }

  function Join(parts: seq<string>, sep: string): string {
    if |parts| == 0 then "" else if |parts| == 1 then parts[0]
    else parts[0] + sep + Join(parts[1..], sep)
  }

  function Decimal(n: int): string
    decreases n < 0, if n < 0 then -n else n
  {
    if n < 0 then "-" + Decimal(-n)
    else if n < 10 then [('0' as int + n) as char]
    else Decimal(n / 10) + [('0' as int + n % 10) as char]
  }

  predicate Digits(s: string) {
    s != "" && forall i :: 0 <= i < |s| ==> '0' <= s[i] <= '9'
  }

  /** The number that a decimal text denotes. */
  function Value(s: string): int {
    if s == "" then 0
    else if s[0] == '-' then -Value(s[1..])
    else Value(s[..|s| - 1]) * 10 + (s[|s| - 1] as int - '0' as int)
  }

  lemma {:induction false} DecimalDigits(n: nat)
    ensures Digits(Decimal(n)) && Value(Decimal(n)) == n
    decreases n
  {
    if n >= 10 {
      DecimalDigits(n / 10);
      var s := Decimal(n);
      assert s[..|s| - 1] == Decimal(n / 10);
      assert s[0] == Decimal(n / 10)[0];
    }
  }

  lemma NegatedDigits(s: string)
    requires Digits(s)
    ensures ' ' !in "-" + s && Value("-" + s) == -Value(s)
  {
    var t := "-" + s;
    assert t[0] == '-' && t[1..] == s;
    assert forall i :: 0 < i < |t| ==> t[i] == s[i - 1];
  }

  /** The text of an integer has no space and denotes that integer. */
  lemma DecimalRoundTrip(n: int)
    ensures ' ' !in Decimal(n) && Value(Decimal(n)) == n
  {
    if n < 0 {
      DecimalDigits(-n);
      NegatedDigits(Decimal(-n));
    } else {
      DecimalDigits(n);
    }
  }

  predicate Ascii(s: string) {
    forall i :: 0 <= i < |s| ==> s[i] < 128 as char
  }

  /** Lower-casing moves capital letters and leaves every other ASCII character. */
  lemma LowerAscii(s: string, i: nat)
    requires Ascii(s) && i < |s|
    ensures |Lower(s)| == |s|
    ensures if 'A' <= s[i] <= 'Z' then Lower(s)[i] as int == s[i] as int + 32 else Lower(s)[i] == s[i]
  {}

  /** ASCII texts are equal up to case exactly when their lower cases are equal. */
  lemma EqualFoldAscii(a: string, b: string)
    requires Ascii(a) && Ascii(b)
    ensures EqualFold(a, b) <==> Lower(a) == Lower(b)
  {
    if EqualFold(a, b) {
      assert forall i :: 0 <= i < |a| ==> FoldChar(a[i]) == FoldChar(b[i]) && Lower(a)[i] == Lower(b)[i];
    }
    if Lower(a) == Lower(b) {
      assert |a| == |Lower(a)| == |b|;
      forall i | 0 <= i < |a| ensures FoldChar(a[i]) == FoldChar(b[i]) {
        assert FoldChar(a[i]) == Lower(a)[i] && FoldChar(b[i]) == Lower(b)[i];
      }
    }
  }

  predicate Around(s: string, a: string, sub: string, b: string) {
    s == a + sub + b
  }

  /** A text contains another exactly when it is that text with something before and after. */
  lemma ContainsExactly(s: string, sub: string)
    ensures Contains(s, sub) <==> exists a, b :: Around(s, a, sub, b)
  {
    if Contains(s, sub) {
      var i :| 0 <= i <= |s| && OccursAt(s, sub, i);
      assert Around(s, s[..i], sub, s[i + |sub|..]);
    }
    if exists a, b :: Around(s, a, sub, b) {
      var a, b :| Around(s, a, sub, b);
      assert OccursAt(s, sub, |a|);
    }
  }
}
