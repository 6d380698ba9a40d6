/** The string operations the tracker relies on: Python's `str(int)`,
    the `"{a}-{b}"` score text, Python's string order, ASCII lower-casing
    and substring search. */
module Text {

  predicate IsDigit(c: char) {
    '0' <= c <= '9'
  }

  predicate AllDigits(s: string) {
    forall i :: 0 <= i < |s| ==> IsDigit(s[i])
  }

  function DigitChar(d: nat): (c: char)
    requires d < 10
    ensures IsDigit(c)
  {
    ('0' as int + d) as char
  }

  function DigitValue(c: char): (d: nat)
    requires IsDigit(c)
    ensures d < 10
  {
    c as int - '0' as int
  }

  /** Python's `str(n)` for a non-negative integer: no sign, no leading zeros. */
  function Decimal(n: nat): (s: string)
    ensures |s| > 0 && AllDigits(s)
    ensures n < 10 <==> |s| == 1
    decreases n
  {
    if n < 10 then [DigitChar(n)] else Decimal(n / 10) + [DigitChar(n % 10)]
  }

  /** The number a string of decimal digits denotes. */
  function DecimalValue(s: string): nat
    requires AllDigits(s)
  {
    if |s| == 0 then 0 else 10 * DecimalValue(s[..|s| - 1]) + DigitValue(s[|s| - 1])
  }

  lemma {:induction false} DecimalRoundTrip(n: nat)
    ensures DecimalValue(Decimal(n)) == n
    decreases n
  {
    if n >= 10 {
      var s := Decimal(n);
      assert s[..|s| - 1] == Decimal(n / 10);
      DecimalRoundTrip(n / 10);
    }
  }

  lemma DecimalInjective(a: nat, b: nat)
    requires Decimal(a) == Decimal(b)
    ensures a == b
  {
    DecimalRoundTrip(a);
    DecimalRoundTrip(b);
  }

  /** The score text `f"{t1Wins}-{t2Wins}"`. */
  function ScoreText(team1Wins: nat, team2Wins: nat): (s: string)
    ensures |s| == |Decimal(team1Wins)| + 1 + |Decimal(team2Wins)|
    ensures s[|Decimal(team1Wins)|] == '-'
  {
    Decimal(team1Wins) + "-" + Decimal(team2Wins)
  }

  /** Two score texts are equal exactly when both game counts are: comparing
      score strings compares the scores position by position. */
  lemma ScoreTextInjective(a: nat, b: nat, c: nat, d: nat)
    ensures ScoreText(a, b) == ScoreText(c, d) <==> a == c && b == d
  {
    if ScoreText(a, b) == ScoreText(c, d) {
      var s, p := ScoreText(a, b), |Decimal(a)|;
      assert Decimal(a) == s[..p] == Decimal(c);
      assert Decimal(b) == s[p + 1..] == Decimal(d);
      DecimalInjective(a, c);
      DecimalInjective(b, d);
    }
  }

  /** Python's `a <= b` on strings: lexicographic by code point. */
  predicate StrLe(a: string, b: string) {
    |a| == 0 || (|b| > 0 && (a[0] < b[0] || (a[0] == b[0] && StrLe(a[1..], b[1..]))))
  }

  lemma {:induction false} StrLeTotal(a: string, b: string)
    ensures StrLe(a, b) || StrLe(b, a)
  {
    if |a| > 0 && |b| > 0 && a[0] == b[0] {
      StrLeTotal(a[1..], b[1..]);
    }
  }

  lemma {:induction false} StrLeAntisymmetric(a: string, b: string)
    requires StrLe(a, b) && StrLe(b, a)
    ensures a == b
  {
    if |a| > 0 {
      StrLeAntisymmetric(a[1..], b[1..]);
      assert a == [a[0]] + a[1..];
      assert b == [b[0]] + b[1..];
    }
  }

  /** The two strings in ascending order, as `tuple(sorted([a, b]))` gives them. */
  function SortedPair(a: string, b: string): (p: (string, string))
    ensures (p.0 == a && p.1 == b) || (p.0 == b && p.1 == a)
    ensures StrLe(p.0, p.1)
  {
    StrLeTotal(a, b);
    if StrLe(a, b) then (a, b) else (b, a)
  }

  /** The sorted pair of two names does not depend on their order. */
  lemma SortedPairSymmetric(a: string, b: string)
    ensures SortedPair(a, b) == SortedPair(b, a)
  {
    if StrLe(a, b) && StrLe(b, a) {
      StrLeAntisymmetric(a, b);
    }
  }

  /** Two pairs sort to the same key exactly when they hold the same two names. */
  lemma SortedPairSameKey(a: string, b: string, c: string, d: string)
    ensures SortedPair(a, b) == SortedPair(c, d) <==> (a == c && b == d) || (a == d && b == c)
  {
    SortedPairSymmetric(a, b);
    SortedPairSymmetric(c, d);
    if StrLe(a, b) && StrLe(b, a) { StrLeAntisymmetric(a, b); }
    if StrLe(c, d) && StrLe(d, c) { StrLeAntisymmetric(c, d); }
  }

  /** `str.lower()` restricted to ASCII letters. */
  function LowerChar(c: char): (r: char)
    ensures 'A' <= c <= 'Z' ==> 'a' <= r <= 'z' && r as int == c as int + 32
    ensures !('A' <= c <= 'Z') ==> r == c
  {
    if 'A' <= c <= 'Z' then (c as int + 32) as char else c
  }

  function Lower(s: string): (r: string)
    ensures |r| == |s|
  {
    seq(|s|, i requires 0 <= i < |s| => LowerChar(s[i]))
  }

  /** Python's `needle in hay` for strings. */
  predicate Contains(hay: string, needle: string) {
    exists i :: 0 <= i <= |hay| - |needle| && OccursAt(hay, needle, i)
  }

  predicate OccursAt(hay: string, needle: string, i: int) {
    0 <= i <= |hay| - |needle| && hay[i..i + |needle|] == needle
  }
}
