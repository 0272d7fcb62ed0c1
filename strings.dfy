/**
 * Text helpers shared by the views: Foundation's whitespace set, trimming,
 * `joined(separator:)`, decimal rendering of integers and Swift's ordering
 * of strings (code point by code point; every string the app compares is
 * ASCII).
 */
module Strings {

  /** Membership in `CharacterSet.whitespacesAndNewlines`. */
  predicate IsWhitespace(c: char) {
    c == ' ' || c == '\t' || c == '\n' || c == '\r' || c == '\U{000B}' || c == '\U{000C}'
    || c == '\U{0085}' || c == '\U{00A0}' || c == '\U{1680}' || ('\U{2000}' <= c <= '\U{200A}')
    || c == '\U{2028}' || c == '\U{2029}' || c == '\U{202F}' || c == '\U{205F}' || c == '\U{3000}'
  }

  /** Number of leading characters of `s` that satisfy `drop`. */
  function Leading(s: string, drop: char -> bool): (n: nat)
    ensures n <= |s|
    ensures forall k :: 0 <= k < n ==> drop(s[k])
    ensures n == |s| || !drop(s[n])
  {
    if s != [] && drop(s[0]) then 1 + Leading(s[1..], drop) else 0
  }

  /** Drops the trailing characters that satisfy `drop`. */
  function TrimEnd(s: string, drop: char -> bool): (r: string)
    ensures |r| <= |s| && r == s[..|r|]
    ensures forall i :: |r| <= i < |s| ==> drop(s[i])
    ensures r == [] || !drop(r[|r| - 1])
  {
    if s != [] && drop(s[|s| - 1]) then TrimEnd(s[..|s| - 1], drop) else s
  }

  /**
   * `trimmingCharacters(in:)`: the longest infix of `s` that neither starts
   * nor ends with a character of the set.
   */
  function TrimBy(s: string, drop: char -> bool): (r: string)
    ensures Leading(s, drop) + |r| <= |s|
    ensures r == s[Leading(s, drop)..Leading(s, drop) + |r|]
    ensures forall k :: Leading(s, drop) + |r| <= k < |s| ==> drop(s[k])
    ensures r == [] || (!drop(r[0]) && !drop(r[|r| - 1]))
    ensures r == [] <==> forall k :: 0 <= k < |s| ==> drop(s[k])
  {
    var i := Leading(s, drop);
    var r := TrimEnd(s[i..], drop);
    assert forall k :: i + |r| <= k < |s| ==> s[k] == s[i..][k - i];
    r
  }

  /** `trimmingCharacters(in: .whitespacesAndNewlines)`. */
  function Trim(s: string): string {
    TrimBy(s, IsWhitespace)
  }

  /** Trimming an already trimmed string changes nothing. */
  lemma TrimByIdempotent(s: string, drop: char -> bool)
    ensures TrimBy(TrimBy(s, drop), drop) == TrimBy(s, drop)
  {
    var r := TrimBy(s, drop);
    assert Leading(r, drop) == 0;
    assert r[0..] == r;
  }

  /** `Int(_)` on a number: truncation toward zero. */
  function TruncateToInt(x: real): (n: int)
    ensures x >= 0.0 ==> n as real <= x < n as real + 1.0
    ensures x < 0.0 ==> n as real - 1.0 < x <= n as real
  {
    if x >= 0.0 then x.Floor else -((-x).Floor)
  }

  /** A string that neither starts nor ends with whitespace is its own trim. */
  lemma TrimOfTrimmed(t: string)
    requires t != [] && !IsWhitespace(t[0]) && !IsWhitespace(t[|t| - 1])
    ensures Trim(t) == t
  {
    assert Leading(t, IsWhitespace) == 0;
    var r := Trim(t);
    assert |r| == |t|;
  }

  /** `joined(separator:)`. */
  function Join(parts: seq<string>, sep: string): (r: string)
    ensures parts == [] ==> r == ""
    ensures |parts| == 1 ==> r == parts[0]
  {
    if parts == [] then "" else if |parts| == 1 then parts[0] else parts[0] + sep + Join(parts[1..], sep)
  }

  /** Swift's `<` on strings: lexicographic by character code. */
  ghost predicate StrLt(a: string, b: string) {
    exists k :: 0 <= k <= |a| && k <= |b| && a[..k] == b[..k]
                && ((k == |a| && k < |b|) || (k < |a| && k < |b| && a[k] < b[k]))
  }

  /** Names the position at which `a` first falls below `b`. */
  lemma LtAt(a: string, b: string, k: nat)
    requires k <= |a| && k <= |b| && a[..k] == b[..k]
    requires (k == |a| && k < |b|) || (k < |a| && k < |b| && a[k] < b[k])
    ensures StrLt(a, b)
  {
  }

  lemma StrLtIrreflexive(a: string)
    ensures !StrLt(a, a)
  {
  }

  lemma StrLtTransitive(a: string, b: string, c: string)
    requires StrLt(a, b) && StrLt(b, c)
    ensures StrLt(a, c)
  {
    var k1 :| 0 <= k1 <= |a| && k1 <= |b| && a[..k1] == b[..k1]
              && ((k1 == |a| && k1 < |b|) || (k1 < |a| && k1 < |b| && a[k1] < b[k1]));
    var k2 :| 0 <= k2 <= |b| && k2 <= |c| && b[..k2] == c[..k2]
              && ((k2 == |b| && k2 < |c|) || (k2 < |b| && k2 < |c| && b[k2] < c[k2]));
    if k1 <= k2 {
      assert b[..k1] == b[..k2][..k1] == c[..k2][..k1] == c[..k1];
      if k1 < k2 {
        assert k1 < |b| && b[k1] == b[..k2][k1] == c[..k2][k1] == c[k1];
      }
      LtAt(a, c, k1);
    } else {
      assert a[..k2] == a[..k1][..k2] == b[..k1][..k2] == b[..k2];
      assert a[k2] == a[..k1][k2] == b[..k1][k2] == b[k2];
      LtAt(a, c, k2);
    }
  }

  /** Strictly ascending in Swift's string order, hence free of repeats. */
  ghost predicate StrictlySorted(ss: seq<string>) {
    forall i, j :: 0 <= i < j < |ss| ==> StrLt(ss[i], ss[j])
  }

  /** Strict ascent of neighbours is strict ascent of every pair. */
  lemma {:induction false} AdjacentSorted(ss: seq<string>)
    requires forall i :: 0 <= i < |ss| - 1 ==> StrLt(ss[i], ss[i + 1])
    ensures StrictlySorted(ss)
  {
    if |ss| > 1 {
      AdjacentSorted(ss[1..]);
      forall j | 1 < j < |ss| ensures StrLt(ss[0], ss[j]) {
        assert StrLt(ss[1..][0], ss[1..][j - 1]);
        StrLtTransitive(ss[0], ss[1], ss[j]);
      }
    }
  }

  function DigitChar(d: int): (c: char)
    requires 0 <= d < 10
    ensures '0' <= c <= '9'
  {
    ('0' as int + d) as char
  }

  /** Value of a string of decimal digits. */
  function DigitsValue(s: string): int
    requires forall i :: 0 <= i < |s| ==> '0' <= s[i] <= '9'
  {
    if s == [] then 0 else 10 * DigitsValue(s[..|s| - 1]) + (s[|s| - 1] as int - '0' as int)
  }

  /** String interpolation of a non-negative `Int`: decimal digits without leading zeros. */
  function NatToString(n: nat): (r: string)
    ensures |r| >= 1 && (forall i :: 0 <= i < |r| ==> '0' <= r[i] <= '9')
    ensures |r| > 1 ==> r[0] != '0'
    ensures DigitsValue(r) == n
  {
    if n < 10 then [DigitChar(n)]
    else
      var r := NatToString(n / 10) + [DigitChar(n % 10)];
      assert r[..|r| - 1] == NatToString(n / 10);
      r
  }

  /** String interpolation of an `Int`. */
  function IntToString(i: int): (r: string)
    ensures |r| >= 1
    ensures i < 0 <==> r[0] == '-'
  {
    if i < 0 then "-" + NatToString(-i) else NatToString(i)
  }

  /**
   * The pieces of `s` between the occurrences of `sep`, empty pieces
   * included: joining them back with `sep` gives `s` again.
   */
  function Pieces(s: string, sep: char): (r: seq<string>)
    ensures |r| >= 1
    ensures forall p :: p in r ==> sep !in p
    ensures Join(r, [sep]) == s
  {
    if s == [] then [""]
    else
      var rest := Pieces(s[1..], sep);
      if s[0] == sep then
        assert s == [sep] + s[1..];
        [""] + rest
      else
        JoinExtendsHead([s[0]], rest, [sep]);
        assert s == [s[0]] + s[1..];
        [[s[0]] + rest[0]] + rest[1..]
  }

  /** Prefixing the first part prefixes the joined string. */
  lemma JoinExtendsHead(x: string, parts: seq<string>, sep: string)
    requires parts != []
    ensures Join([x + parts[0]] + parts[1..], sep) == x + Join(parts, sep)
  {
    var q := [x + parts[0]] + parts[1..];
    assert q[1..] == parts[1..];
  }

  /** A piece without the separator, then the separator, starts a new piece. */
  lemma {:induction false} PiecesAfterSeparator(a: string, sep: char, b: string)
    requires sep !in a
    ensures Pieces(a + [sep] + b, sep) == [a] + Pieces(b, sep)
  {
    if a == [] {
      assert a + [sep] + b == [sep] + b;
      assert ([sep] + b)[1..] == b;
    } else {
      var s := a + [sep] + b;
      assert s[0] == a[0] && s[1..] == a[1..] + [sep] + b;
      PiecesAfterSeparator(a[1..], sep, b);
      assert [a[0]] + a[1..] == a;
    }
  }

  /** A string without the separator is one piece. */
  lemma {:induction false} PiecesOfOne(a: string, sep: char)
    requires sep !in a
    ensures Pieces(a, sep) == [a]
  {
    if a != [] {
      PiecesOfOne(a[1..], sep);
      assert [a[0]] + a[1..] == a;
    }
  }

  /** The elements of `s` that are not empty, in order. */
  function NonEmpty(s: seq<string>): (r: seq<string>)
    ensures |r| <= |s|
    ensures forall x :: x in r <==> x in s && x != ""
  {
    if s == [] then []
    else if s[0] == "" then NonEmpty(s[1..])
    else [s[0]] + NonEmpty(s[1..])
  }

  /** `split(separator:)`: the pieces between separators, empty ones omitted. */
  function Split(s: string, sep: char): (r: seq<string>)
    ensures forall p :: p in r <==> p in Pieces(s, sep) && p != ""
    ensures forall p :: p in r ==> p != "" && sep !in p
  {
    NonEmpty(Pieces(s, sep))
  }
}
