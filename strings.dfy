/** The JavaScript string operations the application relies on, over
    `seq<char>`: lower-casing, `trim`, `includes`, decimal conversion
    (`String(n)`, `parseInt`), `padStart`, `join` and the code-point order
    the database uses to sort text. */
module Strings {

  // ---------------------------------------------------------------------------
  // Case

  predicate IsUpper(c: char) { 'A' <= c <= 'Z' }

  /** `toLowerCase` on one character (ASCII letters; every other character is kept). */
  function LowerChar(c: char): (d: char)
    ensures !IsUpper(d)
    ensures !IsUpper(c) ==> d == c
  {
    if IsUpper(c) then (c as int + 32) as char else c
  }

  /** `toLowerCase`, as a per-character map. */
  function Lower(s: string): (r: string)
    ensures |r| == |s|
  {
    seq(|s|, i requires 0 <= i < |s| => LowerChar(s[i]))
  }

  /** A lower-cased string has no upper-case letter, and keeps every other character. */
  lemma LowerHasNoUpper(s: string)
    ensures forall i | 0 <= i < |s| :: !IsUpper(Lower(s)[i])
    ensures forall i | 0 <= i < |s| :: !IsUpper(s[i]) ==> Lower(s)[i] == s[i]
  {
  }

  lemma LowerAppend(a: string, b: string)
    ensures Lower(a + b) == Lower(a) + Lower(b)
  {
    assert forall i | 0 <= i < |a + b| :: Lower(a + b)[i] == (Lower(a) + Lower(b))[i];
  }

  // ---------------------------------------------------------------------------
  // Whitespace and trim

  /** The characters `String.prototype.trim` strips, which are also the ones the
      regular-expression class `\s` matches: WhiteSpace and LineTerminator. */
  predicate IsWhitespace(c: char) {
    || c == '\t' || c == '\n' || c == '\U{000B}' || c == '\U{000C}' || c == '\r'
    || c == ' ' || c == '\U{00A0}' || c == '\U{1680}'
    || ('\U{2000}' <= c <= '\U{200A}')
    || c == '\U{2028}' || c == '\U{2029}' || c == '\U{202F}' || c == '\U{205F}'
    || c == '\U{3000}' || c == '\U{FEFF}'
  }

  predicate AllWhitespace(s: string) {
    forall i | 0 <= i < |s| :: IsWhitespace(s[i])
  }

  function TrimStart(s: string): string {
    if |s| > 0 && IsWhitespace(s[0]) then TrimStart(s[1..]) else s
  }

  function TrimEnd(s: string): string {
    if |s| > 0 && IsWhitespace(s[|s| - 1]) then TrimEnd(s[..|s| - 1]) else s
  }

  /** `trim`: drops leading and trailing whitespace. */
  function Trim(s: string): string {
    TrimEnd(TrimStart(s))
  }

  lemma {:induction false} TrimStartIsSuffix(s: string)
    ensures |TrimStart(s)| <= |s|
    ensures TrimStart(s) == s[|s| - |TrimStart(s)|..]
    ensures AllWhitespace(s[..|s| - |TrimStart(s)|])
    ensures TrimStart(s) == [] || !IsWhitespace(TrimStart(s)[0])
  {
    if |s| > 0 && IsWhitespace(s[0]) {
      TrimStartIsSuffix(s[1..]);
      var t := TrimStart(s[1..]);
      assert s[1..][..|s| - 1 - |t|] == s[1..|s| - |t|];
      assert forall i | 1 <= i < |s| - |t| :: s[i] == s[1..|s| - |t|][i - 1];
    }
  }

  lemma {:induction false} TrimEndIsPrefix(s: string)
    ensures |TrimEnd(s)| <= |s|
    ensures TrimEnd(s) == s[..|TrimEnd(s)|]
    ensures AllWhitespace(s[|TrimEnd(s)|..])
    ensures TrimEnd(s) == [] || !IsWhitespace(TrimEnd(s)[|TrimEnd(s)| - 1])
  {
    if |s| > 0 && IsWhitespace(s[|s| - 1]) {
      var s' := s[..|s| - 1];
      TrimEndIsPrefix(s');
      var t := TrimEnd(s');
      assert s'[..|t|] == s[..|t|];
      assert forall i | |t| <= i < |s| - 1 :: s[i] == s'[|t|..][i - |t|];
    }
  }

  /** `trim` keeps a contiguous piece of its input whose first and last characters
      are not whitespace, and removes only whitespace around it. */
  lemma TrimIsCore(s: string)
    ensures |Trim(s)| <= |s|
    ensures Trim(s) == [] || (!IsWhitespace(Trim(s)[0]) && !IsWhitespace(Trim(s)[|Trim(s)| - 1]))
    ensures exists i | 0 <= i <= |s| - |Trim(s)| ::
              s[i..i + |Trim(s)|] == Trim(s) && AllWhitespace(s[..i]) && AllWhitespace(s[i + |Trim(s)|..])
  {
    var u := TrimStart(s);
    TrimStartIsSuffix(s);
    TrimEndIsPrefix(u);
    var t := TrimEnd(u);
    var i := |s| - |u|;
    assert s[i..i + |t|] == u[..|t|];
    assert s[i + |t|..] == u[|t|..];
    if t != [] {
      assert t[0] == u[0];
    }
  }

  lemma {:induction false} TrimEndDropsWhitespaceTail(x: string, w: string)
    requires AllWhitespace(w)
    ensures TrimEnd(x + w) == TrimEnd(x)
    decreases |w|
  {
    if |w| > 0 {
      var w' := w[..|w| - 1];
      assert (x + w)[..|x + w| - 1] == x + w';
      TrimEndDropsWhitespaceTail(x, w');
    } else {
      assert x + w == x;
    }
  }

  lemma {:induction false} TrimStartOfAppend(x: string, w: string)
    ensures TrimStart(x) != [] ==> TrimStart(x + w) == TrimStart(x) + w
    ensures TrimStart(x) == [] ==> TrimStart(x + w) == TrimStart(w)
    decreases |x|
  {
    if |x| == 0 {
      assert x + w == w;
    } else if IsWhitespace(x[0]) {
      assert (x + w)[1..] == x[1..] + w;
      TrimStartOfAppend(x[1..], w);
    }
  }

  /** Whitespace appended to a string never lengthens its trimmed form. */
  lemma TrimIgnoresWhitespacePadding(x: string, w: string)
    requires AllWhitespace(w)
    ensures |Trim(x + w)| <= |x|
  {
    TrimStartOfAppend(x, w);
    TrimStartIsSuffix(x);
    if TrimStart(x) != [] {
      TrimEndDropsWhitespaceTail(TrimStart(x), w);
      TrimEndIsPrefix(TrimStart(x));
    } else {
      TrimStartOfWhitespace(w);
    }
  }

  lemma {:induction false} TrimStartOfWhitespace(w: string)
    requires AllWhitespace(w)
    ensures TrimStart(w) == []
  {
    if |w| > 0 {
      TrimStartOfWhitespace(w[1..]);
    }
  }

  // ---------------------------------------------------------------------------
  // Substrings: `includes`

  /** `p` occurs in `s` at position `i`. */
  predicate MatchAt(s: string, p: string, i: nat) {
    i + |p| <= |s| && s[i..i + |p|] == p
  }

  /** `s.includes(p)`. */
  predicate Contains(s: string, p: string) {
    exists i: nat | i <= |s| :: MatchAt(s, p, i)
  }

  /** `s` has the two characters `x`, `y` next to each other. */
  predicate Pair(s: string, x: char, y: char) {
    exists i: nat | i + 1 < |s| :: s[i] == x && s[i + 1] == y
  }

  lemma ContainsAt(s: string, p: string, i: nat)
    requires MatchAt(s, p, i)
    ensures Contains(s, p)
  {
  }

  /** A match in `a` is a match in `a + b`. */
  lemma PrefixMatch(a: string, b: string, p: string, k: nat)
    requires MatchAt(a, p, k)
    ensures MatchAt(a + b, p, k)
  {
    assert (a + b)[k..k + |p|] == a[k..k + |p|];
  }

  /** A match in `b` is a match in `a + b`, shifted. */
  lemma SuffixMatch(a: string, b: string, p: string, k: nat)
    requires MatchAt(b, p, k)
    ensures MatchAt(a + b, p, |a| + k)
  {
    assert (a + b)[|a| + k..|a| + k + |p|] == b[k..k + |p|];
  }

  /** `Contains` is transitive. */
  lemma ContainsTransitive(a: string, b: string, c: string)
    requires Contains(a, b) && Contains(b, c)
    ensures Contains(a, c)
  {
    var i: nat :| i <= |a| && MatchAt(a, b, i);
    var j: nat :| j <= |b| && MatchAt(b, c, j);
    assert a[i..i + |b|] == b;
    forall k | 0 <= k < |c|
      ensures a[i + j + k] == c[k]
    {
      assert a[i + j + k] == a[i..i + |b|][j + k];
    }
    assert a[i + j..i + j + |c|] == c;
    assert MatchAt(a, c, i + j);
  }

  /** A pattern with a character the string lacks does not occur in it. */
  lemma NotContainsByChar(s: string, p: string, j: nat)
    requires j < |p| && p[j] !in s
    ensures !Contains(s, p)
  {
    forall i: nat | i <= |s|
      ensures !MatchAt(s, p, i)
    {
      if i + |p| <= |s| {
        assert s[i..i + |p|][j] == s[i + j];
      }
    }
  }

  /** A pattern with two adjacent characters the string never has side by side
      does not occur in it. */
  lemma NotContainsByPair(s: string, p: string, j: nat)
    requires j + 1 < |p| && !Pair(s, p[j], p[j + 1])
    ensures !Contains(s, p)
  {
    forall i: nat | i <= |s|
      ensures !MatchAt(s, p, i)
    {
      if i + |p| <= |s| {
        assert s[i..i + |p|][j] == s[i + j];
        assert s[i..i + |p|][j + 1] == s[i + j + 1];
      }
    }
  }

  /** Adjacent characters of a concatenation lie in one part or across the seam. */
  lemma PairOfAppend(a: string, b: string, x: char, y: char)
    requires !Pair(a, x, y) && !Pair(b, x, y)
    requires a == [] || b == [] || a[|a| - 1] != x || b[0] != y
    ensures !Pair(a + b, x, y)
  {
    forall i: nat | i + 1 < |a + b|
      ensures !((a + b)[i] == x && (a + b)[i + 1] == y)
    {
      if i + 1 < |a| {
        assert (a + b)[i] == a[i] && (a + b)[i + 1] == a[i + 1];
      } else if i >= |a| {
        assert (a + b)[i] == b[i - |a|] && (a + b)[i + 1] == b[i - |a| + 1];
      }
    }
  }

  /** A pattern with an upper-case letter never occurs in a lower-cased string. */
  lemma UpperPatternNeverInLower(s: string, p: string, j: nat)
    requires j < |p| && IsUpper(p[j])
    ensures !Contains(Lower(s), p)
  {
    LowerHasNoUpper(s);
    NotContainsByChar(Lower(s), p, j);
  }

  // ---------------------------------------------------------------------------
  // Decimal numbers

  predicate IsDigit(c: char) { '0' <= c <= '9' }

  predicate AllDigits(s: string) {
    forall i | 0 <= i < |s| :: IsDigit(s[i])
  }

  function DigitChar(d: nat): (c: char)
    requires d < 10
    ensures IsDigit(c)
  {
    ('0' as int + d) as char
  }

  function DigitValue(c: char): (d: nat)
    requires IsDigit(c)
    ensures d < 10 && DigitChar(d) == c
  {
    c as int - '0' as int
  }

  /** `parseInt` of a string of decimal digits. */
  function DigitsValue(s: string): nat
    requires AllDigits(s)
  {
    if |s| == 0 then 0 else 10 * DigitsValue(s[..|s| - 1]) + DigitValue(s[|s| - 1])
  }

  /** `String(n)` for a non-negative integer. */
  function NatToString(n: nat): (r: string)
    ensures |r| > 0 && AllDigits(r)
    ensures r[0] == '0' ==> n == 0
  {
    if n < 10 then [DigitChar(n)] else NatToString(n / 10) + [DigitChar(n % 10)]
  }

  /** `String(i)` for any integer. */
  function IntToString(i: int): string {
    if i < 0 then "-" + NatToString(-i) else NatToString(i)
  }

  /** Reading back the decimal form of `n` gives `n`. */
  lemma {:induction false} NatToStringRoundTrip(n: nat)
    ensures DigitsValue(NatToString(n)) == n
  {
    if n >= 10 {
      var s := NatToString(n);
      assert s[..|s| - 1] == NatToString(n / 10);
      NatToStringRoundTrip(n / 10);
    }
  }

  /** The decimal form has exactly as many digits as the magnitude calls for. */
  lemma NatToStringLength(n: nat)
    ensures n < 10 ==> |NatToString(n)| == 1
    ensures 10 <= n < 100 ==> |NatToString(n)| == 2
    ensures 1000 <= n < 10000 ==> |NatToString(n)| == 4
  {
    if 1000 <= n < 10000 {
      assert |NatToString(n / 1000)| == 1;
      assert n / 10 / 10 == n / 100 && n / 100 / 10 == n / 1000;
      assert |NatToString(n / 100)| == |NatToString(n / 1000)| + 1;
      assert |NatToString(n / 10)| == |NatToString(n / 100)| + 1;
    }
  }

  /** `s.padStart(width, fill)`. */
  function PadStart(s: string, width: nat, fill: char): (r: string)
    ensures |r| == if |s| >= width then |s| else width
    ensures r[|r| - |s|..] == s
    ensures forall i | 0 <= i < |r| - |s| :: r[i] == fill
  {
    if |s| >= width then s else seq(width - |s|, _ => fill) + s
  }

  // ---------------------------------------------------------------------------
  // `join`

  /** `parts.join(sep)`. */
  function Join(parts: seq<string>, sep: string): string {
    if |parts| == 0 then ""
    else if |parts| == 1 then parts[0]
    else Join(parts[..|parts| - 1], sep) + sep + parts[|parts| - 1]
  }

  /** Each part of a join occurs in the joined text. */
  lemma {:induction false} JoinContainsPart(parts: seq<string>, sep: string, i: nat)
    requires i < |parts|
    ensures Contains(Join(parts, sep), parts[i])
  {
    var n := |parts|;
    if n == 1 {
      assert MatchAt(Join(parts, sep), parts[i], 0);
    } else if i == n - 1 {
      var front := Join(parts[..n - 1], sep) + sep;
      assert Join(parts, sep) == front + parts[i];
      assert MatchAt(Join(parts, sep), parts[i], |front|);
    } else {
      JoinContainsPart(parts[..n - 1], sep, i);
      var k: nat :| k <= |Join(parts[..n - 1], sep)| && MatchAt(Join(parts[..n - 1], sep), parts[i], k);
      PrefixMatch(Join(parts[..n - 1], sep), sep + parts[n - 1], parts[i], k);
      assert Join(parts, sep) == Join(parts[..n - 1], sep) + (sep + parts[n - 1]);
    }
  }

  // ---------------------------------------------------------------------------
  // Code-point order of text

  /** `a` sorts strictly before `b`, comparing code points left to right. */
  predicate StrLt(a: string, b: string) {
    if |a| == 0 then |b| > 0
    else if |b| == 0 then false
    else if a[0] < b[0] then true
    else if a[0] > b[0] then false
    else StrLt(a[1..], b[1..])
  }

  predicate StrLe(a: string, b: string) { a == b || StrLt(a, b) }

  lemma {:induction false} StrLtIrreflexive(a: string)
    ensures !StrLt(a, a)
  {
    if |a| > 0 { StrLtIrreflexive(a[1..]); }
  }

  lemma {:induction false} StrLtTransitive(a: string, b: string, c: string)
    requires StrLt(a, b) && StrLt(b, c)
    ensures StrLt(a, c)
  {
    if |a| > 0 && |b| > 0 && |c| > 0 && a[0] == b[0] == c[0] {
      StrLtTransitive(a[1..], b[1..], c[1..]);
    }
  }

  lemma {:induction false} StrLtTotal(a: string, b: string)
    ensures a == b || StrLt(a, b) || StrLt(b, a)
  {
    if |a| > 0 && |b| > 0 && a[0] == b[0] {
      StrLtTotal(a[1..], b[1..]);
      if a[1..] == b[1..] {
        assert a == [a[0]] + a[1..] && b == [b[0]] + b[1..];
      }
    }
  }

  lemma StrLtAsymmetric(a: string, b: string)
    ensures !(StrLt(a, b) && StrLt(b, a))
  {
    if StrLt(a, b) && StrLt(b, a) {
      StrLtTransitive(a, b, a);
      StrLtIrreflexive(a);
    }
  }

  /** `StrLe` is a total order on strings. */
  lemma StrLeTotalOrder(a: string, b: string, c: string)
    ensures StrLe(a, b) || StrLe(b, a)
    ensures StrLe(a, b) && StrLe(b, a) ==> a == b
    ensures StrLe(a, b) && StrLe(b, c) ==> StrLe(a, c)
  {
    StrLtTotal(a, b);
    StrLtAsymmetric(a, b);
    if StrLt(a, b) && StrLt(b, c) { StrLtTransitive(a, b, c); }
  }
}
