/**
 * Character-level string helpers shared by the spreadsheet importer and the
 * lineup-text parser: Python's whitespace class, `str.strip`, ASCII case
 * mapping, substring tests, `str.replace(x, '')`, `str.split('\n')` and the
 * decimal rendering of a non-negative `int`.
 */
module Text {

  /** Whitespace as Python's `str.isspace` (and the regex class `\s`) sees it, ASCII range. */
  predicate IsSpace(c: char) {
    c == ' ' || c == '\t' || c == '\n' || c == '\r' || c == '\U{000B}' || c == '\U{000C}'
    || ('\U{001C}' <= c <= '\U{001F}')
  }

  /** The regex class `\d`, ASCII range. */
  predicate IsDigit(c: char) {
    '0' <= c <= '9'
  }

  // ---------------------------------------------------------------------------
  // Stripping
  // ---------------------------------------------------------------------------

  /** Length of the longest prefix of `s` whose characters all satisfy `drop`. */
  function LeadingRun(s: string, drop: char -> bool): (n: nat)
    ensures n <= |s|
  {
    if s != [] && drop(s[0]) then 1 + LeadingRun(s[1..], drop) else 0
  }

  /** Length of the longest suffix of `s` whose characters all satisfy `drop`. */
  function TrailingRun(s: string, drop: char -> bool): (n: nat)
    ensures n <= |s|
  {
    if s != [] && drop(s[|s| - 1]) then 1 + TrailingRun(s[..|s| - 1], drop) else 0
  }

  /** The leading run is exactly the longest all-`drop` prefix. */
  lemma {:induction false} LeadingRunFacts(s: string, drop: char -> bool)
    ensures forall k :: 0 <= k < LeadingRun(s, drop) ==> drop(s[k])
    ensures LeadingRun(s, drop) < |s| ==> !drop(s[LeadingRun(s, drop)])
  {
    if s != [] && drop(s[0]) {
      LeadingRunFacts(s[1..], drop);
    }
  }

  /** A prefix of `n` dropped characters followed by a kept one (or the end) is the leading run. */
  lemma {:induction false} LeadingRunIs(s: string, drop: char -> bool, n: nat)
    requires n <= |s|
    requires forall k :: 0 <= k < n ==> drop(s[k])
    requires n == |s| || !drop(s[n])
    ensures LeadingRun(s, drop) == n
  {
    if n > 0 {
      LeadingRunIs(s[1..], drop, n - 1);
    }
  }

  /** A suffix of `n` dropped characters preceded by a kept one (or the start) is the trailing run. */
  lemma {:induction false} TrailingRunIs(s: string, drop: char -> bool, n: nat)
    requires n <= |s|
    requires forall k :: |s| - n <= k < |s| ==> drop(s[k])
    requires n == |s| || !drop(s[|s| - 1 - n])
    ensures TrailingRun(s, drop) == n
  {
    if n > 0 {
      TrailingRunIs(s[..|s| - 1], drop, n - 1);
    }
  }

  /** The trailing run is exactly the longest all-`drop` suffix. */
  lemma {:induction false} TrailingRunFacts(s: string, drop: char -> bool)
    ensures forall k :: |s| - TrailingRun(s, drop) <= k < |s| ==> drop(s[k])
    ensures TrailingRun(s, drop) < |s| ==> !drop(s[|s| - 1 - TrailingRun(s, drop)])
  {
    if s != [] && drop(s[|s| - 1]) {
      TrailingRunFacts(s[..|s| - 1], drop);
    }
  }

  /** Python's `s.strip(chars)`: both ends trimmed of the characters `drop` selects. */
  function StripWhere(s: string, drop: char -> bool): string {
    var t := s[LeadingRun(s, drop)..];
    t[..|t| - TrailingRun(t, drop)]
  }

  /**
   * What stripping keeps: a contiguous piece of `s` that neither starts nor
   * ends with a dropped character, and that is empty exactly when every
   * character of `s` is dropped.
   */
  lemma StripWhereFacts(s: string, drop: char -> bool)
    ensures var r := StripWhere(s, drop);
      LeadingRun(s, drop) + |r| <= |s| && r == s[LeadingRun(s, drop)..LeadingRun(s, drop) + |r|]
    ensures var r := StripWhere(s, drop);
      r == [] || (!drop(r[0]) && !drop(r[|r| - 1]))
    ensures StripWhere(s, drop) == [] <==> forall k :: 0 <= k < |s| ==> drop(s[k])
  {
    var a := LeadingRun(s, drop);
    var t := s[a..];
    LeadingRunFacts(s, drop);
    TrailingRunFacts(t, drop);
    var r := StripWhere(s, drop);
    assert r == t[..|t| - TrailingRun(t, drop)];
    if r == [] {
      assert a == |s|;
    } else {
      assert r[0] == s[a];
      assert r[|r| - 1] == t[|t| - 1 - TrailingRun(t, drop)];
    }
  }

  /** Stripping never introduces a character. */
  lemma StripWhereKeepsOut(s: string, drop: char -> bool, x: char)
    requires x !in s
    ensures x !in StripWhere(s, drop)
  {
    var t := s[LeadingRun(s, drop)..];
    assert x !in t;
  }

  /** Python's `s.strip()`. */
  function Strip(s: string): string {
    StripWhere(s, IsSpace)
  }

  /** A string that `Strip` leaves as it is. */
  predicate IsTrimmed(s: string) {
    s == [] || (!IsSpace(s[0]) && !IsSpace(s[|s| - 1]))
  }

  lemma StripIsTrimmed(s: string)
    ensures IsTrimmed(Strip(s))
  {
    StripWhereFacts(s, IsSpace);
  }

  /** A string whose ends are both kept is left as it is by stripping. */
  lemma StripWhereKeepsTrimmed(s: string, drop: char -> bool)
    requires s == [] || (!drop(s[0]) && !drop(s[|s| - 1]))
    ensures StripWhere(s, drop) == s
  {
    assert LeadingRun(s, drop) == 0;
    assert TrailingRun(s, drop) == 0;
  }

  /** A trimmed string is its own strip. */
  lemma TrimmedStripsToItself(s: string)
    requires IsTrimmed(s)
    ensures Strip(s) == s
  {
    StripWhereKeepsTrimmed(s, IsSpace);
  }

  /** Stripping `s` that is `k` spaces, `t`, then spaces again gives `t`. */
  lemma StripPadded(s: string, t: string, k: nat)
    requires k + |t| <= |s| && s[k..k + |t|] == t && t != []
    requires !IsSpace(t[0]) && !IsSpace(t[|t| - 1])
    requires forall i :: 0 <= i < k ==> IsSpace(s[i])
    requires forall i :: k + |t| <= i < |s| ==> IsSpace(s[i])
    ensures Strip(s) == t
  {
    LeadingRunIs(s, IsSpace, k);
    var u := s[k..];
    TrailingRunIs(u, IsSpace, |s| - k - |t|);
    assert u[..|t|] == t;
  }

  /** Stripping twice is stripping once. */
  lemma StripIdempotent(s: string)
    ensures Strip(Strip(s)) == Strip(s)
  {
    StripIsTrimmed(s);
    TrimmedStripsToItself(Strip(s));
  }

  // ---------------------------------------------------------------------------
  // Case mapping and searching
  // ---------------------------------------------------------------------------

  function LowerChar(c: char): char {
    if 'A' <= c <= 'Z' then (c as int + 32) as char else c
  }

  function UpperChar(c: char): char {
    if 'a' <= c <= 'z' then (c as int - 32) as char else c
  }

  /** Python's `s.lower()` on the ASCII letters. */
  function LowerAscii(s: string): (r: string)
    ensures |r| == |s|
  {
    if s == [] then [] else [LowerChar(s[0])] + LowerAscii(s[1..])
  }

  /** Lower-casing works character by character. */
  lemma {:induction false} LowerAsciiAt(s: string, i: int)
    requires 0 <= i < |s|
    ensures LowerAscii(s)[i] == LowerChar(s[i])
  {
    if i > 0 {
      LowerAsciiAt(s[1..], i - 1);
    }
  }

  /** Python's `s.startswith(prefix)`. */
  predicate StartsWith(s: string, prefix: string) {
    |prefix| <= |s| && s[..|prefix|] == prefix
  }

  /** The lower-cased `s` starts with `prefix` exactly when its first characters lower-case to it. */
  lemma LowerStartsWith(s: string, prefix: string)
    requires |prefix| <= |s|
    ensures StartsWith(LowerAscii(s), prefix) <==> forall k :: 0 <= k < |prefix| ==> LowerChar(s[k]) == prefix[k]
  {
    forall k | 0 <= k < |prefix|
      ensures LowerAscii(s)[..|prefix|][k] == LowerChar(s[k])
    {
      LowerAsciiAt(s, k);
    }
  }

  /** Python's `sub in s`. */
  predicate Contains(s: string, sub: string)
    decreases |s|
  {
    StartsWith(s, sub) || (s != [] && Contains(s[1..], sub))
  }

  /** Python's `s.replace(x, '')`: every occurrence of `x` removed, all else kept in order. */
  function RemoveChar(s: string, x: char): (r: string)
    ensures x !in r
    ensures forall c :: c != x ==> multiset(r)[c] == multiset(s)[c]
    ensures x !in s ==> r == s
  {
    if s == [] then []
    else
      var rest := RemoveChar(s[1..], x);
      assert s == [s[0]] + s[1..];
      if s[0] == x then rest else [s[0]] + rest
  }

  // ---------------------------------------------------------------------------
  // Splitting on a separator
  // ---------------------------------------------------------------------------

  /** Position of the first `c` in `s`, or `|s|` when there is none. */
  function IndexOf(s: string, c: char): (i: nat)
    ensures i <= |s|
    ensures i < |s| ==> s[i] == c
    ensures c !in s[..i]
  {
    if s == [] then 0
    else if s[0] == c then 0
    else
      var j := IndexOf(s[1..], c);
      assert s[..j + 1] == [s[0]] + s[1..][..j];
      j + 1
  }

  /** The first `c` of `a + b` is the head of `b` when `a` holds none. */
  lemma {:induction false} IndexOfAfter(a: string, b: string, c: char)
    requires c !in a && b != [] && b[0] == c
    ensures IndexOf(a + b, c) == |a|
  {
    if a != [] {
      assert (a + b)[1..] == a[1..] + b;
      IndexOfAfter(a[1..], b, c);
    }
  }

  /** Python's `s.split(sep)` for a one-character separator. */
  function SplitOn(s: string, sep: char): (parts: seq<string>)
    ensures |parts| >= 1
    ensures forall p :: p in parts ==> sep !in p
    decreases |s|
  {
    var i := IndexOf(s, sep);
    if i == |s| then
      assert s[..i] == s;
      [s]
    else [s[..i]] + SplitOn(s[i + 1..], sep)
  }

  /** Python's `sep.join(parts)`. */
  function JoinWith(parts: seq<string>, sep: char): string {
    if parts == [] then []
    else if |parts| == 1 then parts[0]
    else parts[0] + [sep] + JoinWith(parts[1..], sep)
  }

  /** Joining a piece in front of at least one more puts the separator between them. */
  lemma JoinWithCons(p: string, rest: seq<string>, sep: char)
    requires rest != []
    ensures JoinWith([p] + rest, sep) == p + [sep] + JoinWith(rest, sep)
  {
    assert ([p] + rest)[1..] == rest;
  }

  /** Splitting loses nothing: joining the pieces with the separator gives the text back. */
  lemma {:induction false} SplitOnJoin(s: string, sep: char)
    ensures JoinWith(SplitOn(s, sep), sep) == s
    decreases |s|
  {
    var i := IndexOf(s, sep);
    if i < |s| {
      var rest := s[i + 1..];
      var tail := SplitOn(rest, sep);
      assert SplitOn(s, sep) == [s[..i]] + tail;
      SplitOnJoin(rest, sep);
      JoinWithCons(s[..i], tail, sep);
      assert s == s[..i] + [sep] + rest;
    } else {
      assert s[..i] == s;
    }
  }

  /** Splitting undoes joining when no piece holds the separator. */
  lemma {:induction false} JoinWithSplitOn(parts: seq<string>, sep: char)
    requires parts != []
    requires forall p :: p in parts ==> sep !in p
    ensures SplitOn(JoinWith(parts, sep), sep) == parts
    decreases |parts|
  {
    var first := parts[0];
    assert first in parts;
    if |parts| == 1 {
      assert IndexOf(first, sep) == |first|;
      assert first[..|first|] == first;
    } else {
      var rest := parts[1..];
      assert forall p :: p in rest ==> p in parts;
      var tail := JoinWith(rest, sep);
      var s := first + [sep] + tail;
      assert JoinWith(parts, sep) == s;
      assert s == first + ([sep] + tail);
      IndexOfAfter(first, [sep] + tail, sep);
      var i := IndexOf(s, sep);
      assert i == |first| < |s|;
      assert s[..i] == first;
      assert s[i + 1..] == tail;
      assert SplitOn(s, sep) == [first] + SplitOn(tail, sep);
      JoinWithSplitOn(rest, sep);
      assert parts == [first] + rest;
    }
  }

  /** A character in no piece, other than the separator, is not in the joined text. */
  lemma {:induction false} JoinWithKeepsOut(parts: seq<string>, sep: char, x: char)
    requires x != sep
    requires forall p :: p in parts ==> x !in p
    ensures x !in JoinWith(parts, sep)
    decreases |parts|
  {
    if |parts| > 1 {
      assert parts[0] in parts;
      assert forall p :: p in parts[1..] ==> p in parts;
      JoinWithKeepsOut(parts[1..], sep, x);
    }
    if |parts| == 1 {
      assert parts[0] in parts;
    }
  }

  /** The joined text starts with the first piece and ends with the last. */
  lemma {:induction false} JoinWithEnds(parts: seq<string>, sep: char)
    requires parts != [] && parts[0] != [] && parts[|parts| - 1] != []
    ensures JoinWith(parts, sep) != []
    ensures JoinWith(parts, sep)[0] == parts[0][0]
    ensures JoinWith(parts, sep)[|JoinWith(parts, sep)| - 1] == parts[|parts| - 1][|parts[|parts| - 1]| - 1]
    decreases |parts|
  {
    if |parts| > 1 {
      var rest := parts[1..];
      if |rest| > 1 {
        assert rest[0] == parts[1];
      }
      assert rest[|rest| - 1] == parts[|parts| - 1];
      if rest[0] == [] {
        assert |rest| > 1;
      }
      JoinWithEndsTail(rest, sep);
    }
  }

  /** The end of a join whose last piece is not empty. */
  lemma {:induction false} JoinWithEndsTail(parts: seq<string>, sep: char)
    requires parts != [] && parts[|parts| - 1] != []
    ensures JoinWith(parts, sep) != []
    ensures JoinWith(parts, sep)[|JoinWith(parts, sep)| - 1] == parts[|parts| - 1][|parts[|parts| - 1]| - 1]
    decreases |parts|
  {
    if |parts| > 1 {
      var rest := parts[1..];
      assert rest[|rest| - 1] == parts[|parts| - 1];
      JoinWithEndsTail(rest, sep);
    }
  }

  /** A text that starts with `sub` at none of its positions does not contain it. */
  lemma {:induction false} NotContains(s: string, sub: string)
    requires forall i :: 0 <= i <= |s| ==> !StartsWith(s[i..], sub)
    ensures !Contains(s, sub)
    decreases |s|
  {
    assert s[0..] == s;
    if s != [] {
      forall i | 0 <= i <= |s| - 1
        ensures !StartsWith(s[1..][i..], sub)
      {
        assert s[1..][i..] == s[i + 1..];
      }
      NotContains(s[1..], sub);
    }
  }

  // ---------------------------------------------------------------------------
  // Decimal rendering of a non-negative int (Python's f"{n}")
  // ---------------------------------------------------------------------------

  function DigitChar(d: nat): (c: char)
    requires d < 10
    ensures IsDigit(c)
  {
    ('0' as int + d) as char
  }

  function DigitValue(c: char): (d: nat)
    requires IsDigit(c)
    ensures d < 10
  {
    c as int - '0' as int
  }

  predicate AllDigits(s: string) {
    forall c :: c in s ==> IsDigit(c)
  }

  /** Decimal digits of `n`, most significant first, no leading zero. */
  function NatToDecimal(n: nat): (s: string)
    ensures s != [] && AllDigits(s)
    ensures |s| > 1 ==> s[0] != '0'
  {
    if n < 10 then [DigitChar(n)]
    else NatToDecimal(n / 10) + [DigitChar(n % 10)]
  }

  /** The number a string of decimal digits denotes. */
  function DecimalValue(s: string): nat
    requires AllDigits(s)
  {
    if s == [] then 0
    else DecimalValue(s[..|s| - 1]) * 10 + DigitValue(s[|s| - 1])
  }

  /** Reading back the rendering of `n` gives `n`. */
  lemma {:induction false} DecimalRoundTrip(n: nat)
    ensures DecimalValue(NatToDecimal(n)) == n
  {
    if n >= 10 {
      DecimalRoundTrip(n / 10);
      var s := NatToDecimal(n);
      assert s[..|s| - 1] == NatToDecimal(n / 10);
    }
  }

}
